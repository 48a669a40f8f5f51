/** ChatController's own mutable state and the steps that change it: the
    presentation-state update with its two single-slot resolvers, the search,
    recording, navigation and title-panel handlers, and bot-command sends.

    Each step is specified by a function over a `Session` value that holds
    every field of the controller; the class's methods change the fields one
    by one, as the controller does, and are proved to end in the state that
    function gives. Disposables are numbered handles: a slot holds the handle
    of the running signal, replacing it disposes the old handle, and a result
    is applied only while its handle is still in its slot. Effects on the
    outside world (recorders, sends, scrolls, started signals) are appended
    to `effects`. */
module ChatController {
  import opened Common
  import opened ChatState
  import opened ChatReducer
  import ChatTitlePanel
  import ChatSearch
  import ChatRecording
  import ChatNavigation
  import ChatRules

  datatype QuerySlot = QuerySlot(query: Option<InputQuery>, handle: nat)
  datatype UrlSlot = UrlSlot(url: Option<string>, handle: nat)
  datatype SearchRequest = SearchRequest(query: string, handle: nat)

  /** A disposed signal, tagged with the slot that held it. */
  datatype Disposable = QuerySignal(handle: nat) | UrlSignal(handle: nat) | SearchSignal(handle: nat) | LookupSignal(handle: nat)

  /** What `messageIndexDisposable` is waiting for. */
  datatype MessageLookup =
    | ToMessage(handle: nat, from: MessageIndex, to: MessageId)
    | ByTimestamp(handle: nat, timestamp: int)

  datatype Effect =
    | RefreshSelectionStates
    | StartAudioRecorder(recorder: nat)
    | StopAudioRecorder(recorder: nat)
    | TakeRecordedData(recorder: nat)
    | PresentVideoRecorder(recorder: nat)
    | DismissVideo(recorder: nat)
    | CompleteVideo(recorder: nat)
    | StopVideo(recorder: nat)
    | LockVideo(recorder: nat)
    | SendMessages(messages: seq<OutgoingMessage>)
    | StartMessageSearch(query: string, handle: nat)
    | StartHistoryLookup(target: MessageId, handle: nat)
    | StartTimestampLookup(timestamp: int, handle: nat)
    | ScrollToMessage(from: MessageIndex, to: MessageIndex)
    | ScrollToEndOfHistory
    | OpenChat(peerId: int, messageId: MessageId)

  /** The controller's fixed inputs: the resolver helpers, the chat's peer,
      whether it is a channel or group, and the title-panel order. */
  datatype Config = Config(env: Env, peerId: int, isChannelOrGroup: bool, rank: TitlePanelContext -> int)

  /** Every field of the controller that the modelled steps touch. */
  datatype Session = Session(
    presentationInterfaceState: PresentationState,
    contextQueryState: Option<QuerySlot>,
    urlPreviewQueryState: Option<UrlSlot>,
    disposed: set<Disposable>,
    nextHandle: nat,
    interactionSelection: Option<set<MessageId>>,
    searching: bool,
    searchRequest: Option<SearchRequest>,
    audioRecorderValue: Option<nat>,
    videoRecorderValue: Option<nat>,
    tempVideoRecorderValue: Option<nat>,
    historyNavigationStack: ChatNavigation.NavigationStack,
    loadingMessage: bool,
    messageIndexLookup: Option<MessageLookup>,
    pendingSendAction: bool,
    badge: string,
    effects: seq<Effect>)

  /** Handles are issued once; a running signal's handle is never disposed. */
  ghost predicate SessionValid(s: Session)
  {
    && (forall d :: d in s.disposed ==> d.handle < s.nextHandle)
    && (s.contextQueryState.Some? ==>
          s.contextQueryState.value.handle < s.nextHandle && QuerySignal(s.contextQueryState.value.handle) !in s.disposed)
    && (s.urlPreviewQueryState.Some? ==>
          s.urlPreviewQueryState.value.handle < s.nextHandle && UrlSignal(s.urlPreviewQueryState.value.handle) !in s.disposed)
    && (s.searchRequest.Some? ==>
          s.searchRequest.value.handle < s.nextHandle && SearchSignal(s.searchRequest.value.handle) !in s.disposed)
    && (s.messageIndexLookup.Some? ==>
          s.messageIndexLookup.value.handle < s.nextHandle && LookupSignal(s.messageIndexLookup.value.handle) !in s.disposed)
  }

  /** Validity reads only the handle bookkeeping. */
  lemma HandlesDecideValidity(s: Session, t: Session)
    requires t.disposed == s.disposed && t.nextHandle == s.nextHandle
    requires t.contextQueryState == s.contextQueryState && t.urlPreviewQueryState == s.urlPreviewQueryState
    requires t.searchRequest == s.searchRequest && t.messageIndexLookup == s.messageIndexLookup
    ensures SessionValid(s) ==> SessionValid(t)
  {
  }

  function QueryHandles(slot: Option<QuerySlot>): set<Disposable>
  {
    if slot.Some? then {QuerySignal(slot.value.handle)} else {}
  }

  function UrlHandles(slot: Option<UrlSlot>): set<Disposable>
  {
    if slot.Some? then {UrlSignal(slot.value.handle)} else {}
  }

  function SearchHandles(slot: Option<SearchRequest>): set<Disposable>
  {
    if slot.Some? then {SearchSignal(slot.value.handle)} else {}
  }

  function LookupHandles(slot: Option<MessageLookup>): set<Disposable>
  {
    if slot.Some? then {LookupSignal(slot.value.handle)} else {}
  }

  /** `contextQueryState?.0`. */
  function CurrentQuery(s: Session): Option<InputQuery>
  {
    if s.contextQueryState.Some? then s.contextQueryState.value.query else None
  }

  /** `urlPreviewQueryState?.0`. */
  function CurrentUrl(s: Session): Option<string>
  {
    if s.urlPreviewQueryState.Some? then s.urlPreviewQueryState.value.url else None
  }

  /** The context-query step of an update on the derived state `d`. */
  function QueryPhase(cfg: Config, s: Session, d: PresentationState): (Session, PresentationState)
  {
    var query := cfg.env.contextQuery(d, CurrentQuery(s));
    if query.Some? then
      (s.(disposed := s.disposed + QueryHandles(s.contextQueryState),
          contextQueryState := Some(QuerySlot(query.value.0, s.nextHandle)),
          nextHandle := s.nextHandle + 1),
       FoldQueryResult(d, query.value.1))
    else (s, d)
  }

  /** The link-preview step; `currentUrl` is read before the update began. */
  function UrlPhase(cfg: Config, s: Session, d: PresentationState, currentUrl: Option<string>): (Session, PresentationState)
  {
    var url := cfg.env.urlPreview(d, currentUrl);
    if url.Some? then
      (s.(disposed := s.disposed + UrlHandles(s.urlPreviewQueryState),
          urlPreviewQueryState := Some(UrlSlot(url.value.0, s.nextHandle)),
          nextHandle := s.nextHandle + 1),
       FoldPreview(d, url.value.0, url.value.1))
    else (s, d)
  }

  /** Commit, and refresh the message list when the selection changed. */
  function CommitPhase(s: Session, d: PresentationState): Session
  {
    var selection := d.interfaceState.selectionState;
    s.(presentationInterfaceState := d,
       interactionSelection := selection,
       effects := s.effects + (if selection != s.interactionSelection then [RefreshSelectionStates] else []))
  }

  /** updateChatPresentationInterfaceState: reconcile, derive, restart the
      resolvers that must restart (disposing the previous signal first),
      commit, and report a changed selection to the message list. */
  function UpdateSpec(cfg: Config, s: Session, f: PresentationState -> PresentationState): (r: Session)
    ensures r.presentationInterfaceState ==
      Committed(cfg.env, s.presentationInterfaceState, f(s.presentationInterfaceState), cfg.isChannelOrGroup, CurrentQuery(s), CurrentUrl(s))
    ensures r.interactionSelection == r.presentationInterfaceState.interfaceState.selectionState
    ensures r.effects == s.effects + (if r.interactionSelection != s.interactionSelection then [RefreshSelectionStates] else [])
    ensures s.disposed <= r.disposed && s.nextHandle <= r.nextHandle
    ensures SessionValid(s) ==> SessionValid(r)
    ensures SessionValid(s) && r.contextQueryState != s.contextQueryState ==> QueryHandles(s.contextQueryState) <= r.disposed
    ensures SessionValid(s) && r.urlPreviewQueryState != s.urlPreviewQueryState ==> UrlHandles(s.urlPreviewQueryState) <= r.disposed
    ensures r == s.(presentationInterfaceState := r.presentationInterfaceState,
                    contextQueryState := r.contextQueryState,
                    urlPreviewQueryState := r.urlPreviewQueryState,
                    disposed := r.disposed, nextHandle := r.nextHandle,
                    interactionSelection := r.interactionSelection, effects := r.effects)
  {
    var d := Derived(cfg.env, s.presentationInterfaceState, f(s.presentationInterfaceState), cfg.isChannelOrGroup);
    var (s1, d1) := QueryPhase(cfg, s, d);
    var (s2, d2) := UrlPhase(cfg, s1, d1, CurrentUrl(s));
    PhasesKeepValid(cfg, s, d);
    CommitPhase(s2, d2)
  }

  lemma PhasesKeepValid(cfg: Config, s: Session, d: PresentationState)
    ensures var (s1, d1) := QueryPhase(cfg, s, d);
      var (s2, d2) := UrlPhase(cfg, s1, d1, CurrentUrl(s));
      && s2 == s.(disposed := s2.disposed, contextQueryState := s2.contextQueryState,
                  urlPreviewQueryState := s2.urlPreviewQueryState, nextHandle := s2.nextHandle)
      && s.disposed <= s2.disposed && s.nextHandle <= s2.nextHandle
      && (SessionValid(s) ==> SessionValid(s1) && SessionValid(CommitPhase(s2, d2)))
      && (SessionValid(s) && s1.contextQueryState != s.contextQueryState ==> QueryHandles(s.contextQueryState) <= s1.disposed)
      && (SessionValid(s) && s2.urlPreviewQueryState != s1.urlPreviewQueryState ==> UrlHandles(s1.urlPreviewQueryState) <= s2.disposed)
  {
    var (s1, d1) := QueryPhase(cfg, s, d);
    var (s2, d2) := UrlPhase(cfg, s1, d1, CurrentUrl(s));
    QueryPhaseKeepsValid(cfg, s, d);
    UrlPhaseKeepsValid(cfg, s1, d1, CurrentUrl(s));
    HandlesDecideValidity(s2, CommitPhase(s2, d2));
  }

  /** The context-query step only adds handles, and disposes the one it replaces. */
  lemma QueryPhaseKeepsValid(cfg: Config, s: Session, d: PresentationState)
    ensures var s1 := QueryPhase(cfg, s, d).0;
      && s1 == s.(disposed := s1.disposed, contextQueryState := s1.contextQueryState, nextHandle := s1.nextHandle)
      && s.disposed <= s1.disposed && s.nextHandle <= s1.nextHandle
      && (SessionValid(s) ==> SessionValid(s1))
      && (SessionValid(s) && s1.contextQueryState != s.contextQueryState ==> QueryHandles(s.contextQueryState) <= s1.disposed)
  {
  }

  /** The link-preview step only adds handles, and disposes the one it replaces. */
  lemma UrlPhaseKeepsValid(cfg: Config, s: Session, d: PresentationState, currentUrl: Option<string>)
    ensures var s1 := UrlPhase(cfg, s, d, currentUrl).0;
      && s1 == s.(disposed := s1.disposed, urlPreviewQueryState := s1.urlPreviewQueryState, nextHandle := s1.nextHandle)
      && s.disposed <= s1.disposed && s.nextHandle <= s1.nextHandle
      && (SessionValid(s) ==> SessionValid(s1))
      && (SessionValid(s) && s1.urlPreviewQueryState != s.urlPreviewQueryState ==> UrlHandles(s.urlPreviewQueryState) <= s1.disposed)
  {
  }

  /** A restarted resolver gets a fresh handle, and the one it replaced is disposed. */
  lemma RestartDisposesPrevious(cfg: Config, s: Session, f: PresentationState -> PresentationState)
    requires SessionValid(s)
    requires s.contextQueryState.Some?
    ensures var r := UpdateSpec(cfg, s, f);
      r.contextQueryState != s.contextQueryState ==>
        QuerySignal(s.contextQueryState.value.handle) in r.disposed && r.contextQueryState.Some? &&
        QuerySignal(r.contextQueryState.value.handle) !in r.disposed
  {
    var d := Derived(cfg.env, s.presentationInterfaceState, f(s.presentationInterfaceState), cfg.isChannelOrGroup);
    var (s1, d1) := QueryPhase(cfg, s, d);
    UrlPhaseKeepsValid(cfg, s1, d1, CurrentUrl(s));
    var r := UpdateSpec(cfg, s, f);
    assert r.contextQueryState == s1.contextQueryState;
    assert QuerySignal(s.contextQueryState.value.handle) in QueryHandles(s.contextQueryState);
  }

  /** `$0.updatedInputQueryResult { result($0) }`. */
  function QueryResultApplied(update: QueryUpdate): PresentationState -> PresentationState
  {
    (st: PresentationState) => st.(inputQueryResult := update(st.inputQueryResult))
  }

  /** A context-query result arriving after the update that started it: a
      fresh update, but only while its signal is still the running one. */
  function DeliverQueryResultSpec(cfg: Config, s: Session, handle: nat, update: QueryUpdate): (r: Session)
    ensures s.contextQueryState.None? || s.contextQueryState.value.handle != handle ==> r == s
    // the running signal's result is applied to the current result, and a
    // query the update restarts in scope is applied on top of it
    ensures s.contextQueryState.Some? && s.contextQueryState.value.handle == handle ==>
      var st := s.presentationInterfaceState;
      var cand := st.(inputQueryResult := update(st.inputQueryResult));
      var iq := InScopeQuery(cfg.env, Derived(cfg.env, st, cand, cfg.isChannelOrGroup), CurrentQuery(s));
      r.presentationInterfaceState.inputQueryResult ==
        if iq.Some? then iq.value(update(st.inputQueryResult)) else update(st.inputQueryResult)
    ensures SessionValid(s) ==> SessionValid(r)
  {
    if s.contextQueryState.Some? && s.contextQueryState.value.handle == handle then UpdateSpec(cfg, s, QueryResultApplied(update))
    else s
  }

  /** A link-preview result applied by a fresh update. */
  function PreviewResultApplied(url: Option<string>, update: PreviewUpdate): PresentationState -> PresentationState
  {
    (st: PresentationState) => ApplyPreview(st, url, update)
  }

  function DeliverPreviewResultSpec(cfg: Config, s: Session, handle: nat, update: PreviewUpdate): (r: Session)
    ensures s.urlPreviewQueryState.None? || s.urlPreviewQueryState.value.handle != handle ==> r == s
    // the running signal's webpage is shown for the URL it was started for,
    // unless the update restarts the preview and it resolves in scope
    ensures s.urlPreviewQueryState.Some? && s.urlPreviewQueryState.value.handle == handle ==>
      var cand := ApplyPreview(s.presentationInterfaceState, s.urlPreviewQueryState.value.url, update);
      var ip := InScopePreview(cfg.env,
        AfterContextQuery(cfg.env, Derived(cfg.env, s.presentationInterfaceState, cand, cfg.isChannelOrGroup), CurrentQuery(s)),
        CurrentUrl(s));
      r.presentationInterfaceState.urlPreview ==
        if ip.Some? then ApplyPreview(cand, ip.value.0, ip.value.1).urlPreview else cand.urlPreview
    ensures SessionValid(s) ==> SessionValid(r)
  {
    if s.urlPreviewQueryState.Some? && s.urlPreviewQueryState.value.handle == handle then
      UpdateSpec(cfg, s, PreviewResultApplied(s.urlPreviewQueryState.value.url, update))
    else s
  }

  /** Once an update has replaced the context query, the old query's late
      result changes nothing. */
  lemma ReplacedQueryResultIgnored(cfg: Config, s: Session, f: PresentationState -> PresentationState, update: QueryUpdate)
    requires SessionValid(s)
    requires s.contextQueryState.Some?
    requires UpdateSpec(cfg, s, f).contextQueryState != s.contextQueryState
    ensures var r := UpdateSpec(cfg, s, f);
      DeliverQueryResultSpec(cfg, r, s.contextQueryState.value.handle, update) == r
  {
    var r := UpdateSpec(cfg, s, f);
    assert r.contextQueryState.value.handle == s.nextHandle;
  }

  // ---- Title-panel indicators -------------------------------------------

  function RequestInProgressShown(rank: TitlePanelContext -> int): PresentationState -> PresentationState
  {
    (st: PresentationState) => st.(titlePanelContexts := ChatTitlePanel.AddIfAbsent(st.titlePanelContexts, RequestInProgress, rank))
  }

  function RequestInProgressHidden(st: PresentationState): PresentationState
  {
    st.(titlePanelContexts := ChatTitlePanel.RemoveKind(st.titlePanelContexts, ChatTitlePanel.RequestInProgressKind))
  }

  function ChatInfoToggled(rank: TitlePanelContext -> int): PresentationState -> PresentationState
  {
    (st: PresentationState) => st.(titlePanelContexts := ChatTitlePanel.ToggleChatInfo(st.titlePanelContexts, rank))
  }

  function ToastShown(message: Option<string>, rank: TitlePanelContext -> int): PresentationState -> PresentationState
  {
    (st: PresentationState) => st.(titlePanelContexts := ChatTitlePanel.SetToast(st.titlePanelContexts, message, rank))
  }

  function PinnedStateApplied(pinnedMessageId: Option<MessageId>, peerIsBlocked: bool, canReportPeer: bool,
                              rank: TitlePanelContext -> int): PresentationState -> PresentationState
  {
    (st: PresentationState) => st.(pinnedMessageId := pinnedMessageId, peerIsBlocked := peerIsBlocked, canReportPeer := canReportPeer,
                                   titlePanelContexts := ChatTitlePanel.UpdatePinned(st.titlePanelContexts, pinnedMessageId, rank))
  }

  /** Cached peer data: an update only when something it shows changed. */
  function CachedDataSpec(cfg: Config, s: Session, pinnedMessageId: Option<MessageId>, peerIsBlocked: bool,
                          canReportPeer: bool, pinnedMessageChanged: bool): (r: Session)
    ensures var st := s.presentationInterfaceState;
      var changed := st.pinnedMessageId != pinnedMessageId || st.peerIsBlocked != peerIsBlocked
                     || st.canReportPeer != canReportPeer || pinnedMessageChanged;
      && (!changed ==> r == s)
      && (changed ==> r.presentationInterfaceState.titlePanelContexts ==
                        ChatTitlePanel.UpdatePinned(st.titlePanelContexts, pinnedMessageId, cfg.rank))
    // a change stores the new values, so the same data again changes nothing
    ensures var st := s.presentationInterfaceState;
      (st.pinnedMessageId != pinnedMessageId || st.peerIsBlocked != peerIsBlocked
       || st.canReportPeer != canReportPeer || pinnedMessageChanged) ==>
        && r.presentationInterfaceState.pinnedMessageId == pinnedMessageId
        && r.presentationInterfaceState.peerIsBlocked == peerIsBlocked
        && r.presentationInterfaceState.canReportPeer == canReportPeer
    ensures SessionValid(s) ==> SessionValid(r)
  {
    var st := s.presentationInterfaceState;
    if st.pinnedMessageId != pinnedMessageId || st.peerIsBlocked != peerIsBlocked || st.canReportPeer != canReportPeer || pinnedMessageChanged then
      UpdateSpec(cfg, s, PinnedStateApplied(pinnedMessageId, peerIsBlocked, canReportPeer, cfg.rank))
    else s
  }

  /** The same cached data delivered again, with no pinned-message change,
      changes nothing. */
  lemma CachedDataRepeatIgnored(cfg: Config, s: Session, pinnedMessageId: Option<MessageId>, peerIsBlocked: bool,
                                canReportPeer: bool, pinnedMessageChanged: bool)
    ensures var r := CachedDataSpec(cfg, s, pinnedMessageId, peerIsBlocked, canReportPeer, pinnedMessageChanged);
      CachedDataSpec(cfg, r, pinnedMessageId, peerIsBlocked, canReportPeer, false) == r
  {
  }

  /** After a cached-data update the pinned-message panel is shown exactly
      when a message is pinned, and no indicator is shown twice. */
  lemma CachedDataShowsPinnedPanel(cfg: Config, s: Session, pinnedMessageId: Option<MessageId>, peerIsBlocked: bool,
                                   canReportPeer: bool, pinnedMessageChanged: bool)
    requires ChatTitlePanel.UniqueKinds(s.presentationInterfaceState.titlePanelContexts)
    ensures var st := s.presentationInterfaceState;
      var r := CachedDataSpec(cfg, s, pinnedMessageId, peerIsBlocked, canReportPeer, pinnedMessageChanged).presentationInterfaceState;
      (st.pinnedMessageId != pinnedMessageId || pinnedMessageChanged) ==>
        && r.pinnedMessageId == pinnedMessageId
        && ChatTitlePanel.UniqueKinds(r.titlePanelContexts)
        && (ChatTitlePanel.HasKind(r.titlePanelContexts, ChatTitlePanel.PinnedMessageKind) <==> pinnedMessageId.Some?)
  {
  }

  // ---- Message search -----------------------------------------------------

  function SearchDismissed(st: PresentationState): PresentationState
  {
    st.(search := None)
  }

  function QueryRecorded(query: string): PresentationState -> PresentationState
  {
    (st: PresentationState) => ChatSearch.WithQuery(st, query).0
  }

  function ResultsReplaced(results: Option<SearchResultsState>): PresentationState -> PresentationState
  {
    (st: PresentationState) => ChatSearch.WithResults(st, results)
  }

  /** A transform that keeps the state: the update still runs. */
  function Unchanged(st: PresentationState): PresentationState
  {
    st
  }

  /** `data.resultsState?.currentId` of an open search. */
  function PreviousCurrentId(st: PresentationState): Option<MessageId>
  {
    if st.search.Some? && st.search.value.resultsState.Some? then st.search.value.resultsState.value.currentId else None
  }

  /** updateMessageSearch: a changed query on an open search restarts the
      search; an empty query stops it and clears the results. */
  function UpdateMessageSearchSpec(cfg: Config, s: Session, query: string): (r: Session)
    ensures var before := s.presentationInterfaceState.search;
      var begin := before.Some? && before.value.query != query;
      && (!begin ==> r.searching == s.searching && r.searchRequest == s.searchRequest && r.presentationInterfaceState.search == before)
      && (begin && query == "" ==>
            !r.searching && r.searchRequest.None? && r.presentationInterfaceState.search == Some(SearchData(query, None)))
      && (begin && query != "" ==>
            r.searching && r.searchRequest.Some? && r.searchRequest.value.query == query
            && s.nextHandle <= r.searchRequest.value.handle
            && r.presentationInterfaceState.search == Some(before.value.(query := query)))
      && (begin ==> SearchHandles(s.searchRequest) <= r.disposed)
    ensures SessionValid(s) ==> SessionValid(r)
  {
    var begin := ChatSearch.WithQuery(s.presentationInterfaceState, query).1;
    var s1 := UpdateSpec(cfg, s, QueryRecorded(query));
    if begin then SearchRestarted(cfg, s1, query) else s1
  }

  /** A new query: the running search is disposed; an empty query clears
      the results, any other starts a search for it. */
  function SearchRestarted(cfg: Config, s: Session, query: string): (r: Session)
    ensures query == "" ==>
      && !r.searching && r.searchRequest.None?
      && r.presentationInterfaceState.search == ChatSearch.WithResults(s.presentationInterfaceState, None).search
    ensures query != "" ==>
      && r.searching && r.searchRequest == Some(SearchRequest(query, s.nextHandle))
      && r.presentationInterfaceState == s.presentationInterfaceState
    ensures SearchHandles(s.searchRequest) <= r.disposed
    ensures SessionValid(s) ==> SessionValid(r)
  {
    if query == "" then SearchCleared(cfg, s) else SearchStarted(s, query)
  }

  function SearchCleared(cfg: Config, s: Session): (r: Session)
    ensures !r.searching && r.searchRequest.None?
    ensures r.presentationInterfaceState.search == ChatSearch.WithResults(s.presentationInterfaceState, None).search
    ensures SearchHandles(s.searchRequest) <= r.disposed
    ensures SessionValid(s) ==> SessionValid(r)
  {
    UpdateSpec(cfg, SearchCancelled(s), ResultsReplaced(None))
  }

  /** The running search is disposed and forgotten. */
  function SearchCancelled(s: Session): (r: Session)
    ensures !r.searching && r.searchRequest.None?
    ensures r.presentationInterfaceState == s.presentationInterfaceState
    ensures SearchHandles(s.searchRequest) <= r.disposed
    ensures SessionValid(s) ==> SessionValid(r)
  {
    s.(disposed := s.disposed + SearchHandles(s.searchRequest), searching := false, searchRequest := None)
  }

  function SearchStarted(s: Session, query: string): (r: Session)
    ensures r.searching && r.searchRequest == Some(SearchRequest(query, s.nextHandle))
    ensures r.presentationInterfaceState == s.presentationInterfaceState
    ensures SearchHandles(s.searchRequest) <= r.disposed
    ensures SessionValid(s) ==> SessionValid(r)
  {
    s.(disposed := s.disposed + SearchHandles(s.searchRequest),
       searching := true,
       searchRequest := Some(SearchRequest(query, s.nextHandle)),
       effects := s.effects + [StartMessageSearch(query, s.nextHandle)],
       nextHandle := s.nextHandle + 1)
  }

  /** `navigateToMessage(from: nil, to: toId)` took `s` to `r`: another chat
      is opened for a foreign peer; in this chat nothing happens without an
      anchor; otherwise nothing is remembered, and the target is scrolled to
      from the anchor when in view, or else looked up from it with the
      loading flag on. */
  ghost predicate JumpedFromAnchor(cfg: Config, s: Session, toId: MessageId, view: ChatNavigation.VisibleHistory, r: Session)
  {
    && r.historyNavigationStack == s.historyNavigationStack
    && r.presentationInterfaceState == s.presentationInterfaceState
    && (toId.peerId != cfg.peerId ==> r == s.(effects := s.effects + [OpenChat(toId.peerId, toId)]))
    && (toId.peerId == cfg.peerId && view.anchor.None? ==> r == s)
    && (toId.peerId == cfg.peerId && view.anchor.Some? ==>
          var target := ChatNavigation.MessageInView(view, toId);
          && (target.Some? ==>
                && !r.loadingMessage && r.messageIndexLookup.None?
                && r.effects == s.effects + [ScrollToMessage(view.anchor.value, target.value)])
          && (target.None? ==>
                && r.loadingMessage && r.messageIndexLookup == Some(ToMessage(s.nextHandle, view.anchor.value, toId))
                && r.effects == s.effects + [StartHistoryLookup(toId, s.nextHandle)]))
  }

  /** A jump from no message starts at the anchor and remembers nothing. */
  lemma JumpFromNilIsFromAnchor(cfg: Config, s: Session, toId: MessageId, view: ChatNavigation.VisibleHistory)
    ensures JumpedFromAnchor(cfg, s, toId, view, NavigateToMessageSpec(cfg, s, None, toId, true, view))
  {
    assert FromIndex(view, None) == view.anchor;
  }

  /** A result set from the running search: ids sorted, the current result
      carried forward, and the history scrolled to it. */
  function DeliverSearchResultsSpec(cfg: Config, s: Session, handle: nat, resultIds: seq<MessageId>,
                                    view: ChatNavigation.VisibleHistory): (r: Session)
    ensures s.searchRequest.None? || s.searchRequest.value.handle != handle ==> r == s
    ensures s.searchRequest.Some? && s.searchRequest.value.handle == handle && s.presentationInterfaceState.search.Some? ==>
      var ids := ChatSearch.SortedResultIds(resultIds);
      r.presentationInterfaceState.search ==
        Some(s.presentationInterfaceState.search.value.(resultsState :=
          Some(SearchResultsState(ids, ChatSearch.CarriedCurrentId(ids, PreviousCurrentId(s.presentationInterfaceState))))))
    // after storing the results, the history jumps to the carried result from the anchor
    ensures s.searchRequest.Some? && s.searchRequest.value.handle == handle && s.presentationInterfaceState.search.Some? ==>
      var ids := ChatSearch.SortedResultIds(resultIds);
      var currentId := ChatSearch.CarriedCurrentId(ids, PreviousCurrentId(s.presentationInterfaceState));
      var stored := UpdateSpec(cfg, s, ResultsReplaced(Some(SearchResultsState(ids, currentId))));
      && (currentId.Some? ==> JumpedFromAnchor(cfg, stored, currentId.value, view, r))
      && (currentId.None? ==> r == stored)
    ensures r.searching == s.searching && r.searchRequest == s.searchRequest
    ensures SessionValid(s) ==> SessionValid(r)
  {
    if s.searchRequest.None? || s.searchRequest.value.handle != handle then s
    else if s.presentationInterfaceState.search.Some? then
      var ids := ChatSearch.SortedResultIds(resultIds);
      var currentId := ChatSearch.CarriedCurrentId(ids, PreviousCurrentId(s.presentationInterfaceState));
      var s1 := UpdateSpec(cfg, s, ResultsReplaced(Some(SearchResultsState(ids, currentId))));
      if currentId.Some? then
        JumpFromNilIsFromAnchor(cfg, s1, currentId.value, view);
        NavigateToMessageSpec(cfg, s1, None, currentId.value, true, view)
      else s1
    else UpdateSpec(cfg, s, Unchanged)
  }

  /** The running search finished. */
  function SearchCompletedSpec(s: Session, handle: nat): (r: Session)
    ensures s.searchRequest.Some? && s.searchRequest.value.handle == handle ==> r == s.(searching := false)
    ensures s.searchRequest.None? || s.searchRequest.value.handle != handle ==> r == s
  {
    if s.searchRequest.Some? && s.searchRequest.value.handle == handle then s.(searching := false) else s
  }

  /** Once a new query has restarted the search, the previous search's
      results change nothing. */
  lemma StaleSearchResultsIgnored(cfg: Config, s: Session, query: string, resultIds: seq<MessageId>,
                                  view: ChatNavigation.VisibleHistory)
    requires SessionValid(s)
    requires s.searchRequest.Some?
    ensures var r := UpdateMessageSearchSpec(cfg, s, query);
      r.searchRequest != s.searchRequest ==>
        DeliverSearchResultsSpec(cfg, r, s.searchRequest.value.handle, resultIds, view) == r
  {
  }

  /** navigateMessageSearch: step to the previous or next result and show it. */
  function NavigateSearchSpec(cfg: Config, s: Session, direction: ChatSearch.SearchDirection,
                              view: ChatNavigation.VisibleHistory): (r: Session)
    ensures var st := s.presentationInterfaceState;
      var next := if st.search.Some? && st.search.value.resultsState.Some? then
        ChatSearch.Navigate(st.search.value.resultsState.value, direction) else None;
      && (next.Some? ==> r.presentationInterfaceState.search == Some(st.search.value.(resultsState := next)))
      && (next.None? ==> r.presentationInterfaceState.search == st.search)
    // a step stores the new current result, and the history jumps to it from the anchor
    ensures var st := s.presentationInterfaceState;
      var next := if st.search.Some? && st.search.value.resultsState.Some? then
        ChatSearch.Navigate(st.search.value.resultsState.value, direction) else None;
      next.Some? ==> JumpedFromAnchor(cfg, UpdateSpec(cfg, s, ResultsReplaced(next)), next.value.currentId.value, view, r)
    ensures SessionValid(s) ==> SessionValid(r)
  {
    var st := s.presentationInterfaceState;
    var next := if st.search.Some? && st.search.value.resultsState.Some? then
      ChatSearch.Navigate(st.search.value.resultsState.value, direction) else None;
    if next.Some? then
      JumpFromNilIsFromAnchor(cfg, UpdateSpec(cfg, s, ResultsReplaced(next)), next.value.currentId.value, view);
      NavigateToMessageSpec(cfg, UpdateSpec(cfg, s, ResultsReplaced(next)), None, next.value.currentId.value, true, view)
    else UpdateSpec(cfg, s, Unchanged)
  }

  /** The date sheet's completion: look the date up, with the loading flag on. */
  function OpenCalendarSearchSpec(s: Session, timestamp: int): (r: Session)
    ensures r.loadingMessage && r.messageIndexLookup == Some(ByTimestamp(s.nextHandle, timestamp))
    ensures r.effects == s.effects + [StartTimestampLookup(timestamp, s.nextHandle)] && r.nextHandle == s.nextHandle + 1
    ensures LookupHandles(s.messageIndexLookup) <= r.disposed
    ensures SessionValid(s) ==> SessionValid(r)
    ensures r == s.(loadingMessage := r.loadingMessage, disposed := r.disposed, messageIndexLookup := r.messageIndexLookup,
                    effects := r.effects, nextHandle := r.nextHandle)
  {
    s.(loadingMessage := true,
       disposed := s.disposed + LookupHandles(s.messageIndexLookup),
       messageIndexLookup := Some(ByTimestamp(s.nextHandle, timestamp)),
       effects := s.effects + [StartTimestampLookup(timestamp, s.nextHandle)],
       nextHandle := s.nextHandle + 1)
  }

  /** The date lookup answered: the loading flag drops, and a found message is shown. */
  function DeliverTimestampLookupSpec(cfg: Config, s: Session, handle: nat, messageId: Option<MessageId>,
                                      view: ChatNavigation.VisibleHistory): (r: Session)
    ensures !(s.messageIndexLookup.Some? && s.messageIndexLookup.value.ByTimestamp? && s.messageIndexLookup.value.handle == handle) ==> r == s
    ensures r.presentationInterfaceState == s.presentationInterfaceState
    // the running lookup's answer drops the loading flag, then jumps to a found message from the anchor
    ensures s.messageIndexLookup.Some? && s.messageIndexLookup.value.ByTimestamp? && s.messageIndexLookup.value.handle == handle ==>
      && (messageId.None? ==> r == s.(loadingMessage := false))
      && (messageId.Some? ==> JumpedFromAnchor(cfg, s.(loadingMessage := false), messageId.value, view, r))
    ensures SessionValid(s) ==> SessionValid(r)
  {
    if s.messageIndexLookup.Some? && s.messageIndexLookup.value.ByTimestamp? && s.messageIndexLookup.value.handle == handle then
      var s1 := s.(loadingMessage := false);
      if messageId.Some? then
        JumpFromNilIsFromAnchor(cfg, s1, messageId.value, view);
        NavigateToMessageSpec(cfg, s1, None, messageId.value, true, view)
      else s1
    else s
  }

  /** The date sheet's lookup, answered with nothing, leaves the loading
      flag off; an earlier lookup's late answer is ignored once it was replaced. */
  lemma CalendarLookupAnswered(cfg: Config, s: Session, timestamp: int, messageId: Option<MessageId>,
                               view: ChatNavigation.VisibleHistory)
    requires SessionValid(s)
    ensures var started := OpenCalendarSearchSpec(s, timestamp);
      DeliverTimestampLookupSpec(cfg, started, s.nextHandle, None, view) == started.(loadingMessage := false)
    ensures var started := OpenCalendarSearchSpec(s, timestamp);
      s.messageIndexLookup.Some? ==>
        DeliverTimestampLookupSpec(cfg, started, s.messageIndexLookup.value.handle, messageId, view) == started
  {
    var started := OpenCalendarSearchSpec(s, timestamp);
    if s.messageIndexLookup.Some? {
      assert s.messageIndexLookup.value.handle < s.nextHandle;
      assert started.messageIndexLookup.value.handle != s.messageIndexLookup.value.handle;
    }
  }

  // ---- Jump-back navigation ---------------------------------------------

  /** Where a jump starts: the message jumped from when it is in view, else the anchor. */
  function FromIndex(view: ChatNavigation.VisibleHistory, fromId: Option<MessageId>): Option<MessageIndex>
  {
    if fromId.Some? && ChatNavigation.MessageInView(view, fromId.value).Some? then ChatNavigation.MessageInView(view, fromId.value)
    else view.anchor
  }

  /** navigateToMessage: another chat is opened; in this chat the start
      position is remembered when asked, and the target is scrolled to when
      in view, or else looked up with the loading flag on. */
  function NavigateToMessageSpec(cfg: Config, s: Session, fromId: Option<MessageId>, toId: MessageId, rememberInStack: bool,
                                 view: ChatNavigation.VisibleHistory): (r: Session)
    ensures r.presentationInterfaceState == s.presentationInterfaceState
    ensures r.searching == s.searching && r.searchRequest == s.searchRequest
    ensures fromId.None? || !rememberInStack ==> r.historyNavigationStack == s.historyNavigationStack
    ensures r.historyNavigationStack != s.historyNavigationStack ==>
      FromIndex(view, fromId).Some? && r.historyNavigationStack == ChatNavigation.Add(s.historyNavigationStack, FromIndex(view, fromId).value)
    ensures toId.peerId == cfg.peerId && FromIndex(view, fromId).Some? ==>
      (r.loadingMessage <==> ChatNavigation.MessageInView(view, toId).None?)
    ensures toId.peerId != cfg.peerId ==> r == s.(effects := s.effects + [OpenChat(toId.peerId, toId)])
    // without a start position nothing happens
    ensures toId.peerId == cfg.peerId && FromIndex(view, fromId).None? ==> r == s
    // from a start position: remember it when asked, then scroll or look up
    ensures toId.peerId == cfg.peerId && FromIndex(view, fromId).Some? ==>
      var from := FromIndex(view, fromId).value;
      var target := ChatNavigation.MessageInView(view, toId);
      && (fromId.Some? && rememberInStack ==> r.historyNavigationStack == ChatNavigation.Add(s.historyNavigationStack, from))
      && (target.Some? ==> r.messageIndexLookup.None? && r.effects == s.effects + [ScrollToMessage(from, target.value)])
      && (target.None? ==> r.messageIndexLookup == Some(ToMessage(s.nextHandle, from, toId)) &&
                           r.effects == s.effects + [StartHistoryLookup(toId, s.nextHandle)])
    ensures SessionValid(s) ==> SessionValid(r)
    ensures r == s.(historyNavigationStack := r.historyNavigationStack, loadingMessage := r.loadingMessage,
                    messageIndexLookup := r.messageIndexLookup, disposed := r.disposed,
                    nextHandle := r.nextHandle, effects := r.effects)
  {
    if toId.peerId != cfg.peerId then s.(effects := s.effects + [OpenChat(toId.peerId, toId)])
    else
      var fromIndex := FromIndex(view, fromId);
      if fromIndex.None? then s
      else
        var s1 := if fromId.Some? && rememberInStack then
          s.(historyNavigationStack := ChatNavigation.Add(s.historyNavigationStack, fromIndex.value)) else s;
        ScrollOrLookUp(s1, fromIndex.value, toId, ChatNavigation.MessageInView(view, toId))
  }

  /** The jump itself: scroll to a target in view, or else look it up with
      the loading flag on; either way the running lookup is disposed. */
  function ScrollOrLookUp(s: Session, fromIndex: MessageIndex, toId: MessageId, target: Option<MessageIndex>): (r: Session)
    ensures r.loadingMessage <==> target.None?
    ensures target.Some? ==> r.messageIndexLookup.None? && r.effects == s.effects + [ScrollToMessage(fromIndex, target.value)]
    ensures target.None? ==> r.messageIndexLookup == Some(ToMessage(s.nextHandle, fromIndex, toId))
    ensures target.None? ==> r.effects == s.effects + [StartHistoryLookup(toId, s.nextHandle)] && r.nextHandle == s.nextHandle + 1
    ensures target.Some? ==> r.nextHandle == s.nextHandle
    ensures LookupHandles(s.messageIndexLookup) <= r.disposed
    ensures SessionValid(s) ==> SessionValid(r)
    ensures r == s.(loadingMessage := r.loadingMessage, messageIndexLookup := r.messageIndexLookup,
                    disposed := r.disposed, nextHandle := r.nextHandle, effects := r.effects)
  {
    var s1 := s.(disposed := s.disposed + LookupHandles(s.messageIndexLookup));
    if target.Some? then
      s1.(loadingMessage := false, messageIndexLookup := None,
          effects := s1.effects + [ScrollToMessage(fromIndex, target.value)])
    else
      s1.(loadingMessage := true,
          messageIndexLookup := Some(ToMessage(s1.nextHandle, fromIndex, toId)),
          effects := s1.effects + [StartHistoryLookup(toId, s1.nextHandle)],
          nextHandle := s1.nextHandle + 1)
  }

  /** The history window around the target arrived (a view still loading
      yields nothing and the lookup keeps waiting): scroll to the target if
      it is there; the lookup is then complete and the loading flag drops. */
  function DeliverMessageLookupSpec(s: Session, handle: nat, entries: seq<ChatNavigation.HistoryEntry>): (r: Session)
    ensures !(s.messageIndexLookup.Some? && s.messageIndexLookup.value.ToMessage? && s.messageIndexLookup.value.handle == handle) ==> r == s
    ensures s.messageIndexLookup.Some? && s.messageIndexLookup.value.ToMessage? && s.messageIndexLookup.value.handle == handle ==>
      var l := s.messageIndexLookup.value;
      var found := ChatNavigation.FirstIndexWithId(entries, l.to);
      && !r.loadingMessage && r.messageIndexLookup.None?
      && r.effects == s.effects + (if found.Some? then [ScrollToMessage(l.from, found.value)] else [])
    ensures SessionValid(s) ==> SessionValid(r)
  {
    if s.messageIndexLookup.Some? && s.messageIndexLookup.value.ToMessage? && s.messageIndexLookup.value.handle == handle then
      var l := s.messageIndexLookup.value;
      var found := ChatNavigation.FirstIndexWithId(entries, l.to);
      s.(loadingMessage := false, messageIndexLookup := None,
         effects := s.effects + (if found.Some? then [ScrollToMessage(l.from, found.value)] else []))
    else s
  }

  /** The down button: go back to the last remembered position without
      remembering again, or to the end of the history. */
  function DownPressedSpec(cfg: Config, s: Session, view: ChatNavigation.VisibleHistory): (r: Session)
    ensures s.historyNavigationStack.IsEmpty() ==> r == s.(effects := s.effects + [ScrollToEndOfHistory])
    ensures !s.historyNavigationStack.IsEmpty() ==> r.historyNavigationStack == ChatNavigation.RemoveLast(s.historyNavigationStack).0
    // the jump goes to the popped position, from the anchor
    ensures !s.historyNavigationStack.IsEmpty() ==>
      var top := s.historyNavigationStack.entries[|s.historyNavigationStack.entries| - 1];
      var target := ChatNavigation.MessageInView(view, top.id);
      && (top.id.peerId != cfg.peerId ==> r.effects == s.effects + [OpenChat(top.id.peerId, top.id)])
      && (top.id.peerId == cfg.peerId && view.anchor.None? ==>
            r == s.(historyNavigationStack := ChatNavigation.RemoveLast(s.historyNavigationStack).0))
      && (top.id.peerId == cfg.peerId && view.anchor.Some? && target.Some? ==>
            r.effects == s.effects + [ScrollToMessage(view.anchor.value, target.value)])
      && (top.id.peerId == cfg.peerId && view.anchor.Some? && target.None? ==>
            r.loadingMessage && r.messageIndexLookup == Some(ToMessage(s.nextHandle, view.anchor.value, top.id)))
    ensures SessionValid(s) ==> SessionValid(r)
  {
    var (stack, popped) := ChatNavigation.RemoveLast(s.historyNavigationStack);
    if popped.Some? then NavigateToMessageSpec(cfg, s.(historyNavigationStack := stack), None, popped.value.id, false, view)
    else s.(effects := s.effects + [ScrollToEndOfHistory])
  }

  /** A jump that remembered its start, followed by the down button, leaves
      the stack as it was. */
  lemma {:induction false} DownPressedUndoesRememberedJump(cfg: Config, s: Session, fromId: MessageId, toId: MessageId,
                                                           view: ChatNavigation.VisibleHistory, later: ChatNavigation.VisibleHistory)
    requires toId.peerId == cfg.peerId
    requires FromIndex(view, Some(fromId)).Some?
    requires s.historyNavigationStack.IsEmpty() ||
             s.historyNavigationStack.entries[|s.historyNavigationStack.entries| - 1] != FromIndex(view, Some(fromId)).value
    ensures var jumped := NavigateToMessageSpec(cfg, s, Some(fromId), toId, true, view);
      DownPressedSpec(cfg, jumped, later).historyNavigationStack == s.historyNavigationStack
  {
    var jumped := NavigateToMessageSpec(cfg, s, Some(fromId), toId, true, view);
    assert jumped.historyNavigationStack == ChatNavigation.Add(s.historyNavigationStack, FromIndex(view, Some(fromId)).value);
    ChatNavigation.RemoveLastUndoesAdd(s.historyNavigationStack, FromIndex(view, Some(fromId)).value);
  }

  /** Scrolling past positions forgets them. */
  function MaxVisibleIndexSpec(s: Session, index: MessageIndex): (r: Session)
    ensures forall i :: 0 <= i < |r.historyNavigationStack.entries| ==> !IndexLess(r.historyNavigationStack.entries[i], index)
    // exactly the pruned history: the positions at or above the index, in order
    ensures r.historyNavigationStack == ChatNavigation.FilterOutIndicesLessThan(s.historyNavigationStack, index)
    ensures r == s.(historyNavigationStack := r.historyNavigationStack)
  {
    if !s.historyNavigationStack.IsEmpty() then
      s.(historyNavigationStack := ChatNavigation.FilterOutIndicesLessThan(s.historyNavigationStack, index))
    else s
  }

  // ---- Media recording --------------------------------------------------

  function AudioRecorderApplied(recorder: Option<nat>): PresentationState -> PresentationState
  {
    (st: PresentationState) => st.(inputTextPanelState := ChatRecording.OnAudioRecorder(st.inputTextPanelState, recorder))
  }

  function VideoRecorderApplied(recorder: Option<nat>): PresentationState -> PresentationState
  {
    (st: PresentationState) => st.(inputTextPanelState := ChatRecording.OnVideoRecorder(st.inputTextPanelState, recorder))
  }

  function VideoStoppedForEditing(st: PresentationState): PresentationState
  {
    st.(inputTextPanelState := ChatRecording.StoppedVideoForEditing(st.inputTextPanelState))
  }

  function RecordingLocked(st: PresentationState): PresentationState
  {
    st.(inputTextPanelState := ChatRecording.Locked(st.inputTextPanelState))
  }

  function RecordingModeToggled(st: PresentationState): PresentationState
  {
    st.(interfaceState := st.interfaceState.(mediaRecordingMode := ChatRecording.ToggledMode(st.interfaceState.mediaRecordingMode)))
  }

  /** The committed panel is the helper's derivation from a candidate that
      differs from `prev` only in showing `panel`, which reconciliation keeps. */
  ghost predicate PanelDerivedFrom(cfg: Config, prev: PresentationState, panel: InputTextPanelState, r: PresentationState)
  {
    var t := ReconcileKeyboard(prev, prev.(inputTextPanelState := panel), cfg.isChannelOrGroup);
    t.inputTextPanelState == panel && r.inputTextPanelState == cfg.env.inputTextPanelState(t)
  }

  /** The audio-recorder callback: only a different recorder does anything;
      a new one is shown (when nothing is recording) and started. */
  function AudioRecorderUpdatedSpec(cfg: Config, s: Session, recorder: Option<nat>): (r: Session)
    ensures r.audioRecorderValue == recorder
    ensures s.audioRecorderValue == recorder ==> r == s
    ensures s.audioRecorderValue != recorder && recorder.Some? ==>
      |r.effects| > 0 && r.effects[|r.effects| - 1] == StartAudioRecorder(recorder.value)
    ensures s.effects <= r.effects
    ensures forall i :: |s.effects| <= i < |r.effects| ==> r.effects[i].RefreshSelectionStates? || r.effects[i].StartAudioRecorder?
    ensures r.videoRecorderValue == s.videoRecorderValue
    // the panel shown is derived from one reporting the new recorder
    ensures s.audioRecorderValue != recorder ==>
      PanelDerivedFrom(cfg, s.presentationInterfaceState,
        ChatRecording.OnAudioRecorder(s.presentationInterfaceState.inputTextPanelState, recorder), r.presentationInterfaceState)
    ensures SessionValid(s) ==> SessionValid(r)
  {
    if s.audioRecorderValue == recorder then s
    else
      var s1 := s.(audioRecorderValue := recorder);
      HandlesDecideValidity(s, s1);
      var s2 := UpdateSpec(cfg, s1, AudioRecorderApplied(recorder));
      var r := AudioRecorderStarted(s2, recorder);
      HandlesDecideValidity(s2, r);
      r
  }

  /** A new audio recorder is started once the panel shows it. */
  function AudioRecorderStarted(s: Session, recorder: Option<nat>): (r: Session)
    ensures r == s.(effects := r.effects)
    ensures s.effects <= r.effects
    ensures recorder.Some? ==> |r.effects| == |s.effects| + 1 && r.effects[|s.effects|] == StartAudioRecorder(recorder.value)
    ensures recorder.None? ==> r == s
  {
    if recorder.Some? then s.(effects := s.effects + [StartAudioRecorder(recorder.value)]) else s
  }

  /** The video-recorder callback: a new controller is shown and presented,
      and the one it replaces is dismissed. */
  function VideoRecorderUpdatedSpec(cfg: Config, s: Session, recorder: Option<nat>): (r: Session)
    ensures r.videoRecorderValue == recorder
    ensures s.videoRecorderValue == recorder ==> r == s
    ensures s.videoRecorderValue != recorder && s.videoRecorderValue.Some? ==>
      |r.effects| > 0 && r.effects[|r.effects| - 1] == DismissVideo(s.videoRecorderValue.value)
    ensures s.effects <= r.effects
    ensures r.audioRecorderValue == s.audioRecorderValue
    ensures SessionValid(s) ==> SessionValid(r)
  {
    if s.videoRecorderValue == recorder then s
    else
      var s1 := s.(videoRecorderValue := recorder);
      HandlesDecideValidity(s, s1);
      var s2 := UpdateSpec(cfg, s1, VideoRecorderApplied(recorder));
      var r := VideoControllersSwapped(s2, recorder, s.videoRecorderValue);
      HandlesDecideValidity(s2, r);
      r
  }

  /** The new video controller is presented, then the previous one dismissed. */
  function VideoControllersSwapped(s: Session, recorder: Option<nat>, previous: Option<nat>): (r: Session)
    ensures r == s.(effects := r.effects)
    ensures s.effects <= r.effects
    ensures previous.Some? ==> |r.effects| > 0 && r.effects[|r.effects| - 1] == DismissVideo(previous.value)
    ensures recorder.Some? ==> |r.effects| > |s.effects| && r.effects[|s.effects|] == PresentVideoRecorder(recorder.value)
    ensures recorder.None? && previous.None? ==> r == s
  {
    var s1 := if recorder.Some? then s.(effects := s.effects + [PresentVideoRecorder(recorder.value)]) else s;
    if previous.Some? then s1.(effects := s1.effects + [DismissVideo(previous.value)]) else s1
  }

  /** beginMediaRecording: a recorder is requested only when none of that
      kind exists (a video one also needs the input panel on screen);
      `recorder` is what the media manager or the video controller yields. */
  function BeginMediaRecordingSpec(cfg: Config, s: Session, isVideo: bool, panelFrameAvailable: bool, recorder: Option<nat>): (r: Session)
    ensures !isVideo && s.audioRecorderValue.Some? ==> r == s
    ensures isVideo && (s.videoRecorderValue.Some? || !panelFrameAvailable || recorder.None?) ==> r == s
    ensures !isVideo && s.audioRecorderValue.None? ==> r.audioRecorderValue == recorder
    ensures isVideo && s.videoRecorderValue.None? && panelFrameAvailable ==> r.videoRecorderValue == recorder
    ensures SessionValid(s) ==> SessionValid(r)
  {
    if isVideo then
      if s.videoRecorderValue.None? && panelFrameAvailable && recorder.Some? then VideoRecorderUpdatedSpec(cfg, s, recorder) else s
    else if s.audioRecorderValue.None? then AudioRecorderUpdatedSpec(cfg, s, recorder)
    else s
  }

  /** finishMediaRecording: audio stops (and its take is requested when
      sending) and is released; video completes when sending and is released. */
  function DismissMediaRecorderSpec(cfg: Config, s: Session, sendMedia: bool): (r: Session)
    ensures s.audioRecorderValue.Some? ==>
      && r.audioRecorderValue.None? && r.videoRecorderValue == s.videoRecorderValue
      && |r.effects| > |s.effects| && r.effects[|s.effects|] == StopAudioRecorder(s.audioRecorderValue.value)
      && (sendMedia ==> |r.effects| > |s.effects| + 1 && r.effects[|s.effects| + 1] == TakeRecordedData(s.audioRecorderValue.value))
      && (!sendMedia ==> forall i :: |s.effects| <= i < |r.effects| ==> !r.effects[i].TakeRecordedData?)
    ensures s.audioRecorderValue.None? && s.videoRecorderValue.Some? ==>
      r.videoRecorderValue.None? && (sendMedia ==> r.tempVideoRecorderValue == s.videoRecorderValue)
    ensures s.audioRecorderValue.None? && s.videoRecorderValue.None? ==> r == s
    ensures SessionValid(s) ==> SessionValid(r)
  {
    if s.audioRecorderValue.Some? then AudioDismissed(cfg, s, sendMedia)
    else if s.videoRecorderValue.Some? then VideoDismissed(cfg, s, sendMedia)
    else s
  }

  function AudioDismissed(cfg: Config, s: Session, sendMedia: bool): (r: Session)
    requires s.audioRecorderValue.Some?
    ensures r.audioRecorderValue.None? && r.videoRecorderValue == s.videoRecorderValue
    ensures |r.effects| > |s.effects| && r.effects[|s.effects|] == StopAudioRecorder(s.audioRecorderValue.value)
    ensures sendMedia ==> |r.effects| > |s.effects| + 1 && r.effects[|s.effects| + 1] == TakeRecordedData(s.audioRecorderValue.value)
    ensures !sendMedia ==> forall i :: |s.effects| <= i < |r.effects| ==> !r.effects[i].TakeRecordedData?
    ensures SessionValid(s) ==> SessionValid(r)
  {
    var s1 := StopRequested(s, sendMedia);
    var r := AudioRecorderUpdatedSpec(cfg, s1, None);
    EffectsExtended(s1.effects, r.effects);
    r
  }

  /** The recorder's stop, and the request for its take when sending. */
  function StopRequested(s: Session, sendMedia: bool): (r: Session)
    requires s.audioRecorderValue.Some?
    ensures r == s.(effects := r.effects)
    ensures |r.effects| == |s.effects| + (if sendMedia then 2 else 1)
    ensures r.effects[|s.effects|] == StopAudioRecorder(s.audioRecorderValue.value)
    ensures sendMedia ==> r.effects[|s.effects| + 1] == TakeRecordedData(s.audioRecorderValue.value)
    ensures forall i :: 0 <= i < |s.effects| ==> r.effects[i] == s.effects[i]
  {
    var a := s.audioRecorderValue.value;
    s.(effects := s.effects + [StopAudioRecorder(a)] + (if sendMedia then [TakeRecordedData(a)] else []))
  }

  /** Effects appended after `a` keep `a` in front. */
  lemma EffectsExtended(a: seq<Effect>, b: seq<Effect>)
    requires a <= b
    ensures forall i :: 0 <= i < |a| ==> b[i] == a[i]
  {
  }

  lemma PrefixEntry(a: seq<Effect>, b: seq<Effect>, i: nat)
    requires a <= b
    ensures i < |a| ==> i < |b| && b[i] == a[i]
  {
  }

  /** Dismissing the video recorder: when sending, the controller is first
      completed and kept; then the recorder is released and dismissed. */
  function VideoDismissed(cfg: Config, s: Session, sendMedia: bool): (r: Session)
    requires s.videoRecorderValue.Some?
    ensures r.videoRecorderValue.None? && r.audioRecorderValue == s.audioRecorderValue
    ensures sendMedia ==> r.tempVideoRecorderValue == s.videoRecorderValue
    ensures sendMedia ==> |r.effects| > |s.effects| && r.effects[|s.effects|] == CompleteVideo(s.videoRecorderValue.value)
    ensures |r.effects| > |s.effects| && r.effects[|r.effects| - 1] == DismissVideo(s.videoRecorderValue.value)
    ensures SessionValid(s) ==> SessionValid(r)
  {
    var completed := VideoCompleted(s, sendMedia);
    var r := VideoRecorderUpdatedSpec(cfg, completed, None);
    PrefixEntry(completed.effects, r.effects, |s.effects|);
    r
  }

  /** When sending, the video controller completes and is kept until it is done. */
  function VideoCompleted(s: Session, sendMedia: bool): (r: Session)
    requires s.videoRecorderValue.Some?
    ensures r == s.(effects := r.effects, tempVideoRecorderValue := r.tempVideoRecorderValue)
    ensures sendMedia ==> r.tempVideoRecorderValue == s.videoRecorderValue
    ensures sendMedia ==> r.effects == s.effects + [CompleteVideo(s.videoRecorderValue.value)]
    ensures !sendMedia ==> r == s
  {
    var v := s.videoRecorderValue.value;
    if sendMedia then s.(effects := s.effects + [CompleteVideo(v)], tempVideoRecorderValue := Some(v)) else s
  }

  /** A finished take arrived: it is sent as one voice message unless it is
      shorter than half a second. */
  function DeliverRecordedDataSpec(s: Session, data: Option<ChatRecording.RecordedAudio>, fileId: int): (r: Session)
    ensures data.None? || data.value.duration < 0.5 ==> r == s
    ensures data.Some? && data.value.duration >= 0.5 ==>
      r == s.(effects := s.effects + [SendMessages([ChatRecording.VoiceMessage(data.value, fileId).value])])
  {
    if data.Some? && ChatRecording.VoiceMessage(data.value, fileId).Some? then
      s.(effects := s.effects + [SendMessages([ChatRecording.VoiceMessage(data.value, fileId).value])])
    else s
  }

  /** stopMediaRecording: audio stops and is released (as a dismissal that
      sends nothing); a video that can be edited goes to editing, otherwise
      it is released. `videoStopped` is what the video controller's stop
      answers. */
  function StopMediaRecorderSpec(cfg: Config, s: Session, videoStopped: bool): (r: Session)
    ensures s.audioRecorderValue.Some? ==> r == DismissMediaRecorderSpec(cfg, s, false)
    ensures s.audioRecorderValue.None? && s.videoRecorderValue.Some? ==>
      r.videoRecorderValue == (if videoStopped then s.videoRecorderValue else None)
    ensures s.audioRecorderValue.None? && s.videoRecorderValue.Some? ==>
      |r.effects| > |s.effects| && r.effects[|s.effects|] == StopVideo(s.videoRecorderValue.value)
    ensures s.audioRecorderValue.None? && s.videoRecorderValue.None? ==> r == s
    ensures SessionValid(s) ==> SessionValid(r)
  {
    if s.audioRecorderValue.Some? then AudioDismissed(cfg, s, false)
    else if s.videoRecorderValue.Some? then VideoStopped(cfg, s, videoStopped)
    else s
  }

  function VideoStopped(cfg: Config, s: Session, videoStopped: bool): (r: Session)
    requires s.videoRecorderValue.Some?
    ensures r.videoRecorderValue == (if videoStopped then s.videoRecorderValue else None)
    ensures |r.effects| > |s.effects| && r.effects[|s.effects|] == StopVideo(s.videoRecorderValue.value)
    ensures SessionValid(s) ==> SessionValid(r)
  {
    var s1 := s.(effects := s.effects + [StopVideo(s.videoRecorderValue.value)]);
    HandlesDecideValidity(s, s1);
    if videoStopped then
      var r := VideoKeptForEditing(cfg, s1);
      EffectsExtended(s1.effects, r.effects);
      r
    else
      var r := VideoRecorderUpdatedSpec(cfg, s1, None);
      EffectsExtended(s1.effects, r.effects);
      r
  }

  /** A stopped video stays, in editing state. */
  function VideoKeptForEditing(cfg: Config, s: Session): (r: Session)
    ensures r.videoRecorderValue == s.videoRecorderValue
    ensures s.effects <= r.effects
    // the panel shown is derived from one showing the video in editing
    ensures PanelDerivedFrom(cfg, s.presentationInterfaceState,
      ChatRecording.StoppedVideoForEditing(s.presentationInterfaceState.inputTextPanelState), r.presentationInterfaceState)
    ensures SessionValid(s) ==> SessionValid(r)
  {
    UpdateSpec(cfg, s, VideoStoppedForEditing)
  }

  /** lockMediaRecording: lock a shown recording, and the video controller if any. */
  function LockMediaRecorderSpec(cfg: Config, s: Session): (r: Session)
    ensures s.presentationInterfaceState.inputTextPanelState.mediaRecordingState.None? ==>
      r.presentationInterfaceState == s.presentationInterfaceState
    // a shown recording: the panel is derived from one showing it locked
    ensures s.presentationInterfaceState.inputTextPanelState.mediaRecordingState.Some? ==>
      PanelDerivedFrom(cfg, s.presentationInterfaceState,
        ChatRecording.Locked(s.presentationInterfaceState.inputTextPanelState), r.presentationInterfaceState)
    ensures s.videoRecorderValue.Some? ==> |r.effects| > 0 && r.effects[|r.effects| - 1] == LockVideo(s.videoRecorderValue.value)
    ensures s.videoRecorderValue.None? ==> forall i :: |s.effects| <= i < |r.effects| ==> r.effects[i] == RefreshSelectionStates
    ensures r.audioRecorderValue == s.audioRecorderValue && r.videoRecorderValue == s.videoRecorderValue
    ensures SessionValid(s) ==> SessionValid(r)
  {
    var s1 := if s.presentationInterfaceState.inputTextPanelState.mediaRecordingState.Some? then UpdateSpec(cfg, s, RecordingLocked) else s;
    if s1.videoRecorderValue.Some? then s1.(effects := s1.effects + [LockVideo(s1.videoRecorderValue.value)]) else s1
  }

  // ---- Bot commands, keyboard dismissal, badge ---------------------------

  /** A command tapped in a message is sent; the draft is cleared once the
      view shows the send. */
  function SendMessageBotCommandSpec(cfg: Config, s: Session, messageId: Option<MessageId>, command: string): (r: Session)
    ensures r == s.(pendingSendAction := true, effects := r.effects)
    // one message is sent: the command's text, a reply to its message only
    // in a channel or group and when the command names no bot
    ensures |r.effects| == |s.effects| + 1 && r.effects[..|s.effects|] == s.effects
    ensures var e := r.effects[|s.effects|];
      && e.SendMessages? && |e.messages| == 1
      && e.messages[0].text == command && e.messages[0].media.None?
      && (e.messages[0].replyToMessageId.Some? <==> '@' !in command && cfg.isChannelOrGroup && messageId.Some?)
      && (e.messages[0].replyToMessageId.Some? ==> e.messages[0].replyToMessageId == messageId)
  {
    s.(pendingSendAction := true,
       effects := s.effects + [SendMessages([ChatRules.MessageBotCommand(messageId, command, cfg.isChannelOrGroup)])])
  }

  function SendInterfaceBotCommandSpec(s: Session, peer: Option<ChatRules.PeerKind>, addressName: Option<string>, command: string): (r: Session)
    ensures peer.None? || addressName.None? ==> r == s
    ensures peer.Some? && addressName.Some? ==>
      && r.pendingSendAction
      && r.effects == s.effects + [SendMessages([ChatRules.InterfaceBotCommand(s.presentationInterfaceState, peer, addressName, command).value])]
  {
    var m := ChatRules.InterfaceBotCommand(s.presentationInterfaceState, peer, addressName, command);
    if m.Some? then s.(pendingSendAction := true, effects := s.effects + [SendMessages([m.value])]) else s
  }

  /** The view shows a send: the reply, draft and link-preview override are cleared. */
  function ViewUpdatedAfterSendSpec(cfg: Config, s: Session): (r: Session)
    ensures !s.pendingSendAction ==> r == s
    ensures !r.pendingSendAction
    ensures SessionValid(s) ==> SessionValid(r)
  {
    if s.pendingSendAction then UpdateSpec(cfg, s.(pendingSendAction := false), ChatRules.ClearedAfterSend) else s
  }

  function ModeAndDismissedApplied(g: PresentationState -> (ChatInputMode, Option<MessageId>)): PresentationState -> PresentationState
  {
    (st: PresentationState) =>
      st.(inputMode := g(st).0,
          interfaceState := st.interfaceState.(messageActionsState :=
            st.interfaceState.messageActionsState.(closedButtonKeyboardMessageId := g(st).1)))
  }

  /** Choosing an input mode and a dismissed keyboard commits exactly that
      choice: the keyboard message itself is unchanged, so the keyboard
      reconciliation leaves both alone. */
  lemma ModeAndDismissedCommitted(cfg: Config, s: Session, g: PresentationState -> (ChatInputMode, Option<MessageId>))
    ensures var r := UpdateSpec(cfg, s, ModeAndDismissedApplied(g)).presentationInterfaceState;
      var choice := g(s.presentationInterfaceState);
      r.inputMode == choice.0 && r.interfaceState.messageActionsState.closedButtonKeyboardMessageId == choice.1
  {
    var st := s.presentationInterfaceState;
    var cand := ModeAndDismissedApplied(g)(st);
    assert VisibleMarkup(cand) == VisibleMarkup(st);
    assert ChatReducer.SameExceptModeAndReply(cand, ReconcileKeyboard(st, cand, cfg.isChannelOrGroup));
  }

  /** The unread counters changed; the badge is set only when the chat's
      notification settings are known (`isRemovedFromTotalUnreadCount`). */
  function UnreadCountsSpec(s: Session, totalCount: int, unreadCount: int, isRemovedFromTotalUnreadCount: Option<bool>): (r: Session)
    ensures isRemovedFromTotalUnreadCount.None? ==> r == s
    // the badge shows the remaining count in decimal, or nothing when none remains
    ensures isRemovedFromTotalUnreadCount.Some? ==>
      var n := ChatRules.RemainingUnreadCount(totalCount, unreadCount, isRemovedFromTotalUnreadCount.value);
      && r == s.(badge := r.badge)
      && (r.badge == "" <==> n <= 0)
      && (n > 0 ==> ParseDecimal(r.badge) == n)
  {
    if isRemovedFromTotalUnreadCount.Some? then
      s.(badge := ChatRules.UnreadBadge(totalCount, unreadCount, isRemovedFromTotalUnreadCount.value))
    else s
  }

  // ---- The bot keyboard's message -----------------------------------------

  /** Whether the history's keyboard message differs from the shown one: it
      appeared, went away, or is another message or another version. */
  function KeyboardMessageChanged(current: Option<KeyboardButtonsMessage>, message: Option<KeyboardButtonsMessage>): (r: bool)
    ensures current == message ==> !r
    ensures current.Some? != message.Some? ==> r
    ensures current.Some? && message.Some? ==>
      (r <==> current.value.id != message.value.id || current.value.stableVersion != message.value.stableVersion)
  {
    if current.Some? && message.Some? then
      current.value.id != message.value.id || current.value.stableVersion != message.value.stableVersion
    else current.Some? != message.Some?
  }

  function KeyboardMessageApplied(message: Option<KeyboardButtonsMessage>): PresentationState -> PresentationState
  {
    (st: PresentationState) => st.(keyboardButtonsMessage := message)
  }

  /** The history's keyboard message: an update only when it changed. */
  function ButtonKeyboardMessageSpec(cfg: Config, s: Session, message: Option<KeyboardButtonsMessage>): (r: Session)
    ensures !KeyboardMessageChanged(s.presentationInterfaceState.keyboardButtonsMessage, message) ==> r == s
    ensures KeyboardMessageChanged(s.presentationInterfaceState.keyboardButtonsMessage, message) ==>
      r.presentationInterfaceState.keyboardButtonsMessage == message
    ensures SessionValid(s) ==> SessionValid(r)
  {
    if KeyboardMessageChanged(s.presentationInterfaceState.keyboardButtonsMessage, message) then
      UpdateSpec(cfg, s, KeyboardMessageApplied(message))
    else s
  }

  class ChatSession {
    const env: Env
    const peerId: int
    const isChannelOrGroup: bool
    const rank: TitlePanelContext -> int

    var presentationInterfaceState: PresentationState
    var contextQueryState: Option<QuerySlot>
    var urlPreviewQueryState: Option<UrlSlot>
    var disposed: set<Disposable>
    var nextHandle: nat
    var interactionSelection: Option<set<MessageId>>
    var searching: bool
    var searchRequest: Option<SearchRequest>
    var audioRecorderValue: Option<nat>
    var videoRecorderValue: Option<nat>
    var tempVideoRecorderValue: Option<nat>
    var historyNavigationStack: ChatNavigation.NavigationStack
    var loadingMessage: bool
    var messageIndexLookup: Option<MessageLookup>
    var pendingSendAction: bool
    var badge: string
    var effects: seq<Effect>

    function Cfg(): Config
    {
      Config(env, peerId, isChannelOrGroup, rank)
    }

    function Snapshot(): Session
      reads this
    {
      Session(presentationInterfaceState, contextQueryState, urlPreviewQueryState, disposed, nextHandle,
              interactionSelection, searching, searchRequest, audioRecorderValue, videoRecorderValue,
              tempVideoRecorderValue, historyNavigationStack, loadingMessage, messageIndexLookup,
              pendingSendAction, badge, effects)
    }

    ghost predicate Valid()
      reads this
    {
      SessionValid(Snapshot())
    }

    constructor(env: Env, peerId: int, isChannelOrGroup: bool, rank: TitlePanelContext -> int, initial: PresentationState)
      ensures Valid()
      ensures Cfg() == Config(env, peerId, isChannelOrGroup, rank)
      ensures Snapshot() == Session(initial, None, None, {}, 0, initial.interfaceState.selectionState, false, None,
                                    None, None, None, ChatNavigation.NavigationStack([]), false, None, false, "", [])
    {
      this.env := env;
      this.peerId := peerId;
      this.isChannelOrGroup := isChannelOrGroup;
      this.rank := rank;
      presentationInterfaceState := initial;
      contextQueryState := None;
      urlPreviewQueryState := None;
      disposed := {};
      nextHandle := 0;
      interactionSelection := initial.interfaceState.selectionState;
      searching := false;
      searchRequest := None;
      audioRecorderValue := None;
      videoRecorderValue := None;
      tempVideoRecorderValue := None;
      historyNavigationStack := ChatNavigation.NavigationStack([]);
      loadingMessage := false;
      messageIndexLookup := None;
      pendingSendAction := false;
      badge := "";
      effects := [];
    }

    method Update(f: PresentationState -> PresentationState)
      requires Valid()
      modifies this
      ensures Valid()
      ensures Snapshot() == UpdateSpec(Cfg(), old(Snapshot()), f)
    {
      ghost var spec := UpdateSpec(Cfg(), Snapshot(), f);
      ghost var s0 := Snapshot();
      var temporary := ReconcileKeyboard(presentationInterfaceState, f(presentationInterfaceState), isChannelOrGroup);
      var updated := temporary.(inputTextPanelState := env.inputTextPanelState(temporary));
      var currentUrl := CurrentUrl(Snapshot());
      updated := RestartContextQuery(updated);
      updated := RestartUrlPreview(updated, currentUrl);
      Commit(updated);
      PhasesKeepValid(Cfg(), s0, Derived(env, s0.presentationInterfaceState, f(s0.presentationInterfaceState), isChannelOrGroup));
      assert Snapshot() == spec;
    }

    /** The context-query block of the update. */
    method RestartContextQuery(d: PresentationState) returns (updated: PresentationState)
      modifies this
      ensures (Snapshot(), updated) == QueryPhase(Cfg(), old(Snapshot()), d)
    {
      ghost var spec := QueryPhase(Cfg(), Snapshot(), d);
      var query := env.contextQuery(d, CurrentQuery(Snapshot()));
      updated := d;
      if query.Some? {
        disposed, contextQueryState, nextHandle :=
          disposed + QueryHandles(contextQueryState), Some(QuerySlot(query.value.0, nextHandle)), nextHandle + 1;
        match query.value.1
        case Immediate(result) =>
          updated := d.(inputQueryResult := result(d.inputQueryResult));
        case Later =>
      }
      assert updated == spec.1;
      assert Snapshot() == spec.0;
    }

    /** The link-preview block of the update. */
    method RestartUrlPreview(d: PresentationState, currentUrl: Option<string>) returns (updated: PresentationState)
      modifies this
      ensures (Snapshot(), updated) == UrlPhase(Cfg(), old(Snapshot()), d, currentUrl)
    {
      ghost var spec := UrlPhase(Cfg(), Snapshot(), d, currentUrl);
      var url := env.urlPreview(d, currentUrl);
      updated := d;
      if url.Some? {
        disposed, urlPreviewQueryState, nextHandle :=
          disposed + UrlHandles(urlPreviewQueryState), Some(UrlSlot(url.value.0, nextHandle)), nextHandle + 1;
        match url.value.1
        case Immediate(result) =>
          updated := ApplyPreview(d, url.value.0, result);
        case Later =>
      }
      assert updated == spec.1;
      assert Snapshot() == spec.0;
    }

    /** The commit and the selection notification. */
    method Commit(updated: PresentationState)
      modifies this
      ensures Snapshot() == CommitPhase(old(Snapshot()), updated)
    {
      presentationInterfaceState := updated;
      if updated.interfaceState.selectionState != interactionSelection {
        interactionSelection := updated.interfaceState.selectionState;
        effects := effects + [RefreshSelectionStates];
      }
    }

    method DeliverContextQueryResult(handle: nat, update: QueryUpdate)
      requires Valid()
      modifies this
      ensures Valid()
      ensures Snapshot() == DeliverQueryResultSpec(Cfg(), old(Snapshot()), handle, update)
    {
      ghost var spec := DeliverQueryResultSpec(Cfg(), Snapshot(), handle, update);
      if contextQueryState.Some? && contextQueryState.value.handle == handle {
        Update(QueryResultApplied(update));
      }
      assert Snapshot() == spec;
    }

    method DeliverUrlPreviewResult(handle: nat, update: PreviewUpdate)
      requires Valid()
      modifies this
      ensures Valid()
      ensures Snapshot() == DeliverPreviewResultSpec(Cfg(), old(Snapshot()), handle, update)
    {
      ghost var spec := DeliverPreviewResultSpec(Cfg(), Snapshot(), handle, update);
      if urlPreviewQueryState.Some? && urlPreviewQueryState.value.handle == handle {
        Update(PreviewResultApplied(urlPreviewQueryState.value.url, update));
      }
      assert Snapshot() == spec;
    }
      // ---- Title-panel indicators ---------------------------------------

    method ChatTitlePressed()
      requires Valid()
      modifies this
      ensures Valid()
      ensures Snapshot() == UpdateSpec(Cfg(), old(Snapshot()), ChatInfoToggled(rank))
    {
      ghost var spec := UpdateSpec(Cfg(), Snapshot(), ChatInfoToggled(rank));
      Update(ChatInfoToggled(rank));
      assert Snapshot() == spec;
    }

    /** A message action began: the activity indicator shows while the
        message is in view. */
    method MessageActionStarted(view: ChatNavigation.VisibleHistory, messageId: MessageId)
      requires Valid()
      modifies this
      ensures Valid()
      ensures Snapshot() == if ChatNavigation.MessageInView(view, messageId).Some? then
        UpdateSpec(Cfg(), old(Snapshot()), RequestInProgressShown(rank)) else old(Snapshot())
    {
      if ChatNavigation.MessageInView(view, messageId).Some? {
        Update(RequestInProgressShown(rank));
      }
    }

    method MessageActionFinished()
      requires Valid()
      modifies this
      ensures Valid()
      ensures Snapshot() == UpdateSpec(Cfg(), old(Snapshot()), RequestInProgressHidden)
    {
      ghost var spec := UpdateSpec(Cfg(), Snapshot(), RequestInProgressHidden);
      Update(RequestInProgressHidden);
      assert Snapshot() == spec;
    }

    method BotCallbackAlert(message: Option<string>)
      requires Valid()
      modifies this
      ensures Valid()
      ensures Snapshot() == UpdateSpec(Cfg(), old(Snapshot()), ToastShown(message, rank))
    {
      ghost var spec := UpdateSpec(Cfg(), Snapshot(), ToastShown(message, rank));
      Update(ToastShown(message, rank));
      assert Snapshot() == spec;
    }

    method CachedDataUpdated(pinnedMessageId: Option<MessageId>, peerIsBlocked: bool, canReportPeer: bool, pinnedMessageChanged: bool)
      requires Valid()
      modifies this
      ensures Valid()
      ensures Snapshot() == CachedDataSpec(Cfg(), old(Snapshot()), pinnedMessageId, peerIsBlocked, canReportPeer, pinnedMessageChanged)
    {
      ghost var spec := CachedDataSpec(Cfg(), Snapshot(), pinnedMessageId, peerIsBlocked, canReportPeer, pinnedMessageChanged);
      var st := presentationInterfaceState;
      if st.pinnedMessageId != pinnedMessageId || st.peerIsBlocked != peerIsBlocked || st.canReportPeer != canReportPeer || pinnedMessageChanged {
        Update(PinnedStateApplied(pinnedMessageId, peerIsBlocked, canReportPeer, rank));
      }
      assert Snapshot() == spec;
    }

    method ButtonKeyboardMessageUpdated(message: Option<KeyboardButtonsMessage>)
      requires Valid()
      modifies this
      ensures Valid()
      ensures Snapshot() == ButtonKeyboardMessageSpec(Cfg(), old(Snapshot()), message)
    {
      ghost var spec := ButtonKeyboardMessageSpec(Cfg(), Snapshot(), message);
      if KeyboardMessageChanged(presentationInterfaceState.keyboardButtonsMessage, message) {
        Update(KeyboardMessageApplied(message));
      }
      assert Snapshot() == spec;
    }

    // ---- Message search -------------------------------------------------

    method BeginMessageSearch()
      requires Valid()
      modifies this
      ensures Valid()
      ensures Snapshot() == UpdateSpec(Cfg(), old(Snapshot()), ChatSearch.BeginSearch)
    {
      ghost var spec := UpdateSpec(Cfg(), Snapshot(), ChatSearch.BeginSearch);
      Update(ChatSearch.BeginSearch);
      assert Snapshot() == spec;
    }

    method DismissMessageSearch()
      requires Valid()
      modifies this
      ensures Valid()
      ensures Snapshot() == UpdateSpec(Cfg(), old(Snapshot()), SearchDismissed)
    {
      ghost var spec := UpdateSpec(Cfg(), Snapshot(), SearchDismissed);
      Update(SearchDismissed);
      assert Snapshot() == spec;
    }

    method UpdateMessageSearch(query: string)
      requires Valid()
      modifies this
      ensures Valid()
      ensures Snapshot() == UpdateMessageSearchSpec(Cfg(), old(Snapshot()), query)
    {
      ghost var spec := UpdateMessageSearchSpec(Cfg(), Snapshot(), query);
      var begin := ChatSearch.WithQuery(presentationInterfaceState, query).1;
      Update(QueryRecorded(query));
      if begin {
        if query == "" {
          ClearSearch();
        } else {
          StartSearch(query);
        }
      }
      assert Snapshot() == spec;
    }

    method ClearSearch()
      requires Valid()
      modifies this
      ensures Valid()
      ensures Snapshot() == SearchCleared(Cfg(), old(Snapshot()))
    {
      ghost var spec := SearchCleared(Cfg(), Snapshot());
      CancelSearch();
      Update(ResultsReplaced(None));
      assert Snapshot() == spec;
    }

    method CancelSearch()
      modifies this
      ensures Snapshot() == SearchCancelled(old(Snapshot()))
    {
      ghost var spec := SearchCancelled(Snapshot());
      disposed, searching, searchRequest := disposed + SearchHandles(searchRequest), false, None;
      assert Snapshot() == spec;
    }

    method StartSearch(query: string)
      modifies this
      ensures Snapshot() == SearchStarted(old(Snapshot()), query)
    {
      ghost var spec := SearchStarted(Snapshot(), query);
      disposed, searching, searchRequest, effects, nextHandle :=
        disposed + SearchHandles(searchRequest), true, Some(SearchRequest(query, nextHandle)),
        effects + [StartMessageSearch(query, nextHandle)], nextHandle + 1;
      assert Snapshot() == spec;
    }

    method DeliverSearchResults(handle: nat, resultIds: seq<MessageId>, view: ChatNavigation.VisibleHistory)
      requires Valid()
      modifies this
      ensures Valid()
      ensures Snapshot() == DeliverSearchResultsSpec(Cfg(), old(Snapshot()), handle, resultIds, view)
    {
      ghost var spec := DeliverSearchResultsSpec(Cfg(), Snapshot(), handle, resultIds, view);
      if searchRequest.Some? && searchRequest.value.handle == handle {
        if presentationInterfaceState.search.Some? {
          var ids := ChatSearch.SortedResultIds(resultIds);
          var currentId := ChatSearch.CarryForward(ids, PreviousCurrentId(presentationInterfaceState));
          Update(ResultsReplaced(Some(SearchResultsState(ids, currentId))));
          if currentId.Some? {
            NavigateToMessage(None, currentId.value, true, view);
          }
        } else {
          Update(Unchanged);
        }
      }
      assert Snapshot() == spec;
    }

    method SearchCompleted(handle: nat)
      requires Valid()
      modifies this
      ensures Valid()
      ensures Snapshot() == SearchCompletedSpec(old(Snapshot()), handle)
    {
      ghost var spec := SearchCompletedSpec(Snapshot(), handle);
      if searchRequest.Some? && searchRequest.value.handle == handle {
        searching := false;
      }
      assert Snapshot() == spec;
    }

    method NavigateMessageSearch(direction: ChatSearch.SearchDirection, view: ChatNavigation.VisibleHistory)
      requires Valid()
      modifies this
      ensures Valid()
      ensures Snapshot() == NavigateSearchSpec(Cfg(), old(Snapshot()), direction, view)
    {
      ghost var spec := NavigateSearchSpec(Cfg(), Snapshot(), direction, view);
      var st := presentationInterfaceState;
      var next := if st.search.Some? && st.search.value.resultsState.Some? then
        ChatSearch.Navigate(st.search.value.resultsState.value, direction) else None;
      if next.Some? {
        Update(ResultsReplaced(next));
        NavigateToMessage(None, next.value.currentId.value, true, view);
      } else {
        Update(Unchanged);
      }
      assert Snapshot() == spec;
    }

    method OpenCalendarSearch(timestamp: int)
      requires Valid()
      modifies this
      ensures Valid()
      ensures Snapshot() == OpenCalendarSearchSpec(old(Snapshot()), timestamp)
    {
      ghost var spec := OpenCalendarSearchSpec(Snapshot(), timestamp);
      loadingMessage, disposed, messageIndexLookup, effects, nextHandle :=
        true, disposed + LookupHandles(messageIndexLookup), Some(ByTimestamp(nextHandle, timestamp)),
        effects + [StartTimestampLookup(timestamp, nextHandle)], nextHandle + 1;
      assert Snapshot() == spec;
    }

    method DeliverTimestampLookup(handle: nat, messageId: Option<MessageId>, view: ChatNavigation.VisibleHistory)
      requires Valid()
      modifies this
      ensures Valid()
      ensures Snapshot() == DeliverTimestampLookupSpec(Cfg(), old(Snapshot()), handle, messageId, view)
    {
      ghost var spec := DeliverTimestampLookupSpec(Cfg(), Snapshot(), handle, messageId, view);
      if messageIndexLookup.Some? && messageIndexLookup.value.ByTimestamp? && messageIndexLookup.value.handle == handle {
        loadingMessage := false;
        if messageId.Some? {
          NavigateToMessage(None, messageId.value, true, view);
        }
      }
      assert Snapshot() == spec;
    }

    // ---- Jump-back navigation -----------------------------------------

    method NavigateToMessage(fromId: Option<MessageId>, toId: MessageId, rememberInStack: bool, view: ChatNavigation.VisibleHistory)
      requires Valid()
      modifies this
      ensures Valid()
      ensures Snapshot() == NavigateToMessageSpec(Cfg(), old(Snapshot()), fromId, toId, rememberInStack, view)
    {
      ghost var spec := NavigateToMessageSpec(Cfg(), Snapshot(), fromId, toId, rememberInStack, view);
      if toId.peerId == peerId {
        var fromIndex := FromIndex(view, fromId);
        if fromIndex.Some? {
          if fromId.Some? && rememberInStack {
            historyNavigationStack := ChatNavigation.Add(historyNavigationStack, fromIndex.value);
          }
          ScrollOrLookUpTarget(fromIndex.value, toId, ChatNavigation.MessageInView(view, toId));
        }
      } else {
        effects := effects + [OpenChat(toId.peerId, toId)];
      }
      assert Snapshot() == spec;
    }

    method ScrollOrLookUpTarget(fromIndex: MessageIndex, toId: MessageId, target: Option<MessageIndex>)
      modifies this
      ensures Snapshot() == ScrollOrLookUp(old(Snapshot()), fromIndex, toId, target)
    {
      ghost var spec := ScrollOrLookUp(Snapshot(), fromIndex, toId, target);
      disposed := disposed + LookupHandles(messageIndexLookup);
      if target.Some? {
        loadingMessage, messageIndexLookup, effects := false, None, effects + [ScrollToMessage(fromIndex, target.value)];
      } else {
        loadingMessage, messageIndexLookup, effects, nextHandle :=
          true, Some(ToMessage(nextHandle, fromIndex, toId)), effects + [StartHistoryLookup(toId, nextHandle)], nextHandle + 1;
      }
      assert Snapshot() == spec;
    }

    method DeliverMessageLookup(handle: nat, entries: seq<ChatNavigation.HistoryEntry>)
      requires Valid()
      modifies this
      ensures Valid()
      ensures Snapshot() == DeliverMessageLookupSpec(old(Snapshot()), handle, entries)
    {
      ghost var spec := DeliverMessageLookupSpec(Snapshot(), handle, entries);
      if messageIndexLookup.Some? && messageIndexLookup.value.ToMessage? && messageIndexLookup.value.handle == handle {
        var l := messageIndexLookup.value;
        var found := ChatNavigation.FindMessageIndex(entries, l.to);
        loadingMessage := false;
        messageIndexLookup := None;
        if found.Some? {
          effects := effects + [ScrollToMessage(l.from, found.value)];
        }
      }
      assert Snapshot() == spec;
    }

    method DownPressed(view: ChatNavigation.VisibleHistory)
      requires Valid()
      modifies this
      ensures Valid()
      ensures Snapshot() == DownPressedSpec(Cfg(), old(Snapshot()), view)
    {
      ghost var spec := DownPressedSpec(Cfg(), Snapshot(), view);
      var (stack, popped) := ChatNavigation.RemoveLast(historyNavigationStack);
      if popped.Some? {
        historyNavigationStack := stack;
        NavigateToMessage(None, popped.value.id, false, view);
      } else {
        effects := effects + [ScrollToEndOfHistory];
      }
      assert Snapshot() == spec;
    }

    method MaxVisibleMessageIndexUpdated(index: MessageIndex)
      requires Valid()
      modifies this
      ensures Valid()
      ensures Snapshot() == MaxVisibleIndexSpec(old(Snapshot()), index)
    {
      ghost var spec := MaxVisibleIndexSpec(Snapshot(), index);
      if !historyNavigationStack.IsEmpty() {
        historyNavigationStack := ChatNavigation.FilterOutIndicesLessThan(historyNavigationStack, index);
      }
      assert Snapshot() == spec;
    }

    // ---- Media recording ------------------------------------------------

    method AudioRecorderUpdated(recorder: Option<nat>)
      requires Valid()
      modifies this
      ensures Valid()
      ensures Snapshot() == AudioRecorderUpdatedSpec(Cfg(), old(Snapshot()), recorder)
    {
      ghost var spec := AudioRecorderUpdatedSpec(Cfg(), Snapshot(), recorder);
      if audioRecorderValue != recorder {
        ghost var s0 := Snapshot();
        audioRecorderValue := recorder;
        HandlesDecideValidity(s0, Snapshot());
        assert Snapshot() == s0.(audioRecorderValue := recorder);
        Update(AudioRecorderApplied(recorder));
        StartAudioRecorderIfAny(recorder);
      }
      assert Snapshot() == spec;
    }

    method StartAudioRecorderIfAny(recorder: Option<nat>)
      modifies this
      ensures Snapshot() == AudioRecorderStarted(old(Snapshot()), recorder)
    {
      if recorder.Some? {
        effects := effects + [StartAudioRecorder(recorder.value)];
      }
    }

    method VideoRecorderUpdated(recorder: Option<nat>)
      requires Valid()
      modifies this
      ensures Valid()
      ensures Snapshot() == VideoRecorderUpdatedSpec(Cfg(), old(Snapshot()), recorder)
    {
      ghost var spec := VideoRecorderUpdatedSpec(Cfg(), Snapshot(), recorder);
      if videoRecorderValue != recorder {
        var previous := videoRecorderValue;
        ghost var s0 := Snapshot();
        videoRecorderValue := recorder;
        HandlesDecideValidity(s0, Snapshot());
        assert Snapshot() == s0.(videoRecorderValue := recorder);
        Update(VideoRecorderApplied(recorder));
        SwapVideoControllers(recorder, previous);
      }
      assert Snapshot() == spec;
    }

    method SwapVideoControllers(recorder: Option<nat>, previous: Option<nat>)
      modifies this
      ensures Snapshot() == VideoControllersSwapped(old(Snapshot()), recorder, previous)
    {
      if recorder.Some? {
        effects := effects + [PresentVideoRecorder(recorder.value)];
      }
      if previous.Some? {
        effects := effects + [DismissVideo(previous.value)];
      }
    }

    method BeginMediaRecording(isVideo: bool, panelFrameAvailable: bool, recorder: Option<nat>)
      requires Valid()
      modifies this
      ensures Valid()
      ensures Snapshot() == BeginMediaRecordingSpec(Cfg(), old(Snapshot()), isVideo, panelFrameAvailable, recorder)
    {
      ghost var spec := BeginMediaRecordingSpec(Cfg(), Snapshot(), isVideo, panelFrameAvailable, recorder);
      if isVideo {
        if videoRecorderValue.None? && panelFrameAvailable && recorder.Some? {
          VideoRecorderUpdated(recorder);
        }
      } else if audioRecorderValue.None? {
        AudioRecorderUpdated(recorder);
      }
      assert Snapshot() == spec;
    }

    method DismissMediaRecorder(sendMedia: bool)
      requires Valid()
      modifies this
      ensures Valid()
      ensures Snapshot() == DismissMediaRecorderSpec(Cfg(), old(Snapshot()), sendMedia)
    {
      ghost var spec := DismissMediaRecorderSpec(Cfg(), Snapshot(), sendMedia);
      if audioRecorderValue.Some? {
        DismissAudioRecorder(sendMedia);
      } else if videoRecorderValue.Some? {
        DismissVideoRecorder(sendMedia);
      }
      assert Snapshot() == spec;
    }

    method DismissAudioRecorder(sendMedia: bool)
      requires Valid() && audioRecorderValue.Some?
      modifies this
      ensures Valid()
      ensures Snapshot() == AudioDismissed(Cfg(), old(Snapshot()), sendMedia)
    {
      ghost var spec := AudioDismissed(Cfg(), Snapshot(), sendMedia);
      RequestAudioStop(sendMedia);
      AudioRecorderUpdated(None);
      assert Snapshot() == spec;
    }

    method RequestAudioStop(sendMedia: bool)
      requires Valid() && audioRecorderValue.Some?
      modifies this
      ensures Valid()
      ensures Snapshot() == StopRequested(old(Snapshot()), sendMedia)
    {
      var a := audioRecorderValue.value;
      effects := effects + [StopAudioRecorder(a)] + (if sendMedia then [TakeRecordedData(a)] else []);
    }

    method DismissVideoRecorder(sendMedia: bool)
      requires Valid() && videoRecorderValue.Some?
      modifies this
      ensures Valid()
      ensures Snapshot() == VideoDismissed(Cfg(), old(Snapshot()), sendMedia)
    {
      ghost var spec := VideoDismissed(Cfg(), Snapshot(), sendMedia);
      CompleteVideoRecorder(sendMedia);
      VideoRecorderUpdated(None);
      assert Snapshot() == spec;
    }

    method CompleteVideoRecorder(sendMedia: bool)
      requires Valid() && videoRecorderValue.Some?
      modifies this
      ensures Valid()
      ensures Snapshot() == VideoCompleted(old(Snapshot()), sendMedia)
    {
      var v := videoRecorderValue.value;
      if sendMedia {
        effects := effects + [CompleteVideo(v)];
        tempVideoRecorderValue := Some(v);
      }
    }

    method KeepVideoForEditing()
      requires Valid()
      modifies this
      ensures Valid()
      ensures Snapshot() == VideoKeptForEditing(Cfg(), old(Snapshot()))
    {
      Update(VideoStoppedForEditing);
    }

    method DeliverRecordedData(data: Option<ChatRecording.RecordedAudio>, fileId: int)
      modifies this
      ensures Snapshot() == DeliverRecordedDataSpec(old(Snapshot()), data, fileId)
    {
      ghost var spec := DeliverRecordedDataSpec(Snapshot(), data, fileId);
      if data.Some? {
        var message := ChatRecording.VoiceMessage(data.value, fileId);
        if message.Some? {
          effects := effects + [SendMessages([message.value])];
        }
      }
      assert Snapshot() == spec;
    }

    method StopMediaRecorder(videoStopped: bool)
      requires Valid()
      modifies this
      ensures Valid()
      ensures Snapshot() == StopMediaRecorderSpec(Cfg(), old(Snapshot()), videoStopped)
    {
      ghost var spec := StopMediaRecorderSpec(Cfg(), Snapshot(), videoStopped);
      if audioRecorderValue.Some? {
        DismissAudioRecorder(false);
      } else if videoRecorderValue.Some? {
        StopVideoRecorder(videoStopped);
      }
      assert Snapshot() == spec;
    }

    method StopVideoRecorder(videoStopped: bool)
      requires Valid() && videoRecorderValue.Some?
      modifies this
      ensures Valid()
      ensures Snapshot() == VideoStopped(Cfg(), old(Snapshot()), videoStopped)
    {
      ghost var spec := VideoStopped(Cfg(), Snapshot(), videoStopped);
      ghost var s0 := Snapshot();
      effects := effects + [StopVideo(videoRecorderValue.value)];
      HandlesDecideValidity(s0, Snapshot());
      if videoStopped {
        KeepVideoForEditing();
      } else {
        VideoRecorderUpdated(None);
      }
      assert Snapshot() == spec;
    }

    method LockMediaRecorder()
      requires Valid()
      modifies this
      ensures Valid()
      ensures Snapshot() == LockMediaRecorderSpec(Cfg(), old(Snapshot()))
    {
      ghost var spec := LockMediaRecorderSpec(Cfg(), Snapshot());
      if presentationInterfaceState.inputTextPanelState.mediaRecordingState.Some? {
        Update(RecordingLocked);
      }
      if videoRecorderValue.Some? {
        effects := effects + [LockVideo(videoRecorderValue.value)];
      }
      assert Snapshot() == spec;
    }

    method SwitchMediaRecordingMode()
      requires Valid()
      modifies this
      ensures Valid()
      ensures Snapshot() == UpdateSpec(Cfg(), old(Snapshot()), RecordingModeToggled)
    {
      ghost var spec := UpdateSpec(Cfg(), Snapshot(), RecordingModeToggled);
      Update(RecordingModeToggled);
      assert Snapshot() == spec;
    }

    // ---- Bot commands, keyboard dismissal, badge ------------------------

    method SendMessageBotCommand(messageId: Option<MessageId>, command: string)
      modifies this
      ensures Snapshot() == SendMessageBotCommandSpec(Cfg(), old(Snapshot()), messageId, command)
    {
      ghost var spec := SendMessageBotCommandSpec(Cfg(), Snapshot(), messageId, command);
      pendingSendAction := true;
      effects := effects + [SendMessages([ChatRules.MessageBotCommand(messageId, command, isChannelOrGroup)])];
      assert Snapshot() == spec;
    }

    method SendInterfaceBotCommand(peer: Option<ChatRules.PeerKind>, addressName: Option<string>, command: string)
      modifies this
      ensures Snapshot() == SendInterfaceBotCommandSpec(old(Snapshot()), peer, addressName, command)
    {
      ghost var spec := SendInterfaceBotCommandSpec(Snapshot(), peer, addressName, command);
      var m := ChatRules.InterfaceBotCommand(presentationInterfaceState, peer, addressName, command);
      if m.Some? {
        pendingSendAction := true;
        effects := effects + [SendMessages([m.value])];
      }
      assert Snapshot() == spec;
    }

    method ViewUpdatedAfterSend()
      requires Valid()
      modifies this
      ensures Valid()
      ensures Snapshot() == ViewUpdatedAfterSendSpec(Cfg(), old(Snapshot()))
    {
      ghost var spec := ViewUpdatedAfterSendSpec(Cfg(), Snapshot());
      if pendingSendAction {
        pendingSendAction := false;
        Update(ChatRules.ClearedAfterSend);
      }
      assert Snapshot() == spec;
    }

    method UpdateInputModeAndDismissedButtonKeyboardMessageId(g: PresentationState -> (ChatInputMode, Option<MessageId>))
      requires Valid()
      modifies this
      ensures Valid()
      ensures Snapshot() == UpdateSpec(Cfg(), old(Snapshot()), ModeAndDismissedApplied(g))
    {
      ghost var spec := UpdateSpec(Cfg(), Snapshot(), ModeAndDismissedApplied(g));
      Update(ModeAndDismissedApplied(g));
      assert Snapshot() == spec;
    }

    method UnreadCountsUpdated(totalCount: int, unreadCount: int, isRemovedFromTotalUnreadCount: Option<bool>)
      modifies this
      ensures Snapshot() == UnreadCountsSpec(old(Snapshot()), totalCount, unreadCount, isRemovedFromTotalUnreadCount)
    {
      ghost var spec := UnreadCountsSpec(Snapshot(), totalCount, unreadCount, isRemovedFromTotalUnreadCount);
      if isRemovedFromTotalUnreadCount.Some? {
        badge := ChatRules.UnreadBadge(totalCount, unreadCount, isRemovedFromTotalUnreadCount.value);
      }
      assert Snapshot() == spec;
    }
  }
}
