/** The pure steps of ChatController.updateChatPresentationInterfaceState:
    keyboard-reply reconciliation, derived input-panel state, and folding a
    resolver result that arrives while the update is still in scope. The
    helpers whose bodies are not part of this model (the input-panel state
    builder and the two resolver factories) are the fields of `Env`. */
module ChatReducer {
  import opened Common
  import opened ChatState

  /** How a resolver answers: inside the call that started it, or later
      through a fresh update. */
  datatype Delivery<T> = Immediate(value: T) | Later

  /** A context-query result is a function of the previous result. */
  type QueryUpdate = Option<InputQueryResult> -> Option<InputQueryResult>

  /** A link-preview result maps the previewed webpage to the new one. */
  type PreviewUpdate = Option<Webpage> -> Option<Webpage>

  datatype Env = Env(
    /** inputTextPanelStateForChatPresentationInterfaceState */
    inputTextPanelState: PresentationState -> InputTextPanelState,
    /** contextQueryResultStateForChatInterfacePresentationState: given the state
        and the current query, either nothing to restart, or the new query
        and how its resolution answers. */
    contextQuery: (PresentationState, Option<InputQuery>) -> Option<(Option<InputQuery>, Delivery<QueryUpdate>)>,
    /** urlPreviewStateForChatInterfacePresentationState, keyed by URL. */
    urlPreview: (PresentationState, Option<string>) -> Option<(Option<string>, Delivery<PreviewUpdate>)>)

  /** The conditions under which a newly shown bot keyboard takes over the
      input: read from the PREVIOUS state (edit, draft) and from the
      CANDIDATE (dismissed keyboard id, bot-start payload). */
  predicate ForcesInputButtons(prev: PresentationState, cand: PresentationState, m: KeyboardButtonsMessage)
  {
    && prev.interfaceState.editMessage.None?
    && prev.interfaceState.composeInputText == ""
    && Some(m.id) != cand.interfaceState.messageActionsState.closedButtonKeyboardMessageId
    && cand.botStartPayload.None?
  }

  predicate SetupReplyApplies(s: PresentationState, id: MessageId)
  {
    s.interfaceState.replyMessageId.None? && s.interfaceState.messageActionsState.processedSetupReplyMessageId != Some(id)
  }

  /** Auto-reply to a keyboard message: only when no reply is set and this
      id was not already processed; records the id as processed. */
  function SetupReply(s: PresentationState, id: MessageId): (r: PresentationState)
    ensures SetupReplyApplies(s, id) ==>
      r.interfaceState.replyMessageId == Some(id) && r.interfaceState.messageActionsState.processedSetupReplyMessageId == Some(id)
    ensures !SetupReplyApplies(s, id) ==> r == s
    ensures !SetupReplyApplies(r, id)
    ensures r.interfaceState.messageActionsState.closedButtonKeyboardMessageId == s.interfaceState.messageActionsState.closedButtonKeyboardMessageId
    ensures r == s.(interfaceState := s.interfaceState.(
      replyMessageId := r.interfaceState.replyMessageId,
      messageActionsState := s.interfaceState.messageActionsState.(
        processedSetupReplyMessageId := r.interfaceState.messageActionsState.processedSetupReplyMessageId)))
  {
    if SetupReplyApplies(s, id) then
      s.(interfaceState := s.interfaceState.(
        replyMessageId := Some(id),
        messageActionsState := s.interfaceState.messageActionsState.(processedSetupReplyMessageId := Some(id))))
    else s
  }

  /** Only the input mode, the reply id and the processed-reply marker may differ. */
  ghost predicate SameExceptModeAndReply(a: PresentationState, b: PresentationState)
  {
    b == a.(inputMode := b.inputMode, interfaceState := a.interfaceState.(
      replyMessageId := b.interfaceState.replyMessageId,
      messageActionsState := a.interfaceState.messageActionsState.(
        processedSetupReplyMessageId := b.interfaceState.messageActionsState.processedSetupReplyMessageId)))
  }

  /** When the reconciliation installs the keyboard message as the reply: a
      keyboard newly shown in a channel or group, or a keyboard that requests
      it, and only while no reply is set and that id was not processed. */
  predicate KeyboardReplyDue(prev: PresentationState, cand: PresentationState, isChannelOrGroup: bool)
  {
    && cand.keyboardButtonsMessage.Some?
    && SetupReplyApplies(cand, cand.keyboardButtonsMessage.value.id)
    && ((isChannelOrGroup && VisibleMarkup(prev) != VisibleMarkup(cand) && VisibleMarkup(cand).Some?)
        || cand.keyboardButtonsMessage.value.requestsSetupReply)
  }

  /** Step 1 of the reducer: reconcile input mode and auto-reply with the
      candidate's bot keyboard. `isChannelOrGroup` is the chat's peer
      namespace test. */
  function ReconcileKeyboard(prev: PresentationState, cand: PresentationState, isChannelOrGroup: bool): (r: PresentationState)
    // a newly shown keyboard forces .inputButtons exactly under the four conditions
    ensures VisibleMarkup(prev) != VisibleMarkup(cand) && VisibleMarkup(cand).Some? ==>
      r.inputMode == (if ForcesInputButtons(prev, cand, cand.keyboardButtonsMessage.value) then InputButtons else cand.inputMode)
    // a keyboard that disappears reverts .inputButtons to .text and leaves other modes alone
    ensures VisibleMarkup(prev) != VisibleMarkup(cand) && VisibleMarkup(cand).None? ==>
      r.inputMode == (if cand.inputMode == InputButtons then Text else cand.inputMode)
    ensures VisibleMarkup(prev) == VisibleMarkup(cand) ==> r.inputMode == cand.inputMode
    // a reply is only ever installed where none was set, and it points at the keyboard message
    ensures r.interfaceState.replyMessageId != cand.interfaceState.replyMessageId ==>
      && cand.interfaceState.replyMessageId.None?
      && cand.keyboardButtonsMessage.Some?
      && r.interfaceState.replyMessageId == Some(cand.keyboardButtonsMessage.value.id)
      && r.interfaceState.messageActionsState.processedSetupReplyMessageId == Some(cand.keyboardButtonsMessage.value.id)
    // the keyboard message becomes the reply exactly when it is due
    ensures KeyboardReplyDue(prev, cand, isChannelOrGroup) ==>
      && r.interfaceState.replyMessageId == Some(cand.keyboardButtonsMessage.value.id)
      && r.interfaceState.messageActionsState.processedSetupReplyMessageId == Some(cand.keyboardButtonsMessage.value.id)
    ensures !KeyboardReplyDue(prev, cand, isChannelOrGroup) ==> r.interfaceState == cand.interfaceState
    // a keyboard that requests a reply gets it once
    ensures cand.keyboardButtonsMessage.Some? && cand.keyboardButtonsMessage.value.requestsSetupReply ==>
      !SetupReplyApplies(r, cand.keyboardButtonsMessage.value.id)
    ensures SameExceptModeAndReply(cand, r)
  {
    var t :=
      if VisibleMarkup(prev) != VisibleMarkup(cand) then
        if VisibleMarkup(cand).Some? then
          var m := cand.keyboardButtonsMessage.value;
          var forced := if ForcesInputButtons(prev, cand, m) then cand.(inputMode := InputButtons) else cand;
          if isChannelOrGroup then SetupReply(forced, m.id) else forced
        else
          cand.(inputMode := if cand.inputMode == InputButtons then Text else cand.inputMode)
      else cand;
    if t.keyboardButtonsMessage.Some? && t.keyboardButtonsMessage.value.requestsSetupReply then
      SetupReply(t, t.keyboardButtonsMessage.value.id)
    else t
  }

  /** Re-running the reconciliation on its own result changes nothing: the
      auto-reply for a keyboard id is applied once. */
  lemma ReconcileKeyboardIdempotent(prev: PresentationState, cand: PresentationState, isChannelOrGroup: bool)
    ensures var r := ReconcileKeyboard(prev, cand, isChannelOrGroup);
      ReconcileKeyboard(r, r, isChannelOrGroup) == r
  {
    var r := ReconcileKeyboard(prev, cand, isChannelOrGroup);
    if r.keyboardButtonsMessage.Some? && r.keyboardButtonsMessage.value.requestsSetupReply {
      assert !SetupReplyApplies(r, r.keyboardButtonsMessage.value.id);
    }
  }

  /** Step 2: the derived input-panel state, recomputed from the candidate. */
  function Derived(env: Env, prev: PresentationState, cand: PresentationState, isChannelOrGroup: bool): (r: PresentationState)
    ensures r.inputTextPanelState == env.inputTextPanelState(ReconcileKeyboard(prev, cand, isChannelOrGroup))
  {
    var t := ReconcileKeyboard(prev, cand, isChannelOrGroup);
    t.(inputTextPanelState := env.inputTextPanelState(t))
  }

  /** A context-query result delivered in scope is folded into this very
      update; a later one leaves it untouched. */
  function FoldQueryResult(s: PresentationState, d: Delivery<QueryUpdate>): (r: PresentationState)
    ensures d.Immediate? ==> r.inputQueryResult == d.value(s.inputQueryResult)
    ensures d.Later? ==> r == s
    ensures r == s.(inputQueryResult := r.inputQueryResult)
  {
    match d
    case Immediate(update) => s.(inputQueryResult := update(s.inputQueryResult))
    case Later => s
  }

  /** A link-preview result: the state shows (url, webpage) when the
      resolution has a URL and yields a webpage, and no preview otherwise. */
  function ApplyPreview(s: PresentationState, url: Option<string>, update: PreviewUpdate): (r: PresentationState)
    ensures r.urlPreview.Some? <==> url.Some? && update(PreviewedWebpage(s)).Some?
    ensures r.urlPreview.Some? ==> r.urlPreview.value == UrlPreview(url.value, update(PreviewedWebpage(s)).value)
    ensures r == s.(urlPreview := r.urlPreview)
  {
    var webpage := update(PreviewedWebpage(s));
    if url.Some? && webpage.Some? then s.(urlPreview := Some(UrlPreview(url.value, webpage.value)))
    else s.(urlPreview := None)
  }

  function FoldPreview(s: PresentationState, url: Option<string>, d: Delivery<PreviewUpdate>): (r: PresentationState)
    ensures d.Immediate? ==> r == ApplyPreview(s, url, d.value)
    ensures d.Later? ==> r == s
  {
    match d
    case Immediate(update) => ApplyPreview(s, url, update)
    case Later => s
  }

  /** The result a restarted context query delivers while the update is
      still in scope, if any. */
  function InScopeQuery(env: Env, s: PresentationState, currentQuery: Option<InputQuery>): Option<QueryUpdate>
  {
    var started := env.contextQuery(s, currentQuery);
    if started.Some? && started.value.1.Immediate? then Some(started.value.1.value) else None
  }

  /** The URL and result a restarted link preview delivers in scope, if any. */
  function InScopePreview(env: Env, s: PresentationState, currentUrl: Option<string>): Option<(Option<string>, PreviewUpdate)>
  {
    var started := env.urlPreview(s, currentUrl);
    if started.Some? && started.value.1.Immediate? then Some((started.value.0, started.value.1.value)) else None
  }

  /** Step 3: a context query that must restart is resolved now; only its
      in-scope result changes the state. */
  function AfterContextQuery(env: Env, s: PresentationState, currentQuery: Option<InputQuery>): (r: PresentationState)
    ensures InScopeQuery(env, s, currentQuery).Some? ==>
      r.inputQueryResult == InScopeQuery(env, s, currentQuery).value(s.inputQueryResult)
    ensures InScopeQuery(env, s, currentQuery).None? ==> r == s
    ensures r == s.(inputQueryResult := r.inputQueryResult)
  {
    var started := env.contextQuery(s, currentQuery);
    if started.Some? then FoldQueryResult(s, started.value.1) else s
  }

  /** Step 4: a URL preview that must restart is resolved now; only its
      in-scope result changes the state, by `ApplyPreview`. */
  function AfterUrlPreview(env: Env, s: PresentationState, currentUrl: Option<string>): (r: PresentationState)
    ensures InScopePreview(env, s, currentUrl).Some? ==>
      r == ApplyPreview(s, InScopePreview(env, s, currentUrl).value.0, InScopePreview(env, s, currentUrl).value.1)
    ensures InScopePreview(env, s, currentUrl).None? ==> r == s
  {
    var started := env.urlPreview(s, currentUrl);
    if started.Some? then FoldPreview(s, started.value.0, started.value.1) else s
  }

  /** The state one update call commits: the reconciled, derived candidate,
      with the in-scope query result and link preview folded in. */
  function Committed(env: Env, prev: PresentationState, cand: PresentationState, isChannelOrGroup: bool,
                     currentQuery: Option<InputQuery>, currentUrl: Option<string>): (r: PresentationState)
    // an in-scope context result is applied to the candidate's result; otherwise the candidate's stays
    ensures var iq := InScopeQuery(env, Derived(env, prev, cand, isChannelOrGroup), currentQuery);
      r.inputQueryResult == if iq.Some? then iq.value(cand.inputQueryResult) else cand.inputQueryResult
    // an in-scope link preview is applied to the candidate's preview; otherwise the candidate's stays
    ensures var ip := InScopePreview(env, AfterContextQuery(env, Derived(env, prev, cand, isChannelOrGroup), currentQuery), currentUrl);
      r.urlPreview == if ip.Some? then ApplyPreview(cand, ip.value.0, ip.value.1).urlPreview else cand.urlPreview
    // the committed state is fully derived
    ensures r.inputTextPanelState == env.inputTextPanelState(ReconcileKeyboard(prev, cand, isChannelOrGroup))
    ensures r.inputMode == ReconcileKeyboard(prev, cand, isChannelOrGroup).inputMode
    ensures r.interfaceState == ReconcileKeyboard(prev, cand, isChannelOrGroup).interfaceState
    ensures r.titlePanelContexts == cand.titlePanelContexts && r.search == cand.search
    // every other field is the candidate's
    ensures r == cand.(inputMode := r.inputMode, interfaceState := r.interfaceState,
      inputTextPanelState := r.inputTextPanelState, inputQueryResult := r.inputQueryResult, urlPreview := r.urlPreview)
  {
    var d := Derived(env, prev, cand, isChannelOrGroup);
    AfterUrlPreview(env, AfterContextQuery(env, d, currentQuery), currentUrl)
  }
}
