/** In-chat message search: the sorted result list, which result is current
    after a new result set arrives, and stepping to the previous or next
    result. */
module ChatSearch {
  import opened Common
  import opened ChatState
  import Sorting
  import ChatTitlePanel

  datatype SearchDirection = Earlier | LaterResult

  /** `results.map { $0.id }.sorted()`: the same ids, in id order. */
  function SortedResultIds(ids: seq<MessageId>): (r: seq<MessageId>)
    ensures multiset(r) == multiset(ids)
    ensures Sorting.SortedBy(r, IdAtMost)
  {
    IdOrderIsTotalPreorder();
    Sorting.SortBySorted(ids, IdAtMost);
    Sorting.SortBy(ids, IdAtMost)
  }

  /** The first position whose id is at least `p`. */
  function FirstAtLeast(ids: seq<MessageId>, p: MessageId): (r: Option<nat>)
    ensures r.None? <==> forall i :: 0 <= i < |ids| ==> !IdAtMost(p, ids[i])
    ensures r.Some? ==> r.value < |ids| && IdAtMost(p, ids[r.value])
    ensures r.Some? ==> forall i :: 0 <= i < r.value ==> !IdAtMost(p, ids[i])
  {
    if ids == [] then None
    else if IdAtMost(p, ids[0]) then Some(0)
    else
      var t := FirstAtLeast(ids[1..], p);
      assert forall i :: 0 < i < |ids| ==> ids[1..][i - 1] == ids[i];
      if t.None? then None else Some(t.value + 1)
  }

  /** Which result becomes current when a result set arrives: the first id
      at or after the previous current one, else the last id. */
  function CarriedCurrentId(ids: seq<MessageId>, previous: Option<MessageId>): (r: Option<MessageId>)
    ensures r.None? <==> ids == []
    ensures r.Some? ==> r.value in ids
    ensures previous.Some? && r.Some? && (exists i :: 0 <= i < |ids| && IdAtMost(previous.value, ids[i])) ==>
      IdAtMost(previous.value, r.value)
    ensures previous.None? && ids != [] ==> r == Some(ids[|ids| - 1])
    ensures previous.Some? && ids != [] && FirstAtLeast(ids, previous.value).None? ==> r == Some(ids[|ids| - 1])
    ensures previous.Some? && FirstAtLeast(ids, previous.value).Some? ==> r == Some(ids[FirstAtLeast(ids, previous.value).value])
  {
    if ids == [] then None
    else if previous.Some? && FirstAtLeast(ids, previous.value).Some? then Some(ids[FirstAtLeast(ids, previous.value).value])
    else Some(ids[|ids| - 1])
  }

  /** The scan over the new result ids, as the result handler runs it. */
  method CarryForward(ids: seq<MessageId>, previous: Option<MessageId>) returns (currentId: Option<MessageId>)
    ensures currentId == CarriedCurrentId(ids, previous)
  {
    currentId := if ids == [] then None else Some(ids[|ids| - 1]);
    if previous.Some? {
      var i := 0;
      while i < |ids|
        invariant 0 <= i <= |ids|
        invariant forall j :: 0 <= j < i ==> !IdAtMost(previous.value, ids[j])
        invariant currentId == if ids == [] then None else Some(ids[|ids| - 1])
      {
        if IdAtMost(previous.value, ids[i]) {
          currentId := Some(ids[i]);
          assert FirstAtLeast(ids, previous.value) == Some(i);
          return;
        }
        i := i + 1;
      }
    }
  }

  /** In a sorted result list the carried id is the least one at or after
      the previous current id. */
  lemma CarriedIsLeastAtLeast(ids: seq<MessageId>, p: MessageId, i: nat)
    requires Sorting.SortedBy(ids, IdAtMost)
    requires i < |ids| && IdAtMost(p, ids[i])
    ensures CarriedCurrentId(ids, Some(p)).Some?
    ensures IdAtMost(CarriedCurrentId(ids, Some(p)).value, ids[i])
  {
    var f := FirstAtLeast(ids, p);
    assert f.Some?;
    if f.value > i {
      assert false;
    } else if f.value < i {
      assert IdAtMost(ids[f.value], ids[i]);
    }
  }

  /** A result that is still in the new list stays current. */
  lemma CarriedKeepsPresentId(ids: seq<MessageId>, p: MessageId)
    requires Sorting.SortedBy(ids, IdAtMost)
    requires p in ids
    ensures CarriedCurrentId(ids, Some(p)) == Some(p)
  {
    var i :| 0 <= i < |ids| && ids[i] == p;
    CarriedIsLeastAtLeast(ids, p, i);
    var f := FirstAtLeast(ids, p).value;
    IdOrderAntisymmetric(ids[f], p);
  }

  /** `messageIds.index(of:)`: the first position of `id`. */
  function IndexOf(ids: seq<MessageId>, id: MessageId): (r: Option<nat>)
    ensures r.None? <==> id !in ids
    ensures r.Some? ==> r.value < |ids| && ids[r.value] == id
    ensures r.Some? ==> forall i :: 0 <= i < r.value ==> ids[i] != id
  {
    if ids == [] then None
    else if ids[0] == id then Some(0)
    else
      var t := IndexOf(ids[1..], id);
      assert forall i :: 0 < i < |ids| ==> ids[1..][i - 1] == ids[i];
      if t.None? then None else Some(t.value + 1)
  }

  /** Stepping through the results: `None` when there is nothing to step to
      (no current id, it is not in the list, or it is already the first or
      last one in that direction). */
  function Navigate(rs: SearchResultsState, direction: SearchDirection): (r: Option<SearchResultsState>)
    ensures r.Some? ==> r.value.messageIds == rs.messageIds && r.value.currentId.Some? && r.value.currentId.value in rs.messageIds
    ensures r.Some? <==>
      rs.currentId.Some? && rs.currentId.value in rs.messageIds &&
      (if direction == Earlier then rs.messageIds[0] != rs.currentId.value
       else IndexOf(rs.messageIds, rs.currentId.value).value != |rs.messageIds| - 1)
    ensures r.Some? ==>
      var i := IndexOf(rs.messageIds, rs.currentId.value).value;
      r.value.currentId == Some(rs.messageIds[if direction == Earlier then i - 1 else i + 1])
  {
    if rs.currentId.None? then None
    else
      match IndexOf(rs.messageIds, rs.currentId.value)
      case None => None
      case Some(index) =>
        var updated: Option<nat> :=
          match direction
          case Earlier => if index != 0 then Some(index - 1) else None
          case LaterResult => if index != |rs.messageIds| - 1 then Some(index + 1) else None;
        if updated.Some? then Some(SearchResultsState(rs.messageIds, Some(rs.messageIds[updated.value]))) else None
  }

  ghost predicate Distinct(ids: seq<MessageId>)
  {
    forall i, j :: 0 <= i < j < |ids| ==> ids[i] != ids[j]
  }

  /** With distinct ids, one step earlier and one step later return to the
      same result. */
  lemma NavigateEarlierThenLater(rs: SearchResultsState)
    requires Distinct(rs.messageIds)
    requires Navigate(rs, Earlier).Some?
    ensures Navigate(Navigate(rs, Earlier).value, LaterResult) == Some(rs)
  {
    var i := IndexOf(rs.messageIds, rs.currentId.value).value;
    var t := Navigate(rs, Earlier).value;
    assert IndexOf(t.messageIds, t.currentId.value) == Some(i - 1);
  }

  /** beginMessageSearch: hides the chat-info panel and opens search,
      keeping a search already open. */
  function BeginSearch(s: PresentationState): (r: PresentationState)
    ensures r.search.Some?
    ensures s.search.Some? ==> r.search == s.search
    ensures s.search.None? ==> r.search == Some(SearchData("", None))
    ensures ChatTitlePanel.UniqueKinds(s.titlePanelContexts) ==>
      !ChatTitlePanel.HasKind(r.titlePanelContexts, ChatTitlePanel.ChatInfoKind)
    ensures r == s.(titlePanelContexts := r.titlePanelContexts, search := r.search)
  {
    s.(titlePanelContexts := ChatTitlePanel.RemoveKind(s.titlePanelContexts, ChatTitlePanel.ChatInfoKind),
       search := if s.search.None? then Some(SearchData("", None)) else s.search)
  }

  /** updateMessageSearch, first step: a changed query on an open search is
      recorded (results kept for now) and reported as a new search. */
  function WithQuery(s: PresentationState, query: string): (r: (PresentationState, bool))
    ensures r.1 <==> s.search.Some? && s.search.value.query != query
    ensures r.1 ==> r.0 == s.(search := Some(s.search.value.(query := query)))
    ensures !r.1 ==> r.0 == s
  {
    if s.search.Some? && s.search.value.query != query then (s.(search := Some(s.search.value.(query := query))), true)
    else (s, false)
  }

  /** Sets the result state of an open search; a closed search stays closed. */
  function WithResults(s: PresentationState, results: Option<SearchResultsState>): (r: PresentationState)
    ensures r.search.Some? <==> s.search.Some?
    ensures r.search.Some? ==> r.search.value == SearchData(s.search.value.query, results)
    ensures r == s.(search := r.search)
  {
    if s.search.Some? then s.(search := Some(s.search.value.(resultsState := results))) else s
  }
}
