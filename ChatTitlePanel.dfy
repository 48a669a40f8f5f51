/** Edits of the title-panel context list, as ChatController applies them
    through `updatedTitlePanelContext`: each kind of indicator is added at
    most once (followed by a re-sort), removed at its first occurrence, or
    replaced in place. The ordering of ChatTitlePanelContext is not part of
    this model: it is the parameter `rank`, and `.sorted()` is any sort by
    that rank. */
module ChatTitlePanel {
  import opened Common
  import opened ChatState
  import Sorting

  datatype ContextKind = ChatInfoKind | RequestInProgressKind | ToastAlertKind | PinnedMessageKind

  function KindOf(c: TitlePanelContext): ContextKind
  {
    match c
    case ChatInfo => ChatInfoKind
    case RequestInProgress => RequestInProgressKind
    case ToastAlert(_) => ToastAlertKind
    case PinnedMessage => PinnedMessageKind
  }

  predicate HasKind(s: seq<TitlePanelContext>, k: ContextKind)
  {
    exists i :: 0 <= i < |s| && KindOf(s[i]) == k
  }

  /** The invariant every edit keeps: no kind of indicator is shown twice. */
  ghost predicate UniqueKinds(s: seq<TitlePanelContext>)
  {
    Sorting.UniqueBy(s, KindOf)
  }

  /** `index(where:)` for a kind: the first position holding it. */
  function FirstOfKind(s: seq<TitlePanelContext>, k: ContextKind): (r: Option<nat>)
    ensures r.None? <==> !HasKind(s, k)
    ensures r.Some? ==> r.value < |s| && KindOf(s[r.value]) == k
    ensures r.Some? ==> forall i :: 0 <= i < r.value ==> KindOf(s[i]) != k
  {
    if s == [] then None
    else if KindOf(s[0]) == k then Some(0)
    else
      var t := FirstOfKind(s[1..], k);
      assert forall i :: 0 < i < |s| ==> s[1..][i - 1] == s[i];
      if t.None? then None else Some(t.value + 1)
  }

  /** `.sorted()` order: by the contexts' rank. */
  function RankOrder(rank: TitlePanelContext -> int): (TitlePanelContext, TitlePanelContext) -> bool
  {
    (a: TitlePanelContext, b: TitlePanelContext) => rank(a) <= rank(b)
  }

  lemma RankOrderIsTotalPreorder(rank: TitlePanelContext -> int)
    ensures Sorting.TotalPreorder(RankOrder(rank))
  {
  }

  /** `append` followed by `.sorted()`. */
  function AppendSorted(s: seq<TitlePanelContext>, c: TitlePanelContext, rank: TitlePanelContext -> int): (r: seq<TitlePanelContext>)
    ensures multiset(r) == multiset(s) + multiset{c}
    ensures Sorting.SortedBy(r, RankOrder(rank))
  {
    RankOrderIsTotalPreorder(rank);
    Sorting.SortBySorted(s + [c], RankOrder(rank));
    Sorting.SortBy(s + [c], RankOrder(rank))
  }

  /** Adds `c` unless an indicator of its kind is already shown. */
  function AddIfAbsent(s: seq<TitlePanelContext>, c: TitlePanelContext, rank: TitlePanelContext -> int): (r: seq<TitlePanelContext>)
    ensures HasKind(s, KindOf(c)) ==> r == s
    ensures !HasKind(s, KindOf(c)) ==>
      multiset(r) == multiset(s) + multiset{c} && Sorting.SortedBy(r, RankOrder(rank))
    ensures HasKind(r, KindOf(c))
    ensures forall k :: k != KindOf(c) ==> (HasKind(r, k) <==> HasKind(s, k))
    ensures UniqueKinds(s) ==> UniqueKinds(r)
  {
    if HasKind(s, KindOf(c)) then s
    else
      var r := AppendSorted(s, c, rank);
      MultisetKinds(s + [c], r);
      assert (s + [c])[|s|] == c;
      assert forall k :: HasKind(s + [c], k) <==> HasKind(s, k) || k == KindOf(c) by {
        assert forall i :: 0 <= i < |s| ==> (s + [c])[i] == s[i];
      }
      SortedKeepsUnique(s, c, r);
      r
  }

  lemma SortedKeepsUnique(s: seq<TitlePanelContext>, c: TitlePanelContext, r: seq<TitlePanelContext>)
    requires !HasKind(s, KindOf(c))
    requires multiset(r) == multiset(s + [c])
    ensures UniqueKinds(s) ==> UniqueKinds(r)
  {
    if UniqueKinds(s) {
      assert UniqueKinds(s + [c]) by {
        assert forall i :: 0 <= i < |s| ==> (s + [c])[i] == s[i];
      }
      Sorting.UniqueByPermutation(s + [c], r, KindOf);
    }
  }

  /** Two orderings of the same contexts show the same kinds. */
  lemma MultisetKinds(s: seq<TitlePanelContext>, r: seq<TitlePanelContext>)
    requires multiset(s) == multiset(r)
    ensures forall k :: HasKind(s, k) <==> HasKind(r, k)
  {
    forall k ensures HasKind(s, k) ==> HasKind(r, k) {
      if HasKind(s, k) {
        var i :| 0 <= i < |s| && KindOf(s[i]) == k;
        assert s[i] in multiset(r);
      }
    }
    forall k ensures HasKind(r, k) ==> HasKind(s, k) {
      if HasKind(r, k) {
        var i :| 0 <= i < |r| && KindOf(r[i]) == k;
        assert r[i] in multiset(s);
      }
    }
  }

  /** Removes the first indicator of kind `k`, if any; the others keep their order. */
  function RemoveKind(s: seq<TitlePanelContext>, k: ContextKind): (r: seq<TitlePanelContext>)
    ensures !HasKind(s, k) ==> r == s
    ensures |r| == if HasKind(s, k) then |s| - 1 else |s|
    ensures forall c :: KindOf(c) != k ==> multiset(r)[c] == multiset(s)[c]
    ensures forall le :: Sorting.SortedBy(s, le) ==> Sorting.SortedBy(r, le)
    ensures UniqueKinds(s) ==> UniqueKinds(r) && !HasKind(r, k)
    ensures forall j :: j != k ==> (HasKind(r, j) <==> HasKind(s, j))
  {
    match FirstOfKind(s, k)
    case None => s
    case Some(i) =>
      RemoveAtKeepsOrder(s, i);
      RemoveAtKinds(s, i);
      RemoveAtMultiset(s, i);
      s[..i] + s[i + 1..]
  }

  lemma RemoveAtShift(s: seq<TitlePanelContext>, i: nat)
    requires i < |s|
    ensures var r := s[..i] + s[i + 1..];
      |r| == |s| - 1 && forall a :: 0 <= a < |r| ==> r[a] == if a < i then s[a] else s[a + 1]
  {
  }

  lemma RemoveAtKeepsOrder(s: seq<TitlePanelContext>, i: nat)
    requires i < |s|
    ensures forall le :: Sorting.SortedBy(s, le) ==> Sorting.SortedBy(s[..i] + s[i + 1..], le)
    ensures UniqueKinds(s) ==> UniqueKinds(s[..i] + s[i + 1..])
  {
    RemoveAtShift(s, i);
  }

  lemma RemoveAtMultiset(s: seq<TitlePanelContext>, i: nat)
    requires i < |s|
    ensures forall c :: c != s[i] ==> multiset(s[..i] + s[i + 1..])[c] == multiset(s)[c]
  {
    assert s == s[..i] + [s[i]] + s[i + 1..];
  }

  lemma RemoveAtKinds(s: seq<TitlePanelContext>, i: nat)
    requires i < |s|
    ensures forall j :: j != KindOf(s[i]) ==> (HasKind(s[..i] + s[i + 1..], j) <==> HasKind(s, j))
    ensures UniqueKinds(s) ==> !HasKind(s[..i] + s[i + 1..], KindOf(s[i]))
  {
    var r := s[..i] + s[i + 1..];
    RemoveAtShift(s, i);
    forall j | j != KindOf(s[i]) && HasKind(s, j)
      ensures HasKind(r, j)
    {
      var a :| 0 <= a < |s| && KindOf(s[a]) == j;
      if a < i { assert r[a] == s[a]; } else { assert r[a - 1] == s[a]; }
    }
    if UniqueKinds(s) {
      forall a | 0 <= a < |r|
        ensures KindOf(r[a]) != KindOf(s[i])
      {
        if a < i { assert KindOf(s[a]) != KindOf(s[i]); } else { assert KindOf(s[i]) != KindOf(s[a + 1]); }
      }
    }
  }

  /** The chat-title tap: hides the chat-info panel if shown, shows it otherwise. */
  function ToggleChatInfo(s: seq<TitlePanelContext>, rank: TitlePanelContext -> int): (r: seq<TitlePanelContext>)
    ensures UniqueKinds(s) ==> UniqueKinds(r) && (HasKind(r, ChatInfoKind) <==> !HasKind(s, ChatInfoKind))
    ensures forall k :: k != ChatInfoKind ==> (HasKind(r, k) <==> HasKind(s, k))
  {
    if HasKind(s, ChatInfoKind) then RemoveKind(s, ChatInfoKind) else AddIfAbsent(s, ChatInfo, rank)
  }

  /** Showing the toast `message`, or hiding the toast when there is none.
      An existing toast is replaced where it stands. */
  function SetToast(s: seq<TitlePanelContext>, message: Option<string>, rank: TitlePanelContext -> int): (r: seq<TitlePanelContext>)
    ensures message.Some? ==> ToastAlert(message.value) in r
    ensures message.Some? && HasKind(s, ToastAlertKind) ==>
      |r| == |s| && forall i :: 0 <= i < |s| && KindOf(s[i]) != ToastAlertKind ==> r[i] == s[i]
    ensures message.None? && UniqueKinds(s) ==> !HasKind(r, ToastAlertKind)
    ensures UniqueKinds(s) ==> UniqueKinds(r)
    ensures forall k :: k != ToastAlertKind ==> (HasKind(r, k) <==> HasKind(s, k))
  {
    match message
    case None => RemoveKind(s, ToastAlertKind)
    case Some(m) =>
      match FirstOfKind(s, ToastAlertKind)
      case Some(i) =>
        if s[i] != ToastAlert(m) then
          var r := s[i := ToastAlert(m)];
          assert r[i] == ToastAlert(m);
          assert forall k :: k != ToastAlertKind ==> (HasKind(r, k) <==> HasKind(s, k)) by {
            forall k | k != ToastAlertKind && HasKind(s, k)
              ensures HasKind(r, k)
            {
              var a :| 0 <= a < |s| && KindOf(s[a]) == k;
              assert r[a] == s[a];
            }
          }
          r
        else
          assert s[i] == ToastAlert(m);
          s
      case None =>
        var r := AddIfAbsent(s, ToastAlert(m), rank);
        assert ToastAlert(m) in multiset(r);
        r
  }

  /** The pinned-message panel is shown exactly when a message is pinned. */
  function UpdatePinned(s: seq<TitlePanelContext>, pinnedMessageId: Option<MessageId>, rank: TitlePanelContext -> int): (r: seq<TitlePanelContext>)
    ensures UniqueKinds(s) ==> UniqueKinds(r) && (HasKind(r, PinnedMessageKind) <==> pinnedMessageId.Some?)
    ensures forall k :: k != PinnedMessageKind ==> (HasKind(r, k) <==> HasKind(s, k))
  {
    if pinnedMessageId.Some? then AddIfAbsent(s, PinnedMessage, rank) else RemoveKind(s, PinnedMessageKind)
  }

  /** Toggling the chat-info panel twice shows the same kinds as before. */
  lemma {:induction false} ToggleChatInfoTwice(s: seq<TitlePanelContext>, rank: TitlePanelContext -> int)
    requires UniqueKinds(s)
    ensures var r := ToggleChatInfo(ToggleChatInfo(s, rank), rank);
      UniqueKinds(r) && forall k :: HasKind(r, k) <==> HasKind(s, k)
  {
    var t := ToggleChatInfo(s, rank);
    assert UniqueKinds(t);
  }
}
