/** Jump-back navigation: the stack of positions the user jumped away from,
    and the scan of a loaded history window for a message. The stack's own
    implementation is not part of this model; its operations are modelled
    by their names: `add` pushes, `removeLast` pops, `filterOutIndicesLessThan`
    drops the positions before an index. */
module ChatNavigation {
  import opened Common
  import opened ChatState

  datatype NavigationStack = NavigationStack(entries: seq<MessageIndex>)
  {
    predicate IsEmpty()
    {
      entries == []
    }
  }

  /** No position sits twice in a row. */
  predicate NoConsecutiveRepeats(st: NavigationStack)
  {
    forall i :: 0 < i < |st.entries| ==> st.entries[i - 1] != st.entries[i]
  }

  /** Pushes a position, unless it is already the most recent one. */
  function Add(st: NavigationStack, index: MessageIndex): (r: NavigationStack)
    ensures !st.IsEmpty() && st.entries[|st.entries| - 1] == index ==> r == st
    ensures st.IsEmpty() || st.entries[|st.entries| - 1] != index ==> r.entries == st.entries + [index]
    ensures |r.entries| > 0 && r.entries[|r.entries| - 1] == index
  {
    if !st.IsEmpty() && st.entries[|st.entries| - 1] == index then st
    else NavigationStack(st.entries + [index])
  }

  /** Pushing never creates two consecutive equal entries. */
  lemma AddKeepsNoConsecutiveRepeats(st: NavigationStack, index: MessageIndex)
    requires NoConsecutiveRepeats(st)
    ensures NoConsecutiveRepeats(Add(st, index))
  {
    var r := Add(st, index);
    forall i | 0 < i < |r.entries|
      ensures r.entries[i - 1] != r.entries[i]
    {
      if i < |st.entries| {
        assert r.entries[i - 1] == st.entries[i - 1] && r.entries[i] == st.entries[i];
      }
    }
  }

  /** Pops the most recent position, if any. */
  function RemoveLast(st: NavigationStack): (r: (NavigationStack, Option<MessageIndex>))
    ensures r.1.None? <==> st.IsEmpty()
    ensures r.1.None? ==> r.0 == st
    ensures r.1.Some? ==> r.0.entries + [r.1.value] == st.entries
  {
    if st.IsEmpty() then (st, None)
    else (NavigationStack(st.entries[..|st.entries| - 1]), Some(st.entries[|st.entries| - 1]))
  }

  /** A push that was not a repeat is undone by a pop. */
  lemma RemoveLastUndoesAdd(st: NavigationStack, index: MessageIndex)
    requires st.IsEmpty() || st.entries[|st.entries| - 1] != index
    ensures RemoveLast(Add(st, index)) == (st, Some(index))
  {
    assert (st.entries + [index])[..|st.entries|] == st.entries;
  }

  /** The entries not before `index`, oldest first. */
  function KeptEntries(entries: seq<MessageIndex>, index: MessageIndex): seq<MessageIndex>
    decreases |entries|
  {
    if entries == [] then []
    else
      var last := entries[|entries| - 1];
      KeptEntries(entries[..|entries| - 1], index) + (if IndexLess(last, index) then [] else [last])
  }

  lemma {:induction false} KeptEntriesBounds(entries: seq<MessageIndex>, index: MessageIndex)
    ensures forall i :: 0 <= i < |KeptEntries(entries, index)| ==> !IndexLess(KeptEntries(entries, index)[i], index)
    ensures forall i :: 0 <= i < |entries| && !IndexLess(entries[i], index) ==> entries[i] in KeptEntries(entries, index)
    ensures multiset(KeptEntries(entries, index)) <= multiset(entries)
    decreases |entries|
  {
    if entries != [] {
      var init := entries[..|entries| - 1];
      var last := entries[|entries| - 1];
      KeptEntriesBounds(init, index);
      assert entries == init + [last];
      var rest := KeptEntries(init, index);
      if !IndexLess(last, index) {
        assert KeptEntries(entries, index) == rest + [last];
      } else {
        assert KeptEntries(entries, index) == rest;
      }
    }
  }

  /** Drops every position before `index`, keeping the others in order. */
  function FilterOutIndicesLessThan(st: NavigationStack, index: MessageIndex): (r: NavigationStack)
    ensures forall i :: 0 <= i < |r.entries| ==> !IndexLess(r.entries[i], index)
    ensures forall i :: 0 <= i < |st.entries| && !IndexLess(st.entries[i], index) ==> st.entries[i] in r.entries
    ensures multiset(r.entries) <= multiset(st.entries)
  {
    KeptEntriesBounds(st.entries, index);
    NavigationStack(KeptEntries(st.entries, index))
  }

  /** Every position at or above the index is kept as often as it occurs;
      every one below it is gone. */
  lemma {:induction false} FilterCounts(st: NavigationStack, index: MessageIndex, x: MessageIndex)
    ensures multiset(FilterOutIndicesLessThan(st, index).entries)[x] ==
      if IndexLess(x, index) then 0 else multiset(st.entries)[x]
    decreases |st.entries|
  {
    if st.entries != [] {
      var init := NavigationStack(st.entries[..|st.entries| - 1]);
      var last := st.entries[|st.entries| - 1];
      FilterCounts(init, index, x);
      assert st.entries == init.entries + [last];
      assert multiset(st.entries) == multiset(init.entries) + multiset{last};
      var rest := FilterOutIndicesLessThan(init, index);
      if !IndexLess(last, index) {
        assert multiset(rest.entries + [last]) == multiset(rest.entries) + multiset{last};
      }
    }
  }

  /** One step of the pruning: the newest position is kept or dropped. */
  lemma FilterStep(st: NavigationStack, index: MessageIndex)
    requires st.entries != []
    ensures var last := st.entries[|st.entries| - 1];
      FilterOutIndicesLessThan(st, index).entries ==
        FilterOutIndicesLessThan(NavigationStack(st.entries[..|st.entries| - 1]), index).entries
        + (if IndexLess(last, index) then [] else [last])
  {
  }

  lemma {:induction false} KeptEntriesAppend(older: seq<MessageIndex>, newer: seq<MessageIndex>, index: MessageIndex)
    ensures KeptEntries(older + newer, index) == KeptEntries(older, index) + KeptEntries(newer, index)
    decreases |newer|
  {
    if newer == [] {
      assert older + newer == older;
    } else {
      var init := newer[..|newer| - 1];
      var last := newer[|newer| - 1];
      assert (older + newer)[..|older + newer| - 1] == older + init;
      assert (older + newer)[|older + newer| - 1] == last;
      KeptEntriesAppend(older, init, index);
    }
  }

  /** Pruning a history is pruning its older and its newer part apart, so
      the kept positions stay in their order. */
  lemma FilterAppend(older: NavigationStack, newer: NavigationStack, index: MessageIndex)
    ensures FilterOutIndicesLessThan(NavigationStack(older.entries + newer.entries), index).entries ==
      FilterOutIndicesLessThan(older, index).entries + FilterOutIndicesLessThan(newer, index).entries
  {
    KeptEntriesAppend(older.entries, newer.entries, index);
  }

  lemma {:induction false} KeptEntriesIdempotent(entries: seq<MessageIndex>, index: MessageIndex)
    ensures KeptEntries(KeptEntries(entries, index), index) == KeptEntries(entries, index)
    decreases |entries|
  {
    if entries != [] {
      var init := entries[..|entries| - 1];
      var last := entries[|entries| - 1];
      var rest := KeptEntries(init, index);
      var tail: seq<MessageIndex> := if IndexLess(last, index) then [] else [last];
      assert KeptEntries(entries, index) == rest + tail;
      KeptEntriesIdempotent(init, index);
      KeptEntriesAppend(rest, tail, index);
      assert KeptEntries(tail, index) == tail by {
        if tail != [] {
          assert tail[..0] == [];
        }
      }
    }
  }

  /** Pruning twice with the same index prunes nothing more. */
  lemma FilterIdempotent(st: NavigationStack, index: MessageIndex)
    ensures FilterOutIndicesLessThan(FilterOutIndicesLessThan(st, index), index) == FilterOutIndicesLessThan(st, index)
  {
    KeptEntriesIdempotent(st.entries, index);
  }

  /** An entry of the history view: a message at its position, or anything else. */
  datatype HistoryEntry = MessageEntry(index: MessageIndex) | OtherEntry

  /** The position of the first message entry with id `id`. */
  function FirstIndexWithId(entries: seq<HistoryEntry>, id: MessageId): (r: Option<MessageIndex>)
    ensures r.Some? ==> r.value.id == id && MessageEntry(r.value) in entries
    ensures r.None? <==> forall i :: 0 <= i < |entries| && entries[i].MessageEntry? ==> entries[i].index.id != id
  {
    if entries == [] then None
    else if entries[0].MessageEntry? && entries[0].index.id == id then Some(entries[0].index)
    else
      assert forall i :: 0 < i < |entries| ==> entries[1..][i - 1] == entries[i];
      FirstIndexWithId(entries[1..], id)
  }

  /** The scan over a loaded history window for the target message. */
  method FindMessageIndex(entries: seq<HistoryEntry>, id: MessageId) returns (r: Option<MessageIndex>)
    ensures r == FirstIndexWithId(entries, id)
  {
    var i := 0;
    while i < |entries|
      invariant 0 <= i <= |entries|
      invariant FirstIndexWithId(entries, id) == FirstIndexWithId(entries[i..], id)
    {
      assert entries[i..][1..] == entries[i + 1..];
      if entries[i].MessageEntry? && entries[i].index.id == id {
        return Some(entries[i].index);
      }
      i := i + 1;
    }
    return None;
  }

  /** What the history node currently shows: the visible messages and the anchor. */
  datatype VisibleHistory = VisibleHistory(messages: seq<HistoryEntry>, anchor: Option<MessageIndex>)

  /** messageInCurrentHistoryView. */
  function MessageInView(view: VisibleHistory, id: MessageId): (r: Option<MessageIndex>)
    ensures r.Some? ==> r.value.id == id
  {
    FirstIndexWithId(view.messages, id)
  }
}
