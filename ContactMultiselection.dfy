/** Picking several contacts, for a new group or a privacy exception list:
    toggling a contact in the selection (with a soft cap on group size),
    the token list above the contact list, the counter in the title, the
    enabled state of the right button, and the result handed back on Done
    or Cancel. */
module ContactMultiselection {
  import opened Common

  type PeerId = int

  datatype Mode = GroupCreation | PeerSelection

  /** The server limits the picker reads; both are optional until loaded. */
  datatype LimitsConfiguration = LimitsConfiguration(maxGroupMemberCount: int, maxSupergroupMemberCount: int)

  /** The selected peers, each with the order in which it was selected. */
  datatype SelectionState = SelectionState(selectedPeerIndices: map<PeerId, int>, nextSelectionIndex: int)

  /** A name shown in the token list above the contacts. */
  datatype Token = Token(id: PeerId, title: string)

  datatype TitleText = NewGroupTitle | EmptyUsersPlaceholder
  datatype CounterTitle = CounterTitle(title: TitleText, counter: string)

  datatype ButtonKind = NextButton | DoneButton
  datatype RightButton = RightButton(kind: ButtonKind, isEnabled: bool)

  const DefaultMaxRegularCount: int := 200
  const DefaultMaxSupergroupCount: int := 5000

  /** `limitsConfiguration?.maxGroupMemberCount ?? 200`. */
  function MaxRegularCount(limits: Option<LimitsConfiguration>): int
  {
    if limits.Some? then limits.value.maxGroupMemberCount else DefaultMaxRegularCount
  }

  /** `limitsConfiguration?.maxSupergroupMemberCount ?? 5000`. */
  function MaxCount(limits: Option<LimitsConfiguration>): int
  {
    if limits.Some? then limits.value.maxSupergroupMemberCount else DefaultMaxSupergroupCount
  }

  /** `withToggledPeerId`: a selected peer is deselected, any other peer is
      selected with the next selection index. */
  function Toggled(s: SelectionState, peer: PeerId): (r: SelectionState)
    ensures peer in s.selectedPeerIndices ==> r.selectedPeerIndices.Keys == s.selectedPeerIndices.Keys - {peer}
    ensures peer !in s.selectedPeerIndices ==> r.selectedPeerIndices.Keys == s.selectedPeerIndices.Keys + {peer}
    ensures forall q :: q != peer && q in s.selectedPeerIndices ==> r.selectedPeerIndices[q] == s.selectedPeerIndices[q]
  {
    if peer in s.selectedPeerIndices then SelectionState(s.selectedPeerIndices - {peer}, s.nextSelectionIndex)
    else SelectionState(s.selectedPeerIndices[peer := s.nextSelectionIndex], s.nextSelectionIndex + 1)
  }

  function Count(s: SelectionState): nat
  {
    |s.selectedPeerIndices|
  }

  lemma ToggledCount(s: SelectionState, peer: PeerId)
    ensures peer in s.selectedPeerIndices ==> Count(Toggled(s, peer)) == Count(s) - 1
    ensures peer !in s.selectedPeerIndices ==> Count(Toggled(s, peer)) == Count(s) + 1
  {
    var r := Toggled(s, peer);
    assert |r.selectedPeerIndices.Keys| == |r.selectedPeerIndices|;
    assert |s.selectedPeerIndices.Keys| == |s.selectedPeerIndices|;
  }

  /** What a tap on a contact does to the selection, and which of the three
      outcomes it had. */
  datatype OpenPeerOutcome = OpenPeerOutcome(state: SelectionState, added: bool, removed: bool, displayCountAlert: bool)

  /** The tap on a contact: a selected contact is deselected; any other is
      selected, unless that brings the count to the limit, in which case the
      toggle is undone and the limit alert is raised. */
  function OpenPeerSelection(s: SelectionState, peer: PeerId, maxRegularCount: int): (r: OpenPeerOutcome)
    ensures r.removed <==> peer in s.selectedPeerIndices
    ensures r.removed ==> r.state.selectedPeerIndices.Keys == s.selectedPeerIndices.Keys - {peer}
    ensures r.displayCountAlert <==> peer !in s.selectedPeerIndices && Count(s) + 1 >= maxRegularCount
    ensures r.displayCountAlert ==> r.state.selectedPeerIndices.Keys == s.selectedPeerIndices.Keys
    ensures r.added <==> peer !in s.selectedPeerIndices && Count(s) + 1 < maxRegularCount
    ensures r.added ==> r.state.selectedPeerIndices.Keys == s.selectedPeerIndices.Keys + {peer} && Count(r.state) < maxRegularCount
    ensures peer in r.state.selectedPeerIndices <==> r.added
  {
    var updated := Toggled(s, peer);
    ToggledCount(s, peer);
    if peer !in updated.selectedPeerIndices then OpenPeerOutcome(updated, false, true, false)
    else if Count(updated) >= maxRegularCount then
      ToggledCount(updated, peer);
      OpenPeerOutcome(Toggled(updated, peer), false, false, true)
    else OpenPeerOutcome(updated, true, false, false)
  }

  /** The closure openPeer hands to the contact list: toggle, then undo the
      toggle when the selection reached the limit. */
  method ToggleWithinLimit(state: SelectionState, peer: PeerId, maxRegularCount: int) returns (outcome: OpenPeerOutcome)
    ensures outcome == OpenPeerSelection(state, peer, maxRegularCount)
  {
    var updatedState := Toggled(state, peer);
    var added, removed, displayCountAlert := false, false, false;
    if peer !in updatedState.selectedPeerIndices {
      removed := true;
    } else if Count(updatedState) >= maxRegularCount {
      displayCountAlert := true;
      updatedState := Toggled(updatedState, peer);
    } else {
      added := true;
    }
    outcome := OpenPeerOutcome(updatedState, added, removed, displayCountAlert);
  }

  /** A tap never takes the selection to the limit by adding a contact: a
      selection below the limit stays below it. */
  lemma OpenPeerStaysBelowLimit(s: SelectionState, peer: PeerId, maxRegularCount: int)
    requires Count(s) < maxRegularCount
    ensures Count(OpenPeerSelection(s, peer, maxRegularCount).state) < maxRegularCount
  {
    var r := OpenPeerSelection(s, peer, maxRegularCount);
    ToggledCount(s, peer);
    if r.displayCountAlert {
      assert r.state.selectedPeerIndices.Keys == s.selectedPeerIndices.Keys;
      assert |r.state.selectedPeerIndices.Keys| == |r.state.selectedPeerIndices|;
      assert |s.selectedPeerIndices.Keys| == |s.selectedPeerIndices|;
    }
  }

  /** The tokens without any token of `id`; the others keep their order. */
  function WithoutTokensOf(tokens: seq<Token>, id: PeerId): (r: seq<Token>)
    ensures forall t :: t in r <==> t in tokens && t.id != id
    ensures |r| <= |tokens|
    ensures (forall t :: t in tokens ==> t.id != id) ==> r == tokens
  {
    if tokens == [] then []
    else if tokens[0].id == id then WithoutTokensOf(tokens[1..], id)
    else [tokens[0]] + WithoutTokensOf(tokens[1..], id)
  }

  function TokenIds(tokens: seq<Token>): set<PeerId>
  {
    set t | t in tokens :: t.id
  }

  /** No two tokens carry the same contact. */
  ghost predicate DistinctIds(tokens: seq<Token>)
  {
    tokens == [] || (tokens[0].id !in TokenIds(tokens[1..]) && DistinctIds(tokens[1..]))
  }

  /** The token list shows each selected contact exactly once. */
  ghost predicate TokensMatch(tokens: seq<Token>, s: SelectionState)
  {
    TokenIds(tokens) == s.selectedPeerIndices.Keys && DistinctIds(tokens)
  }

  lemma {:induction false} WithoutTokensOfKeepsDistinct(tokens: seq<Token>, id: PeerId)
    requires DistinctIds(tokens)
    ensures DistinctIds(WithoutTokensOf(tokens, id))
  {
    if tokens != [] {
      WithoutTokensOfKeepsDistinct(tokens[1..], id);
      var rest := WithoutTokensOf(tokens[1..], id);
      if tokens[0].id != id {
        var r := [tokens[0]] + rest;
        assert r[1..] == rest;
        assert TokenIds(rest) <= TokenIds(tokens[1..]);
      }
    }
  }

  lemma {:induction false} AppendKeepsDistinct(tokens: seq<Token>, t: Token)
    requires DistinctIds(tokens) && t.id !in TokenIds(tokens)
    ensures DistinctIds(tokens + [t])
  {
    if tokens != [] {
      assert (tokens + [t])[1..] == tokens[1..] + [t];
      assert TokenIds(tokens[1..]) <= TokenIds(tokens);
      AppendKeepsDistinct(tokens[1..], t);
      assert TokenIds(tokens[1..] + [t]) == TokenIds(tokens[1..]) + {t.id};
    }
  }

  /** The token list edit that goes with a tap: deselecting removes the
      contact's tokens, selecting appends one token, an undone tap changes
      nothing. A matching token list stays matching. */
  lemma OpenPeerKeepsTokensMatching(tokens: seq<Token>, s: SelectionState, peer: PeerId, title: string, maxRegularCount: int)
    requires TokensMatch(tokens, s)
    ensures var r := OpenPeerSelection(s, peer, maxRegularCount);
      TokensMatch(TokensAfter(tokens, peer, title, r.added, r.removed), r.state)
  {
    var r := OpenPeerSelection(s, peer, maxRegularCount);
    if r.added {
      AppendKeepsDistinct(tokens, Token(peer, title));
      assert TokenIds(tokens + [Token(peer, title)]) == TokenIds(tokens) + {peer};
    } else if r.removed {
      WithoutTokensOfKeepsDistinct(tokens, peer);
    }
  }

  /** Dropping a selected contact from the token list deselects it and
      removes its token, so a matching token list stays matching. */
  lemma RemoveSelectedKeepsTokensMatching(tokens: seq<Token>, s: SelectionState, peer: PeerId)
    requires TokensMatch(tokens, s) && peer in s.selectedPeerIndices
    ensures var r := Toggled(s, peer);
      peer !in r.selectedPeerIndices && TokensMatch(TokensAfter(tokens, peer, "", false, true), r)
  {
    WithoutTokensOfKeepsDistinct(tokens, peer);
  }

  /** `if let addedToken … else if let removedTokenId …`. */
  function TokensAfter(tokens: seq<Token>, peer: PeerId, title: string, added: bool, removed: bool): (r: seq<Token>)
    ensures added ==> r == tokens + [Token(peer, title)]
    ensures !added && removed ==> TokenIds(r) == TokenIds(tokens) - {peer}
    ensures !added && !removed ==> r == tokens
  {
    if added then tokens + [Token(peer, title)]
    else if removed then
      var r := WithoutTokensOf(tokens, peer);
      assert TokenIds(r) == TokenIds(tokens) - {peer} by {
        forall x | x in TokenIds(tokens) - {peer}
          ensures x in TokenIds(r)
        {
          var t :| t in tokens && t.id == x;
          assert t in r;
        }
      }
      r
    else tokens
  }

  /** The group-creation counter, "count/max". */
  function CounterText(count: int, maxCount: int): (r: string)
    ensures |r| >= 3
  {
    Decimal(count) + "/" + Decimal(maxCount)
  }

  /** The counter reads back as the count and the maximum. */
  lemma CounterReadsBack(count: int, maxCount: int)
    ensures var r := CounterText(count, maxCount);
      var i := |Decimal(count)|;
      && r[i] == '/'
      && ParseDecimal(r[..i]) == count
      && ParseDecimal(r[i + 1..]) == maxCount
  {
    var r := CounterText(count, maxCount);
    var i := |Decimal(count)|;
    assert r[..i] == Decimal(count);
    assert r[i + 1..] == Decimal(maxCount);
    DecimalRoundTrip(count);
    DecimalRoundTrip(maxCount);
  }

  /** The title a mode starts with: "0/max" for a new group, no counter for
      a privacy exception list. */
  function InitialTitle(mode: Mode, limits: Option<LimitsConfiguration>): (r: CounterTitle)
    ensures mode == GroupCreation ==> r == CounterTitle(NewGroupTitle, CounterText(0, MaxCount(limits)))
    ensures mode == PeerSelection ==> r == CounterTitle(EmptyUsersPlaceholder, "")
  {
    match mode
    case GroupCreation => CounterTitle(NewGroupTitle, CounterText(0, MaxCount(limits)))
    case PeerSelection => CounterTitle(EmptyUsersPlaceholder, "")
  }

  /** What a new count does to the right button and the title: the button
      (if there is one) is enabled exactly when something is selected, and a
      new group's counter shows the count. */
  function CountShown(mode: Mode, limits: Option<LimitsConfiguration>, button: Option<RightButton>,
                      title: Option<CounterTitle>, updatedCount: nat): (r: (Option<RightButton>, Option<CounterTitle>))
    ensures r.0.Some? <==> button.Some?
    ensures r.0.Some? ==> r.0.value.kind == button.value.kind && (r.0.value.isEnabled <==> updatedCount != 0)
    ensures mode == GroupCreation ==> r.1 == Some(CounterTitle(NewGroupTitle, CounterText(updatedCount, MaxCount(limits))))
    ensures mode == PeerSelection ==> r.1 == title
  {
    (if button.None? then None else Some(button.value.(isEnabled := updatedCount != 0)),
     if mode == GroupCreation then Some(CounterTitle(NewGroupTitle, CounterText(updatedCount, MaxCount(limits)))) else title)
  }

  class ContactMultiselectionController {
    const mode: Mode
    var limitsConfiguration: Option<LimitsConfiguration>
    /** The contact list's selection; `None` when the list has none. */
    var selection: Option<SelectionState>
    /** Whether a search results list is on screen, and the selection it shows. */
    var searchResultsShown: bool
    var searchSelection: Option<SelectionState>
    var editableTokens: seq<Token>
    var title: Option<CounterTitle>
    var rightNavigationButton: Option<RightButton>
    var cancelButtonShown: bool
    /** How many times the group-size alert was presented. */
    var countAlerts: nat
    /** The value handed to whoever waits for the picker's result. */
    var result: Option<seq<PeerId>>

    constructor(mode: Mode, initialSelection: Option<SelectionState>, searchResultsShown: bool)
      ensures this.mode == mode && selection == initialSelection && this.searchResultsShown == searchResultsShown
      ensures limitsConfiguration.None? && editableTokens == [] && title.None? && rightNavigationButton.None?
      ensures !cancelButtonShown && countAlerts == 0 && result.None? && searchSelection == initialSelection
    {
      this.mode := mode;
      limitsConfiguration := None;
      selection := initialSelection;
      this.searchResultsShown := searchResultsShown;
      searchSelection := initialSelection;
      editableTokens := [];
      title := None;
      rightNavigationButton := None;
      cancelButtonShown := false;
      countAlerts := 0;
      result := None;
    }

    /** updateTitle: the mode's title and a fresh, disabled right button
      (Next for a group, Done with a Cancel beside it for a list). */
    method UpdateTitle()
      modifies this`title, this`rightNavigationButton, this`cancelButtonShown
      ensures title == Some(InitialTitle(mode, limitsConfiguration))
      ensures rightNavigationButton == Some(RightButton(if mode == GroupCreation then NextButton else DoneButton, false))
      ensures cancelButtonShown == (old(cancelButtonShown) || mode == PeerSelection)
    {
      match mode
      case GroupCreation =>
        var maxCount := MaxCount(limitsConfiguration);
        title := Some(CounterTitle(NewGroupTitle, CounterText(0, maxCount)));
        rightNavigationButton := Some(RightButton(NextButton, false));
      case PeerSelection =>
        title := Some(CounterTitle(EmptyUsersPlaceholder, ""));
        rightNavigationButton := Some(RightButton(DoneButton, false));
        cancelButtonShown := true;
    }

    /** The limits arrive: stored, and the title redone. */
    method LimitsLoaded(value: LimitsConfiguration)
      modifies this`limitsConfiguration, this`title, this`rightNavigationButton, this`cancelButtonShown
      ensures limitsConfiguration == Some(value)
      ensures title == Some(InitialTitle(mode, Some(value)))
      ensures rightNavigationButton.Some? && !rightNavigationButton.value.isEnabled
    {
      limitsConfiguration := Some(value);
      UpdateTitle();
    }

    /** After a change of the count: the right button is enabled exactly
      when something is selected, and a new group's counter shows the count. */
    method CountUpdated(updatedCount: nat)
      modifies this`rightNavigationButton, this`title
      ensures (rightNavigationButton, title) == CountShown(mode, limitsConfiguration, old(rightNavigationButton), old(title), updatedCount)
    {
      if rightNavigationButton.Some? {
        rightNavigationButton := Some(rightNavigationButton.value.(isEnabled := updatedCount != 0));
      }
      match mode
      case GroupCreation =>
        title := Some(CounterTitle(NewGroupTitle, CounterText(updatedCount, MaxCount(limitsConfiguration))));
      case PeerSelection =>
    }

    /** openPeer: a tap on a contact. */
    method OpenPeer(peer: PeerId, peerTitle: string)
      modifies this`selection, this`searchSelection, this`rightNavigationButton, this`title, this`editableTokens, this`countAlerts
      ensures old(selection).None? ==>
        && selection.None? && rightNavigationButton == old(rightNavigationButton) && title == old(title)
        && editableTokens == old(editableTokens) && countAlerts == old(countAlerts)
      ensures old(selection).Some? ==>
        var r := OpenPeerSelection(old(selection).value, peer, MaxRegularCount(limitsConfiguration));
        && selection == Some(r.state)
        && editableTokens == TokensAfter(old(editableTokens), peer, peerTitle, r.added, r.removed)
        && countAlerts == old(countAlerts) + (if r.displayCountAlert then 1 else 0)
        && (rightNavigationButton, title) == CountShown(mode, limitsConfiguration, old(rightNavigationButton), old(title), Count(r.state))
      ensures searchSelection == if searchResultsShown then selection else old(searchSelection)
    {
      var maxRegularCount := MaxRegularCount(limitsConfiguration);
      if selection.Some? {
        var outcome := ToggleWithinLimit(selection.value, peer, maxRegularCount);
        ApplyOpenPeerOutcome(outcome, peer, peerTitle);
      } else if searchResultsShown {
        searchSelection := None;
      }
    }

    /** The rest of openPeer once the selection closure ran. */
    method ApplyOpenPeerOutcome(outcome: OpenPeerOutcome, peer: PeerId, peerTitle: string)
      modifies this`selection, this`searchSelection, this`rightNavigationButton, this`title, this`editableTokens, this`countAlerts
      ensures selection == Some(outcome.state)
      ensures editableTokens == TokensAfter(old(editableTokens), peer, peerTitle, outcome.added, outcome.removed)
      ensures countAlerts == old(countAlerts) + (if outcome.displayCountAlert then 1 else 0)
      ensures (rightNavigationButton, title) == CountShown(mode, limitsConfiguration, old(rightNavigationButton), old(title), Count(outcome.state))
      ensures searchSelection == if searchResultsShown then selection else old(searchSelection)
    {
      selection := Some(outcome.state);
      if searchResultsShown {
        searchSelection := selection;
      }
      CountUpdated(Count(outcome.state));
      UpdateTokens(peer, peerTitle, outcome.added, outcome.removed);
      if outcome.displayCountAlert {
        countAlerts := countAlerts + 1;
      }
    }

    /** The token list edit after a toggle: append the added contact's
      token, or drop every token of the removed contact. */
    method UpdateTokens(peer: PeerId, peerTitle: string, added: bool, removed: bool)
      modifies this`editableTokens
      ensures editableTokens == TokensAfter(old(editableTokens), peer, peerTitle, added, removed)
    {
      if added {
        editableTokens := editableTokens + [Token(peer, peerTitle)];
      } else if removed {
        editableTokens := WithoutTokensOf(editableTokens, peer);
      }
    }

    /** removeSelectedPeer: the token list asks to drop a contact; the
      selection toggles with no limit check, and the contact's tokens go
      only when it ends up deselected. */
    method RemoveSelectedPeer(peer: PeerId)
      modifies this`selection, this`searchSelection, this`rightNavigationButton, this`title, this`editableTokens
      ensures old(selection).None? ==>
        selection.None? && rightNavigationButton == old(rightNavigationButton) && title == old(title)
        && editableTokens == old(editableTokens)
      ensures old(selection).Some? ==>
        var s := Toggled(old(selection).value, peer);
        && selection == Some(s)
        && editableTokens == TokensAfter(old(editableTokens), peer, "", false, peer !in s.selectedPeerIndices)
        && (rightNavigationButton, title) == CountShown(mode, limitsConfiguration, old(rightNavigationButton), old(title), Count(s))
      ensures searchSelection == if searchResultsShown then selection else old(searchSelection)
    {
      var removed := false;
      var selectionState: Option<SelectionState> := None;
      if selection.Some? {
        var updatedState := Toggled(selection.value, peer);
        if peer !in updatedState.selectedPeerIndices {
          removed := true;
        }
        selectionState := Some(updatedState);
        selection := selectionState;
      }
      if searchResultsShown {
        searchSelection := selectionState;
      }
      if selectionState.Some? {
        CountUpdated(Count(selectionState.value));
      }
      if removed {
        editableTokens := WithoutTokensOf(editableTokens, peer);
      }
    }

    /** rightNavigationButtonPressed: the selected contacts, each once, in
      the dictionary's (unspecified) key order; nothing without a selection. */
    method Done()
      modifies this`result
      ensures result.Some?
      ensures selection.None? ==> result.value == []
      ensures selection.Some? ==>
        && (forall x :: x in result.value <==> x in selection.value.selectedPeerIndices)
        && |result.value| == Count(selection.value)
    {
      var peerIds: seq<PeerId> := [];
      if selection.Some? {
        peerIds := KeysOf(selection.value.selectedPeerIndices);
      }
      result := Some(peerIds);
    }

    /** cancelPressed: an empty result. */
    method Cancel()
      modifies this`result
      ensures result == Some([])
    {
      result := Some([]);
    }
  }

  /** `Array(dictionary.keys)`: every key once, in some order. */
  method KeysOf(m: map<PeerId, int>) returns (ids: seq<PeerId>)
    ensures forall x :: x in ids <==> x in m
    ensures forall i, j :: 0 <= i < j < |ids| ==> ids[i] != ids[j]
    ensures |ids| == |m|
  {
    ids := [];
    var rest := m.Keys;
    while rest != {}
      invariant rest <= m.Keys
      invariant forall x :: x in ids <==> x in m && x !in rest
      invariant forall i, j :: 0 <= i < j < |ids| ==> ids[i] != ids[j]
      invariant |ids| + |rest| == |m.Keys|
      decreases |rest|
    {
      NonEmptyHasMember(rest);
      var k :| k in rest;
      ids := ids + [k];
      rest := rest - {k};
    }
    assert |m.Keys| == |m|;
  }

  lemma NonEmptyHasMember(s: set<PeerId>)
    requires s != {}
    ensures exists x :: x in s
  {
    if forall x :: x !in s {
      assert false;
    }
  }
}
