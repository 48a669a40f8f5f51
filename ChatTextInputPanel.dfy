/** The chat input panel's own decisions: rebuilding the accessory buttons
    when the accessory items change, which of the send, microphone and
    search-clear buttons are visible, and what a press on an accessory
    button, the start of editing or the microphone asks the controller for.
    Buttons are named by numbers; layout, fonts and animations are not part
    of this model. */
module ChatTextInputPanel {
  import opened Common
  import opened ChatState
  import ChatController
  import ChatRecording

  /** An accessory item and the button that shows it. */
  datatype AccessoryButton = AccessoryButton(item: AccessoryItem, button: nat)

  function ItemsOf(bs: seq<AccessoryButton>): (r: seq<AccessoryItem>)
    ensures |r| == |bs|
    ensures forall i :: 0 <= i < |bs| ==> r[i] == bs[i].item
  {
    seq(|bs|, i requires 0 <= i < |bs| => bs[i].item)
  }

  function ButtonsOf(bs: seq<AccessoryButton>): (r: seq<nat>)
    ensures |r| == |bs|
    ensures forall i :: 0 <= i < |bs| ==> r[i] == bs[i].button
  {
    seq(|bs|, i requires 0 <= i < |bs| => bs[i].button)
  }

  /** No button appears twice, and every button is numbered below `next`. */
  ghost predicate Numbered(bs: seq<AccessoryButton>, next: nat)
  {
    && (forall i :: 0 <= i < |bs| ==> bs[i].button < next)
    && (forall i, j :: 0 <= i < j < |bs| ==> bs[i].button != bs[j].button)
  }

  // ---- Accessory buttons (updateLayout) ---------------------------------

  /** The scan that decides whether the buttons must be rebuilt: when the
      counts differ, or some position shows a different item. */
  method NeedsAccessoryUpdate(items: seq<AccessoryItem>, buttons: seq<AccessoryButton>) returns (update: bool)
    ensures update <==> |items| != |buttons| || exists i :: 0 <= i < |items| && items[i] != buttons[i].item
    ensures update <==> ItemsOf(buttons) != items
  {
    if |items| == |buttons| {
      update := false;
      for i := 0 to |items|
        invariant forall j :: 0 <= j < i ==> items[j] == buttons[j].item
      {
        if items[i] != buttons[i].item {
          update := true;
          assert ItemsOf(buttons)[i] != items[i];
          return;
        }
      }
      assert ItemsOf(buttons) == items;
    } else {
      update := true;
    }
  }

  /** `accessoryItemButtons.remove(at: i)`. */
  function RemoveAt(s: seq<AccessoryButton>, i: nat): (r: seq<AccessoryButton>)
    requires i < |s|
    ensures |r| == |s| - 1
    ensures forall j :: 0 <= j < |r| ==> r[j] == if j < i then s[j] else s[j + 1]
    ensures multiset(s) == multiset(r) + multiset{s[i]}
    ensures forall b :: b in r ==> b in s
  {
    assert s == s[..i] + [s[i]] + s[i + 1..];
    s[..i] + s[i + 1..]
  }

  /** The first old button showing `item`. */
  function FindItem(pool: seq<AccessoryButton>, item: AccessoryItem): (r: Option<nat>)
    ensures r.None? <==> forall i :: 0 <= i < |pool| ==> pool[i].item != item
    ensures r.Some? ==> r.value < |pool| && pool[r.value].item == item
    ensures r.Some? ==> forall i :: 0 <= i < r.value ==> pool[i].item != item
  {
    if pool == [] then None
    else if pool[0].item == item then Some(0)
    else
      var t := FindItem(pool[1..], item);
      assert forall i :: 0 < i < |pool| ==> pool[1..][i - 1] == pool[i];
      if t.None? then None else Some(t.value + 1)
  }

  /** The new button list, the old buttons nobody took, and the next free
      button number. */
  datatype Reconciliation = Reconciliation(buttons: seq<AccessoryButton>, leftovers: seq<AccessoryButton>, nextButton: nat)

  /** One item's button: the first old button showing the item, taken out of
      the old list, or else a new button with the next free number. */
  datatype Placement = Placement(button: AccessoryButton, remaining: seq<AccessoryButton>, nextButton: nat)

  function Place(pool: seq<AccessoryButton>, item: AccessoryItem, next: nat): (r: Placement)
    ensures r.button.item == item
  {
    match FindItem(pool, item)
    case Some(i) => Placement(pool[i], RemoveAt(pool, i), next)
    case None => Placement(AccessoryButton(item, next), pool, next + 1)
  }

  /** The rebuild: item by item, each item's button is placed in turn. */
  function Reconcile(pool: seq<AccessoryButton>, items: seq<AccessoryItem>, next: nat): (r: Reconciliation)
    ensures |r.buttons| == |items| && forall k :: 0 <= k < |items| ==> r.buttons[k].item == items[k]
    ensures next <= r.nextButton
    decreases |items|
  {
    if items == [] then Reconciliation([], pool, next)
    else
      var p := Place(pool, items[0], next);
      var rest := Reconcile(p.remaining, items[1..], p.nextButton);
      Reconciliation([p.button] + rest.buttons, rest.leftovers, rest.nextButton)
  }

  /** One step of the rebuild, from position `k` of the items on. */
  lemma ReconcileStep(pool: seq<AccessoryButton>, items: seq<AccessoryItem>, k: nat, next: nat)
    requires k < |items|
    ensures var p := Place(pool, items[k], next);
      var rest := Reconcile(p.remaining, items[k + 1..], p.nextButton);
      Reconcile(pool, items[k..], next) == Reconciliation([p.button] + rest.buttons, rest.leftovers, rest.nextButton)
  {
    assert items[k..][0] == items[k];
    assert items[k..][1..] == items[k + 1..];
  }

  /** Placing item `k` keeps the rebuild's progress: the buttons placed so
      far, followed by the rebuild of the remaining items, are the whole
      rebuild. */
  lemma ReconcileAdvance(pool0: seq<AccessoryButton>, items: seq<AccessoryItem>, next0: nat, done: seq<AccessoryButton>,
                         pool: seq<AccessoryButton>, next: nat, k: nat,
                         button: AccessoryButton, pool': seq<AccessoryButton>, next': nat)
    requires k < |items|
    requires var rest := Reconcile(pool, items[k..], next);
      Reconcile(pool0, items, next0) == Reconciliation(done + rest.buttons, rest.leftovers, rest.nextButton)
    requires Place(pool, items[k], next) == Placement(button, pool', next')
    ensures var rest := Reconcile(pool', items[k + 1..], next');
      Reconcile(pool0, items, next0) == Reconciliation(done + [button] + rest.buttons, rest.leftovers, rest.nextButton)
  {
    ReconcileStep(pool, items, k, next);
    var rest := Reconcile(pool', items[k + 1..], next');
    assert done + [button] + rest.buttons == done + ([button] + rest.buttons);
  }

  /** After the rebuild the buttons show exactly the accessory items, in order. */
  lemma ReconciledShowsItems(pool: seq<AccessoryButton>, items: seq<AccessoryItem>, next: nat)
    ensures ItemsOf(Reconcile(pool, items, next).buttons) == items
  {
    var r := Reconcile(pool, items, next);
    assert forall k :: 0 <= k < |items| ==> ItemsOf(r.buttons)[k] == items[k];
  }

  /** Every old button is reused or left over: none is lost by the rebuild. */
  lemma {:induction false} ReconcileKeepsPool(pool: seq<AccessoryButton>, items: seq<AccessoryItem>, next: nat)
    ensures var r := Reconcile(pool, items, next);
      multiset(pool) <= multiset(r.buttons) + multiset(r.leftovers)
    decreases |items|
  {
    if items != [] {
      match FindItem(pool, items[0])
      case Some(i) =>
        ReconcileKeepsPool(RemoveAt(pool, i), items[1..], next);
      case None =>
        ReconcileKeepsPool(pool, items[1..], next + 1);
    }
  }

  /** The leftovers are old buttons, each at most as often as it was there. */
  lemma {:induction false} ReconcileLeftoversAreOld(pool: seq<AccessoryButton>, items: seq<AccessoryItem>, next: nat)
    ensures var r := Reconcile(pool, items, next);
      multiset(r.leftovers) <= multiset(pool)
    decreases |items|
  {
    if items != [] {
      match FindItem(pool, items[0])
      case Some(i) =>
        ReconcileLeftoversAreOld(RemoveAt(pool, i), items[1..], next);
      case None =>
        ReconcileLeftoversAreOld(pool, items[1..], next + 1);
    }
  }

  /** A shown button is an old one or has a number handed out by this rebuild. */
  lemma {:induction false} ReconcileButtonsOldOrNew(pool: seq<AccessoryButton>, items: seq<AccessoryItem>, next: nat)
    ensures var r := Reconcile(pool, items, next);
      forall b :: b in r.buttons ==> b in pool || next <= b.button < r.nextButton
    decreases |items|
  {
    if items != [] {
      match FindItem(pool, items[0])
      case Some(i) =>
        ReconcileButtonsOldOrNew(RemoveAt(pool, i), items[1..], next);
      case None =>
        ReconcileButtonsOldOrNew(pool, items[1..], next + 1);
    }
  }

  /** No two buttons of the result share a number, in particular no left over
      button is still shown. */
  ghost predicate Apart(a: seq<AccessoryButton>, b: seq<AccessoryButton>)
  {
    forall i, j :: 0 <= i < |a| && 0 <= j < |b| ==> a[i].button != b[j].button
  }

  /** Numbers stay distinct through the rebuild: reused buttons keep theirs,
      new buttons get fresh ones, and the leftovers are apart from the shown ones. */
  lemma {:induction false} ReconcileKeepsNumbering(pool: seq<AccessoryButton>, items: seq<AccessoryItem>, next: nat)
    requires Numbered(pool, next)
    ensures NumberedResult(Reconcile(pool, items, next))
    decreases |items|
  {
    if items != [] {
      match FindItem(pool, items[0])
      case Some(i) =>
        RemovedIsDistinct(pool, i, next);
        ReconcileKeepsNumbering(RemoveAt(pool, i), items[1..], next);
        NumberingAfterReuse(pool, items, next, i);
      case None =>
        ReconcileKeepsNumbering(pool, items[1..], next + 1);
        NumberingAfterCreate(pool, items, next);
    }
  }

  ghost predicate NumberedResult(r: Reconciliation)
  {
    Numbered(r.buttons, r.nextButton) && Numbered(r.leftovers, r.nextButton) && Apart(r.buttons, r.leftovers)
  }

  /** The step of `ReconcileKeepsNumbering` that reuses an old button. */
  lemma NumberingAfterReuse(pool: seq<AccessoryButton>, items: seq<AccessoryItem>, next: nat, i: nat)
    requires Numbered(pool, next) && items != [] && FindItem(pool, items[0]) == Some(i)
    requires NumberedResult(Reconcile(RemoveAt(pool, i), items[1..], next))
    ensures NumberedResult(Reconcile(pool, items, next))
  {
    var p := RemoveAt(pool, i);
    RemovedIsDistinct(pool, i, next);
    ReconcileLeftoversAreOld(p, items[1..], next);
    ReconcileButtonsOldOrNew(p, items[1..], next);
    var rest := Reconcile(p, items[1..], next);
    assert Place(pool, items[0], next) == Placement(pool[i], p, next);
    assert Reconcile(pool, items, next) == Reconciliation([pool[i]] + rest.buttons, rest.leftovers, rest.nextButton);
    PrependNumbered(pool[i], rest.buttons, rest.leftovers, p, next, rest.nextButton);
  }

  /** The step of `ReconcileKeepsNumbering` that creates a button. */
  lemma NumberingAfterCreate(pool: seq<AccessoryButton>, items: seq<AccessoryItem>, next: nat)
    requires Numbered(pool, next) && items != [] && FindItem(pool, items[0]).None?
    requires NumberedResult(Reconcile(pool, items[1..], next + 1))
    ensures NumberedResult(Reconcile(pool, items, next))
  {
    ReconcileLeftoversAreOld(pool, items[1..], next + 1);
    ReconcileButtonsOldOrNew(pool, items[1..], next + 1);
    var rest := Reconcile(pool, items[1..], next + 1);
    assert Place(pool, items[0], next) == Placement(AccessoryButton(items[0], next), pool, next + 1);
    assert Reconcile(pool, items, next) == Reconciliation([AccessoryButton(items[0], next)] + rest.buttons, rest.leftovers, rest.nextButton);
    assert forall x :: x in pool ==> x.button < next;
    PrependNumbered(AccessoryButton(items[0], next), rest.buttons, rest.leftovers, pool, next + 1, rest.nextButton);
  }

  lemma PrependNumbered(b: AccessoryButton, buttons: seq<AccessoryButton>, leftovers: seq<AccessoryButton>,
                        p: seq<AccessoryButton>, low: nat, next: nat)
    requires Numbered(buttons, next) && Numbered(leftovers, next) && Apart(buttons, leftovers)
    requires b.button < low <= next
    requires forall x :: x in buttons ==> x in p || low <= x.button
    requires multiset(leftovers) <= multiset(p)
    requires forall x :: x in p ==> x.button != b.button
    ensures Numbered([b] + buttons, next) && Numbered(leftovers, next) && Apart([b] + buttons, leftovers)
  {
    var s := [b] + buttons;
    assert forall j :: 0 < j < |s| ==> s[j] == buttons[j - 1];
    forall j | 0 <= j < |buttons|
      ensures buttons[j].button != b.button
    {
      assert buttons[j] in buttons;
    }
    forall j | 0 <= j < |leftovers|
      ensures leftovers[j].button != b.button
    {
      assert leftovers[j] in multiset(p);
    }
  }

  lemma RemovedIsDistinct(pool: seq<AccessoryButton>, i: nat, next: nat)
    requires Numbered(pool, next) && i < |pool|
    ensures Numbered(RemoveAt(pool, i), next)
    ensures forall b :: b in RemoveAt(pool, i) ==> b.button != pool[i].button
  {
    var p := RemoveAt(pool, i);
    forall b | b in p
      ensures b.button != pool[i].button
    {
      var a :| 0 <= a < |p| && p[a] == b;
      if a < i { assert b == pool[a]; } else { assert b == pool[a + 1]; }
    }
  }

  /** When the buttons already show the items, a rebuild would reuse every
      button in place and leave none over, so skipping it changes nothing. */
  lemma {:induction false} ReconcileOfShownItems(pool: seq<AccessoryButton>, next: nat)
    ensures Reconcile(pool, ItemsOf(pool), next) == Reconciliation(pool, [], next)
    decreases |pool|
  {
    if pool != [] {
      var items := ItemsOf(pool);
      var p := Place(pool, items[0], next);
      assert p == Placement(pool[0], pool[1..], next) by {
        assert items[0] == pool[0].item;
        assert RemoveAt(pool, 0) == pool[1..];
      }
      var rest := Reconcile(p.remaining, items[1..], p.nextButton);
      assert rest == Reconciliation(pool[1..], [], next) by {
        assert items[1..] == ItemsOf(pool[1..]);
        ReconcileOfShownItems(pool[1..], next);
      }
      assert Reconcile(pool, items, next) == Reconciliation([p.button] + rest.buttons, rest.leftovers, rest.nextButton);
      assert [pool[0]] + pool[1..] == pool;
    }
  }

  /** A button is made only for an item that no remaining old button shows:
      an old button is never left over while a new one is made for its item. */
  lemma {:induction false} CreatedOnlyWithoutMatch(pool: seq<AccessoryButton>, items: seq<AccessoryItem>, next: nat)
    ensures var r := Reconcile(pool, items, next);
      forall k, b :: 0 <= k < |items| && r.buttons[k] !in pool && b in r.leftovers ==> b.item != items[k]
    decreases |items|
  {
    if items != [] {
      var r := Reconcile(pool, items, next);
      match FindItem(pool, items[0])
      case Some(i) =>
        var p := RemoveAt(pool, i);
        CreatedOnlyWithoutMatch(p, items[1..], next);
        var rest := Reconcile(p, items[1..], next);
        forall k, b | 0 <= k < |items| && r.buttons[k] !in pool && b in r.leftovers
          ensures b.item != items[k]
        {
          assert k > 0 && r.buttons[k] == rest.buttons[k - 1];
          assert r.buttons[k] !in p;
          ReconcileLeftoversAreOld(p, items[1..], next);
          assert b in multiset(p);
        }
      case None =>
        CreatedOnlyWithoutMatch(pool, items[1..], next + 1);
        var rest := Reconcile(pool, items[1..], next + 1);
        forall k, b | 0 <= k < |items| && r.buttons[k] !in pool && b in r.leftovers
          ensures b.item != items[k]
        {
          if k == 0 {
            ReconcileLeftoversAreOld(pool, items[1..], next + 1);
            assert b in multiset(pool);
          } else {
            assert r.buttons[k] == rest.buttons[k - 1];
          }
        }
    }
  }

  // ---- Visibility of send, microphone and clear (updateTextNodeText) -----

  /** Which of the buttons over the text field are shown, and whether the
      placeholder is hidden. */
  datatype Controls = Controls(send: bool, mic: bool, clear: bool, placeholderHidden: bool)

  /** A soft-stopped, unlocked video being edited hides the microphone. */
  predicate EditingUnlockedVideo(recording: Option<MediaRecordingState>)
  {
    recording == Some(VideoRecording(Editing, false))
  }

  /** A video being edited, whether locked or not. */
  predicate EditingVideo(recording: Option<MediaRecordingState>)
  {
    recording.Some? && recording.value.VideoRecording? && recording.value.status == Editing
  }

  /** The visibility `updateTextNodeText` settles on. */
  function TextControls(hasText: bool, recording: Option<MediaRecordingState>, keepSendButtonEnabled: bool,
                        extendedSearchLayout: bool): (r: Controls)
    ensures r.send <==> !extendedSearchLayout && (hasText || keepSendButtonEnabled)
    ensures r.clear <==> extendedSearchLayout
    ensures r.mic <==> !extendedSearchLayout && !hasText && !keepSendButtonEnabled && !EditingUnlockedVideo(recording)
    ensures !(r.send && r.mic)
    ensures r.placeholderHidden <==> hasText
  {
    var hideMic := hasText || EditingUnlockedVideo(recording);
    if extendedSearchLayout then Controls(false, false, true, hasText)
    else if hasText || keepSendButtonEnabled then Controls(true, false, false, hasText)
    else Controls(false, !hideMic, false, hasText)
  }

  /** The microphone rule of `updateLayout`, as written: text, the search
      layout and any video being edited hide it, but an enabled send button
      does not. */
  function LayoutHidesMicAsWritten(hasText: bool, recording: Option<MediaRecordingState>, extendedSearchLayout: bool): (hidden: bool)
    // any video being edited hides it here, locked or not
    ensures hidden <==> hasText || extendedSearchLayout || EditingVideo(recording)
    ensures EditingUnlockedVideo(recording) ==> hidden
    // a microphone the layout shows is one the text update shows too when no send is kept enabled
    ensures !hidden ==> TextControls(hasText, recording, false, extendedSearchLayout).mic
  {
    || hasText
    || extendedSearchLayout
    || EditingVideo(recording)
  }

  /** As written, a layout pass can show the microphone beside a send button
      kept enabled for an empty text. */
  lemma LayoutShowsMicBesideSend()
    ensures var shown := TextControls(false, None, true, false);
      shown.send && !LayoutHidesMicAsWritten(false, None, false)
  {
  }

  /** The corrected rule: a layout pass also keeps the microphone hidden
      while the send button is shown. */
  function LayoutMic(hasText: bool, recording: Option<MediaRecordingState>, extendedSearchLayout: bool, sendShown: bool): (mic: bool)
    ensures mic ==> !sendShown && !hasText && !extendedSearchLayout
    ensures !mic <==> LayoutHidesMicAsWritten(hasText, recording, extendedSearchLayout) || sendShown
  {
    !(LayoutHidesMicAsWritten(hasText, recording, extendedSearchLayout) || sendShown)
  }

  // ---- Press mappings ---------------------------------------------------

  /** What a press on an accessory button asks the controller for. */
  datatype PressAction =
    | UpdateModeAndDismissed(choice: AccessoryItem)
    | SetupMessageAutoremoveTimeout

  function ActionFor(item: AccessoryItem): PressAction
  {
    if item.MessageAutoremoveTimeoutItem? then SetupMessageAutoremoveTimeout else UpdateModeAndDismissed(item)
  }

  /** `keyboardButtonsMessage?.id`. */
  function KeyboardMessageId(st: PresentationState): Option<MessageId>
  {
    if st.keyboardButtonsMessage.Some? then Some(st.keyboardButtonsMessage.value.id) else None
  }

  /** The (input mode, dismissed keyboard id) choice of a mode-changing
      accessory button: stickers keep the dismissed id, the keyboard button
      dismisses the current keyboard, the bot-buttons button dismisses none. */
  function PressChoice(item: AccessoryItem): PresentationState -> (ChatInputMode, Option<MessageId>)
  {
    (st: PresentationState) =>
      match item
      case StickersItem => (Media, st.interfaceState.messageActionsState.closedButtonKeyboardMessageId)
      case KeyboardItem => (Text, KeyboardMessageId(st))
      case InputButtonsItem => (InputButtons, None)
      case MessageAutoremoveTimeoutItem(_) => (st.inputMode, st.interfaceState.messageActionsState.closedButtonKeyboardMessageId)
  }

  /** Starting to edit the text: text mode, and the current keyboard dismissed. */
  function BeginEditingChoice(st: PresentationState): (ChatInputMode, Option<MessageId>)
  {
    (Text, KeyboardMessageId(st))
  }

  /** What the controller commits after a press on a mode-changing button. */
  lemma AccessoryPressCommitted(cfg: ChatController.Config, s: ChatController.Session, item: AccessoryItem)
    requires ActionFor(item).UpdateModeAndDismissed?
    ensures var st := s.presentationInterfaceState;
      var r := ChatController.UpdateSpec(cfg, s, ChatController.ModeAndDismissedApplied(PressChoice(item))).presentationInterfaceState;
      var closed := r.interfaceState.messageActionsState.closedButtonKeyboardMessageId;
      && (item == StickersItem ==> r.inputMode == Media && closed == st.interfaceState.messageActionsState.closedButtonKeyboardMessageId)
      && (item == KeyboardItem ==> r.inputMode == Text && closed == KeyboardMessageId(st))
      && (item == InputButtonsItem ==> r.inputMode == InputButtons && closed.None?)
  {
    ChatController.ModeAndDismissedCommitted(cfg, s, PressChoice(item));
  }

  /** After editing begins the committed state is in text mode with the
      current keyboard dismissed, the same as a press on the keyboard button. */
  lemma BeginEditingCommitted(cfg: ChatController.Config, s: ChatController.Session)
    ensures var r := ChatController.UpdateSpec(cfg, s, ChatController.ModeAndDismissedApplied(BeginEditingChoice)).presentationInterfaceState;
      && r.inputMode == Text
      && r.interfaceState.messageActionsState.closedButtonKeyboardMessageId == KeyboardMessageId(s.presentationInterfaceState)
  {
    ChatController.ModeAndDismissedCommitted(cfg, s, BeginEditingChoice);
  }

  /** The microphone records video exactly in video mode. */
  function RecordingIsVideo(mode: RecordingMode): (isVideo: bool)
    ensures isVideo <==> mode == Video
  {
    match mode
    case Audio => false
    case Video => true
  }

  /** Switching the recording mode switches what the microphone records. */
  lemma SwitchedModeSwitchesIsVideo(mode: RecordingMode)
    ensures RecordingIsVideo(ChatRecording.ToggledMode(mode)) == !RecordingIsVideo(mode)
  {
  }

  /** A selection change reaches the controller only when the user moved it,
      not while the panel is writing the text itself. */
  function ShouldPropagateSelection(dueToEditing: bool, updatingInputState: bool): (r: bool)
  {
    !dueToEditing && !updatingInputState
  }

  /** What `textInputStateContextQueryRangeAndType` reports: whether the
      query is exactly a context request, and the range of its query text. */
  datatype ContextQueryMatch = ContextQueryMatch(contextRequestOnly: bool, queryRange: Option<(nat, nat)>)

  /** The search-layout clear button: a context request loses its query text,
      or the whole text when there is no query range or it is empty; any
      other input is kept. */
  function SearchClearedText(text: string, query: Option<ContextQueryMatch>): (r: string)
    requires query.Some? && query.value.queryRange.Some? ==>
      query.value.queryRange.value.0 <= query.value.queryRange.value.1 <= |text|
    ensures query.None? || !query.value.contextRequestOnly ==> r == text
    ensures query.Some? && query.value.contextRequestOnly ==>
      var range := query.value.queryRange;
      if range.Some? && range.value.0 < range.value.1 then
        && |r| == |text| - (range.value.1 - range.value.0)
        && r[..range.value.0] == text[..range.value.0]
        && r[range.value.0..] == text[range.value.1..]
      else r == ""
  {
    if query.Some? && query.value.contextRequestOnly then
      var range := query.value.queryRange;
      if range.Some? && range.value.0 < range.value.1 then text[..range.value.0] + text[range.value.1..]
      else ""
    else text
  }

  /** What the accessory part of a layout pass leaves behind: the buttons
      unchanged when they already show the items; otherwise the rebuilt
      buttons, with the leftovers queued for an animated removal (no queue
      when there are none) or taken off screen at once. */
  ghost predicate AccessoriesRefreshed(items: seq<AccessoryItem>, animated: bool,
                                       buttons0: seq<AccessoryButton>, next0: nat, detached0: seq<nat>,
                                       buttons: seq<AccessoryButton>, next: nat, detached: seq<nat>,
                                       removeAccessoryButtons: Option<seq<nat>>)
  {
    var r := Reconcile(buttons0, items, next0);
    if ItemsOf(buttons0) == items then
      buttons == buttons0 && next == next0 && detached == detached0 && removeAccessoryButtons.None?
    else
      && buttons == r.buttons && next == r.nextButton
      && (animated ==>
            detached == detached0 && removeAccessoryButtons == if r.leftovers == [] then None else Some(ButtonsOf(r.leftovers)))
      && (!animated ==> detached == detached0 + ButtonsOf(r.leftovers) && removeAccessoryButtons.None?)
  }

  // ---- The panel ----------------------------------------------------------

  class InputPanel {
    var presentationInterfaceState: Option<PresentationState>
    var accessoryItemButtons: seq<AccessoryButton>
    var nextButton: nat
    /** Old buttons already taken off screen. */
    var detachedButtons: seq<nat>
    var textInputNodeLoaded: bool
    var text: string
    var updatingInputState: bool
    var keepSendButtonEnabled: bool
    var extendedSearchLayout: bool
    var sendShown: bool
    var micShown: bool
    var clearShown: bool
    var placeholderHidden: bool

    ghost predicate Valid()
      reads this
    {
      && Numbered(accessoryItemButtons, nextButton)
      && !updatingInputState
      && !(sendShown && micShown)
    }

    function HasText(): bool
      reads this
    {
      textInputNodeLoaded && |text| != 0
    }

    function RecordingState(): Option<MediaRecordingState>
      reads this
    {
      if presentationInterfaceState.Some? then presentationInterfaceState.value.inputTextPanelState.mediaRecordingState else None
    }

    function CurrentControls(): Controls
      reads this
    {
      Controls(sendShown, micShown, clearShown, placeholderHidden)
    }

    constructor()
      ensures Valid()
      ensures presentationInterfaceState.None? && accessoryItemButtons == [] && detachedButtons == []
      ensures !textInputNodeLoaded && !keepSendButtonEnabled && !extendedSearchLayout
      ensures CurrentControls() == Controls(false, true, false, false)
    {
      presentationInterfaceState := None;
      accessoryItemButtons := [];
      nextButton := 0;
      detachedButtons := [];
      textInputNodeLoaded := false;
      text := "";
      updatingInputState := false;
      keepSendButtonEnabled := false;
      extendedSearchLayout := false;
      sendShown := false;
      micShown := true;
      clearShown := false;
      placeholderHidden := false;
    }

    /** updateTextNodeText. */
    method UpdateTextNodeText()
      modifies this`sendShown, this`micShown, this`clearShown, this`placeholderHidden
      ensures CurrentControls() == TextControls(HasText(), RecordingState(), keepSendButtonEnabled, extendedSearchLayout)
    {
      var hasText := textInputNodeLoaded && |text| != 0;
      var hideMicButton := hasText;
      placeholderHidden := hasText;
      if presentationInterfaceState.Some? {
        if EditingUnlockedVideo(presentationInterfaceState.value.inputTextPanelState.mediaRecordingState) {
          hideMicButton := true;
        }
      }
      if extendedSearchLayout {
        hideMicButton := true;
        sendShown := false;
        clearShown := true;
      } else {
        clearShown := false;
        if hasText || keepSendButtonEnabled {
          hideMicButton := true;
          sendShown := true;
        } else {
          sendShown := false;
        }
      }
      micShown := !hideMicButton;
    }

    /** updateInputTextState: the text is written only once a text field
      exists (a non-empty text creates it); the send-button flags are stored
      only then too. */
    method UpdateInputTextState(newText: string, keepSend: bool, extended: bool)
      requires Valid()
      modifies this
      ensures Valid()
      ensures textInputNodeLoaded == (old(textInputNodeLoaded) || newText != "")
      ensures textInputNodeLoaded ==>
        text == newText && keepSendButtonEnabled == keepSend && extendedSearchLayout == extended
        && CurrentControls() == TextControls(|newText| != 0, RecordingState(), keepSend, extended)
      ensures !textInputNodeLoaded ==>
        CurrentControls() == old(CurrentControls())
        && keepSendButtonEnabled == old(keepSendButtonEnabled) && extendedSearchLayout == old(extendedSearchLayout)
      ensures accessoryItemButtons == old(accessoryItemButtons) && presentationInterfaceState == old(presentationInterfaceState)
    {
      if newText != "" && !textInputNodeLoaded {
        textInputNodeLoaded := true;
        text := "";
      }
      if textInputNodeLoaded {
        updatingInputState := true;
        text := newText;
        updatingInputState := false;
        keepSendButtonEnabled := keepSend;
        extendedSearchLayout := extended;
        UpdateTextNodeText();
      }
    }

    /** updateKeepSendButtonEnabled: only a change of either flag re-evaluates. */
    method UpdateKeepSendButtonEnabled(keepSend: bool, extended: bool)
      requires Valid()
      modifies this
      ensures Valid()
      ensures keepSendButtonEnabled == keepSend && extendedSearchLayout == extended
      ensures keepSend == old(keepSendButtonEnabled) && extended == old(extendedSearchLayout) ==>
        CurrentControls() == old(CurrentControls())
      ensures keepSend != old(keepSendButtonEnabled) || extended != old(extendedSearchLayout) ==>
        CurrentControls() == TextControls(HasText(), RecordingState(), keepSend, extended)
      ensures text == old(text) && accessoryItemButtons == old(accessoryItemButtons)
    {
      if keepSend != keepSendButtonEnabled || extended != extendedSearchLayout {
        keepSendButtonEnabled := keepSend;
        extendedSearchLayout := extended;
        UpdateTextNodeText();
      }
    }

    /** editableTextNodeDidChangeSelection's guard. */
    method SelectionChanged(dueToEditing: bool) returns (propagate: bool)
      ensures propagate == ShouldPropagateSelection(dueToEditing, updatingInputState)
    {
      propagate := !dueToEditing && !updatingInputState;
    }

    /** The part of updateLayout this model keeps: store the state, rebuild
      the accessory buttons when their items changed (old buttons nobody
      reuses are queued for an animated removal, or taken off screen at
      once), and place the microphone. */
    method UpdateLayout(interfaceState: PresentationState, animated: bool) returns (removeAccessoryButtons: Option<seq<nat>>)
      requires Valid()
      modifies this
      ensures Valid()
      ensures presentationInterfaceState == Some(interfaceState)
      ensures ItemsOf(accessoryItemButtons) == interfaceState.inputTextPanelState.accessoryItems
      ensures AccessoriesRefreshed(interfaceState.inputTextPanelState.accessoryItems, animated, old(accessoryItemButtons), old(nextButton),
                                   old(detachedButtons), accessoryItemButtons, nextButton, detachedButtons, removeAccessoryButtons)
      ensures micShown == LayoutMic(HasText(), RecordingState(), extendedSearchLayout, sendShown)
      ensures sendShown == old(sendShown) && clearShown == old(clearShown)
      ensures text == old(text) && textInputNodeLoaded == old(textInputNodeLoaded)
    {
      presentationInterfaceState := Some(interfaceState);
      removeAccessoryButtons := RefreshAccessoryButtons(interfaceState.inputTextPanelState.accessoryItems, animated);
      var hideMicButton := LayoutHidesMicAsWritten(textInputNodeLoaded && |text| != 0, RecordingState(), extendedSearchLayout);
      micShown := !(hideMicButton || sendShown);
    }

    /** The accessory part of updateLayout: rebuild the buttons when their
      items changed; old buttons nobody reuses are queued for an animated
      removal, or taken off screen at once. */
    method RefreshAccessoryButtons(items: seq<AccessoryItem>, animated: bool) returns (removeAccessoryButtons: Option<seq<nat>>)
      requires Numbered(accessoryItemButtons, nextButton)
      modifies this`accessoryItemButtons, this`nextButton, this`detachedButtons
      ensures Numbered(accessoryItemButtons, nextButton)
      ensures ItemsOf(accessoryItemButtons) == items
      ensures AccessoriesRefreshed(items, animated, old(accessoryItemButtons), old(nextButton), old(detachedButtons),
                                   accessoryItemButtons, nextButton, detachedButtons, removeAccessoryButtons)
    {
      var updateAccessoryButtons := NeedsAccessoryUpdate(items, accessoryItemButtons);
      removeAccessoryButtons := None;
      if updateAccessoryButtons {
        var leftovers := RebuildAccessoryButtons(items);
        removeAccessoryButtons := RemoveLeftovers(leftovers, animated);
      }
    }

    /** The rebuild; answers the old buttons nobody took. */
    method RebuildAccessoryButtons(items: seq<AccessoryItem>) returns (leftovers: seq<AccessoryButton>)
      requires Numbered(accessoryItemButtons, nextButton)
      modifies this`accessoryItemButtons, this`nextButton
      ensures var r := Reconcile(old(accessoryItemButtons), items, old(nextButton));
        accessoryItemButtons == r.buttons && leftovers == r.leftovers && nextButton == r.nextButton
      ensures Numbered(accessoryItemButtons, nextButton) && Apart(accessoryItemButtons, leftovers)
      ensures ItemsOf(accessoryItemButtons) == items
    {
      ghost var pool0, next0 := accessoryItemButtons, nextButton;
      var updatedButtons := PlaceButtons(items);
      leftovers := accessoryItemButtons;
      accessoryItemButtons := updatedButtons;
      ReconcileKeepsNumbering(pool0, items, next0);
      ReconciledShowsItems(pool0, items, next0);
    }

    /** The nested loops of the rebuild: each item's button is placed in
      turn; the old list keeps the buttons nobody took. */
    method PlaceButtons(items: seq<AccessoryItem>) returns (updatedButtons: seq<AccessoryButton>)
      modifies this`accessoryItemButtons, this`nextButton
      ensures Reconcile(old(accessoryItemButtons), items, old(nextButton))
        == Reconciliation(updatedButtons, accessoryItemButtons, nextButton)
    {
      ghost var pool0, next0 := accessoryItemButtons, nextButton;
      updatedButtons := [];
      for k := 0 to |items|
        invariant var rest := Reconcile(accessoryItemButtons, items[k..], nextButton);
          Reconcile(pool0, items, next0) == Reconciliation(updatedButtons + rest.buttons, rest.leftovers, rest.nextButton)
      {
        ghost var pool, next := accessoryItemButtons, nextButton;
        var button := PlaceButton(items[k]);
        ReconcileAdvance(pool0, items, next0, updatedButtons, pool, next, k, button, accessoryItemButtons, nextButton);
        updatedButtons := updatedButtons + [button];
      }
      assert items[|items|..] == [];
      assert updatedButtons + [] == updatedButtons;
    }

    /** The body of the rebuild loop: reuse the first old button showing
      `item`, or make a new one. */
    method PlaceButton(item: AccessoryItem) returns (button: AccessoryButton)
      modifies this`accessoryItemButtons, this`nextButton
      ensures Place(old(accessoryItemButtons), item, old(nextButton)) == Placement(button, accessoryItemButtons, nextButton)
    {
      var found := TakeMatchingButton(item);
      if found.Some? {
        button := found.value;
      } else {
        button := AccessoryButton(item, nextButton);
        nextButton := nextButton + 1;
      }
    }

    /** The inner loop: the first old button showing `item` is removed from
      the old list and answered. */
    method TakeMatchingButton(item: AccessoryItem) returns (found: Option<AccessoryButton>)
      modifies this`accessoryItemButtons
      ensures match FindItem(old(accessoryItemButtons), item)
        case None => found.None? && accessoryItemButtons == old(accessoryItemButtons)
        case Some(i) => found == Some(old(accessoryItemButtons)[i]) && accessoryItemButtons == RemoveAt(old(accessoryItemButtons), i)
    {
      found := None;
      var i := 0;
      while i < |accessoryItemButtons|
        invariant 0 <= i <= |accessoryItemButtons|
        invariant accessoryItemButtons == old(accessoryItemButtons)
        invariant forall j :: 0 <= j < i ==> accessoryItemButtons[j].item != item
      {
        if accessoryItemButtons[i].item == item {
          found := Some(accessoryItemButtons[i]);
          assert FindItem(accessoryItemButtons, item) == Some(i);
          accessoryItemButtons := RemoveAt(accessoryItemButtons, i);
          return;
        }
        i := i + 1;
      }
    }

    /** Leftover buttons: queued for an animated removal, or taken off screen now. */
    method RemoveLeftovers(leftovers: seq<AccessoryButton>, animated: bool) returns (removeAccessoryButtons: Option<seq<nat>>)
      modifies this`detachedButtons
      ensures animated ==>
        detachedButtons == old(detachedButtons)
        && removeAccessoryButtons == if leftovers == [] then None else Some(ButtonsOf(leftovers))
      ensures !animated ==> detachedButtons == old(detachedButtons) + ButtonsOf(leftovers) && removeAccessoryButtons.None?
    {
      removeAccessoryButtons := None;
      for k := 0 to |leftovers|
        invariant animated ==>
          detachedButtons == old(detachedButtons)
          && removeAccessoryButtons == if k == 0 then None else Some(ButtonsOf(leftovers[..k]))
        invariant !animated ==> detachedButtons == old(detachedButtons) + ButtonsOf(leftovers[..k]) && removeAccessoryButtons.None?
      {
        assert ButtonsOf(leftovers[..k + 1]) == ButtonsOf(leftovers[..k]) + [leftovers[k].button];
        if animated {
          if removeAccessoryButtons.None? {
            removeAccessoryButtons := Some([]);
          }
          removeAccessoryButtons := Some(removeAccessoryButtons.value + [leftovers[k].button]);
        } else {
          detachedButtons := detachedButtons + [leftovers[k].button];
        }
      }
      assert leftovers[..|leftovers|] == leftovers;
    }

    /** accessoryItemButtonPressed: the first entry holding the pressed button
      decides the action; a button not in the list does nothing. */
    method AccessoryItemButtonPressed(button: nat) returns (action: Option<PressAction>)
      ensures action == PressedAction(accessoryItemButtons, button)
    {
      action := None;
      for i := 0 to |accessoryItemButtons|
        invariant forall j :: 0 <= j < i ==> accessoryItemButtons[j].button != button
      {
        if accessoryItemButtons[i].button == button {
          action := Some(ActionFor(accessoryItemButtons[i].item));
          PressedActionAt(accessoryItemButtons, button, i);
          return;
        }
      }
      PressedActionAbsent(accessoryItemButtons, button);
    }

    /** micButton.beginRecording: with a presentation state, records video
      exactly in video mode. */
    method BeginRecording() returns (isVideo: Option<bool>)
      ensures presentationInterfaceState.None? <==> isVideo.None?
      ensures isVideo.Some? ==> isVideo.value == (presentationInterfaceState.value.interfaceState.mediaRecordingMode == Video)
    {
      if presentationInterfaceState.Some? {
        isVideo := Some(RecordingIsVideo(presentationInterfaceState.value.interfaceState.mediaRecordingMode));
      } else {
        isVideo := None;
      }
    }
  }

  /** The action of the first entry that holds `button`. */
  function PressedAction(buttons: seq<AccessoryButton>, button: nat): (r: Option<PressAction>)
    ensures r.None? <==> forall i :: 0 <= i < |buttons| ==> buttons[i].button != button
  {
    if buttons == [] then None
    else if buttons[0].button == button then Some(ActionFor(buttons[0].item))
    else
      assert forall i :: 0 < i < |buttons| ==> buttons[1..][i - 1] == buttons[i];
      PressedAction(buttons[1..], button)
  }

  lemma {:induction false} PressedActionAt(buttons: seq<AccessoryButton>, button: nat, i: nat)
    requires i < |buttons| && buttons[i].button == button
    requires forall j :: 0 <= j < i ==> buttons[j].button != button
    ensures PressedAction(buttons, button) == Some(ActionFor(buttons[i].item))
    decreases i
  {
    if i > 0 {
      PressedActionAt(buttons[1..], button, i - 1);
    }
  }

  lemma PressedActionAbsent(buttons: seq<AccessoryButton>, button: nat)
    requires forall j :: 0 <= j < |buttons| ==> buttons[j].button != button
    ensures PressedAction(buttons, button).None?
  {
  }
}
