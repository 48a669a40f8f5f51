# Telegram-iOS chat and settings controllers, modelled in Dafny

This project models the state logic behind five screens of the Telegram iOS
client:

- **The chat screen** (`ChatController`). Its presentation state is
  reconciled and committed by `updateChatPresentationInterfaceState`:
  - the bot keyboard forces or clears the input-buttons mode and sets up
    a reply;
  - context-query and link-preview resolvers are restarted, and their
    results are folded in;
  - the selection is propagated.

  Around that sit:
  - the title-panel indicators (chat info, request in progress, toast,
    pinned message);
  - in-chat message search (sorted results, the carried current result,
    stepping);
  - the jump history (`historyNavigationStack`) and the down button;
  - the audio and video recorders (start, lock, stop, dismiss, send a
    voice message);
  - bot commands, the draft cleared after sending, and the unread badge.
- **The text input panel** (`ChatTextInputPanelNode`):
  - which of send, microphone and clear are shown;
  - how accessory buttons are reused, created and retired on a layout pass;
  - what a press on them asks for;
  - what the search-layout clear button leaves.
- **The privacy and security settings list**
  (`PrivacyAndSecurityController`):
  - its twelve rows, their ids and sections;
  - the selective-privacy summaries;
  - the account-removal timeout choice while it is being applied.
- **The notification sound picker** (`NotificationSoundSelection`):
  - the list of cloud, modern and classic tones with their sort ids and
    check marks;
  - the file name a sound plays from;
  - the upload limits;
  - selection, completion and cancel.
- **The contact multiselection screen**
  (`ContactMultiselectionController`):
  - toggling a peer under the group's member limit;
  - the token list;
  - the counter title and the Next/Done button;
  - the result handed back.

## How the source becomes Dafny

The controllers are objects whose fields change step by step, so each one
becomes a `class`:
- `ChatController.ChatSession`;
- `ChatTextInputPanel.InputPanel`;
- `ContactMultiselection.ContactMultiselectionController`;
- `NotificationSoundSelection.SoundPicker`.

The pure value transformations they apply are functions with named
results: the reducer steps, the title-panel list edits, the search
helpers, and the list builders.

Every method of `ChatSession` is proved against a specification function
on a `Session` value that holds all of the controller's fields. Each
function, such as `UpdateSpec` or `SearchRestarted`, carries its own
properties.

Signals and callbacks are modelled in these ways:
- A running signal is a numbered handle. Replacing a signal adds the old
  handle to `disposed`.
- A late result carries its handle, and is applied only while that handle
  is still current.
- A result that arrives while the update that started it is still running
  ("in scope") is a `Delivery.Immediate` value. A result that arrives later
  is `Delivery.Later`.
- The resolver helpers `inputTextPanelStateForChatPresentationInterfaceState`,
  `contextQueryResultStateForChatInterfacePresentationState` and
  `urlPreviewStateForChatInterfacePresentationState` are functions passed
  in through `ChatReducer.Env`. Their bodies are not part of this model.

Strings:
- Localized strings become label constructors.
- Numbers printed with `"\(n)"` become `Common.Decimal`, which has a parse
  round trip.

## Model

| member | source | states |
|---|---|---|
| Common.Decimal | TelegramUI/ContactMultiselectionController.swift:179 | `"\(n)"`: never empty, and starts with `-` exactly for negative numbers |
| Common.DecimalRoundTrip | TelegramUI/ContactMultiselectionController.swift:179 | parsing the printed number gives the number back |
| Common.DecimalInjective | TelegramUI/PrivacyAndSecurityController.swift:255-262 | two numbers that print alike are equal |
| Sorting.SortBy | TelegramUI/ChatController.swift:1523 | `sorted()` returns a permutation of its input |
| Sorting.SortBySorted | TelegramUI/ChatController.swift:1523 | under a total preorder, the result of `sorted()` is ordered |
| Sorting.InsertSorted | TelegramUI/ChatController.swift:346 | inserting into an ordered list keeps it ordered |
| Sorting.UniqueByPermutation | TelegramUI/ChatController.swift:345-346 | a reordering of a list whose keys are distinct still has distinct keys |
| ChatState.WithLocked | TelegramUI/ChatController.swift:2293-2303 | `withLocked` sets only the lock flag and keeps the recording kind, recorder and video status |
| ChatReducer.SetupReply | TelegramUI/ChatController.swift:1969-1973 | a keyboard that requests a reply gets its message as the reply only when no reply is set and that keyboard was not dismissed; it never applies twice |
| ChatReducer.ReconcileKeyboard | TelegramUI/ChatController.swift:1945-1973 | a newly shown keyboard forces `.inputButtons` exactly when nothing is edited and the draft is empty; a vanished keyboard turns `.inputButtons` back into `.text`; in a channel or group a newly shown keyboard, and anywhere a keyboard asking for a reply, makes its message the reply when none is set and it was not dismissed; otherwise the interface state is the candidate's; nothing else changes |
| ChatReducer.ReconcileKeyboardIdempotent | TelegramUI/ChatController.swift:1945-1973 | reconciling the reconciled state again changes nothing |
| ChatReducer.Derived | TelegramUI/ChatController.swift:1975-1976 | the input panel state is derived from the reconciled state |
| ChatReducer.FoldQueryResult | TelegramUI/ChatController.swift:1980-2001 | an in-scope context result is applied to the previous result; a later one leaves the state unchanged |
| ChatReducer.ApplyPreview | TelegramUI/ChatController.swift:2015-2019 | a preview is shown exactly when there is a URL and the resolver yields a page; it pairs that URL with that page |
| ChatReducer.FoldPreview | TelegramUI/ChatController.swift:2024-2031 | an in-scope preview result is applied at once; a later one leaves the state unchanged |
| ChatReducer.AfterContextQuery | TelegramUI/ChatController.swift:1978-2001 | only an in-scope context result changes the state, and only its query result, which it applies to the previous one |
| ChatReducer.AfterUrlPreview | TelegramUI/ChatController.swift:2003-2031 | only an in-scope preview changes the state, which then shows that URL with the page the result yields, or no preview |
| ChatReducer.Committed | TelegramUI/ChatController.swift:1942-2034 | the committed state has the reconciled mode and interface state and the derived panel state; its query result is the candidate's with an in-scope context result applied, and its link preview is the candidate's with an in-scope preview applied; without an in-scope result each stays the candidate's; every other field (keyboard message, start payload, pinned message, blocked and report flags, title panels, search) is the candidate's |
| ChatRules.MessageBotCommand | TelegramUI/ChatController.swift:408-427 | the command is sent as text without media; it replies to the message exactly when the command has no `@`, the chat is a channel or group, and a message id is known |
| ChatRules.BotCommandText | TelegramUI/ChatController.swift:1611-1616 | for a user the text is the command; otherwise it is the command followed by `@` and the bot's address name |
| ChatRules.InterfaceBotCommand | TelegramUI/ChatController.swift:1609-1630 | a message is sent exactly when the peer and the address name are known; it replies to the current reply |
| ChatRules.SuffixedCommandIsNotReply | TelegramUI/ChatController.swift:411-414 | a command that carries the `@address` suffix is never posted as a reply |
| ChatRules.ClearedAfterSend | TelegramUI/ChatController.swift:418 | after a send, the reply, the draft text and the link-preview override are cleared; the edit and the action state are kept |
| ChatRules.UnreadBadge | TelegramUI/ChatController.swift:1811-1820 | the badge shows the total unread count, less this chat's unless the chat is excluded from the total, and is empty when that is not positive |
| ChatRules.ClampEntityRange | TelegramUI/ChatController.swift:449-453 | the clamped range lies inside the text; a range already inside is unchanged; an overhanging one is moved back and cut at the end |
| ChatSearch.SortedResultIds | TelegramUI/ChatController.swift:1523 | the result ids, as a sorted permutation |
| ChatSearch.FirstAtLeast | TelegramUI/ChatController.swift:1525-1530 | the first position whose id is at least the previous current id, or none exactly when there is no such id |
| ChatSearch.CarriedCurrentId | TelegramUI/ChatController.swift:1523-1530 | the current result is one of the results, absent exactly when there are none; with no previous result, or none at or above it, it is the last; otherwise it is the first id not below the previous one |
| ChatSearch.CarryForward | TelegramUI/ChatController.swift:1523-1530 | the loop computes the carried current id |
| ChatSearch.CarriedIsLeastAtLeast | TelegramUI/ChatController.swift:1523-1530 | over sorted results, the carried id is no greater than any result at or above the previous id |
| ChatSearch.CarriedKeepsPresentId | TelegramUI/ChatController.swift:1523-1530 | a previous current id that is still among the results is kept |
| ChatSearch.IndexOf | TelegramUI/ChatController.swift:1556 | the first index of the current id, or none exactly when it is absent |
| ChatSearch.Navigate | TelegramUI/ChatController.swift:1551-1579 | stepping keeps the results, moves one position earlier or later when that position exists, and otherwise does nothing |
| ChatSearch.NavigateEarlierThenLater | TelegramUI/ChatController.swift:1551-1579 | over distinct ids, an earlier step followed by a later step returns to the start |
| ChatSearch.BeginSearch | TelegramUI/ChatController.swift:1460-1480 | an open search is kept; otherwise an empty one opens; the chat-info context is dropped |
| ChatSearch.WithQuery | TelegramUI/ChatController.swift:1490-1497 | the query is stored, and reported as a change, exactly when a search is open with a different query |
| ChatSearch.WithResults | TelegramUI/ChatController.swift:1502-1508 | an open search keeps its query and takes the new results; a closed one stays closed |
| ChatNavigation.Add | TelegramUI/ChatController.swift:2318-2320 | a position is pushed on top of the jump history unless it is already the top |
| ChatNavigation.AddKeepsNoConsecutiveRepeats | TelegramUI/ChatController.swift:2318-2320 | pushing never puts two equal positions next to each other |
| ChatNavigation.RemoveLast | TelegramUI/ChatController.swift:1295 | the top position is popped, or nothing when the history is empty |
| ChatNavigation.RemoveLastUndoesAdd | TelegramUI/ChatController.swift:1293-1301 | popping right after a push that was not a repeat returns the pushed position and the old history |
| ChatNavigation.FilterOutIndicesLessThan | TelegramUI/ChatController.swift:1138-1142 | what is left has no position below the index, keeps every one at or above it, and adds nothing |
| ChatNavigation.FilterCounts | TelegramUI/ChatController.swift:1138-1142 | a position at or above the index is kept exactly as often as it occurred; one below it is gone |
| ChatNavigation.FilterStep | TelegramUI/ChatController.swift:1138-1142 | the newest position is kept after the pruned older ones exactly when it is not below the index |
| ChatNavigation.FilterAppend | TelegramUI/ChatController.swift:1138-1142 | pruning a history prunes its older and newer parts apart and keeps them in order |
| ChatNavigation.FilterIdempotent | TelegramUI/ChatController.swift:1138-1142 | filtering twice is filtering once |
| ChatNavigation.FirstIndexWithId | TelegramUI/ChatController.swift:2333-2341 | the first message entry with the id, or none exactly when no message entry has it |
| ChatNavigation.FindMessageIndex | TelegramUI/ChatController.swift:2333-2341 | the loop over the history window finds that entry |
| ChatNavigation.MessageInView | TelegramUI/ChatController.swift:2309-2316 | a message found in view has the asked id |
| ChatRecording.OnAudioRecorder | TelegramUI/ChatController.swift:778-789 | a recorder starts an audio recording when none is shown and otherwise keeps the shown one; no recorder ends it; accessories are kept |
| ChatRecording.OnVideoRecorder | TelegramUI/ChatController.swift:804-815 | the same for a video recording |
| ChatRecording.RecorderDeliveryIdempotent | TelegramUI/ChatController.swift:773-834 | delivering the same recorder twice is delivering it once |
| ChatRecording.StoppedVideoForEditing | TelegramUI/ChatController.swift:2281-2286 | a stopped video becomes an unlocked video in editing state |
| ChatRecording.Locked | TelegramUI/ChatController.swift:2293-2303 | a shown recording becomes locked; without one nothing changes |
| ChatRecording.LockedIdempotent | TelegramUI/ChatController.swift:2293-2303 | locking twice is locking once |
| ChatRecording.ToggledMode | TelegramUI/ChatController.swift:1656-1668 | switching the recording mode always changes it |
| ChatRecording.ToggledModeTwice | TelegramUI/ChatController.swift:1656-1668 | switching twice restores the mode |
| ChatRecording.VoiceMessage | TelegramUI/ChatController.swift:2238-2262 | a take yields a voice message exactly when it lasts at least half a second; it carries the size, the whole seconds and the waveform |
| ChatTitlePanel.FirstOfKind | TelegramUI/ChatController.swift:356-363 | `index(where:)`: the first context of a kind, or none exactly when there is none |
| ChatTitlePanel.RankOrderIsTotalPreorder | TelegramUI/ChatController.swift:346 | ordering contexts by rank is a total preorder |
| ChatTitlePanel.AppendSorted | TelegramUI/ChatController.swift:344-346 | append then `sorted()`: a sorted permutation with the context added |
| ChatTitlePanel.AddIfAbsent | TelegramUI/ChatController.swift:334-349 | a kind already shown is left alone; otherwise it is added in order; other kinds are unchanged; kinds stay unique |
| ChatTitlePanel.SortedKeepsUnique | TelegramUI/ChatController.swift:344-346 | sorting keeps the kinds unique |
| ChatTitlePanel.MultisetKinds | TelegramUI/ChatController.swift:344-346 | a reordered list shows the same kinds |
| ChatTitlePanel.RemoveKind | TelegramUI/ChatController.swift:356-370 | the first context of the kind is removed; the length drops by one exactly when it was shown; other contexts, the order and uniqueness are kept |
| ChatTitlePanel.RemoveAtShift | TelegramUI/ChatController.swift:366 | `remove(at:)` shifts the later elements down by one |
| ChatTitlePanel.RemoveAtKeepsOrder | TelegramUI/ChatController.swift:366 | `remove(at:)` keeps any order and unique kinds |
| ChatTitlePanel.RemoveAtMultiset | TelegramUI/ChatController.swift:366 | `remove(at:)` keeps every other context's count |
| ChatTitlePanel.RemoveAtKinds | TelegramUI/ChatController.swift:366 | `remove(at:)` keeps the other kinds, and removes the kind when kinds are unique |
| ChatTitlePanel.ToggleChatInfo | TelegramUI/ChatController.swift:665-687 | the chat-info context is shown exactly when it was hidden; the other kinds are unchanged |
| ChatTitlePanel.ToggleChatInfoTwice | TelegramUI/ChatController.swift:665-687 | pressing the title twice shows the same kinds as before |
| ChatTitlePanel.SetToast | TelegramUI/ChatController.swift:726-771 | a message is shown as the only toast, replacing an existing toast in place; no message removes the toast; the other kinds are unchanged |
| ChatTitlePanel.UpdatePinned | TelegramUI/ChatController.swift:1047-1078 | the pinned-message context is shown exactly when a pinned id exists; the other kinds are unchanged |
| ChatController.HandlesDecideValidity | TelegramUI/ChatController.swift:1979-2008 | whether the signal handles are valid depends only on the handle fields |
| ChatController.UpdateSpec | TelegramUI/ChatController.swift:1942-2066 | the committed state is the fold of the reconciled state; the selection is propagated, with a refresh only when it changed; handles only grow; a replaced resolver's handle is disposed; validity is kept |
| ChatController.PhasesKeepValid | TelegramUI/ChatController.swift:1978-2032 | the query and link-preview steps keep the handles valid |
| ChatController.QueryPhaseKeepsValid | TelegramUI/ChatController.swift:1978-2002 | the query step only adds handles, and disposes the one it replaces |
| ChatController.UrlPhaseKeepsValid | TelegramUI/ChatController.swift:2004-2032 | the same for the link-preview step |
| ChatController.RestartDisposesPrevious | TelegramUI/ChatController.swift:1978-1982 | a restarted query gets a fresh handle, and the previous one is disposed |
| ChatController.DeliverQueryResultSpec | TelegramUI/ChatController.swift:1987-1992 | a late result of a query that is no longer current changes nothing; the current one's result is applied to the shown result, with a query the update restarts in scope applied on top; validity is kept |
| ChatController.DeliverPreviewResultSpec | TelegramUI/ChatController.swift:2013-2020 | a late preview of a link that is no longer current changes nothing; the current one shows its URL with the page it yields, unless the update restarts the preview and it resolves in scope; validity is kept |
| ChatController.ReplacedQueryResultIgnored | TelegramUI/ChatController.swift:1978-1992 | once an update replaces the query, the old query's late result is ignored |
| ChatController.CachedDataSpec | TelegramUI/ChatController.swift:1014-1083 | an update runs exactly when the pinned id, the blocked flag, the report flag or the pinned message changed; it stores the new pinned id, blocked flag and report flag, and updates the pinned panel |
| ChatController.CachedDataRepeatIgnored | TelegramUI/ChatController.swift:1044-1046 | the same cached data again, with the pinned message unchanged, changes nothing |
| ChatController.CachedDataShowsPinnedPanel | TelegramUI/ChatController.swift:1044-1078 | after that update the pinned panel is shown exactly when a pinned id exists |
| ChatController.UpdateMessageSearchSpec | TelegramUI/ChatController.swift:1487-1550 | a changed query on an open search restarts the search; otherwise nothing changes |
| ChatController.SearchRestarted | TelegramUI/ChatController.swift:1498-1548 | an empty query clears the results and stops searching; any other query starts a search on a fresh handle; the old search is disposed |
| ChatController.SearchCleared | TelegramUI/ChatController.swift:1499-1508 | searching stops, the results are cleared, and the old search is disposed |
| ChatController.SearchCancelled | TelegramUI/ChatController.swift:1500-1501 | the running search is disposed and forgotten; the presentation is kept |
| ChatController.SearchStarted | TelegramUI/ChatController.swift:1510-1518 | searching is on, with a fresh handle for the query; the old search is disposed |
| ChatController.DeliverSearchResultsSpec | TelegramUI/ChatController.swift:1518-1542 | results of a stale search change nothing; current results replace the open search's results with the sorted ids and the carried current id, and the history then jumps to that id from the anchor without remembering |
| ChatController.SearchCompletedSpec | TelegramUI/ChatController.swift:1543-1547 | completion of the current search stops searching; a stale completion changes nothing |
| ChatController.StaleSearchResultsIgnored | TelegramUI/ChatController.swift:1487-1547 | after a restart, the previous search's results are ignored |
| ChatController.NavigateSearchSpec | TelegramUI/ChatController.swift:1551-1579 | a possible step moves the current result and then jumps to it from the anchor without remembering; otherwise the search stays |
| ChatController.OpenCalendarSearchSpec | TelegramUI/ChatController.swift:1584-1587 | a date lookup starts on a fresh handle, with one start effect and the loading flag on; the previous lookup is disposed; nothing else changes |
| ChatController.JumpFromNilIsFromAnchor | TelegramUI/ChatController.swift:2305-2353 | a jump from no message starts at the anchor, remembers nothing, and scrolls to the target in view or else looks it up |
| ChatController.DeliverTimestampLookupSpec | TelegramUI/ChatController.swift:1588-1594 | a stale answer changes nothing; the current one drops the loading flag and, for a found message, jumps to it from the anchor without remembering |
| ChatController.CalendarLookupAnswered | TelegramUI/ChatController.swift:1584-1594 | the date lookup answered with nothing leaves only the loading flag off; a replaced lookup's late answer changes nothing |
| ChatController.NavigateToMessageSpec | TelegramUI/ChatController.swift:2305-2362 | another chat is opened for a foreign peer; without a start position nothing happens; otherwise the start is pushed when asked to, and the target in view is scrolled to from the start, or else looked up from the start on a fresh handle |
| ChatController.ScrollOrLookUp | TelegramUI/ChatController.swift:2323-2353 | loading is on exactly when the target is not in view; a target in view is scrolled to; a missing one is looked up on a fresh handle, with one lookup effect |
| ChatController.DeliverMessageLookupSpec | TelegramUI/ChatController.swift:2329-2353 | a stale lookup changes nothing; the current one drops loading and scrolls to the entry with the id when one exists |
| ChatController.DownPressedSpec | TelegramUI/ChatController.swift:1293-1301 | an empty history scrolls to the end; otherwise the last position is popped and jumped to from the anchor without remembering: scrolled to in view, looked up otherwise, another chat opened for a foreign peer, nothing more without an anchor |
| ChatController.DownPressedUndoesRememberedJump | TelegramUI/ChatController.swift:1293-1301 | a remembered jump from a position not already on top, followed by the down button, leaves the jump history as before |
| ChatController.MaxVisibleIndexSpec | TelegramUI/ChatController.swift:1138-1142 | the jump history becomes exactly its pruned form: no remembered position lies below the visible index, the others stay in order; nothing else changes |
| ChatController.AudioRecorderUpdatedSpec | TelegramUI/ChatController.swift:773-796 | only a different recorder does anything; the committed panel is derived from one that reports the new recorder, and a new one is then started |
| ChatController.AudioRecorderStarted | TelegramUI/ChatController.swift:791-793 | a new recorder gets exactly one start effect |
| ChatController.VideoRecorderUpdatedSpec | TelegramUI/ChatController.swift:798-834 | only a different recorder does anything; a new controller is presented, and the previous one is dismissed |
| ChatController.VideoControllersSwapped | TelegramUI/ChatController.swift:817-828 | the new controller is presented first and the previous one is dismissed last |
| ChatController.BeginMediaRecordingSpec | TelegramUI/ChatController.swift:2214-2232 | an audio recorder is requested only when none exists; a video recorder only when none exists and the panel frame is known |
| ChatController.DismissMediaRecorderSpec | TelegramUI/ChatController.swift:2234-2274 | audio is stopped first; otherwise video is dismissed; with neither, nothing changes |
| ChatController.AudioDismissed | TelegramUI/ChatController.swift:2235-2264 | the audio recorder is stopped and released; its take is requested exactly when sending |
| ChatController.StopRequested | TelegramUI/ChatController.swift:2236-2238 | a stop effect, then the take request when sending, appended after the earlier effects |
| ChatController.EffectsExtended | TelegramUI/ChatController.swift:2236-2238 | appended effects keep the earlier effects in place |
| ChatController.VideoDismissed | TelegramUI/ChatController.swift:2265-2273 | the video recorder is released and its controller dismissed last; when sending, the controller is first completed (the first new effect) and kept until it completes |
| ChatController.VideoCompleted | TelegramUI/ChatController.swift:2266-2268 | when sending, the video controller completes and is kept |
| ChatController.DeliverRecordedDataSpec | TelegramUI/ChatController.swift:2238-2262 | a take shorter than half a second, or none, changes nothing; otherwise one voice message is sent |
| ChatController.StopMediaRecorderSpec | TelegramUI/ChatController.swift:2276-2291 | audio stops as a dismissal without sending; video stops and is kept for editing when its controller reports stopped |
| ChatController.VideoStopped | TelegramUI/ChatController.swift:2280-2289 | the video is stopped; its recorder is kept exactly when it reported stopped |
| ChatController.VideoKeptForEditing | TelegramUI/ChatController.swift:2281-2286 | the kept video recorder stays, and the committed panel is derived from one showing the video in editing |
| ChatController.LockMediaRecorderSpec | TelegramUI/ChatController.swift:2293-2303 | a shown recording: the committed panel is derived from one showing it locked; the video controller is locked too if there is one; with no recording the state stays |
| ChatController.SendMessageBotCommandSpec | TelegramUI/ChatController.swift:408-427 | one message with the command's text is sent, replying to its message only in a channel or group when the command names no bot; the draft is cleared once the view shows the send |
| ChatController.SendInterfaceBotCommandSpec | TelegramUI/ChatController.swift:1609-1630 | nothing without a peer and an address name; otherwise the suffixed command is queued |
| ChatController.ViewUpdatedAfterSendSpec | TelegramUI/ChatController.swift:1147-1149 | a pending send action runs once, clearing the draft, and is then forgotten |
| ChatController.ModeAndDismissedCommitted | TelegramUI/ChatController.swift:1441-1447 | the chosen input mode and dismissed keyboard id are what the update commits |
| ChatController.UnreadCountsSpec | TelegramUI/ChatController.swift:1794-1822 | without the chat's notification settings nothing changes; otherwise the badge shows the remaining unread count in decimal, or nothing when none remains |
| ChatController.KeyboardMessageChanged | TelegramUI/ChatController.swift:998-1006 | the keyboard message changed exactly when presence, id or stable version differ |
| ChatController.ButtonKeyboardMessageSpec | TelegramUI/ChatController.swift:998-1012 | an update runs only when the keyboard message changed |
| ChatController.ChatSession.constructor | TelegramUI/ChatController.swift:107-118 | a fresh controller: no signals, no handles, an empty jump history, no recorders |
| ChatController.ChatSession.Update | TelegramUI/ChatController.swift:1942-2066 | the new state is `UpdateSpec` of the old one, and validity is kept |
| ChatController.ChatSession.RestartContextQuery | TelegramUI/ChatController.swift:1978-2002 | the query step on the controller's fields |
| ChatController.ChatSession.RestartUrlPreview | TelegramUI/ChatController.swift:2004-2032 | the link-preview step on the controller's fields |
| ChatController.ChatSession.Commit | TelegramUI/ChatController.swift:2034-2066 | the commit step, refreshing the selection when it changed |
| ChatController.ChatSession.DeliverContextQueryResult | TelegramUI/ChatController.swift:1987-1992 | equals `DeliverQueryResultSpec` |
| ChatController.ChatSession.DeliverUrlPreviewResult | TelegramUI/ChatController.swift:2013-2020 | equals `DeliverPreviewResultSpec` |
| ChatController.ChatSession.ChatTitlePressed | TelegramUI/ChatController.swift:665-687 | an update that toggles the chat-info context |
| ChatController.ChatSession.MessageActionStarted | TelegramUI/ChatController.swift:331-350 | the request-in-progress context is added only while the message is in view |
| ChatController.ChatSession.MessageActionFinished | TelegramUI/ChatController.swift:352-372 | an update that removes the request-in-progress context |
| ChatController.ChatSession.BotCallbackAlert | TelegramUI/ChatController.swift:726-771 | an update that sets or clears the toast |
| ChatController.ChatSession.CachedDataUpdated | TelegramUI/ChatController.swift:1014-1083 | equals `CachedDataSpec` |
| ChatController.ChatSession.ButtonKeyboardMessageUpdated | TelegramUI/ChatController.swift:998-1012 | equals `ButtonKeyboardMessageSpec` |
| ChatController.ChatSession.BeginMessageSearch | TelegramUI/ChatController.swift:1460-1480 | an update by `BeginSearch` |
| ChatController.ChatSession.DismissMessageSearch | TelegramUI/ChatController.swift:1481-1486 | an update that closes the search |
| ChatController.ChatSession.UpdateMessageSearch | TelegramUI/ChatController.swift:1487-1550 | equals `UpdateMessageSearchSpec` |
| ChatController.ChatSession.ClearSearch | TelegramUI/ChatController.swift:1499-1508 | equals `SearchCleared` |
| ChatController.ChatSession.CancelSearch | TelegramUI/ChatController.swift:1500-1501 | equals `SearchCancelled` |
| ChatController.ChatSession.StartSearch | TelegramUI/ChatController.swift:1510-1518 | equals `SearchStarted` |
| ChatController.ChatSession.DeliverSearchResults | TelegramUI/ChatController.swift:1518-1542 | equals `DeliverSearchResultsSpec` |
| ChatController.ChatSession.SearchCompleted | TelegramUI/ChatController.swift:1543-1547 | equals `SearchCompletedSpec` |
| ChatController.ChatSession.NavigateMessageSearch | TelegramUI/ChatController.swift:1551-1579 | equals `NavigateSearchSpec` |
| ChatController.ChatSession.OpenCalendarSearch | TelegramUI/ChatController.swift:1584-1587 | equals `OpenCalendarSearchSpec` |
| ChatController.ChatSession.DeliverTimestampLookup | TelegramUI/ChatController.swift:1588-1594 | equals `DeliverTimestampLookupSpec` |
| ChatController.ChatSession.NavigateToMessage | TelegramUI/ChatController.swift:2305-2362 | equals `NavigateToMessageSpec` |
| ChatController.ChatSession.ScrollOrLookUpTarget | TelegramUI/ChatController.swift:2323-2353 | equals `ScrollOrLookUp` |
| ChatController.ChatSession.DeliverMessageLookup | TelegramUI/ChatController.swift:2329-2353 | equals `DeliverMessageLookupSpec` |
| ChatController.ChatSession.DownPressed | TelegramUI/ChatController.swift:1293-1301 | equals `DownPressedSpec` |
| ChatController.ChatSession.MaxVisibleMessageIndexUpdated | TelegramUI/ChatController.swift:1138-1142 | equals `MaxVisibleIndexSpec` |
| ChatController.ChatSession.AudioRecorderUpdated | TelegramUI/ChatController.swift:773-796 | equals `AudioRecorderUpdatedSpec` |
| ChatController.ChatSession.StartAudioRecorderIfAny | TelegramUI/ChatController.swift:791-793 | equals `AudioRecorderStarted` |
| ChatController.ChatSession.VideoRecorderUpdated | TelegramUI/ChatController.swift:798-834 | equals `VideoRecorderUpdatedSpec` |
| ChatController.ChatSession.SwapVideoControllers | TelegramUI/ChatController.swift:817-828 | equals `VideoControllersSwapped` |
| ChatController.ChatSession.BeginMediaRecording | TelegramUI/ChatController.swift:1642-1649 | equals `BeginMediaRecordingSpec` |
| ChatController.ChatSession.DismissMediaRecorder | TelegramUI/ChatController.swift:2234-2274 | equals `DismissMediaRecorderSpec` |
| ChatController.ChatSession.DismissAudioRecorder | TelegramUI/ChatController.swift:2235-2264 | equals `AudioDismissed` |
| ChatController.ChatSession.RequestAudioStop | TelegramUI/ChatController.swift:2236-2238 | equals `StopRequested` |
| ChatController.ChatSession.DismissVideoRecorder | TelegramUI/ChatController.swift:2265-2273 | equals `VideoDismissed` |
| ChatController.ChatSession.CompleteVideoRecorder | TelegramUI/ChatController.swift:2266-2268 | equals `VideoCompleted` |
| ChatController.ChatSession.KeepVideoForEditing | TelegramUI/ChatController.swift:2281-2286 | equals `VideoKeptForEditing` |
| ChatController.ChatSession.DeliverRecordedData | TelegramUI/ChatController.swift:2238-2262 | equals `DeliverRecordedDataSpec` |
| ChatController.ChatSession.StopMediaRecorder | TelegramUI/ChatController.swift:2276-2291 | equals `StopMediaRecorderSpec` |
| ChatController.ChatSession.StopVideoRecorder | TelegramUI/ChatController.swift:2280-2289 | equals `VideoStopped` |
| ChatController.ChatSession.LockMediaRecorder | TelegramUI/ChatController.swift:2293-2303 | equals `LockMediaRecorderSpec` |
| ChatController.ChatSession.SwitchMediaRecordingMode | TelegramUI/ChatController.swift:1656-1668 | an update that toggles the recording mode |
| ChatController.ChatSession.SendMessageBotCommand | TelegramUI/ChatController.swift:408-427 | equals `SendMessageBotCommandSpec` |
| ChatController.ChatSession.SendInterfaceBotCommand | TelegramUI/ChatController.swift:1609-1630 | equals `SendInterfaceBotCommandSpec` |
| ChatController.ChatSession.ViewUpdatedAfterSend | TelegramUI/ChatController.swift:1147-1149 | equals `ViewUpdatedAfterSendSpec` |
| ChatController.ChatSession.UpdateInputModeAndDismissedButtonKeyboardMessageId | TelegramUI/ChatController.swift:1441-1447 | an update by the chosen mode and dismissed id |
| ChatController.ChatSession.UnreadCountsUpdated | TelegramUI/ChatController.swift:1794-1822 | equals `UnreadCountsSpec` |
| ChatTextInputPanel.ItemsOf | TelegramUI/ChatTextInputPanelNode.swift:419-429 | the items the accessory buttons show, position by position |
| ChatTextInputPanel.ButtonsOf | TelegramUI/ChatTextInputPanelNode.swift:450-459 | the button nodes, position by position |
| ChatTextInputPanel.NeedsAccessoryUpdate | TelegramUI/ChatTextInputPanelNode.swift:419-429 | an update is needed exactly when the shown items differ from the wanted items |
| ChatTextInputPanel.RemoveAt | TelegramUI/ChatTextInputPanelNode.swift:439 | `remove(at:)` keeps the others in order and removes exactly one |
| ChatTextInputPanel.FindItem | TelegramUI/ChatTextInputPanelNode.swift:436-442 | the first button showing the item, or none exactly when none shows it |
| ChatTextInputPanel.Place | TelegramUI/ChatTextInputPanelNode.swift:435-448 | the placed button shows the item |
| ChatTextInputPanel.Reconcile | TelegramUI/ChatTextInputPanelNode.swift:431-461 | the rebuilt buttons show the wanted items in order, and numbering only grows |
| ChatTextInputPanel.ReconciledShowsItems | TelegramUI/ChatTextInputPanelNode.swift:431-461 | the rebuilt buttons show exactly the wanted items |
| ChatTextInputPanel.ReconcileKeepsPool | TelegramUI/ChatTextInputPanelNode.swift:431-461 | reused buttons and leftovers together are the old buttons plus the new ones |
| ChatTextInputPanel.ReconcileLeftoversAreOld | TelegramUI/ChatTextInputPanelNode.swift:450-459 | every leftover is an old button |
| ChatTextInputPanel.ReconcileButtonsOldOrNew | TelegramUI/ChatTextInputPanelNode.swift:434-449 | every rebuilt button is old or freshly numbered |
| ChatTextInputPanel.ReconcileKeepsNumbering | TelegramUI/ChatTextInputPanelNode.swift:431-461 | button numbers stay distinct and below the next number, and the rebuilt ones are apart from the leftovers |
| ChatTextInputPanel.ReconcileOfShownItems | TelegramUI/ChatTextInputPanelNode.swift:431-461 | rebuilding for the items already shown keeps every button and leaves nothing over |
| ChatTextInputPanel.CreatedOnlyWithoutMatch | TelegramUI/ChatTextInputPanelNode.swift:443-447 | a button is created only when no remaining old button shows the item |
| ChatTextInputPanel.TextControls | TelegramUI/ChatTextInputPanelNode.swift:733-828 | send shows for text or a kept-enabled send outside search; clear only in search; the microphone otherwise, unless an unlocked video is being edited; send and microphone never show together |
| ChatTextInputPanel.LayoutShowsMicBesideSend | TelegramUI/ChatTextInputPanelNode.swift:704-720 | the layout rule as written can show the microphone beside a kept-enabled send |
| ChatTextInputPanel.LayoutHidesMicAsWritten | TelegramUI/ChatTextInputPanelNode.swift:569-576 | the microphone is hidden exactly for a video being edited, locked or not, or for text or the search layout (lines 704-712) (the text update hides it only for an unlocked one); a microphone it shows is one the text update shows when no send is kept enabled |
| ChatTextInputPanel.LayoutMic | TelegramUI/ChatTextInputPanelNode.swift:704-720 | the corrected layout rule never shows the microphone with text, in search, or beside send |
| ChatTextInputPanel.AccessoryPressCommitted | TelegramUI/ChatTextInputPanelNode.swift:895-917 | stickers commit media mode and keep the dismissed id; the keyboard button commits text mode and dismisses the current keyboard; the bot-buttons button commits input-buttons mode and dismisses none |
| ChatTextInputPanel.BeginEditingCommitted | TelegramUI/ChatTextInputPanelNode.swift:837-841 | editing commits text mode and dismisses the current keyboard |
| ChatTextInputPanel.RecordingIsVideo | TelegramUI/ChatTextInputPanelNode.swift:200-210 | the microphone records video exactly in video mode |
| ChatTextInputPanel.SwitchedModeSwitchesIsVideo | TelegramUI/ChatTextInputPanelNode.swift:200-210 | switching the mode switches what is recorded |
| ChatTextInputPanel.SearchClearedText | TelegramUI/ChatTextInputPanelNode.swift:856-871 | a context request loses its query text, or all of it when there is no non-empty query range; any other input is kept |
| ChatTextInputPanel.InputPanel.constructor | TelegramUI/ChatTextInputPanelNode.swift:184-267 | a fresh panel shows only the microphone, with no accessory buttons |
| ChatTextInputPanel.InputPanel.UpdateTextNodeText | TelegramUI/ChatTextInputPanelNode.swift:733-828 | the shown controls become `TextControls` of the panel state |
| ChatTextInputPanel.InputPanel.UpdateInputTextState | TelegramUI/ChatTextInputPanelNode.swift:135-153 | the text node loads for non-empty text; a loaded node takes the text and flags, and the controls are refreshed |
| ChatTextInputPanel.InputPanel.UpdateKeepSendButtonEnabled | TelegramUI/ChatTextInputPanelNode.swift:155-160 | the flags are stored, and the controls are refreshed only when one changed |
| ChatTextInputPanel.InputPanel.SelectionChanged | TelegramUI/ChatTextInputPanelNode.swift:830-835 | a selection change is passed on only when the user made it |
| ChatTextInputPanel.InputPanel.UpdateLayout | TelegramUI/ChatTextInputPanelNode.swift:337-722 | the buttons show the state's accessory items, the leftovers are retired, and the microphone follows `LayoutMic` |
| ChatTextInputPanel.InputPanel.RefreshAccessoryButtons | TelegramUI/ChatTextInputPanelNode.swift:419-461 | unchanged items keep the buttons; changed ones rebuild them and retire the leftovers |
| ChatTextInputPanel.InputPanel.RebuildAccessoryButtons | TelegramUI/ChatTextInputPanelNode.swift:431-461 | the rebuild computes `Reconcile`: the new buttons, the leftovers and the next number; numbering stays unique and the buttons show the items |
| ChatTextInputPanel.InputPanel.PlaceButtons | TelegramUI/ChatTextInputPanelNode.swift:434-449 | the outer loop places each item's button in turn, as `Reconcile` does; the old list keeps the buttons nobody took |
| ChatTextInputPanel.InputPanel.PlaceButton | TelegramUI/ChatTextInputPanelNode.swift:435-448 | one step of that loop computes `Place` |
| ChatTextInputPanel.InputPanel.TakeMatchingButton | TelegramUI/ChatTextInputPanelNode.swift:436-442 | the first old button showing the item is taken out of the pool |
| ChatTextInputPanel.InputPanel.RemoveLeftovers | TelegramUI/ChatTextInputPanelNode.swift:450-459 | animated: queued for removal, when there are any; otherwise taken off screen at once |
| ChatTextInputPanel.InputPanel.AccessoryItemButtonPressed | TelegramUI/ChatTextInputPanelNode.swift:895-917 | the action of the first button with that node |
| ChatTextInputPanel.InputPanel.BeginRecording | TelegramUI/ChatTextInputPanelNode.swift:200-210 | with a state, recording starts as video exactly in video mode; without one, nothing |
| ChatTextInputPanel.PressedAction | TelegramUI/ChatTextInputPanelNode.swift:895-917 | no action exactly when no button has that node |
| ChatTextInputPanel.PressedActionAt | TelegramUI/ChatTextInputPanelNode.swift:895-917 | the first matching button decides the action |
| ChatTextInputPanel.PressedActionAbsent | TelegramUI/ChatTextInputPanelNode.swift:895-917 | an unknown node asks for nothing |
| PrivacyAndSecurity.EntrySection | TelegramUI/PrivacyAndSecurityController.swift:51-60 | rows 0-4 are privacy, 5-8 security, 9-11 account |
| PrivacyAndSecurity.StableId | TelegramUI/PrivacyAndSecurityController.swift:62-89 | every row has its own id, from 0 to 11 |
| PrivacyAndSecurity.StableIdIdentifiesRow | TelegramUI/PrivacyAndSecurityController.swift:62-89 | rows with the same id are the same kind of row |
| PrivacyAndSecurity.ContactsMinusShowsZero | TelegramUI/PrivacyAndSecurityController.swift:261-262 | as written, contacts with one exception read "0" exceptions |
| PrivacyAndSecurity.SelectiveLabelAsWritten | TelegramUI/PrivacyAndSecurityController.swift:242-267 | the summary as written agrees with the intended one except for contacts minus some peers, which it shows as minus none |
| PrivacyAndSecurity.SelectiveLabel | TelegramUI/PrivacyAndSecurityController.swift:242-267 | the base follows the setting; the plus and minus kinds are shown exactly when their lists are non-empty |
| PrivacyAndSecurity.SelectiveLabelReadsBack | TelegramUI/PrivacyAndSecurityController.swift:242-267 | the counts shown parse back to the sizes of the exception lists |
| PrivacyAndSecurity.AsWrittenDiffersOnlyOnContactsMinus | TelegramUI/PrivacyAndSecurityController.swift:261-262 | the code as written differs from the corrected label exactly for contacts with only exclusions |
| PrivacyAndSecurity.WithUpdatedUpdatingAccountTimeoutValue | TelegramUI/PrivacyAndSecurityController.swift:236-238 | the state holds exactly the given pending timeout |
| PrivacyAndSecurity.EntriesOrdered | TelegramUI/PrivacyAndSecurityController.swift:269-303 | twelve rows in increasing id order, row i with id i, in their sections |
| PrivacyAndSecurity.Entries | TelegramUI/PrivacyAndSecurityController.swift:269-303 | twelve rows, row i with stable id i |
| PrivacyAndSecurity.LoadingIffNoSettings | TelegramUI/PrivacyAndSecurityController.swift:273-281 | the privacy rows show loading exactly when settings are absent |
| PrivacyAndSecurity.TimeoutRowPrefersUpdating | TelegramUI/PrivacyAndSecurityController.swift:288-299 | the timeout row shows the pending value over the stored one |
| PrivacyAndSecurity.TimeoutChoices | TelegramUI/PrivacyAndSecurityController.swift:449-454 | four increasing positive choices, whole 30-day months, within Int32 |
| PrivacyAndSecurity.ChooseTimeout | TelegramUI/PrivacyAndSecurityController.swift:425-429 | with settings, the choice becomes the pending value; without, nothing changes |
| PrivacyAndSecurity.TimeoutApplied | TelegramUI/PrivacyAndSecurityController.swift:430-446 | the settings take the timeout and the pending value is cleared |
| PrivacyAndSecurity.ChooseThenApply | TelegramUI/PrivacyAndSecurityController.swift:414-478 | while pending, the row shows the choice and activity; after, it still shows it, without activity, and no other row changed |
| PrivacyAndSecurity.SettingUpdated | TelegramUI/PrivacyAndSecurityController.swift:335-389 | an edited selective setting replaces only its own field |
| PrivacyAndSecurity.SettingUpdatedChangesOneRow | TelegramUI/PrivacyAndSecurityController.swift:335-389 | only that setting's row changes |
| NotificationSoundSelection.SortId | submodules/NotificationSoundSelectionUI/Sources/NotificationSoundSelection.swift:64-104 | the fixed ids of the headers and rows, and 3, 1003 or 2003 plus the index for a sound |
| NotificationSoundSelection.CloudSoundEntries | submodules/NotificationSoundSelectionUI/Sources/NotificationSoundSelection.swift:204-209 | cloud sound k is row k+1, checked exactly when it is the selected sound |
| NotificationSoundSelection.BundledEntries | submodules/NotificationSoundSelectionUI/Sources/NotificationSoundSelection.swift:218-227 | bundled sound i is row i, checked exactly when selected |
| NotificationSoundSelection.SoundEntries | submodules/NotificationSoundSelectionUI/Sources/NotificationSoundSelection.swift:199-229 | the cloud header and tones, five rows (six with a default sound), twelve modern tones, the classic header and eight classic tones |
| NotificationSoundSelection.NotificationsAndSoundsEntries | submodules/NotificationSoundSelectionUI/Sources/NotificationSoundSelection.swift:199-230 | the loops build the specified list |
| NotificationSoundSelection.AppendCloudSounds | submodules/NotificationSoundSelectionUI/Sources/NotificationSoundSelection.swift:204-209 | each cloud sound is indexed by the list length when it is appended |
| NotificationSoundSelection.AppendBundled | submodules/NotificationSoundSelectionUI/Sources/NotificationSoundSelection.swift:218-227 | the twelve modern and eight classic tones are appended |
| NotificationSoundSelection.EntriesShape | submodules/NotificationSoundSelectionUI/Sources/NotificationSoundSelection.swift:199-230 | the list has n+26 rows, or n+27 with a default; a default row exists exactly when a default sound is given |
| NotificationSoundSelection.CheckedIffSelected | submodules/NotificationSoundSelectionUI/Sources/NotificationSoundSelection.swift:199-230 | a row is checked exactly when its sound is the selected one |
| NotificationSoundSelection.StableIdIs | submodules/NotificationSoundSelectionUI/Sources/NotificationSoundSelection.swift:64-108 | the stable id of every row, by position |
| NotificationSoundSelection.StableIdsDistinct | submodules/NotificationSoundSelectionUI/Sources/NotificationSoundSelection.swift:106-108 | stable ids are distinct exactly when there are fewer than 995 cloud sounds |
| NotificationSoundSelection.EntriesInOrder | submodules/NotificationSoundSelectionUI/Sources/NotificationSoundSelection.swift:163-165 | the list is in `<` order exactly when there is no default row and fewer than 995 cloud sounds |
| NotificationSoundSelection.CloudPath | submodules/NotificationSoundSelectionUI/Sources/NotificationSoundSelection.swift:281-288 | the path of the first sound with that file id and a completed file, skipping matches still downloading; "" when there is no completed match |
| NotificationSoundSelection.FileName | submodules/NotificationSoundSelectionUI/Sources/NotificationSoundSelection.swift:259-290 | no sound gives ""; modern id gives id+100 and classic id+2; the default gives "100" or follows the default sound; cloud sounds without a list give "", and with a list the path `CloudPath` finds |
| NotificationSoundSelection.FileNameForNotificationSound | submodules/NotificationSoundSelectionUI/Sources/NotificationSoundSelection.swift:259-290 | the method computes `FileName` |
| NotificationSoundSelection.ScanCloudPath | submodules/NotificationSoundSelectionUI/Sources/NotificationSoundSelection.swift:281-288 | the loop computes `CloudPath` |
| NotificationSoundSelection.CheckUpload | submodules/NotificationSoundSelectionUI/Sources/NotificationSoundSelection.swift:431-449 | too large exactly above 200 KB; too long exactly above five seconds; otherwise upload |
| NotificationSoundSelection.SoundPicker.constructor | submodules/NotificationSoundSelectionUI/Sources/NotificationSoundSelection.swift:343-344 | the picker starts on the current sound, nothing played or completed |
| NotificationSoundSelection.SoundPicker.Entries | submodules/NotificationSoundSelectionUI/Sources/NotificationSoundSelection.swift:375-386 | the shown list is `SoundEntries` of the state |
| NotificationSoundSelection.SoundPicker.SelectSound | submodules/NotificationSoundSelectionUI/Sources/NotificationSoundSelection.swift:356-365 | the sound becomes selected and is played, unless it is no sound, which plays nothing |
| NotificationSoundSelection.SoundPicker.Complete | submodules/NotificationSoundSelectionUI/Sources/NotificationSoundSelection.swift:400-406 | the selected sound is handed back and the picker is dismissed |
| NotificationSoundSelection.SoundPicker.Cancel | submodules/NotificationSoundSelectionUI/Sources/NotificationSoundSelection.swift:408-410 | the picker is dismissed without a result |
| NotificationSoundSelection.SelectedRowChecked | submodules/NotificationSoundSelectionUI/Sources/NotificationSoundSelection.swift:356-365 | after a selection, the rows checked are exactly those with that sound |
| ContactMultiselection.Toggled | TelegramUI/ContactMultiselectionController.swift:150 | `withToggledPeerId` removes a selected peer and adds an unselected one; other indices are kept |
| ContactMultiselection.ToggledCount | TelegramUI/ContactMultiselectionController.swift:150 | toggling changes the count by exactly one |
| ContactMultiselection.OpenPeerSelection | TelegramUI/ContactMultiselectionController.swift:144-163 | a selected peer is removed; an unselected one is added below the limit, and otherwise toggled back with an alert |
| ContactMultiselection.ToggleWithinLimit | TelegramUI/ContactMultiselectionController.swift:148-167 | the closure computes `OpenPeerSelection` |
| ContactMultiselection.OpenPeerStaysBelowLimit | TelegramUI/ContactMultiselectionController.swift:144-163 | a selection below the limit stays below it |
| ContactMultiselection.WithoutTokensOf | TelegramUI/ContactMultiselectionController.swift:188-190 | `filter`: exactly the tokens of other peers |
| ContactMultiselection.WithoutTokensOfKeepsDistinct | TelegramUI/ContactMultiselectionController.swift:188-190 | filtering keeps token ids distinct |
| ContactMultiselection.AppendKeepsDistinct | TelegramUI/ContactMultiselectionController.swift:185-186 | appending a new peer's token keeps ids distinct |
| ContactMultiselection.OpenPeerKeepsTokensMatching | TelegramUI/ContactMultiselectionController.swift:138-197 | after opening a peer, the tokens are the selected peers, once each |
| ContactMultiselection.RemoveSelectedKeepsTokensMatching | TelegramUI/ContactMultiselectionController.swift:200-243 | the same after removing a peer |
| ContactMultiselection.TokensAfter | TelegramUI/ContactMultiselectionController.swift:185-191 | an added token is appended; a removed peer's tokens are dropped; otherwise nothing changes |
| ContactMultiselection.CounterText | TelegramUI/ContactMultiselectionController.swift:115 | the `count/max` counter text |
| ContactMultiselection.CounterReadsBack | TelegramUI/ContactMultiselectionController.swift:179 | both numbers read back from the counter |
| ContactMultiselection.InitialTitle | TelegramUI/ContactMultiselectionController.swift:111-127 | a new group shows `0/max`, with a default max of 5000; peer selection shows the placeholder with no counter |
| ContactMultiselection.CountShown | TelegramUI/ContactMultiselectionController.swift:174-183 | the button is enabled exactly for a non-zero count; a new group's counter shows the count |
| ContactMultiselection.ContactMultiselectionController.constructor | TelegramUI/ContactMultiselectionController.swift:47-93 | nothing loaded, no title, no button, no result |
| ContactMultiselection.ContactMultiselectionController.UpdateTitle | TelegramUI/ContactMultiselectionController.swift:111-127 | the initial title, a disabled Next or Done button, and Cancel for peer selection |
| ContactMultiselection.ContactMultiselectionController.LimitsLoaded | TelegramUI/ContactMultiselectionController.swift:84-89 | the limits are stored and the title is redone |
| ContactMultiselection.ContactMultiselectionController.CountUpdated | TelegramUI/ContactMultiselectionController.swift:174-183 | the button and title follow `CountShown` |
| ContactMultiselection.ContactMultiselectionController.OpenPeer | TelegramUI/ContactMultiselectionController.swift:138-197 | without a selection state nothing changes; otherwise the outcome of `OpenPeerSelection` is applied and mirrored to shown search results |
| ContactMultiselection.ContactMultiselectionController.ApplyOpenPeerOutcome | TelegramUI/ContactMultiselectionController.swift:168-196 | the state, tokens, button, title and alert follow the outcome |
| ContactMultiselection.ContactMultiselectionController.UpdateTokens | TelegramUI/ContactMultiselectionController.swift:185-191 | the tokens become `TokensAfter` |
| ContactMultiselection.ContactMultiselectionController.RemoveSelectedPeer | TelegramUI/ContactMultiselectionController.swift:200-243 | a toggle of the peer; the token is dropped when the peer is unselected |
| ContactMultiselection.ContactMultiselectionController.Done | TelegramUI/ContactMultiselectionController.swift:285-294 | the result is the selected peers, once each, or empty without a selection state |
| ContactMultiselection.ContactMultiselectionController.Cancel | TelegramUI/ContactMultiselectionController.swift:281-283 | the result is empty |
| ContactMultiselection.KeysOf | TelegramUI/ContactMultiselectionController.swift:289 | `Array(keys)`: every key exactly once |

## Left out

- Themes, localized strings, fonts, layout geometry, animations and
  haptics are left out. They do not change the modelled state. Localized
  strings are labels (for example `SelectiveText`, `SoundText`).
- Entry equality in the sound and privacy lists compares themes by
  identity. That equality is not modelled; the lists are compared as
  values.
- Network, Postbox and media-box I/O are parameters or results:
  - search results;
  - history windows;
  - cached peer data;
  - unread counters;
  - privacy settings;
  - sound lists;
  - completed resource paths;
  - uploads.
- Audio playback is recorded only as the list of sounds played. The file
  picker's iCloud coordination is left out; only its size and duration
  checks are kept.
- Signal scheduling is left out. Main-queue hops and `delay(1.0)` on the
  toast are not modelled; a late result is a separate step.
- `messageActionCallbackDisposable` is not modelled: a newer callback does
  not cancel an older one. The game and URL results of a message action
  open other screens and are left out.
- The bodies of `inputTextPanelStateForChatPresentationInterfaceState`,
  `contextQueryResultStateForChatInterfacePresentationState` and
  `urlPreviewStateForChatInterfacePresentationState` are not part of this
  model. They are functions the controller is given.
- `ChatHistoryNavigationStack` is not part of this model. Its `add`,
  `removeLast`, `filterOutIndicesLessThan` and `isEmpty` are modelled from
  their names and call sites. `add` skips a position already on top, so
  no two equal positions are ever adjacent after a push.
- `ContactListNodeGroupSelectionState.withToggledPeerId` is not part of
  this model. `ContactMultiselection.Toggled` is a definition inferred
  from its use: it removes or adds the peer and keeps other indices.
- The `<` of `MessageId` and of `ChatTitlePanelContext` are defined
  outside the files modelled:
  - message ids are ordered by peer, then namespace, then id;
  - title contexts are ordered by a rank passed in.
- `timeIntervalString` is symbolic: the timeout row holds the seconds.
- Recorder signals deliver their value at once in the model. The
  recorder objects are handles, and their own start, stop, lock and take
  are effects in a list.
- The selection range set by the search-layout clear button is not
  modelled.
- `ChatTextInputPanel.InputPanel`: the text node's internals, the
  accessory button frames and the send-button alpha transitions are left
  out. Only which controls are shown is modelled.
- `NotificationSoundSelection.FileName`: requires that `id + 100` and
  `id + 2` fit in Int32. It does not model the Swift overflow trap for
  larger bundled ids.
- `PrivacyAndSecurity.LoadingIffNoSettings` and
  `PrivacyAndSecurity.TimeoutRowPrefersUpdating` state facts that follow
  directly from the row builder.
- `PrivacyAndSecurity.Entries`: uses the corrected summary label of
  "## Findings" (`SelectiveLabel`). As written, contacts minus N peers
  reads "(-0)"; `SelectiveLabelAsWritten` models that.
- `ChatTextInputPanel.InputPanel.UpdateLayout`: places the microphone by
  the corrected rule of "## Findings" (`LayoutMic`). As written, a layout
  pass can show it beside a send button kept enabled
  (`LayoutHidesMicAsWritten`). The `Valid()` conjunct that send and
  microphone never show together holds for the corrected rule only.
- `ChatController.AudioRecorderUpdatedSpec`, `VideoKeptForEditing` and
  `LockMediaRecorderSpec`: state the panel the committed state is derived
  from, not the committed panel itself. The derivation is done by
  `inputTextPanelStateForChatPresentationInterfaceState`, whose body is
  not part of this model.
- `ChatController.SendMessageBotCommandSpec`: the text entities the
  command message carries (`generateTextEntities`) are not modelled.
- `ChatController.UnreadCountsSpec`: the navigate button's own unread
  count is layout and is not modelled; only the badge is.
- `ContactMultiselection.ContactMultiselectionController.OpenPeer`: the
  alert, the tokens and the layout request are modelled as state. The
  controller presenting the alert is not.

## Findings

| source | as written | input that shows it | evidently intended | confidence | as-written member | corrected member |
|---|---|---|---|---|---|---|
| TelegramUI/PrivacyAndSecurityController.swift:261-262 | the "contacts minus" summary formats `enableFor.count`, which is always 0 in that branch | `.enableContacts(enableFor: [], disableFor: [p])` shows "Contacts (-0)" | the count of excluded users, `disableFor.count` | not executed | PrivacyAndSecurity.ContactsMinusShowsZero | PrivacyAndSecurity.SelectiveLabel |
| TelegramUI/ChatTextInputPanelNode.swift:704-720 | a layout pass hides the microphone for text, search or a video being edited, but not while the send button is kept enabled | empty text with `keepSendButtonEnabled` and no recording: the layout shows the microphone while `updateTextNodeText` shows send | the microphone hidden whenever send is shown, as `updateTextNodeText` does | not executed | ChatTextInputPanel.LayoutShowsMicBesideSend | ChatTextInputPanel.LayoutMic |
