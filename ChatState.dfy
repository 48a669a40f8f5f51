/** The conversation's presentation state: the immutable snapshot that
    ChatController replaces wholesale on every update
    (ChatPresentationInterfaceState and the values it holds). Only the
    attributes that the modelled transitions read or write are kept. */
module ChatState {
  import opened Common
  import Sorting

  /** A message id; ids compare by peer, then namespace, then id. */
  datatype MessageId = MessageId(peerId: int, namespace: int, id: int)

  predicate IdAtMost(a: MessageId, b: MessageId)
  {
    || a.peerId < b.peerId
    || (a.peerId == b.peerId && a.namespace < b.namespace)
    || (a.peerId == b.peerId && a.namespace == b.namespace && a.id <= b.id)
  }

  lemma IdOrderIsTotalPreorder()
    ensures Sorting.TotalPreorder(IdAtMost)
  {
  }

  lemma IdOrderAntisymmetric(a: MessageId, b: MessageId)
    requires IdAtMost(a, b) && IdAtMost(b, a)
    ensures a == b
  {
  }

  /** A position in the history: a message and its timestamp; positions
      compare by timestamp, then namespace, then id. */
  datatype MessageIndex = MessageIndex(id: MessageId, timestamp: int)

  predicate IndexLess(a: MessageIndex, b: MessageIndex)
  {
    || a.timestamp < b.timestamp
    || (a.timestamp == b.timestamp && a.id.namespace < b.id.namespace)
    || (a.timestamp == b.timestamp && a.id.namespace == b.id.namespace && a.id.id < b.id.id)
  }

  datatype ChatInputMode = NoInput | Text | Media | InputButtons

  datatype RecordingMode = Audio | Video

  datatype VideoStatus = Recording | Editing

  /** The recording projection the input panel renders; an audio
      recording names its recorder. */
  datatype MediaRecordingState =
    | AudioRecording(recorder: nat, isLocked: bool)
    | VideoRecording(status: VideoStatus, isLocked: bool)
  {
    function WithLocked(locked: bool): (r: MediaRecordingState)
      ensures r.isLocked == locked
      ensures r.AudioRecording? == AudioRecording?
      ensures AudioRecording? ==> r.recorder == recorder
      ensures VideoRecording? ==> r.status == status
    {
      match this
      case AudioRecording(recorder, _) => AudioRecording(recorder, locked)
      case VideoRecording(status, _) => VideoRecording(status, locked)
    }
  }

  datatype AccessoryItem =
    | KeyboardItem
    | StickersItem
    | InputButtonsItem
    | MessageAutoremoveTimeoutItem(timeout: Option<int>)

  datatype InputTextPanelState = InputTextPanelState(
    accessoryItems: seq<AccessoryItem>,
    mediaRecordingState: Option<MediaRecordingState>)

  datatype MessageActionsState = MessageActionsState(
    closedButtonKeyboardMessageId: Option<MessageId>,
    processedSetupReplyMessageId: Option<MessageId>)

  /** The persisted interface state of the chat. */
  datatype InterfaceState = InterfaceState(
    replyMessageId: Option<MessageId>,
    editMessage: Option<MessageId>,
    composeInputText: string,
    composeDisableUrlPreview: Option<string>,
    mediaRecordingMode: RecordingMode,
    selectionState: Option<set<MessageId>>,
    messageActionsState: MessageActionsState)

  /** Stand-in for the reply markup a bot attaches to a message. */
  datatype KeyboardMarkup = KeyboardMarkup(rows: seq<seq<string>>)

  datatype KeyboardButtonsMessage = KeyboardButtonsMessage(
    id: MessageId,
    stableVersion: int,
    visibleButtonKeyboardMarkup: Option<KeyboardMarkup>,
    requestsSetupReply: bool)

  /** The overlay indicators shown under the title. */
  datatype TitlePanelContext = ChatInfo | RequestInProgress | ToastAlert(text: string) | PinnedMessage

  datatype SearchResultsState = SearchResultsState(messageIds: seq<MessageId>, currentId: Option<MessageId>)

  datatype SearchData = SearchData(query: string, resultsState: Option<SearchResultsState>)

  /** Stand-ins for the autocompletion query, its result and a link preview. */
  datatype InputQuery = InputQuery(text: string)
  datatype InputQueryResult = InputQueryResult(items: seq<string>)
  datatype Webpage = Webpage(url: string)

  datatype UrlPreview = UrlPreview(url: string, webpage: Webpage)

  datatype PresentationState = PresentationState(
    interfaceState: InterfaceState,
    keyboardButtonsMessage: Option<KeyboardButtonsMessage>,
    inputMode: ChatInputMode,
    botStartPayload: Option<string>,
    inputTextPanelState: InputTextPanelState,
    inputQueryResult: Option<InputQueryResult>,
    urlPreview: Option<UrlPreview>,
    titlePanelContexts: seq<TitlePanelContext>,
    pinnedMessageId: Option<MessageId>,
    peerIsBlocked: bool,
    canReportPeer: bool,
    search: Option<SearchData>)

  /** A voice note attached to an outgoing message. */
  datatype VoiceMedia = VoiceMedia(fileId: int, mimeType: string, size: nat, duration: int, waveform: Option<seq<bv8>>)

  /** A message handed to sendMessages (text entities are not modelled). */
  datatype OutgoingMessage = OutgoingMessage(text: string, media: Option<VoiceMedia>, replyToMessageId: Option<MessageId>)

  /** `keyboardButtonsMessage?.visibleButtonKeyboardMarkup`. */
  function VisibleMarkup(s: PresentationState): Option<KeyboardMarkup>
  {
    if s.keyboardButtonsMessage.Some? then s.keyboardButtonsMessage.value.visibleButtonKeyboardMarkup else None
  }

  /** `urlPreview?.1`: the webpage currently previewed, if any. */
  function PreviewedWebpage(s: PresentationState): Option<Webpage>
  {
    if s.urlPreview.Some? then Some(s.urlPreview.value.webpage) else None
  }

  function WithRecordingState(s: PresentationState, r: Option<MediaRecordingState>): PresentationState
  {
    s.(inputTextPanelState := s.inputTextPanelState.(mediaRecordingState := r))
  }
}
