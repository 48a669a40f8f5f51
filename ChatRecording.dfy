/** The media-recording projection in the input panel and the transitions
    ChatController drives from its audio and video recorders. Recorders are
    named by numbers. */
module ChatRecording {
  import opened Common
  import opened ChatState

  /** A new audio recorder starts an unlocked audio recording unless some
      recording is already shown; no recorder clears the recording. */
  function OnAudioRecorder(p: InputTextPanelState, recorder: Option<nat>): (r: InputTextPanelState)
    ensures r.accessoryItems == p.accessoryItems
    ensures recorder.None? ==> r.mediaRecordingState.None?
    ensures recorder.Some? && p.mediaRecordingState.None? ==>
      r.mediaRecordingState == Some(AudioRecording(recorder.value, false))
    ensures recorder.Some? && p.mediaRecordingState.Some? ==> r == p
  {
    match recorder
    case Some(a) => if p.mediaRecordingState.None? then p.(mediaRecordingState := Some(AudioRecording(a, false))) else p
    case None => p.(mediaRecordingState := None)
  }

  /** The same for a video recorder, which starts in the recording status. */
  function OnVideoRecorder(p: InputTextPanelState, recorder: Option<nat>): (r: InputTextPanelState)
    ensures r.accessoryItems == p.accessoryItems
    ensures recorder.None? ==> r.mediaRecordingState.None?
    ensures recorder.Some? && p.mediaRecordingState.None? ==>
      r.mediaRecordingState == Some(VideoRecording(Recording, false))
    ensures recorder.Some? && p.mediaRecordingState.Some? ==> r == p
  {
    match recorder
    case Some(_) => if p.mediaRecordingState.None? then p.(mediaRecordingState := Some(VideoRecording(Recording, false))) else p
    case None => p.(mediaRecordingState := None)
  }

  /** Delivering the same recorder twice is the same as delivering it once. */
  lemma RecorderDeliveryIdempotent(p: InputTextPanelState, recorder: Option<nat>)
    ensures OnAudioRecorder(OnAudioRecorder(p, recorder), recorder) == OnAudioRecorder(p, recorder)
    ensures OnVideoRecorder(OnVideoRecorder(p, recorder), recorder) == OnVideoRecorder(p, recorder)
  {
  }

  /** A soft-stopped video goes to editing and is unlocked, whatever its lock was. */
  function StoppedVideoForEditing(p: InputTextPanelState): (r: InputTextPanelState)
    ensures r.mediaRecordingState == Some(VideoRecording(Editing, false))
    ensures r.accessoryItems == p.accessoryItems
  {
    p.(mediaRecordingState := Some(VideoRecording(Editing, false)))
  }

  /** Locking marks a shown recording as locked and leaves its kind alone;
      with no recording it changes nothing. */
  function Locked(p: InputTextPanelState): (r: InputTextPanelState)
    ensures p.mediaRecordingState.None? ==> r == p
    ensures p.mediaRecordingState.Some? ==>
      && r.mediaRecordingState.Some?
      && r.mediaRecordingState.value.isLocked
      && r.mediaRecordingState.value.AudioRecording? == p.mediaRecordingState.value.AudioRecording?
    ensures r.accessoryItems == p.accessoryItems
  {
    if p.mediaRecordingState.Some? then p.(mediaRecordingState := Some(p.mediaRecordingState.value.WithLocked(true))) else p
  }

  lemma LockedIdempotent(p: InputTextPanelState)
    ensures Locked(Locked(p)) == Locked(p)
  {
  }

  /** switchMediaRecordingMode: audio and video swap, with no guard on an
      ongoing recording. */
  function ToggledMode(m: RecordingMode): (r: RecordingMode)
    ensures r != m
  {
    match m
    case Audio => Video
    case Video => Audio
  }

  lemma ToggledModeTwice(m: RecordingMode)
    ensures ToggledMode(ToggledMode(m)) == m
  {
  }

  /** What `takenRecordedData` yields for a finished audio recording. */
  datatype RecordedAudio = RecordedAudio(duration: real, compressedSize: nat, waveform: Option<seq<bv8>>)

  /** The voice message sent for a finished take; `fileId` is the random
      local file id. Takes shorter than half a second send nothing. */
  function VoiceMessage(data: RecordedAudio, fileId: int): (r: Option<OutgoingMessage>)
    ensures r.Some? <==> data.duration >= 0.5
    ensures r.Some? ==>
      && r.value.text == ""
      && r.value.replyToMessageId.None?
      && r.value.media.Some?
      && r.value.media.value.mimeType == "audio/ogg"
      && r.value.media.value.fileId == fileId
      && r.value.media.value.size == data.compressedSize
      && r.value.media.value.waveform == data.waveform
      && 0 <= r.value.media.value.duration
      && r.value.media.value.duration as real <= data.duration < r.value.media.value.duration as real + 1.0
  {
    if data.duration < 0.5 then None
    else Some(OutgoingMessage("", Some(VoiceMedia(fileId, "audio/ogg", data.compressedSize, data.duration.Floor, data.waveform)), None))
  }
}
