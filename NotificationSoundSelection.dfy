/** The notification-tone picker: the entries of its list (cloud tones,
    then the modern alert tones, then the classic ones), which entry is
    checked, the file name a tone plays from, the size and length guard on
    uploaded tones, and the picker's selection state. Themes, localized
    texts and audio playback are not part of this model. */
module NotificationSoundSelection {
  import opened Common

  /** PeerMessageSound. */
  datatype PeerMessageSound =
    | NoSound
    | DefaultSound
    | BundledModern(id: int)
    | BundledClassic(id: int)
    | Cloud(fileId: int)

  /** A tone in the account's cloud list, with the local path of its file
      when the download has completed. */
  datatype CloudSound = CloudSound(fileId: int, completedPath: Option<string>)

  /** The three sections, with their raw values 0, 1 and 2. */
  datatype Section = CloudSection | ModernSection | ClassicSection

  function SectionRaw(s: Section): int
  {
    match s
    case CloudSection => 0
    case ModernSection => 1
    case ClassicSection => 2
  }

  /** The text of a tone's row: the localized name of `sound`, and for the
      default row the tone it stands for. */
  datatype SoundText = SoundName(sound: PeerMessageSound, defaultSound: Option<PeerMessageSound>)

  datatype Entry =
    | CloudHeader
    | UploadSoundEntry
    | CloudInfo
    | ModernHeader
    | ClassicHeader
    | NoneEntry(section: Section, text: SoundText, selected: bool)
    | DefaultEntry(section: Section, text: SoundText, selected: bool)
    | SoundEntry(section: Section, index: int, text: SoundText, sound: PeerMessageSound, selected: bool)

  /** The section an entry is listed in. */
  function EntrySection(e: Entry): int
  {
    match e
    case CloudHeader => SectionRaw(CloudSection)
    case UploadSoundEntry => SectionRaw(CloudSection)
    case CloudInfo => SectionRaw(CloudSection)
    case ModernHeader => SectionRaw(ModernSection)
    case ClassicHeader => SectionRaw(ClassicSection)
    case NoneEntry(section, _, _) => SectionRaw(section)
    case DefaultEntry(section, _, _) => SectionRaw(section)
    case SoundEntry(section, _, _, _, _) => SectionRaw(section)
  }

  /** sortId: the headers and the cloud rows at fixed places, and each
      section's none, default and tone rows after its base (0, 1000, 2000). */
  function SortId(e: Entry): (r: int)
    ensures e.NoneEntry? ==> r == 1000 * SectionRaw(e.section) + 1
    ensures e.DefaultEntry? ==> r == 1000 * SectionRaw(e.section) + 2
    ensures e.SoundEntry? ==> r == 1000 * SectionRaw(e.section) + 3 + e.index
  {
    match e
    case CloudHeader => 0
    case UploadSoundEntry => 998
    case CloudInfo => 999
    case ModernHeader => 1000
    case ClassicHeader => 2000
    case NoneEntry(section, _, _) =>
      (match section
       case CloudSection => 1
       case ModernSection => 1001
       case ClassicSection => 2001)
    case DefaultEntry(section, _, _) =>
      (match section
       case CloudSection => 2
       case ModernSection => 1002
       case ClassicSection => 2002)
    case SoundEntry(section, index, _, _, _) =>
      (match section
       case CloudSection => 3 + index
       case ModernSection => 1003 + index
       case ClassicSection => 2003 + index)
  }

  /** stableId is the sortId. */
  function StableId(e: Entry): int
  {
    SortId(e)
  }

  /** `<` compares stable ids. */
  predicate Less(a: Entry, b: Entry)
  {
    StableId(a) < StableId(b)
  }

  /** The tone rows of the cloud list: the index is the count of rows before
      it, which after the header makes the indices 1, 2, 3, … */
  function CloudSoundEntries(sounds: seq<CloudSound>, selectedSound: PeerMessageSound): (r: seq<Entry>)
    ensures |r| == |sounds|
    ensures forall k :: 0 <= k < |sounds| ==>
      r[k] == SoundEntry(CloudSection, k + 1, SoundName(Cloud(sounds[k].fileId), None), Cloud(sounds[k].fileId),
                         selectedSound == Cloud(sounds[k].fileId))
  {
    seq(|sounds|, k requires 0 <= k < |sounds| =>
      SoundEntry(CloudSection, k + 1, SoundName(Cloud(sounds[k].fileId), None), Cloud(sounds[k].fileId),
                 selectedSound == Cloud(sounds[k].fileId)))
  }

  function BundledSound(section: Section, i: int): PeerMessageSound
  {
    if section == ModernSection then BundledModern(i) else BundledClassic(i)
  }

  /** The first `count` bundled tones of a section, with indices 0, 1, … */
  function BundledEntries(section: Section, count: nat, selectedSound: PeerMessageSound): (r: seq<Entry>)
    ensures |r| == count
    ensures forall i :: 0 <= i < count ==>
      r[i] == SoundEntry(section, i, SoundName(BundledSound(section, i), None), BundledSound(section, i),
                         BundledSound(section, i) == selectedSound)
  {
    seq(count, i requires 0 <= i < count =>
      SoundEntry(section, i, SoundName(BundledSound(section, i), None), BundledSound(section, i),
                 BundledSound(section, i) == selectedSound))
  }

  /** The rows between the cloud tones and the modern tones. */
  function MiddleEntries(defaultSound: Option<PeerMessageSound>, selectedSound: PeerMessageSound): seq<Entry>
  {
    [UploadSoundEntry, CloudInfo, ModernHeader]
    + (if defaultSound.Some? then [DefaultEntry(ModernSection, SoundName(DefaultSound, defaultSound), selectedSound == DefaultSound)] else [])
    + [NoneEntry(ModernSection, SoundName(NoSound, None), selectedSound == NoSound)]
  }

  const ModernCount: nat := 12
  const ClassicCount: nat := 8

  /** notificationsAndSoundsEntries, as one list. */
  function SoundEntries(defaultSound: Option<PeerMessageSound>, selectedSound: PeerMessageSound,
                        soundList: Option<seq<CloudSound>>): (r: seq<Entry>)
    // the cloud header and tones, five or six fixed rows, twelve modern
    // tones, the classic header and eight classic tones
    ensures |r| == CloudCount(soundList) + (if defaultSound.Some? then 27 else 26)
    ensures r[0] == CloudHeader && r[|r| - ClassicCount - 1] == ClassicHeader
  {
    [CloudHeader]
    + CloudSoundEntries(if soundList.Some? then soundList.value else [], selectedSound)
    + MiddleEntries(defaultSound, selectedSound)
    + BundledEntries(ModernSection, ModernCount, selectedSound)
    + [ClassicHeader]
    + BundledEntries(ClassicSection, ClassicCount, selectedSound)
  }

  /** The sound a row selects when tapped, if any. */
  function EntrySound(e: Entry): Option<PeerMessageSound>
  {
    match e
    case NoneEntry(_, _, _) => Some(NoSound)
    case DefaultEntry(_, _, _) => Some(DefaultSound)
    case SoundEntry(_, _, _, sound, _) => Some(sound)
    case _ => None
  }

  function IsChecked(e: Entry): bool
  {
    (e.NoneEntry? || e.DefaultEntry? || e.SoundEntry?) && e.selected
  }

  /** The number of cloud tones in the list. */
  function CloudCount(soundList: Option<seq<CloudSound>>): nat
  {
    if soundList.Some? then |soundList.value| else 0
  }

  /** The builder as it runs: append the header, one row per cloud tone,
      the fixed rows, then the twelve modern and eight classic tones. */
  method NotificationsAndSoundsEntries(defaultSound: Option<PeerMessageSound>, selectedSound: PeerMessageSound,
                                       soundList: Option<seq<CloudSound>>) returns (entries: seq<Entry>)
    ensures entries == SoundEntries(defaultSound, selectedSound, soundList)
  {
    entries := [CloudHeader];
    if soundList.Some? {
      entries := AppendCloudSounds(entries, soundList.value, selectedSound);
    }
    entries := entries + [UploadSoundEntry, CloudInfo, ModernHeader];
    if defaultSound.Some? {
      entries := entries + [DefaultEntry(ModernSection, SoundName(DefaultSound, defaultSound), selectedSound == DefaultSound)];
    }
    entries := entries + [NoneEntry(ModernSection, SoundName(NoSound, None), selectedSound == NoSound)];
    entries := AppendBundled(entries, ModernSection, ModernCount, selectedSound);
    entries := entries + [ClassicHeader];
    entries := AppendBundled(entries, ClassicSection, ClassicCount, selectedSound);
  }

  /** One row per cloud tone, indexed by the number of rows before it. */
  method AppendCloudSounds(header: seq<Entry>, sounds: seq<CloudSound>, selectedSound: PeerMessageSound)
    returns (entries: seq<Entry>)
    requires header == [CloudHeader]
    ensures entries == header + CloudSoundEntries(sounds, selectedSound)
  {
    entries := header;
    for k := 0 to |sounds|
      invariant entries == header + CloudSoundEntries(sounds[..k], selectedSound)
    {
      var sound := Cloud(sounds[k].fileId);
      entries := entries + [SoundEntry(CloudSection, |entries|, SoundName(sound, None), sound, selectedSound == sound)];
      assert entries == header + CloudSoundEntries(sounds[..k + 1], selectedSound);
    }
    assert sounds[..|sounds|] == sounds;
  }

  /** The bundled tones 0 ..< count of a section. */
  method AppendBundled(prefix: seq<Entry>, section: Section, count: nat, selectedSound: PeerMessageSound)
    returns (entries: seq<Entry>)
    ensures entries == prefix + BundledEntries(section, count, selectedSound)
  {
    entries := prefix;
    for i := 0 to count
      invariant entries == prefix + BundledEntries(section, i, selectedSound)
    {
      var sound := if section == ModernSection then BundledModern(i) else BundledClassic(i);
      entries := entries + [SoundEntry(section, i, SoundName(sound, None), sound, sound == selectedSound)];
      assert entries == prefix + BundledEntries(section, i + 1, selectedSound);
    }
  }

  /** The list has the header, the cloud tones, three fixed rows, the default
      row when there is a default tone, the none row, twelve modern tones, a
      header and eight classic tones; the default row is there exactly when
      a default tone is given. */
  lemma EntriesShape(defaultSound: Option<PeerMessageSound>, selectedSound: PeerMessageSound, soundList: Option<seq<CloudSound>>)
    ensures var es := SoundEntries(defaultSound, selectedSound, soundList);
      var n := CloudCount(soundList);
      && |es| == n + (if defaultSound.Some? then 27 else 26)
      && ((exists i :: 0 <= i < |es| && es[i].DefaultEntry?) <==> defaultSound.Some?)
  {
    var es := SoundEntries(defaultSound, selectedSound, soundList);
    var n := CloudCount(soundList);
    var sounds := if soundList.Some? then soundList.value else [];
    var m := MiddleEntries(defaultSound, selectedSound);
    var tail := BundledEntries(ModernSection, ModernCount, selectedSound) + [ClassicHeader] + BundledEntries(ClassicSection, ClassicCount, selectedSound);
    assert es == [CloudHeader] + CloudSoundEntries(sounds, selectedSound) + m + tail;
    if defaultSound.Some? {
      assert es[1 + n + 3].DefaultEntry?;
    } else {
      forall i | 0 <= i < |es|
        ensures !es[i].DefaultEntry?
      {
        if i < 1 + n {
        } else if i < 1 + n + |m| {
          assert es[i] == m[i - 1 - n];
        } else {
          assert es[i] == tail[i - 1 - n - |m|];
        }
      }
    }
  }

  /** A row's check mark agrees with the tone it selects. */
  predicate MarkedRight(e: Entry, selectedSound: PeerMessageSound)
  {
    IsChecked(e) <==> EntrySound(e) == Some(selectedSound)
  }

  /** A row is checked exactly when it selects the picker's current tone. */
  lemma CheckedIffSelected(defaultSound: Option<PeerMessageSound>, selectedSound: PeerMessageSound,
                           soundList: Option<seq<CloudSound>>, i: nat)
    requires i < |SoundEntries(defaultSound, selectedSound, soundList)|
    ensures var e := SoundEntries(defaultSound, selectedSound, soundList)[i];
      IsChecked(e) <==> EntrySound(e) == Some(selectedSound)
  {
    var es := SoundEntries(defaultSound, selectedSound, soundList);
    var cloud := CloudSoundEntries(if soundList.Some? then soundList.value else [], selectedSound);
    var m := MiddleEntries(defaultSound, selectedSound);
    var modern := BundledEntries(ModernSection, ModernCount, selectedSound);
    var classic := BundledEntries(ClassicSection, ClassicCount, selectedSound);
    assert forall k :: 0 <= k < |cloud| ==> MarkedRight(cloud[k], selectedSound);
    assert forall k :: 0 <= k < |m| ==> MarkedRight(m[k], selectedSound);
    assert forall k :: 0 <= k < |modern| ==> MarkedRight(modern[k], selectedSound);
    assert forall k :: 0 <= k < |classic| ==> MarkedRight(classic[k], selectedSound);
    assert es[i] in [CloudHeader] + cloud + m + modern + [ClassicHeader] + classic;
    assert MarkedRight(es[i], selectedSound);
  }

  /** The stable id at position `i` of a list with `n` cloud tones and `d`
      default rows: the cloud tones take 4, 5, …, everything after them sits
      at 998 and above, the default row (1002) before the none row (1001). */
  function IdAt(n: nat, d: nat, i: nat): int
  {
    if i == 0 then 0
    else if i <= n then 3 + i
    else if i == n + 1 then 998
    else if i == n + 2 then 999
    else if i == n + 3 then 1000
    else if d == 1 && i == n + 4 then 1002
    else if i == n + 4 + d then 1001
    else if i < n + 17 + d then 1003 + (i - n - 5 - d)
    else if i == n + 17 + d then 2000
    else 2003 + (i - n - 18 - d)
  }

  function DefaultRows(defaultSound: Option<PeerMessageSound>): nat
  {
    if defaultSound.Some? then 1 else 0
  }

  /** Every row's stable id, by position. */
  lemma StableIdIs(defaultSound: Option<PeerMessageSound>, selectedSound: PeerMessageSound,
                   soundList: Option<seq<CloudSound>>, i: nat)
    requires i < |SoundEntries(defaultSound, selectedSound, soundList)|
    ensures |SoundEntries(defaultSound, selectedSound, soundList)| == CloudCount(soundList) + 26 + DefaultRows(defaultSound)
    ensures StableId(SoundEntries(defaultSound, selectedSound, soundList)[i])
         == IdAt(CloudCount(soundList), DefaultRows(defaultSound), i)
  {
    var es := SoundEntries(defaultSound, selectedSound, soundList);
    var n := CloudCount(soundList);
    var d := DefaultRows(defaultSound);
    var sounds := if soundList.Some? then soundList.value else [];
    var m := MiddleEntries(defaultSound, selectedSound);
    var modern := BundledEntries(ModernSection, ModernCount, selectedSound);
    var classic := BundledEntries(ClassicSection, ClassicCount, selectedSound);
    assert es == [CloudHeader] + CloudSoundEntries(sounds, selectedSound) + m + modern + [ClassicHeader] + classic;
    assert |m| == 4 + d;
    if i == 0 {
    } else if i < 1 + n {
      assert StableId(es[i]) == IdAt(n, d, i) by {
        assert es[i] == CloudSoundEntries(sounds, selectedSound)[i - 1];
      }
    } else if i < 1 + n + |m| {
      assert StableId(es[i]) == IdAt(n, d, i) by {
        assert es[i] == m[i - 1 - n];
      }
    } else if i < 1 + n + |m| + 12 {
      assert StableId(es[i]) == IdAt(n, d, i) by {
        assert es[i] == modern[i - 1 - n - |m|];
      }
    } else if i == 1 + n + |m| + 12 {
    } else {
      assert StableId(es[i]) == IdAt(n, d, i) by {
        assert es[i] == classic[i - 2 - n - |m| - 12];
      }
    }
  }

  /** No two rows share a stable id exactly when there are fewer than 995
      cloud tones: the 995th cloud tone would take 998, the upload row's id. */
  lemma StableIdsDistinct(defaultSound: Option<PeerMessageSound>, selectedSound: PeerMessageSound,
                          soundList: Option<seq<CloudSound>>)
    ensures var es := SoundEntries(defaultSound, selectedSound, soundList);
      (forall i, j :: 0 <= i < j < |es| ==> StableId(es[i]) != StableId(es[j])) <==> CloudCount(soundList) < 995
  {
    var es := SoundEntries(defaultSound, selectedSound, soundList);
    var n := CloudCount(soundList);
    StableIdIs(defaultSound, selectedSound, soundList, 0);
    if n < 995 {
      forall i, j | 0 <= i < j < |es|
        ensures StableId(es[i]) != StableId(es[j])
      {
        StableIdIs(defaultSound, selectedSound, soundList, i);
        StableIdIs(defaultSound, selectedSound, soundList, j);
      }
    } else {
      StableIdIs(defaultSound, selectedSound, soundList, 995);
      StableIdIs(defaultSound, selectedSound, soundList, n + 1);
      assert StableId(es[995]) == StableId(es[n + 1]);
    }
  }

  /** The rows are in `<` order exactly when there is no default row and
      fewer than 995 cloud tones: the default row (1002) is listed before
      the none row (1001). */
  lemma EntriesInOrder(defaultSound: Option<PeerMessageSound>, selectedSound: PeerMessageSound,
                       soundList: Option<seq<CloudSound>>)
    ensures var es := SoundEntries(defaultSound, selectedSound, soundList);
      (forall i :: 0 <= i < |es| - 1 ==> Less(es[i], es[i + 1])) <==> defaultSound.None? && CloudCount(soundList) < 995
  {
    var es := SoundEntries(defaultSound, selectedSound, soundList);
    var n := CloudCount(soundList);
    StableIdIs(defaultSound, selectedSound, soundList, 0);
    if defaultSound.None? && n < 995 {
      forall i | 0 <= i < |es| - 1
        ensures Less(es[i], es[i + 1])
      {
        StableIdIs(defaultSound, selectedSound, soundList, i);
        StableIdIs(defaultSound, selectedSound, soundList, i + 1);
      }
    } else if defaultSound.Some? {
      StableIdIs(defaultSound, selectedSound, soundList, n + 4);
      StableIdIs(defaultSound, selectedSound, soundList, n + 5);
      assert !Less(es[n + 4], es[n + 5]);
    } else {
      StableIdIs(defaultSound, selectedSound, soundList, n);
      StableIdIs(defaultSound, selectedSound, soundList, n + 1);
      assert !Less(es[n], es[n + 1]);
    }
  }

  // ---- File names -------------------------------------------------------

  const Int32Max: int := 0x7fff_ffff

  /** Swift's `id + 100` and `id + 2` on Int32 trap on overflow; the ids a
      tone can carry are the ones that do not overflow. */
  /** The number the default tone plays from. */
  const DefaultToneNumber: int := 100

  predicate NameDoesNotOverflow(sound: PeerMessageSound)
  {
    && (sound.BundledModern? ==> sound.id + 100 <= Int32Max)
    && (sound.BundledClassic? ==> sound.id + 2 <= Int32Max)
  }

  /** A cloud tone with that file id whose download has completed. */
  predicate CompletedMatch(sound: CloudSound, fileId: int)
  {
    sound.fileId == fileId && sound.completedPath.Some?
  }

  /** The path of the first cloud tone with that file id whose download has
      completed; "" when there is none. */
  function CloudPath(sounds: seq<CloudSound>, fileId: int): (r: string)
    ensures r != "" ==> exists k :: 0 <= k < |sounds| && sounds[k].fileId == fileId && sounds[k].completedPath == Some(r)
    ensures (forall k :: 0 <= k < |sounds| ==> sounds[k].fileId != fileId) ==> r == ""
    // the first completed match is the one whose path is returned
    ensures forall k ::
      (0 <= k < |sounds| && CompletedMatch(sounds[k], fileId) && forall j :: 0 <= j < k ==> !CompletedMatch(sounds[j], fileId))
      ==> r == sounds[k].completedPath.value
    // matches still downloading are skipped
    ensures (forall k :: 0 <= k < |sounds| ==> !CompletedMatch(sounds[k], fileId)) ==> r == ""
  {
    if sounds == [] then ""
    else if sounds[0].fileId == fileId && sounds[0].completedPath.Some? then sounds[0].completedPath.value
    else
      var r := CloudPath(sounds[1..], fileId);
      assert forall k :: 0 <= k < |sounds| - 1 ==> sounds[1..][k] == sounds[k + 1];
      r
  }

  /** fileNameForNotificationSound. */
  function FileName(soundList: Option<seq<CloudSound>>, sound: PeerMessageSound, defaultSound: Option<PeerMessageSound>): (r: string)
    requires NameDoesNotOverflow(sound)
    requires defaultSound.Some? ==> NameDoesNotOverflow(defaultSound.value)
    ensures sound == NoSound ==> r == ""
    ensures sound.BundledModern? ==> ParseDecimal(r) == sound.id + 100
    ensures sound.BundledClassic? ==> ParseDecimal(r) == sound.id + 2
    ensures sound == DefaultSound && (defaultSound.None? || defaultSound == Some(DefaultSound)) ==> r == "100"
    ensures sound.Cloud? && soundList.None? ==> r == ""
    ensures sound.Cloud? && soundList.Some? ==> r == CloudPath(soundList.value, sound.fileId)
    ensures sound == DefaultSound && defaultSound.Some? && defaultSound.value.BundledModern? ==>
      ParseDecimal(r) == defaultSound.value.id + 100
    ensures sound == DefaultSound && defaultSound.Some? && defaultSound.value.BundledClassic? ==>
      ParseDecimal(r) == defaultSound.value.id + 2
    decreases if defaultSound.Some? then 1 else 0
  {
    match sound
    case NoSound => ""
    case DefaultSound =>
      if defaultSound.Some? then
        if defaultSound.value == DefaultSound then Decimal(DefaultToneNumber)
        else FileName(soundList, defaultSound.value, None)
      else Decimal(DefaultToneNumber)
    case BundledModern(id) => DecimalRoundTrip(id + 100); Decimal(id + 100)
    case BundledClassic(id) => DecimalRoundTrip(id + 2); Decimal(id + 2)
    case Cloud(fileId) =>
      if soundList.None? then "" else CloudPath(soundList.value, fileId)
  }

  /** The method as the source runs it: a scan over the cloud list for the tone. */
  method FileNameForNotificationSound(soundList: Option<seq<CloudSound>>, sound: PeerMessageSound,
                                      defaultSound: Option<PeerMessageSound>) returns (name: string)
    requires NameDoesNotOverflow(sound)
    requires defaultSound.Some? ==> NameDoesNotOverflow(defaultSound.value)
    ensures name == FileName(soundList, sound, defaultSound)
    decreases if defaultSound.Some? then 1 else 0
  {
    match sound
    case NoSound => name := "";
    case DefaultSound =>
      if defaultSound.Some? {
        if defaultSound.value == DefaultSound {
          name := Decimal(DefaultToneNumber);
        } else {
          name := FileNameForNotificationSound(soundList, defaultSound.value, None);
          assert name == FileName(soundList, defaultSound.value, None);
        }
      } else {
        name := Decimal(DefaultToneNumber);
      }
    case BundledModern(id) => name := Decimal(id + 100);
    case BundledClassic(id) => name := Decimal(id + 2);
    case Cloud(fileId) =>
      if soundList.None? {
        name := "";
      } else {
        name := ScanCloudPath(soundList.value, fileId);
        assert name == CloudPath(soundList.value, fileId);
      }
  }

  method ScanCloudPath(sounds: seq<CloudSound>, fileId: int) returns (path: string)
    ensures path == CloudPath(sounds, fileId)
  {
    for k := 0 to |sounds|
      invariant CloudPath(sounds[k..], fileId) == CloudPath(sounds, fileId)
    {
      assert sounds[k..][1..] == sounds[k + 1..];
      if sounds[k].fileId == fileId {
        if sounds[k].completedPath.Some? {
          return sounds[k].completedPath.value;
        }
      }
    }
    path := "";
  }

  // ---- Upload guard -------------------------------------------------------

  const MaxUploadSize: nat := 200 * 1024
  const MaxUploadDuration: real := 5.0

  datatype UploadDecision = TooLarge | TooLong | Upload

  /** A picked file is refused when larger than 200 KB, then when longer
      than five seconds; otherwise it is uploaded. */
  function CheckUpload(size: nat, duration: real): (r: UploadDecision)
    ensures r == Upload <==> size <= 204800 && duration <= 5.0
    ensures r == TooLarge <==> size > 204800
  {
    if size > MaxUploadSize then TooLarge
    else if duration > MaxUploadDuration then TooLong
    else Upload
  }

  // ---- The picker's state -------------------------------------------------

  class SoundPicker {
    const defaultSound: Option<PeerMessageSound>
    var selectedSound: PeerMessageSound
    /** The tones played, in order; `NoSound` plays nothing. */
    var played: seq<PeerMessageSound>
    /** What the completion handler received, once Done was pressed. */
    var completed: Option<PeerMessageSound>
    var dismissed: bool

    constructor(currentSound: PeerMessageSound, defaultSound: Option<PeerMessageSound>)
      ensures selectedSound == currentSound && this.defaultSound == defaultSound
      ensures played == [] && completed.None? && !dismissed
    {
      this.defaultSound := defaultSound;
      selectedSound := currentSound;
      played := [];
      completed := None;
      dismissed := false;
    }

    /** The rows the list shows for the current state. */
    method Entries(soundList: Option<seq<CloudSound>>) returns (entries: seq<Entry>)
      ensures entries == SoundEntries(defaultSound, selectedSound, soundList)
    {
      entries := NotificationsAndSoundsEntries(defaultSound, selectedSound, soundList);
    }

    /** selectSound: the state becomes exactly the tapped tone, which is
        played unless it is `NoSound`. */
    method SelectSound(sound: PeerMessageSound)
      modifies this`selectedSound, this`played
      ensures selectedSound == sound
      ensures played == old(played) + (if sound == NoSound then [] else [sound])
    {
      selectedSound := sound;
      if sound != NoSound {
        played := played + [sound];
      }
    }

    /** completeImpl: reports the selected tone and closes the picker. */
    method Complete()
      modifies this`completed, this`dismissed
      ensures completed == Some(selectedSound) && dismissed
    {
      completed := Some(selectedSound);
      dismissed := true;
    }

    /** cancelImpl: closes the picker without reporting. */
    method Cancel()
      modifies this`dismissed
      ensures dismissed
    {
      dismissed := true;
    }
  }

  /** After selecting a tone, exactly the rows for that tone are checked. */
  lemma SelectedRowChecked(defaultSound: Option<PeerMessageSound>, sound: PeerMessageSound,
                           soundList: Option<seq<CloudSound>>)
    ensures var es := SoundEntries(defaultSound, sound, soundList);
      forall i :: 0 <= i < |es| ==> (IsChecked(es[i]) <==> EntrySound(es[i]) == Some(sound))
  {
    var es := SoundEntries(defaultSound, sound, soundList);
    forall i | 0 <= i < |es|
      ensures IsChecked(es[i]) <==> EntrySound(es[i]) == Some(sound)
    {
      CheckedIffSelected(defaultSound, sound, soundList, i);
    }
  }
}
