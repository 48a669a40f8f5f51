/** The Privacy and Security settings screen: its twelve rows in three
    sections, the label that summarises a selective privacy setting, the
    account self-destruction timeout row, and the controller state that
    tracks a timeout change in flight. Themes and localized titles are not
    part of this model; a row's value label is kept symbolic. */
module PrivacyAndSecurity {
  import opened Common

  type PeerId = int

  const Int32Max: int := 0x7fff_ffff

  datatype Section = PrivacySection | SecuritySection | AccountSection

  function SectionRaw(s: Section): int
  {
    match s
    case PrivacySection => 0
    case SecuritySection => 1
    case AccountSection => 2
  }

  /** SelectivePrivacySettings: who may see or do something, with the
      exceptions to the base rule. */
  datatype SelectivePrivacySettings =
    | DisableEveryone(enableFor: set<PeerId>)
    | EnableEveryone(disableFor: set<PeerId>)
    | EnableContacts(enableFor: set<PeerId>, disableFor: set<PeerId>)

  /** AccountPrivacySettings. */
  datatype AccountPrivacySettings = AccountPrivacySettings(
    presence: SelectivePrivacySettings,
    groupInvitations: SelectivePrivacySettings,
    voiceCalls: SelectivePrivacySettings,
    accountRemovalTimeout: int)

  /** The localized summaries of a selective setting; the arguments are the
      decimal counts the format strings receive. */
  datatype SelectiveText =
    | Nobody
    | NobodyPlus(plus: string)
    | Everybody
    | EverybodyMinus(minus: string)
    | Contacts
    | ContactsPlus(plus: string)
    | ContactsMinus(minus: string)
    | ContactsMinusPlus(plus: string, minus: string)

  /** A row's value label. */
  datatype Label =
    | Loading
    | Selective(text: SelectiveText)
    | TimeInterval(seconds: int)

  datatype Entry =
    | PrivacyHeader
    | BlockedPeers
    | LastSeenPrivacy(value: Label)
    | GroupPrivacy(value: Label)
    | VoiceCallPrivacy(value: Label)
    | SecurityHeader
    | Passcode
    | TwoStepVerification
    | ActiveSessions
    | AccountHeader
    | AccountTimeout(value: Label)
    | AccountInfo

  /** The section of a row: the first five rows are privacy, the next four
      security and the last three account. */
  function EntrySection(e: Entry): (r: int)
    ensures r == (if StableId(e) <= 4 then 0 else if StableId(e) <= 8 then 1 else 2)
  {
    match e
    case PrivacyHeader => SectionRaw(PrivacySection)
    case BlockedPeers => SectionRaw(PrivacySection)
    case LastSeenPrivacy(_) => SectionRaw(PrivacySection)
    case GroupPrivacy(_) => SectionRaw(PrivacySection)
    case VoiceCallPrivacy(_) => SectionRaw(PrivacySection)
    case SecurityHeader => SectionRaw(SecuritySection)
    case Passcode => SectionRaw(SecuritySection)
    case TwoStepVerification => SectionRaw(SecuritySection)
    case ActiveSessions => SectionRaw(SecuritySection)
    case AccountHeader => SectionRaw(AccountSection)
    case AccountTimeout(_) => SectionRaw(AccountSection)
    case AccountInfo => SectionRaw(AccountSection)
  }

  function StableId(e: Entry): (r: int)
    ensures 0 <= r <= 11
  {
    match e
    case PrivacyHeader => 0
    case BlockedPeers => 1
    case LastSeenPrivacy(_) => 2
    case GroupPrivacy(_) => 3
    case VoiceCallPrivacy(_) => 4
    case SecurityHeader => 5
    case Passcode => 6
    case TwoStepVerification => 7
    case ActiveSessions => 8
    case AccountHeader => 9
    case AccountTimeout(_) => 10
    case AccountInfo => 11
  }

  /** `<` compares stable ids. */
  predicate Less(a: Entry, b: Entry)
  {
    StableId(a) < StableId(b)
  }

  /** Two rows with the same stable id are the same kind of row: the id
      identifies the row and only its value label can differ. */
  lemma StableIdIdentifiesRow(a: Entry, b: Entry)
    requires StableId(a) == StableId(b)
    ensures a.LastSeenPrivacy? ==> b.LastSeenPrivacy?
    ensures a.GroupPrivacy? ==> b.GroupPrivacy?
    ensures a.VoiceCallPrivacy? ==> b.VoiceCallPrivacy?
    ensures a.AccountTimeout? ==> b.AccountTimeout?
    ensures a.LastSeenPrivacy? || a.GroupPrivacy? || a.VoiceCallPrivacy? || a.AccountTimeout? || a == b
  {
    match a
    case PrivacyHeader =>
    case BlockedPeers =>
    case LastSeenPrivacy(_) =>
    case GroupPrivacy(_) =>
    case VoiceCallPrivacy(_) =>
    case SecurityHeader =>
    case Passcode =>
    case TwoStepVerification =>
    case ActiveSessions =>
    case AccountHeader =>
    case AccountTimeout(_) =>
    case AccountInfo =>
  }

  // ---- Selective labels -------------------------------------------------

  /** The number of exceptions that allow, and that deny, under a setting. */
  function Exceptions(s: SelectivePrivacySettings): (int, int)
  {
    match s
    case DisableEveryone(enableFor) => (|enableFor|, 0)
    case EnableEveryone(disableFor) => (0, |disableFor|)
    case EnableContacts(enableFor, disableFor) => (|enableFor|, |disableFor|)
  }

  /** The exception counts a reader gets back from a label. */
  function ReadExceptions(t: SelectiveText): (int, int)
  {
    match t
    case Nobody => (0, 0)
    case NobodyPlus(plus) => (ParseDecimal(plus), 0)
    case Everybody => (0, 0)
    case EverybodyMinus(minus) => (0, ParseDecimal(minus))
    case Contacts => (0, 0)
    case ContactsPlus(plus) => (ParseDecimal(plus), 0)
    case ContactsMinus(minus) => (0, ParseDecimal(minus))
    case ContactsMinusPlus(plus, minus) => (ParseDecimal(plus), ParseDecimal(minus))
  }

  /** The base rule a label names. */
  function BaseOf(t: SelectiveText): int
  {
    match t
    case Nobody => 0
    case NobodyPlus(_) => 0
    case Everybody => 1
    case EverybodyMinus(_) => 1
    case _ => 2
  }

  function BaseOfSettings(s: SelectivePrivacySettings): int
  {
    match s
    case DisableEveryone(_) => 0
    case EnableEveryone(_) => 1
    case EnableContacts(_, _) => 2
  }

  /** stringForSelectiveSettings as written: the "contacts except N" label
      formats the count of the allowed exceptions, which is empty there. */
  function SelectiveLabelAsWritten(s: SelectivePrivacySettings): (r: SelectiveText)
    // it differs from the intended label only for contacts minus some peers, shown as minus none
    ensures !(s.EnableContacts? && s.enableFor == {} && s.disableFor != {}) ==> r == SelectiveLabel(s)
    ensures s.EnableContacts? && s.enableFor == {} && s.disableFor != {} ==>
      r == ContactsMinus(Decimal(0)) && r != SelectiveLabel(s)
  {
    match s
    case DisableEveryone(enableFor) =>
      if enableFor == {} then Nobody else NobodyPlus(Decimal(|enableFor|))
    case EnableEveryone(disableFor) =>
      if disableFor == {} then Everybody else EverybodyMinus(Decimal(|disableFor|))
    case EnableContacts(enableFor, disableFor) =>
      if enableFor != {} && disableFor != {} then ContactsMinusPlus(Decimal(|enableFor|), Decimal(|disableFor|))
      else if enableFor != {} then ContactsPlus(Decimal(|enableFor|))
      else if disableFor != {} then ContactsMinus(Decimal(|enableFor|))
      else Contacts
  }

  /** As written, a contacts-only setting with one denied peer is summarised
      as denying none. */
  lemma ContactsMinusShowsZero()
    ensures SelectiveLabelAsWritten(EnableContacts({}, {1})) == ContactsMinus("0")
    ensures ReadExceptions(SelectiveLabelAsWritten(EnableContacts({}, {1}))) != Exceptions(EnableContacts({}, {1}))
  {
    assert |{1}| == 1;
    assert Decimal(0) == "0";
    assert ParseDecimal("0") == 0;
  }

  /** stringForSelectiveSettings with the "contacts except N" label counting
      the denied peers. The label keeps the base rule, and names an
      exception list exactly when that list is non-empty. */
  function SelectiveLabel(s: SelectivePrivacySettings): (r: SelectiveText)
    ensures BaseOf(r) == BaseOfSettings(s)
    ensures (r.NobodyPlus? || r.ContactsPlus? || r.ContactsMinusPlus?) <==> Exceptions(s).0 > 0
    ensures (r.EverybodyMinus? || r.ContactsMinus? || r.ContactsMinusPlus?) <==> Exceptions(s).1 > 0
  {
    match s
    case DisableEveryone(enableFor) =>
      if enableFor == {} then Nobody else NobodyPlus(Decimal(|enableFor|))
    case EnableEveryone(disableFor) =>
      if disableFor == {} then Everybody else EverybodyMinus(Decimal(|disableFor|))
    case EnableContacts(enableFor, disableFor) =>
      if enableFor != {} && disableFor != {} then ContactsMinusPlus(Decimal(|enableFor|), Decimal(|disableFor|))
      else if enableFor != {} then ContactsPlus(Decimal(|enableFor|))
      else if disableFor != {} then ContactsMinus(Decimal(|disableFor|))
      else Contacts
  }

  /** The label reads back as the setting's base rule and exception counts. */
  lemma SelectiveLabelReadsBack(s: SelectivePrivacySettings)
    ensures ReadExceptions(SelectiveLabel(s)) == Exceptions(s)
    ensures BaseOf(SelectiveLabel(s)) == BaseOfSettings(s)
  {
    match s
    case DisableEveryone(enableFor) =>
      DecimalRoundTrip(|enableFor|);
    case EnableEveryone(disableFor) =>
      DecimalRoundTrip(|disableFor|);
    case EnableContacts(enableFor, disableFor) =>
      DecimalRoundTrip(|enableFor|);
      DecimalRoundTrip(|disableFor|);
  }

  /** The two definitions differ only on the "contacts except N" case. */
  lemma AsWrittenDiffersOnlyOnContactsMinus(s: SelectivePrivacySettings)
    ensures SelectiveLabelAsWritten(s) != SelectiveLabel(s) <==>
      s.EnableContacts? && s.enableFor == {} && s.disableFor != {}
  {
    if s.EnableContacts? && s.enableFor == {} && s.disableFor != {} {
      assert Decimal(|s.enableFor|) == "0";
      assert Decimal(|s.disableFor|)[0] != '0';
    }
  }

  // ---- The rows ---------------------------------------------------------

  /** PrivacyAndSecurityControllerState: only the timeout being applied. */
  datatype ControllerState = ControllerState(updatingAccountTimeoutValue: Option<int>)

  function InitialState(): ControllerState
  {
    ControllerState(None)
  }

  function WithUpdatedUpdatingAccountTimeoutValue(s: ControllerState, value: Option<int>): (r: ControllerState)
    ensures r.updatingAccountTimeoutValue == value
  {
    ControllerState(value)
  }

  /** Which selective setting a row shows and a sub-screen edits. */
  datatype SettingKind = Presence | GroupInvitations | VoiceCalls

  function Pick(v: AccountPrivacySettings, kind: SettingKind): SelectivePrivacySettings
  {
    match kind
    case Presence => v.presence
    case GroupInvitations => v.groupInvitations
    case VoiceCalls => v.voiceCalls
  }

  function SettingLabel(settings: Option<AccountPrivacySettings>, kind: SettingKind): Label
  {
    if settings.Some? then Selective(SelectiveLabel(Pick(settings.value, kind))) else Loading
  }

  /** The timeout row's label: the timeout being applied when there is one,
      otherwise the stored one; loading while the settings are unknown. */
  function TimeoutLabel(state: ControllerState, settings: Option<AccountPrivacySettings>): Label
  {
    if settings.None? then Loading
    else if state.updatingAccountTimeoutValue.Some? then TimeInterval(state.updatingAccountTimeoutValue.value)
    else TimeInterval(settings.value.accountRemovalTimeout)
  }

  /** privacyAndSecurityControllerEntries. */
  function Entries(state: ControllerState, settings: Option<AccountPrivacySettings>): (r: seq<Entry>)
    ensures |r| == 12 && forall i :: 0 <= i < |r| ==> StableId(r[i]) == i
  {
    [ PrivacyHeader,
      BlockedPeers,
      LastSeenPrivacy(SettingLabel(settings, Presence)),
      GroupPrivacy(SettingLabel(settings, GroupInvitations)),
      VoiceCallPrivacy(SettingLabel(settings, VoiceCalls)),
      SecurityHeader,
      Passcode,
      TwoStepVerification,
      ActiveSessions,
      AccountHeader,
      AccountTimeout(TimeoutLabel(state, settings)),
      AccountInfo ]
  }

  /** Always twelve rows, each at the position its stable id names, so the
      list is in strictly increasing `<` order; rows 0-4 are privacy, 5-8
      security and 9-11 account. */
  lemma EntriesOrdered(state: ControllerState, settings: Option<AccountPrivacySettings>)
    ensures var es := Entries(state, settings);
      && |es| == 12
      && (forall i :: 0 <= i < 12 ==> StableId(es[i]) == i)
      && (forall i, j :: 0 <= i < j < 12 ==> Less(es[i], es[j]))
      && (forall i :: 0 <= i < 12 ==> EntrySection(es[i]) == (if i <= 4 then 0 else if i <= 8 then 1 else 2))
  {
    var es := Entries(state, settings);
    assert forall i :: 0 <= i < 12 ==> StableId(es[i]) == i;
  }

  /** The value of the row at a position, if the row has one. */
  function ValueAt(es: seq<Entry>, i: nat): Option<Label>
    requires i < |es|
  {
    match es[i]
    case LastSeenPrivacy(v) => Some(v)
    case GroupPrivacy(v) => Some(v)
    case VoiceCallPrivacy(v) => Some(v)
    case AccountTimeout(v) => Some(v)
    case _ => None
  }

  /** Every value label reads "loading" exactly while the settings are
      unknown. */
  lemma LoadingIffNoSettings(state: ControllerState, settings: Option<AccountPrivacySettings>)
    ensures var es := Entries(state, settings);
      forall i :: 0 <= i < |es| && ValueAt(es, i).Some? ==> (ValueAt(es, i) == Some(Loading) <==> settings.None?)
  {
  }

  /** With settings known, the timeout row shows the value being applied in
      preference to the stored one. */
  lemma TimeoutRowPrefersUpdating(state: ControllerState, settings: AccountPrivacySettings)
    ensures Entries(state, Some(settings))[10]
         == AccountTimeout(TimeInterval(
              if state.updatingAccountTimeoutValue.Some? then state.updatingAccountTimeoutValue.value
              else settings.accountRemovalTimeout))
  {
  }

  /** The right navigation button shows activity while the settings are
      unknown or a timeout change is in flight. */
  function ShowsActivity(state: ControllerState, settings: Option<AccountPrivacySettings>): bool
  {
    settings.None? || state.updatingAccountTimeoutValue.Some?
  }

  // ---- Changing settings ----------------------------------------------

  /** The four timeouts offered: 1, 3, 6 and 12 months of 30 days, in
      seconds; all fit a 32-bit signed integer. */
  function TimeoutChoices(): (r: seq<int>)
    ensures |r| == 4
    ensures forall i :: 0 <= i < 4 ==> 0 < r[i] <= Int32Max && r[i] % (30 * 24 * 60 * 60) == 0
    ensures forall i, j :: 0 <= i < j < 4 ==> r[i] < r[j]
  {
    [ 1 * 30 * 24 * 60 * 60,
      3 * 30 * 24 * 60 * 60,
      6 * 30 * 24 * 60 * 60,
      12 * 30 * 24 * 60 * 60 ]
  }

  /** The screen's observable inputs: the controller state and the account
      settings last delivered. */
  datatype Screen = Screen(state: ControllerState, settings: Option<AccountPrivacySettings>)

  /** Picking a timeout: the choice is recorded as being applied. The
      picker only opens once the settings are known. */
  function ChooseTimeout(s: Screen, timeout: int): (r: Screen)
    ensures s.settings.None? ==> r == s
    ensures s.settings.Some? ==> r.settings == s.settings && r.state.updatingAccountTimeoutValue == Some(timeout)
  {
    if s.settings.None? then s
    else Screen(WithUpdatedUpdatingAccountTimeoutValue(s.state, Some(timeout)), s.settings)
  }

  /** The server accepted the timeout: the stored settings take it and the
      in-flight value is cleared. */
  function TimeoutApplied(s: Screen, timeout: int): (r: Screen)
    ensures r.state == InitialState()
    ensures s.settings.Some? ==> r.settings.Some? && r.settings.value.accountRemovalTimeout == timeout
    ensures s.settings.None? ==> r.settings.None?
  {
    var settings :=
      if s.settings.Some? then Some(s.settings.value.(accountRemovalTimeout := timeout)) else None;
    Screen(WithUpdatedUpdatingAccountTimeoutValue(s.state, None), settings)
  }

  /** While a chosen timeout is applied the row already shows it and the
      button shows activity; once applied, the row still shows it, the
      activity stops and only the timeout row differs from before. */
  lemma ChooseThenApply(s: Screen, timeout: int)
    requires s.settings.Some?
    ensures var pending := ChooseTimeout(s, timeout);
      && Entries(pending.state, pending.settings)[10] == AccountTimeout(TimeInterval(timeout))
      && ShowsActivity(pending.state, pending.settings)
    ensures var done := TimeoutApplied(ChooseTimeout(s, timeout), timeout);
      && Entries(done.state, done.settings)[10] == AccountTimeout(TimeInterval(timeout))
      && !ShowsActivity(done.state, done.settings)
      && forall i :: 0 <= i < 12 && i != 10 ==> Entries(done.state, done.settings)[i] == Entries(s.state, s.settings)[i]
  {
    var done := TimeoutApplied(ChooseTimeout(s, timeout), timeout);
    var before := Entries(s.state, s.settings);
    var after := Entries(done.state, done.settings);
    assert done.settings.value.presence == s.settings.value.presence;
    assert done.settings.value.groupInvitations == s.settings.value.groupInvitations;
    assert done.settings.value.voiceCalls == s.settings.value.voiceCalls;
    assert forall i :: 0 <= i < 12 && i != 10 ==> after[i] == before[i];
  }

  /** A sub-screen's edit replaces that one setting in the delivered
      settings; with no settings yet, nothing changes. */
  function SettingUpdated(settings: Option<AccountPrivacySettings>, kind: SettingKind, updated: SelectivePrivacySettings): (r: Option<AccountPrivacySettings>)
    ensures settings.None? <==> r.None?
    ensures settings.Some? ==> r.value.accountRemovalTimeout == settings.value.accountRemovalTimeout
  {
    if settings.None? then None
    else
      var v := settings.value;
      match kind
      case Presence => Some(v.(presence := updated))
      case GroupInvitations => Some(v.(groupInvitations := updated))
      case VoiceCalls => Some(v.(voiceCalls := updated))
  }

  function RowOf(kind: SettingKind): nat
  {
    match kind
    case Presence => 2
    case GroupInvitations => 3
    case VoiceCalls => 4
  }

  /** After an edit, the edited setting's row shows the new label and every
      other row is as before. */
  lemma SettingUpdatedChangesOneRow(state: ControllerState, settings: AccountPrivacySettings,
                                    kind: SettingKind, updated: SelectivePrivacySettings)
    ensures var before := Entries(state, Some(settings));
      var after := Entries(state, SettingUpdated(Some(settings), kind, updated));
      && ValueAt(after, RowOf(kind)) == Some(Selective(SelectiveLabel(updated)))
      && forall i :: 0 <= i < 12 && i != RowOf(kind) ==> after[i] == before[i]
  {
    var before := Entries(state, Some(settings));
    var after := Entries(state, SettingUpdated(Some(settings), kind, updated));
    assert forall i :: 0 <= i < 12 && i != RowOf(kind) ==> after[i] == before[i];
  }
}
