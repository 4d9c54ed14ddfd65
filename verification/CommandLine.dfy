/**
  The closed command grammar: one pass over the arguments that fills a slot per
  switch, then the fixed order of checks, then the command. Spellings of
  switches, commands and words are a parameter; everything else is the parser's own.
*/
module CommandLine {
  import opened Bytes

  datatype Kind =
    | Verify | List | Decrypt | Grant | Report | Export | RecoveryTest | Organization | Operator | Posture
    | Registry | ClockRelease | WriterTransition | ReaderKeyEscrow

  datatype Switch =
    | TrustAnchor | Format | Output | Key | RecoveryKey | AuthorityKey | Authorization | RecipientCert | KeyInventory
    | OperatorConfig | NetworkArchiveProfile | EffectiveFrom | ValidThrough | NotAfter | Request | TransitionObject
    | Release | IncludeRuntimeMetadata | EscrowInbox | EscrowOutbox | Bundle | BundleVersion
    | EffectiveFromRegistryVersion
    | ReportSigningKey | PostureTarget | PostureDocument | EvidenceReference | ValidForMs | InitialRegistryVersion
    | RecoveryMode
    | ArchiveProfile | SourceEnvelope | Snapshot | BackupPassphraseFile | RestoreDatabase | MediaSources
    | CompletedReport | ComponentExport

  /** The fixed words a positional or a value is compared with. */
  datatype Word =
    | Text | Json
    | Init | CertifyRoot | EscrowPublish | WebBundleRelease | WebBundleRevoke
    | Provision | VerifySession | Revoke | RegisterNetworkArchive
    | Target | Issue | Import
    | RevocationPlan | Apply | Prepare | Activate | Open | Pickup
    | Capture | RestoreRun | Status | FailureStatus

  /** A key source, as the recovery library reads it. */
  datatype KeySource = KeySource(spec: Bytes)

  datatype Shape = PathShape | NumberShape | KeyShape | FormatShape | FlagShape

  datatype Value =
    | PathValue(path: Bytes)
    | NumberValue(number: u64)
    | KeyValue(key: KeySource)
    | FormatValue(json: bool)
    | FlagValue

  const DASH: byte := 0x2d

  /** Read as a switch: the first byte decides. */
  predicate Dashed(token: Bytes) {
    token != [] && token[0] == DASH
  }

  /** The spellings, and the two formats the parser takes from elsewhere. */
  datatype Vocabulary = Vocabulary(
    switchName: Switch -> Bytes, switchOf: Bytes -> Option<Switch>,
    kindName: Kind -> Bytes, kindOf: Bytes -> Option<Kind>,
    wordName: Word -> Bytes, wordOf: Bytes -> Option<Word>,
    keyText: KeySource -> Bytes, keyOf: Bytes -> Option<KeySource>,
    samePath: (Bytes, Bytes) -> bool,
    isUtf8: Bytes -> bool)
  {
    /** Names are read back as what they name, switches begin with a dash and nothing else does. */
    ghost predicate Lawful() {
      && (forall s :: switchOf(switchName(s)) == Some(s) && Dashed(switchName(s)))
      && (forall b, s :: switchOf(b) == Some(s) ==> b == switchName(s))
      && (forall k :: kindOf(kindName(k)) == Some(k) && !Dashed(kindName(k)))
      && (forall w :: wordOf(wordName(w)) == Some(w) && !Dashed(wordName(w)))
      && (forall b, w :: wordOf(b) == Some(w) ==> b == wordName(w))
      && (forall b, k :: keyOf(b) == Some(k) ==> keyOf(keyText(k)) == Some(k) && !Dashed(keyText(k)))
      && (forall b :: samePath(b, b))
      && (forall w, x :: samePath(wordName(w), wordName(x)) ==> w == x)
    }

    predicate Says(token: Bytes, w: Word) {
      wordOf(token) == Some(w)
    }
  }

  datatype UsageError =
    | NoArguments
    | UnknownSwitch(token: Bytes)
    | MissingValue(switch: Switch)
    | DuplicateSwitch(switch: Switch)
    | UnknownFormat(token: Bytes)
    | UnknownNumber(switch: Switch)
    | UnknownCommand(token: Bytes)
    | MissingCommand
    | MissingTrustAnchor
    | MissingPositional(kind: Kind)
    | SurplusPositional(kind: Kind)
    | MissingSwitch(switch: Switch, kind: Kind)
    | UnknownSubcommand(kind: Kind, token: Bytes)
    | SwitchNotAllowed(switch: Switch, kind: Kind)
    | BadKeySource(switch: Switch)

  // ------------------------------------------------------------------- numbers

  /** Decimal digits with an optional plus sign, within 64 bits. */
  function DigitsValue(text: Bytes): Option<nat> {
    if text == [] then Some(0)
    else
      var n := |text| - 1;
      var before := DigitsValue(text[..n]);
      if before.None? || text[n] < 0x30 || text[n] > 0x39 then None else Some(10 * before.value + text[n] - 0x30)
  }

  function ReadNumber(text: Bytes): Option<u64> {
    var digits := if text != [] && text[0] == 0x2b then text[1..] else text;
    var n := DigitsValue(digits);
    if digits == [] || n.None? || n.value > U64_MAX then None else Some(n.value)
  }

  function ShowNumber(n: nat): (r: Bytes)
    ensures r != []
  {
    if n < 10 then [0x30 + n] else ShowNumber(n / 10) + [0x30 + n % 10]
  }

  lemma {:induction false} ShownDigits(n: nat)
    ensures DigitsValue(ShowNumber(n)) == Some(n)
    ensures 0x30 <= ShowNumber(n)[0] <= 0x39
  {
    if n < 10 {
      assert ShowNumber(n)[..0] == [];
    } else {
      ShownDigits(n / 10);
      var r := ShowNumber(n);
      assert r[..|r| - 1] == ShowNumber(n / 10);
      assert r[0] == ShowNumber(n / 10)[0];
    }
  }

  lemma NumberRoundTrip(n: u64)
    ensures ReadNumber(ShowNumber(n)) == Some(n) && !Dashed(ShowNumber(n))
  {
    ShownDigits(n);
  }

  // ---------------------------------------------------------------- the one pass

  function ShapeOf(s: Switch): Shape {
    match s
    case Format => FormatShape
    case IncludeRuntimeMetadata => FlagShape
    case Key => KeyShape
    case RecoveryKey => KeyShape
    case AuthorityKey => KeyShape
    case EffectiveFrom => NumberShape
    case ValidThrough => NumberShape
    case NotAfter => NumberShape
    case EffectiveFromRegistryVersion => NumberShape
    case ValidForMs => NumberShape
    case InitialRegistryVersion => NumberShape
    case _ => PathShape
  }

  function ReadValue(v: Vocabulary, s: Switch, token: Bytes): Result<Value, UsageError> {
    match ShapeOf(s)
    case PathShape => Ok(PathValue(token))
    case NumberShape => (match ReadNumber(token) case None => Err(UnknownNumber(s)) case Some(n) => Ok(NumberValue(n)))
    case KeyShape => (match v.keyOf(token) case None => Err(BadKeySource(s)) case Some(k) => Ok(KeyValue(k)))
    case FormatShape =>
      if v.Says(token, Text) then Ok(FormatValue(false))
      else if v.Says(token, Json) then Ok(FormatValue(true))
      else Err(UnknownFormat(token))
    case FlagShape => Ok(FlagValue)
  }

  type Slots = map<Switch, Value>

  datatype Scanned = Scanned(slots: Slots, kind: Option<Kind>, positionals: seq<Bytes>)

  /** One argument, and its value if it takes one: the new state and how many arguments were used. */
  function ScanOne(v: Vocabulary, st: Scanned, tokens: seq<Bytes>): (r: Result<(Scanned, nat), UsageError>)
    requires tokens != []
    ensures r.Ok? ==> 1 <= r.value.1 <= |tokens|
  {
    var t := tokens[0];
    if Dashed(t) then
      match v.switchOf(t)
      case None => Err(UnknownSwitch(t))
      case Some(s) =>
        if s in st.slots then Err(DuplicateSwitch(s))
        else if ShapeOf(s) == FlagShape then Ok((st.(slots := st.slots[s := FlagValue]), 1))
        else if |tokens| < 2 || Dashed(tokens[1]) then Err(MissingValue(s))
        else
          var value :- ReadValue(v, s, tokens[1]);
          Ok((st.(slots := st.slots[s := value]), 2))
    else if st.kind.None? then
      match v.kindOf(t)
      case None => Err(UnknownCommand(t))
      case Some(k) => Ok((st.(kind := Some(k)), 1))
    else Ok((st.(positionals := st.positionals + [t]), 1))
  }

  function Scan(v: Vocabulary, st: Scanned, tokens: seq<Bytes>): Result<Scanned, UsageError>
    decreases |tokens|
  {
    if tokens == [] then Ok(st)
    else
      match ScanOne(v, st, tokens)
      case Err(e) => Err(e)
      case Ok((next, used)) => Scan(v, next, tokens[used..])
  }

  const NOTHING_SCANNED := Scanned(map[], None, [])

  // ------------------------------------------------------------- the command itself

  datatype RecoveryAction =
    | CaptureAction(snapshot: Bytes, passphrase: Bytes)
    | RestoreAction(source: Bytes, snapshot: Bytes, passphrase: Bytes, restore: Bytes, media: Bytes)
    | ImportAction(source: Bytes, report: Bytes)
    | StatusAction
    | FailureAction(restore: Bytes)

  datatype RecoveryRuntime = RecoveryRuntime(config: Bytes, profile: Bytes, componentExport: Option<Bytes>,
    action: RecoveryAction)

  datatype PostureAction =
    | TargetAction(output: Bytes)
    | IssueAction(target: Bytes, evidence: Bytes, lifetimeMs: u64, output: Bytes)
    | PostureImport(document: Bytes)

  datatype Command =
    | VerifyCommand(archive: Bytes)
    | ListCommand(archive: Bytes)
    | DecryptCommand(archive: Bytes, key: KeySource, output: Bytes)
    | GrantCommand(archive: Bytes, recoveryKey: KeySource, authorityKey: KeySource, authorization: Bytes,
      recipient: Bytes,
                   grantConfig: Option<Bytes>, grantOutput: Option<Bytes>)
    | ReportCommand(archive: Bytes, output: Bytes)
    | ExportCommand(archive: Bytes, output: Bytes)
    | RecoveryTestCommand(runtime: Option<RecoveryRuntime>, archive: Bytes, keyInventory: Bytes, output: Bytes)
    | OrganizationInit
    | OrganizationCertifyRoot(version: u64)
    | OrganizationEscrowPublish(config: Bytes, inbox: Bytes)
    | OrganizationBundleRelease(config: Bytes, bundle: Bytes, bundleVersion: Bytes, effectiveVersion: Option<u64>)
    | OrganizationBundleRevoke(config: Bytes, release: Bytes, effectiveVersion: Option<u64>)
    | OperatorCommand(action: Word, config: Bytes, archiveProfile: Option<Bytes>)
    | PostureCommand(posture: PostureAction, config: Bytes)
    | RevocationPlanCommand(config: Bytes, effectiveFrom: u64, validThrough: u64, notAfter: u64)
    | ClockReleaseApply(config: Bytes, release: Bytes)
    | EscrowOpen(config: Bytes, recoveryKey: KeySource, authorization: Bytes, inbox: Bytes, outbox: Bytes)
    | EscrowPickup(config: Bytes, authorization: Bytes, inbox: Bytes, outbox: Bytes)
    | TransitionPrepare(config: Bytes, request: Bytes)
    | TransitionActivate(config: Bytes, request: Bytes, held: Bytes, validThrough: u64, notAfter: u64)

  datatype Invocation = Invocation(anchor: Bytes, json: bool, runtimeMetadata: bool, reportSigningKey: Option<Bytes>,
    command: Command)

  function PathAt(m: Slots, s: Switch): Option<Bytes> {
    if s in m && m[s].PathValue? then Some(m[s].path) else None
  }

  function NumberAt(m: Slots, s: Switch): Option<u64> {
    if s in m && m[s].NumberValue? then Some(m[s].number) else None
  }

  function KeyAt(m: Slots, s: Switch): Option<KeySource> {
    if s in m && m[s].KeyValue? then Some(m[s].key) else None
  }

  function Needed<T>(o: Option<T>, s: Switch, k: Kind): Result<T, UsageError> {
    match o
    case None => Err(MissingSwitch(s, k))
    case Some(x) => Ok(x)
  }

  const I64_MAX: nat := 0x7fff_ffff_ffff_ffff

  function UnixMillis(n: u64): Result<u64, UsageError> {
    if n <= I64_MAX then Ok(n) else Err(UnknownNumber(NotAfter))
  }

  // ---------------------------------------------- step 4: switches of other commands

  /** The second level a switch may depend on: which organization subcommand stands first. */
  predicate IsOrganization(v: Vocabulary, st: Scanned, k: Kind, w: Word) {
    k == Organization && st.positionals != [] && v.samePath(st.positionals[0], v.wordName(w))
  }

  predicate Allowed(v: Vocabulary, st: Scanned, k: Kind, s: Switch) {
    match s
    case TrustAnchor => true
    case Format => true
    case PostureTarget => k == Posture
    case PostureDocument => k == Posture
    case EvidenceReference => k == Posture
    case ValidForMs => k == Posture
    case InitialRegistryVersion => k == Organization
    case Key => k == Decrypt
    case RecoveryKey => k == Grant || k == ReaderKeyEscrow
    case Authorization => k == Grant || k == ReaderKeyEscrow
    case AuthorityKey => k == Grant
    case RecipientCert => k == Grant
    case KeyInventory => k == RecoveryTest
    case Bundle => IsOrganization(v, st, k, WebBundleRelease)
    case BundleVersion => IsOrganization(v, st, k, WebBundleRelease)
    case EffectiveFromRegistryVersion => IsOrganization(v, st, k, WebBundleRelease)
         || IsOrganization(v, st, k, WebBundleRevoke)
    case OperatorConfig =>
      || IsOrganization(v, st, k, EscrowPublish) || IsOrganization(v, st, k, WebBundleRelease)
        || IsOrganization(v, st, k, WebBundleRevoke)
      || k == RecoveryTest || k == Grant || k == Posture || k == Operator || k == Registry || k == ClockRelease
      || k == WriterTransition || k == ReaderKeyEscrow
    case EscrowInbox => IsOrganization(v, st, k, EscrowPublish) || k == ReaderKeyEscrow
    case EscrowOutbox => k == ReaderKeyEscrow
    case NetworkArchiveProfile => k == Operator
    case Release => k == ClockRelease || IsOrganization(v, st, k, WebBundleRevoke)
    case Request => k == WriterTransition
    case TransitionObject => k == WriterTransition
    case EffectiveFrom => k == Registry
    case ValidThrough => k == Registry || k == WriterTransition
    case NotAfter => k == Registry || k == WriterTransition
    case Output => k == Decrypt || k == Grant || k == Report || k == Export || k == RecoveryTest || k == Posture
    case IncludeRuntimeMetadata => k == Report
    case ReportSigningKey => k == Report
    case _ => k == RecoveryTest
  }

  /** The order in which they are refused; the recovery switches are one entry in the source and share its name. */
  const CHECK_ORDER: seq<Switch> := [
    PostureTarget, PostureDocument, EvidenceReference, ValidForMs, InitialRegistryVersion, Key, RecoveryKey,
      Authorization,
    AuthorityKey, RecipientCert, KeyInventory,
    RecoveryMode, ArchiveProfile, SourceEnvelope, Snapshot, BackupPassphraseFile, RestoreDatabase, MediaSources,
      CompletedReport, ComponentExport,
    Bundle, BundleVersion, EffectiveFromRegistryVersion, OperatorConfig, EscrowInbox, EscrowOutbox,
      NetworkArchiveProfile,
    Release, Request, TransitionObject, EffectiveFrom, ValidThrough, NotAfter, Output, IncludeRuntimeMetadata,
      ReportSigningKey]

  predicate IsRecoveryPath(s: Switch) {
    s in {ArchiveProfile, SourceEnvelope, Snapshot, BackupPassphraseFile, RestoreDatabase, MediaSources,
      CompletedReport, ComponentExport}
  }

  function FirstRefused(v: Vocabulary, st: Scanned, k: Kind, order: seq<Switch>): Option<Switch> {
    if order == [] then None
    else if order[0] in st.slots && !Allowed(v, st, k, order[0]) then
      Some(if IsRecoveryPath(order[0]) then RecoveryMode else order[0])
    else FirstRefused(v, st, k, order[1..])
  }

  // --------------------------------------------------- step 6: what a command requires

  predicate HasRecoveryPath(m: Slots) {
    exists s <- m :: IsRecoveryPath(s)
  }

  /** The paths of a recovery mode are taken one by one; what is left over is refused. */
  function RecoveryRuntimeOf(v: Vocabulary, m: Slots): Result<Option<RecoveryRuntime>, UsageError> {
    match PathAt(m, RecoveryMode)
    case None => if OperatorConfig in m || HasRecoveryPath(m) then Err(MissingSwitch(RecoveryMode, RecoveryTest))
         else Ok(None)
    case Some(mode) =>
      var config :- Needed(PathAt(m, OperatorConfig), OperatorConfig, RecoveryTest);
      var profile :- Needed(PathAt(m, ArchiveProfile), ArchiveProfile, RecoveryTest);
      var action :- RecoveryActionOf(v, m, mode);
      match FirstLeft(m, RecoveryUses(action), RECOVERY_PATHS)
      case Some(s) => Err(SwitchNotAllowed(s, RecoveryTest))
      case None => Ok(Some(RecoveryRuntime(config, profile, PathAt(m, ComponentExport), action)))
  }

  function RestoreOf(m: Slots): Result<RecoveryAction, UsageError> {
    var source :- Needed(PathAt(m, SourceEnvelope), SourceEnvelope, RecoveryTest);
    var snapshot :- Needed(PathAt(m, Snapshot), Snapshot, RecoveryTest);
    var passphrase :- Needed(PathAt(m, BackupPassphraseFile), BackupPassphraseFile, RecoveryTest);
    var restore :- Needed(PathAt(m, RestoreDatabase), RestoreDatabase, RecoveryTest);
    var media :- Needed(PathAt(m, MediaSources), MediaSources, RecoveryTest);
    Ok(RestoreAction(source, snapshot, passphrase, restore, media))
  }

  function CaptureOf(m: Slots): Result<RecoveryAction, UsageError> {
    var snapshot :- Needed(PathAt(m, Snapshot), Snapshot, RecoveryTest);
    var passphrase :- Needed(PathAt(m, BackupPassphraseFile), BackupPassphraseFile, RecoveryTest);
    Ok(CaptureAction(snapshot, passphrase))
  }

  function ImportOf(m: Slots): Result<RecoveryAction, UsageError> {
    var source :- Needed(PathAt(m, SourceEnvelope), SourceEnvelope, RecoveryTest);
    var report :- Needed(PathAt(m, CompletedReport), CompletedReport, RecoveryTest);
    Ok(ImportAction(source, report))
  }

  function FailureOf(m: Slots): Result<RecoveryAction, UsageError> {
    var restore :- Needed(PathAt(m, RestoreDatabase), RestoreDatabase, RecoveryTest);
    Ok(FailureAction(restore))
  }

  function RecoveryActionOf(v: Vocabulary, m: Slots, mode: Bytes): Result<RecoveryAction, UsageError> {
    match v.wordOf(mode)
    case Some(Capture) => CaptureOf(m)
    case Some(RestoreRun) => RestoreOf(m)
    case Some(Import) => ImportOf(m)
    case Some(Status) => Ok(StatusAction)
    case Some(FailureStatus) => FailureOf(m)
    case _ => Err(UnknownSubcommand(RecoveryTest, mode))
  }

  function RecoveryUses(a: RecoveryAction): set<Switch> {
    match a
    case CaptureAction(_, _) => {Snapshot, BackupPassphraseFile}
    case RestoreAction(_, _, _, _, _) => {SourceEnvelope, Snapshot, BackupPassphraseFile, RestoreDatabase, MediaSources}
    case ImportAction(_, _) => {SourceEnvelope, CompletedReport}
    case StatusAction => {}
    case FailureAction(_) => {RestoreDatabase}
  }

  /** The recovery paths in the order of their names, which is the order a sorted map hands them out. */
  const RECOVERY_PATHS: seq<Switch> := [BackupPassphraseFile, CompletedReport, MediaSources, RestoreDatabase, Snapshot,
    SourceEnvelope]

  function FirstLeft(m: Slots, used: set<Switch>, order: seq<Switch>): Option<Switch> {
    if order == [] then None
    else if order[0] in m && order[0] !in used then Some(order[0])
    else FirstLeft(m, used, order[1..])
  }

  function PublishOf(m: Slots): Result<Command, UsageError> {
    var config :- Needed(PathAt(m, OperatorConfig), OperatorConfig, Organization);
    var inbox :- Needed(PathAt(m, EscrowInbox), EscrowInbox, Organization);
    Ok(OrganizationEscrowPublish(config, inbox))
  }

  function BundleReleaseOf(v: Vocabulary, m: Slots): Result<Command, UsageError> {
    var version :- Needed(PathAt(m, BundleVersion), BundleVersion, Organization);
    var config :- Needed(PathAt(m, OperatorConfig), OperatorConfig, Organization);
    var bundle :- Needed(PathAt(m, Bundle), Bundle, Organization);
    if !v.isUtf8(version) then Err(MissingValue(BundleVersion))
    else Ok(OrganizationBundleRelease(config, bundle, version, NumberAt(m, EffectiveFromRegistryVersion)))
  }

  function BundleRevokeOf(m: Slots): Result<Command, UsageError> {
    var config :- Needed(PathAt(m, OperatorConfig), OperatorConfig, Organization);
    var release :- Needed(PathAt(m, Release), Release, Organization);
    Ok(OrganizationBundleRevoke(config, release, NumberAt(m, EffectiveFromRegistryVersion)))
  }

  function OrganizationOf(v: Vocabulary, m: Slots, p: Bytes): Result<Command, UsageError> {
    var given := InitialRegistryVersion in m;
    var refused := Err(SwitchNotAllowed(InitialRegistryVersion, Organization));
    match v.wordOf(p)
    case Some(Init) => if given then refused else Ok(OrganizationInit)
    case Some(CertifyRoot) =>
      var version :- Needed(NumberAt(m, InitialRegistryVersion), InitialRegistryVersion, Organization);
      Ok(OrganizationCertifyRoot(version))
    case Some(EscrowPublish) => if given then refused else PublishOf(m)
    case Some(WebBundleRelease) => if given then refused else BundleReleaseOf(v, m)
    case Some(WebBundleRevoke) => if given then refused else BundleRevokeOf(m)
    case _ => Err(UnknownSubcommand(Organization, p))
  }

  function OperatorOf(v: Vocabulary, m: Slots, p: Bytes): Result<Command, UsageError> {
    match v.wordOf(p)
    case Some(w) =>
      if w !in {Provision, VerifySession, Revoke, RegisterNetworkArchive} then Err(UnknownSubcommand(Operator, p))
      else if NetworkArchiveProfile in m && w != RegisterNetworkArchive then
           Err(SwitchNotAllowed(NetworkArchiveProfile, Operator))
      else if NetworkArchiveProfile !in m && w == RegisterNetworkArchive then
           Err(MissingSwitch(NetworkArchiveProfile, Operator))
      else
        var config :- Needed(PathAt(m, OperatorConfig), OperatorConfig, Operator);
        Ok(OperatorCommand(w, config, PathAt(m, NetworkArchiveProfile)))
    case None => Err(UnknownSubcommand(Operator, p))
  }

  /** Which posture mode takes a switch of its own. */
  predicate PostureTakes(v: Vocabulary, p: Bytes, s: Switch) {
    match s
    case PostureDocument => v.Says(p, Import)
    case Output => v.Says(p, Target) || v.Says(p, Issue)
    case _ => v.Says(p, Issue)
  }

  const POSTURE_ORDER := [PostureTarget, PostureDocument, EvidenceReference, ValidForMs, Output]

  function FirstOfOtherMode(v: Vocabulary, m: Slots, p: Bytes, order: seq<Switch>): Option<Switch> {
    if order == [] then None
    else if order[0] in m && !PostureTakes(v, p, order[0]) then Some(order[0])
    else FirstOfOtherMode(v, m, p, order[1..])
  }

  function PostureActionOf(v: Vocabulary, m: Slots, p: Bytes): Result<PostureAction, UsageError> {
    match v.wordOf(p)
    case Some(Target) =>
      var output :- Needed(PathAt(m, Output), Output, Posture);
      Ok(TargetAction(output))
    case Some(Issue) =>
      var target :- Needed(PathAt(m, PostureTarget), PostureTarget, Posture);
      var evidence :- Needed(PathAt(m, EvidenceReference), EvidenceReference, Posture);
      var lifetime :- Needed(NumberAt(m, ValidForMs), ValidForMs, Posture);
      if lifetime < 1 || lifetime > 86_400_000 then Err(UnknownNumber(ValidForMs))
      else
        var output :- Needed(PathAt(m, Output), Output, Posture);
        Ok(IssueAction(target, evidence, lifetime, output))
    case Some(Import) =>
      var document :- Needed(PathAt(m, PostureDocument), PostureDocument, Posture);
      Ok(PostureImport(document))
    case _ => Err(UnknownSubcommand(Posture, p))
  }

  function PostureOf(v: Vocabulary, m: Slots, p: Bytes): Result<Command, UsageError> {
    var config :- Needed(PathAt(m, OperatorConfig), OperatorConfig, Posture);
    match FirstOfOtherMode(v, m, p, POSTURE_ORDER)
    case Some(s) => Err(SwitchNotAllowed(s, Posture))
    case None =>
      var action :- PostureActionOf(v, m, p);
      Ok(PostureCommand(action, config))
  }

  function RegistryOf(v: Vocabulary, m: Slots, p: Bytes): Result<Command, UsageError> {
    if !v.samePath(p, v.wordName(RevocationPlan)) then Err(UnknownSubcommand(Registry, p))
    else
      var config :- Needed(PathAt(m, OperatorConfig), OperatorConfig, Registry);
      var effective :- Needed(NumberAt(m, EffectiveFrom), EffectiveFrom, Registry);
      var through :- Needed(NumberAt(m, ValidThrough), ValidThrough, Registry);
      var notAfter :- Needed(NumberAt(m, NotAfter), NotAfter, Registry);
      var millis :- UnixMillis(notAfter);
      Ok(RevocationPlanCommand(config, effective, through, millis))
  }

  function EscrowOf(v: Vocabulary, m: Slots, p: Bytes): Result<Command, UsageError> {
    if !v.Says(p, Open) && !v.Says(p, Pickup) then Err(UnknownSubcommand(ReaderKeyEscrow, p))
    else if v.Says(p, Pickup) && RecoveryKey in m then Err(SwitchNotAllowed(RecoveryKey, ReaderKeyEscrow))
    else
      var config :- Needed(PathAt(m, OperatorConfig), OperatorConfig, ReaderKeyEscrow);
      if v.Says(p, Open) && KeyAt(m, RecoveryKey).None? then Err(MissingSwitch(RecoveryKey, ReaderKeyEscrow))
      else
        var authorization :- Needed(PathAt(m, Authorization), Authorization, ReaderKeyEscrow);
        var inbox :- Needed(PathAt(m, EscrowInbox), EscrowInbox, ReaderKeyEscrow);
        var outbox :- Needed(PathAt(m, EscrowOutbox), EscrowOutbox, ReaderKeyEscrow);
        Ok(match KeyAt(m, RecoveryKey)
           case Some(key) => EscrowOpen(config, key, authorization, inbox, outbox)
           case None => EscrowPickup(config, authorization, inbox, outbox))
  }

  function TransitionOf(v: Vocabulary, m: Slots, p: Bytes): Result<Command, UsageError> {
    var config :- Needed(PathAt(m, OperatorConfig), OperatorConfig, WriterTransition);
    var request :- Needed(PathAt(m, Request), Request, WriterTransition);
    if v.samePath(p, v.wordName(Prepare)) then
      if TransitionObject in m then Err(SwitchNotAllowed(TransitionObject, WriterTransition))
      else if ValidThrough in m then Err(SwitchNotAllowed(ValidThrough, WriterTransition))
      else if NotAfter in m then Err(SwitchNotAllowed(NotAfter, WriterTransition))
      else Ok(TransitionPrepare(config, request))
    else if v.samePath(p, v.wordName(Activate)) then
      var held :- Needed(PathAt(m, TransitionObject), TransitionObject, WriterTransition);
      var through :- Needed(NumberAt(m, ValidThrough), ValidThrough, WriterTransition);
      var notAfter :- Needed(NumberAt(m, NotAfter), NotAfter, WriterTransition);
      var millis :- UnixMillis(notAfter);
      Ok(TransitionActivate(config, request, held, through, millis))
    else Err(UnknownSubcommand(WriterTransition, p))
  }

  function ArchiveOf(v: Vocabulary, k: Kind, m: Slots, p: Bytes): Result<Command, UsageError>
    requires k in {Verify, List, Decrypt, Grant, Report, Export, RecoveryTest}
  {
    match k
    case Verify => Ok(VerifyCommand(p))
    case List => Ok(ListCommand(p))
    case Decrypt =>
      var key :- Needed(KeyAt(m, Key), Key, k);
      var output :- Needed(PathAt(m, Output), Output, k);
      Ok(DecryptCommand(p, key, output))
    case Grant =>
      var recoveryKey :- Needed(KeyAt(m, RecoveryKey), RecoveryKey, k);
      var authorityKey :- Needed(KeyAt(m, AuthorityKey), AuthorityKey, k);
      var authorization :- Needed(PathAt(m, Authorization), Authorization, k);
      var recipient :- Needed(PathAt(m, RecipientCert), RecipientCert, k);
      Ok(GrantCommand(p, recoveryKey, authorityKey, authorization, recipient, PathAt(m, OperatorConfig),
        PathAt(m, Output)))
    case Report =>
      var output :- Needed(PathAt(m, Output), Output, k);
      Ok(ReportCommand(p, output))
    case Export =>
      var output :- Needed(PathAt(m, Output), Output, k);
      Ok(ExportCommand(p, output))
    case RecoveryTest =>
      var runtime :- RecoveryRuntimeOf(v, m);
      var inventory :- Needed(PathAt(m, KeyInventory), KeyInventory, k);
      var output :- Needed(PathAt(m, Output), Output, k);
      Ok(RecoveryTestCommand(runtime, p, inventory, output))
  }

  function CommandOf(v: Vocabulary, k: Kind, m: Slots, p: Bytes): Result<Command, UsageError> {
    match k
    case Organization => OrganizationOf(v, m, p)
    case Operator => OperatorOf(v, m, p)
    case Posture => PostureOf(v, m, p)
    case Registry => RegistryOf(v, m, p)
    case ClockRelease =>
      if !v.samePath(p, v.wordName(Apply)) then Err(UnknownSubcommand(ClockRelease, p))
      else
        var config :- Needed(PathAt(m, OperatorConfig), OperatorConfig, k);
        var release :- Needed(PathAt(m, Release), Release, k);
        Ok(ClockReleaseApply(config, release))
    case ReaderKeyEscrow => EscrowOf(v, m, p)
    case WriterTransition => TransitionOf(v, m, p)
    case _ => ArchiveOf(v, k, m, p)
  }

  /** Steps 3 to 6, in their fixed order, over every slot but the format. */
  function Checked(v: Vocabulary, st: Scanned, k: Kind): Result<(Bytes, Command), UsageError> {
    if TrustAnchor !in st.slots then Err(MissingTrustAnchor)
    else
      match FirstRefused(v, st, k, CHECK_ORDER)
      case Some(s) => Err(SwitchNotAllowed(s, k))
      case None =>
        if st.positionals == [] then Err(MissingPositional(k))
        else if |st.positionals| > 1 then Err(SurplusPositional(k))
        else
          var anchor :- Needed(PathAt(st.slots, TrustAnchor), TrustAnchor, k);
          var command :- CommandOf(v, k, st.slots, st.positionals[0]);
          Ok((anchor, command))
  }

  function Build(v: Vocabulary, st: Scanned): Result<Invocation, UsageError> {
    if st.kind.None? then Err(MissingCommand)
    else
      var (anchor, command) :- Checked(v, st.(slots := st.slots - {Format}), st.kind.value);
      Ok(Invocation(anchor, Format in st.slots && st.slots[Format] == FormatValue(true),
        IncludeRuntimeMetadata in st.slots,
                    PathAt(st.slots, ReportSigningKey), command))
  }

  function Parsed(v: Vocabulary, tokens: seq<Bytes>): Result<Invocation, UsageError> {
    match Scan(v, NOTHING_SCANNED, tokens)
    case Err(e) => Err(e)
    case Ok(st) => if tokens == [] then Err(NoArguments) else Build(v, st)
  }

  /** `parse`: the loop over the arguments, then the checks. */
  method Parse(v: Vocabulary, tokens: seq<Bytes>) returns (r: Result<Invocation, UsageError>)
    ensures r == Parsed(v, tokens)
  {
    hide Build;
    var st := NOTHING_SCANNED;
    var at := 0;
    while at < |tokens|
      invariant at <= |tokens| && Scan(v, st, tokens[at..]) == Scan(v, NOTHING_SCANNED, tokens)
    {
      assert tokens[at..][0] == tokens[at];
      var one := ScanOne(v, st, tokens[at..]);
      if one.Err? {
        return Err(one.error);
      }
      assert tokens[at..][one.value.1..] == tokens[at + one.value.1..];
      st, at := one.value.0, at + one.value.1;
    }
    if tokens == [] {
      return Err(NoArguments);
    }
    r := Build(v, st);
  }
}
