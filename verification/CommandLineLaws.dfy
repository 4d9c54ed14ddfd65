/**
  What the command grammar promises: nothing given is dropped, what is rendered is read back,
  order does not matter.
*/
module CommandLineLaws {
  import opened Bytes
  import opened CommandLine

  // ------------------------------------------------------------- well-scanned slots

  predicate Fits(s: Switch, x: Value) {
    match ShapeOf(s)
    case PathShape => x.PathValue? && !Dashed(x.path)
    case NumberShape => x.NumberValue?
    case KeyShape => x.KeyValue?
    case FormatShape => x.FormatValue?
    case FlagShape => x.FlagValue?
  }

  ghost predicate Printable(v: Vocabulary, x: Value) {
    x.KeyValue? ==> exists b :: v.keyOf(b) == Some(x.key)
  }

  /** What the pass over the arguments guarantees of its result. */
  ghost predicate WellScanned(v: Vocabulary, st: Scanned) {
    && (forall s <- st.slots :: Fits(s, st.slots[s]) && Printable(v, st.slots[s]))
    && (forall i :: 0 <= i < |st.positionals| ==> !Dashed(st.positionals[i]))
  }

  lemma OneKeepsWell(v: Vocabulary, st: Scanned, tokens: seq<Bytes>)
    requires WellScanned(v, st) && tokens != [] && ScanOne(v, st, tokens).Ok?
    ensures WellScanned(v, ScanOne(v, st, tokens).value.0)
  {
    hide ReadNumber;
  }

  lemma {:induction false} ScanKeepsWell(v: Vocabulary, st: Scanned, tokens: seq<Bytes>)
    requires WellScanned(v, st) && Scan(v, st, tokens).Ok?
    ensures WellScanned(v, Scan(v, st, tokens).value)
    decreases |tokens|
  {
    hide WellScanned, ScanOne;
    if tokens != [] {
      var one := ScanOne(v, st, tokens);
      OneKeepsWell(v, st, tokens);
      ScanKeepsWell(v, one.value.0, tokens[one.value.1..]);
    }
  }

  // ------------------------------------------------------ what an invocation was given

  /** What a table holds under a switch. */
  function At(m: Slots, s: Switch): Option<Value> {
    if s in m then Some(m[s]) else None
  }

  function Path(p: Bytes): Option<Value> { Some(PathValue(p)) }
  function Number(n: u64): Option<Value> { Some(NumberValue(n)) }
  function KeyGiven(k: KeySource): Option<Value> { Some(KeyValue(k)) }
  function MaybePath(p: Option<Bytes>): Option<Value> { if p.Some? then Path(p.value) else None }
  function MaybeNumber(n: Option<u64>): Option<Value> { if n.Some? then Number(n.value) else None }

  function ModeOf(a: RecoveryAction): Word {
    match a
    case CaptureAction(_, _) => Capture
    case RestoreAction(_, _, _, _, _) => RestoreRun
    case ImportAction(_, _) => Import
    case StatusAction => Status
    case FailureAction(_) => FailureStatus
  }

  function ActionCarries(a: RecoveryAction, s: Switch): Option<Value> {
    match a
    case CaptureAction(snapshot, passphrase) =>
      (match s case Snapshot => Path(snapshot) case BackupPassphraseFile => Path(passphrase) case _ => None)
    case RestoreAction(source, snapshot, passphrase, restore, media) =>
      (match s case SourceEnvelope => Path(source) case Snapshot => Path(snapshot) case BackupPassphraseFile =>
        Path(passphrase)
               case RestoreDatabase => Path(restore) case MediaSources => Path(media) case _ => None)
    case ImportAction(source, report) =>
      (match s case SourceEnvelope => Path(source) case CompletedReport => Path(report) case _ => None)
    case StatusAction => None
    case FailureAction(restore) => if s == RestoreDatabase then Path(restore) else None
  }

  function RuntimeCarries(v: Vocabulary, runtime: Option<RecoveryRuntime>, s: Switch): Option<Value> {
    match runtime
    case None => None
    case Some(r) =>
      match s
      case RecoveryMode => Path(v.wordName(ModeOf(r.action)))
      case OperatorConfig => Path(r.config)
      case ArchiveProfile => Path(r.profile)
      case ComponentExport => MaybePath(r.componentExport)
      case _ => ActionCarries(r.action, s)
  }

  function PostureCarries(a: PostureAction, s: Switch): Option<Value> {
    match a
    case TargetAction(output) => if s == Output then Path(output) else None
    case IssueAction(target, evidence, lifetime, output) =>
      (match s case PostureTarget => Path(target) case EvidenceReference => Path(evidence) case ValidForMs =>
        Number(lifetime)
               case Output => Path(output) case _ => None)
    case PostureImport(document) => if s == PostureDocument then Path(document) else None
  }

  /** The value a command carries for a switch, if it carries one. */
  function Carries(v: Vocabulary, c: Command, s: Switch): Option<Value> {
    match c
    case VerifyCommand(_) => None
    case ListCommand(_) => None
    case DecryptCommand(_, key, output) => (match s case Key => KeyGiven(key) case Output => Path(output) case _ =>
         None)
    case GrantCommand(_, recoveryKey, authorityKey, authorization, recipient, config, output) =>
      (match s case RecoveryKey => KeyGiven(recoveryKey) case AuthorityKey =>
        KeyGiven(authorityKey) case Authorization => Path(authorization)
               case RecipientCert => Path(recipient) case OperatorConfig => MaybePath(config) case Output =>
                    MaybePath(output) case _ => None)
    case ReportCommand(_, output) => if s == Output then Path(output) else None
    case ExportCommand(_, output) => if s == Output then Path(output) else None
    case RecoveryTestCommand(runtime, _, inventory, output) =>
      (match s case KeyInventory => Path(inventory) case Output => Path(output) case _ => RuntimeCarries(v, runtime, s))
    case OrganizationInit => None
    case OrganizationCertifyRoot(version) => if s == InitialRegistryVersion then Number(version) else None
    case OrganizationEscrowPublish(config, inbox) =>
         (match s case OperatorConfig => Path(config) case EscrowInbox => Path(inbox) case _ => None)
    case OrganizationBundleRelease(config, bundle, version, effective) =>
      (match s case OperatorConfig => Path(config) case Bundle => Path(bundle) case BundleVersion => Path(version)
               case EffectiveFromRegistryVersion => MaybeNumber(effective) case _ => None)
    case OrganizationBundleRevoke(config, release, effective) =>
      (match s case OperatorConfig => Path(config) case Release => Path(release)
               case EffectiveFromRegistryVersion => MaybeNumber(effective) case _ => None)
    case OperatorCommand(_, config, profile) =>
      (match s case OperatorConfig => Path(config) case NetworkArchiveProfile => MaybePath(profile) case _ => None)
    case PostureCommand(posture, config) => if s == OperatorConfig then Path(config) else PostureCarries(posture, s)
    case RevocationPlanCommand(config, effective, through, notAfter) =>
      (match s case OperatorConfig => Path(config) case EffectiveFrom => Number(effective) case ValidThrough =>
        Number(through)
               case NotAfter => Number(notAfter) case _ => None)
    case ClockReleaseApply(config, release) => (match s case OperatorConfig => Path(config) case Release =>
         Path(release) case _ => None)
    case EscrowOpen(config, key, authorization, inbox, outbox) =>
      (match s case OperatorConfig => Path(config) case RecoveryKey => KeyGiven(key) case Authorization =>
        Path(authorization)
               case EscrowInbox => Path(inbox) case EscrowOutbox => Path(outbox) case _ => None)
    case EscrowPickup(config, authorization, inbox, outbox) =>
      (match s case OperatorConfig => Path(config) case Authorization => Path(authorization)
               case EscrowInbox => Path(inbox) case EscrowOutbox => Path(outbox) case _ => None)
    case TransitionPrepare(config, request) => (match s case OperatorConfig => Path(config) case Request =>
         Path(request) case _ => None)
    case TransitionActivate(config, request, held, through, notAfter) =>
      (match s case OperatorConfig => Path(config) case Request => Path(request) case TransitionObject => Path(held)
               case ValidThrough => Number(through) case NotAfter => Number(notAfter) case _ => None)
  }

  /** The value an invocation carries for a switch; the format is always spelled out. */
  function Given(v: Vocabulary, inv: Invocation, s: Switch): Option<Value> {
    match s
    case TrustAnchor => Path(inv.anchor)
    case Format => Some(FormatValue(inv.json))
    case IncludeRuntimeMetadata => if inv.runtimeMetadata then Some(FlagValue) else None
    case ReportSigningKey => MaybePath(inv.reportSigningKey)
    case _ => Carries(v, inv.command, s)
  }

  function KindOf(c: Command): Kind {
    match c
    case VerifyCommand(_) => Verify
    case ListCommand(_) => List
    case DecryptCommand(_, _, _) => Decrypt
    case GrantCommand(_, _, _, _, _, _, _) => Grant
    case ReportCommand(_, _) => Report
    case ExportCommand(_, _) => Export
    case RecoveryTestCommand(_, _, _, _) => RecoveryTest
    case OrganizationInit => Organization
    case OrganizationCertifyRoot(_) => Organization
    case OrganizationEscrowPublish(_, _) => Organization
    case OrganizationBundleRelease(_, _, _, _) => Organization
    case OrganizationBundleRevoke(_, _, _) => Organization
    case OperatorCommand(_, _, _) => Operator
    case PostureCommand(_, _) => Posture
    case RevocationPlanCommand(_, _, _, _) => Registry
    case ClockReleaseApply(_, _) => ClockRelease
    case EscrowOpen(_, _, _, _, _) => ReaderKeyEscrow
    case EscrowPickup(_, _, _, _) => ReaderKeyEscrow
    case TransitionPrepare(_, _) => WriterTransition
    case TransitionActivate(_, _, _, _, _) => WriterTransition
  }

  /** The positional as it is written out again. */
  function Positional(v: Vocabulary, c: Command): Bytes {
    match c
    case OrganizationInit => v.wordName(Init)
    case OrganizationCertifyRoot(_) => v.wordName(CertifyRoot)
    case OrganizationEscrowPublish(_, _) => v.wordName(EscrowPublish)
    case OrganizationBundleRelease(_, _, _, _) => v.wordName(WebBundleRelease)
    case OrganizationBundleRevoke(_, _, _) => v.wordName(WebBundleRevoke)
    case OperatorCommand(action, _, _) => v.wordName(action)
    case PostureCommand(TargetAction(_), _) => v.wordName(Target)
    case PostureCommand(IssueAction(_, _, _, _), _) => v.wordName(Issue)
    case PostureCommand(PostureImport(_), _) => v.wordName(Import)
    case RevocationPlanCommand(_, _, _, _) => v.wordName(RevocationPlan)
    case ClockReleaseApply(_, _) => v.wordName(Apply)
    case EscrowOpen(_, _, _, _, _) => v.wordName(Open)
    case EscrowPickup(_, _, _, _) => v.wordName(Pickup)
    case TransitionPrepare(_, _) => v.wordName(Prepare)
    case TransitionActivate(_, _, _, _, _) => v.wordName(Activate)
    case VerifyCommand(archive) => archive
    case ListCommand(archive) => archive
    case DecryptCommand(archive, _, _) => archive
    case GrantCommand(archive, _, _, _, _, _, _) => archive
    case ReportCommand(archive, _) => archive
    case ExportCommand(archive, _) => archive
    case RecoveryTestCommand(_, archive, _, _) => archive
  }

  // --------------------------------------------------- nothing given is dropped

  lemma {:induction false} NoneRefused(v: Vocabulary, st: Scanned, k: Kind, order: seq<Switch>)
    requires FirstRefused(v, st, k, order).None?
    ensures forall s :: s in order && s in st.slots ==> Allowed(v, st, k, s)
  {
    hide Allowed;
    if order != [] {
      NoneRefused(v, st, k, order[1..]);
      assert order == [order[0]] + order[1..];
    }
  }

  lemma EverySwitchIsChecked(s: Switch)
    ensures s in CHECK_ORDER || s == TrustAnchor || s == Format
  {
  }

  const COMMON := {TrustAnchor, Format, IncludeRuntimeMetadata, ReportSigningKey}

  ghost predicate WellShaped(m: Slots) {
    forall s <- m :: Fits(s, m[s])
  }

  const RECOVERY_SET: set<Switch> :=
    {RecoveryMode, ArchiveProfile, SourceEnvelope, Snapshot, BackupPassphraseFile, RestoreDatabase, MediaSources,
      CompletedReport, ComponentExport}

  /** The switches of a command, read off the other way round: by command instead of by switch. */
  function Own(v: Vocabulary, st: Scanned, k: Kind): set<Switch> {
    match k
    case Verify => {}
    case List => {}
    case Decrypt => {Key, Output}
    case Grant => {RecoveryKey, AuthorityKey, Authorization, RecipientCert, OperatorConfig, Output}
    case Report => {Output}
    case Export => {Output}
    case RecoveryTest => {KeyInventory, OperatorConfig, Output} + RECOVERY_SET
    case Organization =>
      {InitialRegistryVersion}
      + (if IsOrganization(v, st, k, EscrowPublish) then {OperatorConfig, EscrowInbox} else {})
      + (if IsOrganization(v, st, k, WebBundleRelease) then
        {OperatorConfig, Bundle, BundleVersion, EffectiveFromRegistryVersion} else {})
      + (if IsOrganization(v, st, k, WebBundleRevoke) then {OperatorConfig, Release, EffectiveFromRegistryVersion}
        else {})
    case Operator => {OperatorConfig, NetworkArchiveProfile}
    case Posture => {OperatorConfig, PostureTarget, PostureDocument, EvidenceReference, ValidForMs, Output}
    case Registry => {OperatorConfig, EffectiveFrom, ValidThrough, NotAfter}
    case ClockRelease => {OperatorConfig, Release}
    case WriterTransition => {OperatorConfig, Request, TransitionObject, ValidThrough, NotAfter}
    case ReaderKeyEscrow => {OperatorConfig, RecoveryKey, Authorization, EscrowInbox, EscrowOutbox}
  }

  lemma AllowedIsOwn(v: Vocabulary, st: Scanned, k: Kind, s: Switch)
    requires Allowed(v, st, k, s) && s !in COMMON
    ensures s in Own(v, st, k)
  {
  }

  ghost predicate OnlyOwn(v: Vocabulary, st: Scanned, k: Kind) {
    forall s <- st.slots :: Fits(s, st.slots[s]) && (s in COMMON || s in Own(v, st, k))
  }

  /** A table entry of the right shape is what the typed look-up finds. */
  lemma PathEntry(m: Slots, s: Switch)
    requires WellShaped(m) && ShapeOf(s) == PathShape
    ensures At(m, s) == MaybePath(PathAt(m, s)) && (s in m <==> PathAt(m, s).Some?)
  {
  }

  lemma NumberEntry(m: Slots, s: Switch)
    requires WellShaped(m) && ShapeOf(s) == NumberShape
    ensures At(m, s) == MaybeNumber(NumberAt(m, s)) && (s in m <==> NumberAt(m, s).Some?)
  {
  }

  lemma KeyEntry(m: Slots, s: Switch)
    requires WellShaped(m) && ShapeOf(s) == KeyShape
    ensures At(m, s) == (if KeyAt(m, s).Some? then KeyGiven(KeyAt(m, s).value) else None)
    ensures (s in m <==> KeyAt(m, s).Some?)
  {
  }

  lemma ArchiveFields(v: Vocabulary, m: Slots, p: Bytes, k: Kind)
    requires WellShaped(m) && k in {Verify, List, Decrypt, Report, Export} && ArchiveOf(v, k, m, p).Ok?
    ensures var c := ArchiveOf(v, k, m, p).value;
            && KindOf(c) == k
            && (k == Decrypt ==> Carries(v, c, Key) == At(m, Key))
            && (k in {Decrypt, Report, Export} ==> Carries(v, c, Output) == At(m, Output))
  {
    hide RecoveryRuntimeOf;
  }

  lemma GrantFields(v: Vocabulary, m: Slots, p: Bytes)
    requires WellShaped(m) && ArchiveOf(v, Grant, m, p).Ok?
    ensures var c := ArchiveOf(v, Grant, m, p).value;
            && KindOf(c) == Grant
            && Carries(v, c, RecoveryKey) == At(m, RecoveryKey)
            && Carries(v, c, AuthorityKey) == At(m, AuthorityKey)
            && Carries(v, c, Authorization) == At(m, Authorization)
            && Carries(v, c, RecipientCert) == At(m, RecipientCert)
            && Carries(v, c, OperatorConfig) == At(m, OperatorConfig)
            && Carries(v, c, Output) == At(m, Output)
  {
    hide WellShaped, PathAt, NumberAt, KeyAt, At, RuntimeCarries, PostureCarries, RecoveryRuntimeOf;
    KeyEntry(m, RecoveryKey);
    KeyEntry(m, AuthorityKey);
    PathEntry(m, Authorization);
    PathEntry(m, RecipientCert);
    PathEntry(m, OperatorConfig);
    PathEntry(m, Output);
  }

  lemma OperatorFields(v: Vocabulary, m: Slots, p: Bytes)
    requires WellShaped(m) && OperatorOf(v, m, p).Ok?
    ensures var c := OperatorOf(v, m, p).value;
            && KindOf(c) == Operator
            && Carries(v, c, OperatorConfig) == At(m, OperatorConfig)
            && Carries(v, c, NetworkArchiveProfile) == At(m, NetworkArchiveProfile)
  {
    hide WellShaped, PathAt, NumberAt, KeyAt, At, RuntimeCarries, PostureCarries;
    PathEntry(m, OperatorConfig);
    PathEntry(m, NetworkArchiveProfile);
  }

  const POSTURE_SET := {PostureTarget, PostureDocument, EvidenceReference, ValidForMs, Output}

  lemma PostureActionFields(v: Vocabulary, m: Slots, p: Bytes, s: Switch)
    requires WellShaped(m) && PostureActionOf(v, m, p).Ok? && s in POSTURE_SET && (s in m ==> PostureTakes(v, p, s))
    ensures PostureCarries(PostureActionOf(v, m, p).value, s) == At(m, s)
  {
    hide WellShaped, PathAt, NumberAt, At;
    PathEntry(m, PostureTarget);
    PathEntry(m, PostureDocument);
    PathEntry(m, EvidenceReference);
    NumberEntry(m, ValidForMs);
    PathEntry(m, Output);
  }

  lemma PostureFields(v: Vocabulary, m: Slots, p: Bytes)
    requires WellShaped(m) && PostureOf(v, m, p).Ok?
    ensures var c := PostureOf(v, m, p).value;
            && KindOf(c) == Posture
            && (forall s <- POSTURE_SET + {OperatorConfig} :: Carries(v, c, s) == At(m, s))
  {
    hide RuntimeCarries, PostureCarries, PostureActionOf, FirstOfOtherMode, PostureTakes;
    OtherModes(v, m, p);
    forall s | s in POSTURE_SET
      ensures PostureCarries(PostureActionOf(v, m, p).value, s) == At(m, s)
    {
      PostureActionFields(v, m, p, s);
    }
  }

  lemma OtherModes(v: Vocabulary, m: Slots, p: Bytes)
    requires FirstOfOtherMode(v, m, p, POSTURE_ORDER).None?
    ensures forall s <- POSTURE_SET :: s in m ==> PostureTakes(v, p, s)
  {
    hide PostureTakes;
    NoOtherMode(v, m, p, POSTURE_ORDER);
  }

  lemma {:induction false} NoOtherMode(v: Vocabulary, m: Slots, p: Bytes, order: seq<Switch>)
    requires FirstOfOtherMode(v, m, p, order).None?
    ensures forall s :: s in order && s in m ==> PostureTakes(v, p, s)
  {
    hide PostureTakes;
    if order != [] {
      NoOtherMode(v, m, p, order[1..]);
      assert order == [order[0]] + order[1..];
    }
  }

  lemma RegistryFields(v: Vocabulary, m: Slots, p: Bytes)
    requires WellShaped(m) && RegistryOf(v, m, p).Ok?
    ensures var c := RegistryOf(v, m, p).value;
            && KindOf(c) == Registry
            && Carries(v, c, OperatorConfig) == At(m, OperatorConfig)
            && Carries(v, c, EffectiveFrom) == At(m, EffectiveFrom)
            && Carries(v, c, ValidThrough) == At(m, ValidThrough)
            && Carries(v, c, NotAfter) == At(m, NotAfter)
  {
    hide WellShaped, PathAt, NumberAt, KeyAt, At, RuntimeCarries, PostureCarries;
    PathEntry(m, OperatorConfig);
    NumberEntry(m, EffectiveFrom);
    NumberEntry(m, ValidThrough);
    NumberEntry(m, NotAfter);
  }

  lemma TransitionFields(v: Vocabulary, m: Slots, p: Bytes, s: Switch)
    requires WellShaped(m) && TransitionOf(v, m, p).Ok?
    requires s in {OperatorConfig, Request, TransitionObject, ValidThrough, NotAfter}
    ensures KindOf(TransitionOf(v, m, p).value) == WriterTransition
    ensures Carries(v, TransitionOf(v, m, p).value, s) == At(m, s)
  {
    hide WellShaped, PathAt, NumberAt, KeyAt, At, RuntimeCarries, PostureCarries;
    PathEntry(m, OperatorConfig);
    PathEntry(m, Request);
    PathEntry(m, TransitionObject);
    NumberEntry(m, ValidThrough);
    NumberEntry(m, NotAfter);
  }

  lemma EscrowFields(v: Vocabulary, m: Slots, p: Bytes, s: Switch)
    requires WellShaped(m) && EscrowOf(v, m, p).Ok?
    requires s in {OperatorConfig, RecoveryKey, Authorization, EscrowInbox, EscrowOutbox}
    ensures KindOf(EscrowOf(v, m, p).value) == ReaderKeyEscrow
    ensures Carries(v, EscrowOf(v, m, p).value, s) == At(m, s)
  {
    hide WellShaped, PathAt, NumberAt, KeyAt, At, RuntimeCarries, PostureCarries;
    PathEntry(m, OperatorConfig);
    KeyEntry(m, RecoveryKey);
    PathEntry(m, Authorization);
    PathEntry(m, EscrowInbox);
    PathEntry(m, EscrowOutbox);
  }

  lemma ClockFields(v: Vocabulary, m: Slots, p: Bytes)
    requires WellShaped(m) && CommandOf(v, ClockRelease, m, p).Ok?
    ensures var c := CommandOf(v, ClockRelease, m, p).value;
            && KindOf(c) == ClockRelease
            && Carries(v, c, OperatorConfig) == At(m, OperatorConfig)
            && Carries(v, c, Release) == At(m, Release)
  {
    hide WellShaped, PathAt, NumberAt, KeyAt, At, RuntimeCarries, PostureCarries, ArchiveOf;
    PathEntry(m, OperatorConfig);
    PathEntry(m, Release);
  }

  const ORGANIZATION_SET := {InitialRegistryVersion, OperatorConfig, EscrowInbox, Bundle, BundleVersion,
    EffectiveFromRegistryVersion, Release}

  /** What each organization subcommand leaves possible. */
  function Under(w: Word): set<Switch> {
    match w
    case EscrowPublish => {InitialRegistryVersion, OperatorConfig, EscrowInbox}
    case WebBundleRelease => {InitialRegistryVersion, OperatorConfig, Bundle, BundleVersion,
         EffectiveFromRegistryVersion}
    case WebBundleRevoke => {InitialRegistryVersion, OperatorConfig, Release, EffectiveFromRegistryVersion}
    case _ => {InitialRegistryVersion}
  }

  /** With one exact subcommand word first, the switches of the other subcommands are absent. */
  lemma OneSubcommand(v: Vocabulary, st: Scanned, p: Bytes, w: Word)
    requires v.Lawful() && st.positionals == [p] && v.Says(p, w) && OnlyOwn(v, st, Organization)
    ensures forall s <- st.slots :: s in COMMON || s in Under(w)
  {
    assert p == v.wordName(w);
    assert forall x :: IsOrganization(v, st, Organization, x) <==> w == x;
  }

  /** The command of one subcommand word carries the table's entry for a switch. */
  predicate Subcommand(v: Vocabulary, m: Slots, p: Bytes, s: Switch) {
    var r := OrganizationOf(v, m, p);
    r.Ok? ==> KindOf(r.value) == Organization && Carries(v, r.value, s) == At(m, s)
  }

  lemma NotThere(m: Slots, possible: set<Switch>, s: Switch)
    requires (forall x <- m :: x in COMMON || x in possible) && s !in COMMON
    ensures At(m, s) == None <==> s !in m
    ensures s !in possible ==> At(m, s) == None
  {
  }

  lemma PlainFields(v: Vocabulary, m: Slots, p: Bytes, w: Word, s: Switch)
    requires v.Says(p, w) && WellShaped(m) && (forall x <- m :: x in COMMON || x in Under(w)) && s in ORGANIZATION_SET
    requires w !in {EscrowPublish, WebBundleRelease, WebBundleRevoke}
    ensures Subcommand(v, m, p, s)
  {
    hide WellShaped, PathAt, NumberAt, KeyAt, At, RuntimeCarries, PostureCarries, PublishOf, BundleReleaseOf,
      BundleRevokeOf;
    NumberEntry(m, InitialRegistryVersion);
    NotThere(m, Under(w), s);
  }

  lemma PublishFields(v: Vocabulary, m: Slots, p: Bytes, s: Switch)
    requires v.Says(p, EscrowPublish) && WellShaped(m) && (forall x <- m :: x in COMMON || x in Under(EscrowPublish))
    requires s in ORGANIZATION_SET
    ensures Subcommand(v, m, p, s)
  {
    hide WellShaped, PathAt, NumberAt, KeyAt, At, RuntimeCarries, PostureCarries, BundleReleaseOf, BundleRevokeOf;
    PathEntry(m, OperatorConfig);
    PathEntry(m, EscrowInbox);
    NotThere(m, Under(EscrowPublish), s);
    NotThere(m, Under(EscrowPublish), InitialRegistryVersion);
  }

  lemma ReleaseFields(v: Vocabulary, m: Slots, p: Bytes, s: Switch)
    requires v.Says(p, WebBundleRelease) && WellShaped(m)
    requires (forall x <- m :: x in COMMON || x in Under(WebBundleRelease)) && s in ORGANIZATION_SET
    ensures Subcommand(v, m, p, s)
  {
    hide WellShaped, PathAt, NumberAt, KeyAt, At, RuntimeCarries, PostureCarries, PublishOf, BundleRevokeOf;
    PathEntry(m, OperatorConfig);
    PathEntry(m, Bundle);
    PathEntry(m, BundleVersion);
    NumberEntry(m, EffectiveFromRegistryVersion);
    NotThere(m, Under(WebBundleRelease), s);
    NotThere(m, Under(WebBundleRelease), InitialRegistryVersion);
  }

  lemma RevokeFields(v: Vocabulary, m: Slots, p: Bytes, s: Switch)
    requires v.Says(p, WebBundleRevoke) && WellShaped(m)
    requires (forall x <- m :: x in COMMON || x in Under(WebBundleRevoke)) && s in ORGANIZATION_SET
    ensures Subcommand(v, m, p, s)
  {
    hide WellShaped, PathAt, NumberAt, KeyAt, At, RuntimeCarries, PostureCarries, PublishOf, BundleReleaseOf;
    PathEntry(m, OperatorConfig);
    PathEntry(m, Release);
    NumberEntry(m, EffectiveFromRegistryVersion);
    NotThere(m, Under(WebBundleRevoke), s);
    NotThere(m, Under(WebBundleRevoke), InitialRegistryVersion);
  }

  lemma SubcommandFields(v: Vocabulary, m: Slots, p: Bytes, w: Word, s: Switch)
    requires v.Says(p, w) && WellShaped(m) && (forall x <- m :: x in COMMON || x in Under(w)) && s in ORGANIZATION_SET
    ensures Subcommand(v, m, p, s)
  {
    hide Subcommand, Under, WellShaped;
    match w
    case EscrowPublish => PublishFields(v, m, p, s);
    case WebBundleRelease => ReleaseFields(v, m, p, s);
    case WebBundleRevoke => RevokeFields(v, m, p, s);
    case _ => PlainFields(v, m, p, w, s);
  }

  lemma OrganizationFields(v: Vocabulary, st: Scanned, p: Bytes)
    requires v.Lawful() && st.positionals == [p] && OnlyOwn(v, st, Organization) && OrganizationOf(v, st.slots, p).Ok?
    ensures var c := OrganizationOf(v, st.slots, p).value;
            && KindOf(c) == Organization
            && (forall s <- ORGANIZATION_SET :: Carries(v, c, s) == At(st.slots, s))
  {
    hide Carries, Under;
    assert v.wordOf(p).Some? by { hide OnlyOwn; }
    var w := v.wordOf(p).value;
    OneSubcommand(v, st, p, w);
    assert WellShaped(st.slots);
    SubcommandFields(v, st.slots, p, w, OperatorConfig);
    hide OrganizationOf;
    forall s | s in ORGANIZATION_SET
      ensures Carries(v, OrganizationOf(v, st.slots, p).value, s) == At(st.slots, s)
    {
      SubcommandFields(v, st.slots, p, w, s);
    }
  }

  /** An action taken from the table carries the table's entries for the switches it uses. */
  predicate Reads(m: Slots, r: Result<RecoveryAction, UsageError>, w: Word) {
    r.Ok? ==> ModeOf(r.value) == w && forall s <- RecoveryUses(r.value) :: ActionCarries(r.value, s) == At(m, s)
  }

  lemma RestoreFields(m: Slots)
    requires WellShaped(m)
    ensures Reads(m, RestoreOf(m), RestoreRun)
  {
    hide WellShaped, PathAt, At;
    PathEntry(m, SourceEnvelope);
    PathEntry(m, Snapshot);
    PathEntry(m, BackupPassphraseFile);
    PathEntry(m, RestoreDatabase);
    PathEntry(m, MediaSources);
  }

  lemma CaptureFields(m: Slots)
    requires WellShaped(m)
    ensures Reads(m, CaptureOf(m), Capture)
  {
    hide WellShaped, PathAt, At;
    PathEntry(m, Snapshot);
    PathEntry(m, BackupPassphraseFile);
  }

  lemma OtherModeFields(m: Slots)
    requires WellShaped(m)
    ensures Reads(m, ImportOf(m), Import) && Reads(m, FailureOf(m), FailureStatus)
  {
    hide WellShaped, PathAt, At;
    PathEntry(m, SourceEnvelope);
    PathEntry(m, CompletedReport);
    PathEntry(m, RestoreDatabase);
  }

  lemma RecoveryActionFields(v: Vocabulary, m: Slots, mode: Bytes)
    requires WellShaped(m) && RecoveryActionOf(v, m, mode).Ok?
    ensures var a := RecoveryActionOf(v, m, mode).value;
            && v.Says(mode, ModeOf(a))
            && forall s <- RecoveryUses(a) :: ActionCarries(a, s) == At(m, s)
  {
    hide WellShaped, At, CaptureOf, RestoreOf, ImportOf, FailureOf;
    CaptureFields(m);
    RestoreFields(m);
    OtherModeFields(m);
  }

  lemma ActionUses(a: RecoveryAction, s: Switch)
    requires s !in RecoveryUses(a)
    ensures ActionCarries(a, s) == None
  {
  }

  lemma {:induction false} NothingLeft(m: Slots, used: set<Switch>, order: seq<Switch>)
    requires FirstLeft(m, used, order).None?
    ensures forall s :: s in order && s in m ==> s in used
  {
    if order != [] {
      NothingLeft(m, used, order[1..]);
      assert order == [order[0]] + order[1..];
    }
  }

  lemma SaidIsSpelled(v: Vocabulary, token: Bytes)
    requires v.Lawful()
    ensures forall w :: v.Says(token, w) ==> token == v.wordName(w)
  {
  }

  lemma RuntimeHeader(v: Vocabulary, m: Slots, s: Switch)
    requires v.Lawful() && WellShaped(m) && RecoveryRuntimeOf(v, m).Ok?
    requires s in {RecoveryMode, OperatorConfig, ArchiveProfile, ComponentExport}
    ensures RuntimeCarries(v, RecoveryRuntimeOf(v, m).value, s) == At(m, s)
  {
    hide RecoveryActionOf, ActionCarries, RecoveryUses, ModeOf, FirstLeft, v.Lawful, WellShaped, PathAt, At;
    PathEntry(m, s);
    PathEntry(m, OperatorConfig);
    if PathAt(m, RecoveryMode).Some? {
      var mode := PathAt(m, RecoveryMode).value;
      RecoveryActionFields(v, m, mode);
      assert mode == v.wordName(ModeOf(RecoveryActionOf(v, m, mode).value)) by { SaidIsSpelled(v, mode); }
    }
  }

  lemma RuntimePaths(v: Vocabulary, m: Slots, s: Switch)
    requires WellShaped(m) && RecoveryRuntimeOf(v, m).Ok? && s in RECOVERY_PATHS
    ensures RuntimeCarries(v, RecoveryRuntimeOf(v, m).value, s) == At(m, s)
  {
    hide RecoveryActionOf, ActionCarries, RecoveryUses, ModeOf, FirstLeft, WellShaped, PathAt;
    if PathAt(m, RecoveryMode).Some? {
      var mode := PathAt(m, RecoveryMode).value;
      var uses := RecoveryUses(RecoveryActionOf(v, m, mode).value);
      NothingLeft(m, uses, RECOVERY_PATHS);
      if s in uses {
        RecoveryActionFields(v, m, mode);
      } else {
        ActionUses(RecoveryActionOf(v, m, mode).value, s);
      }
    }
  }

  lemma RuntimeFields(v: Vocabulary, m: Slots, s: Switch)
    requires v.Lawful() && WellShaped(m) && RecoveryRuntimeOf(v, m).Ok? && (s in RECOVERY_SET || s == OperatorConfig)
    ensures RuntimeCarries(v, RecoveryRuntimeOf(v, m).value, s) == At(m, s)
  {
    hide RuntimeCarries, RecoveryRuntimeOf, v.Lawful, WellShaped, At;
    if s in {RecoveryMode, OperatorConfig, ArchiveProfile, ComponentExport} {
      RuntimeHeader(v, m, s);
    } else {
      RuntimePaths(v, m, s);
    }
  }

  lemma RecoveryTestFields(v: Vocabulary, m: Slots, p: Bytes)
    requires v.Lawful() && WellShaped(m) && ArchiveOf(v, RecoveryTest, m, p).Ok?
    ensures var c := ArchiveOf(v, RecoveryTest, m, p).value;
            && KindOf(c) == RecoveryTest
            && (forall s <- {KeyInventory, OperatorConfig, Output} + RECOVERY_SET :: Carries(v, c, s) == At(m, s))
  {
    hide RecoveryRuntimeOf, RuntimeCarries, PostureCarries, v.Lawful, WellShaped, PathAt, At;
    PathEntry(m, KeyInventory);
    PathEntry(m, Output);
    forall s | s in RECOVERY_SET || s == OperatorConfig
      ensures RuntimeCarries(v, RecoveryRuntimeOf(v, m).value, s) == At(m, s)
    {
      RuntimeFields(v, m, s);
    }
  }

  // ---------------------------------------------------------------- outside

  lemma RuntimeCarriesOnly(v: Vocabulary, r: Option<RecoveryRuntime>, s: Switch)
    ensures RuntimeCarries(v, r, s).Some? ==> s in RECOVERY_SET || s == OperatorConfig
  {
  }

  lemma CarriesOnlyOwn(v: Vocabulary, st: Scanned, k: Kind, c: Command, s: Switch)
    requires s !in COMMON && KindOf(c) == k && s !in (if k == Organization then ORGANIZATION_SET else Own(v, st, k))
    ensures Carries(v, c, s) == None
  {
    hide RuntimeCarries, IsOrganization;
    if c.RecoveryTestCommand? {
      RuntimeCarriesOnly(v, c.runtime, s);
    }
  }

  /** Outside the command's own switches neither side has anything. */
  lemma Elsewhere(v: Vocabulary, st: Scanned, k: Kind, c: Command, s: Switch)
    requires OnlyOwn(v, st, k) && s !in COMMON && KindOf(c) == k
    requires s !in (if k == Organization then ORGANIZATION_SET else Own(v, st, k))
    ensures At(st.slots, s) == None && Carries(v, c, s) == None
  {
    hide Carries, IsOrganization, KindOf;
    CarriesOnlyOwn(v, st, k, c, s);
  }

  /** Every command carries, for every switch, exactly what the table holds. */
  lemma CommandIsFaithful(v: Vocabulary, st: Scanned, k: Kind, p: Bytes, s: Switch)
    requires v.Lawful() && st.positionals == [p] && OnlyOwn(v, st, k) && CommandOf(v, k, st.slots, p).Ok?
    requires s !in COMMON
    ensures KindOf(CommandOf(v, k, st.slots, p).value) == k
    ensures Carries(v, CommandOf(v, k, st.slots, p).value, s) == At(st.slots, s)
  {
    hide Carries, KindOf, At, v.Lawful, ArchiveOf, OrganizationOf, OperatorOf, PostureOf, RegistryOf, EscrowOf,
      TransitionOf;
    var m := st.slots;
    assert WellShaped(m);
    match k {
      case Grant => GrantFields(v, m, p);
      case RecoveryTest => RecoveryTestFields(v, m, p);
      case Organization => OrganizationFields(v, st, p);
      case Operator => OperatorFields(v, m, p);
      case Posture => PostureFields(v, m, p);
      case Registry => RegistryFields(v, m, p);
      case ClockRelease => ClockFields(v, m, p);
      case WriterTransition =>
        TransitionFields(v, m, p, OperatorConfig);
        if s in Own(v, st, k) {
          TransitionFields(v, m, p, s);
        }
      case ReaderKeyEscrow =>
        EscrowFields(v, m, p, OperatorConfig);
        if s in Own(v, st, k) {
          EscrowFields(v, m, p, s);
        }
      case _ => ArchiveFields(v, m, p, k);
    }
    if s !in (if k == Organization then ORGANIZATION_SET else Own(v, st, k)) {
      Elsewhere(v, st, k, CommandOf(v, k, m, p).value, s);
    }
  }

  lemma CheckedIsOwn(v: Vocabulary, st: Scanned, k: Kind)
    requires WellShaped(st.slots) && Checked(v, st, k).Ok?
    ensures OnlyOwn(v, st, k)
  {
    hide Fits, Allowed, CommandOf, FirstRefused, Own;
    NoneRefused(v, st, k, CHECK_ORDER);
    forall s | s in st.slots
      ensures s in COMMON || s in Own(v, st, k)
    {
      EverySwitchIsChecked(s);
      if s !in COMMON {
        AllowedIsOwn(v, st, k, s);
      }
    }
  }

  /** What the table says once the default format is written out. */
  function Spelled(m: Slots, s: Switch): Option<Value> {
    if s == Format && Format !in m then Some(FormatValue(false)) else At(m, s)
  }

  lemma CommonGiven(v: Vocabulary, st: Scanned, s: Switch)
    requires WellShaped(st.slots) && Build(v, st).Ok? && s in COMMON
    ensures Given(v, Build(v, st).value, s) == Spelled(st.slots, s)
  {
    hide CommandOf, Carries, FirstRefused, WellShaped, PathAt;
    PathEntry(st.slots, ReportSigningKey);
    PathEntry(st.slots - {Format}, TrustAnchor) by { ShapeKept(st.slots); }
    FormatEntry(st.slots);
  }

  lemma ShapeKept(m: Slots)
    requires WellShaped(m)
    ensures WellShaped(m - {Format})
  {
    hide Fits;
  }

  lemma FormatEntry(m: Slots)
    requires WellShaped(m)
    ensures Format in m ==> m[Format] == FormatValue(m[Format] == FormatValue(true))
    ensures IncludeRuntimeMetadata in m ==> m[IncludeRuntimeMetadata] == FlagValue
  {
  }

  lemma OwnGiven(v: Vocabulary, st: Scanned, s: Switch)
    requires v.Lawful() && WellShaped(st.slots) && Build(v, st).Ok? && s !in COMMON
    ensures Given(v, Build(v, st).value, s) == Spelled(st.slots, s)
    ensures st.kind.Some? && KindOf(Build(v, st).value.command) == st.kind.value && |st.positionals| == 1
  {
    hide CommandOf, Carries, KindOf, v.Lawful, FirstRefused, WellShaped, PathAt;
    var rest := st.(slots := st.slots - {Format});
    var k := st.kind.value;
    ShapeKept(st.slots);
    CheckedIsOwn(v, rest, k);
    assert st.positionals == [st.positionals[0]];
    CommandIsFaithful(v, rest, k, st.positionals[0], s);
  }

  /**
    Nothing given is dropped and nothing is made up: for every switch, the
    invocation carries exactly the value that was given, up to the default format.
  */
  lemma NothingDropped(v: Vocabulary, st: Scanned, s: Switch)
    requires v.Lawful() && WellScanned(v, st) && Build(v, st).Ok?
    ensures Given(v, Build(v, st).value, s) == Spelled(st.slots, s)
    ensures st.kind.Some? && KindOf(Build(v, st).value.command) == st.kind.value && |st.positionals| == 1
  {
    hide Build, Given, KindOf, v.Lawful, Spelled, Fits, Printable;
    if s in COMMON {
      CommonGiven(v, st, s);
      OwnGiven(v, st, OperatorConfig);
    } else {
      OwnGiven(v, st, s);
    }
  }

  // ------------------------------------------------------ rendering and parsing again

  const ALL_SWITCHES: seq<Switch> := [TrustAnchor, Format] + CHECK_ORDER

  function ShowValue(v: Vocabulary, x: Value): Bytes {
    match x
    case PathValue(path) => path
    case NumberValue(n) => ShowNumber(n)
    case KeyValue(key) => v.keyText(key)
    case FormatValue(json) => v.wordName(if json then Json else Text)
    case FlagValue => []
  }

  function Group(v: Vocabulary, s: Switch, x: Value): seq<Bytes> {
    if ShapeOf(s) == FlagShape then [v.switchName(s)] else [v.switchName(s), ShowValue(v, x)]
  }

  function RenderFrom(v: Vocabulary, inv: Invocation, order: seq<Switch>): seq<Bytes> {
    if order == [] then []
    else match Given(v, inv, order[0])
      case None => RenderFrom(v, inv, order[1..])
      case Some(x) => Group(v, order[0], x) + RenderFrom(v, inv, order[1..])
  }

  /** Command, positional, then every switch the invocation carries. */
  function Render(v: Vocabulary, inv: Invocation): seq<Bytes> {
    [v.kindName(KindOf(inv.command)), Positional(v, inv.command)] + RenderFrom(v, inv, ALL_SWITCHES)
  }

  lemma ShownIsRead(v: Vocabulary, s: Switch, x: Value)
    requires v.Lawful() && Fits(s, x) && Printable(v, x) && ShapeOf(s) != FlagShape
    ensures ReadValue(v, s, ShowValue(v, x)) == Ok(x) && !Dashed(ShowValue(v, x))
  {
    hide ReadNumber, ShowNumber;
    if x.NumberValue? {
      NumberRoundTrip(x.number);
    }
  }

  lemma GroupIsScanned(v: Vocabulary, st: Scanned, s: Switch, x: Value, rest: seq<Bytes>)
    requires v.Lawful() && Fits(s, x) && Printable(v, x) && s !in st.slots
    ensures Scan(v, st, Group(v, s, x) + rest) == Scan(v, st.(slots := st.slots[s := x]), rest)
  {
    hide ReadValue, ShowValue;
    var tokens := Group(v, s, x) + rest;
    if ShapeOf(s) == FlagShape {
      assert tokens[1..] == rest;
    } else {
      ShownIsRead(v, s, x);
      assert tokens[2..] == rest;
    }
  }

  /** The place of a switch in the rendering order. */
  function Ordinal(s: Switch): nat {
    match s
    case TrustAnchor => 0
    case Format => 1
    case PostureTarget => 2
    case PostureDocument => 3
    case EvidenceReference => 4
    case ValidForMs => 5
    case InitialRegistryVersion => 6
    case Key => 7
    case RecoveryKey => 8
    case Authorization => 9
    case AuthorityKey => 10
    case RecipientCert => 11
    case KeyInventory => 12
    case RecoveryMode => 13
    case ArchiveProfile => 14
    case SourceEnvelope => 15
    case Snapshot => 16
    case BackupPassphraseFile => 17
    case RestoreDatabase => 18
    case MediaSources => 19
    case CompletedReport => 20
    case ComponentExport => 21
    case Bundle => 22
    case BundleVersion => 23
    case EffectiveFromRegistryVersion => 24
    case OperatorConfig => 25
    case EscrowInbox => 26
    case EscrowOutbox => 27
    case NetworkArchiveProfile => 28
    case Release => 29
    case Request => 30
    case TransitionObject => 31
    case EffectiveFrom => 32
    case ValidThrough => 33
    case NotAfter => 34
    case Output => 35
    case IncludeRuntimeMetadata => 36
    case ReportSigningKey => 37
  }

  lemma OrdinalOfFirst(i: nat)
    requires i < 13
    ensures |ALL_SWITCHES| == 38 && Ordinal(ALL_SWITCHES[i]) == i
  {
  }

  lemma OrdinalOfMiddle(i: nat)
    requires 13 <= i < 26
    ensures |ALL_SWITCHES| == 38 && Ordinal(ALL_SWITCHES[i]) == i
  {
  }

  lemma OrdinalOfLast(i: nat)
    requires 26 <= i < 38
    ensures |ALL_SWITCHES| == 38 && Ordinal(ALL_SWITCHES[i]) == i
  {
  }

  lemma OrdinalIsIndex(i: nat)
    requires i < |ALL_SWITCHES|
    ensures Ordinal(ALL_SWITCHES[i]) == i
  {
    hide Ordinal;
    OrdinalOfFirst(0);
    if i < 13 {
      OrdinalOfFirst(i);
    } else if i < 26 {
      OrdinalOfMiddle(i);
    } else {
      OrdinalOfLast(i);
    }
  }

  /** The table after scanning what was rendered from this order. */
  function Added(v: Vocabulary, inv: Invocation, order: seq<Switch>, m: Slots): Slots {
    if order == [] then m
    else match Given(v, inv, order[0])
      case None => Added(v, inv, order[1..], m)
      case Some(x) => Added(v, inv, order[1..], m[order[0] := x])
  }

  lemma {:induction false} AddedAt(v: Vocabulary, inv: Invocation, order: seq<Switch>, m: Slots, s: Switch)
    ensures At(Added(v, inv, order, m), s) == if s in order && Given(v, inv, s).Some? then Given(v, inv, s)
            else At(m, s)
    decreases |order|
  {
    hide Given;
    if order != [] {
      assert order == [order[0]] + order[1..];
      match Given(v, inv, order[0]) {
        case None => AddedAt(v, inv, order[1..], m, s);
        case Some(x) => AddedAt(v, inv, order[1..], m[order[0] := x], s);
      }
    }
  }

  predicate Distinct(order: seq<Switch>) {
    forall i, j :: 0 <= i < j < |order| ==> order[i] != order[j]
  }

  /** Every value the invocation carries can be written and read back. */
  ghost predicate Writable(v: Vocabulary, inv: Invocation) {
    forall s :: Given(v, inv, s).Some? ==> Fits(s, Given(v, inv, s).value) && Printable(v, Given(v, inv, s).value)
  }

  lemma {:induction false} RenderedIsScanned(v: Vocabulary, inv: Invocation, order: seq<Switch>, st: Scanned)
    requires v.Lawful() && Writable(v, inv) && Distinct(order)
    requires forall s :: s in order ==> s !in st.slots
    ensures Scan(v, st, RenderFrom(v, inv, order)) == Ok(st.(slots := Added(v, inv, order, st.slots)))
    decreases |order|
  {
    hide Given, Scan, Group, v.Lawful, Fits, Printable;
    if order == [] {
      ScanNothing(v, st);
    } else {
      var rest := order[1..];
      assert order == [order[0]] + rest;
      assert order[0] !in rest;
      match Given(v, inv, order[0]) {
        case None => RenderedIsScanned(v, inv, rest, st);
        case Some(x) =>
          GroupIsScanned(v, st, order[0], x, RenderFrom(v, inv, rest));
          RenderedIsScanned(v, inv, rest, st.(slots := st.slots[order[0] := x]));
      }
    }
  }

  lemma ScanNothing(v: Vocabulary, st: Scanned)
    ensures Scan(v, st, []) == Ok(st)
  {
  }

  lemma AllDistinct()
    ensures Distinct(ALL_SWITCHES)
  {
    forall i, j | 0 <= i < j < |ALL_SWITCHES|
      ensures ALL_SWITCHES[i] != ALL_SWITCHES[j]
    {
      OrdinalIsIndex(i);
      OrdinalIsIndex(j);
    }
  }

  // ------------------------------------------------------------ the positional

  /** The positional of the command is not read as a switch if the one given was not. */
  predicate StaysPlain(v: Vocabulary, k: Kind, m: Slots, p: Bytes) {
    var r := CommandOf(v, k, m, p);
    r.Ok? && !Dashed(p) ==> !Dashed(Positional(v, r.value))
  }

  lemma ArchivePositional(v: Vocabulary, k: Kind, m: Slots, p: Bytes)
    requires k in {Verify, List, Decrypt, Grant, Report, Export, RecoveryTest}
    ensures StaysPlain(v, k, m, p)
  {
    hide PathAt, KeyAt, RecoveryRuntimeOf, v.Lawful, OrganizationOf, OperatorOf, PostureOf, RegistryOf, EscrowOf,
      TransitionOf;
  }

  lemma OrganizationPositional(v: Vocabulary, m: Slots, p: Bytes)
    requires v.Lawful()
    ensures StaysPlain(v, Organization, m, p)
  {
    hide PathAt, NumberAt, ArchiveOf, OperatorOf, PostureOf, RegistryOf, EscrowOf, TransitionOf;
  }

  lemma OperatorPositional(v: Vocabulary, m: Slots, p: Bytes)
    requires v.Lawful()
    ensures StaysPlain(v, Operator, m, p)
  {
    hide PathAt, ArchiveOf, OrganizationOf, PostureOf, RegistryOf, EscrowOf, TransitionOf;
  }

  lemma PosturePositional(v: Vocabulary, m: Slots, p: Bytes)
    requires v.Lawful()
    ensures StaysPlain(v, Posture, m, p)
  {
    hide PathAt, NumberAt, FirstOfOtherMode, ArchiveOf, OrganizationOf, OperatorOf, RegistryOf, EscrowOf, TransitionOf;
  }

  lemma EscrowPositional(v: Vocabulary, m: Slots, p: Bytes)
    requires v.Lawful()
    ensures StaysPlain(v, ReaderKeyEscrow, m, p)
  {
    hide PathAt, KeyAt, ArchiveOf, OrganizationOf, OperatorOf, PostureOf, RegistryOf, TransitionOf;
  }

  lemma PlainPositional(v: Vocabulary, k: Kind, m: Slots, p: Bytes)
    requires v.Lawful() && k in {Registry, ClockRelease}
    ensures StaysPlain(v, k, m, p)
  {
    hide PathAt, NumberAt, ArchiveOf, OrganizationOf, OperatorOf, PostureOf, EscrowOf, TransitionOf;
  }

  lemma TransitionPositional(v: Vocabulary, m: Slots, p: Bytes)
    requires v.Lawful()
    ensures StaysPlain(v, WriterTransition, m, p)
  {
    hide PathAt, NumberAt, ArchiveOf, OrganizationOf, OperatorOf, PostureOf, EscrowOf, RegistryOf;
  }

  lemma PositionalStaysPlain(v: Vocabulary, k: Kind, m: Slots, p: Bytes)
    requires v.Lawful()
    ensures StaysPlain(v, k, m, p)
  {
    hide StaysPlain, v.Lawful;
    match k
    case Organization => OrganizationPositional(v, m, p);
    case Operator => OperatorPositional(v, m, p);
    case Posture => PosturePositional(v, m, p);
    case ReaderKeyEscrow => EscrowPositional(v, m, p);
    case Registry => PlainPositional(v, k, m, p);
    case ClockRelease => PlainPositional(v, k, m, p);
    case WriterTransition => TransitionPositional(v, m, p);
    case _ => ArchivePositional(v, k, m, p);
  }

  lemma TwoWords(v: Vocabulary, k: Kind, p: Bytes, rest: seq<Bytes>)
    requires v.Lawful() && !Dashed(p)
    ensures Scan(v, NOTHING_SCANNED, [v.kindName(k), p] + rest) == Scan(v, Scanned(map[], Some(k), [p]), rest)
  {
    var tokens := [v.kindName(k), p] + rest;
    var named := Scanned(map[], Some(k), []);
    assert tokens[1..] == [p] + rest;
    assert ScanOne(v, NOTHING_SCANNED, tokens) == Ok((named, 1));
    assert ([p] + rest)[1..] == rest;
    assert [] + [p] == [p];
    assert ScanOne(v, named, [p] + rest) == Ok((Scanned(map[], Some(k), [p]), 1));
  }

  lemma CarriedIsWritable(v: Vocabulary, st: Scanned)
    requires v.Lawful() && WellScanned(v, st) && Build(v, st).Ok?
    ensures Writable(v, Build(v, st).value)
  {
    hide Build, Given, v.Lawful, Printable;
    forall s | Given(v, Build(v, st).value, s).Some?
      ensures Fits(s, Given(v, Build(v, st).value, s).value) && Printable(v, Given(v, Build(v, st).value, s).value)
    {
      NothingDropped(v, st, s);
      PrintableFormat(v);
    }
  }

  lemma PrintableFormat(v: Vocabulary)
    ensures Printable(v, FormatValue(false))
  {
  }

  lemma PositionalIsPlain(v: Vocabulary, st: Scanned)
    requires v.Lawful() && WellScanned(v, st) && Build(v, st).Ok?
    ensures !Dashed(Positional(v, Build(v, st).value.command))
  {
    hide CommandOf, Positional, v.Lawful, FirstRefused, PathAt, Fits, Printable;
    PositionalStaysPlain(v, st.kind.value, st.slots - {Format}, st.positionals[0]);
  }

  // ------------------------------------------------------------------ reordering

  /** One unit of a command line: a switch with its value, a flag, or a plain word. */
  datatype Item = Valued(switch: Switch, token: Bytes) | Flag(switch: Switch) | Plain(token: Bytes)

  /** The unit stands for itself: values and words do not look like switches, and the switch takes what it is given. */
  predicate Proper(v: Vocabulary, item: Item) {
    match item
    case Valued(s, t) => ShapeOf(s) != FlagShape && !Dashed(t) && ReadValue(v, s, t).Ok?
    case Flag(s) => ShapeOf(s) == FlagShape
    case Plain(t) => !Dashed(t)
  }

  function Tokens(v: Vocabulary, item: Item): seq<Bytes> {
    match item
    case Valued(s, t) => [v.switchName(s), t]
    case Flag(s) => [v.switchName(s)]
    case Plain(t) => [t]
  }

  function Flatten(v: Vocabulary, items: seq<Item>): seq<Bytes> {
    if items == [] then [] else Tokens(v, items[0]) + Flatten(v, items[1..])
  }

  /** The plain words in their order. */
  function Words(items: seq<Item>): seq<Bytes> {
    if items == [] then []
    else if items[0].Plain? then [items[0].token] + Words(items[1..])
    else Words(items[1..])
  }

  function ItemValue(v: Vocabulary, item: Item): Value
    requires Proper(v, item) && !item.Plain?
  {
    if item.Flag? then FlagValue else ReadValue(v, item.switch, item.token).value
  }

  /** What scanning plain words does: the first names the command. */
  function Spoken(v: Vocabulary, st: Scanned, words: seq<Bytes>): Result<Scanned, UsageError>
    decreases |words|
  {
    if words == [] then Ok(st)
    else if st.kind.None? then
      match v.kindOf(words[0])
      case None => Err(UnknownCommand(words[0]))
      case Some(k) => Spoken(v, st.(kind := Some(k)), words[1..])
    else Spoken(v, st.(positionals := st.positionals + [words[0]]), words[1..])
  }

  lemma ItemIsScanned(v: Vocabulary, st: Scanned, item: Item, rest: seq<Bytes>)
    requires v.Lawful() && Proper(v, item) && !item.Plain?
    ensures Scan(v, st, Tokens(v, item) + rest) ==
            if item.switch in st.slots then Err(DuplicateSwitch(item.switch))
            else Scan(v, st.(slots := st.slots[item.switch := ItemValue(v, item)]), rest)
  {
    hide ReadValue;
    var tokens := Tokens(v, item) + rest;
    if item.Flag? {
      assert tokens[1..] == rest;
    } else {
      assert tokens[2..] == rest;
    }
  }

  lemma WordIsScanned(v: Vocabulary, st: Scanned, t: Bytes, rest: seq<Bytes>)
    requires !Dashed(t)
    ensures Scan(v, st, [t] + rest) ==
            if st.kind.Some? then Scan(v, st.(positionals := st.positionals + [t]), rest)
            else match v.kindOf(t) { case None => Err(UnknownCommand(t)) case Some(k) =>
                 Scan(v, st.(kind := Some(k)), rest) }
  {
    assert ([t] + rest)[1..] == rest;
  }

  predicate AllProper(v: Vocabulary, items: seq<Item>) {
    forall x <- items :: Proper(v, x)
  }

  /** No switch is given twice, neither among the units nor by what was there. */
  ghost predicate GivenOnce(units: multiset<Item>, m: Slots) {
    && (forall x <- units :: !x.Plain? ==> units[x] == 1 && x.switch !in m)
    && forall x, y :: x in units && y in units && !x.Plain? && !y.Plain? && x.switch == y.switch ==> x == y
  }

  /** The table holds what was there and, under its switch, what each unit gives, and nothing else. */
  ghost predicate Fills(v: Vocabulary, m: Slots, units: multiset<Item>, after: Slots) {
    && (forall s :: s in m ==> s in after && after[s] == m[s])
    && (forall x <- units :: !x.Plain? && Proper(v, x) ==> x.switch in after && after[x.switch] == ItemValue(v, x))
    && forall s :: s in after && s !in m ==> GivenBy(units, s)
  }

  ghost predicate GivenBy(units: multiset<Item>, s: Switch) {
    exists x :: x in units && !x.Plain? && x.switch == s
  }

  lemma FillsOnce(v: Vocabulary, m: Slots, items: seq<Item>, a: Slots, b: Slots)
    requires AllProper(v, items) && Fills(v, m, multiset(items), a) && Fills(v, m, multiset(items), b)
    ensures a == b
  {
    forall s
      ensures s in a <==> s in b
      ensures s in a && s in b ==> a[s] == b[s]
    {
      if s !in m && GivenBy(multiset(items), s) {
        var x :| x in multiset(items) && !x.Plain? && x.switch == s;
        assert x in items;
      }
    }
  }

  /** Adding one unit in front. */
  lemma OnceMore(x: Item, rest: seq<Item>, m: Slots, value: Value)
    requires !x.Plain?
    ensures GivenOnce(multiset([x] + rest), m) <==> x.switch !in m && GivenOnce(multiset(rest), m[x.switch := value])
  {
    var units, more := multiset(rest), multiset([x] + rest);
    assert more == units + multiset{x};
    if GivenOnce(more, m) {
      assert x in more && more[x] == 1;
      forall y | y in units && !y.Plain?
        ensures units[y] == 1 && y.switch != x.switch && y.switch !in m
      {
        assert y in more;
      }
    }
  }

  lemma WordMore(x: Item, rest: seq<Item>, m: Slots)
    requires x.Plain?
    ensures GivenOnce(multiset([x] + rest), m) <==> GivenOnce(multiset(rest), m)
  {
    var units, more := multiset(rest), multiset([x] + rest);
    assert more == units + multiset{x};
    assert forall y: Item :: !y.Plain? ==> more[y] == units[y];
  }

  lemma FillsMore(v: Vocabulary, x: Item, rest: seq<Item>, m: Slots, after: Slots)
    requires Proper(v, x)
    requires if x.Plain? then Fills(v, m, multiset(rest), after)
             else x.switch !in m && Fills(v, m[x.switch := ItemValue(v, x)], multiset(rest), after)
    ensures Fills(v, m, multiset([x] + rest), after)
  {
    var units, more := multiset(rest), multiset([x] + rest);
    assert more == units + multiset{x};
    forall s | s in after && s !in m
      ensures GivenBy(more, s)
    {
      if !x.Plain? && s == x.switch {
        assert x in more;
      } else {
        assert GivenBy(units, s);
        var y :| y in units && !y.Plain? && y.switch == s;
        assert y in more;
      }
    }
  }

  lemma {:induction false} SpokenOnly(v: Vocabulary, st: Scanned, words: seq<Bytes>, m: Slots)
    ensures Spoken(v, st.(slots := m), words) == match Spoken(v, st, words) { case Ok(r) =>
            Ok(r.(slots := m)) case Err(e) => Err(e) }
    decreases |words|
  {
    if words != [] {
      if st.kind.None? {
        if v.kindOf(words[0]).Some? {
          SpokenOnly(v, st.(kind := v.kindOf(words[0])), words[1..], m);
        }
      } else {
        SpokenOnly(v, st.(positionals := st.positionals + [words[0]]), words[1..], m);
      }
    }
  }

  /** Exactly which lines scan, and to what: a matter of the units and of the words' order only. */
  lemma {:induction false} ScanOfItems(v: Vocabulary, st: Scanned, items: seq<Item>)
    requires v.Lawful() && AllProper(v, items)
    ensures Scan(v, st, Flatten(v, items)).Ok? <==>
            GivenOnce(multiset(items), st.slots) && Spoken(v, st, Words(items)).Ok?
    ensures Scan(v, st, Flatten(v, items)).Ok? ==>
              var r := Scan(v, st, Flatten(v, items)).value;
              Fills(v, st.slots, multiset(items), r.slots) && Spoken(v, st, Words(items)) == Ok(r.(slots := st.slots))
    decreases |items|
  {
    hide v.Lawful, Scan, GivenOnce, Fills, ReadValue;
    if items == [] {
      ScanNothing(v, st);
      NoUnits(v, st.slots);
    } else {
      var x, rest := items[0], items[1..];
      assert items == [x] + rest && Proper(v, x);
      if x.Plain? {
        WordIsScanned(v, st, x.token, Flatten(v, rest));
        WordMore(x, rest, st.slots);
        if st.kind.Some? || v.kindOf(x.token).Some? {
          var next := if st.kind.Some? then st.(positionals := st.positionals + [x.token])
            else st.(kind := v.kindOf(x.token));
          ScanOfItems(v, next, rest);
          if Scan(v, next, Flatten(v, rest)).Ok? {
            FillsMore(v, x, rest, st.slots, Scan(v, next, Flatten(v, rest)).value.slots);
          }
        }
      } else {
        ItemIsScanned(v, st, x, Flatten(v, rest));
        OnceMore(x, rest, st.slots, ItemValue(v, x));
        if x.switch !in st.slots {
          var next := st.(slots := st.slots[x.switch := ItemValue(v, x)]);
          ScanOfItems(v, next, rest);
          SpokenOnly(v, st, Words(rest), next.slots);
          SpokenOnly(v, st, Words(rest), st.slots);
          assert st.(slots := st.slots) == st;
          if Scan(v, next, Flatten(v, rest)).Ok? {
            FillsMore(v, x, rest, st.slots, Scan(v, next, Flatten(v, rest)).value.slots);
          }
        }
      }
    }
  }

  lemma NoUnits(v: Vocabulary, m: Slots)
    ensures GivenOnce(multiset{}, m) && Fills(v, m, multiset{}, m)
  {
  }

  /**
    Reordering the units around the plain words, whose own order stays, changes
    neither whether the line is accepted nor the invocation.
  */
  lemma OrderDoesNotMatter(v: Vocabulary, a: seq<Item>, b: seq<Item>)
    requires v.Lawful() && AllProper(v, a) && multiset(a) == multiset(b) && Words(a) == Words(b)
    ensures Parsed(v, Flatten(v, a)).Ok? ==> Parsed(v, Flatten(v, b)) == Parsed(v, Flatten(v, a))
  {
    hide v.Lawful, Scan, Build, GivenOnce, Fills, Spoken, Proper;
    assert AllProper(v, b) by {
      forall x | x in b
        ensures Proper(v, x)
      {
        assert x in multiset(a);
      }
    }
    ScanOfItems(v, NOTHING_SCANNED, a);
    ScanOfItems(v, NOTHING_SCANNED, b);
    var left, right := Scan(v, NOTHING_SCANNED, Flatten(v, a)), Scan(v, NOTHING_SCANNED, Flatten(v, b));
    if left.Ok? {
      FillsOnce(v, map[], a, left.value.slots, right.value.slots);
      assert left.value.(slots := map[]) == right.value.(slots := map[]);
      assert left == right;
      assert |a| == |multiset(a)| == |multiset(b)| == |b|;
      NonEmpty(v, a);
      NonEmpty(v, b);
    }
  }

  lemma NonEmpty(v: Vocabulary, items: seq<Item>)
    ensures Flatten(v, items) == [] <==> items == []
  {
  }

  lemma FirstUnit(v: Vocabulary, st: Scanned, tokens: seq<Bytes>) returns (first: Item)
    requires v.Lawful() && tokens != [] && ScanOne(v, st, tokens).Ok?
    ensures Proper(v, first) && Tokens(v, first) == tokens[..ScanOne(v, st, tokens).value.1]
  {
    hide ReadValue;
    var t := tokens[0];
    first :=
      if !Dashed(t) then Plain(t)
      else if ShapeOf(v.switchOf(t).value) == FlagShape then Flag(v.switchOf(t).value)
      else Valued(v.switchOf(t).value, tokens[1]);
  }

  /** Every line that scans is made of such units. */
  lemma {:induction false} LinesAreUnits(v: Vocabulary, st: Scanned, tokens: seq<Bytes>) returns (items: seq<Item>)
    requires v.Lawful() && Scan(v, st, tokens).Ok?
    ensures AllProper(v, items) && Flatten(v, items) == tokens
    decreases |tokens|
  {
    hide ScanOne, Proper, Tokens, v.Lawful;
    if tokens == [] {
      items := [];
    } else {
      var (next, used) := ScanOne(v, st, tokens).value;
      var rest := LinesAreUnits(v, next, tokens[used..]);
      var first := FirstUnit(v, st, tokens);
      items := [first] + rest;
      assert items[1..] == rest;
      assert tokens == tokens[..used] + tokens[used..];
    }
  }
}
