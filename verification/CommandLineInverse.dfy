/** Which invocations the grammar can express: exactly those that parse back from their own rendering. */
module CommandLineInverse {
  import opened Bytes
  import opened CommandLine
  import opened CommandLineLaws

  // ------------------------------------------------------------- valid invocations

  /** What the checks of the commands themselves demand of the values. */
  predicate ValidCommand(v: Vocabulary, c: Command) {
    match c
    case OrganizationBundleRelease(_, _, version, _) => v.isUtf8(version)
    case OperatorCommand(action, _, profile) =>
      action in {Provision, VerifySession, Revoke, RegisterNetworkArchive}
        && (profile.Some? <==> action == RegisterNetworkArchive)
    case PostureCommand(IssueAction(_, _, lifetime, _), _) => 1 <= lifetime <= 86_400_000
    case RevocationPlanCommand(_, _, _, notAfter) => notAfter <= I64_MAX
    case TransitionActivate(_, _, _, _, notAfter) => notAfter <= I64_MAX
    case _ => true
  }

  /** Every value can be written, and the two report options go with a report. */
  ghost predicate Valid(v: Vocabulary, inv: Invocation) {
    && Writable(v, inv) && !Dashed(Positional(v, inv.command)) && ValidCommand(v, inv.command)
    && (inv.runtimeMetadata || inv.reportSigningKey.Some? ==> inv.command.ReportCommand?)
  }

  // ------------------------------------------------- a table that spells a command

  /** The table holds what the command carries, and nothing else of its own. */
  ghost predicate Spells(v: Vocabulary, c: Command, m: Slots) {
    forall s :: s !in COMMON ==> At(m, s) == Carries(v, c, s)
  }

  // What the typed look-ups find in such a table.

  lemma PathIs(v: Vocabulary, c: Command, m: Slots, s: Switch, o: Option<Bytes>)
    requires Spells(v, c, m) && s !in COMMON && Carries(v, c, s) == MaybePath(o)
    ensures PathAt(m, s) == o && (s in m <==> o.Some?)
  {
    hide Carries;
    assert At(m, s) == Carries(v, c, s);
  }

  lemma NumberIs(v: Vocabulary, c: Command, m: Slots, s: Switch, o: Option<u64>)
    requires Spells(v, c, m) && s !in COMMON && Carries(v, c, s) == MaybeNumber(o)
    ensures NumberAt(m, s) == o && (s in m <==> o.Some?)
  {
    hide Carries;
    assert At(m, s) == Carries(v, c, s);
  }

  lemma KeyIs(v: Vocabulary, c: Command, m: Slots, s: Switch, o: Option<KeySource>)
    requires Spells(v, c, m) && s !in COMMON && Carries(v, c, s) == if o.Some? then KeyGiven(o.value) else None
    ensures KeyAt(m, s) == o && (s in m <==> o.Some?)
  {
    hide Carries;
    assert At(m, s) == Carries(v, c, s);
  }

  lemma WordIsRead(v: Vocabulary, w: Word)
    requires v.Lawful()
    ensures v.wordOf(v.wordName(w)) == Some(w) && v.samePath(v.wordName(w), v.wordName(w))
  {
  }

  lemma OtherWord(v: Vocabulary, a: Word, b: Word)
    requires v.Lawful() && a != b
    ensures !v.samePath(v.wordName(a), v.wordName(b))
  {
  }

  // ------------------------------------------------------- command by command

  /** The command is what the table and its own positional give. */
  predicate Rebuilt(v: Vocabulary, c: Command, m: Slots) {
    CommandOf(v, KindOf(c), m, Positional(v, c)) == Ok(c)
  }

  lemma ArchiveRebuilt(v: Vocabulary, c: Command, m: Slots)
    requires Spells(v, c, m) && KindOf(c) in {Verify, List, Decrypt, Report, Export}
    ensures Rebuilt(v, c, m)
  {
    hide Spells, v.Lawful, PathAt, NumberAt, KeyAt, OrganizationOf, OperatorOf, PostureOf, RegistryOf, EscrowOf,
      TransitionOf, RecoveryRuntimeOf, RuntimeCarries, PostureCarries;
    if c.DecryptCommand? {
      KeyIs(v, c, m, Key, Some(c.key));
    }
    if c.DecryptCommand? || c.ReportCommand? || c.ExportCommand? {
      PathIs(v, c, m, Output, Some(c.output));
    }
  }

  lemma GrantRebuilt(v: Vocabulary, c: Command, m: Slots)
    requires Spells(v, c, m) && c.GrantCommand?
    ensures Rebuilt(v, c, m)
  {
    hide Spells, v.Lawful, PathAt, NumberAt, KeyAt, OrganizationOf, OperatorOf, PostureOf, RegistryOf, EscrowOf,
      TransitionOf, RuntimeCarries, PostureCarries, RecoveryRuntimeOf;
    KeyIs(v, c, m, RecoveryKey, Some(c.recoveryKey));
    KeyIs(v, c, m, AuthorityKey, Some(c.authorityKey));
    PathIs(v, c, m, Authorization, Some(c.authorization));
    PathIs(v, c, m, RecipientCert, Some(c.recipient));
    PathIs(v, c, m, OperatorConfig, c.grantConfig);
    PathIs(v, c, m, Output, c.grantOutput);
  }

  lemma OperatorRebuilt(v: Vocabulary, c: Command, m: Slots)
    requires v.Lawful() && Spells(v, c, m) && ValidCommand(v, c) && c.OperatorCommand?
    ensures Rebuilt(v, c, m)
  {
    hide Spells, v.Lawful, PathAt, NumberAt, KeyAt, ArchiveOf, OrganizationOf, PostureOf, RegistryOf, EscrowOf,
      TransitionOf, RuntimeCarries, PostureCarries;
    PathIs(v, c, m, OperatorConfig, Some(c.config));
    PathIs(v, c, m, NetworkArchiveProfile, c.archiveProfile);
    WordIsRead(v, c.action);
  }

  lemma RegistryRebuilt(v: Vocabulary, c: Command, m: Slots)
    requires v.Lawful() && Spells(v, c, m) && ValidCommand(v, c) && c.RevocationPlanCommand?
    ensures Rebuilt(v, c, m)
  {
    hide Spells, v.Lawful, PathAt, NumberAt, KeyAt, ArchiveOf, OrganizationOf, OperatorOf, PostureOf, EscrowOf,
      TransitionOf, RuntimeCarries, PostureCarries;
    PathIs(v, c, m, OperatorConfig, Some(c.config));
    NumberIs(v, c, m, EffectiveFrom, Some(c.effectiveFrom));
    NumberIs(v, c, m, ValidThrough, Some(c.validThrough));
    NumberIs(v, c, m, NotAfter, Some(c.notAfter));
    WordIsRead(v, RevocationPlan);
  }

  lemma ClockRebuilt(v: Vocabulary, c: Command, m: Slots)
    requires v.Lawful() && Spells(v, c, m) && c.ClockReleaseApply?
    ensures Rebuilt(v, c, m)
  {
    hide Spells, v.Lawful, PathAt, NumberAt, KeyAt, ArchiveOf, OrganizationOf, OperatorOf, PostureOf, RegistryOf,
      EscrowOf, TransitionOf, RuntimeCarries, PostureCarries;
    PathIs(v, c, m, OperatorConfig, Some(c.config));
    PathIs(v, c, m, Release, Some(c.release));
    WordIsRead(v, Apply);
  }

  lemma PrepareRebuilt(v: Vocabulary, c: Command, m: Slots)
    requires v.Lawful() && Spells(v, c, m) && c.TransitionPrepare?
    ensures Rebuilt(v, c, m)
  {
    hide Spells, v.Lawful, PathAt, NumberAt, KeyAt, ArchiveOf, OrganizationOf, OperatorOf, PostureOf, RegistryOf,
      EscrowOf, RuntimeCarries, PostureCarries;
    PathIs(v, c, m, OperatorConfig, Some(c.config));
    PathIs(v, c, m, Request, Some(c.request));
    PathIs(v, c, m, TransitionObject, None);
    NumberIs(v, c, m, ValidThrough, None);
    NumberIs(v, c, m, NotAfter, None);
    WordIsRead(v, Prepare);
  }

  lemma ActivationRead(v: Vocabulary, c: Command, m: Slots)
    requires v.Lawful() && Spells(v, c, m) && ValidCommand(v, c) && c.TransitionActivate?
    ensures TransitionOf(v, m, v.wordName(Activate)) == Ok(c)
  {
    hide Spells, v.Lawful, PathAt, NumberAt, KeyAt, ArchiveOf, OrganizationOf, OperatorOf, PostureOf, RegistryOf,
      EscrowOf, RuntimeCarries, PostureCarries;
    PathIs(v, c, m, OperatorConfig, Some(c.config));
    PathIs(v, c, m, Request, Some(c.request));
    PathIs(v, c, m, TransitionObject, Some(c.held));
    NumberIs(v, c, m, ValidThrough, Some(c.validThrough));
    NumberIs(v, c, m, NotAfter, Some(c.notAfter));
    WordIsRead(v, Activate);
    OtherWord(v, Activate, Prepare);
  }

  lemma ActivateRebuilt(v: Vocabulary, c: Command, m: Slots)
    requires v.Lawful() && Spells(v, c, m) && ValidCommand(v, c) && c.TransitionActivate?
    ensures Rebuilt(v, c, m)
  {
    hide Spells, v.Lawful, TransitionOf, ArchiveOf;
    ActivationRead(v, c, m);
  }

  lemma OpenRebuilt(v: Vocabulary, c: Command, m: Slots)
    requires v.Lawful() && Spells(v, c, m) && c.EscrowOpen?
    ensures Rebuilt(v, c, m)
  {
    hide Spells, v.Lawful, PathAt, NumberAt, KeyAt, ArchiveOf, OrganizationOf, OperatorOf, PostureOf, RegistryOf,
      TransitionOf, RuntimeCarries, PostureCarries;
    KeyIs(v, c, m, RecoveryKey, Some(c.recoveryKey));
    PathIs(v, c, m, OperatorConfig, Some(c.config));
    PathIs(v, c, m, Authorization, Some(c.authorization));
    PathIs(v, c, m, EscrowInbox, Some(c.inbox));
    PathIs(v, c, m, EscrowOutbox, Some(c.outbox));
    WordIsRead(v, Open);
  }

  lemma PickupRebuilt(v: Vocabulary, c: Command, m: Slots)
    requires v.Lawful() && Spells(v, c, m) && c.EscrowPickup?
    ensures Rebuilt(v, c, m)
  {
    hide Spells, v.Lawful, PathAt, NumberAt, KeyAt, ArchiveOf, OrganizationOf, OperatorOf, PostureOf, RegistryOf,
      TransitionOf, RuntimeCarries, PostureCarries;
    KeyIs(v, c, m, RecoveryKey, None);
    PathIs(v, c, m, OperatorConfig, Some(c.config));
    PathIs(v, c, m, Authorization, Some(c.authorization));
    PathIs(v, c, m, EscrowInbox, Some(c.inbox));
    PathIs(v, c, m, EscrowOutbox, Some(c.outbox));
    WordIsRead(v, Pickup);
  }

  lemma InitRebuilt(v: Vocabulary, c: Command, m: Slots)
    requires v.Lawful() && Spells(v, c, m) && c.OrganizationInit?
    ensures Rebuilt(v, c, m)
  {
    hide Spells, v.Lawful, PathAt, NumberAt, KeyAt, ArchiveOf, OperatorOf, PostureOf, RegistryOf, EscrowOf,
      TransitionOf, RuntimeCarries, PostureCarries, PublishOf, BundleReleaseOf, BundleRevokeOf;
    NumberIs(v, c, m, InitialRegistryVersion, None);
    WordIsRead(v, Init);
  }

  lemma CertifyRebuilt(v: Vocabulary, c: Command, m: Slots)
    requires v.Lawful() && Spells(v, c, m) && c.OrganizationCertifyRoot?
    ensures Rebuilt(v, c, m)
  {
    hide Spells, v.Lawful, PathAt, NumberAt, KeyAt, ArchiveOf, OperatorOf, PostureOf, RegistryOf, EscrowOf,
      TransitionOf, RuntimeCarries, PostureCarries, PublishOf, BundleReleaseOf, BundleRevokeOf;
    NumberIs(v, c, m, InitialRegistryVersion, Some(c.version));
    WordIsRead(v, CertifyRoot);
  }

  lemma PublishRebuilt(v: Vocabulary, c: Command, m: Slots)
    requires v.Lawful() && Spells(v, c, m) && c.OrganizationEscrowPublish?
    ensures Rebuilt(v, c, m)
  {
    hide Spells, v.Lawful, PathAt, NumberAt, KeyAt, ArchiveOf, OperatorOf, PostureOf, RegistryOf, EscrowOf,
      TransitionOf, RuntimeCarries, PostureCarries, BundleReleaseOf, BundleRevokeOf;
    NumberIs(v, c, m, InitialRegistryVersion, None);
    PathIs(v, c, m, OperatorConfig, Some(c.config));
    PathIs(v, c, m, EscrowInbox, Some(c.inbox));
    WordIsRead(v, EscrowPublish);
  }

  lemma ReleaseRebuilt(v: Vocabulary, c: Command, m: Slots)
    requires v.Lawful() && Spells(v, c, m) && ValidCommand(v, c) && c.OrganizationBundleRelease?
    ensures Rebuilt(v, c, m)
  {
    hide Spells, v.Lawful, PathAt, NumberAt, KeyAt, ArchiveOf, OperatorOf, PostureOf, RegistryOf, EscrowOf,
      TransitionOf, RuntimeCarries, PostureCarries, PublishOf, BundleRevokeOf;
    NumberIs(v, c, m, InitialRegistryVersion, None);
    PathIs(v, c, m, OperatorConfig, Some(c.config));
    PathIs(v, c, m, Bundle, Some(c.bundle));
    PathIs(v, c, m, BundleVersion, Some(c.bundleVersion));
    NumberIs(v, c, m, EffectiveFromRegistryVersion, c.effectiveVersion);
    WordIsRead(v, WebBundleRelease);
  }

  lemma RevokeRebuilt(v: Vocabulary, c: Command, m: Slots)
    requires v.Lawful() && Spells(v, c, m) && c.OrganizationBundleRevoke?
    ensures Rebuilt(v, c, m)
  {
    hide Spells, v.Lawful, PathAt, NumberAt, KeyAt, ArchiveOf, OperatorOf, PostureOf, RegistryOf, EscrowOf,
      TransitionOf, RuntimeCarries, PostureCarries, PublishOf, BundleReleaseOf;
    NumberIs(v, c, m, InitialRegistryVersion, None);
    PathIs(v, c, m, OperatorConfig, Some(c.config));
    PathIs(v, c, m, Release, Some(c.release));
    NumberIs(v, c, m, EffectiveFromRegistryVersion, c.effectiveVersion);
    WordIsRead(v, WebBundleRevoke);
  }

  lemma {:induction false} NoneOfOtherMode(v: Vocabulary, m: Slots, p: Bytes, order: seq<Switch>)
    requires forall s <- order :: s in m ==> PostureTakes(v, p, s)
    ensures FirstOfOtherMode(v, m, p, order).None?
  {
    hide PostureTakes;
    if order != [] {
      NoneOfOtherMode(v, m, p, order[1..]);
    }
  }

  /** The posture switches of a mode are its own. */
  lemma PostureOwn(v: Vocabulary, c: Command, m: Slots, s: Switch)
    requires v.Lawful() && Spells(v, c, m) && c.PostureCommand? && s in POSTURE_SET && s in m
    ensures PostureTakes(v, Positional(v, c), s)
  {
    hide v.Lawful, RuntimeCarries;
    assert At(m, s) == PostureCarries(c.posture, s);
    hide Spells, Carries;
    match c.posture
    case TargetAction(_) => WordIsRead(v, Target);
    case IssueAction(_, _, _, _) => WordIsRead(v, Issue);
    case PostureImport(_) => WordIsRead(v, Import);
  }

  lemma NoOtherPosture(v: Vocabulary, c: Command, m: Slots)
    requires v.Lawful() && Spells(v, c, m) && c.PostureCommand?
    ensures FirstOfOtherMode(v, m, Positional(v, c), POSTURE_ORDER).None?
  {
    hide Spells, v.Lawful, PostureTakes, Positional, FirstOfOtherMode;
    forall s <- POSTURE_ORDER
      ensures s in m ==> PostureTakes(v, Positional(v, c), s)
    {
      if s in m {
        PostureOwn(v, c, m, s);
      }
    }
    NoneOfOtherMode(v, m, Positional(v, c), POSTURE_ORDER);
  }

  lemma IssueRead(v: Vocabulary, c: Command, m: Slots)
    requires v.Lawful() && Spells(v, c, m) && ValidCommand(v, c) && c.PostureCommand? && c.posture.IssueAction?
    ensures PostureActionOf(v, m, Positional(v, c)) == Ok(c.posture)
  {
    hide Spells, v.Lawful, PathAt, NumberAt, RuntimeCarries;
    PathIs(v, c, m, PostureTarget, Some(c.posture.target));
    PathIs(v, c, m, EvidenceReference, Some(c.posture.evidence));
    NumberIs(v, c, m, ValidForMs, Some(c.posture.lifetimeMs));
    PathIs(v, c, m, Output, Some(c.posture.output));
    WordIsRead(v, Issue);
  }

  lemma PostureRead(v: Vocabulary, c: Command, m: Slots)
    requires v.Lawful() && Spells(v, c, m) && ValidCommand(v, c) && c.PostureCommand?
    ensures PostureActionOf(v, m, Positional(v, c)) == Ok(c.posture)
  {
    hide Spells, v.Lawful, PathAt, NumberAt, RuntimeCarries;
    match c.posture
    case TargetAction(output) =>
      PathIs(v, c, m, Output, Some(output));
      WordIsRead(v, Target);
    case IssueAction(_, _, _, _) => IssueRead(v, c, m);
    case PostureImport(document) =>
      PathIs(v, c, m, PostureDocument, Some(document));
      WordIsRead(v, Import);
  }

  lemma PostureRebuilt(v: Vocabulary, c: Command, m: Slots)
    requires v.Lawful() && Spells(v, c, m) && ValidCommand(v, c) && c.PostureCommand?
    ensures Rebuilt(v, c, m)
  {
    hide Spells, v.Lawful, PathAt, NumberAt, KeyAt, ArchiveOf, OrganizationOf, OperatorOf, RegistryOf, EscrowOf,
      TransitionOf, RuntimeCarries, FirstOfOtherMode, PostureActionOf, Positional;
    PathIs(v, c, m, OperatorConfig, Some(c.config));
    NoOtherPosture(v, c, m);
    PostureRead(v, c, m);
  }

  // ---------------------------------------------------------- the recovery test

  lemma {:induction false} NoneLeft(m: Slots, used: set<Switch>, order: seq<Switch>)
    requires forall s <- order :: s in m ==> s in used
    ensures FirstLeft(m, used, order).None?
  {
    if order != [] {
      NoneLeft(m, used, order[1..]);
    }
  }

  const ACTION_SET := {SourceEnvelope, Snapshot, BackupPassphraseFile, RestoreDatabase, MediaSources, CompletedReport}

  lemma RuntimeIs(v: Vocabulary, c: Command, m: Slots, s: Switch, o: Option<Bytes>)
    requires Spells(v, c, m) && c.RecoveryTestCommand? && s in RECOVERY_SET + {OperatorConfig}
    requires RuntimeCarries(v, c.runtime, s) == MaybePath(o)
    ensures PathAt(m, s) == o && (s in m <==> o.Some?)
  {
    hide RuntimeCarries, Spells, PathAt;
    PathIs(v, c, m, s, o);
  }

  lemma ActionIs(v: Vocabulary, c: Command, m: Slots, s: Switch, o: Option<Bytes>)
    requires Spells(v, c, m) && c.RecoveryTestCommand? && c.runtime.Some? && s in ACTION_SET
    requires ActionCarries(c.runtime.value.action, s) == MaybePath(o)
    ensures PathAt(m, s) == o && (s in m <==> o.Some?)
  {
    hide ActionCarries, Spells, PathAt;
    RuntimeIs(v, c, m, s, o);
  }

  lemma RestoreRead(v: Vocabulary, c: Command, m: Slots)
    requires Spells(v, c, m) && c.RecoveryTestCommand? && c.runtime.Some? && c.runtime.value.action.RestoreAction?
    ensures RestoreOf(m) == Ok(c.runtime.value.action)
  {
    hide Spells, PathAt, Carries, RuntimeCarries;
    var a := c.runtime.value.action;
    ActionIs(v, c, m, SourceEnvelope, Some(a.source));
    ActionIs(v, c, m, Snapshot, Some(a.snapshot));
    ActionIs(v, c, m, BackupPassphraseFile, Some(a.passphrase));
    ActionIs(v, c, m, RestoreDatabase, Some(a.restore));
    ActionIs(v, c, m, MediaSources, Some(a.media));
  }

  lemma ActionRead(v: Vocabulary, c: Command, m: Slots)
    requires v.Lawful() && Spells(v, c, m) && c.RecoveryTestCommand? && c.runtime.Some?
    ensures RecoveryActionOf(v, m, v.wordName(ModeOf(c.runtime.value.action))) == Ok(c.runtime.value.action)
  {
    hide Spells, v.Lawful, PathAt, Carries, RuntimeCarries, RestoreOf;
    WordIsRead(v, ModeOf(c.runtime.value.action));
    match c.runtime.value.action
    case CaptureAction(snapshot, passphrase) =>
      ActionIs(v, c, m, Snapshot, Some(snapshot));
      ActionIs(v, c, m, BackupPassphraseFile, Some(passphrase));
    case RestoreAction(_, _, _, _, _) => RestoreRead(v, c, m);
    case ImportAction(source, report) =>
      ActionIs(v, c, m, SourceEnvelope, Some(source));
      ActionIs(v, c, m, CompletedReport, Some(report));
    case StatusAction =>
    case FailureAction(restore) => ActionIs(v, c, m, RestoreDatabase, Some(restore));
  }

  lemma NothingLeftOver(v: Vocabulary, c: Command, m: Slots)
    requires Spells(v, c, m) && c.RecoveryTestCommand? && c.runtime.Some?
    ensures FirstLeft(m, RecoveryUses(c.runtime.value.action), RECOVERY_PATHS).None?
  {
    hide Spells, FirstLeft, Carries, ActionCarries, RecoveryUses, PathAt;
    var used := RecoveryUses(c.runtime.value.action);
    forall s <- RECOVERY_PATHS
      ensures s in m ==> s in used
    {
      if s !in used {
        ActionUses(c.runtime.value.action, s);
        ActionIs(v, c, m, s, None);
      }
    }
    NoneLeft(m, used, RECOVERY_PATHS);
  }

  lemma NoRuntime(v: Vocabulary, c: Command, m: Slots)
    requires Spells(v, c, m) && c.RecoveryTestCommand? && c.runtime.None?
    ensures RecoveryRuntimeOf(v, m) == Ok(None)
  {
    hide Spells, Carries, PathAt;
    RuntimeIs(v, c, m, OperatorConfig, None);
    RuntimeIs(v, c, m, RecoveryMode, None);
    forall s | s in m
      ensures !IsRecoveryPath(s)
    {
      if IsRecoveryPath(s) {
        RuntimeIs(v, c, m, s, None);
      }
    }
  }

  lemma RuntimeRead(v: Vocabulary, c: Command, m: Slots)
    requires v.Lawful() && Spells(v, c, m) && c.RecoveryTestCommand?
    ensures RecoveryRuntimeOf(v, m) == Ok(c.runtime)
  {
    hide Spells, v.Lawful, PathAt, Carries, RecoveryActionOf, FirstLeft, HasRecoveryPath, ActionCarries;
    if c.runtime.None? {
      NoRuntime(v, c, m);
    } else {
      var r := c.runtime.value;
      RuntimeIs(v, c, m, RecoveryMode, Some(v.wordName(ModeOf(r.action))));
      RuntimeIs(v, c, m, OperatorConfig, Some(r.config));
      RuntimeIs(v, c, m, ArchiveProfile, Some(r.profile));
      RuntimeIs(v, c, m, ComponentExport, r.componentExport);
      ActionRead(v, c, m);
      NothingLeftOver(v, c, m);
    }
  }

  lemma RecoveryTestRebuilt(v: Vocabulary, c: Command, m: Slots)
    requires v.Lawful() && Spells(v, c, m) && c.RecoveryTestCommand?
    ensures Rebuilt(v, c, m)
  {
    hide Spells, v.Lawful, PathAt, NumberAt, KeyAt, OrganizationOf, OperatorOf, PostureOf, RegistryOf, EscrowOf,
      TransitionOf, RuntimeCarries, PostureCarries, RecoveryRuntimeOf;
    PathIs(v, c, m, KeyInventory, Some(c.keyInventory));
    PathIs(v, c, m, Output, Some(c.output));
    RuntimeRead(v, c, m);
  }

  lemma CommandRebuilt(v: Vocabulary, c: Command, m: Slots)
    requires v.Lawful() && Spells(v, c, m) && ValidCommand(v, c)
    ensures Rebuilt(v, c, m)
  {
    hide Rebuilt, v.Lawful, Spells, ValidCommand;
    match c
    case GrantCommand(_, _, _, _, _, _, _) => GrantRebuilt(v, c, m);
    case RecoveryTestCommand(_, _, _, _) => RecoveryTestRebuilt(v, c, m);
    case OrganizationInit => InitRebuilt(v, c, m);
    case OrganizationCertifyRoot(_) => CertifyRebuilt(v, c, m);
    case OrganizationEscrowPublish(_, _) => PublishRebuilt(v, c, m);
    case OrganizationBundleRelease(_, _, _, _) => ReleaseRebuilt(v, c, m);
    case OrganizationBundleRevoke(_, _, _) => RevokeRebuilt(v, c, m);
    case OperatorCommand(_, _, _) => OperatorRebuilt(v, c, m);
    case PostureCommand(_, _) => PostureRebuilt(v, c, m);
    case RevocationPlanCommand(_, _, _, _) => RegistryRebuilt(v, c, m);
    case ClockReleaseApply(_, _) => ClockRebuilt(v, c, m);
    case EscrowOpen(_, _, _, _, _) => OpenRebuilt(v, c, m);
    case EscrowPickup(_, _, _, _) => PickupRebuilt(v, c, m);
    case TransitionPrepare(_, _) => PrepareRebuilt(v, c, m);
    case TransitionActivate(_, _, _, _, _) => ActivateRebuilt(v, c, m);
    case _ => ArchiveRebuilt(v, c, m);
  }

  // ------------------------------------------------------ every check is passed

  lemma OrganizationAllowed(v: Vocabulary, st: Scanned, c: Command, s: Switch)
    requires v.Lawful() && st.positionals == [Positional(v, c)] && KindOf(c) == Organization && s !in COMMON
    requires Carries(v, c, s).Some?
    ensures Allowed(v, st, Organization, s)
  {
    hide v.Lawful, RuntimeCarries, PostureCarries;
    WordIsRead(v, EscrowPublish);
    WordIsRead(v, WebBundleRelease);
    WordIsRead(v, WebBundleRevoke);
  }

  lemma RecoveryAllowed(v: Vocabulary, st: Scanned, c: Command, s: Switch)
    requires c.RecoveryTestCommand? && s !in COMMON && Carries(v, c, s).Some?
    ensures Allowed(v, st, RecoveryTest, s)
  {
    hide RuntimeCarries, IsOrganization;
    RuntimeCarriesOnly(v, c.runtime, s);
  }

  lemma OtherAllowed(v: Vocabulary, st: Scanned, c: Command, s: Switch)
    requires KindOf(c) != Organization && !c.RecoveryTestCommand? && s !in COMMON && Carries(v, c, s).Some?
    ensures Allowed(v, st, KindOf(c), s)
  {
    hide RuntimeCarries, IsOrganization;
  }

  lemma {:induction false} NothingRefused(v: Vocabulary, st: Scanned, k: Kind, order: seq<Switch>)
    requires forall s <- order :: s in st.slots ==> Allowed(v, st, k, s)
    ensures FirstRefused(v, st, k, order).None?
  {
    hide Allowed;
    if order != [] {
      NothingRefused(v, st, k, order[1..]);
    }
  }

  /** The table and the words a rendering is read as. */
  ghost predicate Holds(v: Vocabulary, inv: Invocation, st: Scanned) {
    && st.kind == Some(KindOf(inv.command)) && st.positionals == [Positional(v, inv.command)]
    && forall s :: At(st.slots, s) == Given(v, inv, s)
  }

  lemma GivenIsAllowed(v: Vocabulary, inv: Invocation, st: Scanned, s: Switch)
    requires v.Lawful() && Holds(v, inv, st) && s in st.slots
    requires inv.runtimeMetadata || inv.reportSigningKey.Some? ==> inv.command.ReportCommand?
    ensures Allowed(v, st, KindOf(inv.command), s)
  {
    hide v.Lawful, Carries, Positional;
    assert Given(v, inv, s).Some?;
    if s !in COMMON {
      assert Carries(v, inv.command, s).Some?;
      hide Allowed;
      if KindOf(inv.command) == Organization {
        OrganizationAllowed(v, st, inv.command, s);
      } else if inv.command.RecoveryTestCommand? {
        RecoveryAllowed(v, st, inv.command, s);
      } else {
        OtherAllowed(v, st, inv.command, s);
      }
    }
  }

  lemma AllowedWithoutFormat(v: Vocabulary, a: Scanned, b: Scanned, k: Kind, s: Switch)
    requires a.positionals == b.positionals
    ensures Allowed(v, a, k, s) <==> Allowed(v, b, k, s)
  {
  }

  lemma CheckedIsInvocation(v: Vocabulary, inv: Invocation, st: Scanned)
    requires v.Lawful() && Holds(v, inv, st) && ValidCommand(v, inv.command)
    requires inv.runtimeMetadata || inv.reportSigningKey.Some? ==> inv.command.ReportCommand?
    ensures Checked(v, st.(slots := st.slots - {Format}), KindOf(inv.command)) == Ok((inv.anchor, inv.command))
  {
    hide v.Lawful, Carries, Positional, CommandOf, Allowed, FirstRefused, KindOf, ValidCommand;
    var bare := st.(slots := st.slots - {Format});
    forall s <- CHECK_ORDER
      ensures s in bare.slots ==> Allowed(v, bare, KindOf(inv.command), s)
    {
      if s in bare.slots {
        GivenIsAllowed(v, inv, st, s);
        AllowedWithoutFormat(v, st, bare, KindOf(inv.command), s);
      }
    }
    NothingRefused(v, bare, KindOf(inv.command), CHECK_ORDER);
    assert At(st.slots, TrustAnchor) == Given(v, inv, TrustAnchor);
    assert Spells(v, inv.command, bare.slots) by { SpelledBare(v, inv, st); }
    CommandRebuilt(v, inv.command, bare.slots);
  }

  lemma SpelledBare(v: Vocabulary, inv: Invocation, st: Scanned)
    requires Holds(v, inv, st)
    ensures Spells(v, inv.command, st.slots - {Format})
  {
    hide Carries, Positional, KindOf;
    forall s | s !in COMMON
      ensures At(st.slots - {Format}, s) == Carries(v, inv.command, s)
    {
      assert At(st.slots, s) == Given(v, inv, s);
    }
  }

  lemma BuiltIsInvocation(v: Vocabulary, inv: Invocation, st: Scanned)
    requires v.Lawful() && Holds(v, inv, st) && ValidCommand(v, inv.command)
    requires inv.runtimeMetadata || inv.reportSigningKey.Some? ==> inv.command.ReportCommand?
    ensures Build(v, st) == Ok(inv)
  {
    hide v.Lawful, Carries, Positional, KindOf, Checked, ValidCommand;
    CheckedIsInvocation(v, inv, st);
    assert At(st.slots, Format) == Given(v, inv, Format);
    assert At(st.slots, IncludeRuntimeMetadata) == Given(v, inv, IncludeRuntimeMetadata);
    assert At(st.slots, ReportSigningKey) == Given(v, inv, ReportSigningKey);
  }

  /** Every valid invocation is what its own rendering parses to. */
  lemma ValidIsParsed(v: Vocabulary, inv: Invocation)
    requires v.Lawful() && Valid(v, inv)
    ensures Parsed(v, Render(v, inv)) == Ok(inv)
  {
    hide Build, Scan, Given, KindOf, Positional, v.Lawful, RenderFrom, Added, Fits, Printable, ValidCommand;
    var k, p := KindOf(inv.command), Positional(v, inv.command);
    TwoWords(v, k, p, RenderFrom(v, inv, ALL_SWITCHES));
    AllDistinct();
    RenderedIsScanned(v, inv, ALL_SWITCHES, Scanned(map[], Some(k), [p]));
    var st := Scanned(Added(v, inv, ALL_SWITCHES, map[]), Some(k), [p]);
    forall s
      ensures At(st.slots, s) == Given(v, inv, s)
    {
      AddedAt(v, inv, ALL_SWITCHES, map[], s);
      EverySwitchIsChecked(s);
    }
    BuiltIsInvocation(v, inv, st);
  }

  // ------------------------------------------------------- and nothing else parses

  lemma OrganizationIsValid(v: Vocabulary, m: Slots, p: Bytes)
    requires OrganizationOf(v, m, p).Ok?
    ensures ValidCommand(v, OrganizationOf(v, m, p).value)
  {
    hide PathAt, NumberAt;
  }

  lemma PlainIsValid(v: Vocabulary, m: Slots, p: Bytes)
    requires WellShaped(m)
    ensures OperatorOf(v, m, p).Ok? ==> ValidCommand(v, OperatorOf(v, m, p).value)
    ensures RegistryOf(v, m, p).Ok? ==> ValidCommand(v, RegistryOf(v, m, p).value)
  {
    hide PathAt, NumberAt, WellShaped;
    PathEntry(m, NetworkArchiveProfile);
  }

  lemma LaterIsValid(v: Vocabulary, m: Slots, p: Bytes)
    ensures PostureOf(v, m, p).Ok? ==> ValidCommand(v, PostureOf(v, m, p).value)
    ensures TransitionOf(v, m, p).Ok? ==> ValidCommand(v, TransitionOf(v, m, p).value)
    ensures EscrowOf(v, m, p).Ok? ==> ValidCommand(v, EscrowOf(v, m, p).value)
  {
    hide PathAt, NumberAt, KeyAt, FirstOfOtherMode;
  }

  lemma ArchiveIsValid(v: Vocabulary, k: Kind, m: Slots, p: Bytes)
    requires k in {Verify, List, Decrypt, Grant, Report, Export, RecoveryTest} && ArchiveOf(v, k, m, p).Ok?
    ensures ValidCommand(v, ArchiveOf(v, k, m, p).value)
  {
    hide PathAt, KeyAt, RecoveryRuntimeOf;
  }

  lemma CommandIsValid(v: Vocabulary, k: Kind, m: Slots, p: Bytes)
    requires WellShaped(m) && CommandOf(v, k, m, p).Ok?
    ensures ValidCommand(v, CommandOf(v, k, m, p).value)
  {
    hide ValidCommand, OrganizationOf, OperatorOf, RegistryOf, PostureOf, TransitionOf, EscrowOf, ArchiveOf,
      WellShaped, PathAt;
    match k
    case Organization => OrganizationIsValid(v, m, p);
    case Operator => PlainIsValid(v, m, p);
    case Registry => PlainIsValid(v, m, p);
    case Posture => LaterIsValid(v, m, p);
    case WriterTransition => LaterIsValid(v, m, p);
    case ReaderKeyEscrow => LaterIsValid(v, m, p);
    case ClockRelease => ClockIsValid(v, m, p);
    case _ => ArchiveIsValid(v, k, m, p);
  }

  lemma ClockIsValid(v: Vocabulary, m: Slots, p: Bytes)
    requires CommandOf(v, ClockRelease, m, p).Ok?
    ensures ValidCommand(v, CommandOf(v, ClockRelease, m, p).value)
  {
    hide PathAt, ArchiveOf;
  }

  /** The report options are let through by their own entries in the list of checks. */
  lemma ReportSlots(v: Vocabulary, st: Scanned, k: Kind)
    requires Checked(v, st, k).Ok?
    ensures IncludeRuntimeMetadata in st.slots || ReportSigningKey in st.slots ==> k == Report
  {
    hide CommandOf, FirstRefused, Allowed, PathAt;
    NoneRefused(v, st, k, CHECK_ORDER);
    EverySwitchIsChecked(IncludeRuntimeMetadata);
    EverySwitchIsChecked(ReportSigningKey);
    OnlyForReports(v, st, k);
  }

  lemma OnlyForReports(v: Vocabulary, st: Scanned, k: Kind)
    ensures Allowed(v, st, k, IncludeRuntimeMetadata) <==> k == Report
    ensures Allowed(v, st, k, ReportSigningKey) <==> k == Report
  {
  }

  lemma ReportOptions(v: Vocabulary, st: Scanned)
    requires v.Lawful() && WellScanned(v, st) && Build(v, st).Ok?
    ensures var inv := Build(v, st).value;
            inv.runtimeMetadata || inv.reportSigningKey.Some? ==> inv.command.ReportCommand?
  {
    hide v.Lawful, Checked, Fits, Printable, KindOf, Given, Spelled;
    NothingDropped(v, st, OperatorConfig);
    ReportSlots(v, st.(slots := st.slots - {Format}), st.kind.value);
    ReportKind(Build(v, st).value.command);
  }

  lemma ReportKind(c: Command)
    ensures KindOf(c) == Report <==> c.ReportCommand?
  {
  }

  lemma BuiltIsValid(v: Vocabulary, st: Scanned)
    requires WellScanned(v, st) && Build(v, st).Ok?
    ensures ValidCommand(v, Build(v, st).value.command)
  {
    hide v.Lawful, CommandOf, FirstRefused, Fits, Printable, ValidCommand, PathAt;
    assert WellShaped(st.slots);
    ShapeKept(st.slots);
    CommandIsValid(v, st.kind.value, st.slots - {Format}, st.positionals[0]);
  }

  lemma ParsedIsValid(v: Vocabulary, tokens: seq<Bytes>)
    requires v.Lawful() && Parsed(v, tokens).Ok?
    ensures Valid(v, Parsed(v, tokens).value)
  {
    hide Build, Scan, v.Lawful, ValidCommand, Positional, Writable, Fits, Printable;
    var st := Scan(v, NOTHING_SCANNED, tokens).value;
    ScanKeepsWell(v, NOTHING_SCANNED, tokens);
    CarriedIsWritable(v, st);
    PositionalIsPlain(v, st);
    BuiltIsValid(v, st);
    ReportOptions(v, st);
  }

  /**
    The grammar expresses the valid invocations and no others: an invocation is
    valid exactly when some command line parses to it, and exactly when its own
    rendering does.
  */
  lemma ExactlyTheValid(v: Vocabulary, inv: Invocation)
    requires v.Lawful()
    ensures Valid(v, inv) <==> Parsed(v, Render(v, inv)) == Ok(inv)
    ensures Valid(v, inv) <==> exists tokens :: Parsed(v, tokens) == Ok(inv)
  {
    hide Valid, Parsed, Render, v.Lawful;
    if Valid(v, inv) {
      ValidIsParsed(v, inv);
    }
    forall tokens | Parsed(v, tokens) == Ok(inv)
      ensures Valid(v, inv)
    {
      ParsedIsValid(v, tokens);
    }
  }

  /** So writing out what any command line was read as, and parsing that, returns the same invocation. */
  lemma RenderThenParse(v: Vocabulary, tokens: seq<Bytes>)
    requires v.Lawful() && Parsed(v, tokens).Ok?
    ensures Parsed(v, Render(v, Parsed(v, tokens).value)) == Parsed(v, tokens)
  {
    hide Parsed, Render, v.Lawful;
    ExactlyTheValid(v, Parsed(v, tokens).value);
  }
}
