/** A ceremony given the right inputs reaches readiness, over any port and over the file store. */
module CeremonyCompletion {
  import opened Bytes
  import opened CeremonyState
  import opened StateImage
  import opened Trust
  import opened AnchorMedia
  import opened Ceremony
  import opened CeremonyInvariants
  import opened CeremonyRuns
  import CeremonyProgress
  import CeremonyAgreement

  /** Everything that is brought to a ceremony from outside. */
  datatype Plan = Plan(
    organizationId: Id16, chainId: Id16, machine: Hash32,
    root: RootKeyMaterial, pairs: seq<AdminPair>, pre: Bytes, media: seq<Id16>,
    recoveryKem: OuterKey, hgaSigning: OuterKey, approvers: seq<OuterKey>, backups: seq<KeyBackup>,
      components: seq<ComponentBinding>,
    published: Hash32, genesis: Hash32, final: Bytes, signature: Bytes, testMachine: Hash32)

  // ------------------------------------------------------ the state after each step

  function Begun(p: Plan): BootstrapState { Fresh(p.organizationId, p.chainId, Some(p.machine)) }
  function Rooted(p: Plan): BootstrapState { Begun(p).(root := Some(p.root), step := GenerateOfflineRoot) }
  function Paired(p: Plan): BootstrapState {
    Rooted(p).(adminPairs := p.pairs, exactPreAnchor := Some(p.pre), step := CreateAdminPairs)
  }

  function Pinned(t: TrustFormat, p: Plan): BootstrapState {
    Paired(p).(sealedFingerprint := Some(t.bootstrapAnchorHash(p.pre)), sealedMedia := SortedIds(p.media),
      step := PinPreAnchorOnMedia)
  }
  function Keyed(t: TrustFormat, p: Plan): BootstrapState {
    Pinned(t, p).(recoveryKem := Some(p.recoveryKem), hgaSigning := Some(p.hgaSigning),
      step := GenerateRecoveryAndHgaKeys)
  }
  function Enrolled(t: TrustFormat, p: Plan): BootstrapState {
    Keyed(t, p).(approvers := p.approvers, step := EnrollKeyApprovers)
  }

  function BackedUp(t: TrustFormat, p: Plan): BootstrapState {
    Enrolled(t, p).(backups := p.backups, step := VerifyKeyBackups)
  }

  function Provisioned(t: TrustFormat, p: Plan): BootstrapState {
    BackedUp(t, p).(components := p.components, step := ProvisionComponentKeys)
  }

  function Compared(t: TrustFormat, p: Plan): BootstrapState {
    Provisioned(t, p).(fingerprintsCompared := true, step := CompareFingerprints)
  }

  function Published(t: TrustFormat, p: Plan): BootstrapState {
    Compared(t, p).(publishedTargets := [p.published], step := RootSignBootstrapTargets)
  }

  function Anchored(t: TrustFormat, p: Plan): BootstrapState {
    Published(t, p).(
      genesisEntryHash := Some(p.genesis), exactFinalAnchor := Some(p.final), step := CreateGenesisAndFinalAnchor,
      transcript := Some(Reconstructed(Published(t, p), Signed(StateTranscriptBytes(Published(t, p)), p.signature))))
  }
  function Finished(t: TrustFormat, p: Plan): BootstrapState {
    Anchored(t, p).(recoveryTestMachine := Some(p.testMachine), production := Ready,
      step := RunFreshMachineRecoveryTest)
  }

  /** Inputs that meet every obligation, and formats that encode, decode and sign them. */
  predicate Workable(t: TrustFormat, p: Plan) {
    && |p.pairs| >= 2 && NoDuplicates(AllHashes(p.pairs))
    && t.encodePreAnchor(PreFields(Paired(p), p.root)) == Some(p.pre)
    && |p.media| >= 2 && NoDuplicates(p.media)
    && KeyObligation(Keyed(t, p)) && ApproverObligation(Enrolled(t, p)) && BackupObligation(BackedUp(t, p))
    && p.components != []
    && t.decodeTrustAnchor(p.final) == Some(TrustAnchor(p.pre, p.genesis))
    && t.attributable(p.root, p.signature, t.objectHash(StateTranscriptBytes(Published(t, p))))
    && p.testMachine != p.machine
  }

  function PreConfirmation(t: TrustFormat, p: Plan): SecondChannelConfirmation {
    SecondChannelConfirmation(t.bootstrapAnchorHash(p.pre), Pre)
  }

  const FAITHFUL := Media(map[], [], [])

  function Live(s: BootstrapState, pre: Option<Bytes>): System {
    System(Some(Coordinator(s, pre)), Store(Some(s), []))
  }

  ghost predicate Reaches(t: TrustFormat, port: Port, sys: System) {
    exists events :: AllGenuine(t, events) && Run(t, port, NOTHING, events) == sys
  }

  lemma {:induction false} RunSnoc(t: TrustFormat, port: Port, sys: System, events: seq<Event>, e: Event)
    ensures Run(t, port, sys, events + [e]) == Step(t, port, Run(t, port, sys, events), e).0
    decreases |events|
  {
    hide Step;
    if events == [] {
      assert Run(t, port, sys, [e]) == Run(t, port, Step(t, port, sys, e).0, [e][1..]);
    } else {
      assert (events + [e])[1..] == events[1..] + [e];
      RunSnoc(t, port, Step(t, port, sys, events[0]).0, events[1..], e);
    }
  }

  lemma Then(t: TrustFormat, port: Port, sys: System, e: Event)
    requires Reaches(t, port, sys) && Genuine(t, e)
    ensures Reaches(t, port, Step(t, port, sys, e).0)
  {
    hide Step, Genuine;
    var events :| AllGenuine(t, events) && Run(t, port, NOTHING, events) == sys;
    RunSnoc(t, port, NOTHING, events, e);
    assert AllGenuine(t, events + [e]);
  }

  /** In state `a` the call is accepted, and leads to state `b`. */
  predicate Accepts(
    t: TrustFormat, a: BootstrapState, pa: Option<Bytes>, call: Call, b: BootstrapState, pb: Option<Bytes>) {
    Judge(t, Coordinator(a, pa), call) == Commit(Coordinator(b.(step := a.step), pb), b.step) && !Before(b.step, a.step)
  }

  /** One accepted call, stored without a fault. */
  lemma Moves(
    t: TrustFormat, port: Port, a: BootstrapState, pa: Option<Bytes>, call: Call, b: BootstrapState, pb: Option<Bytes>)
    requires Reaches(t, port, Live(a, pa)) && Genuine(t, Invoke(call, NoFault))
    requires Accepts(t, a, pa, call, b, pb) && (port.FilePort? ==> WellFormed(b))
    ensures Reaches(t, port, Live(b, pb))
  {
    hide Judge, WellFormed, Reaches;
    Then(t, port, Live(a, pa), Invoke(call, NoFault));
  }

  // -------------------------------------------------------- every step is accepted

  lemma FirstSteps(t: TrustFormat, p: Plan)
    requires Workable(t, p)
    ensures Accepts(t, Begun(p), None, OfflineRoot(p.root), Rooted(p), None)
    ensures Accepts(t, Rooted(p), None, AdminPairs(p.pairs), Paired(p), Some(p.pre))
  {
    hide NoDuplicates, AllHashes, KeyObligation, ApproverObligation, BackupObligation, StateTranscriptBytes, SortedIds,
      Sort, Certificates, Bindings;
    var s := Rooted(p).(adminPairs := p.pairs);
    assert PreFields(s, p.root) == PreFields(Paired(p), p.root);
  }

  lemma PinStep(t: TrustFormat, p: Plan)
    requires Workable(t, p)
    ensures Accepts(t, Paired(p), Some(p.pre), Pin(FAITHFUL, p.media, PreConfirmation(t, p)), Pinned(t, p), Some(p.pre))
    ensures Genuine(t, Invoke(Pin(FAITHFUL, p.media, PreConfirmation(t, p)), NoFault))
  {
    hide NoDuplicates, AllHashes, KeyObligation, ApproverObligation, BackupObligation, StateTranscriptBytes, Sort,
      ConfirmOnMedia, PreFields;
    FaithfulPortConfirms(t, FAITHFUL, p.media, p.pre, PreConfirmation(t, p));
    assert t.IsPreAnchor(p.pre);
  }

  lemma CustodySteps(t: TrustFormat, p: Plan)
    requires Workable(t, p)
    ensures Accepts(t, Pinned(t, p), Some(p.pre), RecoveryAndHga(p.recoveryKem, p.hgaSigning), Keyed(t, p), Some(p.pre))
    ensures Accepts(t, Keyed(t, p), Some(p.pre), Approvers(p.approvers), Enrolled(t, p), Some(p.pre))
  {
    hide NoDuplicates, AllHashes, BackupObligation, StateTranscriptBytes, SortedIds, PreFields, Thumbprints;
  }

  lemma BackupStep(t: TrustFormat, p: Plan)
    requires Workable(t, p)
    ensures Accepts(t, Enrolled(t, p), Some(p.pre), Backups(p.backups), BackedUp(t, p), Some(p.pre))
  {
    hide NoDuplicates, AllHashes, KeyObligation, ApproverObligation, StateTranscriptBytes, SortedIds, PreFields,
      Elements, Classes;
    CeremonyProgress.SoundBackupsPass(Enrolled(t, p), BackedUp(t, p), p.backups);
  }

  lemma ClosingSteps(t: TrustFormat, p: Plan)
    requires Workable(t, p)
    ensures Accepts(t, BackedUp(t, p), Some(p.pre), Components(p.components), Provisioned(t, p), Some(p.pre))
    ensures Accepts(t, Compared(t, p), Some(p.pre), RootSign([p.organizationId], Some(p.published)), Published(t, p),
            Some(p.pre))
  {
    hide NoDuplicates, AllHashes, KeyObligation, ApproverObligation, BackupObligation, StateTranscriptBytes,
      SortedIds, PreFields;
    assert [] + [p.published] == [p.published];
  }

  lemma CompareStep(t: TrustFormat, p: Plan)
    requires Workable(t, p)
    ensures Accepts(t, Provisioned(t, p), Some(p.pre), Compare(PreConfirmation(t, p)), Compared(t, p), Some(p.pre))
    ensures Genuine(t, Invoke(Compare(PreConfirmation(t, p)), NoFault))
  {
    hide NoDuplicates, AllHashes, KeyObligation, ApproverObligation, BackupObligation, StateTranscriptBytes, SortedIds,
      ConfirmOnMedia, PreFields;
    FaithfulPortConfirms(t, FAITHFUL, MirrorIds(), p.pre, PreConfirmation(t, p));
    assert t.IsPreAnchor(p.pre);
    assert NoDuplicates(MirrorIds()) by { CeremonyProgress.TwoAreDistinct(MirrorIds()); }
  }

  function AnchorCall(t: TrustFormat, p: Plan): Call {
    FinalAnchor(p.genesis, p.final, FAITHFUL, p.media, t.trustAnchorHash(p.final), Some(p.signature))
  }

  lemma AnchorStep(t: TrustFormat, p: Plan)
    requires Workable(t, p)
    ensures Accepts(t, Published(t, p), Some(p.pre), AnchorCall(t, p), Anchored(t, p), Some(p.pre))
  {
    hide NoDuplicates, AllHashes, KeyObligation, ApproverObligation, BackupObligation, TranscriptBytes, Sort,
      ConfirmOnMedia, PreFields;
    FaithfulPortConfirms(t, FAITHFUL, p.media, p.final, SecondChannelConfirmation(t.trustAnchorHash(p.final), Final));
  }

  function Proof(t: TrustFormat, p: Plan): RecoveryProof {
    RecoveryProof(true, p.testMachine, t.trustAnchorHash(p.final), |p.media|)
  }

  lemma TestStep(t: TrustFormat, p: Plan)
    requires Workable(t, p)
    ensures Accepts(t, Anchored(t, p), Some(p.pre), RecoveryTest(Proof(t, p)), Finished(t, p), Some(p.pre))
  {
    hide NoDuplicates, AllHashes, KeyObligation, ApproverObligation, BackupObligation, TranscriptBytes,
      StateTranscriptBytes, PreFields;
    assert |SortedIds(p.media)| == |p.media|;
  }

  // ------------------------------------------------------- the whole ceremony

  lemma StagesFit(t: TrustFormat, p: Plan)
    requires Workable(t, p) && Sized(Finished(t, p))
    ensures WellFormed(Begun(p)) && WellFormed(Rooted(p)) && WellFormed(Paired(p)) && WellFormed(Pinned(t, p))
    ensures WellFormed(Keyed(t, p)) && WellFormed(Enrolled(t, p)) && WellFormed(BackedUp(t, p))
    ensures WellFormed(Provisioned(t, p))
    ensures WellFormed(Compared(t, p)) && WellFormed(Published(t, p))
  {
    hide NoDuplicates, AllHashes, KeyObligation, ApproverObligation, BackupObligation, StateTranscriptBytes, SortedIds,
      PreFields, RootFits, SliceFits, BackupFits;
  }

  lemma SignedStagesFit(t: TrustFormat, p: Plan)
    requires Workable(t, p) && Sized(Finished(t, p))
    ensures WellFormed(Anchored(t, p)) && WellFormed(Finished(t, p))
  {
    hide NoDuplicates, AllHashes, KeyObligation, ApproverObligation, BackupObligation, SortedIds, PreFields, RootFits,
      SliceFits, BackupFits, TranscriptBytes;
  }

  lemma ReachesPaired(t: TrustFormat, p: Plan, port: Port)
    requires Workable(t, p) && (port.FilePort? ==> Sized(Finished(t, p)))
    ensures Reaches(t, port, Live(Paired(p), Some(p.pre)))
  {
    hide Reaches, Workable, Sized, WellFormed, Issued, Accepts, Begun, Rooted, Paired, Pinned, Keyed, Enrolled,
      BackedUp, Provisioned, Compared, Published, Anchored;
    if port.FilePort? { StagesFit(t, p); }
    Opens(t, p, port);
    FirstSteps(t, p);
    Moves(t, port, Begun(p), None, OfflineRoot(p.root), Rooted(p), None);
    Moves(t, port, Rooted(p), None, AdminPairs(p.pairs), Paired(p), Some(p.pre));
  }

  lemma ReachesPin(t: TrustFormat, p: Plan, port: Port)
    requires Workable(t, p) && (port.FilePort? ==> Sized(Finished(t, p)))
    ensures Reaches(t, port, Live(Pinned(t, p), Some(p.pre)))
  {
    hide Reaches, Workable, Sized, WellFormed, Issued, Accepts, Begun, Rooted, Paired, Pinned, Keyed, Enrolled,
      BackedUp, Provisioned, Compared, Published, Anchored;
    if port.FilePort? { StagesFit(t, p); }
    ReachesPaired(t, p, port);
    PinStep(t, p);
    var call := Pin(FAITHFUL, p.media, PreConfirmation(t, p));
    Moves(t, port, Paired(p), Some(p.pre), call, Pinned(t, p), Some(p.pre));
  }

  lemma Opens(t: TrustFormat, p: Plan, port: Port)
    ensures Reaches(t, port, Live(Begun(p), None))
  {
    var e := Begin(true, Some((p.organizationId, p.chainId)), Some(p.machine), NoFault);
    assert Run(t, port, NOTHING, []) == NOTHING && AllGenuine(t, []);
    FreshIsGood(t, p.organizationId, p.chainId, Some(p.machine));
    Then(t, port, NOTHING, e);
  }

  lemma ReachesBackups(t: TrustFormat, p: Plan, port: Port)
    requires Workable(t, p) && (port.FilePort? ==> Sized(Finished(t, p)))
    ensures Reaches(t, port, Live(BackedUp(t, p), Some(p.pre)))
  {
    hide Reaches, Workable, Sized, WellFormed, Issued, Accepts, Begun, Rooted, Paired, Pinned, Keyed, Enrolled,
      BackedUp, Provisioned, Compared, Published, Anchored;
    if port.FilePort? { StagesFit(t, p); }
    ReachesPin(t, p, port);
    CustodySteps(t, p);
    BackupStep(t, p);
    Moves(t, port, Pinned(t, p), Some(p.pre), RecoveryAndHga(p.recoveryKem, p.hgaSigning), Keyed(t, p), Some(p.pre));
    Moves(t, port, Keyed(t, p), Some(p.pre), Approvers(p.approvers), Enrolled(t, p), Some(p.pre));
    Moves(t, port, Enrolled(t, p), Some(p.pre), Backups(p.backups), BackedUp(t, p), Some(p.pre));
  }

  lemma ReachesTargets(t: TrustFormat, p: Plan, port: Port)
    requires Workable(t, p) && (port.FilePort? ==> Sized(Finished(t, p)))
    ensures Reaches(t, port, Live(Published(t, p), Some(p.pre)))
  {
    hide Reaches, Workable, Sized, WellFormed, Issued, Accepts, Begun, Rooted, Paired, Pinned, Keyed, Enrolled,
      BackedUp, Provisioned, Compared, Published, Anchored;
    if port.FilePort? { StagesFit(t, p); }
    ReachesBackups(t, p, port);
    ClosingSteps(t, p);
    CompareStep(t, p);
    Moves(t, port, BackedUp(t, p), Some(p.pre), Components(p.components), Provisioned(t, p), Some(p.pre));
    Moves(t, port, Provisioned(t, p), Some(p.pre), Compare(PreConfirmation(t, p)), Compared(t, p), Some(p.pre));
    Moves(t, port, Compared(t, p), Some(p.pre), RootSign([p.organizationId], Some(p.published)), Published(t, p),
      Some(p.pre));
  }

  /**
    Workable inputs carry a ceremony from nothing to readiness: some run ends
    with the finished state held by the coordinator and durable in the store.
    Over the file store the finished state must fit its image, and nothing more.
  */
  lemma CeremonyCompletes(t: TrustFormat, p: Plan, port: Port)
    requires Workable(t, p) && (port.FilePort? ==> Sized(Finished(t, p)))
    ensures Reaches(t, port, Live(Finished(t, p), Some(p.pre)))
    ensures Finished(t, p).production == Ready
  {
    hide Reaches, Workable, Sized, WellFormed, Issued, Accepts, Begun, Rooted, Paired, Pinned, Keyed, Enrolled,
      BackedUp, Provisioned, Compared, Published, Anchored;
    if port.FilePort? { SignedStagesFit(t, p); }
    ReachesTargets(t, p, port);
    AnchorStep(t, p);
    TestStep(t, p);
    Moves(t, port, Published(t, p), Some(p.pre), AnchorCall(t, p), Anchored(t, p), Some(p.pre));
    Moves(t, port, Anchored(t, p), Some(p.pre), RecoveryTest(Proof(t, p)), Finished(t, p), Some(p.pre));
  }

  // -------------------------------------------- a second list before the seal

  /** The coordinator after a second step 3 before the seal. */
  function PairedAnew(t: TrustFormat, p: Plan, other: seq<AdminPair>): Coordinator {
    var bytes := CeremonyProgress.Encoding(t, Paired(p), other);
    Coordinator(Paired(p).(adminPairs := other, exactPreAnchor := bytes), bytes)
  }

  /** A run that ends with the second list in memory, and what a crash and a resumption then find. */
  ghost predicate LosesSecondList(
    t: TrustFormat, p: Plan, port: Port, other: seq<AdminPair>, survivor: nat, events: seq<Event>) {
    var answered := Run(t, port, NOTHING, events);
    var crashed := Step(t, port, answered, Crash(survivor)).0;
    && AllGenuine(t, events) && answered.live == Some(PairedAnew(t, p, other))
    && Step(t, port, crashed, Resume(true)).0.live == Some(Coordinator(Paired(p), Some(p.pre)))
  }

  /**
    For every workable ceremony and every other list that step 3 accepts before the
    seal there is a run in which the second list and its fingerprint were answered
    and are gone after a crash: the first list is resumed.
  */
  lemma SecondListIsLost(t: TrustFormat, p: Plan, port: Port, other: seq<AdminPair>, survivor: nat)
    requires t.Lawful() && Workable(t, p) && (port.FilePort? ==> Sized(Finished(t, p))) && t.decodesAsPreAnchor(p.pre)
    requires other != p.pairs && CeremonyProgress.Paired(other) && CeremonyProgress.Encoding(t, Paired(p), other).Some?
    ensures exists events :: LosesSecondList(t, p, port, other, survivor, events)
  {
    hide Workable, Sized, Judge, Good, t.Lawful, CeremonyProgress.Encoding;
    var e := Invoke(AdminPairs(other), NoFault);
    ReachesPaired(t, p, port);
    var events :| AllGenuine(t, events) && Run(t, port, NOTHING, events) == Live(Paired(p), Some(p.pre));
    hide Run;
    var sys := Live(Paired(p), Some(p.pre));
    RunKeepsSane(t, port, NOTHING, events);
    CeremonyProgress.PairsBeforeTheSeal(t, sys.live.value, other);
    assert Judge(t, sys.live.value, AdminPairs(other)) == Keep(PairedAnew(t, p, other)) by {
      CeremonyAgreement.JudgeOfPairs(t, sys.live.value, AdminPairs(other));
    }
    RunSnoc(t, port, NOTHING, events, e);
    assert AllGenuine(t, events + [e]);
    assert LosesSecondList(t, p, port, other, survivor, events + [e]);
  }
}
