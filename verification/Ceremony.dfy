/**
  The twelve-step bootstrap ceremony as a transition system: what each step of
  the coordinator judges, what it commits, what the store makes of it, and what
  crashes and restarts leave behind.
*/
module Ceremony {
  import opened Bytes
  import opened CeremonyState
  import opened StateImage
  import opened Trust
  import opened AnchorMedia

  /** The coordinator's memory: the state, and the pre-anchor it holds decoded. */
  datatype Coordinator = Coordinator(state: BootstrapState, preAnchor: Option<Bytes>)

  datatype RecoveryProof = RecoveryProof(current: bool, machine: Hash32, expectedAnchorHash: Hash32, mediaExpected: nat)

  /** One call of a step method, with what its ports answer. */
  datatype Call =
    | OfflineRoot(root: RootKeyMaterial)
    | AdminPairs(pairs: seq<AdminPair>)
    | Pin(media: Media, ids: seq<Id16>, confirmation: SecondChannelConfirmation)
    | RecoveryAndHga(recoveryKem: OuterKey, hgaSigning: OuterKey)
    | Approvers(approvers: seq<OuterKey>)
    | Backups(backups: seq<KeyBackup>)
    | Components(components: seq<ComponentBinding>)
    | Compare(confirmation: SecondChannelConfirmation)
    | RootSign(intentOrganizations: seq<Id16>, published: Option<Hash32>)
    | FinalAnchor(genesis: Hash32, exactFinal: Bytes, media: Media, ids: seq<Id16>, reported: Hash32,
      signature: Option<Bytes>)
    | RecoveryTest(proof: RecoveryProof)

  /** What a step method decides before anything is persisted. */
  datatype Verdict =
    | Refuse(error: AdminError)
    | Undo(error: AdminError)
    | Abort(error: AdminError, base: Coordinator)
    | Keep(next: Coordinator)
    | Commit(next: Coordinator, step: BootstrapStep)

  // ------------------------------------------------------------ small pieces

  predicate Before(a: BootstrapStep, b: BootstrapStep) {
    a.Number() < b.Number()
  }

  function RequireCompleted(s: BootstrapState, step: BootstrapStep): Option<AdminError> {
    if s.aborted then Some(PreFieldChanged)
    else if Before(s.step, step) then Some(StepOutOfOrder)
    else None
  }

  function RequireSealed(s: BootstrapState): Option<AdminError> {
    var e := RequireCompleted(s, CreateAdminPairs);
    if e.Some? then e
    else if s.sealedFingerprint.None? || Before(s.step, PinPreAnchorOnMedia) then Some(PreAnchorUnconfirmed)
    else None
  }

  function Certificates(pairs: seq<AdminPair>): seq<Hash32> {
    if pairs == [] then [] else [pairs[0].certificate] + Certificates(pairs[1..])
  }

  function Bindings(pairs: seq<AdminPair>): seq<Hash32> {
    if pairs == [] then [] else [pairs[0].binding] + Bindings(pairs[1..])
  }

  /** Certificates and bindings in one list, the order in which they are checked for repeats. */
  function AllHashes(pairs: seq<AdminPair>): seq<Hash32> {
    if pairs == [] then [] else [pairs[0].certificate, pairs[0].binding] + AllHashes(pairs[1..])
  }

  /** The fields of the pre-anchor; the two hash lists are sorted independently. */
  function PreFields(s: BootstrapState, root: RootKeyMaterial): PreAnchorFields {
    PreAnchorFields(
      s.organizationId, s.chainId, root.exactPublicCoseKey, root.keyThumbprint, root.certificateObjectHash,
      Sort(Certificates(s.adminPairs)), Sort(Bindings(s.adminPairs)))
  }

  /** The memory as it was before the running move; the pre-anchor is decoded again. */
  function Restored(t: TrustFormat, s: BootstrapState): Coordinator {
    Coordinator(s, if s.exactPreAnchor.Some? && t.decodesAsPreAnchor(s.exactPreAnchor.value) then s.exactPreAnchor
      else None)
  }

  /** `rebuild_pre_anchor`. */
  function Rebuild(t: TrustFormat, c: Coordinator): Outcome<Coordinator> {
    if c.state.root.None? || |c.state.adminPairs| < 2 then Ok(c)
    else match t.encodePreAnchor(PreFields(c.state, c.state.root.value))
      case None => Err(TrustRejected)
      case Some(bytes) =>
        if c.state.exactPreAnchor.Some? && c.state.sealedFingerprint.Some? && c.state.exactPreAnchor.value != bytes
        then Err(PreFieldChanged)
        else Ok(Coordinator(c.state.(exactPreAnchor := Some(bytes)), Some(bytes)))
  }

  function OwnThumbprints(s: BootstrapState): set<Hash32> {
    (if s.root.Some? then {s.root.value.keyThumbprint} else {})
    + (if s.recoveryKem.Some? then {s.recoveryKem.value.keyThumbprint} else {})
    + (if s.hgaSigning.Some? then {s.hgaSigning.value.keyThumbprint} else {})
  }

  function Thumbprints(keys: seq<OuterKey>): set<Hash32> {
    set k <- keys :: k.keyThumbprint
  }

  // -------------------------------------------------------- the step methods

  function JudgeOfflineRoot(t: TrustFormat, c: Coordinator, root: RootKeyMaterial): Verdict {
    var e := RequireCompleted(c.state, GenerateIds);
    if e.Some? then Refuse(e.value)
    else if c.state.root == Some(root) then Keep(c)
    else if c.state.sealedFingerprint.Some? then Abort(PreFieldChanged, c)
    else match Rebuild(t, c.(state := c.state.(root := Some(root))))
      case Err(error) => if error == PreFieldChanged then Abort(error, Restored(t, c.state)) else Undo(error)
      case Ok(next) => Commit(next, GenerateOfflineRoot)
  }

  function JudgeAdminPairs(t: TrustFormat, c: Coordinator, pairs: seq<AdminPair>): Verdict {
    var e := RequireCompleted(c.state, GenerateOfflineRoot);
    if e.Some? then Refuse(e.value)
    else if |pairs| < 2 || !NoDuplicates(AllHashes(pairs)) then Refuse(QuorumMissing)
    else match Rebuild(t, c.(state := c.state.(adminPairs := pairs)))
      case Err(error) => if error == PreFieldChanged then Abort(error, Restored(t, c.state)) else Undo(error)
      case Ok(next) =>
        if next.preAnchor.None? then Refuse(Panic)
        else if !Before(c.state.step, CreateAdminPairs) then Keep(next)
        else Commit(next, CreateAdminPairs)
  }

  function JudgePin(
    t: TrustFormat, c: Coordinator, media: Media, ids: seq<Id16>, confirmation: SecondChannelConfirmation): Verdict {
    var e := RequireCompleted(c.state, CreateAdminPairs);
    if e.Some? then Refuse(e.value)
    else if c.state.exactPreAnchor.None? then Refuse(StepOutOfOrder)
    else
      var r := ConfirmOnMedia(t, media, ids, c.state.exactPreAnchor.value, confirmation).1;
      if r.Err? then Refuse(r.error)
      else Commit(c.(state := c.state.(sealedFingerprint := Some(confirmation.fingerprint),
           sealedMedia := SortedIds(ids))), PinPreAnchorOnMedia)
  }

  function JudgeRecoveryAndHga(c: Coordinator, recoveryKem: OuterKey, hgaSigning: OuterKey): Verdict {
    var e := RequireSealed(c.state);
    if e.Some? then Refuse(e.value)
    else if c.state.root.None? then Refuse(StepOutOfOrder)
    else if !NoDuplicates([recoveryKem.keyThumbprint, hgaSigning.keyThumbprint, c.state.root.value.keyThumbprint]) then
         Refuse(QuorumMissing)
    else Commit(c.(state := c.state.(recoveryKem := Some(recoveryKem), hgaSigning := Some(hgaSigning))),
         GenerateRecoveryAndHgaKeys)
  }

  function JudgeApprovers(c: Coordinator, approvers: seq<OuterKey>): Verdict {
    var e := RequireCompleted(c.state, GenerateRecoveryAndHgaKeys);
    if e.Some? then Refuse(e.value)
    else if |Thumbprints(approvers)| < 2 || !(OwnThumbprints(c.state) !! Thumbprints(approvers)) then
         Refuse(QuorumMissing)
    else Commit(c.(state := c.state.(approvers := approvers)), EnrollKeyApprovers)
  }

  /** The key a backup of this class must name; `None` for the admin class, whose keys the state does not hold. */
  function ExpectedThumbprint(s: BootstrapState, class_: BackedUpKeyClass): Outcome<Option<Hash32>> {
    match class_
    case RootClass => if s.root.None? then Err(StepOutOfOrder) else Ok(Some(s.root.value.keyThumbprint))
    case RecoveryKemClass => if s.recoveryKem.None? then Err(StepOutOfOrder)
         else Ok(Some(s.recoveryKem.value.keyThumbprint))
    case HistoricalGrantAuthorityClass => if s.hgaSigning.None? then Err(StepOutOfOrder)
         else Ok(Some(s.hgaSigning.value.keyThumbprint))
    case AdminClass => Ok(None)
  }

  function BackupError(s: BootstrapState, b: KeyBackup): Option<AdminError> {
    if |Elements(b.media)| < 2 then Some(QuorumMissing)
    else match ExpectedThumbprint(s, b.class_)
      case Err(error) => Some(error)
      case Ok(Some(expected)) => if expected != b.keyThumbprint then Some(QuorumMissing) else None
      case Ok(None) => if b.keyThumbprint in OwnThumbprints(s) then Some(QuorumMissing) else None
  }

  function FirstBackupError(s: BootstrapState, backups: seq<KeyBackup>): Option<AdminError> {
    if backups == [] then None
    else
      var e := BackupError(s, backups[0]);
      if e.Some? then e else FirstBackupError(s, backups[1..])
  }

  function Classes(backups: seq<KeyBackup>): set<BackedUpKeyClass> {
    set b <- backups :: b.class_
  }

  const ALL_CLASSES := {RootClass, AdminClass, RecoveryKemClass, HistoricalGrantAuthorityClass}

  function JudgeBackups(c: Coordinator, backups: seq<KeyBackup>): Verdict {
    var e := RequireCompleted(c.state, EnrollKeyApprovers);
    if e.Some? then Refuse(e.value)
    else if !(ALL_CLASSES <= Classes(backups)) then Refuse(QuorumMissing)
    else
      var b := FirstBackupError(c.state, backups);
      if b.Some? then Refuse(b.value)
      else Commit(c.(state := c.state.(backups := backups)), VerifyKeyBackups)
  }

  function JudgeComponents(c: Coordinator, components: seq<ComponentBinding>): Verdict {
    var e := RequireCompleted(c.state, VerifyKeyBackups);
    if e.Some? then Refuse(e.value)
    else if components == [] then Refuse(QuorumMissing)
    else Commit(c.(state := c.state.(components := components)), ProvisionComponentKeys)
  }

  /** The two identifiers of the mirror of step 9. */
  function MirrorIds(): (r: seq<Id16>)
    ensures |r| == 2 && r[0] != r[1]
  {
    var first: Id16 := seq(16, _ => 0xf1);
    var second: Id16 := seq(16, _ => 0xf2);
    assert first[0] != second[0];
    [first, second]
  }

  /** The mirror is a port that accepts and reports exactly what it is given. */
  function ConfirmOnMirror(t: TrustFormat, bytes: Bytes, confirmation: SecondChannelConfirmation): Outcome<()> {
    ConfirmOnMedia(t, Media(map[], [], []), MirrorIds(), bytes, confirmation).1
  }

  function JudgeCompare(t: TrustFormat, c: Coordinator, confirmation: SecondChannelConfirmation): Verdict {
    var e := RequireCompleted(c.state, ProvisionComponentKeys);
    if e.Some? then Refuse(e.value)
    else if c.state.sealedFingerprint.None? || c.state.exactPreAnchor.None? then Refuse(PreAnchorUnconfirmed)
    else
      var r := ConfirmOnMirror(t, c.state.exactPreAnchor.value, confirmation);
      if r.Err? then Refuse(r.error)
      else if confirmation.fingerprint != c.state.sealedFingerprint.value then Refuse(SecondChannelMismatch)
      else Commit(c.(state := c.state.(fingerprintsCompared := true)), CompareFingerprints)
  }

  predicate OnlyNames(organizations: seq<Id16>, own: Id16) {
    forall i :: 0 <= i < |organizations| ==> organizations[i] == own
  }

  function JudgeRootSign(c: Coordinator, intentOrganizations: seq<Id16>, published: Option<Hash32>): Verdict {
    var e := RequireCompleted(c.state, CompareFingerprints);
    if e.Some? then Refuse(e.value)
    else if !OnlyNames(intentOrganizations, c.state.organizationId) then Refuse(ContextMismatch)
    else if published.None? then Refuse(PublicationFailed)
    else Commit(c.(state := c.state.(publishedTargets := c.state.publishedTargets + [published.value])),
         RootSignBootstrapTargets)
  }

  /** The media part of step 11: exactly the sealed media, the final domain's fingerprint, then write and read back. */
  function ConfirmFinalOnMedia(
    t: TrustFormat, s: BootstrapState, exactFinal: Bytes, media: Media, ids: seq<Id16>, reported: Hash32)
    : (Media, Outcome<()>) {
    if !NoDuplicates(ids) || SortedIds(ids) != s.sealedMedia then (media, Err(MediaQuorumMissing))
    else match ConfirmFinalAnchorFingerprint(t, exactFinal, reported)
      case Err(error) => (media, Err(error))
      case Ok(confirmation) => ConfirmOnMedia(t, media, ids, exactFinal, confirmation)
  }

  function SignTranscript(t: TrustFormat, s: BootstrapState, signature: Option<Bytes>): Outcome<Transcript> {
    if s.root.None? then Err(StepOutOfOrder)
    else if s.sealedFingerprint.None? then Err(PreAnchorUnconfirmed)
    else if signature.None? then Err(KeyRejected)
    else if !t.attributable(s.root.value, signature.value, t.objectHash(StateTranscriptBytes(s))) then
         Err(RootSignatureMismatch)
    else Ok(Reconstructed(s, Signed(StateTranscriptBytes(s), signature.value)))
  }

  /** Everything step 11 checks before it touches a medium. */
  function FinalAnchorPrecheck(t: TrustFormat, c: Coordinator, genesis: Hash32, exactFinal: Bytes): Option<Verdict> {
    var e := RequireCompleted(c.state, RootSignBootstrapTargets);
    if e.Some? then Some(Refuse(e.value))
    else if c.preAnchor.None? || c.state.sealedFingerprint.None? then Some(Refuse(PreAnchorUnconfirmed))
    else match t.decodeTrustAnchor(exactFinal)
      case None => Some(Refuse(TrustRejected))
      case Some(anchor) =>
        if c.preAnchor.value != anchor.exactPreAnchor then Some(Abort(PreFieldChanged, c))
        else if anchor.genesisEntryHash != genesis then Some(Refuse(GenesisContextMismatch))
        else None
  }

  function JudgeFinalAnchor(
    t: TrustFormat, c: Coordinator, genesis: Hash32, exactFinal: Bytes, media: Media, ids: seq<Id16>,
    reported: Hash32, signature: Option<Bytes>): Verdict {
    var p := FinalAnchorPrecheck(t, c, genesis, exactFinal);
    if p.Some? then p.value
    else
      var r := ConfirmFinalOnMedia(t, c.state, exactFinal, media, ids, reported).1;
      if r.Err? then Refuse(r.error)
      else match SignTranscript(t, c.state, signature)
        case Err(error) => Refuse(error)
        case Ok(transcript) =>
          Commit(c.(state := c.state.(genesisEntryHash := Some(genesis), exactFinalAnchor := Some(exactFinal),
            transcript := Some(transcript))),
                 CreateGenesisAndFinalAnchor)
  }

  function JudgeRecoveryTest(t: TrustFormat, c: Coordinator, proof: RecoveryProof): Verdict {
    var s := c.state;
    var e := RequireCompleted(s, CreateGenesisAndFinalAnchor);
    if e.Some? then Refuse(e.value)
    else if !proof.current then Refuse(RecoveryTestFailed)
    else if s.ceremonyMachine.None? || s.ceremonyMachine.value == proof.machine then Refuse(RecoveryTestSameMachine)
    else if s.exactFinalAnchor.None? then Refuse(StepOutOfOrder)
    else if t.decodeTrustAnchor(s.exactFinalAnchor.value).None? then Refuse(TrustRejected)
    else if proof.expectedAnchorHash != t.trustAnchorHash(s.exactFinalAnchor.value)
         || proof.mediaExpected < |s.sealedMedia| then Refuse(RecoveryTestFailed)
    else Commit(c.(state := s.(recoveryTestMachine := Some(proof.machine), production := Ready)),
         RunFreshMachineRecoveryTest)
  }

  function Judge(t: TrustFormat, c: Coordinator, call: Call): Verdict {
    match call
    case OfflineRoot(root) => JudgeOfflineRoot(t, c, root)
    case AdminPairs(pairs) => JudgeAdminPairs(t, c, pairs)
    case Pin(media, ids, confirmation) => JudgePin(t, c, media, ids, confirmation)
    case RecoveryAndHga(recoveryKem, hgaSigning) => JudgeRecoveryAndHga(c, recoveryKem, hgaSigning)
    case Approvers(approvers) => JudgeApprovers(c, approvers)
    case Backups(backups) => JudgeBackups(c, backups)
    case Components(components) => JudgeComponents(c, components)
    case Compare(confirmation) => JudgeCompare(t, c, confirmation)
    case RootSign(organizations, published) => JudgeRootSign(c, organizations, published)
    case FinalAnchor(genesis, exactFinal, media, ids, reported, signature) =>
         JudgeFinalAnchor(t, c, genesis, exactFinal, media, ids, reported, signature)
    case RecoveryTest(proof) => JudgeRecoveryTest(t, c, proof)
  }

  // ------------------------------------------------------------ the store

  /** Any implementation of the port, or the file store with its own two refusals. */
  datatype Port = AnyPort | FilePort

  /**
    How persisting goes wrong: not at all, without the lock, because the present
    file cannot be read, before the replacement is visible, or after.
  */
  datatype Fault = NoFault | NoLease | Unreadable | Early | Late

  /** What was last flushed, and the replacements since then whose flush failed, oldest first. */
  datatype Store = Store(durable: Option<BootstrapState>, pending: seq<BootstrapState>) {
    /** What a reader finds now. */
    function Visible(): Option<BootstrapState> {
      if pending == [] then durable else Some(pending[|pending| - 1])
    }

    /** What a crash may leave: any replacement not yet flushed, or the last flushed state. */
    function AfterCrash(survivor: nat): Option<BootstrapState> {
      if survivor < |pending| then Some(pending[survivor]) else durable
    }
  }

  function Put(port: Port, store: Store, s: BootstrapState, fault: Fault): (Store, Option<AdminError>) {
    if fault == NoLease then (store, Some(StoreUnavailable))
    else if port.FilePort? && !WellFormed(s) then (store, Some(StateShape))
    else if fault == Unreadable then (store, Some(StoreUnavailable))
    else if port.FilePort? && store.Visible().Some? && Before(s.step, store.Visible().value.step) then
         (store, Some(StepRegression))
    else match fault
      case NoFault => (Store(Some(s), []), None)
      case Late => (Store(store.durable, store.pending + [s]), Some(StoreUnavailable))
      case _ => (store, Some(StoreUnavailable))
  }

  /** `commit`, `abort` and `restore`: a verdict carried out against the store. */
  function Settle(
    t: TrustFormat, port: Port, c: Coordinator, store: Store, v: Verdict, fault: Fault)
    : (Coordinator, Store, Outcome<()>) {
    match v
    case Refuse(error) => (c, store, Err(error))
    case Undo(error) => (Restored(t, c.state), store, Err(error))
    case Keep(next) => (next, store, Ok(()))
    case Abort(error, base) =>
      var marked := base.state.(aborted := true);
      var (after, failed) := Put(port, store, marked, fault);
      if failed.Some? then (Restored(t, base.state), after, Err(failed.value))
      else (base.(state := marked), after, Err(error))
    case Commit(next, step) =>
      if Before(step, next.state.step) then (Restored(t, c.state), store, Err(StepRegression))
      else
        var s := next.state.(step := step);
        var (after, failed) := Put(port, store, s, fault);
        if failed.Some? then (Restored(t, c.state), after, Err(failed.value))
        else (next.(state := s), after, Ok(()))
  }

  // ------------------------------------------------------- the whole system

  datatype System = System(live: Option<Coordinator>, store: Store)

  datatype Event =
    | Begin(loads: bool, ids: Option<(Id16, Id16)>, machine: Option<Hash32>, fault: Fault)
    | Resume(loads: bool)
    | Restart(loads: bool, ids: Option<(Id16, Id16)>, machine: Option<Hash32>, fault: Fault)
    | Invoke(call: Call, fault: Fault)
    | Crash(survivor: nat)

  /** `start`: store a fresh step-1 state and hold it. */
  function Start(
    port: Port, sys: System, organizationId: Id16, chainId: Id16, machine: Option<Hash32>, fault: Fault)
    : (System, Outcome<()>) {
    var s := Fresh(organizationId, chainId, machine);
    var (store, failed) := Put(port, sys.store, s, fault);
    if failed.Some? then (System(None, store), Err(failed.value))
    else (System(Some(Coordinator(s, None)), store), Ok(()))
  }

  function Step(t: TrustFormat, port: Port, sys: System, e: Event): (System, Outcome<()>) {
    match e
    case Begin(loads, ids, machine, fault) =>
      if !loads then (sys.(live := None), Err(StoreUnavailable))
      else if sys.store.Visible().Some? then (sys.(live := None), Err(StepRegression))
      else if ids.None? then (sys.(live := None), Err(LocalRng))
      else Start(port, sys, ids.value.0, ids.value.1, machine, fault)
    case Resume(loads) =>
      if !loads then (sys.(live := None), Err(StoreUnavailable))
      else (match sys.store.Visible()
       case None => (sys.(live := None), Ok(()))
       case Some(s) =>
         if s.exactPreAnchor.Some? && !t.decodesAsPreAnchor(s.exactPreAnchor.value) then
           (sys.(live := None), Err(StateShape))
         else (sys.(live := Some(Restored(t, s))), Ok(())))
    case Restart(loads, ids, machine, fault) =>
      if !loads then (sys.(live := None), Err(StoreUnavailable))
      else if sys.store.Visible().None? || !sys.store.Visible().value.aborted then
           (sys.(live := None), Err(StepRegression))
      else if ids.None? then (sys.(live := None), Err(LocalRng))
      else if ids.value.0 == sys.store.Visible().value.organizationId
           || ids.value.1 == sys.store.Visible().value.chainId then (sys.(live := None), Err(LocalRng))
      else Start(port, sys, ids.value.0, ids.value.1, machine, fault)
    case Invoke(call, fault) =>
      (match sys.live
       case None => (sys, Err(Panic))
       case Some(c) =>
         var (c', store, r) := Settle(t, port, c, sys.store, Judge(t, c, call), fault);
         (System(Some(c'), store), r))
    case Crash(survivor) => (System(None, Store(sys.store.AfterCrash(survivor), [])), Ok(()))
  }

  function Run(t: TrustFormat, port: Port, sys: System, events: seq<Event>): System
    decreases |events|
  {
    if events == [] then sys else Run(t, port, Step(t, port, sys, events[0]).0, events[1..])
  }

  /** Only confirmations that were really issued reach a step method. */
  ghost predicate Genuine(t: TrustFormat, e: Event) {
    match e
    case Invoke(Pin(_, _, confirmation), _) => Issued(t, confirmation)
    case Invoke(Compare(confirmation), _) => Issued(t, confirmation)
    case _ => true
  }

  const NOTHING := System(None, Store(None, []))
}
