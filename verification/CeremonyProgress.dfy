/**
  What each call does, said of its inputs: which calls advance the ceremony, which
  abort it, which are accepted without being stored, and that no other call
  changes anything.
*/
module CeremonyProgress {
  import opened Bytes
  import opened CeremonyState
  import opened StateImage
  import opened Trust
  import opened AnchorMedia
  import opened Ceremony
  import opened CeremonyInvariants
  import opened CeremonyRuns

  // --------------------------------------------------------------- the guards

  /** May take this step now: not aborted, the step before done, and not past the step itself. */
  predicate Due(c: Coordinator, step: BootstrapStep) {
    !c.state.aborted && c.state.step.Number() <= step.Number() <= c.state.step.Number() + 1
  }

  predicate Paired(pairs: seq<AdminPair>) {
    |pairs| >= 2 && NoDuplicates(AllHashes(pairs))
  }

  function Encoding(t: TrustFormat, s: BootstrapState, pairs: seq<AdminPair>): Option<Bytes> {
    if s.root.None? then None else t.encodePreAnchor(PreFields(s.(adminPairs := pairs), s.root.value))
  }

  /** The same certificates and the same bindings, in any order and any pairing. */
  predicate SamePreFields(a: seq<AdminPair>, b: seq<AdminPair>) {
    && multiset(Certificates(a)) == multiset(Certificates(b))
    && multiset(Bindings(a)) == multiset(Bindings(b))
  }

  /** The call is accepted and has something to store. */
  predicate Advances(t: TrustFormat, c: Coordinator, call: Call) {
    Due(c, Target(call)) &&
    match call
    case OfflineRoot(root) => c.state.root != Some(root)
    case AdminPairs(pairs) =>
      c.state.step == GenerateOfflineRoot && Paired(pairs) && Encoding(t, c.state, pairs).Some?
    case Pin(media, ids, confirmation) =>
      && c.state.exactPreAnchor.Some?
      && ConfirmOnMedia(t, media, ids, c.state.exactPreAnchor.value, confirmation).1.Ok?
    case RecoveryAndHga(recoveryKem, hgaSigning) =>
      KeyObligation(c.state.(recoveryKem := Some(recoveryKem), hgaSigning := Some(hgaSigning), step := Target(call)))
    case Approvers(approvers) => ApproverObligation(c.state.(approvers := approvers, step := Target(call)))
    case Backups(backups) => BackupObligation(c.state.(backups := backups, step := Target(call)))
    case Components(components) => components != []
    case Compare(confirmation) =>
      && c.state.exactPreAnchor.Some?
      && t.Fingerprint(confirmation.image, c.state.exactPreAnchor.value) == confirmation.fingerprint
      && c.state.sealedFingerprint == Some(confirmation.fingerprint)
    case RootSign(organizations, published) => OnlyNames(organizations, c.state.organizationId) && published.Some?
    case FinalAnchor(genesis, exactFinal, media, ids, reported, signature) =>
      && c.preAnchor.Some? && t.decodeTrustAnchor(exactFinal) == Some(TrustAnchor(c.preAnchor.value, genesis))
      && ConfirmFinalOnMedia(t, c.state, exactFinal, media, ids, reported).1.Ok?
      && Signs(t, c.state, signature)
    case RecoveryTest(proof) =>
      && proof.current
      && c.state.ceremonyMachine.Some? && c.state.ceremonyMachine.value != proof.machine
      && c.state.exactFinalAnchor.Some?
      && proof.expectedAnchorHash == t.trustAnchorHash(c.state.exactFinalAnchor.value)
      && proof.mediaExpected >= |c.state.sealedMedia|
  }

  /** The root's signature over the transcript of the state. */
  predicate Signs(t: TrustFormat, s: BootstrapState, signature: Option<Bytes>) {
    && s.root.Some? && s.sealedFingerprint.Some? && signature.Some?
    && t.attributable(s.root.value, signature.value, t.objectHash(StateTranscriptBytes(s)))
  }

  function Target(call: Call): BootstrapStep {
    match call
    case OfflineRoot(_) => GenerateOfflineRoot
    case AdminPairs(_) => CreateAdminPairs
    case Pin(_, _, _) => PinPreAnchorOnMedia
    case RecoveryAndHga(_, _) => GenerateRecoveryAndHgaKeys
    case Approvers(_) => EnrollKeyApprovers
    case Backups(_) => VerifyKeyBackups
    case Components(_) => ProvisionComponentKeys
    case Compare(_) => CompareFingerprints
    case RootSign(_, _) => RootSignBootstrapTargets
    case FinalAnchor(_, _, _, _, _, _) => CreateGenesisAndFinalAnchor
    case RecoveryTest(_) => RunFreshMachineRecoveryTest
  }

  /** What an advancing call stores. */
  function Stored(t: TrustFormat, c: Coordinator, call: Call): BootstrapState
    requires Advances(t, c, call)
  {
    var s := c.state.(step := Target(call));
    match call
    case OfflineRoot(root) => s.(root := Some(root))
    case AdminPairs(pairs) => s.(adminPairs := pairs, exactPreAnchor := Encoding(t, c.state, pairs))
    case Pin(_, ids, confirmation) =>
      s.(sealedFingerprint := Some(confirmation.fingerprint), sealedMedia := SortedIds(ids))
    case RecoveryAndHga(recoveryKem, hgaSigning) =>
      s.(recoveryKem := Some(recoveryKem), hgaSigning := Some(hgaSigning))
    case Approvers(approvers) => s.(approvers := approvers)
    case Backups(backups) => s.(backups := backups)
    case Components(components) => s.(components := components)
    case Compare(_) => s.(fingerprintsCompared := true)
    case RootSign(_, published) => s.(publishedTargets := s.publishedTargets + [published.value])
    case FinalAnchor(genesis, exactFinal, _, _, _, signature) =>
      s.(genesisEntryHash := Some(genesis), exactFinalAnchor := Some(exactFinal),
         transcript := Some(Reconstructed(c.state, Signed(StateTranscriptBytes(c.state), signature.value))))
    case RecoveryTest(proof) => s.(recoveryTestMachine := Some(proof.machine), production := Ready)
  }

  /** After the seal: another root, a list of other hashes, or an anchor that continues another pre-anchor. */
  predicate Aborts(t: TrustFormat, c: Coordinator, call: Call) {
    !c.state.aborted && Sealed(c.state) &&
    match call
    case OfflineRoot(root) => c.state.root != Some(root)
    case AdminPairs(pairs) =>
      Paired(pairs) && Encoding(t, c.state, pairs).Some? && !SamePreFields(pairs, c.state.adminPairs)
    case FinalAnchor(_, exactFinal, _, _, _, _) =>
      && Reached(c.state, RootSignBootstrapTargets) && c.preAnchor.Some?
      && t.decodeTrustAnchor(exactFinal).Some?
      && t.decodeTrustAnchor(exactFinal).value.exactPreAnchor != c.preAnchor.value
    case _ => false
  }

  /** Step 2 or 3 made again: the recorded root; before the seal any list, after it one of the same hashes. */
  predicate Keeps(t: TrustFormat, c: Coordinator, call: Call) {
    !c.state.aborted &&
    match call
    case OfflineRoot(root) => c.state.root == Some(root)
    case AdminPairs(pairs) =>
      && Reached(c.state, CreateAdminPairs) && Paired(pairs)
      && (if Sealed(c.state) then SamePreFields(pairs, c.state.adminPairs) else Encoding(t, c.state, pairs).Some?)
    case _ => false
  }

  /** What such a call leaves in memory. */
  function Kept(t: TrustFormat, c: Coordinator, call: Call): BootstrapState {
    match call
    case AdminPairs(pairs) =>
      var s := c.state.(adminPairs := pairs);
      if Sealed(c.state) then s else s.(exactPreAnchor := Encoding(t, c.state, pairs))
    case _ => c.state
  }

  // ------------------------------------------------- verdicts are what they say

  /** The step method's verdict, by the guards alone. */
  ghost predicate Decided(t: TrustFormat, c: Coordinator, call: Call) {
    var v := Judge(t, c, call);
    && (v.Commit? && !Before(v.step, c.state.step) <==> Advances(t, c, call))
    && (Advances(t, c, call) ==> v.next.state.(step := v.step) == Stored(t, c, call))
    && (v.Abort? <==> Aborts(t, c, call))
    && (v.Keep? <==> Keeps(t, c, call))
    && (Keeps(t, c, call) ==> v.next.state == Kept(t, c, call))
  }

  lemma RootDecided(t: TrustFormat, c: Coordinator, root: RootKeyMaterial)
    requires GoodCoordinator(t, c)
    ensures Decided(t, c, OfflineRoot(root))
  {
    hide NoDuplicates, AllHashes, PreFields, Custody, Closing;
  }

  /** The encoded fields determine the two hash lists up to order, and nothing about who is paired with whom. */
  lemma EncodingIgnoresPairing(t: TrustFormat, s: BootstrapState, pairs: seq<AdminPair>)
    requires t.Lawful() && s.root.Some? && s.exactPreAnchor.Some?
    requires t.encodePreAnchor(PreFields(s, s.root.value)) == s.exactPreAnchor
    ensures Encoding(t, s, pairs) == s.exactPreAnchor <==> SamePreFields(pairs, s.adminPairs)
  {
    hide Certificates, Bindings, Sort;
    SortForgetsOnlyOrder(Certificates(pairs), Certificates(s.adminPairs));
    SortForgetsOnlyOrder(Bindings(pairs), Bindings(s.adminPairs));
  }

  /**
    After the seal, step 3 accepts a list exactly when it has the recorded
    certificates and the recorded bindings, in any order and any pairing; every
    other admissible list aborts the ceremony or, if it cannot be encoded, changes nothing.
  */
  lemma RepeatedPairing(t: TrustFormat, c: Coordinator, pairs: seq<AdminPair>)
    requires GoodCoordinator(t, c) && t.Lawful() && Sealed(c.state) && !c.state.aborted && Paired(pairs)
    ensures var v := JudgeAdminPairs(t, c, pairs);
            && (v.Keep? <==> SamePreFields(pairs, c.state.adminPairs))
            && (v.Keep? ==> v.next.state == c.state.(adminPairs := pairs))
            && (v.Abort? <==> !SamePreFields(pairs, c.state.adminPairs) && Encoding(t, c.state, pairs).Some?)
            && (v.Abort? ==> v == Abort(PreFieldChanged, Restored(t, c.state)))
            && (!v.Keep? && !v.Abort? ==> v == Undo(TrustRejected))
  {
    hide NoDuplicates, AllHashes, PreFields, Certificates, Bindings, t.Lawful, SamePreFields, ApproverObligation,
      BackupObligation, AnchorObligation, KeyObligation;
    EncodingIgnoresPairing(t, c.state, pairs);
  }

  /**
    Before the seal, step 3 accepts every list of two or more pairs with distinct
    hashes that can be encoded. The first one is stored; a later one replaces the
    list and the pre-anchor in memory only.
  */
  lemma PairsBeforeTheSeal(t: TrustFormat, c: Coordinator, pairs: seq<AdminPair>)
    requires GoodCoordinator(t, c) && !Sealed(c.state) && !c.state.aborted && Reached(c.state, GenerateOfflineRoot)
    ensures var v := JudgeAdminPairs(t, c, pairs);
            var bytes := Encoding(t, c.state, pairs);
            var next := Coordinator(c.state.(adminPairs := pairs, exactPreAnchor := bytes), bytes);
            && (Paired(pairs) && bytes.Some? ==>
                  v == if c.state.step == CreateAdminPairs then Keep(next) else Commit(next, CreateAdminPairs))
            && (!Paired(pairs) || bytes.None? ==> v.Refuse? || v.Undo?)
  {
    hide NoDuplicates, AllHashes, PreFields, Custody, Closing;
  }

  lemma PairsDecided(t: TrustFormat, c: Coordinator, pairs: seq<AdminPair>)
    requires GoodCoordinator(t, c) && t.Lawful()
    ensures Decided(t, c, AdminPairs(pairs))
  {
    hide NoDuplicates, AllHashes, PreFields, t.Lawful, SamePreFields, Custody, Closing;
    if !c.state.aborted && Reached(c.state, GenerateOfflineRoot) && Paired(pairs) {
      if Sealed(c.state) {
        RepeatedPairing(t, c, pairs);
      } else {
        PairsBeforeTheSeal(t, c, pairs);
      }
    }
  }

  lemma PinDecided(
    t: TrustFormat, c: Coordinator, media: Media, ids: seq<Id16>, confirmation: SecondChannelConfirmation)
    requires GoodCoordinator(t, c)
    ensures Decided(t, c, Pin(media, ids, confirmation))
  {
    hide AllHashes, PreFields, Custody, Closing, ConfirmOnMedia, NoDuplicates, Ordered, Sort;
  }

  lemma CustodyDecided(t: TrustFormat, c: Coordinator, call: Call)
    requires GoodCoordinator(t, c) && (call.RecoveryAndHga? || call.Approvers?)
    ensures Decided(t, c, call)
  {
    hide NoDuplicates, Thumbprints, Custody, Closing, Opening;
    SealedByStep(t, c.state);
  }

  /** A seal is there exactly from step 4 on, with the root and the bytes it covers. */
  lemma SealedByStep(t: TrustFormat, s: BootstrapState)
    requires Opening(t, s)
    ensures Reached(s, PinPreAnchorOnMedia) <==> Sealed(s)
    ensures Sealed(s) ==> s.root.Some? && s.exactPreAnchor.Some? && |s.sealedMedia| >= 2
  {
    hide NoDuplicates, AllHashes, PreFields, Ordered;
  }

  lemma BackupsDecided(t: TrustFormat, c: Coordinator, backups: seq<KeyBackup>)
    requires GoodCoordinator(t, c)
    ensures Decided(t, c, Backups(backups))
  {
    hide Classes, Elements, Closing, Opening, FirstBackupError, NoDuplicates, Thumbprints;
    var next := c.state.(backups := backups, step := VerifyKeyBackups);
    if FirstBackupError(c.state, backups).None? {
      NoBackupError(c.state, backups);
    }
    if forall i :: 0 <= i < |backups| ==> SoundBackup(next, backups[i]) {
      SoundBackupsPass(c.state, next, backups);
    }
  }

  lemma {:induction false} SoundBackupsPass(s: BootstrapState, recorded: BootstrapState, backups: seq<KeyBackup>)
    requires s.root == recorded.root && s.recoveryKem == recorded.recoveryKem && s.hgaSigning == recorded.hgaSigning
    requires forall i :: 0 <= i < |backups| ==> SoundBackup(recorded, backups[i])
    ensures FirstBackupError(s, backups).None?
  {
    hide Elements;
    if backups != [] {
      assert SoundBackup(recorded, backups[0]);
      SoundBackupsPass(s, recorded, backups[1..]);
    }
  }

  lemma PublicationDecided(t: TrustFormat, c: Coordinator, call: Call)
    requires GoodCoordinator(t, c) && (call.Components? || call.RootSign?)
    ensures Decided(t, c, call)
  {
    hide Custody, Closing, Opening;
  }

  lemma CompareDecided(t: TrustFormat, c: Coordinator, confirmation: SecondChannelConfirmation)
    requires GoodCoordinator(t, c)
    ensures Decided(t, c, Compare(confirmation))
  {
    hide Custody, Closing, Opening, ConfirmOnMedia, NoDuplicates;
    SealedByStep(t, c.state);
    if c.state.exactPreAnchor.Some? {
      FaithfulPortConfirms(t, Media(map[], [], []), MirrorIds(), c.state.exactPreAnchor.value, confirmation);
    }
    TwoAreDistinct(MirrorIds());
  }

  lemma TwoAreDistinct(ids: seq<Id16>)
    requires |ids| == 2 && ids[0] != ids[1]
    ensures NoDuplicates(ids)
  {
  }

  lemma FinalAnchorDecided(t: TrustFormat, c: Coordinator, call: Call)
    requires GoodCoordinator(t, c) && call.FinalAnchor?
    ensures Decided(t, c, call)
  {
    hide Custody, Closing, Opening, ConfirmFinalOnMedia, NoDuplicates, TranscriptBytes, StateTranscriptBytes;
    SealedByStep(t, c.state);
  }

  lemma RecoveryTestDecided(t: TrustFormat, c: Coordinator, proof: RecoveryProof)
    requires GoodCoordinator(t, c)
    ensures Decided(t, c, RecoveryTest(proof))
  {
    hide Custody, Opening, TranscriptBytes;
  }

  lemma EveryVerdictIsDecided(t: TrustFormat, c: Coordinator, call: Call)
    requires GoodCoordinator(t, c) && t.Lawful()
    ensures Decided(t, c, call)
  {
    hide Decided, GoodCoordinator, t.Lawful;
    match call
    case OfflineRoot(root) => RootDecided(t, c, root);
    case AdminPairs(pairs) => PairsDecided(t, c, pairs);
    case Pin(media, ids, confirmation) => PinDecided(t, c, media, ids, confirmation);
    case RecoveryAndHga(_, _) => CustodyDecided(t, c, call);
    case Approvers(_) => CustodyDecided(t, c, call);
    case Backups(backups) => BackupsDecided(t, c, backups);
    case Components(_) => PublicationDecided(t, c, call);
    case Compare(confirmation) => CompareDecided(t, c, confirmation);
    case RootSign(_, _) => PublicationDecided(t, c, call);
    case FinalAnchor(_, _, _, _, _, _) => FinalAnchorDecided(t, c, call);
    case RecoveryTest(proof) => RecoveryTestDecided(t, c, proof);
  }

  // ------------------------------------------------------ the two calls with media

  /** Over a port that writes and reads faithfully, step 4 asks for the fingerprint and two or more media. */
  lemma PinOnFaithfulMedia(
    t: TrustFormat, c: Coordinator, media: Media, ids: seq<Id16>, confirmation: SecondChannelConfirmation)
    requires GoodCoordinator(t, c) && media.script == []
    ensures Advances(t, c, Pin(media, ids, confirmation)) <==>
            && Due(c, PinPreAnchorOnMedia) && c.state.exactPreAnchor.Some?
            && t.Fingerprint(confirmation.image, c.state.exactPreAnchor.value) == confirmation.fingerprint
            && |ids| >= 2 && NoDuplicates(ids)
  {
    hide AllHashes, PreFields, Custody, Closing, ConfirmOnMedia, NoDuplicates, Ordered;
    if c.state.exactPreAnchor.Some? {
      FaithfulPortConfirms(t, media, ids, c.state.exactPreAnchor.value, confirmation);
    }
  }

  /** Over such a port step 11 asks for the sealed media, the final fingerprint and the root's signature. */
  lemma FinalAnchorOnFaithfulMedia(t: TrustFormat, c: Coordinator, call: Call)
    requires GoodCoordinator(t, c) && call.FinalAnchor? && call.media.script == []
    ensures Advances(t, c, call) <==>
            && Due(c, CreateGenesisAndFinalAnchor)
            && c.preAnchor.Some?
            && t.decodeTrustAnchor(call.exactFinal) == Some(TrustAnchor(c.preAnchor.value, call.genesis))
            && NoDuplicates(call.ids) && SortedIds(call.ids) == c.state.sealedMedia
            && call.reported == t.trustAnchorHash(call.exactFinal)
            && Signs(t, c.state, call.signature)
  {
    hide Custody, Closing, Opening, ConfirmOnMedia, NoDuplicates, StateTranscriptBytes;
    SealedByStep(t, c.state);
    FaithfulPortConfirms(t, call.media, call.ids, call.exactFinal, SecondChannelConfirmation(call.reported, Final));
  }
}
