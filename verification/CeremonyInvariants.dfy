/** What holds in every reachable state of the ceremony, and what every run keeps. */
module CeremonyInvariants {
  import opened Bytes
  import opened CeremonyState
  import opened StateImage
  import opened Trust
  import opened AnchorMedia
  import opened Ceremony

  // ------------------------------------------- the obligations, step by step

  predicate Reached(s: BootstrapState, step: BootstrapStep) {
    !Before(s.step, step)
  }

  /** Step 2, and nothing of it before. */
  predicate RootObligation(s: BootstrapState) {
    Reached(s, GenerateOfflineRoot) <==> s.root.Some?
  }

  /** Step 3: at least two pairs, all hashes distinct, and the pre-anchor bytes are the encoding of these fields. */
  predicate PairObligation(t: TrustFormat, s: BootstrapState) {
    if Reached(s, CreateAdminPairs) then
      && s.root.Some? && |s.adminPairs| >= 2 && NoDuplicates(AllHashes(s.adminPairs))
      && s.exactPreAnchor.Some? && t.encodePreAnchor(PreFields(s, s.root.value)) == s.exactPreAnchor
    else
      s.adminPairs == [] && s.exactPreAnchor.None?
  }

  /** Step 4: the sealed fingerprint is the hash of the pre-anchor bytes, on two or more distinct media. */
  ghost predicate SealObligation(t: TrustFormat, s: BootstrapState) {
    if Reached(s, PinPreAnchorOnMedia) then
      && s.exactPreAnchor.Some? && s.sealedFingerprint == Some(t.bootstrapAnchorHash(s.exactPreAnchor.value))
      && |s.sealedMedia| >= 2 && NoDuplicates(s.sealedMedia) && Ordered(s.sealedMedia)
    else
      s.sealedFingerprint.None? && s.sealedMedia == []
  }

  /** Step 5: recovery, grant authority and root keys are three different keys. */
  predicate KeyObligation(s: BootstrapState) {
    if Reached(s, GenerateRecoveryAndHgaKeys) then
      && s.root.Some? && s.recoveryKem.Some? && s.hgaSigning.Some?
      && NoDuplicates([s.recoveryKem.value.keyThumbprint, s.hgaSigning.value.keyThumbprint, s.root.value.keyThumbprint])
    else
      s.recoveryKem.None? && s.hgaSigning.None?
  }

  /** Step 6: at least two different approver keys, none of them a key of the ceremony itself. */
  predicate ApproverObligation(s: BootstrapState) {
    if Reached(s, EnrollKeyApprovers) then
      |Thumbprints(s.approvers)| >= 2 && OwnThumbprints(s) !! Thumbprints(s.approvers)
    else
      s.approvers == []
  }

  /** Step 7: all four classes, each backup on two or more media and of the key this ceremony holds. */
  predicate BackupObligation(s: BootstrapState) {
    if Reached(s, VerifyKeyBackups) then
      && ALL_CLASSES <= Classes(s.backups)
      && forall i :: 0 <= i < |s.backups| ==> SoundBackup(s, s.backups[i])
    else
      s.backups == []
  }

  predicate SoundBackup(s: BootstrapState, b: KeyBackup) {
    && |Elements(b.media)| >= 2
    && match b.class_
       case RootClass => s.root.Some? && b.keyThumbprint == s.root.value.keyThumbprint
       case RecoveryKemClass => s.recoveryKem.Some? && b.keyThumbprint == s.recoveryKem.value.keyThumbprint
       case HistoricalGrantAuthorityClass => s.hgaSigning.Some? && b.keyThumbprint == s.hgaSigning.value.keyThumbprint
       case AdminClass => b.keyThumbprint !in OwnThumbprints(s)
  }

  /** Steps 8, 9 and 10. */
  predicate ProvisioningObligation(s: BootstrapState) {
    && (Reached(s, ProvisionComponentKeys) <==> s.components != [])
    && (Reached(s, CompareFingerprints) <==> s.fingerprintsCompared)
    && (Reached(s, RootSignBootstrapTargets) <==> s.publishedTargets != [])
  }

  /** Step 11: a final anchor that continues exactly the sealed pre-anchor, and a transcript the root signed. */
  predicate AnchorObligation(t: TrustFormat, s: BootstrapState) {
    if Reached(s, CreateGenesisAndFinalAnchor) then
      && s.exactFinalAnchor.Some? && s.exactPreAnchor.Some? && s.genesisEntryHash.Some?
      && t.decodeTrustAnchor(s.exactFinalAnchor.value) ==
        Some(TrustAnchor(s.exactPreAnchor.value, s.genesisEntryHash.value))
      && s.transcript.Some? && SignedTranscript(t, s, s.transcript.value)
    else
      s.exactFinalAnchor.None? && s.genesisEntryHash.None? && s.transcript.None?
  }

  /** The transcript names this ceremony's ids, root and seal, and the root signed its bytes. */
  predicate SignedTranscript(t: TrustFormat, s: BootstrapState, x: Transcript) {
    && s.root.Some? && s.sealedFingerprint.Some?
    && x.organizationId == s.organizationId && x.chainId == s.chainId
    && x.rootCertificate == s.root.value.certificateObjectHash
    && x.preAnchorFingerprint == s.sealedFingerprint.value
    && x.exactBytes == TranscriptBytes(s.organizationId, s.chainId, s.root.value, x.adminPairs,
      s.sealedFingerprint.value)
    && t.attributable(s.root.value, x.rootSignature, t.objectHash(x.exactBytes))
  }

  /** Step 12: ready exactly then, after a test on another machine than the ceremony's own. */
  predicate ReadyObligation(s: BootstrapState) {
    && (s.production == Ready <==> s.step == RunFreshMachineRecoveryTest)
    && (s.recoveryTestMachine.Some? <==> s.step == RunFreshMachineRecoveryTest)
    && (s.recoveryTestMachine.Some? ==> s.ceremonyMachine.Some? && s.ceremonyMachine != s.recoveryTestMachine)
  }

  /** Steps 1 to 4. */
  ghost predicate Opening(t: TrustFormat, s: BootstrapState) {
    RootObligation(s) && PairObligation(t, s) && SealObligation(t, s)
  }

  /** Steps 5 to 7. */
  predicate Custody(s: BootstrapState) {
    KeyObligation(s) && ApproverObligation(s) && BackupObligation(s)
  }

  /** Steps 8 to 12. */
  predicate Closing(t: TrustFormat, s: BootstrapState) {
    ProvisioningObligation(s) && AnchorObligation(t, s) && ReadyObligation(s)
  }

  /** Every obligation up to the reached step, nothing beyond it, and an abort only after the seal. */
  ghost predicate Good(t: TrustFormat, s: BootstrapState) {
    Opening(t, s) && Custody(s) && Closing(t, s) && (s.aborted ==> Reached(s, PinPreAnchorOnMedia))
  }

  /** The coordinator's memory is good and its decoded pre-anchor is the recorded one. */
  ghost predicate GoodCoordinator(t: TrustFormat, c: Coordinator) {
    Good(t, c.state) && (c.preAnchor.Some? ==> c.preAnchor == c.state.exactPreAnchor)
  }

  lemma RestoredIsGood(t: TrustFormat, s: BootstrapState)
    requires Good(t, s)
    ensures GoodCoordinator(t, Restored(t, s)) && Restored(t, s).state == s
  {
  }

  // ------------------------------------------------- every verdict keeps them

  /** What a verdict may do to a good coordinator. */
  ghost predicate Sound(t: TrustFormat, c: Coordinator, v: Verdict) {
    match v
    case Refuse(error) => error != Panic
    case Undo(error) => error != Panic
    case Abort(error, base) => error == PreFieldChanged && c.state.sealedFingerprint.Some? && base.state == c.state
         && GoodCoordinator(t, base)
    case Keep(next) => GoodCoordinator(t, next) && next.state.step == c.state.step && !next.state.aborted
    case Commit(next, step) =>
      && next.state.step == c.state.step
      && !next.state.aborted
      && step.Number() <= c.state.step.Number() + 1
      && (!Before(step, c.state.step) ==> GoodCoordinator(t, next.(state := next.state.(step := step))))
  }

  /** Past the seal, the first four steps stay done while their fields stay. */
  lemma OpeningKept(t: TrustFormat, a: BootstrapState, b: BootstrapState)
    requires Opening(t, a) && Reached(a, PinPreAnchorOnMedia) && Reached(b, PinPreAnchorOnMedia)
    requires b.organizationId == a.organizationId && b.chainId == a.chainId && b.root == a.root
    requires b.adminPairs == a.adminPairs
    requires b.exactPreAnchor == a.exactPreAnchor && b.sealedFingerprint == a.sealedFingerprint
    requires b.sealedMedia == a.sealedMedia
    ensures Opening(t, b)
  {
    hide NoDuplicates, AllHashes, Certificates, Bindings, Ordered, Sort;
  }

  /** Past step 7 the custody of the keys stays as it is while its fields stay; before step 5 there is none. */
  lemma CustodyKept(a: BootstrapState, b: BootstrapState)
    requires Custody(a)
    requires (Reached(a, VerifyKeyBackups) && Reached(b, VerifyKeyBackups) && b.root == a.root)
             || (!Reached(a, GenerateRecoveryAndHgaKeys) && !Reached(b, GenerateRecoveryAndHgaKeys))
    requires b.recoveryKem == a.recoveryKem && b.hgaSigning == a.hgaSigning && b.approvers == a.approvers
    requires b.backups == a.backups
    ensures Custody(b)
  {
    hide NoDuplicates, Thumbprints, Classes, Elements;
  }

  /** Before step 8 there is nothing of the last five steps. */
  lemma ClosingKept(t: TrustFormat, a: BootstrapState, b: BootstrapState)
    requires Closing(t, a) && !Reached(a, ProvisionComponentKeys) && !Reached(b, ProvisionComponentKeys)
    requires b.components == a.components && b.fingerprintsCompared == a.fingerprintsCompared
    requires b.publishedTargets == a.publishedTargets
    requires b.exactFinalAnchor == a.exactFinalAnchor && b.genesisEntryHash == a.genesisEntryHash
    requires b.transcript == a.transcript
    requires b.production == a.production && b.recoveryTestMachine == a.recoveryTestMachine
    ensures Closing(t, b)
  {
    hide SignedTranscript;
  }

  /** No step after the third looks at the pairs, and none at the pre-anchor before the seal. */
  lemma PairsOutsideLaterSteps(t: TrustFormat, a: BootstrapState, b: BootstrapState)
    requires Custody(a) && Closing(t, a) && b == a.(adminPairs := b.adminPairs, exactPreAnchor := b.exactPreAnchor)
    requires Reached(a, PinPreAnchorOnMedia) ==> b.exactPreAnchor == a.exactPreAnchor
    ensures Custody(b) && Closing(t, b)
  {
    hide NoDuplicates, Thumbprints, Classes, Elements, TranscriptBytes;
  }

  lemma OpeningSeals(t: TrustFormat, s: BootstrapState)
    requires Opening(t, s)
    ensures Reached(s, GenerateOfflineRoot) <==> s.root.Some?
    ensures Reached(s, PinPreAnchorOnMedia) <==> s.sealedFingerprint.Some?
    ensures Reached(s, CreateAdminPairs) <==> s.exactPreAnchor.Some?
  {
    hide NoDuplicates, AllHashes, PreFields, Ordered;
  }

  lemma OfflineRootSound(t: TrustFormat, c: Coordinator, root: RootKeyMaterial)
    requires GoodCoordinator(t, c)
    ensures Sound(t, c, JudgeOfflineRoot(t, c, root))
  {
    hide Custody, Closing, NoDuplicates, AllHashes, PreFields, Ordered;
    var v := JudgeOfflineRoot(t, c, root);
    if v.Commit? && !Before(v.step, c.state.step) {
      CustodyKept(c.state, v.next.state.(step := v.step));
      ClosingKept(t, c.state, v.next.state.(step := v.step));
    }
  }

  lemma AdminPairsSound(t: TrustFormat, c: Coordinator, pairs: seq<AdminPair>)
    requires GoodCoordinator(t, c)
    ensures Sound(t, c, JudgeAdminPairs(t, c, pairs))
  {
    hide Custody, Closing, NoDuplicates, AllHashes, Certificates, Bindings, Sort, Ordered;
    var v := JudgeAdminPairs(t, c, pairs);
    if v.Commit? {
      CustodyKept(c.state, v.next.state.(step := v.step));
      ClosingKept(t, c.state, v.next.state.(step := v.step));
    } else if v.Keep? {
      PairsOutsideLaterSteps(t, c.state, v.next.state);
    }
  }

  lemma PinSound(t: TrustFormat, c: Coordinator, media: Media, ids: seq<Id16>, confirmation: SecondChannelConfirmation)
    requires GoodCoordinator(t, c) && t.Lawful() && Issued(t, confirmation)
    ensures Sound(t, c, JudgePin(t, c, media, ids, confirmation))
  {
    hide Custody, Closing, ConfirmOnMedia, AllHashes, Ordered, Sort;
    var v := JudgePin(t, c, media, ids, confirmation);
    if c.state.exactPreAnchor.Some? {
      MediaErrorsAreNamed(t, media, ids, c.state.exactPreAnchor.value, confirmation);
    }
    if v.Commit? && !Before(v.step, c.state.step) {
      var bytes := c.state.exactPreAnchor.value;
      ConfirmedMeansReadBack(t, media, ids, bytes, confirmation);
      ConfirmationOverPreAnchor(t, confirmation, bytes);
      SortOrdered(ids);
      SortKeepsDistinct(ids);
      CustodyKept(c.state, v.next.state.(step := v.step));
      ClosingKept(t, c.state, v.next.state.(step := v.step));
    }
  }

  lemma SortKeepsDistinct(ids: seq<Bytes>)
    requires NoDuplicates(ids)
    ensures NoDuplicates(Sort(ids))
  {
    DistinctCount(ids);
    DistinctCount(Sort(ids));
    assert Elements(Sort(ids)) == Elements(ids);
  }

  lemma RecoveryAndHgaSound(t: TrustFormat, c: Coordinator, recoveryKem: OuterKey, hgaSigning: OuterKey)
    requires GoodCoordinator(t, c)
    ensures Sound(t, c, JudgeRecoveryAndHga(c, recoveryKem, hgaSigning))
  {
    hide Opening, Closing, NoDuplicates, Thumbprints, Classes, Elements;
    OpeningSeals(t, c.state);
    var v := JudgeRecoveryAndHga(c, recoveryKem, hgaSigning);
    if v.Commit? && !Before(v.step, c.state.step) {
      OpeningKept(t, c.state, v.next.state.(step := v.step));
      ClosingKept(t, c.state, v.next.state.(step := v.step));
    }
  }

  lemma ApproversSound(t: TrustFormat, c: Coordinator, approvers: seq<OuterKey>)
    requires GoodCoordinator(t, c)
    ensures Sound(t, c, JudgeApprovers(c, approvers))
  {
    hide Opening, Closing, NoDuplicates, Thumbprints, Classes, Elements;
    OpeningSeals(t, c.state);
    var v := JudgeApprovers(c, approvers);
    if v.Commit? && !Before(v.step, c.state.step) {
      OpeningKept(t, c.state, v.next.state.(step := v.step));
      ClosingKept(t, c.state, v.next.state.(step := v.step));
    }
  }

  lemma {:induction false} NoBackupError(s: BootstrapState, backups: seq<KeyBackup>)
    requires FirstBackupError(s, backups).None?
    ensures forall i :: 0 <= i < |backups| ==> SoundBackup(s, backups[i])
  {
    if backups != [] {
      NoBackupError(s, backups[1..]);
    }
  }

  lemma {:induction false} BackupErrorsAreNamed(s: BootstrapState, backups: seq<KeyBackup>)
    ensures FirstBackupError(s, backups) != Some(Panic)
  {
    if backups != [] {
      BackupErrorsAreNamed(s, backups[1..]);
    }
  }

  lemma BackupsSound(t: TrustFormat, c: Coordinator, backups: seq<KeyBackup>)
    requires GoodCoordinator(t, c)
    ensures Sound(t, c, JudgeBackups(c, backups))
  {
    hide Opening, Closing, NoDuplicates, Thumbprints, Classes, Elements, FirstBackupError;
    OpeningSeals(t, c.state);
    BackupErrorsAreNamed(c.state, backups);
    if FirstBackupError(c.state, backups).None? {
      NoBackupError(c.state, backups);
    }
    var v := JudgeBackups(c, backups);
    if v.Commit? && !Before(v.step, c.state.step) {
      OpeningKept(t, c.state, v.next.state.(step := v.step));
      ClosingKept(t, c.state, v.next.state.(step := v.step));
    }
  }

  lemma ComponentsSound(t: TrustFormat, c: Coordinator, components: seq<ComponentBinding>)
    requires GoodCoordinator(t, c)
    ensures Sound(t, c, JudgeComponents(c, components))
  {
    hide Opening, Custody, TranscriptBytes;
    OpeningSeals(t, c.state);
    var v := JudgeComponents(c, components);
    if v.Commit? && !Before(v.step, c.state.step) {
      OpeningKept(t, c.state, v.next.state.(step := v.step));
      CustodyKept(c.state, v.next.state.(step := v.step));
    }
  }

  lemma MediaErrorsAreNamed(
    t: TrustFormat, m: Media, ids: seq<Id16>, bytes: Bytes, confirmation: SecondChannelConfirmation)
    ensures ConfirmOnMedia(t, m, ids, bytes, confirmation).1 != Err(Panic)
  {
    ErrorsOfThePort(m, ids, bytes);
    ErrorsOfTheReadBack(WriteAll(m, ids, bytes).0, ids, bytes);
  }

  lemma CompareSound(t: TrustFormat, c: Coordinator, confirmation: SecondChannelConfirmation)
    requires GoodCoordinator(t, c)
    ensures Sound(t, c, JudgeCompare(t, c, confirmation))
  {
    hide Opening, Custody, TranscriptBytes, ConfirmOnMirror;
    OpeningSeals(t, c.state);
    if c.state.exactPreAnchor.Some? {
      MirrorErrorsAreNamed(t, c.state.exactPreAnchor.value, confirmation);
    }
    var v := JudgeCompare(t, c, confirmation);
    if v.Commit? && !Before(v.step, c.state.step) {
      OpeningKept(t, c.state, v.next.state.(step := v.step));
      CustodyKept(c.state, v.next.state.(step := v.step));
    }
  }

  lemma MirrorErrorsAreNamed(t: TrustFormat, bytes: Bytes, confirmation: SecondChannelConfirmation)
    ensures ConfirmOnMirror(t, bytes, confirmation) != Err(Panic)
  {
    hide ConfirmOnMedia;
    MediaErrorsAreNamed(t, Media(map[], [], []), MirrorIds(), bytes, confirmation);
  }

  lemma FinalErrorsAreNamed(
    t: TrustFormat, s: BootstrapState, exactFinal: Bytes, media: Media, ids: seq<Id16>, reported: Hash32)
    ensures ConfirmFinalOnMedia(t, s, exactFinal, media, ids, reported).1 != Err(Panic)
  {
    hide ConfirmOnMedia, NoDuplicates, Sort;
    var confirmation := ConfirmFinalAnchorFingerprint(t, exactFinal, reported);
    if confirmation.Ok? {
      MediaErrorsAreNamed(t, media, ids, exactFinal, confirmation.value);
    }
  }

  lemma SignedIsAttributable(t: TrustFormat, s: BootstrapState, signature: Option<Bytes>)
    ensures match SignTranscript(t, s, signature)
            case Ok(transcript) => SignedTranscript(t, s, transcript)
            case Err(error) => error != Panic
  {
    hide TranscriptBytes;
  }

  lemma RootSignSound(t: TrustFormat, c: Coordinator, organizations: seq<Id16>, published: Option<Hash32>)
    requires GoodCoordinator(t, c)
    ensures Sound(t, c, JudgeRootSign(c, organizations, published))
  {
    hide Opening, Custody, TranscriptBytes, OnlyNames;
    OpeningSeals(t, c.state);
    var v := JudgeRootSign(c, organizations, published);
    if v.Commit? && !Before(v.step, c.state.step) {
      OpeningKept(t, c.state, v.next.state.(step := v.step));
      CustodyKept(c.state, v.next.state.(step := v.step));
    }
  }

  /** What the checks before the media let through, and what they answer otherwise. */
  lemma PrecheckedAnchor(t: TrustFormat, c: Coordinator, genesis: Hash32, exactFinal: Bytes)
    ensures match FinalAnchorPrecheck(t, c, genesis, exactFinal)
            case Some(v) => (v.Refuse? && v.error != Panic)
                 || (v == Abort(PreFieldChanged, c) && c.state.sealedFingerprint.Some?)
            case None =>
              && !c.state.aborted && Reached(c.state, RootSignBootstrapTargets) && c.preAnchor.Some?
              && t.decodeTrustAnchor(exactFinal) == Some(TrustAnchor(c.preAnchor.value, genesis))
  {
  }

  lemma FinalAnchorSound(
    t: TrustFormat, c: Coordinator, genesis: Hash32, exactFinal: Bytes, media: Media, ids: seq<Id16>,
    reported: Hash32, signature: Option<Bytes>)
    requires GoodCoordinator(t, c)
    ensures Sound(t, c, JudgeFinalAnchor(t, c, genesis, exactFinal, media, ids, reported, signature))
  {
    hide Opening, Custody, FinalAnchorPrecheck, ConfirmFinalOnMedia, SignTranscript, TranscriptBytes;
    PrecheckedAnchor(t, c, genesis, exactFinal);
    OpeningSeals(t, c.state);
    FinalErrorsAreNamed(t, c.state, exactFinal, media, ids, reported);
    SignedIsAttributable(t, c.state, signature);
    var v := JudgeFinalAnchor(t, c, genesis, exactFinal, media, ids, reported, signature);
    if v.Commit? && !Before(v.step, c.state.step) {
      OpeningKept(t, c.state, v.next.state.(step := v.step));
      CustodyKept(c.state, v.next.state.(step := v.step));
    }
  }

  lemma RecoveryTestSound(t: TrustFormat, c: Coordinator, proof: RecoveryProof)
    requires GoodCoordinator(t, c)
    ensures Sound(t, c, JudgeRecoveryTest(t, c, proof))
  {
    hide Opening, Custody, AnchorObligation;
    OpeningSeals(t, c.state);
    var v := JudgeRecoveryTest(t, c, proof);
    if v.Commit? && !Before(v.step, c.state.step) {
      OpeningKept(t, c.state, v.next.state.(step := v.step));
      CustodyKept(c.state, v.next.state.(step := v.step));
      AnchorKept(t, c.state, proof);
    }
  }

  /** Step 12 touches nothing the final anchor and the transcript speak of. */
  lemma AnchorKept(t: TrustFormat, s: BootstrapState, proof: RecoveryProof)
    requires AnchorObligation(t, s) && Reached(s, CreateGenesisAndFinalAnchor)
    ensures var tested := s.(recoveryTestMachine := Some(proof.machine), production := Ready);
            AnchorObligation(t, tested.(step := RunFreshMachineRecoveryTest))
  {
    hide TranscriptBytes;
  }
}
