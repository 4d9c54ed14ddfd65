/**
  The coordinator as the program has it: an object that changes its state step
  by step, rolls it back when persisting fails, and holds its store while it
  lives. Every method is proved to do what the transition system of the
  ceremony says, so that everything proved about runs holds of the object.
*/
module BootstrapCoordinator {
  import opened Bytes
  import opened CeremonyState
  import opened StateImage
  import opened Trust
  import opened AnchorMedia
  import opened Ceremony

  /** The persistence port; the fault is what the environment does to this write. */
  class BootstrapStore {
    const port: Port
    var contents: Store

    constructor (port: Port, contents: Store)
      ensures this.port == port && this.contents == contents
    {
      this.port, this.contents := port, contents;
    }

    method Load(loads: bool) returns (r: Outcome<Option<BootstrapState>>)
      ensures r == if loads then Ok(contents.Visible()) else Err(StoreUnavailable)
    {
      return if loads then Ok(contents.Visible()) else Err(StoreUnavailable);
    }

    method Save(s: BootstrapState, fault: Fault) returns (r: Outcome<()>)
      modifies this
      ensures contents == Put(port, old(contents), s, fault).0
      ensures r == match Put(port, old(contents), s, fault).1 { case None => Ok(()) case Some(e) => Err(e) }
    {
      var (after, failed) := Put(port, contents, s, fault);
      contents := after;
      return match failed case None => Ok(()) case Some(e) => Err(e);
    }
  }

  /** A list with nothing repeated and nothing in common with what was seen. */
  ghost predicate DistinctFrom<T>(seen: set<T>, s: seq<T>) {
    NoDuplicates(s) && forall x <- s :: x !in seen
  }

  lemma DistinctStep<T>(seen: set<T>, x: T, rest: seq<T>)
    ensures DistinctFrom(seen, [x] + rest) <==> x !in seen && DistinctFrom(seen + {x}, rest)
  {
    var s := [x] + rest;
    if DistinctFrom(seen, s) {
      assert s[0] == x;
      assert forall i :: 0 <= i < |rest| ==> rest[i] == s[i + 1];
    }
  }

  /** `require_distinct_pairing`: one pass over the pairs with a set of the hashes seen so far. */
  method RequireDistinctPairing(pairs: seq<AdminPair>) returns (distinct: bool)
    ensures distinct <==> NoDuplicates(AllHashes(pairs))
  {
    var seen: set<Hash32> := {};
    for i := 0 to |pairs|
      invariant DistinctFrom(seen, AllHashes(pairs[i..])) <==> NoDuplicates(AllHashes(pairs))
    {
      var pair := pairs[i];
      ghost var rest := AllHashes(pairs[i + 1..]);
      assert pairs[i..][1..] == pairs[i + 1..];
      assert AllHashes(pairs[i..]) == [pair.certificate] + ([pair.binding] + rest);
      DistinctStep(seen, pair.certificate, [pair.binding] + rest);
      DistinctStep(seen + {pair.certificate}, pair.binding, rest);
      if pair.certificate in seen {
        return false;
      }
      seen := seen + {pair.certificate};
      if pair.binding in seen {
        return false;
      }
      seen := seen + {pair.binding};
    }
    return true;
  }

  method DistinctThumbprints(keys: seq<OuterKey>) returns (distinct: set<Hash32>)
    ensures distinct == Thumbprints(keys)
  {
    distinct := {};
    for i := 0 to |keys|
      invariant distinct == Thumbprints(keys[..i])
    {
      assert keys[..i + 1] == keys[..i] + [keys[i]];
      distinct := distinct + {keys[i].keyThumbprint};
    }
    assert keys[..|keys|] == keys;
  }

  method BackedUpClasses(backups: seq<KeyBackup>) returns (classes: set<BackedUpKeyClass>)
    ensures classes == Classes(backups)
  {
    classes := {};
    for i := 0 to |backups|
      invariant classes == Classes(backups[..i])
    {
      assert backups[..i + 1] == backups[..i] + [backups[i]];
      classes := classes + {backups[i].class_};
    }
    assert backups[..|backups|] == backups;
  }

  /** What a caller sees of a step: whether it succeeded, and with which error if not. */
  function Plain<T>(r: Outcome<T>): Outcome<()> {
    match r
    case Ok(_) => Ok(())
    case Err(e) => Err(e)
  }

  class BootstrapCoordinator {
    const format: TrustFormat
    const store: BootstrapStore
    var state: BootstrapState
    var preAnchor: Option<Bytes>

    function Memory(): Coordinator
      reads this
    {
      Coordinator(state, preAnchor)
    }

    /** Memory and store after a verdict has been carried out on what was there before. */
    twostate predicate Carried(v: Verdict, fault: Fault, new r: Outcome<()>)
      reads this, store
    {
      (Memory(), store.contents, r) == Settle(format, store.port, old(Memory()), old(store.contents), v, fault)
    }

    constructor (format: TrustFormat, store: BootstrapStore, memory: Coordinator)
      ensures this.format == format && this.store == store && Memory() == memory
    {
      this.format, this.store, this.state, this.preAnchor := format, store, memory.state, memory.preAnchor;
    }

    // ------------------------------------------------------- the inner moves

    method Restore(snapshot: BootstrapState)
      modifies this
      ensures Memory() == Restored(format, snapshot)
    {
      preAnchor := if snapshot.exactPreAnchor.Some? && format.decodesAsPreAnchor(snapshot.exactPreAnchor.value) then
        snapshot.exactPreAnchor else None;
      state := snapshot;
    }

    method Commit(snapshot: BootstrapState, step: BootstrapStep, fault: Fault) returns (r: Outcome<()>)
      modifies this, store
      ensures forall before: Coordinator | before.state == snapshot ::
                (Memory(), store.contents, r) == Settle(format, store.port, before, old(store.contents),
                  Verdict.Commit(old(Memory()), step), fault)
    {
      if Before(step, state.step) {
        Restore(snapshot);
        return Err(StepRegression);
      }
      state := state.(step := step);
      r := store.Save(state, fault);
      if r.Err? {
        Restore(snapshot);
      }
    }

    /** Sets only the abort flag; if that cannot be stored, nothing. */
    method AbortWith(error: AdminError, fault: Fault) returns (r: Outcome<()>)
      modifies this, store
      ensures forall before: Coordinator ::
                (Memory(), store.contents, r) == Settle(format, store.port, before, old(store.contents),
                  Verdict.Abort(error, old(Memory())), fault)
      ensures r.Err?
    {
      var snapshot := state;
      state := state.(aborted := true);
      r := store.Save(state, fault);
      if r.Err? {
        Restore(snapshot);
        return;
      }
      return Err(error);
    }

    method RebuildPreAnchor() returns (r: Outcome<()>)
      modifies this
      ensures match Rebuild(format, old(Memory()))
              case Ok(next) => r.Ok? && Memory() == next
              case Err(error) => r == Err(error) && Memory() == old(Memory())
    {
      if state.root.None? || |state.adminPairs| < 2 {
        return Ok(());
      }
      var encoded := format.encodePreAnchor(PreFields(state, state.root.value));
      if encoded.None? {
        return Err(TrustRejected);
      }
      if state.exactPreAnchor.Some? && state.sealedFingerprint.Some? && state.exactPreAnchor.value != encoded.value {
        return Err(PreFieldChanged);
      }
      state := state.(exactPreAnchor := encoded);
      preAnchor := encoded;
      return Ok(());
    }

    // ------------------------------------------------------------- the steps

    method GenerateOfflineRoot(root: RootKeyMaterial, fault: Fault) returns (r: Outcome<()>)
      modifies this, store
      ensures Carried(JudgeOfflineRoot(format, old(Memory()), root), fault, r)
    {
      var e := RequireCompleted(state, GenerateIds);
      if e.Some? {
        return Err(e.value);
      }
      if state.root == Some(root) {
        return Ok(());
      }
      if state.sealedFingerprint.Some? {
        r := AbortWith(PreFieldChanged, fault);
        return;
      }
      var snapshot := state;
      state := state.(root := Some(root));
      r := RebuildPreAnchor();
      if r.Err? {
        // Unsealed here, so the rebuild cannot have found a changed field and nothing is aborted.
        assert r.error == TrustRejected;
        Restore(snapshot);
        return;
      }
      r := Commit(snapshot, BootstrapStep.GenerateOfflineRoot, fault);
    }

    /**
      On success the answer is the fingerprint of the pre-anchor now held. A
      coordinator past step 2 without a root would panic here; none is reachable.
    */
    method CreateAdminPairs(pairs: seq<AdminPair>, fault: Fault) returns (r: Outcome<Hash32>)
      requires state.root.Some? || preAnchor.Some? || Before(state.step, BootstrapStep.GenerateOfflineRoot)
      modifies this, store
      ensures Carried(JudgeAdminPairs(format, old(Memory()), pairs), fault, Plain(r))
      ensures r.Ok? ==> preAnchor.Some? && r.value == format.bootstrapAnchorHash(preAnchor.value)
    {
      hide NoDuplicates, AllHashes, PreFields, WellFormed;
      var e := RequireCompleted(state, BootstrapStep.GenerateOfflineRoot);
      if e.Some? {
        return Err(e.value);
      }
      if |pairs| < 2 {
        return Err(QuorumMissing);
      }
      var distinct := RequireDistinctPairing(pairs);
      if !distinct {
        return Err(QuorumMissing);
      }
      var snapshot := state;
      state := state.(adminPairs := pairs);
      var rebuilt := RebuildPreAnchor();
      if rebuilt.Err? {
        Restore(snapshot);
        if rebuilt.error == PreFieldChanged {
          rebuilt := AbortWith(PreFieldChanged, fault);
        }
        return Err(rebuilt.error);
      }
      var fingerprint := format.bootstrapAnchorHash(preAnchor.value);
      if !Before(state.step, BootstrapStep.CreateAdminPairs) {
        return Ok(fingerprint);
      }
      var committed := Commit(snapshot, BootstrapStep.CreateAdminPairs, fault);
      if committed.Err? {
        return Err(committed.error);
      }
      return Ok(fingerprint);
    }

    method PinPreAnchorOnMedia(
      media: MediaPort, ids: seq<Id16>, confirmation: SecondChannelConfirmation, fault: Fault) returns (r: Outcome<()>)
      modifies this, store, media
      ensures Carried(JudgePin(format, old(Memory()), old(media.media), ids, confirmation), fault, r)
    {
      var e := RequireCompleted(state, BootstrapStep.CreateAdminPairs);
      if e.Some? {
        return Err(e.value);
      }
      if state.exactPreAnchor.None? {
        return Err(StepOutOfOrder);
      }
      var confirmed := media.Confirm(format, ids, state.exactPreAnchor.value, confirmation);
      if confirmed.Err? {
        return Err(confirmed.error);
      }
      var snapshot := state;
      state := state.(sealedFingerprint := Some(confirmation.fingerprint), sealedMedia := SortedIds(ids));
      r := Commit(snapshot, BootstrapStep.PinPreAnchorOnMedia, fault);
    }

    method GenerateRecoveryAndHgaKeys(
      recoveryKem: OuterKey, hgaSigning: OuterKey, fault: Fault) returns (r: Outcome<()>)
      modifies this, store
      ensures Carried(JudgeRecoveryAndHga(old(Memory()), recoveryKem, hgaSigning), fault, r)
    {
      var e := RequireSealed(state);
      if e.Some? {
        return Err(e.value);
      }
      if state.root.None? {
        return Err(StepOutOfOrder);
      }
      var keys := [recoveryKem.keyThumbprint, hgaSigning.keyThumbprint, state.root.value.keyThumbprint];
      var distinct: set<Hash32> := {};
      for i := 0 to |keys|
        invariant DistinctFrom(distinct, keys[i..]) <==> NoDuplicates(keys)
        invariant Memory() == old(Memory()) && store.contents == old(store.contents)
      {
        assert keys[i..] == [keys[i]] + keys[i + 1..];
        DistinctStep(distinct, keys[i], keys[i + 1..]);
        if keys[i] in distinct {
          return Err(QuorumMissing);
        }
        distinct := distinct + {keys[i]};
      }
      var snapshot := state;
      state := state.(recoveryKem := Some(recoveryKem), hgaSigning := Some(hgaSigning));
      r := Commit(snapshot, BootstrapStep.GenerateRecoveryAndHgaKeys, fault);
    }

    method EnrollKeyApprovers(approvers: seq<OuterKey>, fault: Fault) returns (r: Outcome<()>)
      modifies this, store
      ensures Carried(JudgeApprovers(old(Memory()), approvers), fault, r)
    {
      var e := RequireCompleted(state, BootstrapStep.GenerateRecoveryAndHgaKeys);
      if e.Some? {
        return Err(e.value);
      }
      var distinct := DistinctThumbprints(approvers);
      if |distinct| < 2 || !(OwnThumbprints(state) !! distinct) {
        return Err(QuorumMissing);
      }
      var snapshot := state;
      state := state.(approvers := approvers);
      r := Commit(snapshot, BootstrapStep.EnrollKeyApprovers, fault);
    }

    method VerifyKeyBackups(backups: seq<KeyBackup>, fault: Fault) returns (r: Outcome<()>)
      modifies this, store
      ensures Carried(JudgeBackups(old(Memory()), backups), fault, r)
    {
      var e := RequireCompleted(state, BootstrapStep.EnrollKeyApprovers);
      if e.Some? {
        return Err(e.value);
      }
      var classes := BackedUpClasses(backups);
      if !(ALL_CLASSES <= classes) {
        return Err(QuorumMissing);
      }
      for i := 0 to |backups|
        invariant FirstBackupError(state, backups[i..]) == FirstBackupError(state, backups)
        invariant Memory() == old(Memory()) && store.contents == old(store.contents)
      {
        assert backups[i..][1..] == backups[i + 1..];
        var refused := BackupError(state, backups[i]);
        if refused.Some? {
          return Err(refused.value);
        }
      }
      var snapshot := state;
      state := state.(backups := backups);
      r := Commit(snapshot, BootstrapStep.VerifyKeyBackups, fault);
    }

    method ProvisionComponentKeys(components: seq<ComponentBinding>, fault: Fault) returns (r: Outcome<()>)
      modifies this, store
      ensures Carried(JudgeComponents(old(Memory()), components), fault, r)
    {
      var e := RequireCompleted(state, BootstrapStep.VerifyKeyBackups);
      if e.Some? {
        return Err(e.value);
      }
      if components == [] {
        return Err(QuorumMissing);
      }
      var snapshot := state;
      state := state.(components := components);
      r := Commit(snapshot, BootstrapStep.ProvisionComponentKeys, fault);
    }

    /** The confirmation is bound to the sealed bytes over a mirror of two media. */
    method CompareFingerprints(confirmation: SecondChannelConfirmation, fault: Fault) returns (r: Outcome<()>)
      modifies this, store
      ensures Carried(JudgeCompare(format, old(Memory()), confirmation), fault, r)
    {
      var e := RequireCompleted(state, BootstrapStep.ProvisionComponentKeys);
      if e.Some? {
        return Err(e.value);
      }
      if state.sealedFingerprint.None? || state.exactPreAnchor.None? {
        return Err(PreAnchorUnconfirmed);
      }
      var mirror := new MediaPort(Media(map[], [], []));
      var confirmed := mirror.Confirm(format, MirrorIds(), state.exactPreAnchor.value, confirmation);
      if confirmed.Err? {
        return Err(confirmed.error);
      }
      if confirmation.fingerprint != state.sealedFingerprint.value {
        return Err(SecondChannelMismatch);
      }
      var snapshot := state;
      state := state.(fingerprintsCompared := true);
      r := Commit(snapshot, BootstrapStep.CompareFingerprints, fault);
    }

    method RootSignBootstrapTarget(
      intentOrganizations: seq<Id16>, published: Option<Hash32>, fault: Fault) returns (r: Outcome<()>)
      modifies this, store
      ensures Carried(JudgeRootSign(old(Memory()), intentOrganizations, published), fault, r)
    {
      var e := RequireCompleted(state, BootstrapStep.CompareFingerprints);
      if e.Some? {
        return Err(e.value);
      }
      for i := 0 to |intentOrganizations|
        invariant forall k :: 0 <= k < i ==> intentOrganizations[k] == state.organizationId
        invariant Memory() == old(Memory()) && store.contents == old(store.contents)
      {
        if intentOrganizations[i] != state.organizationId {
          return Err(ContextMismatch);
        }
      }
      if published.None? {
        return Err(PublicationFailed);
      }
      var snapshot := state;
      state := state.(publishedTargets := state.publishedTargets + [published.value]);
      r := Commit(snapshot, BootstrapStep.RootSignBootstrapTargets, fault);
    }

    /** On success the answer is the anchor in the final bytes; the media are touched only after every other check. */
    method CreateGenesisAndFinalAnchor(
      genesis: Hash32, exactFinal: Bytes, media: MediaPort, ids: seq<Id16>, reported: Hash32,
      signature: Option<Bytes>, fault: Fault)
      returns (r: Outcome<TrustAnchor>)
      modifies this, store, media
      ensures Carried(JudgeFinalAnchor(format, old(Memory()), genesis, exactFinal, old(media.media), ids, reported,
              signature), fault, Plain(r))
      ensures media.media == if FinalAnchorPrecheck(format, old(Memory()), genesis, exactFinal).Some? then
              old(media.media)
                             else ConfirmFinalOnMedia(format, old(state), exactFinal, old(media.media), ids, reported).0
      ensures r.Ok? ==> Some(r.value) == format.decodeTrustAnchor(exactFinal)
    {
      hide ConfirmOnMedia, SignTranscript, NoDuplicates, WellFormed, Elements, Sort;
      var e := RequireCompleted(state, BootstrapStep.RootSignBootstrapTargets);
      if e.Some? {
        return Err(e.value);
      }
      if preAnchor.None? || state.sealedFingerprint.None? {
        return Err(PreAnchorUnconfirmed);
      }
      var anchor := format.decodeTrustAnchor(exactFinal);
      if anchor.None? {
        return Err(TrustRejected);
      }
      if preAnchor.value != anchor.value.exactPreAnchor {
        var aborted := AbortWith(PreFieldChanged, fault);
        return Err(aborted.error);
      }
      if anchor.value.genesisEntryHash != genesis {
        return Err(GenesisContextMismatch);
      }
      DistinctCount(ids);
      if |Elements(ids)| != |ids| || SortedIds(ids) != state.sealedMedia {
        return Err(MediaQuorumMissing);
      }
      var confirmation := ConfirmFinalAnchorFingerprint(format, exactFinal, reported);
      if confirmation.Err? {
        return Err(confirmation.error);
      }
      var confirmed := media.Confirm(format, ids, exactFinal, confirmation.value);
      if confirmed.Err? {
        return Err(confirmed.error);
      }
      var transcript := SignTranscript(format, state, signature);
      if transcript.Err? {
        return Err(transcript.error);
      }
      var snapshot := state;
      state := state.(genesisEntryHash := Some(genesis), exactFinalAnchor := Some(exactFinal),
        transcript := Some(transcript.value));
      var committed := Commit(snapshot, BootstrapStep.CreateGenesisAndFinalAnchor, fault);
      if committed.Err? {
        return Err(committed.error);
      }
      return Ok(anchor.value);
    }

    method RecordFreshMachineRecoveryTest(proof: RecoveryProof, fault: Fault) returns (r: Outcome<ProductionState>)
      modifies this, store
      ensures Carried(JudgeRecoveryTest(format, old(Memory()), proof), fault, Plain(r))
      ensures r.Ok? ==> r.value == state.production == Ready
    {
      var e := RequireCompleted(state, BootstrapStep.CreateGenesisAndFinalAnchor);
      if e.Some? {
        return Err(e.value);
      }
      if !proof.current {
        return Err(RecoveryTestFailed);
      }
      if state.ceremonyMachine.None? || state.ceremonyMachine.value == proof.machine {
        return Err(RecoveryTestSameMachine);
      }
      if state.exactFinalAnchor.None? {
        return Err(StepOutOfOrder);
      }
      var anchor := format.decodeTrustAnchor(state.exactFinalAnchor.value);
      if anchor.None? {
        return Err(TrustRejected);
      }
      if proof.expectedAnchorHash != format.trustAnchorHash(state.exactFinalAnchor.value)
        || proof.mediaExpected < |state.sealedMedia| {
        return Err(RecoveryTestFailed);
      }
      var snapshot := state;
      state := state.(recoveryTestMachine := Some(proof.machine), production := Ready);
      var committed := Commit(snapshot, BootstrapStep.RunFreshMachineRecoveryTest, fault);
      if committed.Err? {
        return Err(committed.error);
      }
      return Ok(state.production);
    }
  }

  /** A coordinator begun, resumed or restarted, as the event of the transition system leaves it. */
  twostate predicate Opened(
    format: TrustFormat, store: BootstrapStore, e: Event, new r: Outcome<Option<BootstrapCoordinator>>)
    reads store, if r.Ok? && r.value.Some? then {r.value.value} else {}
  {
    var (sys, outcome) := Step(format, store.port, System(None, old(store.contents)), e);
    && store.contents == sys.store
    && Plain(r) == outcome
    && (r.Ok? ==>
          && (r.value.Some? <==> sys.live.Some?)
          && (r.value.Some? ==>
            && r.value.value.format == format && r.value.value.store == store
            && r.value.value.Memory() == sys.live.value))
  }

  method Start(
    format: TrustFormat, store: BootstrapStore, organizationId: Id16, chainId: Id16, machine: Option<Hash32>,
    fault: Fault)
    returns (r: Outcome<Option<BootstrapCoordinator>>)
    modifies store
    ensures var (sys, outcome) := Ceremony.Start(store.port, System(None, old(store.contents)), organizationId,
            chainId, machine, fault);
            && store.contents == sys.store && Plain(r) == outcome
            && (r.Ok? ==>
                  && sys.live.Some? && r.value.Some? && fresh(r.value.value) && r.value.value.format == format
                  && r.value.value.store == store && r.value.value.Memory() == sys.live.value)
  {
    var state := Fresh(organizationId, chainId, machine);
    var saved := store.Save(state, fault);
    if saved.Err? {
      return Err(saved.error);
    }
    var c := new BootstrapCoordinator(format, store, Coordinator(state, None));
    return Ok(Some(c));
  }

  method Begin(
    format: TrustFormat, store: BootstrapStore, loads: bool, ids: Option<(Id16, Id16)>, machine: Option<Hash32>,
    fault: Fault)
    returns (r: Outcome<Option<BootstrapCoordinator>>)
    modifies store
    ensures Opened(format, store, Event.Begin(loads, ids, machine, fault), r)
  {
    var persisted := store.Load(loads);
    if persisted.Err? {
      return Err(persisted.error);
    }
    if persisted.value.Some? {
      return Err(StepRegression);
    }
    if ids.None? {
      return Err(LocalRng);
    }
    r := Start(format, store, ids.value.0, ids.value.1, machine, fault);
  }

  method Resume(
    format: TrustFormat, store: BootstrapStore, loads: bool) returns (r: Outcome<Option<BootstrapCoordinator>>)
    modifies store
    ensures Opened(format, store, Event.Resume(loads), r) && store.contents == old(store.contents)
  {
    var persisted := store.Load(loads);
    if persisted.Err? {
      return Err(persisted.error);
    }
    if persisted.value.None? {
      return Ok(None);
    }
    var state := persisted.value.value;
    if state.exactPreAnchor.Some? && !format.decodesAsPreAnchor(state.exactPreAnchor.value) {
      return Err(StateShape);
    }
    var c := new BootstrapCoordinator(format, store, Restored(format, state));
    return Ok(Some(c));
  }

  method RestartWithNewIds(
    format: TrustFormat, store: BootstrapStore, loads: bool, ids: Option<(Id16, Id16)>, machine: Option<Hash32>,
    fault: Fault)
    returns (r: Outcome<Option<BootstrapCoordinator>>)
    modifies store
    ensures Opened(format, store, Event.Restart(loads, ids, machine, fault), r)
  {
    var persisted := store.Load(loads);
    if persisted.Err? {
      return Err(persisted.error);
    }
    var previous := persisted.value;
    if previous.None? || !previous.value.aborted {
      return Err(StepRegression);
    }
    if ids.None? {
      return Err(LocalRng);
    }
    if ids.value.0 == previous.value.organizationId || ids.value.1 == previous.value.chainId {
      return Err(LocalRng);
    }
    r := Start(format, store, ids.value.0, ids.value.1, machine, fault);
  }
}
