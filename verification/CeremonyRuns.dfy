/** Whole runs of the ceremony: every event sequence, every fault, every crash. */
module CeremonyRuns {
  import opened Bytes
  import opened CeremonyState
  import opened StateImage
  import opened Trust
  import opened AnchorMedia
  import opened Ceremony
  import opened CeremonyInvariants

  lemma JudgeSound(t: TrustFormat, c: Coordinator, call: Call)
    requires GoodCoordinator(t, c) && t.Lawful() && Genuine(t, Invoke(call, NoFault))
    ensures Sound(t, c, Judge(t, c, call))
  {
    hide GoodCoordinator, Sound, t.Lawful, Issued;
    hide JudgeOfflineRoot, JudgeAdminPairs, JudgePin, JudgeRecoveryAndHga, JudgeApprovers, JudgeBackups,
         JudgeComponents, JudgeCompare, JudgeRootSign, JudgeFinalAnchor, JudgeRecoveryTest;
    match call
    case OfflineRoot(root) => OfflineRootSound(t, c, root);
    case AdminPairs(pairs) => AdminPairsSound(t, c, pairs);
    case Pin(media, ids, confirmation) => PinSound(t, c, media, ids, confirmation);
    case RecoveryAndHga(recoveryKem, hgaSigning) => RecoveryAndHgaSound(t, c, recoveryKem, hgaSigning);
    case Approvers(approvers) => ApproversSound(t, c, approvers);
    case Backups(backups) => BackupsSound(t, c, backups);
    case Components(components) => ComponentsSound(t, c, components);
    case Compare(confirmation) => CompareSound(t, c, confirmation);
    case RootSign(organizations, published) => RootSignSound(t, c, organizations, published);
    case FinalAnchor(genesis, exactFinal, media, ids, reported, signature) =>
      FinalAnchorSound(t, c, genesis, exactFinal, media, ids, reported, signature);
    case RecoveryTest(proof) => RecoveryTestSound(t, c, proof);
  }

  /** The fields that are frozen once the pre-anchor is sealed. */
  datatype Core = Core(organizationId: Id16, chainId: Id16, root: Option<RootKeyMaterial>, preAnchor: Option<Bytes>,
    fingerprint: Option<Hash32>)

  function CoreOf(s: BootstrapState): Core {
    Core(s.organizationId, s.chainId, s.root, s.exactPreAnchor, s.sealedFingerprint)
  }

  predicate Sealed(s: BootstrapState) {
    s.sealedFingerprint.Some?
  }

  /** A later state of the same ceremony: the core is kept once sealed. */
  predicate Continues(a: BootstrapState, b: BootstrapState) {
    Sealed(a) ==> Sealed(b) && CoreOf(a) == CoreOf(b)
  }

  /** What a verdict does to the core. */
  predicate KeepsCore(s: BootstrapState, v: Verdict) {
    match v
    case Commit(next, step) => Continues(s, next.state)
    case Keep(next) => Continues(s, next.state)
    case _ => true
  }

  lemma PinKeepsCore(
    t: TrustFormat, c: Coordinator, media: Media, ids: seq<Id16>, confirmation: SecondChannelConfirmation)
    requires GoodCoordinator(t, c) && t.Lawful() && Issued(t, confirmation)
    ensures KeepsCore(c.state, JudgePin(t, c, media, ids, confirmation))
  {
    if JudgePin(t, c, media, ids, confirmation).Commit? {
      ConfirmedMeansReadBack(t, media, ids, c.state.exactPreAnchor.value, confirmation);
      ConfirmationOverPreAnchor(t, confirmation, c.state.exactPreAnchor.value);
    }
  }

  lemma AdminPairsKeepCore(t: TrustFormat, c: Coordinator, pairs: seq<AdminPair>)
    requires Good(t, c.state)
    ensures KeepsCore(c.state, JudgeAdminPairs(t, c, pairs))
  {
    hide NoDuplicates, AllHashes, PreFields, KeyObligation, ApproverObligation, BackupObligation, AnchorObligation;
  }

  lemma OthersKeepCore(t: TrustFormat, c: Coordinator, call: Call)
    requires !call.Pin? && !call.AdminPairs?
    ensures KeepsCore(c.state, Judge(t, c, call))
  {
    hide JudgePin, JudgeAdminPairs, RequireCompleted, RequireSealed, FinalAnchorPrecheck, ConfirmFinalOnMedia,
      ConfirmOnMirror, SignTranscript,
      FirstBackupError, Classes, Thumbprints, OwnThumbprints, NoDuplicates, OnlyNames;
    FinalAnchorPrecheckNeverCommits(t, c, call);
  }

  lemma FinalAnchorPrecheckNeverCommits(t: TrustFormat, c: Coordinator, call: Call)
    ensures call.FinalAnchor? ==>
              match FinalAnchorPrecheck(t, c, call.genesis, call.exactFinal)
              case Some(v) => v.Refuse? || v.Abort?
              case None => true
  {
  }

  /** After the seal no verdict, committed or kept, changes the core. */
  lemma VerdictKeepsCore(t: TrustFormat, c: Coordinator, call: Call)
    requires GoodCoordinator(t, c) && t.Lawful() && Genuine(t, Invoke(call, NoFault))
    ensures KeepsCore(c.state, Judge(t, c, call))
  {
    hide Good, KeepsCore, t.Lawful, JudgeOfflineRoot, JudgeAdminPairs, JudgePin, JudgeRecoveryAndHga, JudgeApprovers,
      JudgeBackups,
         JudgeComponents, JudgeCompare, JudgeRootSign, JudgeFinalAnchor, JudgeRecoveryTest;
    if call.Pin? {
      PinKeepsCore(t, c, call.media, call.ids, call.confirmation);
    } else if call.AdminPairs? {
      AdminPairsKeepCore(t, c, call.pairs);
    } else {
      OthersKeepCore(t, c, call);
    }
  }

  // --------------------------------------------------------- the invariant

  ghost predicate GoodIfAny(t: TrustFormat, s: Option<BootstrapState>) {
    s.Some? ==> Good(t, s.value)
  }

  /** The state file is never behind the coordinator and at most one step ahead, and continues its sealed core. */
  predicate Tracks(c: Coordinator, store: Store) {
    && store.Visible().Some?
    && c.state.step.Number() <= store.Visible().value.step.Number() <= c.state.step.Number() + 1
    && Continues(c.state, store.Visible().value)
  }

  /** What may come after a durable state: no lower step, the same sealed core, and nothing new after an abort. */
  predicate Follows(d: BootstrapState, s: BootstrapState) {
    && d.step.Number() <= s.step.Number()
    && Continues(d, s)
    && (d.aborted ==> s == d)
  }

  /** What has become durable binds everything that is still to come. */
  predicate Binds(d: BootstrapState, sys: System) {
    && (forall i :: 0 <= i < |sys.store.pending| ==> Follows(d, sys.store.pending[i]))
    && (sys.live.Some? ==> Follows(d, sys.live.value.state))
  }

  /** Every state in memory, in the file or left by a crash is good, and the file tracks the coordinator. */
  ghost predicate Sane(t: TrustFormat, sys: System) {
    && GoodIfAny(t, sys.store.durable)
    && (forall i :: 0 <= i < |sys.store.pending| ==> Good(t, sys.store.pending[i]))
    && (sys.live.Some? ==> GoodCoordinator(t, sys.live.value) && Tracks(sys.live.value, sys.store))
  }

  ghost predicate Inv(t: TrustFormat, sys: System) {
    Sane(t, sys) && (sys.store.durable.Some? ==> Binds(sys.store.durable.value, sys))
  }

  /** An aborted ceremony refuses every step method with the same finding. */
  lemma AbortedRefuses(t: TrustFormat, c: Coordinator, call: Call)
    requires c.state.aborted
    ensures Judge(t, c, call) == Refuse(PreFieldChanged)
  {
  }

  /** Storing a good next state keeps every state good, whether the store succeeds or fails early or late. */
  lemma PutKeepsSane(t: TrustFormat, port: Port, sys: System, next: Coordinator, back: Coordinator, fault: Fault)
    requires Sane(t, sys) && sys.live.Some?
    requires GoodCoordinator(t, next) && GoodCoordinator(t, back) && back.state == sys.live.value.state
    requires 0 <= next.state.step.Number() as int - back.state.step.Number() as int <= 1
    requires Continues(back.state, next.state)
    ensures var (store, failed) := Put(port, sys.store, next.state, fault);
            Sane(t, System(Some(if failed.Some? then back else next), store))
  {
    hide Good, WellFormed;
  }

  /** Carrying out a sound verdict keeps every state good, whatever the store does. */
  lemma SettleKeepsSane(t: TrustFormat, port: Port, sys: System, v: Verdict, fault: Fault)
    requires Sane(t, sys) && sys.live.Some? && Sound(t, sys.live.value, v) && KeepsCore(sys.live.value.state, v)
    ensures var (c, store, r) := Settle(t, port, sys.live.value, sys.store, v, fault);
            Sane(t, System(Some(c), store))
  {
    hide Good, WellFormed, Put;
    var c := sys.live.value;
    RestoredIsGood(t, c.state);
    GoodSealIsStepFour(t, c.state);
    match v
    case Keep(next) =>
      GoodSealIsStepFour(t, next.state);
    case Abort(error, base) =>
      RestoredIsGood(t, base.state);
      AbortMarkIsGood(t, base.state);
      PutKeepsSane(t, port, sys, base.(state := base.state.(aborted := true)), Restored(t, base.state), fault);
    case Commit(next, step) =>
      if !Before(step, next.state.step) {
        PutKeepsSane(t, port, sys, next.(state := next.state.(step := step)), Restored(t, c.state), fault);
      }
    case _ =>
  }

  lemma GoodSealIsStepFour(t: TrustFormat, s: BootstrapState)
    requires Good(t, s)
    ensures Sealed(s) <==> 4 <= s.step.Number()
    ensures s.aborted ==> Sealed(s)
  {
  }

  lemma AbortMarkIsGood(t: TrustFormat, s: BootstrapState)
    requires Good(t, s) && Sealed(s)
    ensures Good(t, s.(aborted := true))
  {
  }

  lemma FreshIsGood(t: TrustFormat, organizationId: Id16, chainId: Id16, machine: Option<Hash32>)
    ensures Good(t, Fresh(organizationId, chainId, machine))
    ensures WellFormed(Fresh(organizationId, chainId, machine))
  {
  }

  lemma InvokeKeepsSane(t: TrustFormat, port: Port, sys: System, call: Call, fault: Fault)
    requires Sane(t, sys) && t.Lawful() && Genuine(t, Invoke(call, fault))
    ensures Sane(t, Step(t, port, sys, Invoke(call, fault)).0)
  {
    hide Sane, Judge, Settle, Good, t.Lawful;
    if sys.live.Some? {
      var c := sys.live.value;
      assert GoodCoordinator(t, c) by { LiveIsGood(t, sys); }
      JudgeSound(t, c, call);
      VerdictKeepsCore(t, c, call);
      SettleKeepsSane(t, port, sys, Judge(t, c, call), fault);
    }
  }

  lemma LiveIsGood(t: TrustFormat, sys: System)
    requires Sane(t, sys) && sys.live.Some?
    ensures GoodCoordinator(t, sys.live.value)
  {
  }

  /** The events the file store sees; the abstract port's restart begins another ceremony. */
  predicate SameCeremony(port: Port, e: Event) {
    e.Restart? ==> port.FilePort?
  }

  /** Over the file store a restart is always refused: the aborted state it must replace is past step 1. */
  lemma RestartRefusedByFileStore(t: TrustFormat, sys: System, e: Event)
    requires GoodIfAny(t, sys.store.Visible()) && e.Restart?
    ensures Step(t, FilePort, sys, e).0 == sys.(live := None)
    ensures Step(t, FilePort, sys, e).1 in {Err(StepRegression), Err(LocalRng), Err(StoreUnavailable)}
  {
    hide Good, WellFormed;
    if sys.store.Visible().Some? {
      GoodSealIsStepFour(t, sys.store.Visible().value);
    }
    if e.ids.Some? {
      FreshIsGood(t, e.ids.value.0, e.ids.value.1, e.machine);
    }
  }

  lemma StepKeepsSane(t: TrustFormat, port: Port, sys: System, e: Event)
    requires Sane(t, sys) && t.Lawful() && Genuine(t, e)
    ensures Sane(t, Step(t, port, sys, e).0)
  {
    hide Good, WellFormed, Judge, Settle, t.Lawful;
    match e
    case Begin(_, ids, machine, fault) =>
      if ids.Some? {
        FreshIsGood(t, ids.value.0, ids.value.1, machine);
      }
    case Resume(_) =>
      if sys.store.Visible().Some? {
        RestoredIsGood(t, sys.store.Visible().value);
      }
    case Restart(_, ids, machine, fault) =>
      if ids.Some? {
        FreshIsGood(t, ids.value.0, ids.value.1, machine);
      }
    case Invoke(call, fault) =>
      InvokeKeepsSane(t, port, sys, call, fault);
    case Crash(survivor) =>
  }

  /** Storing what follows the coordinator's state keeps to what is durable. */
  lemma PutKeepsBinds(port: Port, sys: System, next: Coordinator, back: Coordinator, fault: Fault)
    requires sys.live.Some? && (sys.store.durable.Some? ==> Binds(sys.store.durable.value, sys))
    requires back.state == sys.live.value.state && Follows(back.state, next.state)
    ensures var (store, failed) := Put(port, sys.store, next.state, fault);
            store.durable.Some? ==> Binds(store.durable.value, System(Some(if failed.Some? then back else next), store))
  {
    hide WellFormed;
  }

  lemma InvokeKeepsInv(t: TrustFormat, port: Port, sys: System, call: Call, fault: Fault)
    requires Inv(t, sys) && t.Lawful() && Genuine(t, Invoke(call, fault))
    ensures Inv(t, Step(t, port, sys, Invoke(call, fault)).0)
  {
    hide Judge, Good, t.Lawful, Put, Sane, GoodCoordinator;
    InvokeKeepsSane(t, port, sys, call, fault);
    if sys.live.Some? {
      var c := sys.live.value;
      LiveIsGood(t, sys);
      JudgeSound(t, c, call);
      VerdictKeepsCore(t, c, call);
      GoodSealIsStepFourIn(t, c, Judge(t, c, call));
      match Judge(t, c, call)
      case Abort(error, base) =>
        AbortedRefusesIn(t, c, call);
        PutKeepsBinds(port, sys, base.(state := base.state.(aborted := true)), Restored(t, base.state), fault);
      case Commit(next, step) =>
        AbortedRefusesIn(t, c, call);
        if !Before(step, next.state.step) {
          PutKeepsBinds(port, sys, next.(state := next.state.(step := step)), Restored(t, c.state), fault);
        }
      case _ =>
        AbortedRefusesIn(t, c, call);
    }
  }

  lemma AbortedRefusesIn(t: TrustFormat, c: Coordinator, call: Call)
    ensures c.state.aborted ==> Judge(t, c, call) == Refuse(PreFieldChanged)
  {
    if c.state.aborted {
      AbortedRefuses(t, c, call);
    }
  }

  /** A kept verdict neither seals nor unseals. */
  lemma GoodSealIsStepFourIn(t: TrustFormat, c: Coordinator, v: Verdict)
    requires GoodCoordinator(t, c) && Sound(t, c, v)
    ensures v.Keep? ==> (Sealed(v.next.state) <==> Sealed(c.state))
  {
    hide Good;
    GoodSealIsStepFour(t, c.state);
    if v.Keep? {
      GoodSealIsStepFour(t, v.next.state);
    }
  }

  lemma StepKeepsInv(t: TrustFormat, port: Port, sys: System, e: Event)
    requires Inv(t, sys) && t.Lawful() && Genuine(t, e) && SameCeremony(port, e)
    ensures Inv(t, Step(t, port, sys, e).0)
  {
    hide Good, WellFormed, Judge, Settle, t.Lawful;
    StepKeepsSane(t, port, sys, e);
    if e.Invoke? {
      InvokeKeepsInv(t, port, sys, e.call, e.fault);
    } else if e.Restart? {
      RestartRefusedByFileStore(t, sys, e);
    }
  }

  ghost predicate AllGenuine(t: TrustFormat, events: seq<Event>) {
    forall i :: 0 <= i < |events| ==> Genuine(t, events[i])
  }

  predicate OneCeremony(port: Port, events: seq<Event>) {
    forall i :: 0 <= i < |events| ==> SameCeremony(port, events[i])
  }

  lemma {:induction false} RunKeepsSane(t: TrustFormat, port: Port, sys: System, events: seq<Event>)
    requires Sane(t, sys) && t.Lawful() && AllGenuine(t, events)
    ensures Sane(t, Run(t, port, sys, events))
    decreases |events|
  {
    hide Sane, Step, t.Lawful, Genuine;
    if events != [] {
      StepKeepsSane(t, port, sys, events[0]);
      RunKeepsSane(t, port, Step(t, port, sys, events[0]).0, events[1..]);
    }
  }

  lemma {:induction false} RunKeepsInv(t: TrustFormat, port: Port, sys: System, events: seq<Event>)
    requires Inv(t, sys) && t.Lawful() && AllGenuine(t, events) && OneCeremony(port, events)
    ensures Inv(t, Run(t, port, sys, events))
    decreases |events|
  {
    hide Inv, Step, t.Lawful, Genuine;
    if events != [] {
      StepKeepsInv(t, port, sys, events[0]);
      RunKeepsInv(t, port, Step(t, port, sys, events[0]).0, events[1..]);
    }
  }

  // ------------------------------------------------------------ main results

  /**
    In every state any run reaches from nothing, over any port, with any faults,
    crashes and restarts: the coordinator's state, the visible and the durable state each
    carry every obligation of the steps they claim; the state file is at the
    coordinator's step or one ahead; and no step method can panic.
  */
  lemma EveryReachableStateIsGood(t: TrustFormat, port: Port, events: seq<Event>)
    requires t.Lawful() && AllGenuine(t, events)
    ensures var sys := Run(t, port, NOTHING, events);
            && GoodIfAny(t, sys.store.Visible()) && GoodIfAny(t, sys.store.durable)
            && (sys.live.Some? ==> GoodCoordinator(t, sys.live.value) && Tracks(sys.live.value, sys.store))
    ensures forall call, fault :: Run(t, port, NOTHING, events).live.Some? && Genuine(t, Invoke(call, fault)) ==>
              Step(t, port, Run(t, port, NOTHING, events), Invoke(call, fault)).1 != Err(Panic)
  {
    hide Run, Judge, Good, t.Lawful;
    RunKeepsSane(t, port, NOTHING, events);
    var sys := Run(t, port, NOTHING, events);
    forall call, fault | sys.live.Some? && Genuine(t, Invoke(call, fault))
      ensures Step(t, port, sys, Invoke(call, fault)).1 != Err(Panic)
    {
      JudgeSound(t, sys.live.value, call);
    }
  }

  /**
    One call: on success the step rises by at most one; on failure the state is
    what it was, except possibly for the abort flag, and then the pre-anchor was sealed.
  */
  lemma OneCall(t: TrustFormat, port: Port, sys: System, call: Call, fault: Fault)
    requires Sane(t, sys) && t.Lawful() && Genuine(t, Invoke(call, fault)) && sys.live.Some?
    ensures var before := sys.live.value.state;
            var (after, r) := Step(t, port, sys, Invoke(call, fault));
            && after.live.Some?
            && (r.Ok? ==> before.step.Number() <= after.live.value.state.step.Number() <= before.step.Number() + 1)
            && (r.Err? ==>
              || after.live.value.state == before
              || (Sealed(before) && after.live.value.state == before.(aborted := true)))
  {
    hide Judge, Good, WellFormed;
    JudgeSound(t, sys.live.value, call);
    RestoredIsGood(t, sys.live.value.state);
  }

  predicate OnlyCalls(events: seq<Event>) {
    forall i :: 0 <= i < |events| ==> events[i].Invoke?
  }

  /** While one coordinator lives, a sealed core never changes and an abort is never left. */
  lemma {:induction false} SealedCoordinatorIsFrozen(t: TrustFormat, port: Port, sys: System, events: seq<Event>)
    requires Sane(t, sys) && t.Lawful() && AllGenuine(t, events)
    requires OnlyCalls(events)
    requires sys.live.Some? && Sealed(sys.live.value.state)
    ensures var after := Run(t, port, sys, events);
            && after.live.Some? && Sealed(after.live.value.state)
            && CoreOf(after.live.value.state) == CoreOf(sys.live.value.state)
            && (sys.live.value.state.aborted ==> after == sys)
    decreases |events|
  {
    hide Sane, Step, Genuine, t.Lawful;
    if events != [] {
      assert events[0] == Invoke(events[0].call, events[0].fault);
      var next := Step(t, port, sys, events[0]).0;
      SealedCallIsFrozen(t, port, sys, events[0].call, events[0].fault);
      StepKeepsSane(t, port, sys, events[0]);
      SealedCoordinatorIsFrozen(t, port, next, events[1..]);
    }
  }

  lemma SealedCallIsFrozen(t: TrustFormat, port: Port, sys: System, call: Call, fault: Fault)
    requires Sane(t, sys) && t.Lawful() && Genuine(t, Invoke(call, fault))
    requires sys.live.Some? && Sealed(sys.live.value.state)
    ensures var after := Step(t, port, sys, Invoke(call, fault)).0;
            && after.live.Some? && Sealed(after.live.value.state)
            && CoreOf(after.live.value.state) == CoreOf(sys.live.value.state)
            && (sys.live.value.state.aborted ==> after == sys)
  {
    hide Judge, Good, WellFormed, t.Lawful;
    var c := sys.live.value;
    JudgeSound(t, c, call);
    VerdictKeepsCore(t, c, call);
    RestoredIsGood(t, c.state);
    if c.state.aborted {
      AbortedRefuses(t, c, call);
    }
  }

  /**
    Once a state is durable, nothing short of another ceremony goes behind it:
    whatever is in memory, in the file, or left by any number of crashes, failing
    stores and resumptions has no lower step and, if the state was sealed, the same
    ids, root, pre-anchor bytes and fingerprint. A durable abort is never left.
  */
  lemma {:induction false} DurableIsPermanent(t: TrustFormat, port: Port, sys: System, events: seq<Event>)
    requires Inv(t, sys) && t.Lawful() && AllGenuine(t, events) && OneCeremony(port, events)
    requires sys.store.durable.Some?
    ensures var after := Run(t, port, sys, events);
            && after.store.durable.Some?
            && Follows(sys.store.durable.value, after.store.durable.value)
            && Binds(sys.store.durable.value, after)
    decreases |events|
  {
    hide Step, Genuine, t.Lawful, Good;
    if events != [] {
      var next := Step(t, port, sys, events[0]).0;
      StepKeepsInv(t, port, sys, events[0]);
      DurableStep(t, port, sys, events[0]);
      DurableIsPermanent(t, port, next, events[1..]);
    }
  }

  /** The same from the very beginning: whatever one part of a run made durable binds the rest of the run. */
  lemma WhatIsDurableStays(t: TrustFormat, port: Port, before: seq<Event>, later: seq<Event>)
    requires t.Lawful() && AllGenuine(t, before) && AllGenuine(t, later) && OneCeremony(port, before)
    requires OneCeremony(port, later)
    ensures var middle := Run(t, port, NOTHING, before);
            var end := Run(t, port, middle, later);
            middle.store.durable.Some? ==>
              && end.store.durable.Some? && Follows(middle.store.durable.value, end.store.durable.value)
              && Binds(middle.store.durable.value, end)
  {
    hide Run, Good, t.Lawful, Genuine;
    RunKeepsInv(t, port, NOTHING, before);
    if Run(t, port, NOTHING, before).store.durable.Some? {
      DurableIsPermanent(t, port, Run(t, port, NOTHING, before), later);
    }
  }

  lemma DurableStep(t: TrustFormat, port: Port, sys: System, e: Event)
    requires Inv(t, sys) && t.Lawful() && Genuine(t, e) && SameCeremony(port, e)
    requires sys.store.durable.Some?
    ensures var after := Step(t, port, sys, e).0;
            && after.store.durable.Some?
            && Follows(sys.store.durable.value, after.store.durable.value)
  {
    hide Judge, Good, WellFormed, t.Lawful;
    if e.Restart? {
      assert GoodIfAny(t, sys.store.Visible());
      RestartRefusedByFileStore(t, sys, e);
    } else if e.Invoke? && sys.live.Some? {
      var c := sys.live.value;
      JudgeSound(t, c, e.call);
      VerdictKeepsCore(t, c, e.call);
      if c.state.aborted {
        AbortedRefuses(t, c, e.call);
      }
    }
  }

  /** Over the file store the step a reader finds falls only when a crash undoes a replacement that was not flushed. */
  lemma VisibleStepMonotone(t: TrustFormat, sys: System, e: Event)
    requires Sane(t, sys) && t.Lawful() && Genuine(t, e) && sys.store.Visible().Some?
    ensures var after := Step(t, FilePort, sys, e).0.store.Visible();
            (e.Crash? ==> sys.store.pending == [])
            ==> after.Some? && sys.store.Visible().value.step.Number() <= after.value.step.Number()
  {
    hide Judge, Good, WellFormed, t.Lawful;
    if e.Restart? {
      RestartRefusedByFileStore(t, sys, e);
    }
  }
}
