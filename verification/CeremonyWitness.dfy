/**
  Where the recorded obligations come from: behind every state a run reaches
  stand calls of that run that discharged what the state claims.
*/
module CeremonyWitness {
  import opened Bytes
  import opened CeremonyState
  import opened StateImage
  import opened Trust
  import opened AnchorMedia
  import opened Ceremony
  import opened CeremonyInvariants
  import opened CeremonyRuns

  // ------------------------------------------------------ what a call may vouch for

  predicate PinnedBy(t: TrustFormat, s: BootstrapState, call: Call) {
    && call.Pin? && s.exactPreAnchor.Some?
    && ConfirmOnMedia(t, call.media, call.ids, s.exactPreAnchor.value, call.confirmation).1.Ok?
    && s.sealedMedia == SortedIds(call.ids) && s.sealedFingerprint == Some(call.confirmation.fingerprint)
  }

  predicate ComparedBy(t: TrustFormat, s: BootstrapState, call: Call) {
    && call.Compare? && s.exactPreAnchor.Some?
    && ConfirmOnMirror(t, s.exactPreAnchor.value, call.confirmation).Ok?
    && s.sealedFingerprint == Some(call.confirmation.fingerprint)
  }

  predicate PublishedBy(s: BootstrapState, target: Hash32, call: Call) {
    call.RootSign? && call.published == Some(target) && OnlyNames(call.intentOrganizations, s.organizationId)
  }

  predicate AnchoredBy(t: TrustFormat, s: BootstrapState, call: Call) {
    && call.FinalAnchor? && s.exactFinalAnchor == Some(call.exactFinal) && s.genesisEntryHash == Some(call.genesis)
    && ConfirmFinalOnMedia(t, s, call.exactFinal, call.media, call.ids, call.reported).1.Ok?
  }

  predicate TestedBy(t: TrustFormat, s: BootstrapState, call: Call) {
    && call.RecoveryTest? && call.proof.current && s.recoveryTestMachine == Some(call.proof.machine)
    && s.exactFinalAnchor.Some? && call.proof.expectedAnchorHash == t.trustAnchorHash(s.exactFinalAnchor.value)
    && call.proof.mediaExpected >= |s.sealedMedia|
  }

  ghost predicate Pinned(t: TrustFormat, calls: set<Call>, s: BootstrapState) {
    Reached(s, PinPreAnchorOnMedia) ==> exists call <- calls :: PinnedBy(t, s, call)
  }

  ghost predicate Compared(t: TrustFormat, calls: set<Call>, s: BootstrapState) {
    Reached(s, CompareFingerprints) ==> exists call <- calls :: ComparedBy(t, s, call)
  }

  ghost predicate Authorized(calls: set<Call>, s: BootstrapState, target: Hash32) {
    exists call <- calls :: PublishedBy(s, target, call)
  }

  ghost predicate Published(calls: set<Call>, s: BootstrapState) {
    forall i :: 0 <= i < |s.publishedTargets| ==> Authorized(calls, s, s.publishedTargets[i])
  }

  ghost predicate Anchored(t: TrustFormat, calls: set<Call>, s: BootstrapState) {
    Reached(s, CreateGenesisAndFinalAnchor) ==> exists call <- calls :: AnchoredBy(t, s, call)
  }

  ghost predicate Tested(t: TrustFormat, calls: set<Call>, s: BootstrapState) {
    s.production == Ready ==> exists call <- calls :: TestedBy(t, s, call)
  }

  /** Every claim of the state that no stored field can prove was made good by a call. */
  ghost predicate Witnessed(t: TrustFormat, calls: set<Call>, s: BootstrapState) {
    Pinned(t, calls, s) && Compared(t, calls, s) && Published(calls, s) && Anchored(t, calls, s) && Tested(t, calls, s)
  }

  // A witness stays one when there are more calls and the fields it speaks of are the same.

  lemma PinnedStill(t: TrustFormat, calls: set<Call>, more: set<Call>, a: BootstrapState, b: BootstrapState)
    requires Pinned(t, calls, a) && calls <= more
    requires Reached(b, PinPreAnchorOnMedia) ==>
               && Reached(a, PinPreAnchorOnMedia) && b.exactPreAnchor == a.exactPreAnchor
               && b.sealedMedia == a.sealedMedia && b.sealedFingerprint == a.sealedFingerprint
    ensures Pinned(t, more, b)
  {
    hide ConfirmOnMedia;
  }

  lemma ComparedStill(t: TrustFormat, calls: set<Call>, more: set<Call>, a: BootstrapState, b: BootstrapState)
    requires Compared(t, calls, a) && calls <= more
    requires Reached(b, CompareFingerprints) ==>
               Reached(a, CompareFingerprints) && b.exactPreAnchor == a.exactPreAnchor
                 && b.sealedFingerprint == a.sealedFingerprint
    ensures Compared(t, more, b)
  {
    hide ConfirmOnMirror;
  }

  lemma PublishedStill(calls: set<Call>, more: set<Call>, a: BootstrapState, b: BootstrapState)
    requires Published(calls, a) && calls <= more && b.organizationId == a.organizationId
    requires b.publishedTargets == a.publishedTargets
    ensures Published(more, b)
  {
    hide OnlyNames;
    forall i | 0 <= i < |b.publishedTargets|
      ensures Authorized(more, b, b.publishedTargets[i])
    {
      assert Authorized(calls, a, a.publishedTargets[i]);
      var call :| call in calls && PublishedBy(a, a.publishedTargets[i], call);
      assert call in more && PublishedBy(b, b.publishedTargets[i], call);
    }
  }

  lemma AnchoredStill(t: TrustFormat, calls: set<Call>, more: set<Call>, a: BootstrapState, b: BootstrapState)
    requires Anchored(t, calls, a) && calls <= more
    requires Reached(b, CreateGenesisAndFinalAnchor) ==>
               && Reached(a, CreateGenesisAndFinalAnchor) && b.exactFinalAnchor == a.exactFinalAnchor
               && b.genesisEntryHash == a.genesisEntryHash && b.sealedMedia == a.sealedMedia
    ensures Anchored(t, more, b)
  {
    hide ConfirmOnMedia, NoDuplicates;
  }

  lemma TestedStill(t: TrustFormat, calls: set<Call>, more: set<Call>, a: BootstrapState, b: BootstrapState)
    requires Tested(t, calls, a) && calls <= more
    requires b.production == Ready ==>
               && a.production == Ready && b.recoveryTestMachine == a.recoveryTestMachine
               && b.exactFinalAnchor == a.exactFinalAnchor
               && b.sealedMedia == a.sealedMedia
    ensures Tested(t, more, b)
  {
  }

  lemma WitnessedStill(t: TrustFormat, calls: set<Call>, more: set<Call>, a: BootstrapState, b: BootstrapState)
    requires Witnessed(t, calls, a) && calls <= more
    requires b.organizationId == a.organizationId && b.publishedTargets == a.publishedTargets
    requires Reached(b, PinPreAnchorOnMedia) ==>
               && Reached(a, PinPreAnchorOnMedia) && b.exactPreAnchor == a.exactPreAnchor
               && b.sealedMedia == a.sealedMedia && b.sealedFingerprint == a.sealedFingerprint
    requires Reached(b, CompareFingerprints) ==> Reached(a, CompareFingerprints)
    requires Reached(b, CreateGenesisAndFinalAnchor) ==>
               Reached(a, CreateGenesisAndFinalAnchor) && b.exactFinalAnchor == a.exactFinalAnchor
                 && b.genesisEntryHash == a.genesisEntryHash
    requires b.production == Ready ==>
               && a.production == Ready && b.recoveryTestMachine == a.recoveryTestMachine
               && b.step == RunFreshMachineRecoveryTest
    ensures Witnessed(t, more, b)
  {
    hide Pinned, Compared, Published, Anchored, Tested;
    PinnedStill(t, calls, more, a, b);
    ComparedStill(t, calls, more, a, b);
    PublishedStill(calls, more, a, b);
    AnchoredStill(t, calls, more, a, b);
    TestedStill(t, calls, more, a, b);
  }

  /** The state a verdict leads to, if it leads anywhere. */
  function Reaches(v: Verdict): Option<BootstrapState> {
    match v
    case Keep(next) => Some(next.state)
    case Commit(next, step) => if Before(step, next.state.step) then None else Some(next.state.(step := step))
    case _ => None
  }

  ghost predicate Vouched(t: TrustFormat, calls: set<Call>, v: Verdict) {
    Reaches(v).Some? ==> Witnessed(t, calls, Reaches(v).value)
  }

  lemma EarlyVouched(t: TrustFormat, calls: set<Call>, c: Coordinator, call: Call)
    requires GoodCoordinator(t, c) && Witnessed(t, calls, c.state) && (call.OfflineRoot? || call.AdminPairs?)
    ensures Vouched(t, calls + {call}, Judge(t, c, call))
  {
    hide Witnessed, NoDuplicates, AllHashes, PreFields, Custody, Closing, Ordered;
    ClosingFields(t, c.state);
    if Reaches(Judge(t, c, call)).Some? {
      WitnessedStill(t, calls, calls + {call}, c.state, Reaches(Judge(t, c, call)).value);
    }
  }

  lemma ClosingFields(t: TrustFormat, s: BootstrapState)
    requires Closing(t, s)
    ensures s.publishedTargets != [] <==> Reached(s, RootSignBootstrapTargets)
    ensures s.production == Ready <==> s.step == RunFreshMachineRecoveryTest
  {
    hide SignedTranscript;
  }

  lemma MiddleVouched(t: TrustFormat, calls: set<Call>, c: Coordinator, call: Call)
    requires GoodCoordinator(t, c) && Witnessed(t, calls, c.state)
    requires call.RecoveryAndHga? || call.Approvers? || call.Backups? || call.Components?
    ensures Vouched(t, calls + {call}, Judge(t, c, call))
  {
    hide Witnessed, NoDuplicates, Thumbprints, OwnThumbprints, Classes, FirstBackupError, Opening, Custody, Closing;
    ClosingFields(t, c.state);
    if Reaches(Judge(t, c, call)).Some? {
      WitnessedStill(t, calls, calls + {call}, c.state, Reaches(Judge(t, c, call)).value);
    }
  }

  /** What an accepted step 4 vouches for, and what it leaves as it was. */
  lemma PinLeads(t: TrustFormat, c: Coordinator, call: Call)
    requires GoodCoordinator(t, c) && call.Pin?
    ensures var r := Reaches(Judge(t, c, call));
            r.Some? ==>
              && PinnedBy(t, r.value, call) && r.value.step == PinPreAnchorOnMedia && r.value.production != Ready
              && r.value.organizationId == c.state.organizationId
              && r.value.publishedTargets == c.state.publishedTargets
  {
    hide ConfirmOnMedia, NoDuplicates, AllHashes, PreFields, Custody, Closing, Ordered, Sort;
    ClosingFields(t, c.state);
  }

  lemma PinVouched(t: TrustFormat, calls: set<Call>, c: Coordinator, call: Call)
    requires GoodCoordinator(t, c) && Witnessed(t, calls, c.state) && call.Pin?
    ensures Vouched(t, calls + {call}, Judge(t, c, call))
  {
    hide Judge, PinnedBy, Compared, Published, Anchored, Tested, GoodCoordinator;
    PinLeads(t, c, call);
    var r := Reaches(Judge(t, c, call));
    if r.Some? {
      var more := calls + {call};
      assert call in more;
      ComparedStill(t, calls, more, c.state, r.value);
      PublishedStill(calls, more, c.state, r.value);
      AnchoredStill(t, calls, more, c.state, r.value);
      TestedStill(t, calls, more, c.state, r.value);
    }
  }

  lemma CompareVouched(t: TrustFormat, calls: set<Call>, c: Coordinator, call: Call)
    requires GoodCoordinator(t, c) && Witnessed(t, calls, c.state) && call.Compare?
    ensures Vouched(t, calls + {call}, Judge(t, c, call))
  {
    hide Pinned, Published, Anchored, Tested, ConfirmOnMirror, Opening, Custody, Closing;
    ClosingFields(t, c.state);
    var r := Reaches(Judge(t, c, call));
    if r.Some? {
      assert ComparedBy(t, r.value, call);
      var more := calls + {call};
      assert call in more;
      PinnedStill(t, calls, more, c.state, r.value);
      PublishedStill(calls, more, c.state, r.value);
      AnchoredStill(t, calls, more, c.state, r.value);
      TestedStill(t, calls, more, c.state, r.value);
    }
  }

  lemma RootSignVouched(t: TrustFormat, calls: set<Call>, c: Coordinator, call: Call)
    requires GoodCoordinator(t, c) && Witnessed(t, calls, c.state) && call.RootSign?
    ensures Vouched(t, calls + {call}, Judge(t, c, call))
  {
    hide Pinned, Compared, Anchored, Tested, Opening, Custody, Closing, OnlyNames;
    ClosingFields(t, c.state);
    var r := Reaches(Judge(t, c, call));
    if r.Some? {
      var more := calls + {call};
      PinnedStill(t, calls, more, c.state, r.value);
      ComparedStill(t, calls, more, c.state, r.value);
      AnchoredStill(t, calls, more, c.state, r.value);
      TestedStill(t, calls, more, c.state, r.value);
      OneMoreTarget(calls, call, c.state, r.value);
    }
  }

  lemma OneMoreTarget(calls: set<Call>, call: Call, a: BootstrapState, b: BootstrapState)
    requires Published(calls, a) && b.organizationId == a.organizationId
    requires call.RootSign? && call.published.Some? && b.publishedTargets == a.publishedTargets + [call.published.value]
    requires OnlyNames(call.intentOrganizations, a.organizationId)
    ensures Published(calls + {call}, b)
  {
    hide OnlyNames;
    forall i | 0 <= i < |b.publishedTargets|
      ensures Authorized(calls + {call}, b, b.publishedTargets[i])
    {
      if i < |a.publishedTargets| {
        assert Authorized(calls, a, a.publishedTargets[i]);
        var x :| x in calls && PublishedBy(a, a.publishedTargets[i], x);
        assert x in calls + {call} && PublishedBy(b, b.publishedTargets[i], x);
      } else {
        assert call in calls + {call} && PublishedBy(b, b.publishedTargets[i], call);
      }
    }
  }

  /** What an accepted step 11 vouches for, and what it leaves as it was. */
  lemma FinalAnchorLeads(t: TrustFormat, c: Coordinator, call: Call)
    requires GoodCoordinator(t, c) && call.FinalAnchor?
    ensures var r := Reaches(Judge(t, c, call));
            r.Some? ==>
              && AnchoredBy(t, r.value, call) && Reached(c.state, CompareFingerprints)
              && r.value.step == CreateGenesisAndFinalAnchor && r.value.production != Ready
              && r.value == c.state.(
                   genesisEntryHash := r.value.genesisEntryHash, exactFinalAnchor := r.value.exactFinalAnchor,
                   transcript := r.value.transcript, step := r.value.step)
  {
    hide Opening, Custody, Closing, FinalAnchorPrecheck, SignTranscript, ConfirmOnMedia, NoDuplicates, Sort;
    PrecheckedAnchor(t, c, call.genesis, call.exactFinal);
    ClosingFields(t, c.state);
  }

  lemma FinalAnchorVouched(t: TrustFormat, calls: set<Call>, c: Coordinator, call: Call)
    requires GoodCoordinator(t, c) && Witnessed(t, calls, c.state) && call.FinalAnchor?
    ensures Vouched(t, calls + {call}, Judge(t, c, call))
  {
    hide Judge, AnchoredBy, Pinned, Compared, Published, Tested, GoodCoordinator;
    FinalAnchorLeads(t, c, call);
    var r := Reaches(Judge(t, c, call));
    if r.Some? {
      var more := calls + {call};
      assert call in more;
      PinnedStill(t, calls, more, c.state, r.value);
      ComparedStill(t, calls, more, c.state, r.value);
      PublishedStill(calls, more, c.state, r.value);
      TestedStill(t, calls, more, c.state, r.value);
    }
  }

  lemma RecoveryTestVouched(t: TrustFormat, calls: set<Call>, c: Coordinator, call: Call)
    requires GoodCoordinator(t, c) && Witnessed(t, calls, c.state) && call.RecoveryTest?
    ensures Vouched(t, calls + {call}, Judge(t, c, call))
  {
    hide Pinned, Compared, Published, Anchored, Opening, Custody, Closing;
    ClosingFields(t, c.state);
    var r := Reaches(Judge(t, c, call));
    if r.Some? {
      assert TestedBy(t, r.value, call);
      var more := calls + {call};
      assert call in more;
      PinnedStill(t, calls, more, c.state, r.value);
      ComparedStill(t, calls, more, c.state, r.value);
      PublishedStill(calls, more, c.state, r.value);
      AnchoredStill(t, calls, more, c.state, r.value);
    }
  }

  lemma JudgeVouched(t: TrustFormat, calls: set<Call>, c: Coordinator, call: Call)
    requires GoodCoordinator(t, c) && Witnessed(t, calls, c.state)
    ensures Vouched(t, calls + {call}, Judge(t, c, call))
  {
    hide GoodCoordinator, Witnessed, Vouched, Judge;
    match call
    case OfflineRoot(_) => EarlyVouched(t, calls, c, call);
    case AdminPairs(_) => EarlyVouched(t, calls, c, call);
    case Pin(_, _, _) => PinVouched(t, calls, c, call);
    case Compare(_) => CompareVouched(t, calls, c, call);
    case RootSign(_, _) => RootSignVouched(t, calls, c, call);
    case FinalAnchor(_, _, _, _, _, _) => FinalAnchorVouched(t, calls, c, call);
    case RecoveryTest(_) => RecoveryTestVouched(t, calls, c, call);
    case _ => MiddleVouched(t, calls, c, call);
  }

  // ------------------------------------------------------------------- whole runs

  ghost predicate AllWitnessed(t: TrustFormat, calls: set<Call>, sys: System) {
    && (sys.live.Some? ==> Witnessed(t, calls, sys.live.value.state))
    && (sys.store.durable.Some? ==> Witnessed(t, calls, sys.store.durable.value))
    && forall i :: 0 <= i < |sys.store.pending| ==> Witnessed(t, calls, sys.store.pending[i])
  }

  function CallOf(e: Event): set<Call> {
    if e.Invoke? then {e.call} else {}
  }

  /** The calls made in a run. */
  function Calls(events: seq<Event>): set<Call> {
    set e <- events | e.Invoke? :: e.call
  }

  lemma StillAll(t: TrustFormat, calls: set<Call>, more: set<Call>, sys: System)
    requires AllWitnessed(t, calls, sys) && Sane(t, sys) && calls <= more
    ensures AllWitnessed(t, more, sys)
  {
    hide Witnessed;
    forall s | Witnessed(t, calls, s) && Good(t, s)
      ensures Witnessed(t, more, s)
    {
      ReadyIsLast(t, s);
      WitnessedStill(t, calls, more, s, s);
    }
  }

  lemma ReadyIsLast(t: TrustFormat, s: BootstrapState)
    requires Good(t, s)
    ensures s.production == Ready ==> s.step == RunFreshMachineRecoveryTest
  {
    hide Opening, Custody;
    ClosingFields(t, s);
  }

  lemma FreshWitnessed(t: TrustFormat, calls: set<Call>, organizationId: Id16, chainId: Id16, machine: Option<Hash32>)
    ensures Witnessed(t, calls, Fresh(organizationId, chainId, machine))
  {
  }

  lemma AbortWitnessed(t: TrustFormat, calls: set<Call>, s: BootstrapState)
    requires Witnessed(t, calls, s) && Good(t, s)
    ensures Witnessed(t, calls, s.(aborted := true))
  {
    hide Witnessed;
    ReadyIsLast(t, s);
    WitnessedStill(t, calls, calls, s, s.(aborted := true));
  }

  lemma SettleWitnessed(t: TrustFormat, port: Port, sys: System, calls: set<Call>, v: Verdict, fault: Fault)
    requires sys.live.Some? && AllWitnessed(t, calls, sys) && Sound(t, sys.live.value, v) && Vouched(t, calls, v)
    requires Witnessed(t, calls, sys.live.value.state.(aborted := true))
    ensures var (c, store, r) := Settle(t, port, sys.live.value, sys.store, v, fault);
            AllWitnessed(t, calls, System(Some(c), store))
  {
    hide Witnessed, GoodCoordinator, WellFormed;
  }

  lemma StepWitnessed(t: TrustFormat, port: Port, sys: System, calls: set<Call>, e: Event)
    requires Sane(t, sys) && AllWitnessed(t, calls, sys) && t.Lawful() && Genuine(t, e)
    ensures AllWitnessed(t, calls + CallOf(e), Step(t, port, sys, e).0)
  {
    hide Witnessed, Judge, Settle, Good, WellFormed, t.Lawful;
    var more := calls + CallOf(e);
    StillAll(t, calls, more, sys);
    match e
    case Begin(_, ids, machine, fault) =>
      if ids.Some? {
        FreshWitnessed(t, more, ids.value.0, ids.value.1, machine);
      }
    case Restart(_, ids, machine, fault) =>
      if ids.Some? {
        FreshWitnessed(t, more, ids.value.0, ids.value.1, machine);
      }
    case Invoke(call, fault) =>
      if sys.live.Some? {
        var c := sys.live.value;
        JudgeSound(t, c, call);
        JudgeVouched(t, calls, c, call);
        AbortWitnessed(t, more, c.state);
        SettleWitnessed(t, port, sys, more, Judge(t, c, call), fault);
      }
    case _ =>
  }

  lemma {:induction false} RunWitnessed(t: TrustFormat, port: Port, sys: System, calls: set<Call>, events: seq<Event>)
    requires Sane(t, sys) && AllWitnessed(t, calls, sys) && t.Lawful() && AllGenuine(t, events)
    ensures AllWitnessed(t, calls + Calls(events), Run(t, port, sys, events))
    decreases |events|
  {
    hide Sane, AllWitnessed, Step, t.Lawful, Genuine;
    if events == [] {
      assert calls + Calls(events) == calls;
    } else {
      StepKeepsSane(t, port, sys, events[0]);
      StepWitnessed(t, port, sys, calls, events[0]);
      RunWitnessed(t, port, Step(t, port, sys, events[0]).0, calls + CallOf(events[0]), events[1..]);
      assert events == [events[0]] + events[1..];
      assert calls + CallOf(events[0]) + Calls(events[1..]) == calls + Calls(events);
    }
  }

  /**
    In every state any run reaches, in memory, in the file or after a crash: a
    seal was read back from two or more media in a call of this run, the
    comparison was made over the sealed bytes, every published target was
    authorized for this organization only, the final anchor was read back from
    exactly the sealed media, and readiness was earned by a current test on
    another machine against this final anchor and all sealed media.
  */
  lemma EveryClaimHasItsCall(t: TrustFormat, port: Port, events: seq<Event>)
    requires t.Lawful() && AllGenuine(t, events)
    ensures AllWitnessed(t, Calls(events), Run(t, port, NOTHING, events))
  {
    hide Run, Witnessed;
    RunWitnessed(t, port, NOTHING, {}, events);
    assert {} + Calls(events) == Calls(events);
  }
}
