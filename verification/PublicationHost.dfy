/**
  The publication host: one loop that sleeps, runs and counts its attempts, and
  any number of outside runs that record their outcome in the same state. Every
  section under the state's mutex is one event; events interleave freely.
*/
module PublicationHost {
  import opened Bytes

  const MINIMUM_BACKOFF_MS: nat := 1000

  /** What a caller is told about the archive on the network. */
  datatype Cause = NetworkArchiveWaiting | ProfileNotAllowed | QueueLimitReached | ResumeAttemptsExhausted

  /** The outcome of the last run; before the first one nothing is known. */
  datatype Observed = Unknown | Clean | Waiting(cause: Cause) | Failed {
    predicate IsClean() {
      Clean? || Unknown?
    }
  }

  datatype Profile = Profile(resumeBackoffInitialMs: u64, resumeBackoffMaxMs: u64, resumeMaxAttempts: u64) {
    function Initial(): (r: u64)
      ensures r >= MINIMUM_BACKOFF_MS
    {
      Max(resumeBackoffInitialMs, MINIMUM_BACKOFF_MS)
    }

    function Maximum(): (r: u64)
      ensures r >= Initial()
    {
      Max(resumeBackoffMaxMs, Initial())
    }
  }

  datatype HostState = HostState(
    observed: Observed,
    attempts: u64,
    delayMs: u64,
    exhausted: bool,
    signaled: bool,
    stopped: bool,
    counted: bool)

  function SaturatingDouble(n: u64): u64 {
    Min(2 * n, U64_MAX)
  }

  // -------------------------------------------------- sections under the mutex

  function Recorded(s: HostState, o: Observed): HostState {
    s.(observed := o, signaled := s.signaled || (s.observed.IsClean() && !o.IsClean()))
  }

  /** The new state, and the delay in milliseconds if there is one. */
  function NextDelay(p: Profile, s: HostState): (HostState, Option<u64>) {
    if s.exhausted then (s.(counted := false), None)
    else if s.observed.IsClean() then (s.(counted := false, delayMs := p.Initial()), Some(p.Maximum()))
    else if s.attempts >= p.resumeMaxAttempts then (s.(counted := false, exhausted := true), None)
    else
      var delay: u64 := Max(s.delayMs, p.Initial());
      (s.(attempts := s.attempts + 1, counted := true, delayMs := Min(SaturatingDouble(delay), p.Maximum())),
        Some(delay))
  }

  function Refunded(s: HostState): HostState {
    if !s.counted then s
    else s.(attempts := if s.attempts == 0 then 0 else s.attempts - 1, counted := false)
  }

  /** How one look of the wait at the state ends it, if it does. */
  datatype Wake = Stopped | Signaled | Elapsed | Asleep

  function Look(s: HostState, elapsed: bool): (HostState, Wake) {
    if s.stopped then (s, Stopped)
    else if s.signaled then (s.(signaled := false), Signaled)
    else if elapsed then (s, Elapsed)
    else (s, Asleep)
  }

  // ----------------------------------------------------------- the interleaving

  /**
    Where the loop stands between two sections; a sleep remembers whether its delay was chosen while clean,
    a run whether the archive was observed clean when it was woken.
  */
  datatype Loop =
    | Asking
    | Sleeping(idle: bool, delay: nat)
    | Running(clean: bool)
    | Finished(ran: bool)
    | Discarding
    | Refunding
    | Ended

  /**
    The shared state and the loop, with tallies for the record: the loop's
    executed runs whose delay was counted, those that started unclean, the counted
    ones that started clean, and the counted delays since the last clean one.
  */
  datatype Host = Host(state: HostState, loop: Loop, executed: nat, unclean: nat, settled: nat, doublings: nat)

  function Built(p: Profile): Host {
    Host(HostState(Unknown, 0, p.Initial(), false, false, false, false), Asking, 0, 0, 0, 0)
  }

  datatype Event =
    | Record(observed: Observed)
    | Shutdown
    | Ask
    | Poll(elapsed: bool)
    | RunEnds(ran: bool)
    | SettleRun
    | DiscardSignal
    | Refund

  /** One section of the loop, if it is the loop's turn for it; outside sections are always possible. */
  function Next(p: Profile, h: Host, e: Event): Host {
    match e
    case Record(o) => h.(state := Recorded(h.state, o))
    case Shutdown => h.(state := h.state.(stopped := true))
    case Ask =>
      if h.loop != Asking then h
      else
        var (s, delay) := NextDelay(p, h.state);
        if delay.None? then h.(state := s, loop := Ended)
        else h.(state := s, loop := Sleeping(!s.counted, delay.value), doublings := if s.counted then h.doublings + 1
             else 0)
    case Poll(elapsed) =>
      if !h.loop.Sleeping? then h
      else
        var (s, wake) := Look(h.state, elapsed);
        h.(state := s, loop := match wake case Stopped => Ended case Signaled => Refunding case Elapsed =>
          Running(s.observed.IsClean())
                                  case Asleep => h.loop)
    case RunEnds(ran) =>
      if !h.loop.Running? then h
      else if !ran then h.(loop := Finished(false))
      else
        var clean, counted := h.loop.clean, h.state.counted;
        h.(loop := Finished(true),
           executed := if counted then h.executed + 1 else h.executed,
           unclean := if !clean then h.unclean + 1 else h.unclean,
           settled := if counted && clean then h.settled + 1 else h.settled)
    case SettleRun =>
      if !h.loop.Finished? then h
      else h.(state := if h.loop.ran then h.state else Refunded(h.state), loop := Discarding)
    case DiscardSignal =>
      if h.loop != Discarding then h else h.(state := h.state.(signaled := false), loop := Asking)
    case Refund =>
      if h.loop != Refunding then h else h.(state := Refunded(h.state), loop := Asking)
  }

  function Run(p: Profile, h: Host, events: seq<Event>): Host
    decreases |events|
  {
    if events == [] then h else Run(p, Next(p, h, events[0]), events[1..])
  }

  // ------------------------------------------------------------- the invariant

  function Pow2(n: nat): nat {
    if n == 0 then 1 else 2 * Pow2(n - 1)
  }

  /** A counted attempt whose run has not happened: its wait is under way, was refused its run, or was stopped. */
  predicate Outstanding(h: Host) {
    h.state.counted && (h.loop.Sleeping? || h.loop.Running? || h.loop == Finished(false) || h.loop == Refunding
      || h.loop == Ended)
  }

  predicate Inv(p: Profile, h: Host) {
    && h.state.attempts == h.executed + (if Outstanding(h) then 1 else 0)
    && h.state.attempts <= p.resumeMaxAttempts
    && h.executed == h.unclean + h.settled
    && h.state.delayMs == Min(p.Initial() * Pow2(h.doublings), p.Maximum())
    && match h.loop
       case Sleeping(idle, delay) =>
         && idle == !h.state.counted
         && MINIMUM_BACKOFF_MS <= delay <= p.Maximum()
         && (idle ==> delay == p.Maximum())
         && (!idle ==> h.doublings > 0 && delay == Min(p.Initial() * Pow2(h.doublings - 1), p.Maximum()))
         && (idle && !h.state.observed.IsClean() ==> h.state.signaled)
       case Running(clean) => !h.state.counted ==> clean
       case _ => true
  }

  lemma StepKeepsInv(p: Profile, h: Host, e: Event)
    requires Inv(p, h)
    ensures Inv(p, Next(p, h, e))
  {
    if e.Ask? && h.loop == Asking {
      DoublingStep(p, h.doublings);
    }
  }

  /** Doubling, capped and saturating, keeps the delay at the capped power of two. */
  lemma DoublingStep(p: Profile, n: nat)
    ensures p.Initial() <= Min(p.Initial() * Pow2(n), p.Maximum())
    ensures Min(SaturatingDouble(Min(p.Initial() * Pow2(n), p.Maximum())), p.Maximum()) ==
            Min(p.Initial() * Pow2(n + 1), p.Maximum())
    ensures Min(p.Initial() * Pow2(0), p.Maximum()) == p.Initial()
  {
    hide Pow2;
    var x := Scaled(p.Initial(), n);
    DoubleCapped(x, p.Maximum());
  }

  lemma Scaled(i: nat, n: nat) returns (x: nat)
    ensures x == i * Pow2(n) >= i
    ensures i * Pow2(n + 1) == 2 * x && i * Pow2(0) == i
  {
    Pow2Positive(n);
    x := i * Pow2(n);
  }

  lemma DoubleCapped(x: nat, maximum: u64)
    ensures Min(SaturatingDouble(Min(x, maximum)), maximum) == Min(2 * x, maximum)
  {
  }

  lemma {:induction false} Pow2Positive(n: nat)
    ensures Pow2(n) >= 1
  {
    if n > 0 {
      Pow2Positive(n - 1);
    }
  }

  lemma {:induction false} RunKeepsInv(p: Profile, h: Host, events: seq<Event>)
    requires Inv(p, h)
    ensures Inv(p, Run(p, h, events))
    decreases |events|
  {
    hide Inv, Next;
    if events != [] {
      StepKeepsInv(p, h, events[0]);
      RunKeepsInv(p, Next(p, h, events[0]), events[1..]);
    }
  }

  // ------------------------------------------------------------- main results

  /**
    Attempts are conserved under any interleaving with outside runs: they equal
    the executed runs of the loop that started unclean, the counted ones that
    started clean, and one while a counted wait has not had its run or was stopped;
    and they never exceed the profile's bound.
  */
  lemma AttemptsAreConserved(p: Profile, events: seq<Event>)
    ensures var h := Run(p, Built(p), events);
            && h.state.attempts == h.unclean + h.settled + (if Outstanding(h) then 1 else 0)
            && h.executed == h.unclean + h.settled
            && h.state.attempts <= p.resumeMaxAttempts
  {
    hide Run;
    DoublingStep(p, 0);
    RunKeepsInv(p, Built(p), events);
  }

  /**
    No wake-up is lost, though the loop throws away signals raised during its own
    run: while it sleeps on a delay chosen clean, an unclean observation means the
    signal is up, so its next look ends the sleep without an attempt being spent.
  */
  lemma NoLostWakeUp(p: Profile, events: seq<Event>, elapsed: bool)
    ensures var h := Run(p, Built(p), events);
            h.loop.Sleeping? && h.loop.idle && !h.state.observed.IsClean() ==>
              && h.state.signaled
              && Next(p, h, Poll(elapsed)).loop == (if h.state.stopped then Ended else Refunding)
              && Next(p, h, Poll(elapsed)).state.attempts == h.state.attempts == h.executed
  {
    hide Run;
    DoublingStep(p, 0);
    RunKeepsInv(p, Built(p), events);
  }

  /**
    The delay of the k-th counted wait since the last clean one is exactly
    min(initial * 2^(k-1), maximum); the next one follows the same law, and every
    delay lies between one second and the maximum, for every profile.
  */
  lemma BackoffIsExact(p: Profile, events: seq<Event>)
    ensures var h := Run(p, Built(p), events);
            && (h.loop.Sleeping? ==> MINIMUM_BACKOFF_MS <= h.loop.delay <= p.Maximum())
            && (h.loop.Sleeping? && h.loop.idle ==> h.loop.delay == p.Maximum())
            && (h.loop.Sleeping? && !h.loop.idle ==>
              h.doublings >= 1 && h.loop.delay == Min(p.Initial() * Pow2(h.doublings - 1), p.Maximum()))
            && (!h.state.exhausted && !h.state.observed.IsClean() && h.state.attempts < p.resumeMaxAttempts ==>
                  NextDelay(p, h.state).1 == Some(Min(p.Initial() * Pow2(h.doublings), p.Maximum())))
  {
    hide Run;
    DoublingStep(p, 0);
    RunKeepsInv(p, Built(p), events);
    DoublingStep(p, Run(p, Built(p), events).doublings);
  }

  /**
    Once the host answers that no delay is left, the loop has ended for good and
    every later question gets the same answer, whatever happens outside; the
    attempts are spent, each on an executed run.
  */
  lemma ExhaustionIsFinal(p: Profile, h: Host, events: seq<Event>)
    requires Inv(p, h) && h.loop == Asking && NextDelay(p, h.state).1.None?
    ensures var after := Run(p, Next(p, h, Ask), events);
            after.loop == Ended && NextDelay(p, after.state).1.None?
    ensures !h.state.exhausted ==> h.executed == p.resumeMaxAttempts
  {
    EndedIsFinal(p, Next(p, h, Ask), events);
  }

  /** A stopped wait keeps the attempt it counted: nothing that follows refunds it. */
  lemma StoppedWaitIsNotRefunded(p: Profile, h: Host, elapsed: bool, events: seq<Event>)
    requires Inv(p, h) && h.loop.Sleeping? && !h.loop.idle && h.state.stopped
    ensures var after := Run(p, Next(p, h, Poll(elapsed)), events);
            after.loop == Ended && after.state.attempts == h.state.attempts == after.executed + 1
  {
    EndedIsFinal(p, Next(p, h, Poll(elapsed)), events);
  }

  lemma {:induction false} EndedIsFinal(p: Profile, h: Host, events: seq<Event>)
    requires h.loop == Ended
    ensures var after := Run(p, h, events);
            && after.loop == Ended && after.executed == h.executed
            && after.state.attempts == h.state.attempts && after.state.exhausted == h.state.exhausted
    decreases |events|
  {
    if events != [] {
      EndedIsFinal(p, Next(p, h, events[0]), events[1..]);
    }
  }

  // -------------------------------------------- what counts as an unclean start

  ghost predicate Reaches(p: Profile, h: Host) {
    exists events :: Run(p, Built(p), events) == h
  }

  lemma {:induction false} RunSnoc(p: Profile, h: Host, events: seq<Event>, e: Event)
    ensures Run(p, h, events + [e]) == Next(p, Run(p, h, events), e)
    decreases |events|
  {
    hide Next;
    if events == [] {
      assert Run(p, h, [e]) == Run(p, Next(p, h, e), [e][1..]);
    } else {
      assert (events + [e])[1..] == events[1..] + [e];
      RunSnoc(p, Next(p, h, events[0]), events[1..], e);
    }
  }

  lemma Then(p: Profile, h: Host, e: Event) returns (next: Host)
    requires Reaches(p, h)
    ensures next == Next(p, h, e) && Reaches(p, next)
  {
    hide Next;
    var events :| Run(p, Built(p), events) == h;
    RunSnoc(p, Built(p), events, e);
    next := Next(p, h, e);
  }

  /** The last outcome recorded in a stretch of events. */
  function LastRecord(events: seq<Event>): Option<Observed> {
    if events == [] then None
    else
      var n := |events| - 1;
      if events[n].Record? then Some(events[n].observed) else LastRecord(events[..n])
  }

  predicate Settles(o: Option<Observed>) {
    o.Some? && o.value.IsClean()
  }

  /** The observation is the last one recorded; nothing else touches it. */
  lemma {:induction false} ObservedIsLast(p: Profile, h: Host, events: seq<Event>)
    ensures Run(p, h, events).state.observed == if LastRecord(events).Some? then LastRecord(events).value
            else h.state.observed
    decreases |events|
  {
    if events != [] {
      var n := |events| - 1;
      assert events == events[..n] + [events[n]];
      ObservedIsLast(p, h, events[..n]);
      RunSnoc(p, h, events[..n], events[n]);
    }
  }

  /**
    A counted run starts clean if and only if the last outcome recorded between
    the question that counted it and the look that woke it was clean.
  */
  lemma CountedRunStartsClean(p: Profile, h: Host, wait: seq<Event>, elapsed: bool)
    requires h.loop == Asking && Next(p, h, Ask).state.counted
    ensures var asleep := Run(p, Next(p, h, Ask), wait);
            var woken := Next(p, asleep, Poll(elapsed));
            asleep.loop.Sleeping? && woken.loop.Running? ==> (woken.loop.clean <==> Settles(LastRecord(wait)))
  {
    hide Run;
    ObservedIsLast(p, Next(p, h, Ask), wait);
  }

  /** A run woken from an idle delay always starts clean: an unclean record would have raised the signal. */
  lemma IdleRunStartsClean(p: Profile, events: seq<Event>, elapsed: bool)
    ensures var h := Run(p, Built(p), events);
            var woken := Next(p, h, Poll(elapsed));
            h.loop.Sleeping? && h.loop.idle && woken.loop.Running? ==> woken.loop.clean
  {
    hide Run;
    DoublingStep(p, 0);
    RunKeepsInv(p, Built(p), events);
  }

  // A listener that hears only the schedule: what was recorded since the last question, and
  // whether that had settled the archive when the present run was woken.

  datatype Ear = Ear(heard: Option<Observed>, settled: bool)

  function Listen(p: Profile, h: Host, ear: Ear, e: Event): Ear {
    match e
    case Record(o) => ear.(heard := Some(o))
    case Ask => if h.loop == Asking then ear.(heard := None) else ear
    case Poll(_) =>
      if h.loop.Sleeping? && Next(p, h, e).loop.Running? then ear.(settled := h.state.counted && Settles(ear.heard))
        else ear
    case _ => ear
  }

  /** No counted run takes place whose wait was settled from outside. */
  predicate Undisturbed(p: Profile, h: Host, ear: Ear, events: seq<Event>)
    decreases |events|
  {
    events == [] ||
    (&& !(h.loop.Running? && events[0] == RunEnds(true) && ear.settled)
     && Undisturbed(p, Next(p, h, events[0]), Listen(p, h, ear, events[0]), events[1..]))
  }

  /** What the listener knows is what the loop saw. */
  predicate Hears(h: Host, ear: Ear) {
    match h.loop
    case Sleeping(idle, _) => !idle == h.state.counted
         && (!idle ==> (h.state.observed.IsClean() <==> Settles(ear.heard)))
    case Running(clean) => ear.settled <==> h.state.counted && clean
    case _ => true
  }

  lemma StepIsHeard(p: Profile, h: Host, ear: Ear, e: Event)
    requires Hears(h, ear)
    ensures Hears(Next(p, h, e), Listen(p, h, ear, e))
    ensures Next(p, h, e).settled == h.settled + if h.loop.Running? && e == RunEnds(true) && ear.settled then 1 else 0
  {
  }

  lemma {:induction false} SettledRunsAreHeard(p: Profile, h: Host, ear: Ear, events: seq<Event>)
    requires Hears(h, ear)
    ensures Run(p, h, events).settled >= h.settled
    ensures Run(p, h, events).settled == h.settled <==> Undisturbed(p, h, ear, events)
    decreases |events|
  {
    hide Next, Listen, Hears;
    if events != [] {
      StepIsHeard(p, h, ear, events[0]);
      SettledRunsAreHeard(p, Next(p, h, events[0]), Listen(p, h, ear, events[0]), events[1..]);
    }
  }

  /**
    Attempts are the executed runs that started unclean, plus the outstanding one,
    if and only if no counted run took place after its wait had been settled from outside.
  */
  lemma AttemptsAreUncleanRuns(p: Profile, events: seq<Event>)
    ensures var h := Run(p, Built(p), events);
            h.state.attempts == h.unclean + (if Outstanding(h) then 1 else 0) <==>
              Undisturbed(p, Built(p), Ear(None, false), events)
  {
    hide Run, Undisturbed;
    AttemptsAreConserved(p, events);
    SettledRunsAreHeard(p, Built(p), Ear(None, false), events);
  }

  /**
    The other case happens: an outside run settles the archive during a counted wait, and the
    attempt is spent all the same.
  */
  lemma SettledWaitIsSpent(p: Profile)
    requires p.resumeMaxAttempts >= 1
    ensures exists h :: Reaches(p, h) && h.state.attempts == 1 && h.unclean == 0 && h.settled == 1 && !Outstanding(h)
  {
    assert Run(p, Built(p), []) == Built(p);
    assert Reaches(p, Built(p));
    hide Reaches;
    var h := Then(p, Built(p), Record(Failed));
    h := Then(p, h, Ask);
    h := Then(p, h, Poll(true));
    h := Then(p, h, Refund);
    h := Then(p, h, Ask);
    h := Then(p, h, Record(Clean));
    h := Then(p, h, Poll(true));
    h := Then(p, h, RunEnds(true));
  }

  // ------------------------------------------------------------- the host object

  predicate FromOutside(e: Event) {
    e.Record? || e.Shutdown?
  }

  /** What the environment does around one step of the loop: outside sections, the clock, the run. */
  datatype Turn = Turn(outside: seq<Event>, elapsed: bool, ran: bool)

  /**
    The host as an object: `state` is what the mutex guards, and `log` the order in
    which its sections were entered, so that the object is always at the end of a run.
  */
  class NetworkPublicationHost {
    const profile: Profile
    var state: HostState
    ghost var host: Host
    ghost var log: seq<Event>

    ghost predicate Valid()
      reads this
    {
      host == Run(profile, Built(profile), log) && host.state == state
    }

    constructor (profile: Profile)
      ensures Valid() && this.profile == profile && host == Built(profile) && log == []
    {
      this.profile := profile;
      state := HostState(Unknown, 0, profile.Initial(), false, false, false, false);
      host, log := Built(profile), [];
    }

    ghost method Enter(e: Event)
      requires host == Run(profile, Built(profile), log)
      modifies this`host, this`log
      ensures host == Next(profile, old(host), e) == Run(profile, Built(profile), log) && log == old(log) + [e]
    {
      hide Next;
      RunSnoc(profile, Built(profile), log, e);
      host, log := Next(profile, host, e), log + [e];
    }

    method RecordOutcome(observed: Observed)
      requires Valid()
      modifies this
      ensures Valid() && host == Next(profile, old(host), Record(observed))
    {
      hide Run;
      if state.observed.IsClean() && !observed.IsClean() {
        state := state.(signaled := true);
      }
      state := state.(observed := observed);
      Enter(Record(observed));
    }

    method StopNow()
      requires Valid()
      modifies this
      ensures Valid() && host == Next(profile, old(host), Shutdown)
    {
      hide Run;
      state := state.(stopped := true);
      Enter(Shutdown);
    }

    /** The sections other threads enter before the loop's next one. */
    method Outside(events: seq<Event>)
      requires Valid() && forall i :: 0 <= i < |events| ==> FromOutside(events[i])
      modifies this
      ensures Valid() && host.loop == old(host).loop
    {
      for i := 0 to |events|
        invariant Valid() && host.loop == old(host).loop
      {
        if events[i].Shutdown? {
          StopNow();
        } else {
          RecordOutcome(events[i].observed);
        }
      }
    }

    method TakeDelay() returns (delay: Option<u64>)
      requires Valid() && host.loop == Asking
      modifies this
      ensures Valid() && delay == NextDelay(profile, old(state)).1
      ensures host == Next(profile, old(host), Ask) && (delay.Some? <==> host.loop.Sleeping?)
      ensures (delay.None? <==> host.loop == Ended)
      ensures delay.None? ==> state.exhausted
    {
      hide Run;
      var initial, maximum := profile.Initial(), profile.Maximum();
      Enter(Ask);
      state := state.(counted := false);
      if state.exhausted {
        return None;
      }
      if state.observed.IsClean() {
        state := state.(delayMs := initial);
        return Some(maximum);
      }
      if state.attempts >= profile.resumeMaxAttempts {
        state := state.(exhausted := true);
        return None;
      }
      var next: u64 := Max(state.delayMs, initial);
      state := state.(attempts := state.attempts + 1, counted := true, delayMs := Min(SaturatingDouble(next), maximum));
      return Some(next);
    }

    /** `wait`: look, and look again after every wake-up, for as long as the schedule goes. */
    method Wait(schedule: seq<Turn>, from: nat) returns (wake: Wake, at: nat)
      requires Valid() && host.loop.Sleeping? && from <= |schedule|
      requires forall t <- schedule :: forall e <- t.outside :: FromOutside(e)
      modifies this
      ensures Valid() && from <= at <= |schedule| && (wake == Asleep ==> at == |schedule|)
      ensures (wake != Asleep ==> from < at)
      ensures host.loop == match wake case Stopped => Ended case Signaled => Refunding case Elapsed =>
              Running(state.observed.IsClean())
                           case Asleep => old(host).loop
      ensures wake == Stopped ==> state.stopped
    {
      hide Run;
      wake, at := Asleep, from;
      while at < |schedule|
        invariant Valid() && from <= at <= |schedule| && host.loop == old(host).loop
      {
        Outside(schedule[at].outside);
        var elapsed := schedule[at].elapsed;
        at := at + 1;
        Enter(Poll(elapsed));
        if state.stopped {
          return Stopped, at;
        }
        if state.signaled {
          state := state.(signaled := false);
          return Signaled, at;
        }
        if elapsed {
          return Elapsed, at;
        }
      }
    }

    method RefundAttempt(e: Event)
      requires Valid() && ((e == Refund && host.loop == Refunding) || (e == SettleRun && host.loop == Finished(false)))
      modifies this
      ensures Valid() && host == Next(profile, old(host), e)
      ensures host.loop == (if e == Refund then Asking else Discarding)
    {
      hide Run;
      if state.counted {
        state := state.(attempts := if state.attempts == 0 then 0 else state.attempts - 1, counted := false);
      }
      Enter(e);
    }

    /** The loop's own run, during which others record too; its signals are thrown away afterwards. */
    method Execute(turn: Turn)
      requires Valid() && host.loop.Running? && forall e <- turn.outside :: FromOutside(e)
      modifies this
      ensures Valid() && host.loop == Asking && !state.signaled
    {
      hide Run;
      Outside(turn.outside);
      Enter(RunEnds(turn.ran));
      if turn.ran {
        Enter(SettleRun);
      } else {
        RefundAttempt(SettleRun);
      }
      state := state.(signaled := false);
      Enter(DiscardSignal);
    }

    /**
      `run_loop` against any schedule of the environment. Wherever it stops, its
      attempts are accounted for, and it stops by itself only when stopped or exhausted.
    */
    method RunLoop(schedule: seq<Turn>)
      requires Valid() && host.loop == Asking
      requires forall t <- schedule :: forall e <- t.outside :: FromOutside(e)
      modifies this
      ensures Valid()
      ensures state.attempts == host.unclean + host.settled + (if Outstanding(host) then 1 else 0)
      ensures state.attempts <= profile.resumeMaxAttempts
      ensures host.loop == Ended ==> state.stopped || state.exhausted
    {
      hide Run, Next;
      var at := 0;
      while at < |schedule|
        invariant Valid() && host.loop == Asking && at <= |schedule|
      {
        var delay := TakeDelay();
        if delay.None? {
          break;
        }
        var wake;
        wake, at := Wait(schedule, at);
        if wake == Stopped || wake == Asleep {
          break;
        }
        if wake == Signaled {
          RefundAttempt(Refund);
        } else {
          Execute(schedule[at - 1]);
        }
      }
      AttemptsAreConserved(profile, log);
    }
  }
}
