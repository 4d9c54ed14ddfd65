/**
  How far apart two neighbouring presences can lie. The idle limit is checked
  with one reading of the clock and the presence stamped with another, so the
  answer depends on how long the recorder may pause in between.
*/
module SessionGaps {
  import opened Bytes
  import opened SessionWatch

  // ------------------------------------------------------ the pause of a stamp

  /** Between the look at the idle limit and the stamp. */
  predicate InSection(r: Recorder) {
    r.LatchDue? || r.InsertDue? || r.StampDue?
  }

  /** How much the clock has advanced since the recorder looked at the idle limit. */
  function Spent(w: Watch, e: Event, spent: nat): nat {
    if !InSection(Next(w, e).recorder) then 0 else if e.Tick? then spent + e.millis else spent
  }

  /** A schedule in which the clock advances by at most `pause` between each look and its stamp. */
  predicate StampsWithin(w: Watch, events: seq<Event>, pause: nat, spent: nat)
    decreases |events|
  {
    events == [] ||
    (&& (w.recorder.StampDue? && events[0].RecordStamp? ==> spent <= pause)
     && StampsWithin(Next(w, events[0]), events[1..], pause, Spent(w, events[0], spent)))
  }

  predicate Clocked(w: Watch, spent: nat) {
    if InSection(w.recorder) then w.now == w.recorder.checked + spent else spent == 0
  }

  /** One event keeps the measurement and adds at most the presence it stamps. */
  lemma StepIsClocked(w: Watch, e: Event, spent: nat)
    requires Clocked(w, spent)
    ensures Clocked(Next(w, e), Spent(w, e, spent))
    ensures Next(w, e).presences ==
            if w.recorder.StampDue? && e.RecordStamp? then
              w.presences + [Presence(w.recorder.nonce, w.recorder.checked, w.recorder.checked + spent)]
            else w.presences
  {
    hide CallerStep, ReaderStep;
    CallerFrames(w, e);
    ReaderFrame(w, e);
  }

  /** From the k-th on, every presence was stamped at most `pause` after its look. */
  predicate PausesWithin(presences: seq<Presence>, k: nat, pause: nat) {
    forall i :: k <= i < |presences| ==> presences[i].at <= presences[i].checked + pause
  }

  /** The schedule's pauses are those the presences show. */
  lemma {:induction false} PausesAreStamped(w: Watch, events: seq<Event>, pause: nat, spent: nat)
    requires Clocked(w, spent)
    ensures w.presences <= Run(w, events).presences
    ensures StampsWithin(w, events, pause, spent) <==> PausesWithin(Run(w, events).presences, |w.presences|, pause)
    decreases |events|
  {
    hide Next, Spent, Clocked;
    if events != [] {
      StepIsClocked(w, events[0], spent);
      var next, after := Next(w, events[0]), Run(w, events);
      PausesAreStamped(next, events[1..], pause, Spent(w, events[0], spent));
      if w.recorder.StampDue? && events[0].RecordStamp? {
        assert after.presences[|w.presences|] == next.presences[|w.presences|];
      }
    }
  }

  // --------------------------------------------------------------- the bound

  predicate GapsBelow(started: nat, presences: seq<Presence>, limit: nat) {
    forall i :: 0 <= i < |presences| ==> presences[i].at < Latest(started, presences[..i]) + limit
  }

  /** With pauses of at most `pause`, neighbouring presences are less than the idle limit and that pause apart. */
  lemma GapsAreBounded(started: nat, now: nat, events: seq<Event>, pause: nat)
    requires started <= now && StampsWithin(Begun(started, now), events, pause, 0)
    ensures GapsBelow(started, Run(Begun(started, now), events).presences, IDLE_LIMIT + pause)
  {
    hide Run, StampsWithin;
    PausesAreStamped(Begun(started, now), events, pause, 0);
    LifetimeIsAChain(started, now, events);
  }

  // ---------------------------------------------------------------- tightness

  /** A schedule that keeps the pause and adds exactly one presence, `gap` after the one before. */
  ghost predicate Opens(w: Watch, n: Nonce, pause: nat, gap: nat, events: seq<Event>) {
    var after := Run(w, events);
    && StampsWithin(w, events, pause, 0) && !after.invalidated
    && |after.presences| == |w.presences| + 1 && w.presences <= after.presences
    && after.presences[|w.presences|].nonce == n && after.presences[|w.presences|].at == w.lastPresence + gap
  }

  lemma RecordedAfter(w: Watch, c: Challenge, n: Nonce, age: nat, pause: nat) returns (after: Watch)
    requires Resting(w) && c !in w.issued && n !in w.consumed
    requires w.now - w.lastPresence <= age < IDLE_LIMIT
    ensures Reaches(w, after) && !after.invalidated
    ensures after.presences == w.presences + [Presence(n, w.lastPresence + age, w.lastPresence + age + pause)]
  {
    var later := w.(now := w.lastPresence + age);
    assert Reaches(w, later) by {
      assert Reaches(w, w) by { assert Run(w, []) == w; }
      var _ := Then(w, w, Tick(later.now - w.now));
    }
    hide Reaches;
    PromptAnswerIsGranted(later, c, n, 0);
    var granted := Answered(later, c, 0).(
      covered := w.covered + multiset{n},
      grants := w.grants + [Grant(c, later.now, later.now, later.now, w.lastPresence)]);
    RecordRun(later, granted, n, pause);
    after := granted.(
      now := later.now + pause, lastPresence := later.now + pause, covered := granted.covered - multiset{n},
      consumed := w.consumed + {n}, presences := w.presences + [Presence(n, later.now, later.now + pause)]);
    ReachesOn(w, later, after);
  }

  /** Every gap below that bound opens, from any resting watch and with the watch still valid. */
  lemma EveryGapIsReached(w: Watch, c: Challenge, n: Nonce, pause: nat, gap: nat)
    requires Resting(w) && w.lastPresence <= w.now && c !in w.issued && n !in w.consumed
    requires w.now - w.lastPresence <= gap < IDLE_LIMIT + pause
    ensures exists events :: Opens(w, n, pause, gap, events)
  {
    hide Next;
    var age := Min(gap, IDLE_LIMIT - 1);
    var after := RecordedAfter(w, c, n, age, gap - age);
    var events :| Run(w, events) == after;
    PausesAreStamped(w, events, pause, 0);
    assert Opens(w, n, pause, gap, events);
  }

  // ------------------------------------------------------------ exactly when

  /** No schedule with such pauses ever opens a gap of the limit or more. */
  ghost predicate AlwaysBelow(pause: nat, limit: nat) {
    forall started: nat, now: nat, events ::
      started <= now && StampsWithin(Begun(started, now), events, pause, 0) ==>
        GapsBelow(started, Run(Begun(started, now), events).presences, limit)
  }

  /**
    The bound is exact for every pause. In particular all gaps stay below the idle
    limit if and only if the clock never advances between look and stamp.
  */
  lemma GapsExactly(pause: nat, limit: nat)
    ensures AlwaysBelow(pause, limit) <==> IDLE_LIMIT + pause <= limit
    ensures AlwaysBelow(pause, IDLE_LIMIT) <==> pause == 0
  {
    hide AlwaysBelow;
    BelowExactly(pause, limit);
    BelowExactly(pause, IDLE_LIMIT);
  }

  lemma BelowExactly(pause: nat, limit: nat)
    ensures AlwaysBelow(pause, limit) <==> IDLE_LIMIT + pause <= limit
  {
    hide Run, StampsWithin;
    if limit < IDLE_LIMIT + pause {
      var w := Begun(0, 0);
      EveryGapIsReached(w, [], [], pause, limit);
      var events :| Opens(w, [], pause, limit, events);
      var presences := Run(w, events).presences;
      assert presences[..0] == [];
      assert !GapsBelow(0, presences, limit);
    } else {
      forall started: nat, now: nat, events | started <= now && StampsWithin(Begun(started, now), events, pause, 0)
        ensures GapsBelow(started, Run(Begun(started, now), events).presences, limit)
      {
        GapsAreBounded(started, now, events, pause);
      }
    }
  }

  // ------------------------------------------------- a stamp on an ended watch

  /** A presence past its look at the latch is stamped though the reader has ended the watch in between. */
  lemma StampAfterTheEnd(c: Challenge, n: Nonce)
    ensures exists w ::
              && Reaches(Begun(0, 0), w) && w.invalidated && w.presences == []
              && Next(w, RecordStamp).presences == [Presence(n, 0, 0)]
  {
    var from := Begun(0, 0);
    hide Reaches, CallerStep;
    PromptAnswerIsGranted(from, c, n, 0);
    var w := Answered(from, c, 0).(covered := from.covered + multiset{n},
      grants := from.grants + [Grant(c, 0, 0, 0, 0)]);
    CommitRun(from, w, n);
    EndedRun(from, w.(covered := w.covered - multiset{n}, consumed := w.consumed + {n}, recorder := StampDue(n, 0)));
  }

  lemma EndedRun(from: Watch, w: Watch)
    requires Reaches(from, w) && w.reader == Awaiting && w.recorder.StampDue? && w.presences == []
    ensures Reaches(from, w.(reader := Stopped, invalidated := true))
    ensures Next(w.(reader := Stopped, invalidated := true), RecordStamp).presences ==
            [Presence(w.recorder.nonce, w.recorder.checked, w.now)]
  {
    hide Reaches, CallerStep;
    var next := Then(from, w, ReadByte(false));
    next := Then(from, next, LatchReader);
    var p := Presence(w.recorder.nonce, w.recorder.checked, w.now);
    assert w.presences + [p] == [p];
  }
}
