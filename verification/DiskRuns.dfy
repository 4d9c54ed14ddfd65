/**
  The ceremony over the file store's disk: calls in any weather, deaths between
  any two effects of a store, power losses and resumptions. Every such run is a
  run of the transition system.
*/
module DiskRuns {
  import opened Bytes
  import opened CeremonyState
  import opened StateImage
  import opened Trust
  import opened Ceremony
  import opened CeremonyInvariants
  import opened CeremonyRuns
  import opened FileStore

  /** The coordinator in memory, and the disk. */
  datatype Machine = Machine(live: Option<Coordinator>, disk: Disk)

  /** What the program is asked to do, whatever the store will make of it. */
  datatype Act =
    | Begins(loads: bool, ids: Option<(Id16, Id16)>, machine: Option<Hash32>)
    | Resumes(loads: bool)
    | Restarts(loads: bool, ids: Option<(Id16, Id16)>, machine: Option<Hash32>)
    | Calls(call: Call)

  datatype Happening = Done(act: Act, w: Weather) | DiedIn(act: Act) | PowerLoss

  function With(act: Act, fault: Fault): Event {
    match act
    case Begins(loads, ids, machine) => Begin(loads, ids, machine, fault)
    case Resumes(loads) => Resume(loads)
    case Restarts(loads, ids, machine) => Restart(loads, ids, machine, fault)
    case Calls(call) => Invoke(call, fault)
  }

  /** The state a verdict hands to the store. */
  function Handed(v: Verdict): Option<BootstrapState> {
    match v
    case Commit(next, step) => if Before(step, next.state.step) then None else Some(next.state.(step := step))
    case Abort(_, base) => Some(base.state.(aborted := true))
    case _ => None
  }

  /** The state an act hands to the store, if it comes to that. */
  function Offered(t: TrustFormat, sys: System, act: Act): Option<BootstrapState> {
    match act
    case Begins(loads, ids, machine) =>
      if loads && sys.store.Visible().None? && ids.Some? then Some(Fresh(ids.value.0, ids.value.1, machine)) else None
    case Resumes(_) => None
    case Restarts(loads, ids, machine) =>
      var old_ := sys.store.Visible();
      if && loads && old_.Some? && old_.value.aborted && ids.Some?
         && ids.value.0 != old_.value.organizationId && ids.value.1 != old_.value.chainId
      then Some(Fresh(ids.value.0, ids.value.1, machine))
      else None
    case Calls(call) => if sys.live.None? then None else Handed(Judge(t, sys.live.value, call))
  }

  ghost function Seen(m: Machine): System
    requires Intact(m.disk)
  {
    System(m.live, Abstract(m.disk))
  }

  /** The memory the program is left with when its store took the state, or did not. */
  function Landed(t: TrustFormat, sys: System, act: Act, stored: bool): Option<Coordinator> {
    Step(t, AnyPort, sys, With(act, if stored then NoFault else Early)).0.live
  }

  /** After a crash: the entry that was found, flushed, and perhaps an old temporary file. */
  predicate Holds(d: Disk, found: Option<Bytes>) {
    d.pending == [] && d.durable == if found.Some? then Some(File(found.value, true)) else None
  }

  /** The disks a death may happen on: the one before, or one the store passes through. */
  ghost predicate Passes(before: Disk, offered: Option<BootstrapState>, d: Disk)
    requires Intact(before)
  {
    || d == before
    || (&& offered.Some? && ReadBack(offered.value).Some? && OnTheWay(before, Image(offered.value), d)
        && (Abstract(before).Visible().Some? ==> !Before(offered.value.step, Abstract(before).Visible().value.step)))
  }

  ghost predicate Moves(t: TrustFormat, a: Machine, h: Happening, b: Machine)
    requires Intact(a.disk)
  {
    match h
    case Done(act, w) =>
      (match Offered(t, Seen(a), act)
       case None => b.disk == a.disk && b.live == Step(t, FilePort, Seen(a), With(act, NoFault)).0.live
       case Some(s) => exists r :: SaveOutcome(a.disk, s, w, b.disk, r) && b.live == Landed(t, Seen(a), act, r.Ok?))
    case DiedIn(act) =>
      b.live.None? && exists d, found ::
        && Passes(a.disk, Offered(t, Seen(a), act), d) && MayFind(d, found)
        && Holds(b.disk, found)
    case PowerLoss => b.live.None? && exists found :: MayFind(a.disk, found) && Holds(b.disk, found)
  }

  // ------------------------------------------------------------- one happening

  /**
    What is assumed of a happening: confirmations were issued, and the state to be stored is
    within the image's bounds.
  */
  ghost predicate Fair(t: TrustFormat, a: Machine, h: Happening)
    requires Intact(a.disk)
  {
    h.PowerLoss? ||
    (Genuine(t, With(h.act, NoFault)) && (Offered(t, Seen(a), h.act).Some? ==> Sized(Offered(t, Seen(a), h.act).value)))
  }

  lemma OfferedIsGood(t: TrustFormat, sys: System, act: Act)
    requires Sane(t, sys) && t.Lawful() && Genuine(t, With(act, NoFault)) && Offered(t, sys, act).Some?
    ensures Good(t, Offered(t, sys, act).value)
  {
    hide Judge, Good, t.Lawful, WellFormed;
    match act
    case Calls(call) =>
      JudgeSound(t, sys.live.value, call);
      var v := Judge(t, sys.live.value, call);
      if v.Abort? {
        AbortMarkIsGood(t, v.base.state);
      }
    case Begins(_, ids, machine) => FreshIsGood(t, ids.value.0, ids.value.1, machine);
    case Restarts(_, ids, machine) => FreshIsGood(t, ids.value.0, ids.value.1, machine);
    case Resumes(_) =>
  }

  /** The memory depends only on whether the store took the state, and the store only on the state. */
  lemma StepOfOffer(t: TrustFormat, sys: System, act: Act, fault: Fault)
    ensures var offered := Offered(t, sys, act);
            var after := Step(t, FilePort, sys, With(act, fault)).0;
            if offered.None? then
              after.store == sys.store && after.live == Step(t, FilePort, sys, With(act, NoFault)).0.live
            else
              var (store, failed) := Put(FilePort, sys.store, offered.value, fault);
              after == System(Landed(t, sys, act, failed.None?), store)
  {
    hide Judge, WellFormed;
  }

  /** For a good state within the bounds the store's outcome is the transition system's. */
  lemma SaveIsPut(t: TrustFormat, before: Disk, s: BootstrapState, w: Weather, after: Disk, r: Outcome<()>)
    requires Intact(before) && Good(t, s) && Sized(s) && SaveOutcome(before, s, w, after, r)
    ensures var (store, failed) := Put(FilePort, Abstract(before), s, AsFault(w, before, |Image(s)|));
            Abstract(after) == store && (r.Ok? <==> failed.None?)
  {
    hide FromPersistedImage, Image, Good, Sized, TranscriptConsistent;
    AcceptsExactlyWellFormed(t, s);
  }

  lemma DoneIsARun(t: TrustFormat, a: Machine, act: Act, w: Weather, b: Machine) returns (events: seq<Event>)
    requires Intact(a.disk) && Sane(t, Seen(a)) && t.Lawful() && Fair(t, a, Done(act, w))
    requires Moves(t, a, Done(act, w), b)
    ensures Intact(b.disk) && AllGenuine(t, events) && Run(t, FilePort, Seen(a), events) == Seen(b)
  {
    hide Judge, Step, Offered, Landed, SaveOutcome, Image, Put, Sized, t.Lawful, Sane;
    var sys, offered := Seen(a), Offered(t, Seen(a), act);
    var fault := NoFault;
    if offered.Some? {
      var r :| SaveOutcome(a.disk, offered.value, w, b.disk, r) && b.live == Landed(t, sys, act, r.Ok?);
      OfferedIsGood(t, sys, act);
      SaveIsPut(t, a.disk, offered.value, w, b.disk, r);
      IntactAfter(a.disk, offered.value, w, b.disk, r);
      fault := AsFault(w, a.disk, |Image(offered.value)|);
    }
    StepOfOffer(t, sys, act, fault);
    events := [With(act, fault)];
    OneEvent(t, sys, With(act, fault));
  }

  lemma IntactAfter(before: Disk, s: BootstrapState, w: Weather, after: Disk, r: Outcome<()>)
    requires Intact(before) && SaveOutcome(before, s, w, after, r)
    ensures Intact(after)
  {
  }

  lemma OneEvent(t: TrustFormat, sys: System, e: Event)
    ensures Run(t, FilePort, sys, [e]) == Step(t, FilePort, sys, e).0
  {
    hide Step;
    assert Run(t, FilePort, sys, [e]) == Run(t, FilePort, Step(t, FilePort, sys, e).0, [e][1..]);
  }

  lemma TwoEvents(t: TrustFormat, sys: System, e: Event, f: Event)
    ensures Run(t, FilePort, sys, [e, f]) == Step(t, FilePort, Step(t, FilePort, sys, e).0, f).0
  {
    hide Step;
    assert [e, f][1..] == [f];
    OneEvent(t, Step(t, FilePort, sys, e).0, f);
  }

  /** What a crash leaves of an intact disk is what the transition system's crash leaves. */
  lemma CrashIsACrash(d: Disk, found: Option<Bytes>, after: Disk) returns (survivor: nat)
    requires Intact(d) && MayFind(d, found) && Holds(after, found)
    ensures Intact(after) && Abstract(after) == Store(Abstract(d).AfterCrash(survivor), [])
  {
    hide FromPersistedImage;
    if FoundIn(d.durable, found) {
      survivor := |d.pending|;
    } else {
      survivor :| 0 <= survivor < |d.pending| && FoundIn(Some(d.pending[survivor]), found);
    }
  }

  lemma LossIsARun(t: TrustFormat, a: Machine, b: Machine) returns (events: seq<Event>)
    requires Intact(a.disk) && Moves(t, a, PowerLoss, b)
    ensures Intact(b.disk) && AllGenuine(t, events) && Run(t, FilePort, Seen(a), events) == Seen(b)
  {
    var found :| MayFind(a.disk, found) && Holds(b.disk, found);
    hide MayFind, Intact, Holds;
    var survivor := CrashIsACrash(a.disk, found, b.disk);
    events := [Crash(survivor)];
    OneEvent(t, Seen(a), Crash(survivor));
  }

  lemma DeathIsARun(t: TrustFormat, a: Machine, act: Act, b: Machine) returns (events: seq<Event>)
    requires Intact(a.disk) && Sane(t, Seen(a)) && t.Lawful() && Fair(t, a, DiedIn(act)) && Moves(t, a, DiedIn(act), b)
    ensures Intact(b.disk) && AllGenuine(t, events) && Run(t, FilePort, Seen(a), events) == Seen(b)
  {
    hide Judge, Step, Offered, Landed, Image, Put, Sized, t.Lawful, Sane, MayFind, Holds, OnTheWay, Good, ReadBack;
    var sys, offered := Seen(a), Offered(t, Seen(a), act);
    var d, found :| Passes(a.disk, offered, d) && MayFind(d, found) && Holds(b.disk, found);
    if d == a.disk {
      assert Moves(t, a, PowerLoss, b);
      events := LossIsARun(t, a, b);
    } else {
      OfferedIsGood(t, sys, act);
      WellFormedIfReadBack(t, offered.value);
      CrashInsideStore(a.disk, offered.value, d);
      var fault :| Abstract(d) == Put(FilePort, Abstract(a.disk), offered.value, fault).0;
      StepOfOffer(t, sys, act, fault);
      var survivor := CrashIsACrash(d, found, b.disk);
      events := [With(act, fault), Crash(survivor)];
      TwoEvents(t, sys, With(act, fault), Crash(survivor));
      AfterACrash(t, Step(t, FilePort, sys, With(act, fault)).0, survivor);
    }
  }

  lemma AfterACrash(t: TrustFormat, sys: System, survivor: nat)
    ensures Step(t, FilePort, sys, Crash(survivor)).0 == System(None, Store(sys.store.AfterCrash(survivor), []))
  {
  }

  lemma WellFormedIfReadBack(t: TrustFormat, s: BootstrapState)
    requires Good(t, s) && Sized(s) && ReadBack(s).Some?
    ensures WellFormed(s)
  {
    hide FromPersistedImage, Image, Good, Sized, TranscriptConsistent;
    AcceptsExactlyWellFormed(t, s);
  }

  // ---------------------------------------------------------------- whole runs

  const BLANK := Machine(None, Disk(None, [], None))

  /**
    The machines of a run, one more than the happenings between them; that their disks stay
    intact is a result below.
  */
  ghost predicate History(t: TrustFormat, machines: seq<Machine>, happenings: seq<Happening>) {
    && |machines| == |happenings| + 1 && machines[0] == BLANK
    && forall i :: 0 <= i < |happenings| && Intact(machines[i].disk) ==>
         Fair(t, machines[i], happenings[i]) && Moves(t, machines[i], happenings[i], machines[i + 1])
  }

  /** Every machine of a history is a state of a run of the transition system. */
  lemma {:induction false} HistoryIsARun(t: TrustFormat, machines: seq<Machine>, happenings: seq<Happening>, i: nat)
    returns (events: seq<Event>)
    requires t.Lawful() && History(t, machines, happenings) && i < |machines|
    ensures Intact(machines[i].disk) && AllGenuine(t, events) && Run(t, FilePort, NOTHING, events) == Seen(machines[i])
    decreases i
  {
    hide Run, Moves, Fair, t.Lawful;
    if i == 0 {
      events := [];
      NothingRuns(t);
    } else {
      var before := HistoryIsARun(t, machines, happenings, i - 1);
      RunKeepsSane(t, FilePort, NOTHING, before) by { assert Sane(t, NOTHING); }
      var a, h, b := machines[i - 1], happenings[i - 1], machines[i];
      var more;
      match h {
        case Done(act, w) => more := DoneIsARun(t, a, act, w, b);
        case DiedIn(act) => more := DeathIsARun(t, a, act, b);
        case PowerLoss => more := LossIsARun(t, a, b);
      }
      events := before + more;
      RunConcat(t, NOTHING, before, more);
    }
  }

  lemma NothingRuns(t: TrustFormat)
    ensures Run(t, FilePort, NOTHING, []) == NOTHING == Seen(BLANK)
  {
  }

  lemma {:induction false} RunConcat(t: TrustFormat, sys: System, a: seq<Event>, b: seq<Event>)
    ensures Run(t, FilePort, sys, a + b) == Run(t, FilePort, Run(t, FilePort, sys, a), b)
    decreases |a|
  {
    hide Step;
    if a == [] {
      assert a + b == b;
    } else {
      assert (a + b)[1..] == a[1..] + b;
      RunConcat(t, Step(t, FilePort, sys, a[0]).0, a[1..], b);
    }
  }

  /** What a reader of a found file gets. */
  function Read(found: Option<Bytes>): Option<BootstrapState> {
    if found.None? then None else FromPersistedImage(found.value)
  }

  /**
    Over every history of calls in any weather, deaths inside a store, power losses
    and resumptions: what is found on the disk, now or after one more crash, is no
    file or a file that decodes to a state that meets all obligations of its step;
    and while a coordinator lives, the file is never behind it, at most one step
    ahead, and continues its sealed core.
  */
  lemma DisksFollowTheCeremony(t: TrustFormat, machines: seq<Machine>, happenings: seq<Happening>, i: nat)
    requires t.Lawful() && History(t, machines, happenings) && i < |machines|
    ensures forall found :: MayFind(machines[i].disk, found) ==>
              found.None? || (Read(found).Some? && Good(t, Read(found).value))
    ensures machines[i].live.Some? ==>
              var file := machines[i].disk.Visible();
              && file.Some? && Read(Some(file.value.bytes)).Some?
              && Tracks(machines[i].live.value, Store(Read(Some(file.value.bytes)), []))
  {
    hide Run, History, Good, FromPersistedImage, t.Lawful, Continues;
    var events := HistoryIsARun(t, machines, happenings, i);
    RunKeepsSane(t, FilePort, NOTHING, events) by { assert Sane(t, NOTHING); }
    AbstractVisible(machines[i].disk);
    var d := machines[i].disk;
    forall found | MayFind(d, found) && found.Some?
      ensures Read(found).Some? && Good(t, Read(found).value)
    {
      if !FoundIn(d.durable, found) {
        var k :| 0 <= k < |d.pending| && FoundIn(Some(d.pending[k]), found);
        assert Abstract(d).pending[k] == StateOf(d.pending[k]);
      }
    }
  }
}
