/**
  The session watch: callers that ask a native helper for fresh coverage, and a
  reader thread that accepts the helper's answers. Every atomic action of either
  side is one event, the helper's output and all scheduling are adversarial, and
  time only moves forward.
*/
module SessionWatch {
  import opened Bytes

  type Challenge = Bytes
  type Nonce = Bytes

  const COVERAGE_DEADLINE := 1000
  const IDLE_LIMIT := 300_000

  /** What the helper sends as one line. */
  datatype Line = Garbage | Acknowledges(challenge: Challenge)

  datatype Reader =
    | Awaiting
    | GotByte
    | Reading(challenge: Challenge)
    | Matched(challenge: Challenge)
    | Sending(challenge: Challenge)
    | Stopping
    | Stopped

  /** The three observations of `check_lifetime`, in order. */
  datatype Check = Age | Exit | Latch

  /** Where the one caller inside the coverage lock stands; `renew` is the nonce a successful call is to record. */
  datatype Caller =
    | Nobody
    | First(check: Check, renew: Option<Nonce>)
    | Drawing(renew: Option<Nonce>)
    | Posting(renew: Option<Nonce>, challenge: Challenge, requested: nat)
    | Writing(renew: Option<Nonce>, challenge: Challenge, requested: nat)
    | Receiving(renew: Option<Nonce>, challenge: Challenge, requested: nat)
    | Timing(renew: Option<Nonce>, challenge: Challenge, requested: nat)
    | Last(check: Check, renew: Option<Nonce>, challenge: Challenge, requested: nat, received: nat, checked: nat,
      presence: nat)
    | Failing

  /** Where the one caller inside the activity lock of `record_verified_presence` stands. */
  datatype Recorder =
    | Idle
    | AgeDue(nonce: Nonce)
    | LatchDue(nonce: Nonce, checked: nat)
    | InsertDue(nonce: Nonce, checked: nat)
    | StampDue(nonce: Nonce, checked: nat)

  /** One success of `ensure_valid`. */
  datatype Grant = Grant(challenge: Challenge, requested: nat, received: nat, checked: nat, presence: nat)

  /** One success of `record_verified_presence`: when the idle limit was checked, and the new endpoint. */
  datatype Presence = Presence(nonce: Nonce, checked: nat, at: nat)

  /**
    The shared state, and the record of what happened: the challenges drawn, when
    each was acknowledged, and the two lists of successes. The tokens in the
    channel carry the challenge they answer only for the record.
  */
  datatype Watch = Watch(
    started: nat,
    now: nat,
    invalidated: bool,
    lastPresence: nat,
    consumed: set<Nonce>,
    pending: Option<Challenge>,
    channel: seq<Challenge>,
    reader: Reader,
    caller: Caller,
    recorder: Recorder,
    covered: multiset<Nonce>,
    issued: set<Challenge>,
    acknowledged: map<Challenge, nat>,
    grants: seq<Grant>,
    presences: seq<Presence>)

  /** A watch whose helper has just reported ready. */
  function Begun(started: nat, now: nat): Watch
    requires started <= now
  {
    Watch(started, now, false, started, {}, None, [], Awaiting, Nobody, Idle, multiset{}, {}, map[], [], [])
  }

  datatype Event =
    | Tick(millis: nat)
    | Enter(renew: Option<Nonce>)
    | CheckAge
    | CheckExit(exited: bool, unknown: bool)
    | CheckLatch
    | Draw(drawn: Option<Challenge>)
    | Post
    | Write(ok: bool)
    | Receive(ok: bool)
    | CheckDeadline
    | LatchFailure
    | ReadByte(ok: bool)
    | ClonePending
    | ReadRest(line: Line)
    | TakePending
    | Send(ok: bool)
    | LatchReader
    | BeginRecording(nonce: Nonce)
    | RecordAge
    | RecordLatch
    | RecordInsert
    | RecordStamp

  // ---------------------------------------------------------- the callers

  /** The first look at the lifetime, before anything is asked; a failure here leaves nothing behind. */
  function FirstCheck(w: Watch, check: Check, renew: Option<Nonce>, e: Event): Watch {
    match check
    case Age =>
      if !e.CheckAge? || w.recorder != Idle then w
      else w.(invalidated := w.invalidated || w.now - w.lastPresence >= IDLE_LIMIT, caller := First(Exit, renew))
    case Exit =>
      if !e.CheckExit? then w
      else if e.unknown then w.(caller := Nobody)
      else w.(invalidated := w.invalidated || e.exited, caller := First(Latch, renew))
    case Latch =>
      if !e.CheckLatch? then w else w.(caller := if w.invalidated then Nobody else Drawing(renew))
  }

  /** The second look, after the answer; only its end grants coverage. */
  function LastCheck(w: Watch, c: Caller, e: Event): Watch
    requires c.Last?
  {
    match c.check
    case Age =>
      if !e.CheckAge? || w.recorder != Idle then w
      else w.(invalidated := w.invalidated || w.now - w.lastPresence >= IDLE_LIMIT,
              caller := c.(check := Exit, checked := w.now, presence := w.lastPresence))
    case Exit =>
      if !e.CheckExit? then w
      else if e.unknown then w.(caller := Failing)
      else w.(invalidated := w.invalidated || e.exited, caller := c.(check := Latch))
    case Latch =>
      if !e.CheckLatch? then w
      else if w.invalidated then w.(caller := Failing)
      else w.(caller := Nobody, grants := w.grants + [Granted(c)],
              covered := if c.renew.Some? then w.covered + multiset{c.renew.value} else w.covered)
  }

  function Granted(c: Caller): Grant
    requires c.Last?
  {
    Grant(c.challenge, c.requested, c.received, c.checked, c.presence)
  }

  function CallerStep(w: Watch, e: Event): Watch {
    match w.caller
    case Nobody => if e.Enter? then w.(caller := First(Age, e.renew)) else w
    case First(check, renew) => FirstCheck(w, check, renew, e)
    case Drawing(renew) =>
      if !e.Draw? then w
      else if e.drawn.None? then w.(caller := Nobody)
      else if e.drawn.value in w.issued then w
      else w.(caller := Posting(renew, e.drawn.value, w.now), issued := w.issued + {e.drawn.value})
    case Posting(renew, c, t) => if e.Post? then w.(pending := Some(c), caller := Writing(renew, c, t)) else w
    case Writing(renew, c, t) => if e.Write? then w.(caller := if e.ok then Receiving(renew, c, t) else Failing) else w
    case Receiving(renew, c, t) =>
      if !e.Receive? then w
      else if !e.ok then w.(caller := Failing)
      else if w.channel == [] then w
      else w.(channel := w.channel[1..], caller := Timing(renew, c, t))
    case Timing(renew, c, t) =>
      if !e.CheckDeadline? then w
      else if w.now - t >= COVERAGE_DEADLINE then w.(caller := Failing)
      else w.(caller := Last(Age, renew, c, t, w.now, 0, 0))
    case Last(_, _, _, _, _, _, _) => LastCheck(w, w.caller, e)
    case Failing => if e.LatchFailure? then w.(invalidated := true, caller := Nobody) else w
  }

  // ------------------------------------------------------- the reader thread

  function ReaderStep(w: Watch, e: Event): Watch {
    match w.reader
    case Awaiting => if e.ReadByte? then w.(reader := if e.ok then GotByte else Stopping) else w
    case GotByte => if e.ClonePending? then w.(reader := if w.pending.Some? then Reading(w.pending.value)
         else Stopping) else w
    case Reading(c) => if e.ReadRest? then w.(reader := if e.line == Acknowledges(c) then Matched(c) else Stopping)
         else w
    case Matched(c) =>
      if !e.TakePending? then w
      else if w.pending == Some(c) then w.(pending := None, reader := Sending(c),
           acknowledged := w.acknowledged[c := w.now])
      else w.(pending := None, reader := Stopping)
    case Sending(c) =>
      if !e.Send? then w
      else if e.ok then w.(channel := w.channel + [c], reader := Awaiting)
      else w.(reader := Stopping)
    case Stopping => if e.LatchReader? then w.(invalidated := true, reader := Stopped) else w
    case Stopped => w
  }

  // ------------------------------------------------- record_verified_presence

  /** Only a caller that has just been granted coverage reaches the activity lock. */
  function RecorderStep(w: Watch, e: Event): Watch {
    match w.recorder
    case Idle =>
      if !e.BeginRecording? || e.nonce !in w.covered then w
      else w.(covered := w.covered - multiset{e.nonce}, recorder := AgeDue(e.nonce))
    case AgeDue(nonce) =>
      if !e.RecordAge? then w
      else w.(invalidated := w.invalidated || w.now - w.lastPresence >= IDLE_LIMIT, recorder := LatchDue(nonce, w.now))
    case LatchDue(nonce, checked) =>
      if !e.RecordLatch? then w else w.(recorder := if w.invalidated then Idle else InsertDue(nonce, checked))
    case InsertDue(nonce, checked) =>
      if !e.RecordInsert? then w
      else if nonce in w.consumed then w.(recorder := Idle)
      else w.(consumed := w.consumed + {nonce}, recorder := StampDue(nonce, checked))
    case StampDue(nonce, checked) =>
      if !e.RecordStamp? then w
      else w.(lastPresence := w.now, recorder := Idle, presences := w.presences + [Presence(nonce, checked, w.now)])
  }

  predicate OfReader(e: Event) {
    e.ReadByte? || e.ClonePending? || e.ReadRest? || e.TakePending? || e.Send? || e.LatchReader?
  }

  predicate OfRecorder(e: Event) {
    e.BeginRecording? || e.RecordAge? || e.RecordLatch? || e.RecordInsert? || e.RecordStamp?
  }

  /** One event; an event that is not enabled changes nothing. */
  function Next(w: Watch, e: Event): Watch {
    if e.Tick? then w.(now := w.now + e.millis)
    else if OfReader(e) then ReaderStep(w, e)
    else if OfRecorder(e) then RecorderStep(w, e)
    else CallerStep(w, e)
  }

  function Run(w: Watch, events: seq<Event>): Watch
    decreases |events|
  {
    if events == [] then w else Run(Next(w, events[0]), events[1..])
  }

  // ------------------------------------------------------------ the protocol

  function Challenges(grants: seq<Grant>): set<Challenge> {
    set g <- grants :: g.challenge
  }

  predicate AtRest(r: Reader) {
    r == Awaiting || r == GotByte || r == Stopping || r == Stopped
  }

  /** Nothing asked and nothing left over. */
  predicate Quiet(w: Watch) {
    w.pending.None? && w.channel == [] && AtRest(w.reader)
  }

  /** A request for `c` is out: unanswered, being answered (or the answer lost), or answered and queued. */
  predicate Asked(w: Watch, c: Challenge) {
    || (w.pending == Some(c) && w.channel == [] && c !in w.acknowledged
        && (AtRest(w.reader) || w.reader == Reading(c) || w.reader == Matched(c)))
    || (w.pending.None? && w.channel == [] && (w.reader == Sending(c) || w.reader == Stopping || w.reader == Stopped)
      && c in w.acknowledged)
    || (w.pending.None? && w.channel == [c] && AtRest(w.reader) && c in w.acknowledged)
  }

  /** While the watch is valid, tokens, pending challenge and reader follow the caller. */
  predicate Protocol(w: Watch) {
    match w.caller
    case Nobody => Quiet(w) && w.acknowledged.Keys == w.issued == Challenges(w.grants)
    case First(_, _) => Quiet(w) && w.acknowledged.Keys == w.issued == Challenges(w.grants)
    case Drawing(_) => Quiet(w) && w.acknowledged.Keys == w.issued == Challenges(w.grants)
    case Posting(_, c, _) => Quiet(w) && w.acknowledged.Keys == Challenges(w.grants)
    case Writing(_, c, _) => Asked(w, c) && w.acknowledged.Keys - {c} == Challenges(w.grants)
    case Receiving(_, c, _) => Asked(w, c) && w.acknowledged.Keys - {c} == Challenges(w.grants)
    case Timing(_, c, _) => Quiet(w) && c in w.acknowledged && w.acknowledged.Keys - {c} == Challenges(w.grants)
    case Last(_, _, c, _, _, _, _) => Quiet(w) && c in w.acknowledged
         && w.acknowledged.Keys - {c} == Challenges(w.grants)
    case Failing => true
  }

  /** The challenge the caller is on. */
  function Current(c: Caller): Option<Challenge> {
    match c
    case Posting(_, c, _) => Some(c)
    case Writing(_, c, _) => Some(c)
    case Receiving(_, c, _) => Some(c)
    case Timing(_, c, _) => Some(c)
    case Last(_, _, c, _, _, _, _) => Some(c)
    case _ => None
  }

  /** Whatever the latch says: the current challenge is fresh, and no answered challenge is still pending. */
  predicate Freshness(w: Watch) {
    && w.acknowledged.Keys <= w.issued
    && Challenges(w.grants) <= w.acknowledged.Keys
    && (w.pending.Some? ==> w.pending.value in w.issued && w.pending.value !in w.acknowledged)
    && (Current(w.caller).Some? ==>
          && Current(w.caller).value in w.issued && Current(w.caller).value !in Challenges(w.grants)
          && (!w.invalidated ==> w.issued == Challenges(w.grants) + {Current(w.caller).value}))
    && (w.caller.Posting? ==> w.caller.challenge !in w.acknowledged && w.pending != Some(w.caller.challenge))
  }

  function Latest(started: nat, presences: seq<Presence>): nat {
    if presences == [] then started else presences[|presences| - 1].at
  }

  /** Distinct nonces, each recorded after a check that found the idle limit not reached since the one before. */
  predicate Chain(started: nat, presences: seq<Presence>) {
    && (forall i :: 0 <= i < |presences| ==>
          Latest(started, presences[..i]) <= presences[i].checked < Latest(started, presences[..i]) + IDLE_LIMIT
            && presences[i].checked <= presences[i].at)
    && forall i, j :: 0 <= i < j < |presences| ==> presences[i].nonce != presences[j].nonce
  }

  /**
    A success of `ensure_valid` answers its own challenge in time, and was inside the idle limit
    of some link of the chain.
  */
  predicate Backed(w: Watch, g: Grant) {
    && g.challenge in w.acknowledged
    && g.requested <= w.acknowledged[g.challenge] <= g.received < g.requested + COVERAGE_DEADLINE
    && g.received <= g.checked <= w.now
    && g.presence <= g.checked < g.presence + IDLE_LIMIT
    && Recorded(w.started, w.presences, g.presence)
  }

  predicate AllBacked(w: Watch) {
    && (forall i :: 0 <= i < |w.grants| ==> Backed(w, w.grants[i]))
    && forall i, j :: 0 <= i < j < |w.grants| ==> w.grants[i].challenge != w.grants[j].challenge
  }

  // ------------------------------------------------------------- the invariant

  /** Protocol and freshness together. */
  predicate Linear(w: Watch) {
    Freshness(w) && (!w.invalidated ==> Protocol(w))
  }

  lemma ReaderKeepsLinear(w: Watch, e: Event)
    requires Linear(w)
    ensures Linear(ReaderStep(w, e))
  {
    hide Challenges;
    if w.reader.Matched? {
      assert w.acknowledged[w.reader.challenge := w.now].Keys == w.acknowledged.Keys + {w.reader.challenge};
    } else if w.reader.Sending? {
      assert [] + [w.reader.challenge] == [w.reader.challenge];
    }
  }

  lemma RecorderKeepsLinear(w: Watch, e: Event)
    requires Linear(w)
    ensures Linear(RecorderStep(w, e))
  {
    hide Challenges, AtRest, RecorderStep;
    RecorderFrame(w, e);
  }

  /** A step of the recorder touches neither calls nor acknowledgements, and adds at most the presence it stamps. */
  lemma RecorderFrame(w: Watch, e: Event)
    ensures var after := RecorderStep(w, e);
            && after == w.(
                 invalidated := after.invalidated, lastPresence := after.lastPresence, consumed := after.consumed,
                 recorder := after.recorder, covered := after.covered, presences := after.presences)
            && (w.invalidated ==> after.invalidated)
            && after.presences ==
               if w.recorder.StampDue? && e.RecordStamp? then w.presences + [Stamped(w)] else w.presences
  {
  }

  function Stamped(w: Watch): Presence
    requires w.recorder.StampDue?
  {
    Presence(w.recorder.nonce, w.recorder.checked, w.now)
  }

  lemma ChallengesGrow(grants: seq<Grant>, g: Grant)
    ensures Challenges(grants + [g]) == Challenges(grants) + {g.challenge}
  {
  }

  lemma FirstKeepsLinear(w: Watch, e: Event)
    requires Linear(w) && w.caller.First?
    ensures Linear(FirstCheck(w, w.caller.check, w.caller.renew, e))
  {
    hide Challenges, AtRest;
  }

  lemma LastKeepsLinear(w: Watch, e: Event)
    requires Linear(w) && w.caller.Last?
    ensures Linear(LastCheck(w, w.caller, e))
  {
    hide Challenges, AtRest;
    ChallengesGrow(w.grants, Granted(w.caller));
  }

  lemma RequestKeepsFreshness(w: Watch, e: Event)
    requires Linear(w) && !w.caller.First? && !w.caller.Last?
    ensures Freshness(CallerStep(w, e))
  {
    hide Challenges, AtRest, FirstCheck, LastCheck;
  }

  lemma RequestKeepsProtocol(w: Watch, e: Event)
    requires Linear(w) && !w.caller.First? && !w.caller.Last?
    ensures !CallerStep(w, e).invalidated ==> Protocol(CallerStep(w, e))
  {
    hide Challenges, AtRest, FirstCheck, LastCheck;
  }

  lemma CallerKeepsLinear(w: Watch, e: Event)
    requires Linear(w)
    ensures Linear(CallerStep(w, e))
  {
    hide FirstCheck, LastCheck, Linear;
    if w.caller.First? {
      FirstKeepsLinear(w, e);
    } else if w.caller.Last? {
      LastKeepsLinear(w, e);
    } else {
      hide CallerStep;
      RequestKeepsFreshness(w, e);
      RequestKeepsProtocol(w, e);
      assert Linear(CallerStep(w, e)) by { LinearOf(CallerStep(w, e)); }
    }
  }

  lemma LinearOf(w: Watch)
    requires Freshness(w) && (!w.invalidated ==> Protocol(w))
    ensures Linear(w)
  {
    hide Freshness, Protocol;
  }

  // -------------------------------------------------------------------- time

  /** The presence a check read is the start of the watch or one of the recorded presences. */
  predicate Recorded(started: nat, presences: seq<Presence>, at: nat) {
    exists i :: 0 <= i <= |presences| && at == Latest(started, presences[..i])
  }

  predicate RecorderTimes(w: Watch) {
    && w.lastPresence == Latest(w.started, w.presences) <= w.now
    && Chain(w.started, w.presences)
    && (forall i :: 0 <= i < |w.presences| ==> w.presences[i].nonce in w.consumed)
    && match w.recorder
       case Idle => true
       case AgeDue(_) => true
       case LatchDue(_, checked) => w.lastPresence <= checked <= w.now
            && (!w.invalidated ==> checked < w.lastPresence + IDLE_LIMIT)
       case InsertDue(_, checked) => w.lastPresence <= checked <= w.now && checked < w.lastPresence + IDLE_LIMIT
       case StampDue(nonce, checked) =>
         && w.lastPresence <= checked <= w.now && checked < w.lastPresence + IDLE_LIMIT
         && nonce in w.consumed && forall i :: 0 <= i < |w.presences| ==> w.presences[i].nonce != nonce
  }

  /** What the caller has measured so far; it matters only while the watch is valid. */
  predicate CallerTimes(w: Watch) {
    match w.caller
    case Posting(_, c, t) => t <= w.now
    case Writing(_, c, t) => t <= w.now && (c in w.acknowledged ==> t <= w.acknowledged[c] <= w.now)
    case Receiving(_, c, t) => t <= w.now && (c in w.acknowledged ==> t <= w.acknowledged[c] <= w.now)
    case Timing(_, c, t) => t <= w.now && c in w.acknowledged && t <= w.acknowledged[c] <= w.now
    case Last(check, _, c, t, received, checked, presence) =>
      && c in w.acknowledged && t <= w.acknowledged[c] <= received < t + COVERAGE_DEADLINE && received <= w.now
      && (check != Age ==>
        && received <= checked <= w.now && presence <= checked < presence + IDLE_LIMIT
        && Recorded(w.started, w.presences, presence))
    case _ => true
  }

  predicate Timed(w: Watch) {
    && RecorderTimes(w)
    && (!w.invalidated ==> CallerTimes(w))
    && AllBacked(w)
  }

  lemma PresencesOnlyGrow(started: nat, presences: seq<Presence>, p: Presence, at: nat)
    requires Recorded(started, presences, at)
    ensures Recorded(started, presences + [p], at)
  {
    var i :| 0 <= i <= |presences| && at == Latest(started, presences[..i]);
    assert (presences + [p])[..i] == presences[..i];
  }

  lemma LatestIsRecorded(started: nat, presences: seq<Presence>)
    ensures Recorded(started, presences, Latest(started, presences))
  {
    assert presences[..|presences|] == presences;
  }

  lemma ChainGrows(started: nat, presences: seq<Presence>, p: Presence)
    requires Chain(started, presences)
    requires Latest(started, presences) <= p.checked < Latest(started, presences) + IDLE_LIMIT && p.checked <= p.at
    requires forall i :: 0 <= i < |presences| ==> presences[i].nonce != p.nonce
    ensures Chain(started, presences + [p])
  {
    var longer := presences + [p];
    assert longer[..|presences|] == presences;
    forall i | 0 <= i < |presences|
      ensures longer[..i] == presences[..i]
    {
    }
  }

  lemma RecorderKeepsTimes(w: Watch, e: Event)
    requires RecorderTimes(w)
    ensures RecorderTimes(RecorderStep(w, e))
  {
    hide Chain;
    if w.recorder.StampDue? && e.RecordStamp? {
      ChainGrows(w.started, w.presences, Stamped(w));
    }
  }

  predicate RecordedStays(w: Watch, after: Watch, at: nat) {
    Recorded(w.started, w.presences, at) ==> Recorded(after.started, after.presences, at)
  }

  lemma RecorderKeepsRecorded(w: Watch, e: Event, at: nat)
    ensures RecordedStays(w, RecorderStep(w, e), at)
  {
    hide Recorded, RecorderStep;
    RecorderFrame(w, e);
    if w.recorder.StampDue? && e.RecordStamp? && Recorded(w.started, w.presences, at) {
      PresencesOnlyGrow(w.started, w.presences, Stamped(w), at);
    }
  }

  lemma RecorderKeepsCaller(w: Watch, e: Event)
    requires AllBacked(w) && (!w.invalidated ==> CallerTimes(w))
    ensures AllBacked(RecorderStep(w, e))
    ensures !RecorderStep(w, e).invalidated ==> !w.invalidated && CallerTimes(RecorderStep(w, e))
  {
    hide Recorded, RecorderStep, AllBacked;
    var after := RecorderStep(w, e);
    RecorderFrame(w, e);
    forall at: nat
      ensures RecordedStays(w, after, at)
    {
      RecorderKeepsRecorded(w, e, at);
    }
    StillBacked(w, after);
    if w.caller.Last? {
      assert RecordedStays(w, after, w.caller.presence);
    }
  }

  lemma RecorderKeepsTimed(w: Watch, e: Event)
    requires Timed(w)
    ensures Timed(RecorderStep(w, e))
  {
    hide RecorderTimes, CallerTimes, AllBacked, RecorderStep;
    RecorderKeepsTimes(w, e);
    RecorderKeepsCaller(w, e);
  }

  lemma ReaderKeepsTimed(w: Watch, e: Event)
    requires Timed(w) && Linear(w)
    ensures Timed(ReaderStep(w, e))
  {
    hide Chain, Recorded, Challenges, ReaderStep, AllBacked;
    ReaderFrame(w, e);
    AcknowledgedOnce(w, e);
    AcknowledgementIsTimed(w, e);
    StillBacked(w, ReaderStep(w, e));
  }

  /** The reader takes the challenge it has matched while it is still the pending one. */
  predicate Takes(w: Watch, e: Event) {
    w.reader.Matched? && e.TakePending? && w.pending == Some(w.reader.challenge)
  }

  lemma ReaderFrame(w: Watch, e: Event)
    ensures var after := ReaderStep(w, e);
            && after == w.(
                 invalidated := after.invalidated, pending := after.pending, channel := after.channel,
                 reader := after.reader, acknowledged := after.acknowledged)
            && (w.invalidated ==> after.invalidated)
            && after.acknowledged ==
               if Takes(w, e) then w.acknowledged[w.reader.challenge := w.now] else w.acknowledged
  {
  }

  /** The acknowledgement of the current challenge comes after its request. */
  lemma AcknowledgementIsTimed(w: Watch, e: Event)
    requires Linear(w) && (!w.invalidated ==> CallerTimes(w))
    ensures !ReaderStep(w, e).invalidated ==> CallerTimes(ReaderStep(w, e))
  {
    hide Recorded, Challenges, ReaderStep, Freshness, Protocol;
    ReaderFrame(w, e);
    AcknowledgedOnce(w, e);
  }

  /** What backs a grant stays while acknowledgements keep their time and the rest only grows. */
  lemma StillBacked(w: Watch, after: Watch)
    requires AllBacked(w) && after.grants == w.grants && w.now <= after.now
    requires forall at: nat :: RecordedStays(w, after, at)
    requires forall c :: c in w.acknowledged ==> c in after.acknowledged && after.acknowledged[c] == w.acknowledged[c]
    ensures AllBacked(after)
  {
    hide Recorded;
    forall i | 0 <= i < |w.grants|
      ensures Backed(after, after.grants[i])
    {
      assert Backed(w, w.grants[i]);
      assert w.grants[i].challenge in w.acknowledged;
      assert RecordedStays(w, after, w.grants[i].presence);
    }
  }

  /** An acknowledgement once accepted keeps its time. */
  lemma AcknowledgedOnce(w: Watch, e: Event)
    requires Freshness(w)
    ensures forall c :: c in w.acknowledged ==>
              && c in ReaderStep(w, e).acknowledged
              && ReaderStep(w, e).acknowledged[c] == w.acknowledged[c]
  {
    hide Challenges;
  }

  /** What a caller's step leaves alone, and the one way it adds to the grants. */
  predicate CallerFrame(w: Watch, after: Watch) {
    && after.started == w.started && after.now == w.now && after.presences == w.presences
    && after.acknowledged == w.acknowledged
    && after.lastPresence == w.lastPresence && after.consumed == w.consumed && after.recorder == w.recorder
    && (w.invalidated ==> after.invalidated)
    && (after.grants == w.grants
        || (w.caller.Last? && w.caller.check == Latch && !w.invalidated
          && after.grants == w.grants + [Granted(w.caller)]))
  }

  lemma LifetimeChecksFrame(w: Watch, e: Event)
    ensures w.caller.First? ==> CallerFrame(w, FirstCheck(w, w.caller.check, w.caller.renew, e))
    ensures w.caller.Last? ==> CallerFrame(w, LastCheck(w, w.caller, e))
  {
  }

  lemma CallerFrames(w: Watch, e: Event)
    ensures CallerFrame(w, CallerStep(w, e))
  {
    hide FirstCheck, LastCheck;
    LifetimeChecksFrame(w, e);
  }

  lemma CallerKeepsRecorderTimes(w: Watch, e: Event)
    requires RecorderTimes(w)
    ensures RecorderTimes(CallerStep(w, e))
  {
    hide Chain, CallerStep;
    CallerFrames(w, e);
  }

  lemma LastKeepsCallerTimes(w: Watch, e: Event)
    requires RecorderTimes(w) && w.caller.Last? && (!w.invalidated ==> CallerTimes(w))
    ensures var after := LastCheck(w, w.caller, e); !after.invalidated ==> CallerTimes(after)
  {
    hide Chain, Recorded;
    LatestIsRecorded(w.started, w.presences);
  }

  lemma CallerKeepsCallerTimes(w: Watch, e: Event)
    requires RecorderTimes(w) && Linear(w) && (!w.invalidated ==> CallerTimes(w))
    ensures !CallerStep(w, e).invalidated ==> CallerTimes(CallerStep(w, e))
  {
    hide Chain, Recorded, Challenges, LastCheck;
    if w.caller.Last? {
      LastKeepsCallerTimes(w, e);
    }
  }

  /** The one step that grants coverage: its challenge is new among the grants, and everything it measured holds. */
  lemma GrantIsBacked(w: Watch, e: Event)
    requires Timed(w) && Linear(w)
    ensures AllBacked(CallerStep(w, e))
  {
    hide Chain, Recorded, Challenges, CallerStep, RecorderTimes;
    var after := CallerStep(w, e);
    CallerFrames(w, e);
    assert forall g :: Backed(w, g) ==> Backed(after, g);
    if after.grants != w.grants {
      var g := Granted(w.caller);
      assert Backed(after, g);
      NotYetGranted(w.grants, g.challenge);
    }
  }

  lemma NotYetGranted(grants: seq<Grant>, c: Challenge)
    requires c !in Challenges(grants)
    ensures forall i :: 0 <= i < |grants| ==> grants[i].challenge != c
  {
  }

  lemma CallerKeepsTimed(w: Watch, e: Event)
    requires Timed(w) && Linear(w)
    ensures Timed(CallerStep(w, e))
  {
    hide CallerStep, RecorderTimes, CallerTimes, AllBacked, Linear;
    CallerKeepsRecorderTimes(w, e);
    CallerKeepsCallerTimes(w, e);
    GrantIsBacked(w, e);
  }

  lemma TickKeepsTimed(w: Watch, millis: nat)
    requires Timed(w)
    ensures Timed(w.(now := w.now + millis))
  {
    hide Chain, Recorded;
  }

  // ------------------------------------------------------------- every run

  predicate Inv(w: Watch) {
    Linear(w) && Timed(w)
  }

  lemma StepKeepsInv(w: Watch, e: Event)
    requires Inv(w)
    ensures Inv(Next(w, e))
  {
    hide CallerStep, ReaderStep, RecorderStep, Timed, Linear;
    if e.Tick? {
      TickKeepsTimed(w, e.millis);
      TickKeepsLinear(w, e.millis);
    } else if OfReader(e) {
      ReaderKeepsLinear(w, e);
      ReaderKeepsTimed(w, e);
    } else if OfRecorder(e) {
      RecorderKeepsLinear(w, e);
      RecorderKeepsTimed(w, e);
    } else {
      CallerKeepsLinear(w, e);
      CallerKeepsTimed(w, e);
    }
  }

  lemma TickKeepsLinear(w: Watch, millis: nat)
    requires Linear(w)
    ensures Linear(w.(now := w.now + millis))
  {
  }

  lemma {:induction false} RunKeepsInv(w: Watch, events: seq<Event>)
    requires Inv(w)
    ensures Inv(Run(w, events))
    decreases |events|
  {
    hide Inv, Next;
    if events != [] {
      StepKeepsInv(w, events[0]);
      RunKeepsInv(Next(w, events[0]), events[1..]);
    }
  }

  lemma BegunInv(started: nat, now: nat)
    requires started <= now
    ensures Inv(Begun(started, now))
  {
  }

  /**
    Coverage is linear. In any run, under any interleaving and any helper output:
    every success answers a challenge of its own, accepted between the request and
    the deadline; while the watch is valid and nobody is asking, no challenge is
    pending, the channel is empty, and the challenges drawn, acknowledged and
    granted are the same, one grant each. Nothing queued or late can serve a later request.
  */
  lemma CoverageIsLinear(started: nat, now: nat, events: seq<Event>)
    requires started <= now
    ensures var w := Run(Begun(started, now), events);
            && AllBacked(w)
            && (!w.invalidated && w.caller == Nobody ==>
                  && w.pending.None? && w.channel == []
                  && w.issued == w.acknowledged.Keys == Challenges(w.grants) && |w.issued| == |w.grants|)
  {
    hide Run, AllBacked, Timed;
    BegunInv(started, now);
    RunKeepsInv(Begun(started, now), events);
    var w := Run(Begun(started, now), events);
    BackedOf(w);
    OneChallengeEach(w.grants);
  }

  lemma BackedOf(w: Watch)
    requires Timed(w)
    ensures AllBacked(w) && Chain(w.started, w.presences) && w.lastPresence == Latest(w.started, w.presences)
    ensures forall i, j :: 0 <= i < j < |w.grants| ==> w.grants[i].challenge != w.grants[j].challenge
  {
    hide Chain, Backed;
  }

  lemma {:induction false} OneChallengeEach(grants: seq<Grant>)
    requires forall i, j :: 0 <= i < j < |grants| ==> grants[i].challenge != grants[j].challenge
    ensures |Challenges(grants)| == |grants|
  {
    if grants != [] {
      var n := |grants| - 1;
      OneChallengeEach(grants[..n]);
      assert grants == grants[..n] + [grants[n]];
      ChallengesGrow(grants[..n], grants[n]);
    }
  }

  /**
    The lifetime over any run: the presences form a chain of distinct nonces from
    the start of the watch, each recorded after a check inside the idle limit of
    the one before; the endpoint is the last of them, so coverage alone never
    extends it; and every success of a coverage call was inside the limit of some link.
  */
  lemma LifetimeIsAChain(started: nat, now: nat, events: seq<Event>)
    requires started <= now
    ensures var w := Run(Begun(started, now), events);
            && w.started == started
            && Chain(started, w.presences) && w.lastPresence == Latest(started, w.presences)
            && forall i :: 0 <= i < |w.grants| ==>
                 w.grants[i].presence <= w.grants[i].checked < w.grants[i].presence + IDLE_LIMIT
                 && Recorded(started, w.presences, w.grants[i].presence)
  {
    hide Run, Chain, Recorded, Linear;
    BegunInv(started, now);
    RunKeepsInv(Begun(started, now), events);
    StartNeverMoves(Begun(started, now), events);
    BackedOf(Run(Begun(started, now), events));
  }

  lemma {:induction false} StartNeverMoves(w: Watch, events: seq<Event>)
    ensures Run(w, events).started == w.started
    decreases |events|
  {
    if events != [] {
      StartNeverMoves(Next(w, events[0]), events[1..]);
    }
  }

  /** Past its last look at the latch, with a nonce it can still record: the only call the latch no longer stops. */
  predicate Committed(w: Watch) {
    w.recorder.StampDue? || (w.recorder.InsertDue? && w.recorder.nonce !in w.consumed)
  }

  /**
    Once invalidated, the watch stays so and no call ever succeeds again, except
    a presence already past its own look at the latch, which adds at most one link.
  */
  lemma {:induction false} InvalidationIsFinal(w: Watch, events: seq<Event>)
    requires w.invalidated
    ensures var after := Run(w, events);
            && after.invalidated
            && after.grants == w.grants
            && (!Committed(w) ==> after.presences == w.presences && after.lastPresence == w.lastPresence)
            && w.presences <= after.presences && |after.presences| <= |w.presences| + 1
    decreases |events|
  {
    if events != [] {
      var next := Next(w, events[0]);
      InvalidStep(w, events[0]);
      hide Next;
      InvalidationIsFinal(next, events[1..]);
    }
  }

  predicate Adds(w: Watch, events: seq<Event>) {
    Run(w, events).presences != w.presences
  }

  /**
    The exception, exactly: something can still be added to an invalidated watch
    if and only if its recorder is committed.
  */
  lemma OnlyTheCommittedStamp(w: Watch)
    requires w.invalidated
    ensures (exists events :: Adds(w, events)) <==> Committed(w)
  {
    hide Next;
    forall events | Adds(w, events)
      ensures Committed(w)
    {
      InvalidationIsFinal(w, events);
    }
    if Committed(w) {
      var events := StampRun(w);
      assert Adds(w, events);
    }
  }

  lemma StampRun(w: Watch) returns (events: seq<Event>)
    requires Committed(w)
    ensures Adds(w, events)
  {
    InsertedAndStamped(w);
    hide Next;
    assert [RecordInsert, RecordStamp][1..] == [RecordStamp] && [RecordStamp][1..] == [];
    var inserted := if w.recorder.InsertDue? then Next(w, RecordInsert) else w;
    assert Run(inserted, [RecordStamp]) == Run(Next(inserted, RecordStamp), []) == Next(inserted, RecordStamp);
    if w.recorder.InsertDue? {
      events := [RecordInsert, RecordStamp];
      assert Run(w, events) == Run(inserted, [RecordStamp]);
    } else {
      events := [RecordStamp];
    }
  }

  lemma InsertedAndStamped(w: Watch)
    requires Committed(w)
    ensures var inserted := if w.recorder.InsertDue? then Next(w, RecordInsert) else w;
            |Next(inserted, RecordStamp).presences| == |w.presences| + 1
  {
  }

  /** What one event does to an invalidated watch. */
  predicate AddsAtMostOneLink(w: Watch, next: Watch) {
    && next.invalidated && next.grants == w.grants
    && (!Committed(w) ==>
      && !Committed(next) && next.presences == w.presences
      && next.lastPresence == w.lastPresence)
    && (next.presences == w.presences
        || (!Committed(next) && |next.presences| == |w.presences| + 1 && w.presences <= next.presences))
  }

  lemma InvalidRecorderStep(w: Watch, e: Event)
    requires w.invalidated
    ensures AddsAtMostOneLink(w, RecorderStep(w, e))
  {
  }

  lemma InvalidStep(w: Watch, e: Event)
    requires w.invalidated
    ensures AddsAtMostOneLink(w, Next(w, e))
  {
    hide CallerStep, ReaderStep, RecorderStep;
    CallerFrames(w, e);
    ReaderFrame(w, e);
    InvalidRecorderStep(w, e);
  }

  // ------------------------------------------------------------ making runs

  lemma {:induction false} RunSnoc(w: Watch, events: seq<Event>, e: Event)
    ensures Run(w, events + [e]) == Next(Run(w, events), e)
    decreases |events|
  {
    hide Next;
    if events == [] {
      assert [e][1..] == [];
      assert Run(w, [e]) == Run(Next(w, e), []);
    } else {
      assert (events + [e])[1..] == events[1..] + [e];
      RunSnoc(Next(w, events[0]), events[1..], e);
    }
  }

  ghost predicate Reaches(from: Watch, w: Watch) {
    exists events :: Run(from, events) == w
  }

  /** One more event of a run. */
  lemma Then(from: Watch, w: Watch, e: Event) returns (next: Watch)
    requires Reaches(from, w)
    ensures next == Next(w, e) && Reaches(from, next)
  {
    hide Next;
    var events :| Run(from, events) == w;
    RunSnoc(from, events, e);
    next := Next(w, e);
  }

  lemma {:induction false} RunConcat(w: Watch, a: seq<Event>, b: seq<Event>)
    ensures Run(w, a + b) == Run(Run(w, a), b)
    decreases |a|
  {
    hide Next;
    if a == [] {
      assert a + b == b;
    } else {
      assert (a + b)[1..] == a[1..] + b;
      RunConcat(Next(w, a[0]), a[1..], b);
    }
  }

  lemma ReachesOn(a: Watch, b: Watch, c: Watch)
    requires Reaches(a, b) && Reaches(b, c)
    ensures Reaches(a, c)
  {
    var first :| Run(a, first) == b;
    var second :| Run(b, second) == c;
    RunConcat(a, first, second);
  }

  lemma AskRun(from: Watch, w: Watch, c: Challenge, n: Nonce)
    requires Reaches(from, w)
    requires w.caller == Nobody && !w.invalidated && w.recorder == Idle && w.now - w.lastPresence < IDLE_LIMIT
    requires c !in w.issued
    ensures Reaches(from, w.(caller := Receiving(Some(n), c, w.now), issued := w.issued + {c}, pending := Some(c)))
  {
    hide Reaches, ReaderStep, RecorderStep;
    var next := Then(from, w, Enter(Some(n)));
    next := Then(from, next, CheckAge);
    next := Then(from, next, CheckExit(false, false));
    next := Then(from, next, CheckLatch);
    assert next == w.(caller := Drawing(Some(n)));
    next := Then(from, next, Draw(Some(c)));
    next := Then(from, next, Post);
    next := Then(from, next, Write(true));
  }

  lemma AnswerRun(from: Watch, w: Watch, c: Challenge)
    requires Reaches(from, w) && w.reader == Awaiting && w.pending == Some(c)
    ensures Reaches(from, w.(pending := None, channel := w.channel + [c], acknowledged := w.acknowledged[c := w.now]))
  {
    hide Reaches, CallerStep, RecorderStep;
    var next := Then(from, w, ReadByte(true));
    next := Then(from, next, ClonePending);
    next := Then(from, next, ReadRest(Acknowledges(c)));
    next := Then(from, next, TakePending);
    next := Then(from, next, Send(true));
  }

  lemma AcceptRun(from: Watch, w: Watch, c: Challenge, n: Nonce, asked: nat)
    requires Reaches(from, w) && w.caller == Receiving(Some(n), c, asked) && w.channel == [c]
    requires w.now - asked < COVERAGE_DEADLINE
    requires !w.invalidated && w.recorder == Idle && w.now - w.lastPresence < IDLE_LIMIT
    ensures Reaches(from, w.(channel := [], caller := Nobody, covered := w.covered + multiset{n},
                             grants := w.grants + [Grant(c, asked, w.now, w.now, w.lastPresence)]))
  {
    hide Reaches, ReaderStep, RecorderStep;
    var next := Then(from, w, Receive(true));
    next := Then(from, next, CheckDeadline);
    next := Then(from, next, CheckAge);
    next := Then(from, next, CheckExit(false, false));
    next := Then(from, next, CheckLatch);
  }

  lemma RejectRun(from: Watch, w: Watch, c: Challenge, n: Nonce, asked: nat)
    requires Reaches(from, w) && w.caller == Receiving(Some(n), c, asked) && w.channel == [c]
    requires w.now - asked >= COVERAGE_DEADLINE
    ensures Reaches(from, w.(channel := [], caller := Nobody, invalidated := true))
  {
    hide Reaches, ReaderStep, RecorderStep;
    var next := Then(from, w, Receive(true));
    next := Then(from, next, CheckDeadline);
    next := Then(from, next, LatchFailure);
  }

  /** The watch after one question that was answered after `delay`, before the caller has judged the answer. */
  function Answered(w: Watch, c: Challenge, delay: nat): Watch {
    w.(now := w.now + delay, issued := w.issued + {c}, pending := None,
      acknowledged := w.acknowledged[c := w.now + delay])
  }

  /** Nothing is in progress, nothing is unread, and the last presence is recent. */
  predicate Resting(w: Watch) {
    && w.caller == Nobody && w.recorder == Idle && w.reader == Awaiting && w.channel == []
    && !w.invalidated && w.now - w.lastPresence < IDLE_LIMIT
  }

  lemma AskedAndAnswered(w: Watch, c: Challenge, n: Nonce, delay: nat)
    requires Resting(w) && c !in w.issued
    ensures Reaches(w, Answered(w, c, delay).(caller := Receiving(Some(n), c, w.now), channel := [c]))
  {
    assert Reaches(w, w) by { assert Run(w, []) == w; }
    hide Reaches;
    AskRun(w, w, c, n);
    var asked := w.(caller := Receiving(Some(n), c, w.now), issued := w.issued + {c}, pending := Some(c));
    var waited := Then(w, asked, Tick(delay));
    AnswerRun(w, waited, c);
    assert waited.channel + [c] == [c];
  }

  /**
    From any resting watch, a question answered within the deadline and the idle limit is
    granted, with these times.
  */
  lemma PromptAnswerIsGranted(w: Watch, c: Challenge, n: Nonce, delay: nat)
    requires Resting(w) && c !in w.issued && delay < COVERAGE_DEADLINE && w.now + delay - w.lastPresence < IDLE_LIMIT
    ensures Reaches(w, Answered(w, c, delay).(
                         covered := w.covered + multiset{n},
                         grants := w.grants + [Grant(c, w.now, w.now + delay, w.now + delay, w.lastPresence)]))
  {
    hide Reaches;
    AskedAndAnswered(w, c, n, delay);
    AcceptRun(w, Answered(w, c, delay).(caller := Receiving(Some(n), c, w.now), channel := [c]), c, n, w.now);
  }

  /** The same answer after the deadline grants nothing and ends the watch. */
  lemma LateAnswerEndsTheWatch(w: Watch, c: Challenge, n: Nonce, delay: nat)
    requires Resting(w) && c !in w.issued && delay >= COVERAGE_DEADLINE
    ensures Reaches(w, Answered(w, c, delay).(invalidated := true))
  {
    hide Reaches;
    AskedAndAnswered(w, c, n, delay);
    RejectRun(w, Answered(w, c, delay).(caller := Receiving(Some(n), c, w.now), channel := [c]), c, n, w.now);
  }

  /** The recorder passes its looks and stands before the stamp. */
  lemma CommitRun(from: Watch, w: Watch, n: Nonce)
    requires Reaches(from, w)
    requires !w.invalidated && w.recorder == Idle && w.now - w.lastPresence < IDLE_LIMIT && n in w.covered
    requires n !in w.consumed
    ensures Reaches(from, w.(covered := w.covered - multiset{n}, consumed := w.consumed + {n},
            recorder := StampDue(n, w.now)))
  {
    hide Reaches, CallerStep, ReaderStep;
    var next := Then(from, w, BeginRecording(n));
    next := Then(from, next, RecordAge);
    next := Then(from, next, RecordLatch);
    assert next == w.(covered := w.covered - multiset{n}, recorder := InsertDue(n, w.now));
    next := Then(from, next, RecordInsert);
  }

  lemma RecordRun(from: Watch, w: Watch, n: Nonce, pause: nat)
    requires Reaches(from, w)
    requires !w.invalidated && w.recorder == Idle && w.now - w.lastPresence < IDLE_LIMIT && n in w.covered
    requires n !in w.consumed
    ensures Reaches(from, w.(now := w.now + pause, lastPresence := w.now + pause, covered := w.covered - multiset{n},
                             consumed := w.consumed + {n},
                               presences := w.presences + [Presence(n, w.now, w.now + pause)]))
  {
    hide Reaches, CallerStep, ReaderStep;
    CommitRun(from, w, n);
    var next := w.(covered := w.covered - multiset{n}, consumed := w.consumed + {n}, recorder := StampDue(n, w.now));
    next := Then(from, next, Tick(pause));
    next := Then(from, next, RecordStamp);
  }
}
