/**
  Planning of registry events: the window a request may ask for under the present
  head, and what a chain of planned events adds up to. Times are signed, sequences
  and versions unsigned 64-bit numbers.
*/
module Registry {
  import opened Bytes

  const I64_MAX: int := 0x7fff_ffff_ffff_ffff
  const I64_MIN: int := -0x8000_0000_0000_0000
  const I128_MAX: int := 0x7fff_ffff_ffff_ffff_ffff_ffff_ffff_ffff

  type i64 = n: int | I64_MIN <= n <= I64_MAX

  /** What the planner reads from the selected head. */
  datatype Head = Head(
    organizationId: Id16,
    chainId: Id16,
    version: u64,
    headHash: Hash32,
    proposedSequence: u64,
    validThrough: u64,
    now: i64,
    maxAgeMs: u64,
    policyHash: Hash32,
    rootThumbprint: Hash32)

  datatype Window = Window(effectiveFrom: u64, validThrough: u64, notAfter: i64)

  datatype Change = Policy(objectHash: Hash32) | Target(kind: nat, objectHash: Hash32)

  datatype EventFields = EventFields(
    organizationId: Id16,
    version: u64,
    previousHash: Hash32,
    effectiveFrom: u64,
    validThrough: u64,
    issuedAt: i64,
    notBefore: i64,
    notAfter: i64,
    policyHash: Hash32,
    change: Change,
    rootThumbprint: Hash32)

  function CheckedSuccessor(n: u64): Option<u64> {
    if n == U64_MAX then None else Some(n + 1)
  }

  /** `registry_event`; `None` is the window error. */
  function PlanEvent(head: Head, window: Window, change: Change): Option<EventFields> {
    if window.effectiveFrom < head.proposedSequence
       || (window.effectiveFrom > head.validThrough
         && CheckedSuccessor(head.validThrough) != Some(window.effectiveFrom))
       || window.validThrough < window.effectiveFrom
       || window.notAfter <= head.now
       || window.notAfter - head.now > head.maxAgeMs
    then None
    else match CheckedSuccessor(head.version)
      case None => None
      case Some(version) =>
        Some(EventFields(
               head.organizationId, version, head.headHash, window.effectiveFrom, window.validThrough,
               head.now, head.now, window.notAfter, if change.Policy? then change.objectHash else head.policyHash,
               change, head.rootThumbprint))
  }

  /**
    A window is accepted exactly when it begins inside the present lease or right
    after it and not before the proposed sequence, is not empty, and ends after now
    but within the maximum age; the one further refusal is a version that cannot
    rise. The difference of the two times always fits 128 bits.
  */
  lemma AcceptedWindows(head: Head, window: Window, change: Change)
    ensures PlanEvent(head, window, change).Some? <==>
            && head.proposedSequence <= window.effectiveFrom <= head.validThrough + 1
            && window.effectiveFrom <= window.validThrough
            && 0 < window.notAfter - head.now <= head.maxAgeMs
            && head.version < U64_MAX
    ensures -I128_MAX <= window.notAfter - head.now <= I128_MAX
  {
  }

  // ------------------------------------------------------------------ chains

  /** One planned event with the head and the request it was planned from. */
  datatype Planned = Planned(head: Head, window: Window, change: Change, event: EventFields)

  predicate Follows(next: Planned, previous: Planned) {
    next.head.version == previous.event.version && next.head.validThrough == previous.event.validThrough
  }

  /** Every event was planned under its head, and each head carries the version and lease end of the event before. */
  predicate Chain(plan: seq<Planned>) {
    && (forall i :: 0 <= i < |plan| ==> PlanEvent(plan[i].head, plan[i].window, plan[i].change) == Some(plan[i].event))
    && forall i :: 0 < i < |plan| ==> Follows(plan[i], plan[i - 1])
  }

  predicate Leased(plan: seq<Planned>, sequence: nat) {
    exists i :: 0 <= i < |plan| && plan[i].event.effectiveFrom <= sequence <= plan[i].event.validThrough
  }

  /** Versions rise by exactly one, whatever the length of the chain, and never overflow. */
  lemma {:induction false} VersionsCount(plan: seq<Planned>, i: nat)
    requires Chain(plan) && i < |plan|
    ensures plan[i].event.version == plan[0].event.version + i <= U64_MAX
  {
    if i > 0 {
      VersionsCount(plan, i - 1);
      assert Follows(plan[i], plan[i - 1]);
    }
  }

  /** No sequence from the first effective one to the last lease end is without a lease. */
  lemma {:induction false} LeasesHaveNoGap(plan: seq<Planned>, sequence: nat)
    requires Chain(plan) && plan != []
    requires plan[0].event.effectiveFrom <= sequence <= plan[|plan| - 1].event.validThrough
    ensures Leased(plan, sequence)
  {
    var n := |plan| - 1;
    if sequence < plan[n].event.effectiveFrom {
      assert n > 0 && Follows(plan[n], plan[n - 1]);
      LeasesHaveNoGap(plan[..n], sequence);
      var i :| 0 <= i < n && plan[..n][i].event.effectiveFrom <= sequence <= plan[..n][i].event.validThrough;
      assert plan[i] == plan[..n][i];
    } else {
      assert plan[n].event.effectiveFrom <= sequence <= plan[n].event.validThrough;
    }
  }

  /** Each event of a chain is valid from its issue for a positive time of at most the maximum age. */
  lemma ValidityIsBounded(plan: seq<Planned>, i: nat)
    requires Chain(plan) && i < |plan|
    ensures 0 < plan[i].event.notAfter - plan[i].event.issuedAt <= plan[i].head.maxAgeMs
    ensures plan[i].event.notBefore == plan[i].event.issuedAt == plan[i].head.now
    ensures plan[i].event.effectiveFrom <= plan[i].event.validThrough
    ensures plan[i].event.previousHash == plan[i].head.headHash
  {
    assert PlanEvent(plan[i].head, plan[i].window, plan[i].change) == Some(plan[i].event);
  }
}

/**
  The revocation journal: one row per binding, written once. A retry gets the
  event that was recorded first or a conflict, never a second intent.
*/
module Revocation {
  import opened Bytes
  import opened Registry

  datatype RevocationError = BindingNotActive | RegistryWindow | JournalConflict

  /** What a stored payload decodes to. */
  datatype Payload = RegistryEvent(fields: EventFields, zeroAuthorization: bool) | OtherPayload

  datatype Row = Row(chainId: Id16, adminBinding: Hash32, adminCertificate: Hash32, target: Payload)

  type Journal = map<Hash32, Row>

  /** One call: the head and clock it sees, the administrator it runs for, and what it asks. */
  datatype Request = Request(
    head: Head, binding: Hash32, active: bool, window: Window, adminBinding: Hash32, adminCertificate: Hash32)
  {
    function Candidate(): Option<EventFields> {
      PlanEvent(head, window, Target(1, binding))
    }

    function OwnRow(candidate: EventFields): Row {
      Row(head.chainId, adminBinding, adminCertificate, RegistryEvent(candidate, true))
    }
  }

  /** The row is this request's own intent, recorded no later than now. */
  predicate Matches(row: Row, request: Request, candidate: EventFields) {
    && row.chainId == request.head.chainId
    && row.adminBinding == request.adminBinding
    && row.adminCertificate == request.adminCertificate
    && row.target.RegistryEvent?
    && row.target.fields == candidate.(issuedAt := row.target.fields.issuedAt, notBefore := row.target.fields.notBefore)
    && row.target.fields.issuedAt == row.target.fields.notBefore
    && row.target.fields.issuedAt <= candidate.issuedAt
    && row.target.zeroAuthorization
  }

  /** `revocation_target` as one transition of the journal. */
  function Revoke(journal: Journal, request: Request): (Journal, Result<EventFields, RevocationError>) {
    if !request.active then (journal, Err(BindingNotActive))
    else match request.Candidate()
      case None => (journal, Err(RegistryWindow))
      case Some(candidate) =>
        if request.binding !in journal then (journal[request.binding := request.OwnRow(candidate)], Ok(candidate))
        else if Matches(journal[request.binding], request, candidate) then
             (journal, Ok(journal[request.binding].target.fields))
        else (journal, Err(JournalConflict))
  }

  class JournalDatabase {
    var rows: Journal

    constructor (rows: Journal)
      ensures this.rows == rows
    {
      this.rows := rows;
    }

    /** Insert unless present, read back, compare; a conflict rolls the transaction back. */
    method RevocationTarget(request: Request) returns (r: Result<EventFields, RevocationError>)
      modifies this
      ensures (rows, r) == Revoke(old(rows), request)
    {
      if !request.active {
        return Err(BindingNotActive);
      }
      var candidate := request.Candidate();
      if candidate.None? {
        return Err(RegistryWindow);
      }
      var begun := rows;
      if request.binding !in rows {
        rows := rows[request.binding := request.OwnRow(candidate.value)];
      }
      var row := rows[request.binding];
      if row.chainId != request.head.chainId || row.adminBinding != request.adminBinding
        || row.adminCertificate != request.adminCertificate {
        rows := begun;
        return Err(JournalConflict);
      }
      if !row.target.RegistryEvent? {
        rows := begun;
        return Err(JournalConflict);
      }
      var fields := row.target.fields;
      var expected := candidate.value.(issuedAt := fields.issuedAt, notBefore := fields.notBefore);
      if fields != expected || fields.issuedAt != fields.notBefore || fields.issuedAt > candidate.value.issuedAt
        || !row.target.zeroAuthorization {
        rows := begun;
        return Err(JournalConflict);
      }
      return Ok(fields);
    }
  }

  // ------------------------------------------------------------------ retries

  function After(journal: Journal, requests: seq<Request>): Journal
    decreases |requests|
  {
    if requests == [] then journal else After(Revoke(journal, requests[0]).0, requests[1..])
  }

  /** What the i-th call of a run answers. */
  function Answer(journal: Journal, requests: seq<Request>, i: nat): Result<EventFields, RevocationError>
    requires i < |requests|
  {
    Revoke(After(journal, requests[..i]), requests[i]).1
  }

  /** A row, once there, is never altered and never removed. */
  lemma {:induction false} RowsAreFinal(journal: Journal, requests: seq<Request>, binding: Hash32)
    requires binding in journal
    ensures binding in After(journal, requests) && After(journal, requests)[binding] == journal[binding]
    decreases |requests|
  {
    if requests != [] {
      RowsAreFinal(Revoke(journal, requests[0]).0, requests[1..], binding);
    }
  }

  lemma {:induction false} AfterConcat(journal: Journal, a: seq<Request>, b: seq<Request>)
    ensures After(journal, a + b) == After(After(journal, a), b)
    decreases |a|
  {
    if a == [] {
      assert a + b == b;
    } else {
      assert (a + b)[1..] == a[1..] + b;
      AfterConcat(Revoke(journal, a[0]).0, a[1..], b);
    }
  }

  /** A call that succeeds leaves its answer in the journal. */
  lemma SuccessIsRecorded(journal: Journal, request: Request)
    requires Revoke(journal, request).1.Ok?
    ensures var after := Revoke(journal, request).0;
            && request.binding in after && after[request.binding].target.RegistryEvent?
            && after[request.binding].target.fields == Revoke(journal, request).1.value
  {
  }

  /**
    All successful calls for one binding, over any journal and with any other
    calls, clocks and heads between them, return the identical event; it satisfies
    the caller's own window check up to the issue time, which is never later than
    the caller's own.
  */
  lemma RetriesAreStable(journal: Journal, requests: seq<Request>, i: nat, j: nat)
    requires i <= j < |requests| && requests[i].binding == requests[j].binding
    requires Answer(journal, requests, i).Ok? && Answer(journal, requests, j).Ok?
    ensures Answer(journal, requests, j) == Answer(journal, requests, i)
    ensures var event := Answer(journal, requests, j).value;
            && requests[j].Candidate().Some?
            && event == requests[j].Candidate().value.(issuedAt := event.issuedAt, notBefore := event.notBefore)
            && event.notBefore == event.issuedAt <= requests[j].head.now
  {
    if i < j {
      var before := After(journal, requests[..i]);
      SuccessIsRecorded(before, requests[i]);
      assert requests[..j] == requests[..i] + requests[i..j];
      AfterConcat(journal, requests[..i], requests[i..j]);
      assert requests[i..j][0] == requests[i];
      RowsAreFinal(Revoke(before, requests[i]).0, requests[i..j][1..], requests[i].binding);
    }
  }

  /** The same revocation asked again: the clock, the activity and the room the head leaves may have changed. */
  predicate SameIntent(a: Request, b: Request) {
    && b.binding == a.binding && b.window == a.window && b.adminBinding == a.adminBinding
    && b.adminCertificate == a.adminCertificate
    && b.head == a.head.(
         now := b.head.now, maxAgeMs := b.head.maxAgeMs, proposedSequence := b.head.proposedSequence,
           validThrough := b.head.validThrough)
  }

  /**
    After a success the same intent, asked again at any later point of any run, is
    answered exactly when the binding is active, the window passes, and the clock
    has not fallen behind the recorded issue time.
  */
  lemma RetryIsAnswered(journal: Journal, requests: seq<Request>, i: nat, j: nat)
    requires i < j < |requests| && SameIntent(requests[i], requests[j]) && Answer(journal, requests, i).Ok?
    ensures Answer(journal, requests, j).Ok? <==>
            && requests[j].active && requests[j].Candidate().Some?
            && Answer(journal, requests, i).value.issuedAt <= requests[j].head.now
  {
    var before := After(journal, requests[..i]);
    assert requests[..j] == requests[..i] + requests[i..j];
    AfterConcat(journal, requests[..i], requests[i..j]);
    assert requests[i..j][0] == requests[i];
    var after := Revoke(before, requests[i]).0;
    var row := after[requests[i].binding];
    assert Matches(row, requests[i], requests[i].Candidate().value);
    RowsAreFinal(after, requests[i..j][1..], requests[i].binding);
    assert After(journal, requests[..j])[requests[j].binding] == row;
    if requests[j].Candidate().Some? {
      assert Matches(row, requests[j], requests[j].Candidate().value) <==>
        row.target.fields.issuedAt <= requests[j].head.now;
    }
  }

  /** A binding the journal does not know yet is refused only for being inactive or for its window. */
  lemma FirstIsAnswered(journal: Journal, requests: seq<Request>, j: nat)
    requires j < |requests| && requests[j].binding !in journal
    requires forall i :: 0 <= i < j ==> requests[i].binding != requests[j].binding
    ensures Answer(journal, requests, j).Ok? <==> requests[j].active && requests[j].Candidate().Some?
  {
    if requests[j].binding in After(journal, requests[..j]) {
      var _ := RecordedBy(journal, requests[..j], requests[j].binding);
      assert false;
    }
  }

  /**
    Over a journal without the binding, every success repeats the plan of the first one, made
    under its own head and clock.
  */
  lemma {:induction false} FirstIntentWins(journal: Journal, requests: seq<Request>, j: nat)
    requires j < |requests| && requests[j].binding !in journal && Answer(journal, requests, j).Ok?
    ensures exists i :: 0 <= i <= j && requests[i].binding == requests[j].binding
                        && requests[i].Candidate() == Some(Answer(journal, requests, j).value)
    decreases j
  {
    if requests[j].binding !in After(journal, requests[..j]) {
      assert requests[j].Candidate() == Some(Answer(journal, requests, j).value);
    } else {
      var i := RecordedBy(journal, requests[..j], requests[j].binding);
      assert requests[..j][i] == requests[i];
      assert requests[..j][..i] == requests[..i];
      RetriesAreStable(journal, requests, i, j);
      FirstIntentWins(journal, requests, i);
    }
  }

  /** A binding that appears in the journal was put there by some successful call. */
  lemma {:induction false} RecordedBy(journal: Journal, requests: seq<Request>, binding: Hash32) returns (i: nat)
    requires binding !in journal && binding in After(journal, requests)
    ensures i < |requests| && requests[i].binding == binding && Answer(journal, requests, i).Ok?
    decreases |requests|
  {
    var n := |requests| - 1;
    assert requests == requests[..n] + [requests[n]];
    AfterConcat(journal, requests[..n], [requests[n]]);
    var before := After(journal, requests[..n]);
    if binding in before {
      i := RecordedBy(journal, requests[..n], binding);
      assert requests[..n][..i] == requests[..i];
    } else {
      assert After(before, [requests[n]]) == After(Revoke(before, requests[n]).0, [requests[n]][1..]);
      i := n;
    }
  }
}
