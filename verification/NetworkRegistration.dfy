/**
  Registration of a network archive component, once per trust anchor, in the
  local database: a reading transaction, a presence check outside any
  transaction, and a writing transaction that looks again. Transactions are
  serialized, everything between them interleaves.
*/
module NetworkRegistration {
  import opened Bytes

  const I64_MAX: int := 0x7fff_ffff_ffff_ffff
  const MAX_PROFILE_BYTES := 65536

  datatype ArchiveError =
    | Config | RegistrationConflict | ProfileMismatch | Audit | MissingComponent | ByteConflict | StoreFailed

  /** A network profile; what is not a limit of the local queue is one opaque part. */
  datatype NetworkProfile = NetworkProfile(rest: Bytes, queueMaxObjects: u64, queueMaxBytes: u64)

  datatype Profile = LocalPath | Network(profile: NetworkProfile)

  /** The profile encoding and the two digests, as parameters; only the encoding is assumed injective. */
  datatype Digests = Digests(
    encode: NetworkProfile -> Bytes,
    profileDigest: Bytes -> Hash32,
    namespaceOf: (Hash32, Hash32) -> Hash32)
  {
    ghost predicate Lawful() {
      forall p, q :: encode(p) == encode(q) ==> p == q
    }
  }

  datatype Component = Component(profileHash: Hash32, namespace: Hash32, exactProfile: Bytes)

  datatype Limits = Limits(objects: int, bytes: int)

  /** The three tables a registration touches; an audit row names the anchor it was written for. */
  datatype Database = Database(scopes: map<Hash32, Limits>, components: map<Hash32, Component>, audits: seq<Hash32>)

  // -------------------------------------------------------------- one request

  datatype Registration = Registration(anchor: Hash32, profileHash: Hash32, namespace: Hash32, exactProfile: Bytes,
    limits: Limits)

  function ToLimit(n: u64): Option<int> {
    if n <= I64_MAX then Some(n) else None
  }

  /** The registration a network profile asks for; limits must fit a signed 64-bit integer and be positive. */
  function Prepare(d: Digests, anchor: Hash32, p: NetworkProfile): Result<Registration, ArchiveError> {
    var exact := d.encode(p);
    var objects, bytes := ToLimit(p.queueMaxObjects), ToLimit(p.queueMaxBytes);
    if objects.None? || bytes.None? || objects.value <= 0 || bytes.value <= 0 then Err(Config)
    else
      var hash := d.profileDigest(exact);
      Ok(Registration(anchor, hash, d.namespaceOf(anchor, hash), exact, Limits(objects.value, bytes.value)))
  }

  datatype Existing = Identical | Absent(scope: bool)

  function Row(r: Registration): Component {
    Component(r.profileHash, r.namespace, r.exactProfile)
  }

  /** `Registration::existing`: reads only. */
  function LookUp(db: Database, r: Registration): Result<Existing, ArchiveError> {
    if r.anchor in db.components then
      if db.components[r.anchor] == Row(r) then Ok(Identical) else Err(RegistrationConflict)
    else if r.namespace !in db.scopes then Ok(Absent(false))
    else if db.scopes[r.namespace] == r.limits then Ok(Absent(true))
    else Err(RegistrationConflict)
  }

  /** The table's own constraints on a new component row. */
  predicate Insertable(db: Database, r: Registration) {
    && r.anchor !in db.components
    && (forall a <- db.components :: db.components[a].namespace != r.namespace)
    && 1 <= |r.exactProfile| <= MAX_PROFILE_BYTES
  }

  /** The writing transaction: scope, component and audit row, or nothing. */
  function Book(db: Database, r: Registration, auditFails: bool): (Database, Result<(), ArchiveError>) {
    match LookUp(db, r)
    case Err(e) => (db, Err(e))
    case Ok(Identical) => (db, Err(RegistrationConflict))
    case Ok(Absent(scope)) =>
      if !Insertable(db, r) then (db, Err(StoreFailed))
      else if auditFails then (db, Err(Audit))
      else (Database(if scope then db.scopes else db.scopes[r.namespace := r.limits],
                     db.components[r.anchor := Row(r)], db.audits + [r.anchor]), Ok(()))
  }

  class RegistrationDatabase {
    var rows: Database

    constructor (rows: Database)
      ensures this.rows == rows
    {
      this.rows := rows;
    }

    /** Look again, insert row by row, and roll everything back on the first failure. */
    method BookRegistration(r: Registration, auditFails: bool) returns (outcome: Result<(), ArchiveError>)
      modifies this
      ensures (rows, outcome) == Book(old(rows), r, auditFails)
    {
      var begun := rows;
      var found := LookUp(rows, r);
      if found.Err? {
        return Err(found.error);
      }
      if found.value.Identical? {
        return Err(RegistrationConflict);
      }
      if !found.value.scope {
        rows := rows.(scopes := rows.scopes[r.namespace := r.limits]);
      }
      var insertable := |r.exactProfile| >= 1 && |r.exactProfile| <= MAX_PROFILE_BYTES && r.anchor !in rows.components;
      var anchors := rows.components.Keys;
      while anchors != {}
        invariant anchors <= rows.components.Keys
        invariant insertable && (forall a <- anchors :: rows.components[a].namespace != r.namespace) <==>
                  Insertable(begun, r)
        invariant rows == begun.(scopes := if found.value.scope then begun.scopes
                  else begun.scopes[r.namespace := r.limits])
        decreases |anchors|
      {
        var a :| a in anchors;
        if rows.components[a].namespace == r.namespace {
          insertable := false;
        }
        anchors := anchors - {a};
      }
      if !insertable {
        rows := begun;
        return Err(StoreFailed);
      }
      rows := rows.(components := rows.components[r.anchor := Row(r)]);
      if auditFails {
        rows := begun;
        return Err(Audit);
      }
      rows := rows.(audits := rows.audits + [r.anchor]);
      return Ok(());
    }
  }

  // ------------------------------------------------------------------- readers

  datatype Registered = Registered(namespace: Hash32, limits: Limits)

  /** `registered_component`: what a start reads back without knowing the profile. */
  function RegisteredComponent(d: Digests, db: Database, anchor: Hash32): Result<Option<Registered>, ArchiveError> {
    if anchor !in db.components then Ok(None)
    else
      var row := db.components[anchor];
      var hash := d.profileDigest(row.exactProfile);
      var namespace := d.namespaceOf(anchor, hash);
      if row.profileHash != hash || row.namespace != namespace then Err(StoreFailed)
      else if namespace !in db.scopes then Err(StoreFailed)
      else if db.scopes[namespace].objects <= 0 || db.scopes[namespace].bytes <= 0 then Err(StoreFailed)
      else Ok(Some(Registered(namespace, db.scopes[namespace])))
  }

  /** The database checks of opening a component under a profile. */
  function OpenCheck(d: Digests, db: Database, anchor: Hash32, profile: Profile): Result<(), ArchiveError> {
    match profile
    case LocalPath => if anchor in db.components then Err(ProfileMismatch) else Ok(())
    case Network(p) =>
      var exact := d.encode(p);
      var hash := d.profileDigest(exact);
      var namespace := d.namespaceOf(anchor, hash);
      var objects, bytes := ToLimit(p.queueMaxObjects), ToLimit(p.queueMaxBytes);
      if objects.None? || bytes.None? then Err(MissingComponent)
      else if anchor !in db.components then Err(MissingComponent)
      else if db.components[anchor] != Component(hash, namespace, exact) then Err(ByteConflict)
      else if namespace !in db.scopes then Err(MissingComponent)
      else if db.scopes[namespace] != Limits(objects.value, bytes.value) then Err(ByteConflict)
      else Ok(())
  }

  // ---------------------------------------------------------- concurrent registrars

  /** A transaction of somebody: the first look, the booking, or a scope row another part of the program creates. */
  datatype Event =
    | Look(registration: Registration)
    | Commit(registration: Registration, auditFails: bool)
    | OtherScope(namespace: Hash32, limits: Limits)

  /** The database, the registrations between their two transactions, and the bookings that succeeded. */
  datatype System = System(db: Database, between: multiset<Registration>, booked: seq<Registration>)

  function Next(s: System, e: Event): System {
    match e
    case Look(r) =>
      (match LookUp(s.db, r)
       case Ok(Absent(_)) => s.(between := s.between + multiset{r})
       case _ => s)
    case Commit(r, auditFails) =>
      if r !in s.between then s
      else
        var (db, outcome) := Book(s.db, r, auditFails);
        System(db, s.between - multiset{r}, if outcome.Ok? then s.booked + [r] else s.booked)
    case OtherScope(namespace, limits) =>
      if namespace in s.db.scopes || limits.objects <= 0 || limits.bytes <= 0 then s
      else s.(db := s.db.(scopes := s.db.scopes[namespace := limits]))
  }

  function Run(s: System, events: seq<Event>): System
    decreases |events|
  {
    if events == [] then s else Run(Next(s, events[0]), events[1..])
  }

  const EMPTY := System(Database(map[], map[], []), multiset{}, [])

  /** Every registration in flight was prepared from a profile. */
  ghost predicate Prepared(d: Digests, r: Registration) {
    exists p :: Prepare(d, r.anchor, p) == Ok(r)
  }

  ghost predicate AllPrepared(d: Digests, events: seq<Event>) {
    forall i :: 0 <= i < |events| && events[i].Look? ==> Prepared(d, events[i].registration)
  }

  // -------------------------------------------------------------- the invariant

  /** A booking and the rows it left: all three of them. */
  predicate Holds(db: Database, r: Registration) {
    && r.anchor in db.components && db.components[r.anchor] == Row(r)
    && r.namespace in db.scopes && db.scopes[r.namespace] == r.limits
    && r.anchor in db.audits
  }

  function Anchors(booked: seq<Registration>): seq<Hash32> {
    seq(|booked|, i requires 0 <= i < |booked| => booked[i].anchor)
  }

  ghost predicate InFlight(d: Digests, between: multiset<Registration>, booked: seq<Registration>) {
    && (forall r :: r in between ==> Prepared(d, r))
    && (forall i :: 0 <= i < |booked| ==> Prepared(d, booked[i]))
  }

  /** The tables hold the bookings and nothing else of their kind. */
  predicate Tables(db: Database, booked: seq<Registration>) {
    && (forall i :: 0 <= i < |booked| ==> Holds(db, booked[i]))
    && (forall i, j :: 0 <= i < j < |booked| ==> booked[i].anchor != booked[j].anchor)
    && db.audits == Anchors(booked)
    && (forall a <- db.components :: a in db.audits)
    && |db.components| == |booked|
  }

  ghost predicate Inv(d: Digests, s: System) {
    InFlight(d, s.between, s.booked) && Tables(s.db, s.booked)
  }

  lemma StepKeepsInv(d: Digests, s: System, e: Event)
    requires Inv(d, s) && (e.Look? ==> Prepared(d, e.registration))
    ensures Inv(d, Next(s, e))
  {
    hide Prepared, Book, Tables, LookUp;
    match e
    case Look(r) =>
    case Commit(r, auditFails) => BookingKeepsTables(s.db, s.booked, r, auditFails);
    case OtherScope(namespace, limits) => ScopeKeepsTables(s.db, s.booked, namespace, limits);
  }

  lemma ScopeKeepsTables(db: Database, booked: seq<Registration>, namespace: Hash32, limits: Limits)
    requires Tables(db, booked)
    ensures namespace !in db.scopes ==> Tables(db.(scopes := db.scopes[namespace := limits]), booked)
  {
    if namespace !in db.scopes {
      var after := db.(scopes := db.scopes[namespace := limits]);
      forall i | 0 <= i < |booked|
        ensures Holds(after, booked[i])
      {
        assert Holds(db, booked[i]);
      }
    }
  }

  /** What a successful booking adds, and that it takes nothing away. */
  lemma BookingAdds(db: Database, r: Registration, auditFails: bool)
    requires Book(db, r, auditFails).1.Ok?
    ensures var after := Book(db, r, auditFails).0;
            && r.anchor !in db.components
            && after.components == db.components[r.anchor := Row(r)] && after.audits == db.audits + [r.anchor]
            && Holds(after, r)
            && forall n <- db.scopes :: n in after.scopes && after.scopes[n] == db.scopes[n]
  {
  }

  /** Earlier bookings are of other anchors and keep their rows. */
  lemma EarlierBookingsKept(db: Database, booked: seq<Registration>, r: Registration, auditFails: bool, i: nat)
    requires Tables(db, booked) && Book(db, r, auditFails).1.Ok? && i < |booked|
    ensures booked[i].anchor != r.anchor && Holds(Book(db, r, auditFails).0, booked[i])
  {
    hide Book;
    BookingAdds(db, r, auditFails);
    assert Holds(db, booked[i]);
  }

  lemma BookingKeepsTables(db: Database, booked: seq<Registration>, r: Registration, auditFails: bool)
    requires Tables(db, booked)
    ensures var (after, outcome) := Book(db, r, auditFails);
            Tables(after, if outcome.Ok? then booked + [r] else booked)
  {
    hide Book, Holds;
    BookingIsAtomic(db, r, auditFails);
    if Book(db, r, auditFails).1.Ok? {
      BookingAdds(db, r, auditFails);
      assert Anchors(booked + [r]) == Anchors(booked) + [r.anchor];
      forall i | 0 <= i < |booked|
        ensures booked[i].anchor != r.anchor && Holds(Book(db, r, auditFails).0, booked[i])
      {
        EarlierBookingsKept(db, booked, r, auditFails, i);
      }
    }
  }

  lemma {:induction false} RunKeepsInv(d: Digests, s: System, events: seq<Event>)
    requires Inv(d, s) && AllPrepared(d, events)
    ensures Inv(d, Run(s, events))
    decreases |events|
  {
    hide Inv, Next, Prepared;
    if events != [] {
      StepKeepsInv(d, s, events[0]);
      RunKeepsInv(d, Next(s, events[0]), events[1..]);
    }
  }

  // --------------------------------------------------------------- main results

  /**
    Under any interleaving: an anchor is booked at most once, each booking left
    its scope, component and audit row, and there is no other component and no
    other audit row; one audit row per component row.
  */
  lemma OneComponentPerAnchor(d: Digests, events: seq<Event>)
    requires AllPrepared(d, events)
    ensures var s := Run(EMPTY, events);
            && (forall i, j :: 0 <= i < j < |s.booked| ==> s.booked[i].anchor != s.booked[j].anchor)
            && (forall i :: 0 <= i < |s.booked| ==> Holds(s.db, s.booked[i]))
            && s.db.audits == Anchors(s.booked)
            && |s.db.components| == |s.booked| == |s.db.audits|
  {
    hide Run, Prepared;
    RunKeepsInv(d, EMPTY, events);
  }

  /**
    In every state any interleaving reaches, a booking whose audit row can be
    written succeeds exactly when no booking so far took its anchor or its
    namespace, no scope row of other limits has come between, and the profile
    fits its column.
  */
  lemma BookingSucceedsUnlessTaken(d: Digests, events: seq<Event>, r: Registration)
    requires AllPrepared(d, events)
    ensures var s := Run(EMPTY, events);
            Book(s.db, r, false).1.Ok? <==>
            && (forall i :: 0 <= i < |s.booked| ==>
              s.booked[i].anchor != r.anchor && s.booked[i].namespace != r.namespace)
            && (r.namespace in s.db.scopes ==> s.db.scopes[r.namespace] == r.limits)
            && 1 <= |r.exactProfile| <= MAX_PROFILE_BYTES
  {
    hide Run, Prepared, Tables, Book, LookUp, Insertable;
    assert Inv(d, EMPTY) by { EmptyTables(); }
    RunKeepsInv(d, EMPTY, events);
    var s := Run(EMPTY, events);
    TakenMeansBooked(s.db, s.booked, r);
    BookingCondition(s.db, r);
  }

  lemma EmptyTables()
    ensures Tables(EMPTY.db, EMPTY.booked)
  {
  }

  lemma BookingCondition(db: Database, r: Registration)
    ensures Book(db, r, false).1.Ok? <==>
            Insertable(db, r) && (r.namespace in db.scopes ==> db.scopes[r.namespace] == r.limits)
  {
  }

  lemma TakenMeansBooked(db: Database, booked: seq<Registration>, r: Registration)
    requires Tables(db, booked)
    ensures Insertable(db, r) <==>
            && (forall i :: 0 <= i < |booked| ==> booked[i].anchor != r.anchor && booked[i].namespace != r.namespace)
            && 1 <= |r.exactProfile| <= MAX_PROFILE_BYTES
  {
    forall a | a in db.components
      ensures exists i ::
                && 0 <= i < |booked| && booked[i].anchor == a
                && booked[i].namespace == db.components[a].namespace
    {
      assert a in Anchors(booked);
      var i :| 0 <= i < |booked| && booked[i].anchor == a;
      assert Holds(db, booked[i]);
    }
    forall i | 0 <= i < |booked|
      ensures booked[i].anchor in db.components && db.components[booked[i].anchor].namespace == booked[i].namespace
    {
      assert Holds(db, booked[i]);
    }
  }

  /** A failed booking writes nothing: the three rows appear together or not at all. */
  lemma BookingIsAtomic(db: Database, r: Registration, auditFails: bool)
    ensures Book(db, r, auditFails).1.Err? ==> Book(db, r, auditFails).0 == db
    ensures Book(db, r, auditFails).1.Ok? ==> Holds(Book(db, r, auditFails).0, r)
  {
  }

  /** The rows of a booking stay, whatever other registrars do afterwards. */
  lemma {:induction false} BookingIsFinal(s: System, events: seq<Event>, r: Registration)
    requires Holds(s.db, r)
    ensures Holds(Run(s, events).db, r)
    decreases |events|
  {
    if events != [] {
      BookingIsFinal(Next(s, events[0]), events[1..], r);
    }
  }

  /**
    After a booking, at every later point: another look finds it identical, a
    start reads its namespace and limits back, opening with the same profile
    passes every row check, and opening with any other profile is refused.
  */
  lemma BookingIsWhatOpens(
    d: Digests, s: System, events: seq<Event>, p: NetworkProfile, r: Registration, other: Profile)
    requires d.Lawful() && Prepare(d, r.anchor, p) == Ok(r) && Holds(s.db, r)
    ensures var db := Run(s, events).db;
            && LookUp(db, r) == Ok(Identical)
            && RegisteredComponent(d, db, r.anchor) == Ok(Some(Registered(r.namespace, r.limits)))
            && (OpenCheck(d, db, r.anchor, other).Ok? <==> other == Network(p))
            && OpenCheck(d, db, r.anchor, LocalPath) == Err(ProfileMismatch)
  {
    hide Run;
    BookingIsFinal(s, events, r);
  }
}
