/**
  Publication of an authorization and its grants as files named by their own
  hash: a temporary file, synced, linked under the final name, and the directory
  flushed before the next object. A crash may come after any effect.
*/
module GrantPublication {
  import opened Bytes

  datatype Kind = TrustObject | GrantObject | OtherObject

  /** Object hash and decoder, as parameters. */
  datatype ObjectFormat = ObjectFormat(hash: Bytes -> Hash32, kind: Bytes -> Kind)

  datatype Name = Final(hash: Hash32, kind: Kind) | Temporary(random: Bytes)

  datatype File = File(bytes: Bytes, synced: bool)

  type Entries = map<Name, File>

  /** The directory as readers see it, and as it was last flushed. */
  datatype Disk = Disk(entries: Entries, flushed: Entries)

  datatype GrantError = NotCurrent | Context | Output

  function NameOf(f: ObjectFormat, bytes: Bytes): Name {
    Final(f.hash(bytes), f.kind(bytes))
  }

  function Finals(m: Entries): Entries {
    map n | n in m && n.Final? :: m[n]
  }

  /** The files these objects become. */
  function Published(f: ObjectFormat, grants: seq<Bytes>): Entries {
    if grants == [] then map[]
    else
      var n := |grants| - 1;
      Published(f, grants[..n])[NameOf(f, grants[n]) := File(grants[n], true)]
  }

  predicate Within(a: Entries, b: Entries) {
    forall n <- a :: n in b && a[n] == b[n]
  }

  /** Every final name holds the complete synced bytes whose hash and kind it carries. */
  predicate Complete(f: ObjectFormat, m: Entries) {
    forall n <- m :: n.Final? ==> m[n].synced && NameOf(f, m[n].bytes) == n
  }

  /** A directory in which final names are complete, and those that were flushed have stayed. */
  predicate Coherent(f: ObjectFormat, d: Disk) {
    Complete(f, d.entries) && Within(Finals(d.flushed), Finals(d.entries))
  }

  /** What a crash may leave: an entry that is both flushed and visible stays, one that is neither does not appear. */
  ghost predicate MayFind(d: Disk, found: map<Name, Bytes>) {
    && (forall n :: n in d.entries && n in d.flushed ==> n in found)
    && forall n <- found ::
         || (n in d.entries && (d.entries[n].synced ==> found[n] == d.entries[n].bytes))
         || (n in d.flushed && (d.flushed[n].synced ==> found[n] == d.flushed[n].bytes))
  }

  /** What was flushed while the k-th object was being published. */
  function FlushedBefore(f: ObjectFormat, start: Disk, grants: seq<Bytes>, k: nat): Entries
    requires k <= |grants|
  {
    if k <= 1 then Finals(start.flushed) else Finals(start.entries) + Published(f, grants[..k - 1])
  }

  /** The first k objects are visible, and at most the last of them is not yet flushed. */
  predicate AtStage(f: ObjectFormat, start: Disk, grants: seq<Bytes>, k: nat, d: Disk) {
    && k <= |grants|
    && Finals(d.entries) == Finals(start.entries) + Published(f, grants[..k])
    && Within(Finals(start.entries), Finals(d.entries)) && Within(Finals(d.flushed), Finals(d.entries))
    && (Finals(d.flushed) == Finals(d.entries) || Finals(d.flushed) == FlushedBefore(f, start, grants, k))
  }

  ghost predicate OnTheWay(f: ObjectFormat, start: Disk, grants: seq<Bytes>, d: Disk) {
    exists k: nat :: AtStage(f, start, grants, k, d)
  }

  // ------------------------------------------------------------ the publisher

  /** What the environment does to one object: the first effect that fails, if any, and whether clean-up works. */
  datatype Turn = Turn(
    random: Bytes, drawn: bool, created: bool, accepted: nat, synced: bool, current: bool,
    linked: bool, flushed: bool, removed: bool, flushedAgain: bool)

  /** The object has a file type, and its temporary file can be made, filled and synced. */
  predicate Writable(f: ObjectFormat, entries: Entries, grant: Bytes, turn: Turn) {
    && !f.kind(grant).OtherObject?
    && turn.drawn && Temporary(turn.random) !in entries && turn.created && |grant| <= turn.accepted && turn.synced
  }

  /** Nothing fails, and the final name is free or holds these very bytes. */
  predicate Favourable(f: ObjectFormat, entries: Entries, grant: Bytes, turn: Turn) {
    && Writable(f, entries, grant, turn) && turn.current
    && (if NameOf(f, grant) in entries then entries[NameOf(f, grant)].bytes == grant else turn.linked)
    && turn.flushed && turn.removed && turn.flushedAgain
  }

  ghost predicate SameTemporaries(a: Entries, b: Entries) {
    forall n: Name :: n.Temporary? ==> (n in a <==> n in b)
  }

  /** The i-th object can be published where the start and the objects before it are. */
  predicate Goes(f: ObjectFormat, start: Disk, grants: seq<Bytes>, turns: seq<Turn>, i: nat)
    requires i < |grants| == |turns|
  {
    var there := Finals(start.entries) + Published(f, grants[..i]);
    && Writable(f, start.entries, grants[i], turns[i]) && turns[i].current
    && (if NameOf(f, grants[i]) in there then there[NameOf(f, grants[i])].bytes == grants[i] else turns[i].linked)
    && turns[i].flushed && turns[i].removed && turns[i].flushedAgain
  }

  class GrantDirectory {
    const format: ObjectFormat
    var disk: Disk
    /** Every disk left behind after an effect. */
    ghost var trace: seq<Disk>

    constructor (format: ObjectFormat, disk: Disk)
      ensures this.format == format && this.disk == disk && trace == []
    {
      this.format, this.disk, trace := format, disk, [];
    }

    method Effect(next: Disk)
      modifies this`disk, this`trace
      ensures disk == next && trace == old(trace) + [next]
    {
      disk, trace := next, trace + [next];
    }

    /** Since then the final names have not moved, neither the visible nor the flushed ones. */
    twostate predicate OnlyTemporaries()
      reads this
    {
      && Finals(disk.entries) == Finals(old(disk).entries) && Finals(disk.flushed) == Finals(old(disk).flushed)
      && |old(trace)| <= |trace| && trace[..|old(trace)|] == old(trace)
      && forall k :: |old(trace)| <= k < |trace| ==>
           Finals(trace[k].entries) == Finals(old(disk).entries)
             && Finals(trace[k].flushed) == Finals(old(disk).flushed)
    }

    method WriteTemporary(name: Name, bytes: Bytes, turn: Turn) returns (ok: bool)
      requires name.Temporary?
      modifies this`disk, this`trace
      ensures OnlyTemporaries()
      ensures ok ==> name in disk.entries && disk.entries[name] == File(bytes, true)
      ensures ok <==> name !in old(disk).entries && turn.created && |bytes| <= turn.accepted && turn.synced
      ensures forall n :: n != name ==> (n in disk.entries <==> n in old(disk).entries)
    {
      if name in disk.entries || !turn.created {
        return false;
      }
      SetTemporary(disk.entries, name, File([], false));
      Effect(disk.(entries := disk.entries[name := File([], false)]));
      for i := 0 to |bytes|
        invariant OnlyTemporaries() && name in disk.entries && disk.entries[name] == File(bytes[..i], false)
        invariant i <= turn.accepted && forall n :: n != name ==> (n in disk.entries <==> n in old(disk).entries)
      {
        if turn.accepted <= i {
          return false;
        }
        assert bytes[..i + 1] == bytes[..i] + [bytes[i]];
        SetTemporary(disk.entries, name, File(bytes[..i + 1], false));
        Effect(disk.(entries := disk.entries[name := File(disk.entries[name].bytes + [bytes[i]], false)]));
      }
      assert bytes[..|bytes|] == bytes;
      if !turn.synced {
        return false;
      }
      SetTemporary(disk.entries, name, File(bytes, true));
      Effect(disk.(entries := disk.entries[name := File(bytes, true)]));
      return true;
    }

    /** The part whose failure still removes the temporary file. */
    method WriteAndLink(temporary: Name, path: Name, grant: Bytes, turn: Turn) returns (failed: Option<GrantError>)
      requires path == NameOf(format, grant) && temporary.Temporary? && Complete(format, disk.entries)
      modifies this`disk, this`trace
      ensures |old(trace)| <= |trace| && trace[..|old(trace)|] == old(trace)
      ensures forall k :: |old(trace)| <= k < |trace| ==> Between(old(disk), path, File(grant, true), trace[k])
      ensures Between(old(disk), path, File(grant, true), disk)
      ensures failed.None? ==>
                Finals(disk.entries) == Finals(disk.flushed) == Finals(old(disk).entries)[path := File(grant, true)]
      ensures forall n: Name :: n.Temporary? && n != temporary ==> (n in disk.entries <==> n in old(disk).entries)
      ensures var written := temporary !in old(disk).entries && turn.created && |grant| <= turn.accepted && turn.synced;
              && (failed == Some(NotCurrent) <==> written && !turn.current) && failed != Some(Context)
              && (failed.None? <==>
                    && written && turn.current && turn.flushed
                    && if path in old(disk).entries then old(disk).entries[path].bytes == grant else turn.linked)
    {
      var written := WriteTemporary(temporary, grant, turn);
      if !written {
        return Some(Output);
      }
      CompleteIsFinal(format, old(disk).entries, disk.entries);
      SameFinal(old(disk).entries, disk.entries, path);
      var linked := Link(temporary, path, grant, turn);
      return if linked then None else if turn.current then Some(Output) else Some(NotCurrent);
    }

    /** Write beside, link unless the same bytes are there already, flush; the temporary is removed whatever happens. */
    method PublishOne(grant: Bytes, turn: Turn) returns (r: Result<Hash32, GrantError>)
      requires Complete(format, disk.entries)
      modifies this`disk, this`trace
      ensures |old(trace)| <= |trace| && trace[..|old(trace)|] == old(trace)
      ensures forall k :: |old(trace)| <= k < |trace| ==>
              Between(old(disk), NameOf(format, grant), File(grant, true), trace[k])
      ensures Between(old(disk), NameOf(format, grant), File(grant, true), disk)
      ensures r.Ok? ==>
                && Finals(disk.entries) == Finals(disk.flushed) ==
                  Finals(old(disk).entries)[NameOf(format, grant) := File(grant, true)]
                && r.value == format.hash(grant) && SameTemporaries(old(disk).entries, disk.entries)
      ensures r.Ok? <==> Favourable(format, old(disk).entries, grant, turn)
      ensures r == Err(Context) <==> format.kind(grant).OtherObject?
      ensures r == Err(NotCurrent) <==> Writable(format, old(disk).entries, grant, turn) && !turn.current
    {
      if format.kind(grant).OtherObject? {
        return Err(Context);
      }
      var path, temporary := NameOf(format, grant), Temporary(turn.random);
      if !turn.drawn {
        return Err(Output);
      }
      var result := WriteAndLink(temporary, path, grant, turn);
      if turn.removed {
        SetTemporary(disk.entries, temporary, File([], false));
        Effect(disk.(entries := disk.entries - {temporary}));
      }
      if result.Some? {
        return Err(result.value);
      }
      if !turn.removed || !turn.flushedAgain {
        return Err(Output);
      }
      Effect(disk.(flushed := disk.entries));
      return Ok(format.hash(grant));
    }

    method Link(temporary: Name, path: Name, grant: Bytes, turn: Turn) returns (ok: bool)
      requires path == NameOf(format, grant) && temporary.Temporary? && temporary in disk.entries
      requires disk.entries[temporary] == File(grant, true)
      requires Complete(format, disk.entries)
      modifies this`disk, this`trace
      ensures |old(trace)| <= |trace| && trace[..|old(trace)|] == old(trace)
      ensures forall k :: |old(trace)| <= k < |trace| ==> Between(old(disk), path, File(grant, true), trace[k])
      ensures Between(old(disk), path, File(grant, true), disk)
      ensures ok ==>
                Finals(disk.entries) == Finals(disk.flushed) == Finals(old(disk).entries)[path := File(grant, true)]
      ensures ok <==> turn.current && turn.flushed
                      && if path in old(disk).entries then old(disk).entries[path].bytes == grant else turn.linked
      ensures SameTemporaries(old(disk).entries, disk.entries)
    {
      if !turn.current {
        return false;
      }
      if path in disk.entries {
        if disk.entries[path].bytes != grant {
          return false;
        }
        assert disk.entries[path] == File(grant, true);
        assert Finals(disk.entries)[path := File(grant, true)] == Finals(disk.entries);
      } else {
        if !turn.linked {
          return false;
        }
        assert Finals(disk.entries[path := File(grant, true)]) == Finals(disk.entries)[path := File(grant, true)];
        Effect(disk.(entries := disk.entries[path := disk.entries[temporary]]));
      }
      if !turn.flushed {
        return false;
      }
      Effect(disk.(flushed := disk.entries));
      return true;
    }

    /**
      `publish_historical_grants`: object by object in list order. Every disk on
      the way, visible or flushed, holds a prefix of the list in addition to what
      was there, and nothing that was there is altered.
    */
    method Publish(
      grants: seq<Bytes>, turns: seq<Turn>, current: bool, usable: bool) returns (r: Result<seq<Hash32>, GrantError>)
      requires Coherent(format, disk) && |turns| == |grants|
      modifies this`disk, this`trace
      ensures |old(trace)| <= |trace| && trace[..|old(trace)|] == old(trace)
      ensures forall k :: |old(trace)| <= k < |trace| ==> OnTheWay(format, old(disk), grants, trace[k])
      ensures OnTheWay(format, old(disk), grants, disk)
      ensures r.Ok? ==>
                && Finals(disk.entries) == Finals(old(disk).entries) + Published(format, grants)
                && (grants != [] ==> Finals(disk.flushed) == Finals(disk.entries))
                && |r.value| == |grants| && forall i :: 0 <= i < |grants| ==> r.value[i] == format.hash(grants[i])
      ensures r.Ok? <==> current && usable && forall i :: 0 <= i < |grants| ==>
              Goes(format, old(disk), grants, turns, i)
    {
      hide Published, Finals, Between, FlushedBefore, Favourable, Goes;
      NothingYet(format, disk, grants);
      if !current {
        return Err(NotCurrent);
      }
      if !usable {
        return Err(Output);
      }
      var hashes := [];
      for i := 0 to |grants|
        invariant |old(trace)| <= |trace| && trace[..|old(trace)|] == old(trace)
        invariant forall k :: |old(trace)| <= k < |trace| ==> OnTheWay(format, old(disk), grants, trace[k])
        invariant LoopAt(format, old(disk), grants, i, disk)
        invariant Complete(format, disk.entries)
        invariant |hashes| == i && forall k :: 0 <= k < i ==> hashes[k] == format.hash(grants[k])
        invariant SameTemporaries(old(disk).entries, disk.entries) && forall k :: 0 <= k < i ==>
                  Goes(format, old(disk), grants, turns, k)
      {
        ghost var before := disk;
        GoesNow(format, old(disk), grants, turns, i, disk);
        var one := PublishOne(grants[i], turns[i]);
        forall d | Between(before, NameOf(format, grants[i]), File(grants[i], true), d)
          ensures OnTheWay(format, old(disk), grants, d)
        {
          NextStage(format, old(disk), grants, i, before, d);
        }
        NextStage(format, old(disk), grants, i, before, disk);
        if one.Err? {
          return Err(one.error);
        }
        CompleteGrows(format, before.entries, disk.entries, grants[i]);
        hashes := hashes + [one.value];
      }
      assert grants[..|grants|] == grants;
      return Ok(hashes);
    }
  }

  /** The disks while one object is published: not linked yet, linked, or linked and flushed. */
  predicate Between(before: Disk, name: Name, file: File, d: Disk) {
    || (Finals(d.entries) == Finals(before.entries) && Finals(d.flushed) == Finals(before.flushed))
    || (Finals(d.entries) == Finals(before.entries)[name := file]
        && (name in Finals(before.entries) ==> Finals(before.entries)[name] == file)
        && (Finals(d.flushed) == Finals(before.flushed) || Finals(d.flushed) == Finals(d.entries)))
  }

  lemma NothingYet(f: ObjectFormat, start: Disk, grants: seq<Bytes>)
    requires Coherent(f, start)
    ensures AtStage(f, start, grants, 0, start)
  {
    assert grants[..0] == [];
  }

  /** The loop stands at stage i: nothing done, or everything so far flushed. */
  predicate LoopAt(f: ObjectFormat, start: Disk, grants: seq<Bytes>, i: nat, d: Disk) {
    AtStage(f, start, grants, i, d) && (if i == 0 then d == start else Finals(d.flushed) == Finals(d.entries))
  }

  lemma OneMorePublished(f: ObjectFormat, grants: seq<Bytes>, i: nat, present: Entries)
    requires i < |grants|
    ensures present + Published(f, grants[..i + 1]) ==
            (present + Published(f, grants[..i]))[NameOf(f, grants[i]) := File(grants[i], true)]
  {
    assert grants[..i + 1][..i] == grants[..i];
  }

  /** From stage i, one object leads to stage i or, once linked, i + 1. */
  lemma NextStage(f: ObjectFormat, start: Disk, grants: seq<Bytes>, i: nat, before: Disk, d: Disk)
    requires i < |grants| && LoopAt(f, start, grants, i, before)
    requires Between(before, NameOf(f, grants[i]), File(grants[i], true), d)
    ensures AtStage(f, start, grants, i, d) || AtStage(f, start, grants, i + 1, d)
    ensures Finals(d.entries) == Finals(d.flushed) ==
            Finals(before.entries)[NameOf(f, grants[i]) := File(grants[i], true)] ==>
              AtStage(f, start, grants, i + 1, d)
  {
    hide Published, Finals, NameOf;
    OneMorePublished(f, grants, i, Finals(start.entries));
  }

  lemma CompleteGrows(f: ObjectFormat, before: Entries, after: Entries, grant: Bytes)
    requires Complete(f, before) && Finals(after) == Finals(before)[NameOf(f, grant) := File(grant, true)]
    ensures Complete(f, after)
  {
    forall n | n in after && n.Final?
      ensures after[n].synced && NameOf(f, after[n].bytes) == n
    {
      assert n in Finals(after) && Finals(after)[n] == after[n];
    }
  }

  lemma SetTemporary(m: Entries, name: Name, file: File)
    requires name.Temporary?
    ensures Finals(m[name := file]) == Finals(m) && Finals(m - {name}) == Finals(m)
  {
  }

  lemma SameFinal(a: Entries, b: Entries, n: Name)
    requires Finals(a) == Finals(b) && n.Final?
    ensures n in a <==> n in b
    ensures n in a ==> a[n] == b[n]
  {
    assert n in Finals(a) <==> n in a;
    assert n in Finals(b) <==> n in b;
  }

  /** The disk the loop has reached decides the i-th object as the start and the list do. */
  lemma GoesNow(f: ObjectFormat, start: Disk, grants: seq<Bytes>, turns: seq<Turn>, i: nat, d: Disk)
    requires i < |grants| == |turns| && SameTemporaries(start.entries, d.entries)
    requires Finals(d.entries) == Finals(start.entries) + Published(f, grants[..i])
    ensures Favourable(f, d.entries, grants[i], turns[i]) <==> Goes(f, start, grants, turns, i)
  {
    hide Published;
    var n := NameOf(f, grants[i]);
    assert n in Finals(d.entries) <==> n in d.entries;
    assert n in d.entries ==> Finals(d.entries)[n] == d.entries[n];
  }

  lemma CompleteIsFinal(f: ObjectFormat, a: Entries, b: Entries)
    requires Finals(a) == Finals(b) && Complete(f, a)
    ensures Complete(f, b)
  {
    forall n | n in b && n.Final?
      ensures b[n].synced && NameOf(f, b[n].bytes) == n
    {
      assert n in Finals(a) && Finals(a)[n] == b[n];
    }
  }

  // --------------------------------------------------------------- main results

  predicate Named(f: ObjectFormat, grants: seq<Bytes>, n: Name) {
    exists i :: 0 <= i < |grants| && n == NameOf(f, grants[i])
  }

  lemma NamedByOneMore(f: ObjectFormat, grants: seq<Bytes>, k: nat, n: Name)
    requires k < |grants|
    ensures Named(f, grants[..k + 1], n) <==> Named(f, grants[..k], n) || n == NameOf(f, grants[k])
  {
    if Named(f, grants[..k], n) {
      var i :| 0 <= i < k && n == NameOf(f, grants[..k][i]);
      assert grants[..k + 1][i] == grants[..k][i];
    }
    if n == NameOf(f, grants[k]) {
      assert grants[..k + 1][k] == grants[k];
    }
    if Named(f, grants[..k + 1], n) && n != NameOf(f, grants[k]) {
      var i :| 0 <= i < k + 1 && n == NameOf(f, grants[..k + 1][i]);
      assert grants[..k][i] == grants[i];
    }
  }

  lemma {:induction false} PublishedNames(f: ObjectFormat, grants: seq<Bytes>)
    ensures Complete(f, Published(f, grants))
    ensures forall n :: n in Published(f, grants) <==> Named(f, grants, n)
  {
    if grants != [] {
      var k := |grants| - 1;
      PublishedNames(f, grants[..k]);
      assert grants[..k + 1] == grants;
      forall n
        ensures n in Published(f, grants) <==> Named(f, grants, n)
      {
        NamedByOneMore(f, grants, k, n);
      }
    }
  }

  lemma NamedByLonger(f: ObjectFormat, grants: seq<Bytes>, j: nat, k: nat, n: Name)
    requires j <= k <= |grants| && Named(f, grants[..j], n)
    ensures Named(f, grants[..k], n)
  {
    var i :| 0 <= i < j && n == NameOf(f, grants[..j][i]);
    assert grants[..k][i] == grants[..j][i];
  }

  /**
    On every disk on the way: a final name is absent or holds the complete bytes
    whose hash it carries, and no name that was there before is altered.
  */
  lemma NamesNeverLie(f: ObjectFormat, start: Disk, grants: seq<Bytes>, d: Disk)
    requires Complete(f, start.entries) && OnTheWay(f, start, grants, d)
    ensures Complete(f, d.entries)
    ensures forall n <- start.entries :: n.Final? ==> n in d.entries && d.entries[n] == start.entries[n]
  {
    hide Published;
    var k: nat :| AtStage(f, start, grants, k, d);
    PublishedNames(f, grants[..k]);
    forall n | n in d.entries && n.Final?
      ensures d.entries[n].synced && NameOf(f, d.entries[n].bytes) == n
    {
      assert n in Finals(d.entries) && Finals(d.entries)[n] == d.entries[n];
    }
    forall n | n in start.entries && n.Final?
      ensures n in d.entries && d.entries[n] == start.entries[n]
    {
      assert n in Finals(start.entries) && Finals(start.entries)[n] == start.entries[n];
    }
  }

  /** The finals a crash left, as the next run meets them. */
  function Left(found: map<Name, Bytes>): Entries {
    map n | n in found && n.Final? :: File(found[n], true)
  }

  /** All objects before the k-th are there, and nothing new from the (k+1)-st on. */
  predicate PrefixUpTo(f: ObjectFormat, start: Disk, grants: seq<Bytes>, found: map<Name, Bytes>, k: nat) {
    && k <= |grants|
    && (forall i :: 0 <= i < k - 1 ==> NameOf(f, grants[i]) in found)
    && forall n <- found :: n.Final? ==> n in start.entries || Named(f, grants[..k], n)
  }

  /** All but the last visible object are flushed, and nothing is flushed that is not visible. */
  lemma FlushedIsVisible(f: ObjectFormat, start: Disk, grants: seq<Bytes>, k: nat, d: Disk, n: Name)
    requires AtStage(f, start, grants, k, d) && n.Final?
    ensures k > 0 && Named(f, grants[..k - 1], n) ==> n in d.flushed && n in d.entries
    ensures n in d.flushed ==> n in d.entries && d.flushed[n] == d.entries[n]
    ensures n in d.entries ==> n in start.entries || Named(f, grants[..k], n)
    ensures n in start.flushed && Within(Finals(start.flushed), Finals(start.entries)) ==> n in d.flushed
  {
    hide Published, Named;
    assert n in d.flushed <==> n in Finals(d.flushed);
    assert n in d.entries <==> n in Finals(d.entries);
    assert n in start.entries <==> n in Finals(start.entries);
    assert n in start.flushed <==> n in Finals(start.flushed);
    PublishedNames(f, grants[..k]);
    if k > 0 {
      PublishedNames(f, grants[..k - 1]);
      if Named(f, grants[..k - 1], n) {
        NamedByLonger(f, grants, k - 1, k, n);
        Nameless(f, grants, n);
      }
    }
  }

  lemma Nameless(f: ObjectFormat, grants: seq<Bytes>, n: Name)
    ensures !Named(f, grants[..0], n)
  {
  }

  /**
    Objects appear in list order, even across a crash after any effect: whatever
    is found, all objects before some point of the list are there, none after the
    next one is, and every one found has its full bytes. The authorization is first.
  */
  lemma CrashLeavesAPrefix(f: ObjectFormat, start: Disk, grants: seq<Bytes>, d: Disk, found: map<Name, Bytes>)
    requires Coherent(f, start) && OnTheWay(f, start, grants, d) && MayFind(d, found)
    ensures exists k :: PrefixUpTo(f, start, grants, found, k)
    ensures forall n <- found :: n.Final? ==>
              && n in d.entries && found[n] == d.entries[n].bytes
              && NameOf(f, found[n]) == n
  {
    hide Published, Named, Finals;
    var k: nat :| AtStage(f, start, grants, k, d);
    NamesNeverLie(f, start, grants, d);
    forall n | n in found && n.Final?
      ensures n in d.entries && d.entries[n].synced && found[n] == d.entries[n].bytes
      ensures n in start.entries || Named(f, grants[..k], n)
    {
      FlushedIsVisible(f, start, grants, k, d, n);
    }
    forall i | 0 <= i < k - 1
      ensures NameOf(f, grants[i]) in found
    {
      NamedAt(f, grants, k - 1, i);
      FlushedIsVisible(f, start, grants, k, d, NameOf(f, grants[i]));
    }
    assert PrefixUpTo(f, start, grants, found, k);
  }

  lemma NamedAt(f: ObjectFormat, grants: seq<Bytes>, k: nat, i: nat)
    requires i < k <= |grants|
    ensures Named(f, grants[..k], NameOf(f, grants[i]))
  {
    assert grants[..k][i] == grants[i];
  }

  /** What an interrupted run left is completed to the same final names as an uninterrupted one. */
  lemma RepeatReachesTheSame(f: ObjectFormat, start: Disk, grants: seq<Bytes>, d: Disk)
    requires OnTheWay(f, start, grants, d)
    ensures Finals(d.entries) + Published(f, grants) == Finals(start.entries) + Published(f, grants)
  {
    hide Published, Named;
    var k: nat :| AtStage(f, start, grants, k, d);
    PublishedNames(f, grants);
    PublishedNames(f, grants[..k]);
    assert grants[..|grants|] == grants;
    forall n | Named(f, grants[..k], n)
      ensures Named(f, grants, n)
    {
      NamedByLonger(f, grants, k, |grants|, n);
    }
  }

  /**
    A name this run does not publish: a crash never adds it, never alters it, and loses it only
    if it was not flushed.
  */
  lemma LeftOutside(f: ObjectFormat, start: Disk, grants: seq<Bytes>, d: Disk, found: map<Name, Bytes>, n: Name)
    requires Coherent(f, start) && OnTheWay(f, start, grants, d) && MayFind(d, found)
    requires n.Final? && !Named(f, grants, n)
    ensures n in found ==> n in start.entries && File(found[n], true) == start.entries[n]
    ensures n in start.flushed ==> n in found
  {
    hide Published, Named, Finals;
    var k: nat :| AtStage(f, start, grants, k, d);
    NamesNeverLie(f, start, grants, d);
    CrashLeavesAPrefix(f, start, grants, d, found);
    FlushedIsVisible(f, start, grants, k, d, n);
    assert grants[..|grants|] == grants;
    if Named(f, grants[..k], n) {
      NamedByLonger(f, grants, k, |grants|, n);
    }
  }

  /** The names of others that were there have survived. */
  predicate OthersSurvive(f: ObjectFormat, start: Disk, grants: seq<Bytes>, found: map<Name, Bytes>) {
    forall n <- start.entries :: n.Final? && !Named(f, grants, n) ==> n in found
  }

  /**
    Repeating after a crash: on the names of the list the repeat agrees with an
    uninterrupted run whatever was flushed; on all final names it agrees if and
    only if the names of others survived, and those that were flushed always do.
  */
  lemma RepeatAfterCrash(f: ObjectFormat, start: Disk, grants: seq<Bytes>, d: Disk, found: map<Name, Bytes>)
    requires Coherent(f, start) && OnTheWay(f, start, grants, d) && MayFind(d, found)
    ensures var repeated, uninterrupted := Left(found) + Published(f, grants),
            Finals(start.entries) + Published(f, grants);
            && (forall n <- Published(f, grants) :: repeated[n] == uninterrupted[n] == Published(f, grants)[n])
            && Within(repeated, uninterrupted)
            && (repeated == uninterrupted <==> OthersSurvive(f, start, grants, found))
    ensures Finals(start.flushed) == Finals(start.entries) ==> OthersSurvive(f, start, grants, found)
  {
    hide Published, Named, Finals, MayFind, OnTheWay, Coherent;
    PublishedNames(f, grants);
    FinalsAre(start.entries);
    FinalsAre(start.flushed);
    forall n: Name | n.Final? && !Named(f, grants, n)
      ensures n in found ==> n in start.entries && File(found[n], true) == start.entries[n]
      ensures n in start.flushed ==> n in found
    {
      LeftOutside(f, start, grants, d, found, n);
    }
    SameNames(f, grants, start, found);
  }

  lemma SameNames(f: ObjectFormat, grants: seq<Bytes>, start: Disk, found: map<Name, Bytes>)
    requires forall n :: n in Published(f, grants) <==> Named(f, grants, n)
    requires forall n: Name | n.Final? && !Named(f, grants, n) ::
               n in found ==> n in start.entries && File(found[n], true) == start.entries[n]
    ensures Left(found) + Published(f, grants) == Finals(start.entries) + Published(f, grants) <==>
            OthersSurvive(f, start, grants, found)
  {
    hide Published, Named, Finals;
    FinalsAre(start.entries);
    var repeated, uninterrupted := Left(found) + Published(f, grants), Finals(start.entries) + Published(f, grants);
    if OthersSurvive(f, start, grants, found) {
      assert repeated.Keys == uninterrupted.Keys;
    }
    if repeated == uninterrupted {
      forall n | n in start.entries && n.Final? && !Named(f, grants, n)
        ensures n in found
      {
        assert n in uninterrupted;
      }
    }
  }

  /** Whatever is interrupted and whatever a crash leaves, repeating ends with the names of an uninterrupted run. */
  ghost predicate RepeatIsSafe(f: ObjectFormat, start: Disk, grants: seq<Bytes>) {
    forall d, found :: OnTheWay(f, start, grants, d) && MayFind(d, found) ==>
      Left(found) + Published(f, grants) == Finals(start.entries) + Published(f, grants)
  }

  /** The final names the list does not name are all flushed before it is published. */
  predicate OthersFlushed(f: ObjectFormat, start: Disk, grants: seq<Bytes>) {
    forall n <- start.entries :: n.Final? && !Named(f, grants, n) ==> n in start.flushed
  }

  /** So repeating is safe, whatever will happen, if and only if the names of others were flushed beforehand. */
  lemma SafeExactlyWhenFlushed(f: ObjectFormat, start: Disk, grants: seq<Bytes>)
    requires Coherent(f, start)
    ensures RepeatIsSafe(f, start, grants) <==> OthersFlushed(f, start, grants)
  {
    hide Published, Named, Finals, MayFind, OnTheWay, Coherent;
    if OthersFlushed(f, start, grants) {
      forall d, found | OnTheWay(f, start, grants, d) && MayFind(d, found)
        ensures Left(found) + Published(f, grants) == Finals(start.entries) + Published(f, grants)
      {
        FlushedOthersSurvive(f, start, grants, d, found);
        RepeatAfterCrash(f, start, grants, d, found);
      }
    }
    if RepeatIsSafe(f, start, grants) {
      var found := Kept(start);
      NothingButTheFlushed(f, start, grants);
      RepeatAfterCrash(f, start, grants, start, found);
      assert OthersSurvive(f, start, grants, found);
    }
  }

  lemma FlushedOthersSurvive(f: ObjectFormat, start: Disk, grants: seq<Bytes>, d: Disk, found: map<Name, Bytes>)
    requires Coherent(f, start) && OnTheWay(f, start, grants, d) && MayFind(d, found) && OthersFlushed(f, start, grants)
    ensures OthersSurvive(f, start, grants, found)
  {
    hide Named, MayFind, OnTheWay, Coherent;
    forall n | n in start.entries && n.Final? && !Named(f, grants, n)
      ensures n in found
    {
      LeftOutside(f, start, grants, d, found, n);
    }
  }

  /** The least a crash may leave: what is both flushed and visible. */
  function Kept(d: Disk): map<Name, Bytes> {
    map n | n in d.entries && n in d.flushed :: d.entries[n].bytes
  }

  lemma NothingButTheFlushed(f: ObjectFormat, start: Disk, grants: seq<Bytes>)
    requires Coherent(f, start)
    ensures OnTheWay(f, start, grants, start) && MayFind(start, Kept(start))
  {
    hide Published, Finals;
    NothingYet(f, start, grants);
  }

  /** For instance a name of another run that was visible and not flushed: the repeat is not safe. */
  lemma UnflushedNameIsLost(f: ObjectFormat, start: Disk, grants: seq<Bytes>, n: Name)
    requires Coherent(f, start) && n in start.entries && n.Final? && n !in start.flushed && !Named(f, grants, n)
    ensures !RepeatIsSafe(f, start, grants)
  {
    hide Named, RepeatIsSafe, Coherent;
    SafeExactlyWhenFlushed(f, start, grants);
  }

  lemma FinalsAre(m: Entries)
    ensures forall n :: n in Finals(m) <==> n in m && n.Final?
    ensures forall n <- Finals(m) :: Finals(m)[n] == m[n]
  {
  }
}
