/** Byte strings, the fixed-width identifiers built from them, and their order. */
module Bytes {

  datatype Option<+T> = None | Some(value: T) {
    predicate IsFailure() { None? }
    function PropagateFailure<U>(): Option<U> requires None? { None }
    function Extract(): T requires Some? { value }
  }

  type byte = x: int | 0 <= x < 256
  type Bytes = seq<byte>
  type Hash32 = b: Bytes | |b| == 32 witness seq(32, _ => 0)
  type Id16 = b: Bytes | |b| == 16 witness seq(16, _ => 0)

  datatype Result<+T, +E> = Ok(value: T) | Err(error: E) {
    predicate IsFailure() { Err? }
    function PropagateFailure<U>(): Result<U, E> requires Err? { Err(error) }
    function Extract(): T requires Ok? { value }
  }

  const U64_MAX: nat := 0xffff_ffff_ffff_ffff

  type u64 = n: nat | n <= U64_MAX

  function Min(a: int, b: int): int {
    if a <= b then a else b
  }

  function Max(a: int, b: int): int {
    if a <= b then b else a
  }

  /** The bytes of an ASCII literal. */
  function Ascii(s: string): (r: Bytes)
    ensures |r| == |s|
  {
    seq(|s|, i requires 0 <= i < |s| => s[i] as int % 256)
  }

  /** Lexicographic order on byte strings, the order of the source's derived `Ord`. */
  predicate AtMost(a: Bytes, b: Bytes) {
    a == [] || (b != [] && (a[0] < b[0] || (a[0] == b[0] && AtMost(a[1..], b[1..]))))
  }

  lemma {:induction false} AtMostTotal(a: Bytes, b: Bytes)
    ensures AtMost(a, b) || AtMost(b, a)
  {
    if a != [] && b != [] && a[0] == b[0] {
      AtMostTotal(a[1..], b[1..]);
    }
  }

  lemma {:induction false} AtMostAntisymmetric(a: Bytes, b: Bytes)
    requires AtMost(a, b) && AtMost(b, a)
    ensures a == b
  {
    if a != [] {
      AtMostAntisymmetric(a[1..], b[1..]);
      assert a == [a[0]] + a[1..] && b == [b[0]] + b[1..];
    }
  }

  lemma {:induction false} AtMostTransitive(a: Bytes, b: Bytes, c: Bytes)
    requires AtMost(a, b) && AtMost(b, c)
    ensures AtMost(a, c)
  {
    if a != [] && a[0] == b[0] == c[0] {
      AtMostTransitive(a[1..], b[1..], c[1..]);
    }
  }

  ghost predicate Ordered(s: seq<Bytes>) {
    forall i, j :: 0 <= i < j < |s| ==> AtMost(s[i], s[j])
  }

  function Insert(x: Bytes, s: seq<Bytes>): (r: seq<Bytes>)
    ensures multiset(r) == multiset(s) + multiset{x}
  {
    if s == [] || AtMost(x, s[0]) then
      [x] + s
    else
      assert s == [s[0]] + s[1..];
      [s[0]] + Insert(x, s[1..])
  }

  /** The sorted list with the same elements, as `sort_unstable` leaves it. */
  function Sort(s: seq<Bytes>): (r: seq<Bytes>)
    ensures multiset(r) == multiset(s)
    ensures |r| == |s|
    ensures forall x :: x in r <==> x in s
  {
    if s == [] then []
    else
      assert s == [s[0]] + s[1..];
      var r := Insert(s[0], Sort(s[1..]));
      assert |multiset(r)| == |multiset(s)|;
      assert forall x :: x in r <==> x in multiset(r);
      assert forall x :: x in s <==> x in multiset(s);
      r
  }

  function SortedIds(ids: seq<Id16>): (r: seq<Id16>)
    ensures r == Sort(ids)
  {
    var r := Sort(ids);
    assert forall i :: 0 <= i < |r| ==> r[i] in ids;
    r
  }

  lemma {:induction false} InsertOrdered(x: Bytes, s: seq<Bytes>)
    requires Ordered(s)
    ensures Ordered(Insert(x, s))
  {
    if s != [] && !AtMost(x, s[0]) {
      AtMostTotal(x, s[0]);
      var t := Insert(x, s[1..]);
      InsertOrdered(x, s[1..]);
      forall k | 0 <= k < |t|
        ensures AtMost(s[0], t[k])
      {
        assert t[k] in multiset(t);
        assert t[k] == x || t[k] in s[1..];
      }
    } else if s != [] {
      forall k | 0 <= k < |s|
        ensures AtMost(x, s[k])
      {
        if k > 0 {
          AtMostTransitive(x, s[0], s[k]);
        }
      }
    }
  }

  lemma {:induction false} SortOrdered(s: seq<Bytes>)
    ensures Ordered(Sort(s))
  {
    if s != [] {
      SortOrdered(s[1..]);
      InsertOrdered(s[0], Sort(s[1..]));
    }
  }

  lemma {:induction false} OrderedHead(s: seq<Bytes>, x: Bytes)
    requires Ordered(s) && x in s
    ensures AtMost(s[0], x)
  {
    var i :| 0 <= i < |s| && s[i] == x;
    AtMostTotal(x, x);
  }

  lemma SplitHead(s: seq<Bytes>)
    requires s != []
    ensures multiset(s) == multiset(s[1..]) + multiset{s[0]}
    ensures Ordered(s) ==> Ordered(s[1..])
  {
    assert s == [s[0]] + s[1..];
  }

  lemma SameHead(a: seq<Bytes>, b: seq<Bytes>)
    requires Ordered(a) && Ordered(b) && multiset(a) == multiset(b) && a != []
    ensures b != [] && a[0] == b[0]
  {
    hide AtMost, Ordered;
    assert a[0] in multiset(b) && multiset(b) != multiset{};
    assert b[0] in multiset(a);
    OrderedHead(a, b[0]);
    OrderedHead(b, a[0]);
    AtMostAntisymmetric(a[0], b[0]);
  }

  /** Two ordered lists with the same elements are the same list. */
  lemma {:induction false} OrderedUnique(a: seq<Bytes>, b: seq<Bytes>)
    requires Ordered(a) && Ordered(b) && multiset(a) == multiset(b)
    ensures a == b
  {
    hide AtMost, Ordered;
    if a == [] {
      assert |multiset(b)| == 0;
    } else {
      SameHead(a, b);
      SplitHead(a);
      SplitHead(b);
      var head := multiset{a[0]};
      assert multiset(a[1..]) == multiset(a) - head && multiset(b[1..]) == multiset(b) - head;
      OrderedUnique(a[1..], b[1..]);
      assert a == [a[0]] + a[1..] && b == [b[0]] + b[1..];
    }
  }

  /** Sorting forgets exactly the order: equal results mean equal multisets. */
  lemma SortForgetsOnlyOrder(a: seq<Bytes>, b: seq<Bytes>)
    ensures Sort(a) == Sort(b) <==> multiset(a) == multiset(b)
  {
    if multiset(a) == multiset(b) {
      SortOrdered(a);
      SortOrdered(b);
      OrderedUnique(Sort(a), Sort(b));
    }
  }
}
