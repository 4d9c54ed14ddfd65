/** The fingerprint a human reads out and types back: 32 pairs of hexadecimal digits. */
module Fingerprint {
  import opened Bytes

  const PAIR_COUNT := 32

  // -------------------------------------------------------------------- digits

  function HexChar(n: nat): char
    requires n < 16
  {
    if n < 10 then '0' + n as char else 'A' + (n - 10) as char
  }

  function HexValue(c: char): (r: Option<nat>)
    ensures r.Some? ==> r.value < 16
  {
    if '0' <= c <= '9' then Some((c - '0') as nat)
    else if 'A' <= c <= 'F' then Some((c - 'A') as nat + 10)
    else if 'a' <= c <= 'f' then Some((c - 'a') as nat + 10)
    else None
  }

  function Upper(c: char): char {
    if 'a' <= c <= 'f' then c - 'a' + 'A' else c
  }

  /** Printing and reading a digit are inverse up to case. */
  lemma DigitRoundTrip(n: nat, c: char)
    ensures n < 16 ==> HexValue(HexChar(n)) == Some(n) && Upper(HexChar(n)) == HexChar(n)
    ensures HexValue(c).Some? ==> HexChar(HexValue(c).value) == Upper(c)
  {
  }

  function PairText(b: byte): string {
    [HexChar(b / 16), HexChar(b % 16)]
  }

  function PairValue(high: char, low: char): Option<byte> {
    if HexValue(high).None? || HexValue(low).None? then None
    else Some(16 * HexValue(high).value + HexValue(low).value)
  }

  // ------------------------------------------------------- joining and splitting

  function Join(pieces: seq<string>): string {
    if pieces == [] then ""
    else if |pieces| == 1 then pieces[0]
    else pieces[0] + ":" + Join(pieces[1..])
  }

  function Split(s: string): (r: seq<string>)
    ensures r != []
  {
    if s == "" then [""]
    else
      var rest := Split(s[1..]);
      if s[0] == ':' then [""] + rest else [[s[0]] + rest[0]] + rest[1..]
  }

  lemma {:induction false} JoinSnoc(pieces: seq<string>, last: string)
    ensures Join(pieces + [last]) == if pieces == [] then last else Join(pieces) + ":" + last
  {
    if |pieces| > 1 {
      assert (pieces + [last])[1..] == pieces[1..] + [last];
      JoinSnoc(pieces[1..], last);
    } else if |pieces| == 1 {
      assert (pieces + [last])[1..] == [last];
    }
  }

  lemma {:induction false} SplitInverts(s: string)
    ensures Join(Split(s)) == s
    ensures forall p <- Split(s) :: ':' !in p
    decreases |s|
  {
    if s != "" {
      SplitInverts(s[1..]);
      var rest := Split(s[1..]);
      assert s == [s[0]] + s[1..];
      if s[0] == ':' {
        assert ([""] + rest)[1..] == rest;
      } else {
        var pieces := [[s[0]] + rest[0]] + rest[1..];
        assert pieces[1..] == rest[1..];
      }
    }
  }

  lemma {:induction false} SplitColonFree(s: string)
    requires ':' !in s
    ensures Split(s) == [s]
  {
    if s != "" {
      SplitColonFree(s[1..]);
      assert s == [s[0]] + s[1..];
    }
  }

  lemma {:induction false} SplitConcat(a: string, b: string)
    requires ':' !in a
    ensures Split(a + ":" + b) == [a] + Split(b)
  {
    if a == "" {
      assert (":" + b)[1..] == b;
      assert a + ":" + b == ":" + b;
    } else {
      SplitConcat(a[1..], b);
      var s := a + ":" + b;
      assert s[1..] == a[1..] + ":" + b && s[0] == a[0];
      var rest := Split(s[1..]);
      assert rest[0] == a[1..] && rest[1..] == Split(b);
      assert [a[0]] + a[1..] == a;
    }
  }

  lemma {:induction false} JoinInverts(pieces: seq<string>)
    requires pieces != [] && forall p <- pieces :: ':' !in p
    ensures Split(Join(pieces)) == pieces
  {
    if |pieces| == 1 {
      SplitColonFree(pieces[0]);
    } else {
      JoinInverts(pieces[1..]);
      SplitConcat(pieces[0], Join(pieces[1..]));
    }
  }

  predicate AllPairs(pieces: seq<string>) {
    pieces != [] && forall i :: 0 <= i < |pieces| ==> |pieces[i]| == 2
  }

  lemma {:induction false} JoinLength(pieces: seq<string>)
    requires AllPairs(pieces)
    ensures |Join(pieces)| == 3 * |pieces| - 1
  {
    if |pieces| > 1 {
      JoinLength(pieces[1..]);
    }
  }

  lemma {:induction false} JoinSuffix(pieces: seq<string>, i: nat)
    requires AllPairs(pieces) && i < |pieces|
    ensures 3 * i <= |Join(pieces)| && Join(pieces)[3 * i..] == Join(pieces[i..])
  {
    JoinLength(pieces);
    if i == 0 {
      assert pieces[0..] == pieces;
    } else {
      JoinSuffix(pieces, i - 1);
      var tail := pieces[i - 1..];
      assert tail[1..] == pieces[i..];
      assert Join(tail) == tail[0] + ":" + Join(tail[1..]);
      assert Join(pieces)[3 * (i - 1)..][3..] == Join(pieces)[3 * i..];
    }
  }

  /** Where the characters of pairs end up. */
  lemma JoinOfPairs(pieces: seq<string>, i: nat)
    requires AllPairs(pieces) && i < |pieces|
    ensures |Join(pieces)| == 3 * |pieces| - 1
    ensures Join(pieces)[3 * i..3 * i + 2] == pieces[i]
    ensures i < |pieces| - 1 ==> Join(pieces)[3 * i + 2] == ':'
  {
    JoinLength(pieces);
    JoinSuffix(pieces, i);
    var tail := pieces[i..];
    JoinLength(tail);
    var from := Join(pieces)[3 * i..];
    assert Join(pieces)[3 * i..3 * i + 2] == from[..2];
    if i < |pieces| - 1 {
      assert Join(tail) == tail[0] + ":" + Join(tail[1..]);
      assert from[2] == Join(pieces)[3 * i + 2];
    }
  }

  // ------------------------------------------------------------ printing

  function Pairs(h: Bytes): seq<string> {
    if h == [] then [] else Pairs(h[..|h| - 1]) + [PairText(h[|h| - 1])]
  }

  method HumanReadable(h: Hash32) returns (out: string)
    ensures out == Join(Pairs(h))
  {
    out := "";
    for i := 0 to |h|
      invariant out == Join(Pairs(h[..i]))
    {
      assert h[..i + 1][..i] == h[..i];
      JoinSnoc(Pairs(h[..i]), PairText(h[i]));
      if i > 0 {
        PairsCount(h[..i]);
        out := out + ":";
      }
      out := out + PairText(h[i]);
    }
    assert h[..|h|] == h;
  }

  lemma {:induction false} PairsCount(h: Bytes)
    ensures |Pairs(h)| == |h|
    ensures forall i :: 0 <= i < |h| ==> Pairs(h)[i] == PairText(h[i])
  {
    if h != [] {
      PairsCount(h[..|h| - 1]);
    }
  }

  // ------------------------------------------------------------ the accepted forms

  /** 64 digits in a row. */
  predicate Compact(t: string) {
    |t| == 2 * PAIR_COUNT && forall i :: 0 <= i < |t| ==> HexValue(t[i]).Some?
  }

  /** 32 pairs of digits, a colon between any two. */
  predicate Separated(t: string) {
    |t| == 3 * PAIR_COUNT - 1 && forall i :: 0 <= i < |t| ==> if i % 3 == 2 then t[i] == ':' else HexValue(t[i]).Some?
  }

  predicate Accepted(t: string) {
    Compact(t) || Separated(t)
  }

  /** The j-th digit of an accepted text. */
  function DigitAt(t: string, j: nat): char
    requires Accepted(t) && j < 2 * PAIR_COUNT
  {
    if Compact(t) then t[j] else t[3 * (j / 2) + j % 2]
  }

  /** The digits of the i-th pair in either form. */
  lemma DigitsOfPair(t: string, i: nat)
    requires Accepted(t) && i < PAIR_COUNT
    ensures DigitAt(t, 2 * i) == (if Compact(t) then t[2 * i] else t[3 * i])
    ensures DigitAt(t, 2 * i + 1) == (if Compact(t) then t[2 * i + 1] else t[3 * i + 1])
  {
  }

  /** `h` is what the text says, digit by digit. */
  predicate Denotes(t: string, h: Hash32) {
    Accepted(t) && forall i :: 0 <= i < PAIR_COUNT ==> PairValue(DigitAt(t, 2 * i), DigitAt(t, 2 * i + 1)) == Some(h[i])
  }

  /** The text of a pair list with nothing but digits is separated, and its pieces are those pairs. */
  lemma SeparatedOfPieces(pieces: seq<string>)
    requires AllPairs(pieces) && |pieces| == PAIR_COUNT
    ensures |Join(pieces)| == 3 * PAIR_COUNT - 1
    ensures Separated(Join(pieces)) <==> forall i :: 0 <= i < PAIR_COUNT ==> PairValue(pieces[i][0], pieces[i][1]).Some?
    ensures forall i :: 0 <= i < PAIR_COUNT ==>
              && Join(pieces)[3 * i] == pieces[i][0]
              && Join(pieces)[3 * i + 1] == pieces[i][1]
  {
    var t := Join(pieces);
    JoinLength(pieces);
    forall i | 0 <= i < PAIR_COUNT
      ensures t[3 * i] == pieces[i][0] && t[3 * i + 1] == pieces[i][1] && (i < PAIR_COUNT - 1 ==> t[3 * i + 2] == ':')
    {
      JoinOfPairs(pieces, i);
      assert t[3 * i..3 * i + 2][0] == t[3 * i] && t[3 * i..3 * i + 2][1] == t[3 * i + 1];
    }
    if Separated(t) {
      forall i | 0 <= i < PAIR_COUNT
        ensures PairValue(pieces[i][0], pieces[i][1]).Some?
      {
        assert (3 * i) % 3 == 0 && (3 * i + 1) % 3 == 1;
      }
    }
    if forall i :: 0 <= i < PAIR_COUNT ==> PairValue(pieces[i][0], pieces[i][1]).Some? {
      forall k | 0 <= k < |t|
        ensures if k % 3 == 2 then t[k] == ':' else HexValue(t[k]).Some?
      {
        var i := k / 3;
        assert PairValue(pieces[i][0], pieces[i][1]).Some?;
        assert k == 3 * i || k == 3 * i + 1 || k == 3 * i + 2;
      }
    }
  }

  /** The i-th pair of a separated text. */
  function Piece(t: string, i: nat): string
    requires Separated(t) && i < PAIR_COUNT
  {
    t[3 * i..3 * i + 2]
  }

  function PiecesUpTo(t: string, n: nat): (r: seq<string>)
    requires Separated(t) && n <= PAIR_COUNT
    ensures |r| == n && forall i :: 0 <= i < n ==> r[i] == Piece(t, i)
  {
    if n == 0 then [] else PiecesUpTo(t, n - 1) + [Piece(t, n - 1)]
  }

  lemma ColonIsNoDigit()
    ensures HexValue(':').None?
  {
  }

  lemma PieceHasNoColon(t: string, i: nat)
    requires Separated(t) && i < PAIR_COUNT
    ensures |Piece(t, i)| == 2 && ':' !in Piece(t, i)
  {
    hide HexValue;
    var at := 3 * i;
    assert at % 3 == 0 && (at + 1) % 3 == 1;
    assert Piece(t, i) == t[at..at + 2];
    assert HexValue(t[at]).Some? && HexValue(t[at + 1]).Some?;
    ColonIsNoDigit();
  }

  /** The pairs of a separated text, joined again, are the text. */
  lemma PiecesJoin(t: string)
    requires Separated(t) && AllPairs(PiecesUpTo(t, PAIR_COUNT))
    ensures Join(PiecesUpTo(t, PAIR_COUNT)) == t
  {
    hide Join, HexValue;
    var pieces := PiecesUpTo(t, PAIR_COUNT);
    JoinLength(pieces);
    forall k | 0 <= k < |t|
      ensures Join(pieces)[k] == t[k]
    {
      var i := k / 3;
      JoinOfPairs(pieces, i);
      var pair := Join(pieces)[3 * i..3 * i + 2];
      assert pair == t[3 * i..3 * i + 2];
      assert pair[0] == Join(pieces)[3 * i] && pair[1] == Join(pieces)[3 * i + 1];
      assert pair[0] == t[3 * i] && pair[1] == t[3 * i + 1];
    }
  }

  /** A separated text splits into exactly its 32 pairs. */
  lemma SplitOfSeparated(t: string)
    requires Separated(t)
    ensures Split(t) == PiecesUpTo(t, PAIR_COUNT)
  {
    hide Join, Split, Piece, Separated;
    var pieces := PiecesUpTo(t, PAIR_COUNT);
    forall i | 0 <= i < PAIR_COUNT
      ensures |pieces[i]| == 2 && ':' !in pieces[i]
    {
      PieceHasNoColon(t, i);
    }
    PiecesJoin(t);
    JoinInverts(pieces);
  }

  // ------------------------------------------------------------------ parsing

  /** The characters `str::trim` removes: those with the Unicode White_Space property. */
  predicate IsSpace(c: char) {
    var n := c as int;
    || 0x09 <= n <= 0x0d || n == 0x20 || n == 0x85 || n == 0xa0 || n == 0x1680
    || 0x2000 <= n <= 0x200a || n == 0x2028 || n == 0x2029 || n == 0x202f || n == 0x205f || n == 0x3000
  }

  function TrimStart(s: string): string {
    if s != "" && IsSpace(s[0]) then TrimStart(s[1..]) else s
  }

  function TrimEnd(s: string): string {
    if s != "" && IsSpace(s[|s| - 1]) then TrimEnd(s[..|s| - 1]) else s
  }

  function Trim(s: string): string {
    TrimEnd(TrimStart(s))
  }

  method SplitText(s: string) returns (pieces: seq<string>)
    ensures pieces == Split(s)
  {
    pieces := [""];
    for i := |s| downto 0
      invariant pieces == Split(s[i..])
    {
      assert s[i..][1..] == s[i + 1..];
      if s[i] == ':' {
        pieces := [""] + pieces;
      } else {
        pieces := [[s[i]] + pieces[0]] + pieces[1..];
      }
    }
    assert s[0..] == s;
  }

  /** `hex::decode_to_slice` into 32 bytes. */
  method DecodeCompact(t: string) returns (r: Option<Bytes>)
    requires |t| == 2 * PAIR_COUNT
    ensures r.Some? <==> Compact(t)
    ensures r.Some? ==> |r.value| == PAIR_COUNT && forall i :: 0 <= i < PAIR_COUNT ==>
            PairValue(t[2 * i], t[2 * i + 1]) == Some(r.value[i])
  {
    var bytes: Bytes := [];
    for i := 0 to PAIR_COUNT
      invariant |bytes| == i && forall k :: 0 <= k < i ==> PairValue(t[2 * k], t[2 * k + 1]) == Some(bytes[k])
    {
      var one := PairValue(t[2 * i], t[2 * i + 1]);
      if one.None? {
        return None;
      }
      bytes := bytes + [one.value];
    }
    forall k | 0 <= k < |t|
      ensures HexValue(t[k]).Some?
    {
      assert k == 2 * (k / 2) || k == 2 * (k / 2) + 1;
      assert PairValue(t[2 * (k / 2)], t[2 * (k / 2) + 1]).Some?;
    }
    return Some(bytes);
  }

  method DecodePieces(pieces: seq<string>) returns (r: Option<Bytes>)
    requires |pieces| == PAIR_COUNT
    ensures r.Some? <==> AllPairs(pieces) && forall i :: 0 <= i < PAIR_COUNT ==>
            PairValue(pieces[i][0], pieces[i][1]).Some?
    ensures r.Some? ==> |r.value| == PAIR_COUNT && forall i :: 0 <= i < PAIR_COUNT ==>
            PairValue(pieces[i][0], pieces[i][1]) == Some(r.value[i])
  {
    var bytes: Bytes := [];
    for i := 0 to PAIR_COUNT
      invariant |bytes| == i && forall k :: 0 <= k < i ==>
                |pieces[k]| == 2 && PairValue(pieces[k][0], pieces[k][1]) == Some(bytes[k])
    {
      if |pieces[i]| != 2 {
        return None;
      }
      var one := PairValue(pieces[i][0], pieces[i][1]);
      if one.None? {
        return None;
      }
      bytes := bytes + [one.value];
    }
    return Some(bytes);
  }

  /** Exactly the two forms are accepted, between any white space, and the answer is what the digits say. */
  method ParseHumanReadable(text: string) returns (r: Option<Hash32>)
    ensures r.Some? <==> Accepted(Trim(text))
    ensures r.Some? ==> Denotes(Trim(text), r.value)
  {
    hide Trim, Split, Join, DigitAt, HexValue, PairValue;
    var t := Trim(text);
    var pieces := SplitText(t);
    SplitsWhenAccepted(t);
    if |pieces| == 1 && |pieces[0]| == 2 * PAIR_COUNT {
      OnlyPiece(t);
      var bytes := DecodeCompact(t);
      if bytes.None? {
        return None;
      }
      CompactDenotes(t, bytes.value);
      return Some(bytes.value);
    } else if |pieces| == PAIR_COUNT {
      var bytes := DecodePieces(pieces);
      if bytes.None? {
        UnreadablePieces(t);
        return None;
      }
      SeparatedDenotes(t, bytes.value);
      return Some(bytes.value);
    } else {
      return None;
    }
  }

  lemma OnlyPiece(t: string)
    requires |Split(t)| == 1
    ensures Split(t)[0] == t
  {
    SplitInverts(t);
  }

  lemma CompactDenotes(t: string, h: Hash32)
    requires Compact(t) && forall i :: 0 <= i < PAIR_COUNT ==> PairValue(t[2 * i], t[2 * i + 1]) == Some(h[i])
    ensures Denotes(t, h)
  {
    hide DigitAt, PairValue;
    forall i | 0 <= i < PAIR_COUNT
      ensures PairValue(DigitAt(t, 2 * i), DigitAt(t, 2 * i + 1)) == Some(h[i])
    {
      DigitsOfPair(t, i);
    }
  }

  lemma SeparatedDenotes(t: string, h: Hash32)
    requires |Split(t)| == PAIR_COUNT && AllPairs(Split(t))
    requires forall i :: 0 <= i < PAIR_COUNT ==> PairValue(Split(t)[i][0], Split(t)[i][1]) == Some(h[i])
    ensures Separated(t) && Denotes(t, h)
  {
    hide DigitAt, PairValue, Split, Join;
    SplitInverts(t);
    SeparatedOfPieces(Split(t));
    forall i | 0 <= i < PAIR_COUNT
      ensures PairValue(DigitAt(t, 2 * i), DigitAt(t, 2 * i + 1)) == Some(h[i])
    {
      DigitsOfPair(t, i);
    }
  }

  lemma UnreadablePieces(t: string)
    requires |Split(t)| == PAIR_COUNT
    requires AllPairs(Split(t)) ==> exists i :: 0 <= i < PAIR_COUNT && PairValue(Split(t)[i][0], Split(t)[i][1]).None?
    ensures !Accepted(t)
  {
    hide PairValue, Split, Join;
    SplitInverts(t);
    SplitsWhenAccepted(t);
    if AllPairs(Split(t)) {
      SeparatedOfPieces(Split(t));
    }
  }

  lemma SplitsWhenAccepted(t: string)
    ensures Compact(t) ==> Split(t) == [t]
    ensures Separated(t) ==> |Split(t)| == PAIR_COUNT && AllPairs(Split(t))
  {
    if Compact(t) {
      SplitColonFree(t);
    }
    if Separated(t) {
      SplitOfSeparated(t);
    }
  }

  // -------------------------------------------------------------- main results

  predicate AllSpace(s: string) {
    forall i :: 0 <= i < |s| ==> IsSpace(s[i])
  }

  lemma {:induction false} TrimRemovesOuterSpace(before: string, t: string, after: string)
    requires AllSpace(before) && AllSpace(after) && t != "" && !IsSpace(t[0]) && !IsSpace(t[|t| - 1])
    ensures Trim(before + t + after) == t
    decreases |before| + |after|
  {
    var s := before + t + after;
    if before != "" {
      assert s[1..] == before[1..] + t + after && s[0] == before[0];
      TrimRemovesOuterSpace(before[1..], t, after);
    } else {
      assert s == t + after && s[0] == t[0];
      TrimEndRemovesSpace(t, after);
    }
  }

  lemma {:induction false} TrimEndRemovesSpace(t: string, after: string)
    requires AllSpace(after) && t != "" && !IsSpace(t[|t| - 1])
    ensures TrimEnd(t + after) == t
    decreases |after|
  {
    if after == "" {
      assert t + after == t;
    } else {
      var n := |after| - 1;
      assert (t + after)[..|t| + n] == t + after[..n];
      TrimEndRemovesSpace(t, after[..n]);
    }
  }

  /** A printed fingerprint has the separated form, and its digits are those of the hash. */
  lemma PrintedDenotes(h: Hash32)
    ensures Separated(Join(Pairs(h))) && Denotes(Join(Pairs(h)), h)
  {
    hide Join, Split, DigitAt;
    PairsCount(h);
    forall i | 0 <= i < PAIR_COUNT
      ensures PairValue(Pairs(h)[i][0], Pairs(h)[i][1]) == Some(h[i])
    {
      DigitRoundTrip(h[i] / 16, '0');
      DigitRoundTrip(h[i] % 16, '0');
    }
    SeparatedOfPieces(Pairs(h));
    var t := Join(Pairs(h));
    forall i | 0 <= i < PAIR_COUNT
      ensures PairValue(DigitAt(t, 2 * i), DigitAt(t, 2 * i + 1)) == Some(h[i])
    {
      DigitsOfPair(t, i);
    }
  }

  /** A text denotes at most one hash. */
  lemma DenotesOne(t: string, g: Hash32, h: Hash32)
    requires Denotes(t, g) && Denotes(t, h)
    ensures g == h
  {
    forall i | 0 <= i < PAIR_COUNT
      ensures g[i] == h[i]
    {
      assert PairValue(DigitAt(t, 2 * i), DigitAt(t, 2 * i + 1)) == Some(h[i]);
    }
  }

  /** What was printed, with any white space around it, is accepted and denotes the printed hash and no other. */
  lemma PrintThenParse(before: string, h: Hash32, after: string, g: Hash32)
    requires AllSpace(before) && AllSpace(after)
    ensures Accepted(Trim(before + Join(Pairs(h)) + after))
    ensures Denotes(Trim(before + Join(Pairs(h)) + after), g) <==> g == h
  {
    hide Join, Pairs, Trim, DigitAt;
    PrintedDenotes(h);
    var t := Join(Pairs(h));
    assert HexValue(t[0]).Some? && HexValue(t[|t| - 1]).Some? by {
      assert 0 % 3 != 2 && (|t| - 1) % 3 != 2;
    }
    TrimRemovesOuterSpace(before, t, after);
    if Denotes(t, g) {
      DenotesOne(t, g, h);
    }
  }

  /** Printing what a text denotes gives its canonical form: the same digits in upper case, pair by pair. */
  lemma ParseThenPrint(t: string, h: Hash32, i: nat)
    requires Denotes(t, h) && i < PAIR_COUNT
    ensures Separated(Join(Pairs(h)))
    ensures Join(Pairs(h))[3 * i] == Upper(DigitAt(t, 2 * i))
    ensures Join(Pairs(h))[3 * i + 1] == Upper(DigitAt(t, 2 * i + 1))
  {
    hide Join, DigitAt;
    PrintedDenotes(h);
    PairsCount(h);
    SeparatedOfPieces(Pairs(h));
    var high, low := DigitAt(t, 2 * i), DigitAt(t, 2 * i + 1);
    assert PairValue(high, low) == Some(h[i]);
    DigitRoundTrip(0, high);
    DigitRoundTrip(0, low);
    assert h[i] / 16 == HexValue(high).value && h[i] % 16 == HexValue(low).value;
  }
}
