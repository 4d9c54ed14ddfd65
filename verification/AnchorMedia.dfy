/**
  Confirmation on recovery media: write the exact bytes to every medium, then
  read every medium back. The port is adversarial: each operation may fail,
  store something else, or report something else.
*/
module AnchorMedia {
  import opened Bytes
  import opened Trust

  /** How the port treats one operation. */
  datatype Behaviour = Faithful | Broken | Substituted(bytes: Bytes)

  datatype MediaEvent = Wrote(medium: Id16, given: Bytes) | ReadBack(medium: Id16, reported: Bytes)

  datatype Media = Media(contents: map<Id16, Bytes>, script: seq<Behaviour>, log: seq<MediaEvent>) {
    function Next(): Behaviour {
      if script == [] then Faithful else script[0]
    }

    function Rest(): seq<Behaviour> {
      if script == [] then [] else script[1..]
    }

    function Write(medium: Id16, bytes: Bytes): (Media, Outcome<()>) {
      match Next()
      case Broken => (Media(contents, Rest(), log), Err(MediaUnavailable))
      case Faithful => (Media(contents[medium := bytes], Rest(), log + [Wrote(medium, bytes)]), Ok(()))
      case Substituted(b) => (Media(contents[medium := b], Rest(), log + [Wrote(medium, bytes)]), Ok(()))
    }

    function Read(medium: Id16): (Media, Outcome<Bytes>) {
      match Next()
      case Broken => (Media(contents, Rest(), log), Err(MediaUnavailable))
      case Faithful =>
        if medium !in contents then (Media(contents, Rest(), log), Err(MediaUnavailable))
        else (Media(contents, Rest(), log + [ReadBack(medium, contents[medium])]), Ok(contents[medium]))
      case Substituted(b) => (Media(contents, Rest(), log + [ReadBack(medium, b)]), Ok(b))
    }
  }

  function WriteAll(m: Media, ids: seq<Id16>, bytes: Bytes): (Media, Outcome<()>)
    decreases |ids|
  {
    if ids == [] then (m, Ok(()))
    else
      var (m1, r) := m.Write(ids[0], bytes);
      if r.Err? then (m1, r) else WriteAll(m1, ids[1..], bytes)
  }

  function ReadAllBack(m: Media, ids: seq<Id16>, bytes: Bytes): (Media, Outcome<()>)
    decreases |ids|
  {
    if ids == [] then (m, Ok(()))
    else
      var (m1, r) := m.Read(ids[0]);
      if r.Err? then (m1, Err(r.error))
      else if r.value != bytes then (m1, Err(MediaReadbackMismatch))
      else ReadAllBack(m1, ids[1..], bytes)
  }

  function Elements<T(==)>(s: seq<T>): set<T> {
    set x <- s
  }

  predicate NoDuplicates<T(==)>(s: seq<T>) {
    forall i, j :: 0 <= i < j < |s| ==> s[i] != s[j]
  }

  /** `confirm_on_media`: bind, count, write everything, read everything back. */
  function ConfirmOnMedia(
    t: TrustFormat, m: Media, ids: seq<Id16>, bytes: Bytes, c: SecondChannelConfirmation): (Media, Outcome<()>) {
    if t.Fingerprint(c.image, bytes) != c.fingerprint then (m, Err(SecondChannelMismatch))
    else if |ids| < 2 || !NoDuplicates(ids) then (m, Err(MediaQuorumMissing))
    else
      var (m1, r) := WriteAll(m, ids, bytes);
      if r.Err? then (m1, r) else ReadAllBack(m1, ids, bytes)
  }

  // ------------------------------------------------------------- properties

  function WriteEvents(ids: seq<Id16>, bytes: Bytes): seq<MediaEvent> {
    if ids == [] then [] else [Wrote(ids[0], bytes)] + WriteEvents(ids[1..], bytes)
  }

  function ReadEvents(ids: seq<Id16>, bytes: Bytes): seq<MediaEvent> {
    if ids == [] then [] else [ReadBack(ids[0], bytes)] + ReadEvents(ids[1..], bytes)
  }

  lemma LogGrows(log: seq<MediaEvent>, e: MediaEvent, rest: seq<MediaEvent>)
    ensures (log + [e]) + rest == log + ([e] + rest)
  {
  }

  lemma {:induction false} WriteAllLog(m: Media, ids: seq<Id16>, bytes: Bytes)
    requires WriteAll(m, ids, bytes).1.Ok?
    ensures WriteAll(m, ids, bytes).0.log == m.log + WriteEvents(ids, bytes)
    decreases |ids|
  {
    if ids != [] {
      var m1 := m.Write(ids[0], bytes).0;
      WriteAllLog(m1, ids[1..], bytes);
      LogGrows(m.log, Wrote(ids[0], bytes), WriteEvents(ids[1..], bytes));
    }
  }

  lemma {:induction false} WriteAllScript(m: Media, ids: seq<Id16>, bytes: Bytes)
    requires WriteAll(m, ids, bytes).1.Ok?
    ensures WriteAll(m, ids, bytes).0.script == if |ids| <= |m.script| then m.script[|ids|..] else []
    decreases |ids|
  {
    if ids != [] {
      WriteAllScript(m.Write(ids[0], bytes).0, ids[1..], bytes);
    }
  }

  lemma {:induction false} WriteAllFrame(m: Media, ids: seq<Id16>, bytes: Bytes)
    requires WriteAll(m, ids, bytes).1.Ok?
    ensures forall x :: x !in ids ==> (x in WriteAll(m, ids, bytes).0.contents <==> x in m.contents)
    ensures forall x :: x !in ids && x in m.contents ==> WriteAll(m, ids, bytes).0.contents[x] == m.contents[x]
    decreases |ids|
  {
    if ids != [] {
      WriteAllFrame(m.Write(ids[0], bytes).0, ids[1..], bytes);
    }
  }

  lemma {:induction false} ReadAllLog(m: Media, ids: seq<Id16>, bytes: Bytes)
    requires ReadAllBack(m, ids, bytes).1.Ok?
    ensures ReadAllBack(m, ids, bytes).0.log == m.log + ReadEvents(ids, bytes)
    decreases |ids|
  {
    if ids == [] {
      assert m.log + [] == m.log;
    } else {
      var m1 := m.Read(ids[0]).0;
      ReadAllLog(m1, ids[1..], bytes);
      LogGrows(m.log, ReadBack(ids[0], bytes), ReadEvents(ids[1..], bytes));
    }
  }

  lemma {:induction false} ReadingChangesNothing(m: Media, ids: seq<Id16>, bytes: Bytes)
    ensures ReadAllBack(m, ids, bytes).0.contents == m.contents
    decreases |ids|
  {
    if ids != [] && m.Read(ids[0]).1 == Ok(bytes) {
      ReadingChangesNothing(m.Read(ids[0]).0, ids[1..], bytes);
    }
  }

  lemma {:induction false} HonestReads(m: Media, ids: seq<Id16>, bytes: Bytes)
    requires ReadAllBack(m, ids, bytes).1.Ok?
    requires forall f <- m.script :: !f.Substituted?
    ensures forall x <- ids :: x in m.contents && m.contents[x] == bytes
    decreases |ids|
  {
    if ids != [] {
      HonestReads(m.Read(ids[0]).0, ids[1..], bytes);
    }
  }

  /**
    A confirmation over any port: at least two distinct media each reported the
    exact bytes back, the fingerprint is the one of these bytes, and every write
    came before the first read.
  */
  lemma ConfirmedMeansReadBack(t: TrustFormat, m: Media, ids: seq<Id16>, bytes: Bytes, c: SecondChannelConfirmation)
    requires ConfirmOnMedia(t, m, ids, bytes, c).1.Ok?
    ensures c.fingerprint == t.Fingerprint(c.image, bytes)
    ensures |ids| >= 2 && NoDuplicates(ids)
    ensures ConfirmOnMedia(t, m, ids, bytes, c).0.log == m.log + WriteEvents(ids, bytes) + ReadEvents(ids, bytes)
  {
    WriteAllLog(m, ids, bytes);
    ReadAllLog(WriteAll(m, ids, bytes).0, ids, bytes);
  }

  /**
    If in addition the port does not lie when it reads, exactly the named media
    now hold the bytes, even when the writes were free to store anything.
  */
  lemma ConfirmedMeansHeld(t: TrustFormat, m: Media, ids: seq<Id16>, bytes: Bytes, c: SecondChannelConfirmation)
    requires ConfirmOnMedia(t, m, ids, bytes, c).1.Ok?
    requires forall k :: |ids| <= k < |m.script| ==> !m.script[k].Substituted?
    ensures var held := ConfirmOnMedia(t, m, ids, bytes, c).0.contents;
            held == map x | x in m.contents.Keys + Elements(ids) :: if x in ids then bytes else m.contents[x]
  {
    var m1 := WriteAll(m, ids, bytes).0;
    WriteAllScript(m, ids, bytes);
    WriteAllFrame(m, ids, bytes);
    HonestReads(m1, ids, bytes);
    ReadingChangesNothing(m1, ids, bytes);
  }

  /** A confirmation that fails before its writes leaves every medium alone. */
  lemma RefusedBeforeWriting(t: TrustFormat, m: Media, ids: seq<Id16>, bytes: Bytes, c: SecondChannelConfirmation)
    ensures var (after, r) := ConfirmOnMedia(t, m, ids, bytes, c);
            r == Err(SecondChannelMismatch) || r == Err(MediaQuorumMissing) ==> after == m
  {
    if ConfirmOnMedia(t, m, ids, bytes, c).1.Err? {
      ErrorsOfThePort(m, ids, bytes);
      ErrorsOfTheReadBack(WriteAll(m, ids, bytes).0, ids, bytes);
    }
  }

  lemma {:induction false} ErrorsOfThePort(m: Media, ids: seq<Id16>, bytes: Bytes)
    ensures WriteAll(m, ids, bytes).1 in {Ok(()), Err(MediaUnavailable)}
    decreases |ids|
  {
    if ids != [] && m.Write(ids[0], bytes).1.Ok? {
      ErrorsOfThePort(m.Write(ids[0], bytes).0, ids[1..], bytes);
    }
  }

  lemma {:induction false} ErrorsOfTheReadBack(m: Media, ids: seq<Id16>, bytes: Bytes)
    ensures ReadAllBack(m, ids, bytes).1 in {Ok(()), Err(MediaUnavailable), Err(MediaReadbackMismatch)}
    decreases |ids|
  {
    if ids != [] && m.Read(ids[0]).1 == Ok(bytes) {
      ErrorsOfTheReadBack(m.Read(ids[0]).0, ids[1..], bytes);
    }
  }

  lemma {:induction false} FaithfulWrites(m: Media, ids: seq<Id16>, bytes: Bytes)
    requires m.script == []
    ensures var (m1, r) := WriteAll(m, ids, bytes);
            r.Ok? && m1.script == [] && (forall x <- ids :: x in m1.contents && m1.contents[x] == bytes)
            && (forall x | x in m.contents && m.contents[x] == bytes :: x in m1.contents && m1.contents[x] == bytes)
    decreases |ids|
  {
    if ids != [] {
      FaithfulWrites(m.Write(ids[0], bytes).0, ids[1..], bytes);
    }
  }

  lemma {:induction false} FaithfulReads(m: Media, ids: seq<Id16>, bytes: Bytes)
    requires m.script == [] && forall x <- ids :: x in m.contents && m.contents[x] == bytes
    ensures ReadAllBack(m, ids, bytes).1.Ok?
    decreases |ids|
  {
    if ids != [] {
      FaithfulReads(m.Read(ids[0]).0, ids[1..], bytes);
    }
  }

  /** On a faithful port nothing but the binding and the quorum can refuse. */
  lemma FaithfulPortConfirms(t: TrustFormat, m: Media, ids: seq<Id16>, bytes: Bytes, c: SecondChannelConfirmation)
    requires m.script == []
    ensures ConfirmOnMedia(t, m, ids, bytes, c).1.Ok? <==>
            t.Fingerprint(c.image, bytes) == c.fingerprint && |ids| >= 2 && NoDuplicates(ids)
  {
    FaithfulWrites(m, ids, bytes);
    FaithfulReads(WriteAll(m, ids, bytes).0, ids, bytes);
  }

  // --------------------------------------------------------- the mutable port

  class MediaPort {
    var media: Media

    constructor (media: Media)
      ensures this.media == media
    {
      this.media := media;
    }

    method Write(medium: Id16, bytes: Bytes) returns (r: Outcome<()>)
      modifies this
      ensures (media, r) == old(media).Write(medium, bytes)
    {
      var (m, outcome) := media.Write(medium, bytes);
      media := m;
      return outcome;
    }

    method Read(medium: Id16) returns (r: Outcome<Bytes>)
      modifies this
      ensures (media, r) == old(media).Read(medium)
    {
      var (m, outcome) := media.Read(medium);
      media := m;
      return outcome;
    }

    /** The two loops of `confirm_on_media`, over the port. */
    method Confirm(t: TrustFormat, ids: seq<Id16>, bytes: Bytes, c: SecondChannelConfirmation) returns (r: Outcome<()>)
      modifies this
      ensures (media, r) == ConfirmOnMedia(t, old(media), ids, bytes, c)
    {
      if t.Fingerprint(c.image, bytes) != c.fingerprint {
        return Err(SecondChannelMismatch);
      }
      var distinct := Elements(ids);
      DistinctCount(ids);
      if |distinct| < 2 || |distinct| != |ids| {
        return Err(MediaQuorumMissing);
      }
      for i := 0 to |ids|
        invariant WriteAll(media, ids[i..], bytes) == WriteAll(old(media), ids, bytes)
      {
        assert ids[i..][1..] == ids[i + 1..];
        var w := Write(ids[i], bytes);
        if w.Err? {
          return w;
        }
      }
      ghost var written := media;
      for i := 0 to |ids|
        invariant ReadAllBack(media, ids[i..], bytes) == ReadAllBack(written, ids, bytes)
      {
        assert ids[i..][1..] == ids[i + 1..];
        var b := Read(ids[i]);
        if b.Err? {
          return Err(b.error);
        }
        if b.value != bytes {
          return Err(MediaReadbackMismatch);
        }
      }
      return Ok(());
    }
  }

  /** Collecting into a set keeps the length exactly when nothing repeats. */
  lemma {:induction false} DistinctCount<T>(s: seq<T>)
    ensures |Elements(s)| <= |s|
    ensures |Elements(s)| == |s| <==> NoDuplicates(s)
  {
    if s != [] {
      var n := |s| - 1;
      var init, last := s[..n], s[n];
      assert s == init + [last];
      DistinctCount(init);
      assert Elements(s) == Elements(init) + {last};
      if NoDuplicates(s) {
        assert last !in init;
      } else if NoDuplicates(init) {
        assert last in init;
      } else {
        assert |Elements(s)| <= |Elements(init)| + 1;
      }
    }
  }
}
