/**
  The imperative side of the state image: the writer that pushes field after
  field, and the reader that moves over the bytes it has left.
*/
module ImageCoding {
  import opened Bytes
  import opened CeremonyState
  import opened StateImage

  // ---------------------------------------------------------------- writing

  lemma {:induction false} PutManyAppends<T>(put: T -> Bytes, xs: seq<T>, x: T)
    ensures PutMany(put, xs + [x]) == PutMany(put, xs) + put(x)
  {
    if xs == [] {
      assert xs + [x] == [x];
      assert PutMany(put, [x]) == put(x) + PutMany(put, [x][1..]);
    } else {
      assert (xs + [x])[1..] == xs[1..] + [x];
      PutManyAppends(put, xs[1..], x);
    }
  }

  method PushList<T>(image: Bytes, put: T -> Bytes, xs: seq<T>) returns (out: Bytes)
    ensures out == image + PutList(put, xs)
  {
    out := image + PutCount(|xs|);
    for i := 0 to |xs|
      invariant out == image + (PutCount(|xs|) + PutMany(put, xs[..i]))
    {
      PutManyAppends(put, xs[..i], xs[i]);
      assert xs[..i + 1] == xs[..i] + [xs[i]];
      out := out + put(xs[i]);
    }
    assert xs[..|xs|] == xs;
  }

  method PushHeader(s: BootstrapState) returns (out: Bytes)
    ensures out == PutHeader(s, [])
  {
    hide PutOption, PutFlag, Ascii;
    out := STATE_DOMAIN + [s.step.Number()] + PutFlag(s.aborted) + [ProductionCode(s.production)];
    out := out + s.organizationId + s.chainId + PutOption(PutHash, s.ceremonyMachine);
  }

  method PushRootSection(image: Bytes, s: BootstrapState) returns (out: Bytes)
    ensures out == image + PutRootSection(s, [])
  {
    out := image + PutOption(PutRoot, s.root);
    out := PushList(out, PutPair, s.adminPairs);
  }

  method PushSealSection(image: Bytes, s: BootstrapState) returns (out: Bytes)
    ensures out == image + PutSealSection(s, [])
  {
    out := image + PutOption(PutSlice, s.exactPreAnchor) + PutOption(PutHash, s.sealedFingerprint);
    out := PushList(out, PutId, s.sealedMedia);
  }

  method PushKeySection(image: Bytes, s: BootstrapState) returns (out: Bytes)
    ensures out == image + PutKeySection(s, [])
  {
    out := image + PutOption(PutOuterKey, s.recoveryKem) + PutOption(PutOuterKey, s.hgaSigning);
    out := PushList(out, PutOuterKey, s.approvers);
  }

  method PushCustodySection(image: Bytes, s: BootstrapState) returns (out: Bytes)
    ensures out == image + PutCustodySection(s, [])
  {
    hide PutList, PutFlag;
    out := PushList(image, PutBackup, s.backups);
    out := PushList(out, PutComponent, s.components);
    out := out + PutFlag(s.fingerprintsCompared);
    out := PushList(out, PutHash, s.publishedTargets);
  }

  method PushClosingSection(image: Bytes, s: BootstrapState) returns (out: Bytes)
    ensures out == image + PutClosingSection(s, [])
  {
    hide PutOption;
    out := image + PutOption(PutHash, s.genesisEntryHash) + PutOption(PutSlice, s.exactFinalAnchor);
    out := out + PutOption(PutSigned, SignedOf(s.transcript)) + PutOption(PutHash, s.recoveryTestMachine);
  }

  /** `persisted_image`: the pushed bytes are exactly the image. */
  method PersistedImage(s: BootstrapState) returns (image: Bytes)
    ensures image == Image(s)
  {
    hide PutHeader, PutRootSection, PutSealSection, PutKeySection, PutCustodySection, PutClosingSection;
    image := PushHeader(s);
    image := PushRootSection(image, s);
    image := PushSealSection(image, s);
    image := PushKeySection(image, s);
    image := PushCustodySection(image, s);
    image := PushClosingSection(image, s);
    PutStateAppends(s, []);
  }

  // ---------------------------------------------------------------- reading

  /** A reader consumes at least one byte for every value it yields. */
  ghost predicate Consuming<T>(read: Bytes -> Parse<T>) {
    forall b: Bytes :: read(b).Parsed? ==> |read(b).rest| < |b|
  }

  /** Never moves backwards. */
  ghost predicate Forward<T>(read: Bytes -> Parse<T>) {
    forall b: Bytes :: read(b).Parsed? ==> |read(b).rest| <= |b|
  }

  class ImageReader {
    const image: Bytes
    var rest: Bytes
    /** The list elements pushed so far, in every list together. */
    ghost var built: nat

    /** What was pushed never exceeds what was consumed, whatever counts the image claims. */
    ghost predicate Budget()
      reads this
    {
      built + |rest| <= |image|
    }

    /** The outcome of a move agrees with the pure reader. */
    ghost predicate Moved<T>(p: Parse<T>, r: Option<T>)
      reads this
    {
      match p
      case Malformed => r.None?
      case Parsed(x, t) => r == Some(x) && rest == t
    }

    constructor (image: Bytes)
      ensures this.image == image && rest == image && built == 0 && Budget()
    {
      this.image := image;
      rest := image;
      built := 0;
    }

    /** One length-checked move. */
    method Next<T>(read: Bytes -> Parse<T>) returns (r: Option<T>)
      requires Budget() && Forward(read)
      modifies this`rest
      ensures Budget() && |rest| <= |old(rest)| && Moved(read(old(rest)), r)
    {
      var p := read(rest);
      if p.Malformed? {
        return None;
      }
      rest := p.rest;
      return Some(p.value);
    }

    /** A counted list: every element is read before it is pushed. */
    method List<T>(read: Bytes -> Parse<T>) returns (r: Option<seq<T>>)
      requires Budget() && Consuming(read)
      modifies this
      ensures Budget() && |rest| <= |old(rest)| && built + |rest| <= old(built + |rest|)
      ensures Moved(ReadList(read, old(rest)), r)
      ensures r.Some? ==> built == old(built) + |r.value|
    {
      hide Partly;
      var n :- Next(ReadCount);
      var xs := [];
      ghost var start := rest;
      PartlyStarts(read, n, rest);
      while |xs| < n
        invariant |xs| <= n && built == old(built) + |xs|
        invariant Budget() && |rest| <= |start| && built + |rest| <= old(built + |rest|)
        invariant Partly(read, n, start, xs, rest)
        decreases n - |xs|
      {
        PartlyAdvances(read, n, start, xs, rest);
        var x :- Next(read);
        xs := xs + [x];
        built := built + 1;
      }
      PartlyEnds(read, n, start, xs, rest);
      return Some(xs);
    }

    /** The backups: a list whose elements carry a list of their own. */
    method Backups() returns (r: Option<seq<KeyBackup>>)
      requires Budget()
      modifies this
      ensures Budget() && |rest| <= |old(rest)| && built + |rest| <= old(built + |rest|)
      ensures Moved(ReadList(ReadBackup, old(rest)), r)
    {
      hide Partly;
      var n :- Next(ReadCount);
      var xs := [];
      ghost var start := rest;
      PartlyStarts(ReadBackup, n, rest);
      while |xs| < n
        invariant |xs| <= n
        invariant Budget() && |rest| <= |start| && built + |rest| <= old(built + |rest|)
        invariant Partly(ReadBackup, n, start, xs, rest)
        decreases n - |xs|
      {
        PartlyAdvances(ReadBackup, n, start, xs, rest);
        var x :- Backup();
        xs := xs + [x];
      }
      PartlyEnds(ReadBackup, n, start, xs, rest);
      return Some(xs);
    }

    method Backup() returns (r: Option<KeyBackup>)
      requires Budget()
      modifies this
      ensures Budget() && |rest| <= |old(rest)| && built + |rest| <= old(built + |rest|)
      ensures Moved(ReadBackup(old(rest)), r)
    {
      var class_ :- Next(ReadClass);
      var thumbprint :- Next(ReadHash);
      var media :- List(ReadId);
      built := built + 1;
      return Some(KeyBackup(class_, thumbprint, media));
    }

    method Domain() returns (r: Option<bool>)
      requires Budget()
      modifies this`rest
      ensures Budget() && |rest| <= |old(rest)|
      ensures match ReadTake(|STATE_DOMAIN|, old(rest))
              case Malformed => r.None?
              case Parsed(d, t) => r == Some(d == STATE_DOMAIN) && rest == t
    {
      var domain :- Next(b => ReadTake(|STATE_DOMAIN|, b));
      return Some(domain == STATE_DOMAIN);
    }

    method Header() returns (r: Option<BootstrapState>)
      requires Budget()
      modifies this
      ensures Budget() && |rest| <= |old(rest)| && Moved(ReadHeader(old(rest)), r)
    {
      hide ReadOption, ReadStep, ReadProduction;
      OptionHashForward();
      var domain :- Domain();
      if !domain {
        return None;
      }
      var step :- Next(ReadStep);
      var aborted :- Next(ReadFlag);
      var production :- Next(ReadProduction);
      var organization :- Next(ReadId);
      var chain :- Next(ReadId);
      var machine :- Next(b => ReadOption(ReadHash, b));
      return Some(Fresh(organization, chain, machine).(step := step, aborted := aborted, production := production));
    }

    method RootSection(s: BootstrapState) returns (r: Option<BootstrapState>)
      requires Budget()
      modifies this
      ensures Budget() && |rest| <= |old(rest)| && Moved(ReadRootSection(s, old(rest)), r)
    {
      RecordsConsume();
      var root :- Next(b => ReadOption(ReadRoot, b));
      var pairs :- List(ReadPair);
      return Some(s.(root := root, adminPairs := pairs));
    }

    method SealSection(s: BootstrapState) returns (r: Option<BootstrapState>)
      requires Budget()
      modifies this
      ensures Budget() && |rest| <= |old(rest)| && Moved(ReadSealSection(s, old(rest)), r)
    {
      var pre :- Next(b => ReadOption(ReadSlice, b));
      var fingerprint :- Next(b => ReadOption(ReadHash, b));
      var media :- List(ReadId);
      return Some(s.(exactPreAnchor := pre, sealedFingerprint := fingerprint, sealedMedia := media));
    }

    method KeySection(s: BootstrapState) returns (r: Option<BootstrapState>)
      requires Budget()
      modifies this
      ensures Budget() && |rest| <= |old(rest)| && Moved(ReadKeySection(s, old(rest)), r)
    {
      RecordsConsume();
      var kem :- Next(b => ReadOption(ReadOuterKey, b));
      var hga :- Next(b => ReadOption(ReadOuterKey, b));
      var approvers :- List(ReadOuterKey);
      return Some(s.(recoveryKem := kem, hgaSigning := hga, approvers := approvers));
    }

    method CustodySection(s: BootstrapState) returns (r: Option<BootstrapState>)
      requires Budget()
      modifies this
      ensures Budget() && |rest| <= |old(rest)| && Moved(ReadCustodySection(s, old(rest)), r)
    {
      RecordsConsume();
      var backups :- Backups();
      var components :- List(ReadComponent);
      var compared :- Next(ReadFlag);
      var targets :- List(ReadHash);
      return Some(s.(backups := backups, components := components, fingerprintsCompared := compared,
        publishedTargets := targets));
    }

    method ClosingSection(s: BootstrapState) returns (r: Option<BootstrapState>)
      requires Budget()
      modifies this
      ensures Budget() && |rest| <= |old(rest)| && Moved(ReadClosingSection(s, old(rest)), r)
    {
      RecordsConsume();
      var genesis :- Next(b => ReadOption(ReadHash, b));
      var anchor :- Next(b => ReadOption(ReadSlice, b));
      var signed :- Next(b => ReadOption(ReadSigned, b));
      var machine :- Next(b => ReadOption(ReadHash, b));
      var filled := s.(genesisEntryHash := genesis, exactFinalAnchor := anchor, recoveryTestMachine := machine);
      if signed.None? {
        return Some(filled.(transcript := None));
      }
      if filled.root.None? || filled.sealedFingerprint.None?
        || StateTranscriptBytes(filled) != signed.value.exactBytes {
        return None;
      }
      return Some(filled.(transcript := Some(Reconstructed(filled, signed.value))));
    }
  }

  lemma OptionHashForward()
    ensures Forward((b: Bytes) => ReadOption(ReadHash, b)) && Forward(ReadStep) && Forward(ReadProduction)
  {
  }

  lemma HandleForward(b: Bytes)
    requires ReadHandle(b).Parsed?
    ensures |ReadHandle(b).rest| < |b|
  {
  }

  lemma RootForward(b: Bytes)
    requires ReadRoot(b).Parsed?
    ensures |ReadRoot(b).rest| < |b|
  {
    hide ReadHandle;
    HandleForward(b);
  }

  lemma OuterKeyForward(b: Bytes)
    requires ReadOuterKey(b).Parsed?
    ensures |ReadOuterKey(b).rest| < |b|
  {
    hide ReadHandle;
    HandleForward(b);
  }

  lemma SignedForward(b: Bytes)
    requires ReadSigned(b).Parsed?
    ensures |ReadSigned(b).rest| < |b|
  {
  }

  lemma RecordsConsume()
    ensures Consuming(ReadPair) && Consuming(ReadOuterKey) && Consuming(ReadComponent)
    ensures Forward((b: Bytes) => ReadOption(ReadRoot, b))
    ensures Forward((b: Bytes) => ReadOption(ReadOuterKey, b))
    ensures Forward((b: Bytes) => ReadOption(ReadSigned, b))
  {
    hide ReadRoot, ReadOuterKey, ReadSigned;
    forall b: Bytes | ReadOuterKey(b).Parsed? { OuterKeyForward(b); }
    forall b: Bytes | ReadRoot(b).Parsed? { RootForward(b); }
    forall b: Bytes | ReadSigned(b).Parsed? { SignedForward(b); }
  }

  /** `decode_image`: the fields, with at most one list element pushed per byte of the image. */
  method DecodeImage(image: Bytes) returns (r: Option<BootstrapState>, ghost built: nat)
    ensures r == Decoded(image)
    ensures built <= |image|
  {
    hide ReadHeader, ReadRootSection, ReadSealSection, ReadKeySection, ReadCustodySection, ReadClosingSection;
    var reader := new ImageReader(image);
    r := reader.Header();
    if r.Some? {
      r := reader.RootSection(r.value);
    }
    if r.Some? {
      r := reader.SealSection(r.value);
    }
    if r.Some? {
      r := reader.KeySection(r.value);
    }
    if r.Some? {
      r := reader.CustodySection(r.value);
    }
    if r.Some? {
      r := reader.ClosingSection(r.value);
    }
    if r.Some? && reader.rest != [] {
      r := None;
    }
    built := reader.built;
  }

  /** `from_persisted_image`: decode, re-encode and compare. */
  method FromImage(image: Bytes) returns (r: Option<BootstrapState>)
    ensures r == FromPersistedImage(image)
  {
    ghost var built;
    r, built := DecodeImage(image);
    if r.Some? {
      var again := PersistedImage(r.value);
      if again != image {
        r := None;
      }
    }
  }

  /** `xs` has been read from `start`, and the rest of the `n` elements is still to come. */
  ghost predicate Partly<T>(read: Bytes -> Parse<T>, n: nat, start: Bytes, xs: seq<T>, rest: Bytes)
    requires |xs| <= n
  {
    ReadMany(read, n, start) ==
      match ReadMany(read, n - |xs|, rest)
      case Malformed => Malformed
      case Parsed(ys, t) => Parsed(xs + ys, t)
  }

  lemma PartlyStarts<T>(read: Bytes -> Parse<T>, n: nat, start: Bytes)
    ensures Partly(read, n, start, [], start)
  {
    var p := ReadMany(read, n, start);
    if p.Parsed? {
      assert [] + p.value == p.value;
    }
  }

  lemma PartlyAdvances<T>(read: Bytes -> Parse<T>, n: nat, start: Bytes, xs: seq<T>, rest: Bytes)
    requires |xs| < n && Partly(read, n, start, xs, rest)
    ensures match read(rest)
            case Malformed => ReadMany(read, n, start) == Malformed
            case Parsed(x, t) => Partly(read, n, start, xs + [x], t)
  {
    if read(rest).Parsed? {
      var p := ReadMany(read, n - |xs| - 1, read(rest).rest);
      if p.Parsed? {
        assert xs + ([read(rest).value] + p.value) == xs + [read(rest).value] + p.value;
      }
    }
  }

  lemma PartlyEnds<T>(read: Bytes -> Parse<T>, n: nat, start: Bytes, xs: seq<T>, rest: Bytes)
    requires |xs| == n && Partly(read, n, start, xs, rest)
    ensures ReadMany(read, n, start) == Parsed(xs, rest)
  {
    assert xs + [] == xs;
  }
}
