/**
  The flat, length-prefixed byte image of the ceremony state, its reader, and
  the proof that the two are a faithful code.
*/
module StateImage {
  import opened Bytes
  import opened CeremonyState

  // ---------------------------------------------------------------- writing

  const MAX_COUNT := 0xFFFF_FFFF

  function BigEndian(n: nat): (r: Bytes)
    requires n <= MAX_COUNT
    ensures |r| == 4
  {
    [n / 256 / 256 / 256, n / 256 / 256 % 256, n / 256 % 256, n % 256]
  }

  function FromBigEndian(b: Bytes): (n: nat)
    requires |b| == 4
    ensures n <= MAX_COUNT
  {
    var high: int := b[0] as int;
    ((high * 256 + b[1]) * 256 + b[2]) * 256 + b[3]
  }

  /** A count saturates at the largest 32-bit value. */
  function PutCount(n: nat): Bytes {
    BigEndian(Min(n, MAX_COUNT))
  }

  function PutFlag(f: bool): Bytes {
    if f then [1] else [0]
  }

  function PutSlice(b: Bytes): Bytes {
    PutCount(|b|) + b
  }

  function PutHash(h: Hash32): Bytes { h }

  function PutId(h: Id16): Bytes { h }

  function PutOption<T>(put: T -> Bytes, o: Option<T>): Bytes {
    match o
    case None => [0]
    case Some(x) => [1] + put(x)
  }

  function PutMany<T>(put: T -> Bytes, xs: seq<T>): Bytes {
    if xs == [] then [] else put(xs[0]) + PutMany(put, xs[1..])
  }

  function PutList<T>(put: T -> Bytes, xs: seq<T>): Bytes {
    PutCount(|xs|) + PutMany(put, xs)
  }

  const STATE_DOMAIN := Ascii("EINSATZARCHIV-BOOTSTRAP-STATE-v1")
  const TRANSCRIPT_DOMAIN := Ascii("EINSATZARCHIV-BOOTSTRAP-TRANSCRIPT-v1")
  const APPLICATION_NAMESPACE := Ascii("de.einsatzarchiv.writer")

  function ProviderCode(p: KeystoreProvider): byte {
    match p case OperatingSystem => 0 case InMemory => 1
  }

  function PurposeCode(p: SecretPurpose): byte {
    match p
    case WriterSigningKey => 0
    case OperatorInstanceKey => 1
    case DraftDek => 2
    case LocalDatabaseKey => 3
  }

  function RoleCode(r: OperatorRole): byte {
    match r case Writer => 0 case Reader => 1 case OrganizationAdmin => 2
  }

  function ClassCode(c: BackedUpKeyClass): byte {
    match c
    case RootClass => 0
    case AdminClass => 1
    case RecoveryKemClass => 2
    case HistoricalGrantAuthorityClass => 3
  }

  function ProductionCode(p: ProductionState): byte {
    match p case BlockedRecoveryTest => 0 case Ready => 1
  }

  function PutHandle(h: KeyHandle): Bytes {
    [ProviderCode(h.provider)] + (PutSlice(APPLICATION_NAMESPACE)
      + (h.accountInstance + ([PurposeCode(h.purpose)] + [0, 0, 0])))
  }

  function PutRoot(r: RootKeyMaterial): Bytes {
    PutHandle(r.signingHandle) + (PutSlice(r.exactPublicCoseKey) + (r.keyThumbprint + r.certificateObjectHash))
  }

  function PutPair(p: AdminPair): Bytes {
    p.certificate + p.binding
  }

  function PutOuterKey(k: OuterKey): Bytes {
    PutHandle(k.handle) + k.keyThumbprint
  }

  function PutBackup(b: KeyBackup): Bytes {
    [ClassCode(b.class_)] + (b.keyThumbprint + PutList(PutId, b.media))
  }

  function PutComponent(c: ComponentBinding): Bytes {
    [RoleCode(c.role)] + (c.certificate + c.binding)
  }

  /** What the image carries of a transcript: its bytes and its signature. */
  datatype Signed = Signed(exactBytes: Bytes, rootSignature: Bytes)

  function PutSigned(s: Signed): Bytes {
    PutSlice(s.exactBytes) + PutSlice(s.rootSignature)
  }

  function SignedOf(t: Option<Transcript>): Option<Signed> {
    match t case None => None case Some(t) => Some(Signed(t.exactBytes, t.rootSignature))
  }

  // The image in six sections, in the order of the source. Each section is
  // written in front of what follows it.

  function PutHeader(s: BootstrapState, t: Bytes): Bytes {
    STATE_DOMAIN + ([s.step.Number()] + (PutFlag(s.aborted) + ([ProductionCode(s.production)]
    + (s.organizationId + (s.chainId + (PutOption(PutHash, s.ceremonyMachine) + t))))))
  }

  function PutRootSection(s: BootstrapState, t: Bytes): Bytes {
    PutOption(PutRoot, s.root) + (PutList(PutPair, s.adminPairs) + t)
  }

  function PutSealSection(s: BootstrapState, t: Bytes): Bytes {
    PutOption(PutSlice, s.exactPreAnchor) + (PutOption(PutHash, s.sealedFingerprint)
      + (PutList(PutId, s.sealedMedia) + t))
  }

  function PutKeySection(s: BootstrapState, t: Bytes): Bytes {
    PutOption(PutOuterKey, s.recoveryKem) + (PutOption(PutOuterKey, s.hgaSigning)
      + (PutList(PutOuterKey, s.approvers) + t))
  }

  function PutCustodySection(s: BootstrapState, t: Bytes): Bytes {
    PutList(PutBackup, s.backups) + (PutList(PutComponent, s.components)
    + (PutFlag(s.fingerprintsCompared) + (PutList(PutHash, s.publishedTargets) + t)))
  }

  function PutClosingSection(s: BootstrapState, t: Bytes): Bytes {
    PutOption(PutHash, s.genesisEntryHash) + (PutOption(PutSlice, s.exactFinalAnchor)
    + (PutOption(PutSigned, SignedOf(s.transcript)) + (PutOption(PutHash, s.recoveryTestMachine) + t)))
  }

  function PutState(s: BootstrapState, t: Bytes): Bytes {
    PutHeader(s, PutRootSection(s, PutSealSection(s, PutKeySection(s, PutCustodySection(s, PutClosingSection(s, t))))))
  }

  /** The complete image; a store persists exactly this. */
  function Image(s: BootstrapState): Bytes {
    PutState(s, [])
  }

  /** The bytes the root signs over the first steps of the ceremony. */
  function TranscriptBytes(
    organizationId: Id16, chainId: Id16, root: RootKeyMaterial, pairs: seq<AdminPair>, fingerprint: Hash32): Bytes {
    TRANSCRIPT_DOMAIN + (organizationId + (chainId + (root.certificateObjectHash + (root.keyThumbprint
    + (PutSlice(root.exactPublicCoseKey) + (PutList(PutPair, pairs) + fingerprint))))))
  }

  function StateTranscriptBytes(s: BootstrapState): Bytes
    requires s.root.Some? && s.sealedFingerprint.Some?
  {
    TranscriptBytes(s.organizationId, s.chainId, s.root.value, s.adminPairs, s.sealedFingerprint.value)
  }

  // ---------------------------------------------------------------- reading

  /** The outcome of one move of the reader: a value and what is left, or nothing. */
  datatype Parse<+T> = Malformed | Parsed(value: T, rest: Bytes) {
    predicate IsFailure() { Malformed? }
    function PropagateFailure<U>(): Parse<U> requires Malformed? { Malformed }
    function Extract(): (T, Bytes) requires Parsed? { (value, rest) }
  }

  function ReadTake(n: nat, b: Bytes): Parse<Bytes> {
    if |b| < n then Malformed else Parsed(b[..n], b[n..])
  }

  function ReadByte(b: Bytes): Parse<byte> {
    if b == [] then Malformed else Parsed(b[0], b[1..])
  }

  function ReadFlag(b: Bytes): Parse<bool> {
    var (x, t) :- ReadByte(b);
    if x == 0 then Parsed(false, t) else if x == 1 then Parsed(true, t) else Malformed
  }

  function ReadCount(b: Bytes): Parse<nat> {
    var (raw, t) :- ReadTake(4, b);
    Parsed(FromBigEndian(raw), t)
  }

  function ReadSlice(b: Bytes): Parse<Bytes> {
    var (n, t) :- ReadCount(b);
    ReadTake(n, t)
  }

  function ReadHash(b: Bytes): Parse<Hash32> {
    if |b| < 32 then Malformed else Parsed(b[..32], b[32..])
  }

  function ReadId(b: Bytes): Parse<Id16> {
    if |b| < 16 then Malformed else Parsed(b[..16], b[16..])
  }

  function ReadOption<T>(read: Bytes -> Parse<T>, b: Bytes): Parse<Option<T>> {
    var (f, t) :- ReadFlag(b);
    if !f then Parsed(None, t) else
    var (x, u) :- read(t);
    Parsed(Some(x), u)
  }

  function ReadMany<T>(read: Bytes -> Parse<T>, n: nat, b: Bytes): Parse<seq<T>> {
    if n == 0 then Parsed([], b) else
    var (x, t) :- read(b);
    var (xs, u) :- ReadMany(read, n - 1, t);
    Parsed([x] + xs, u)
  }

  function ReadList<T>(read: Bytes -> Parse<T>, b: Bytes): Parse<seq<T>> {
    var (n, t) :- ReadCount(b);
    ReadMany(read, n, t)
  }

  function ReadProvider(b: Bytes): Parse<KeystoreProvider> {
    var (x, t) :- ReadByte(b);
    if x == 0 then Parsed(OperatingSystem, t) else if x == 1 then Parsed(InMemory, t) else Malformed
  }

  function ReadPurpose(b: Bytes): Parse<SecretPurpose> {
    var (x, t) :- ReadByte(b);
    if x == 0 then Parsed(WriterSigningKey, t)
    else if x == 1 then Parsed(OperatorInstanceKey, t)
    else if x == 2 then Parsed(DraftDek, t)
    else if x == 3 then Parsed(LocalDatabaseKey, t)
    else Malformed
  }

  function ReadRole(b: Bytes): Parse<OperatorRole> {
    var (x, t) :- ReadByte(b);
    if x == 0 then Parsed(Writer, t)
    else if x == 1 then Parsed(Reader, t)
    else if x == 2 then Parsed(OrganizationAdmin, t)
    else Malformed
  }

  function ReadClass(b: Bytes): Parse<BackedUpKeyClass> {
    var (x, t) :- ReadByte(b);
    if x == 0 then Parsed(RootClass, t)
    else if x == 1 then Parsed(AdminClass, t)
    else if x == 2 then Parsed(RecoveryKemClass, t)
    else if x == 3 then Parsed(HistoricalGrantAuthorityClass, t)
    else Malformed
  }

  function ReadProduction(b: Bytes): Parse<ProductionState> {
    var (x, t) :- ReadByte(b);
    if x == 0 then Parsed(BlockedRecoveryTest, t) else if x == 1 then Parsed(Ready, t) else Malformed
  }

  function ReadStep(b: Bytes): Parse<BootstrapStep> {
    var (x, t) :- ReadByte(b);
    match StepFromNumber(x)
    case None => Malformed
    case Some(step) => Parsed(step, t)
  }

  /** The application and the policy are read past and not carried into the handle. */
  function ReadHandle(b: Bytes): Parse<KeyHandle> {
    var (provider, b1) :- ReadProvider(b);
    var (_, b2) :- ReadSlice(b1);
    var (account, b3) :- ReadHash(b2);
    var (purpose, b4) :- ReadPurpose(b3);
    var (_, b5) :- ReadTake(3, b4);
    Parsed(KeyHandle(provider, account, purpose), b5)
  }

  function ReadRoot(b: Bytes): Parse<RootKeyMaterial> {
    var (handle, b1) :- ReadHandle(b);
    var (key, b2) :- ReadSlice(b1);
    var (thumbprint, b3) :- ReadHash(b2);
    var (certificate, b4) :- ReadHash(b3);
    Parsed(RootKeyMaterial(handle, key, thumbprint, certificate), b4)
  }

  function ReadPair(b: Bytes): Parse<AdminPair> {
    var (certificate, b1) :- ReadHash(b);
    var (binding, b2) :- ReadHash(b1);
    Parsed(AdminPair(certificate, binding), b2)
  }

  function ReadOuterKey(b: Bytes): Parse<OuterKey> {
    var (handle, b1) :- ReadHandle(b);
    var (thumbprint, b2) :- ReadHash(b1);
    Parsed(OuterKey(handle, thumbprint), b2)
  }

  function ReadBackup(b: Bytes): Parse<KeyBackup> {
    var (class_, b1) :- ReadClass(b);
    var (thumbprint, b2) :- ReadHash(b1);
    var (media, b3) :- ReadList(ReadId, b2);
    Parsed(KeyBackup(class_, thumbprint, media), b3)
  }

  function ReadComponent(b: Bytes): Parse<ComponentBinding> {
    var (role, b1) :- ReadRole(b);
    var (certificate, b2) :- ReadHash(b1);
    var (binding, b3) :- ReadHash(b2);
    Parsed(ComponentBinding(role, certificate, binding), b3)
  }

  function ReadSigned(b: Bytes): Parse<Signed> {
    var (exact, b1) :- ReadSlice(b);
    var (signature, b2) :- ReadSlice(b1);
    Parsed(Signed(exact, signature), b2)
  }

  // The sections, each filling the fields it carries into the state read so far.

  function ReadHeader(b: Bytes): Parse<BootstrapState> {
    var (domain, b0) :- ReadTake(|STATE_DOMAIN|, b);
    if domain != STATE_DOMAIN then Malformed else
    var (step, b1) :- ReadStep(b0);
    var (aborted, b2) :- ReadFlag(b1);
    var (production, b3) :- ReadProduction(b2);
    var (organization, b4) :- ReadId(b3);
    var (chain, b5) :- ReadId(b4);
    var (machine, b6) :- ReadOption(ReadHash, b5);
    Parsed(Fresh(organization, chain, machine).(step := step, aborted := aborted, production := production), b6)
  }

  function ReadRootSection(s: BootstrapState, b: Bytes): Parse<BootstrapState> {
    var (root, b1) :- ReadOption(ReadRoot, b);
    var (pairs, b2) :- ReadList(ReadPair, b1);
    Parsed(s.(root := root, adminPairs := pairs), b2)
  }

  function ReadSealSection(s: BootstrapState, b: Bytes): Parse<BootstrapState> {
    var (pre, b1) :- ReadOption(ReadSlice, b);
    var (fingerprint, b2) :- ReadOption(ReadHash, b1);
    var (media, b3) :- ReadList(ReadId, b2);
    Parsed(s.(exactPreAnchor := pre, sealedFingerprint := fingerprint, sealedMedia := media), b3)
  }

  function ReadKeySection(s: BootstrapState, b: Bytes): Parse<BootstrapState> {
    var (kem, b1) :- ReadOption(ReadOuterKey, b);
    var (hga, b2) :- ReadOption(ReadOuterKey, b1);
    var (approvers, b3) :- ReadList(ReadOuterKey, b2);
    Parsed(s.(recoveryKem := kem, hgaSigning := hga, approvers := approvers), b3)
  }

  function ReadCustodySection(s: BootstrapState, b: Bytes): Parse<BootstrapState> {
    var (backups, b1) :- ReadList(ReadBackup, b);
    var (components, b2) :- ReadList(ReadComponent, b1);
    var (compared, b3) :- ReadFlag(b2);
    var (targets, b4) :- ReadList(ReadHash, b3);
    Parsed(s.(backups := backups, components := components, fingerprintsCompared := compared,
      publishedTargets := targets), b4)
  }

  function ReadClosingSection(s: BootstrapState, b: Bytes): Parse<BootstrapState> {
    var (genesis, b1) :- ReadOption(ReadHash, b);
    var (anchor, b2) :- ReadOption(ReadSlice, b1);
    var (signed, b3) :- ReadOption(ReadSigned, b2);
    var (machine, b4) :- ReadOption(ReadHash, b3);
    WithTranscript(s.(genesisEntryHash := genesis, exactFinalAnchor := anchor, recoveryTestMachine := machine), signed,
      b4)
  }

  /** The judgement over a stored transcript: its bytes must be the ones the state spells out. */
  function WithTranscript(s: BootstrapState, signed: Option<Signed>, rest: Bytes): Parse<BootstrapState> {
    match signed
    case None => Parsed(s.(transcript := None), rest)
    case Some(signed) =>
      if s.root.None? || s.sealedFingerprint.None? then Malformed
      else if StateTranscriptBytes(s) != signed.exactBytes then Malformed
      else Parsed(s.(transcript := Some(Reconstructed(s, signed))), rest)
  }

  /** The transcript rebuilt from the fields of the state and the two stored pieces. */
  function Reconstructed(s: BootstrapState, signed: Signed): Transcript
    requires s.root.Some? && s.sealedFingerprint.Some?
  {
    Transcript(
      s.organizationId, s.chainId, s.root.value.certificateObjectHash, s.adminPairs,
      s.sealedFingerprint.value, signed.exactBytes, signed.rootSignature)
  }

  /** All fields in order, before the exhaustion check. */
  function ReadState(b: Bytes): Parse<BootstrapState> {
    var (s1, b1) :- ReadHeader(b);
    var (s2, b2) :- ReadRootSection(s1, b1);
    var (s3, b3) :- ReadSealSection(s2, b2);
    var (s4, b4) :- ReadKeySection(s3, b3);
    var (s5, b5) :- ReadCustodySection(s4, b4);
    ReadClosingSection(s5, b5)
  }

  /** The fields of an image, read to its very end. */
  function Decoded(image: Bytes): Option<BootstrapState> {
    match ReadState(image)
    case Malformed => None
    case Parsed(s, rest) => if rest == [] then Some(s) else None
  }

  /** `from_persisted_image`: only an image that re-encodes to itself is a state. */
  function FromPersistedImage(image: Bytes): Option<BootstrapState> {
    match Decoded(image)
    case None => None
    case Some(s) => if Image(s) == image then Some(s) else None
  }

  // ------------------------------------------------------------ the code law

  /** Reading gives back every admissible value that was written, whatever follows it. */
  ghost predicate Faithful<T(!new)>(read: Bytes -> Parse<T>, put: T -> Bytes, ok: T -> bool) {
    forall x: T, t: Bytes :: ok(x) ==> read(put(x) + t) == Parsed(x, t)
  }

  predicate Any<T>(x: T) { true }

  predicate SliceFits(b: Bytes) { |b| <= MAX_COUNT }

  predicate RootFits(r: RootKeyMaterial) { SliceFits(r.exactPublicCoseKey) }

  predicate BackupFits(b: KeyBackup) { |b.media| <= MAX_COUNT }

  predicate SignedFits(s: Signed) { SliceFits(s.exactBytes) && SliceFits(s.rootSignature) }

  /** Every list and slice has a length a 32-bit count can name. */
  predicate Sized(s: BootstrapState) {
    && (s.root.Some? ==> RootFits(s.root.value))
    && |s.adminPairs| <= MAX_COUNT
    && (s.exactPreAnchor.Some? ==> SliceFits(s.exactPreAnchor.value))
    && |s.sealedMedia| <= MAX_COUNT
    && |s.approvers| <= MAX_COUNT
    && |s.backups| <= MAX_COUNT
    && (forall b <- s.backups :: BackupFits(b))
    && |s.components| <= MAX_COUNT
    && |s.publishedTargets| <= MAX_COUNT
    && (s.exactFinalAnchor.Some? ==> SliceFits(s.exactFinalAnchor.value))
    && (s.transcript.Some? ==> SliceFits(s.transcript.value.exactBytes) && SliceFits(s.transcript.value.rootSignature))
  }

  /** A recorded transcript is the one the state itself spells out. */
  predicate TranscriptConsistent(s: BootstrapState) {
    s.transcript.Some? ==>
      && s.root.Some?
      && s.sealedFingerprint.Some?
      && s.transcript.value.exactBytes == StateTranscriptBytes(s)
      && s.transcript.value == Reconstructed(s, SignedOf(s.transcript).value)
  }

  predicate WellFormed(s: BootstrapState) {
    Sized(s) && TranscriptConsistent(s)
  }

  lemma CountRoundTrip(n: nat)
    requires n <= MAX_COUNT
    ensures FromBigEndian(BigEndian(n)) == n
  {
  }

  lemma CountFaithful(n: nat, t: Bytes)
    requires n <= MAX_COUNT
    ensures ReadCount(PutCount(n) + t) == Parsed(n, t)
  {
    CountRoundTrip(n);
    assert (PutCount(n) + t)[..4] == PutCount(n);
    assert (PutCount(n) + t)[4..] == t;
  }

  lemma TakeFaithful(b: Bytes, t: Bytes)
    ensures ReadTake(|b|, b + t) == Parsed(b, t)
  {
    assert (b + t)[..|b|] == b && (b + t)[|b|..] == t;
  }

  lemma ByteFaithful(x: byte, t: Bytes)
    ensures ReadByte([x] + t) == Parsed(x, t)
  {
    assert ([x] + t)[1..] == t;
  }

  lemma FlagFaithful(f: bool, t: Bytes)
    ensures ReadFlag(PutFlag(f) + t) == Parsed(f, t)
  {
    ByteFaithful(if f then 1 else 0, t);
  }

  lemma SliceFaithful(b: Bytes, t: Bytes)
    requires SliceFits(b)
    ensures ReadSlice(PutSlice(b) + t) == Parsed(b, t)
  {
    assert PutSlice(b) + t == PutCount(|b|) + (b + t);
    CountFaithful(|b|, b + t);
    TakeFaithful(b, t);
  }

  lemma HashFaithful(h: Hash32, t: Bytes)
    ensures ReadHash(h + t) == Parsed(h, t)
  {
    TakeFaithful(h, t);
  }

  lemma IdFaithful(h: Id16, t: Bytes)
    ensures ReadId(h + t) == Parsed(h, t)
  {
    TakeFaithful(h, t);
  }

  lemma OptionFaithful<T(!new)>(read: Bytes -> Parse<T>, put: T -> Bytes, ok: T -> bool, o: Option<T>, t: Bytes)
    requires Faithful(read, put, ok)
    requires o.Some? ==> ok(o.value)
    ensures ReadOption(read, PutOption(put, o) + t) == Parsed(o, t)
  {
    match o
    case None =>
      FlagFaithful(false, t);
    case Some(x) =>
      assert PutOption(put, o) + t == PutFlag(true) + (put(x) + t);
      FlagFaithful(true, put(x) + t);
  }

  lemma {:induction false} ManyFaithful<T(
    !new)>(read: Bytes -> Parse<T>, put: T -> Bytes, ok: T -> bool, xs: seq<T>, t: Bytes)
    requires Faithful(read, put, ok)
    requires forall x <- xs :: ok(x)
    ensures ReadMany(read, |xs|, PutMany(put, xs) + t) == Parsed(xs, t)
  {
    if xs != [] {
      var u := PutMany(put, xs[1..]) + t;
      assert PutMany(put, xs) + t == put(xs[0]) + u;
      ManyFaithful(read, put, ok, xs[1..], t);
      assert [xs[0]] + xs[1..] == xs;
    } else {
      assert PutMany(put, xs) + t == t;
    }
  }

  lemma ListFaithful<T(!new)>(read: Bytes -> Parse<T>, put: T -> Bytes, ok: T -> bool, xs: seq<T>, t: Bytes)
    requires Faithful(read, put, ok)
    requires |xs| <= MAX_COUNT && forall x <- xs :: ok(x)
    ensures ReadList(read, PutList(put, xs) + t) == Parsed(xs, t)
  {
    assert PutList(put, xs) + t == PutCount(|xs|) + (PutMany(put, xs) + t);
    CountFaithful(|xs|, PutMany(put, xs) + t);
    ManyFaithful(read, put, ok, xs, t);
  }

  lemma HandleFaithful(h: KeyHandle, t: Bytes)
    ensures ReadHandle(PutHandle(h) + t) == Parsed(h, t)
  {
    var e := [0, 0, 0] + t;
    var d := [PurposeCode(h.purpose)] + e;
    var c := h.accountInstance + d;
    var a := PutSlice(APPLICATION_NAMESPACE) + c;
    assert PutHandle(h) + t == [ProviderCode(h.provider)] + a;
    ByteFaithful(ProviderCode(h.provider), a);
    SliceFaithful(APPLICATION_NAMESPACE, c);
    HashFaithful(h.accountInstance, d);
    ByteFaithful(PurposeCode(h.purpose), e);
    TakeFaithful([0, 0, 0], t);
  }

  lemma RootFaithful(r: RootKeyMaterial, t: Bytes)
    requires RootFits(r)
    ensures ReadRoot(PutRoot(r) + t) == Parsed(r, t)
  {
    var c := r.certificateObjectHash + t;
    var b := r.keyThumbprint + c;
    var a := PutSlice(r.exactPublicCoseKey) + b;
    assert PutRoot(r) + t == PutHandle(r.signingHandle) + a;
    HandleFaithful(r.signingHandle, a);
    SliceFaithful(r.exactPublicCoseKey, b);
    HashFaithful(r.keyThumbprint, c);
    HashFaithful(r.certificateObjectHash, t);
  }

  lemma PairFaithful(p: AdminPair, t: Bytes)
    ensures ReadPair(PutPair(p) + t) == Parsed(p, t)
  {
    assert PutPair(p) + t == p.certificate + (p.binding + t);
    HashFaithful(p.certificate, p.binding + t);
    HashFaithful(p.binding, t);
  }

  lemma OuterKeyFaithful(k: OuterKey, t: Bytes)
    ensures ReadOuterKey(PutOuterKey(k) + t) == Parsed(k, t)
  {
    assert PutOuterKey(k) + t == PutHandle(k.handle) + (k.keyThumbprint + t);
    HandleFaithful(k.handle, k.keyThumbprint + t);
    HashFaithful(k.keyThumbprint, t);
  }

  lemma BackupFaithful(b: KeyBackup, t: Bytes)
    requires BackupFits(b)
    ensures ReadBackup(PutBackup(b) + t) == Parsed(b, t)
  {
    var d := PutList(PutId, b.media) + t;
    var c := b.keyThumbprint + d;
    assert PutBackup(b) + t == [ClassCode(b.class_)] + c;
    ByteFaithful(ClassCode(b.class_), c);
    HashFaithful(b.keyThumbprint, d);
    IdsAreFaithful();
    ListFaithful(ReadId, PutId, Any<Id16>, b.media, t);
  }

  lemma ComponentFaithful(x: ComponentBinding, t: Bytes)
    ensures ReadComponent(PutComponent(x) + t) == Parsed(x, t)
  {
    var d := x.binding + t;
    var c := x.certificate + d;
    assert PutComponent(x) + t == [RoleCode(x.role)] + c;
    ByteFaithful(RoleCode(x.role), c);
    HashFaithful(x.certificate, d);
    HashFaithful(x.binding, t);
  }

  lemma SignedFaithful(s: Signed, t: Bytes)
    requires SignedFits(s)
    ensures ReadSigned(PutSigned(s) + t) == Parsed(s, t)
  {
    assert PutSigned(s) + t == PutSlice(s.exactBytes) + (PutSlice(s.rootSignature) + t);
    SliceFaithful(s.exactBytes, PutSlice(s.rootSignature) + t);
    SliceFaithful(s.rootSignature, t);
  }

  lemma IdsAreFaithful()
    ensures Faithful(ReadId, PutId, Any<Id16>)
  {
    forall h: Id16, t: Bytes { IdFaithful(h, t); }
  }

  lemma HashesAreFaithful()
    ensures Faithful(ReadHash, PutHash, Any<Hash32>)
  {
    forall h: Hash32, t: Bytes { HashFaithful(h, t); }
  }

  /** Every record the image is made of is faithfully coded. */
  lemma RecordsAreFaithful()
    ensures Faithful(ReadSlice, PutSlice, SliceFits)
    ensures Faithful(ReadRoot, PutRoot, RootFits)
    ensures Faithful(ReadPair, PutPair, Any<AdminPair>)
    ensures Faithful(ReadOuterKey, PutOuterKey, Any<OuterKey>)
    ensures Faithful(ReadBackup, PutBackup, BackupFits)
    ensures Faithful(ReadComponent, PutComponent, Any<ComponentBinding>)
    ensures Faithful(ReadSigned, PutSigned, SignedFits)
  {
    forall x: Bytes, t: Bytes | SliceFits(x) { SliceFaithful(x, t); }
    forall x: RootKeyMaterial, t: Bytes | RootFits(x) { RootFaithful(x, t); }
    forall x: AdminPair, t: Bytes { PairFaithful(x, t); }
    forall x: OuterKey, t: Bytes { OuterKeyFaithful(x, t); }
    forall x: KeyBackup, t: Bytes | BackupFits(x) { BackupFaithful(x, t); }
    forall x: ComponentBinding, t: Bytes { ComponentFaithful(x, t); }
    forall x: Signed, t: Bytes | SignedFits(x) { SignedFaithful(x, t); }
  }

  // The instances the sections use.

  lemma OptionHashFaithful(o: Option<Hash32>, t: Bytes)
    ensures ReadOption(ReadHash, PutOption(PutHash, o) + t) == Parsed(o, t)
  {
    HashesAreFaithful();
    OptionFaithful(ReadHash, PutHash, Any<Hash32>, o, t);
  }

  lemma OptionSliceFaithful(o: Option<Bytes>, t: Bytes)
    requires o.Some? ==> SliceFits(o.value)
    ensures ReadOption(ReadSlice, PutOption(PutSlice, o) + t) == Parsed(o, t)
  {
    RecordsAreFaithful();
    OptionFaithful(ReadSlice, PutSlice, SliceFits, o, t);
  }

  lemma OptionOuterKeyFaithful(o: Option<OuterKey>, t: Bytes)
    ensures ReadOption(ReadOuterKey, PutOption(PutOuterKey, o) + t) == Parsed(o, t)
  {
    RecordsAreFaithful();
    OptionFaithful(ReadOuterKey, PutOuterKey, Any<OuterKey>, o, t);
  }

  lemma IdListFaithful(xs: seq<Id16>, t: Bytes)
    requires |xs| <= MAX_COUNT
    ensures ReadList(ReadId, PutList(PutId, xs) + t) == Parsed(xs, t)
  {
    IdsAreFaithful();
    ListFaithful(ReadId, PutId, Any<Id16>, xs, t);
  }

  lemma HashListFaithful(xs: seq<Hash32>, t: Bytes)
    requires |xs| <= MAX_COUNT
    ensures ReadList(ReadHash, PutList(PutHash, xs) + t) == Parsed(xs, t)
  {
    HashesAreFaithful();
    ListFaithful(ReadHash, PutHash, Any<Hash32>, xs, t);
  }

  lemma OuterKeyListFaithful(xs: seq<OuterKey>, t: Bytes)
    requires |xs| <= MAX_COUNT
    ensures ReadList(ReadOuterKey, PutList(PutOuterKey, xs) + t) == Parsed(xs, t)
  {
    RecordsAreFaithful();
    ListFaithful(ReadOuterKey, PutOuterKey, Any<OuterKey>, xs, t);
  }

  // -------------------------------------------------------------- the sections

  function HeaderOf(s: BootstrapState): BootstrapState {
    Fresh(s.organizationId, s.chainId, s.ceremonyMachine).(step := s.step, aborted := s.aborted,
      production := s.production)
  }

  lemma HeaderFaithful(s: BootstrapState, t: Bytes)
    ensures ReadHeader(PutHeader(s, t)) == Parsed(HeaderOf(s), t)
  {
    hide ReadOption, PutOption, Ascii;
    var f := PutOption(PutHash, s.ceremonyMachine) + t;
    var e := s.chainId + f;
    var d := s.organizationId + e;
    var c := [ProductionCode(s.production)] + d;
    var b := PutFlag(s.aborted) + c;
    var a := [s.step.Number()] + b;
    TakeFaithful(STATE_DOMAIN, a);
    ByteFaithful(s.step.Number(), b);
    FlagFaithful(s.aborted, c);
    ByteFaithful(ProductionCode(s.production), d);
    IdFaithful(s.organizationId, e);
    IdFaithful(s.chainId, f);
    OptionHashFaithful(s.ceremonyMachine, t);
  }

  lemma RootSectionFaithful(s: BootstrapState, into: BootstrapState, t: Bytes)
    requires Sized(s)
    ensures ReadRootSection(into, PutRootSection(s, t)) == Parsed(into.(root := s.root, adminPairs := s.adminPairs), t)
  {
    RecordsAreFaithful();
    OptionFaithful(ReadRoot, PutRoot, RootFits, s.root, PutList(PutPair, s.adminPairs) + t);
    ListFaithful(ReadPair, PutPair, Any<AdminPair>, s.adminPairs, t);
  }

  lemma SealSectionFaithful(s: BootstrapState, into: BootstrapState, t: Bytes)
    requires Sized(s)
    ensures ReadSealSection(into, PutSealSection(s, t)) ==
            Parsed(into.(exactPreAnchor := s.exactPreAnchor, sealedFingerprint := s.sealedFingerprint,
              sealedMedia := s.sealedMedia), t)
  {
    var b := PutList(PutId, s.sealedMedia) + t;
    OptionSliceFaithful(s.exactPreAnchor, PutOption(PutHash, s.sealedFingerprint) + b);
    OptionHashFaithful(s.sealedFingerprint, b);
    IdListFaithful(s.sealedMedia, t);
  }

  lemma KeySectionFaithful(s: BootstrapState, into: BootstrapState, t: Bytes)
    requires Sized(s)
    ensures ReadKeySection(into, PutKeySection(s, t)) ==
            Parsed(into.(recoveryKem := s.recoveryKem, hgaSigning := s.hgaSigning, approvers := s.approvers), t)
  {
    var b := PutList(PutOuterKey, s.approvers) + t;
    OptionOuterKeyFaithful(s.recoveryKem, PutOption(PutOuterKey, s.hgaSigning) + b);
    OptionOuterKeyFaithful(s.hgaSigning, b);
    OuterKeyListFaithful(s.approvers, t);
  }

  lemma CustodySectionFaithful(s: BootstrapState, into: BootstrapState, t: Bytes)
    requires Sized(s)
    ensures ReadCustodySection(into, PutCustodySection(s, t)) ==
            Parsed(into.(backups := s.backups, components := s.components,
                         fingerprintsCompared := s.fingerprintsCompared, publishedTargets := s.publishedTargets), t)
  {
    var c := PutList(PutHash, s.publishedTargets) + t;
    var b := PutFlag(s.fingerprintsCompared) + c;
    RecordsAreFaithful();
    ListFaithful(ReadBackup, PutBackup, BackupFits, s.backups, PutList(PutComponent, s.components) + b);
    ListFaithful(ReadComponent, PutComponent, Any<ComponentBinding>, s.components, b);
    FlagFaithful(s.fingerprintsCompared, c);
    HashListFaithful(s.publishedTargets, t);
  }

  /** The closing fields up to the judgement over the transcript. */
  lemma ClosingSectionFaithful(s: BootstrapState, into: BootstrapState, t: Bytes)
    requires Sized(s)
    ensures ReadClosingSection(into, PutClosingSection(s, t)) ==
            WithTranscript(into.(genesisEntryHash := s.genesisEntryHash, exactFinalAnchor := s.exactFinalAnchor,
                                 recoveryTestMachine := s.recoveryTestMachine), SignedOf(s.transcript), t)
  {
    var c := PutOption(PutHash, s.recoveryTestMachine) + t;
    var b := PutOption(PutSigned, SignedOf(s.transcript)) + c;
    OptionHashFaithful(s.genesisEntryHash, PutOption(PutSlice, s.exactFinalAnchor) + b);
    OptionSliceFaithful(s.exactFinalAnchor, b);
    RecordsAreFaithful();
    OptionFaithful(ReadSigned, PutSigned, SignedFits, SignedOf(s.transcript), c);
    OptionHashFaithful(s.recoveryTestMachine, t);
  }

  /** Reading the written fields leaves only the judgement over the transcript. */
  lemma SectionsFaithful(s: BootstrapState, t: Bytes)
    requires Sized(s)
    ensures ReadState(PutState(s, t)) == WithTranscript(s.(transcript := None), SignedOf(s.transcript), t)
  {
    var e := PutClosingSection(s, t);
    var d := PutCustodySection(s, e);
    var c := PutKeySection(s, d);
    var b := PutSealSection(s, c);
    var s1 := HeaderOf(s);
    var s2 := s1.(root := s.root, adminPairs := s.adminPairs);
    var s3 := s2.(exactPreAnchor := s.exactPreAnchor, sealedFingerprint := s.sealedFingerprint,
      sealedMedia := s.sealedMedia);
    var s4 := s3.(recoveryKem := s.recoveryKem, hgaSigning := s.hgaSigning, approvers := s.approvers);
    var s5 := s4.(backups := s.backups, components := s.components,
                  fingerprintsCompared := s.fingerprintsCompared, publishedTargets := s.publishedTargets);
    HeaderFaithful(s, PutRootSection(s, b));
    RootSectionFaithful(s, s1, b);
    SealSectionFaithful(s, s2, c);
    KeySectionFaithful(s, s3, d);
    CustodySectionFaithful(s, s4, e);
    ClosingSectionFaithful(s, s5, t);
  }

  /** Whatever follows an image, reading it consumes exactly the image and yields its state. */
  lemma StateFaithful(s: BootstrapState, t: Bytes)
    requires WellFormed(s)
    ensures ReadState(PutState(s, t)) == Parsed(s, t)
  {
    hide ReadState, PutState;
    SectionsFaithful(s, t);
  }

  lemma HeaderAppends(s: BootstrapState, t: Bytes)
    ensures PutHeader(s, t) == PutHeader(s, []) + t
  {
    hide PutOption, PutFlag, Ascii;
  }

  lemma SectionAppends(s: BootstrapState, t: Bytes)
    ensures PutRootSection(s, t) == PutRootSection(s, []) + t
    ensures PutSealSection(s, t) == PutSealSection(s, []) + t
    ensures PutKeySection(s, t) == PutKeySection(s, []) + t
  {
    hide PutOption, PutList;
  }

  lemma LateSectionAppends(s: BootstrapState, t: Bytes)
    ensures PutCustodySection(s, t) == PutCustodySection(s, []) + t
    ensures PutClosingSection(s, t) == PutClosingSection(s, []) + t
  {
    hide PutOption, PutList, PutFlag;
  }

  /** The image is the concatenation of its sections, in front of whatever follows. */
  lemma PutStateAppends(s: BootstrapState, t: Bytes)
    ensures PutState(s, t) == PutHeader(s, []) + PutRootSection(s, []) + PutSealSection(s, []) + PutKeySection(s, [])
                              + PutCustodySection(s, []) + PutClosingSection(s, []) + t
  {
    hide PutHeader, PutRootSection, PutSealSection, PutKeySection, PutCustodySection, PutClosingSection;
    var e := PutClosingSection(s, t);
    var d := PutCustodySection(s, e);
    var c := PutKeySection(s, d);
    var b := PutSealSection(s, c);
    LateSectionAppends(s, t);
    LateSectionAppends(s, e);
    SectionAppends(s, d);
    SectionAppends(s, c);
    SectionAppends(s, b);
    HeaderAppends(s, PutRootSection(s, b));
  }

  lemma ImageContinues(s: BootstrapState, t: Bytes)
    ensures PutState(s, t) == Image(s) + t
  {
    hide PutState, PutHeader, PutRootSection, PutSealSection, PutKeySection, PutCustodySection, PutClosingSection;
    PutStateAppends(s, []);
    PutStateAppends(s, t);
  }

  // ------------------------------------------------------------- main results

  /** Decoding the image of a state returns the state, exactly when the state's transcript is its own. */
  lemma RoundTrip(s: BootstrapState)
    requires Sized(s)
    ensures FromPersistedImage(Image(s)) == Some(s) <==> TranscriptConsistent(s)
    ensures s.transcript.Some? && (s.root.None? || s.sealedFingerprint.None?
              || s.transcript.value.exactBytes != StateTranscriptBytes(s))
            ==> FromPersistedImage(Image(s)) == None
  {
    hide ReadState, PutState, TranscriptBytes;
    SectionsFaithful(s, []);
  }

  lemma {:induction false} ManyLength<T>(read: Bytes -> Parse<T>, n: nat, b: Bytes)
    ensures ReadMany(read, n, b).Parsed? ==> |ReadMany(read, n, b).value| == n
  {
    if n > 0 && read(b).Parsed? {
      ManyLength(read, n - 1, read(b).rest);
    }
  }

  lemma ListFits<T>(read: Bytes -> Parse<T>, b: Bytes)
    ensures ReadList(read, b).Parsed? ==> |ReadList(read, b).value| <= MAX_COUNT
  {
    if ReadCount(b).Parsed? {
      ManyLength(read, ReadCount(b).value, ReadCount(b).rest);
    }
  }

  lemma {:induction false} BackupsFit(n: nat, b: Bytes)
    ensures ReadMany(ReadBackup, n, b).Parsed? ==> forall x <- ReadMany(ReadBackup, n, b).value :: BackupFits(x)
  {
    if n > 0 && ReadBackup(b).Parsed? {
      ListFits(ReadId, ReadHash(ReadClass(b).rest).rest);
      BackupsFit(n - 1, ReadBackup(b).rest);
    }
  }

  lemma RootSectionFits(s: BootstrapState, b: Bytes)
    requires ReadRootSection(s, b).Parsed?
    ensures var r := ReadRootSection(s, b).value;
            && |r.adminPairs| <= MAX_COUNT && (r.root.Some? ==> RootFits(r.root.value))
            && r == s.(root := r.root, adminPairs := r.adminPairs)
  {
    ListFits(ReadPair, ReadOption(ReadRoot, b).rest);
  }

  lemma SealSectionFits(s: BootstrapState, b: Bytes)
    requires ReadSealSection(s, b).Parsed?
    ensures var r := ReadSealSection(s, b).value;
            && |r.sealedMedia| <= MAX_COUNT && (r.exactPreAnchor.Some? ==> SliceFits(r.exactPreAnchor.value))
            && r == s.(exactPreAnchor := r.exactPreAnchor, sealedFingerprint := r.sealedFingerprint,
              sealedMedia := r.sealedMedia)
  {
    ListFits(ReadId, ReadOption(ReadHash, ReadOption(ReadSlice, b).rest).rest);
  }

  lemma KeySectionFits(s: BootstrapState, b: Bytes)
    requires ReadKeySection(s, b).Parsed?
    ensures var r := ReadKeySection(s, b).value;
            && |r.approvers| <= MAX_COUNT
            && r == s.(recoveryKem := r.recoveryKem, hgaSigning := r.hgaSigning, approvers := r.approvers)
  {
    ListFits(ReadOuterKey, ReadOption(ReadOuterKey, ReadOption(ReadOuterKey, b).rest).rest);
  }

  lemma CustodySectionFits(s: BootstrapState, b: Bytes)
    requires ReadCustodySection(s, b).Parsed?
    ensures var r := ReadCustodySection(s, b).value;
            && |r.backups| <= MAX_COUNT && (forall x <- r.backups :: BackupFits(x))
            && |r.components| <= MAX_COUNT && |r.publishedTargets| <= MAX_COUNT
            && r == s.(backups := r.backups, components := r.components,
                       fingerprintsCompared := r.fingerprintsCompared, publishedTargets := r.publishedTargets)
  {
    var q := ReadList(ReadBackup, b);
    ListFits(ReadBackup, b);
    BackupsFit(ReadCount(b).value, ReadCount(b).rest);
    ListFits(ReadComponent, q.rest);
    ListFits(ReadHash, ReadFlag(ReadList(ReadComponent, q.rest).rest).rest);
  }

  lemma OptionSliceFits(b: Bytes)
    ensures var p := ReadOption(ReadSlice, b); p.Parsed? && p.value.Some? ==> SliceFits(p.value.value)
  {
  }

  lemma OptionSignedFits(b: Bytes)
    ensures var p := ReadOption(ReadSigned, b); p.Parsed? && p.value.Some? ==> SignedFits(p.value.value)
  {
  }

  lemma ClosingSectionFits(s: BootstrapState, b: Bytes)
    requires ReadClosingSection(s, b).Parsed?
    ensures var r := ReadClosingSection(s, b).value;
            && TranscriptConsistent(r)
            && (r.exactFinalAnchor.Some? ==> SliceFits(r.exactFinalAnchor.value))
            && (r.transcript.Some? ==>
              && SliceFits(r.transcript.value.exactBytes)
              && SliceFits(r.transcript.value.rootSignature))
            && r == s.(genesisEntryHash := r.genesisEntryHash, exactFinalAnchor := r.exactFinalAnchor,
                       transcript := r.transcript, recoveryTestMachine := r.recoveryTestMachine)
  {
    hide TranscriptBytes, ReadOption;
    var b1 := ReadOption(ReadHash, b).rest;
    OptionSliceFits(b1);
    OptionSignedFits(ReadOption(ReadSlice, b1).rest);
  }

  /** Whatever the reader accepts is well-formed. */
  lemma DecodedIsWellFormed(b: Bytes)
    ensures ReadState(b).Parsed? ==> WellFormed(ReadState(b).value)
  {
    if ReadState(b).Parsed? {
      hide ReadHeader, ReadRootSection, ReadSealSection, ReadKeySection, ReadCustodySection, ReadClosingSection,
        TranscriptConsistent;
      var p1 := ReadHeader(b);
      var p2 := ReadRootSection(p1.value, p1.rest);
      RootSectionFits(p1.value, p1.rest);
      var p3 := ReadSealSection(p2.value, p2.rest);
      SealSectionFits(p2.value, p2.rest);
      var p4 := ReadKeySection(p3.value, p3.rest);
      KeySectionFits(p3.value, p3.rest);
      var p5 := ReadCustodySection(p4.value, p4.rest);
      CustodySectionFits(p4.value, p4.rest);
      ClosingSectionFits(p5.value, p5.rest);
    }
  }

  /** An accepted byte string is the image of a well-formed state, and only those are accepted. */
  lemma AcceptedExactlyImages(image: Bytes)
    ensures FromPersistedImage(image).Some? <==> exists s :: WellFormed(s) && image == Image(s)
    ensures FromPersistedImage(image).Some? ==>
              WellFormed(FromPersistedImage(image).value) && Image(FromPersistedImage(image).value) == image
  {
    DecodedIsWellFormed(image);
    forall s | WellFormed(s) && image == Image(s)
      ensures FromPersistedImage(image) == Some(s)
    {
      RoundTrip(s);
    }
  }

  /** Two well-formed states with the same image are the same state. */
  lemma ImageInjective(a: BootstrapState, b: BootstrapState)
    requires WellFormed(a) && WellFormed(b) && Image(a) == Image(b)
    ensures a == b
  {
    RoundTrip(a);
    RoundTrip(b);
  }

  /** No accepted image continues another one. */
  lemma PrefixFree(a: Bytes, b: Bytes)
    requires FromPersistedImage(a).Some? && FromPersistedImage(b).Some?
    requires a <= b
    ensures a == b
  {
    AcceptedExactlyImages(a);
    AcceptedExactlyImages(b);
    hide ReadState, PutState;
    var s, t := FromPersistedImage(a).value, b[|a|..];
    assert b == a + t;
    ImageContinues(s, t);
    StateFaithful(s, t);
  }

  /** `has_only_early_root_fields`: a comparison of images. */
  predicate HasOnlyEarlyRootFields(s: BootstrapState) {
    Image(s) == Image(Fresh(s.organizationId, s.chainId, s.ceremonyMachine).(step := s.step, root := s.root))
  }

  /** The comparison of images is a comparison of fields. */
  lemma EarlyRootFieldsIsFieldEquality(s: BootstrapState)
    requires WellFormed(s)
    ensures HasOnlyEarlyRootFields(s) <==>
            s == Fresh(s.organizationId, s.chainId, s.ceremonyMachine).(step := s.step, root := s.root)
  {
    if HasOnlyEarlyRootFields(s) {
      ImageInjective(s, Fresh(s.organizationId, s.chainId, s.ceremonyMachine).(step := s.step, root := s.root));
    }
  }

  lemma {:induction false} PairsLength(pairs: seq<AdminPair>)
    ensures |PutMany(PutPair, pairs)| == 64 * |pairs|
  {
    if pairs != [] {
      PairsLength(pairs[1..]);
    }
  }

  /** The bytes the root signs fix the pairing itself, pair by pair and in order. */
  lemma TranscriptBindsEveryPair(
    organizationId: Id16, chainId: Id16, root: RootKeyMaterial, a: seq<AdminPair>, b: seq<AdminPair>,
    fingerprint: Hash32)
    requires |b| <= MAX_COUNT
    requires TranscriptBytes(organizationId, chainId, root, a, fingerprint) ==
              TranscriptBytes(organizationId, chainId, root, b, fingerprint)
    ensures a == b
  {
    var before := TRANSCRIPT_DOMAIN + (organizationId
      + (chainId + (root.certificateObjectHash + (root.keyThumbprint + PutSlice(root.exactPublicCoseKey)))));
    var x, y := PutList(PutPair, a) + fingerprint, PutList(PutPair, b) + fingerprint;
    assert TranscriptBytes(organizationId, chainId, root, a, fingerprint) == before + x;
    assert TranscriptBytes(organizationId, chainId, root, b, fingerprint) == before + y;
    assert x == (before + x)[|before|..] == (before + y)[|before|..] == y;
    PairsLength(a);
    PairsLength(b);
    RecordsAreFaithful();
    ListFaithful(ReadPair, PutPair, Any<AdminPair>, a, fingerprint);
    ListFaithful(ReadPair, PutPair, Any<AdminPair>, b, fingerprint);
  }
}
