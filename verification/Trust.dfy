/**
  The trust formats the ceremony uses but does not define: pre-anchor and final
  anchor encodings, their two hash domains, the object hash and the root's
  signature check. They are parameters of the model.
*/
module Trust {
  import opened Bytes
  import opened CeremonyState

  datatype AdminError =
    | StepRegression
    | StepOutOfOrder
    | QuorumMissing
    | PreFieldChanged
    | PreAnchorUnconfirmed
    | SecondChannelMismatch
    | MediaQuorumMissing
    | MediaReadbackMismatch
    | MediaUnavailable
    | ContextMismatch
    | GenesisContextMismatch
    | TrustRejected
    | PublicationFailed
    | KeyRejected
    | RootSignatureMismatch
    | RecoveryTestFailed
    | RecoveryTestSameMachine
    | StoreUnavailable
    | StateShape
    | LocalRng
    | Panic

  type Outcome<+T> = Result<T, AdminError>

  /** The eight fields a pre-anchor is encoded from; both hash lists arrive sorted. */
  datatype PreAnchorFields = PreAnchorFields(
    organizationId: Id16,
    chainId: Id16,
    exactRootPublicCoseKey: Bytes,
    rootKeyThumbprint: Hash32,
    rootCertificate: Hash32,
    certificates: seq<Bytes>,
    bindings: seq<Bytes>)

  /** What a decoded final anchor exposes to the ceremony. */
  datatype TrustAnchor = TrustAnchor(exactPreAnchor: Bytes, genesisEntryHash: Hash32)

  datatype AnchorImage = Pre | Final

  datatype TrustFormat = TrustFormat(
    encodePreAnchor: PreAnchorFields -> Option<Bytes>,
    decodesAsPreAnchor: Bytes -> bool,
    decodeTrustAnchor: Bytes -> Option<TrustAnchor>,
    bootstrapAnchorHash: Bytes -> Hash32,
    trustAnchorHash: Bytes -> Hash32,
    objectHash: Bytes -> Hash32,
    attributable: (RootKeyMaterial, Bytes, Hash32) -> bool)
  {
    /** The fingerprint of one of the two domains over these bytes. */
    function Fingerprint(image: AnchorImage, bytes: Bytes): Hash32 {
      match image
      case Pre => bootstrapAnchorHash(bytes)
      case Final => trustAnchorHash(bytes)
    }

    ghost predicate IsPreAnchor(b: Bytes) {
      decodesAsPreAnchor(b) || exists f :: encodePreAnchor(f) == Some(b)
    }

    /**
      What is assumed of the formats: the pre-anchor encoding is injective, and
      no pre-anchor shares its final-domain hash with a final anchor.
    */
    ghost predicate Lawful() {
      && (forall f, g :: encodePreAnchor(f).Some? && encodePreAnchor(f) == encodePreAnchor(g) ==> f == g)
      && (forall p, f :: IsPreAnchor(p) && decodeTrustAnchor(f).Some? ==> trustAnchorHash(p) != trustAnchorHash(f))
    }
  }

  /** A fingerprint a human reported back over the second channel, and the image it covers. */
  datatype SecondChannelConfirmation = SecondChannelConfirmation(fingerprint: Hash32, image: AnchorImage)

  /** `confirm_pre_anchor_fingerprint` over the bytes of a pre-anchor. */
  function ConfirmPreAnchorFingerprint(
    t: TrustFormat, pre: Bytes, reported: Hash32): (r: Outcome<SecondChannelConfirmation>)
    ensures r.Ok? ==> t.Fingerprint(r.value.image, pre) == r.value.fingerprint == reported
  {
    if t.bootstrapAnchorHash(pre) != reported then Err(SecondChannelMismatch)
    else Ok(SecondChannelConfirmation(reported, Pre))
  }

  /** `confirm_final_anchor_fingerprint` over the bytes of a decoded final anchor. */
  function ConfirmFinalAnchorFingerprint(
    t: TrustFormat, final: Bytes, reported: Hash32): (r: Outcome<SecondChannelConfirmation>)
    ensures r.Ok? ==> t.Fingerprint(r.value.image, final) == r.value.fingerprint == reported
  {
    if t.trustAnchorHash(final) != reported then Err(SecondChannelMismatch)
    else Ok(SecondChannelConfirmation(reported, Final))
  }

  /** The confirmations that exist: each was issued by one of the two functions above. */
  ghost predicate Issued(t: TrustFormat, c: SecondChannelConfirmation) {
    match c.image
    case Pre => exists p :: t.IsPreAnchor(p) && ConfirmPreAnchorFingerprint(t, p, c.fingerprint) == Ok(c)
    case Final => exists f ::
      && t.decodeTrustAnchor(f).Some?
      && ConfirmFinalAnchorFingerprint(t, f, c.fingerprint) == Ok(c)
  }

  /** A confirmation that binds to pre-anchor bytes carries their bootstrap hash, whichever step issued it. */
  lemma ConfirmationOverPreAnchor(t: TrustFormat, c: SecondChannelConfirmation, pre: Bytes)
    requires t.Lawful() && Issued(t, c) && t.IsPreAnchor(pre)
    requires t.Fingerprint(c.image, pre) == c.fingerprint
    ensures c.image == Pre && c.fingerprint == t.bootstrapAnchorHash(pre)
  {
  }
}
