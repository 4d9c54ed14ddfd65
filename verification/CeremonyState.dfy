/** The persisted state of the twelve-step bootstrap ceremony and its records. */
module CeremonyState {
  import opened Bytes

  datatype BootstrapStep =
    | GenerateIds
    | GenerateOfflineRoot
    | CreateAdminPairs
    | PinPreAnchorOnMedia
    | GenerateRecoveryAndHgaKeys
    | EnrollKeyApprovers
    | VerifyKeyBackups
    | ProvisionComponentKeys
    | CompareFingerprints
    | RootSignBootstrapTargets
    | CreateGenesisAndFinalAnchor
    | RunFreshMachineRecoveryTest
  {
    function Number(): (n: byte)
      ensures 1 <= n <= 12
    {
      match this
      case GenerateIds => 1
      case GenerateOfflineRoot => 2
      case CreateAdminPairs => 3
      case PinPreAnchorOnMedia => 4
      case GenerateRecoveryAndHgaKeys => 5
      case EnrollKeyApprovers => 6
      case VerifyKeyBackups => 7
      case ProvisionComponentKeys => 8
      case CompareFingerprints => 9
      case RootSignBootstrapTargets => 10
      case CreateGenesisAndFinalAnchor => 11
      case RunFreshMachineRecoveryTest => 12
    }
  }

  function StepFromNumber(n: byte): (r: Option<BootstrapStep>)
    ensures r.Some? <==> 1 <= n <= 12
    ensures r.Some? ==> r.value.Number() == n
  {
    match n
    case 1 => Some(GenerateIds)
    case 2 => Some(GenerateOfflineRoot)
    case 3 => Some(CreateAdminPairs)
    case 4 => Some(PinPreAnchorOnMedia)
    case 5 => Some(GenerateRecoveryAndHgaKeys)
    case 6 => Some(EnrollKeyApprovers)
    case 7 => Some(VerifyKeyBackups)
    case 8 => Some(ProvisionComponentKeys)
    case 9 => Some(CompareFingerprints)
    case 10 => Some(RootSignBootstrapTargets)
    case 11 => Some(CreateGenesisAndFinalAnchor)
    case 12 => Some(RunFreshMachineRecoveryTest)
    case _ => None
  }

  datatype ProductionState = BlockedRecoveryTest | Ready
  datatype KeystoreProvider = OperatingSystem | InMemory
  datatype SecretPurpose = WriterSigningKey | OperatorInstanceKey | DraftDek | LocalDatabaseKey
  datatype OperatorRole = Writer | Reader | OrganizationAdmin
  datatype BackedUpKeyClass = RootClass | AdminClass | RecoveryKemClass | HistoricalGrantAuthorityClass

  /** A handle is an address; its application and its policy are fixed by the only constructor. */
  datatype KeyHandle = KeyHandle(provider: KeystoreProvider, accountInstance: Hash32, purpose: SecretPurpose)

  datatype RootKeyMaterial = RootKeyMaterial(
    signingHandle: KeyHandle,
    exactPublicCoseKey: Bytes,
    keyThumbprint: Hash32,
    certificateObjectHash: Hash32)

  datatype AdminPair = AdminPair(certificate: Hash32, binding: Hash32)
  datatype OuterKey = OuterKey(handle: KeyHandle, keyThumbprint: Hash32)
  datatype KeyBackup = KeyBackup(class_: BackedUpKeyClass, keyThumbprint: Hash32, media: seq<Id16>)
  datatype ComponentBinding = ComponentBinding(role: OperatorRole, certificate: Hash32, binding: Hash32)

  datatype Transcript = Transcript(
    organizationId: Id16,
    chainId: Id16,
    rootCertificate: Hash32,
    adminPairs: seq<AdminPair>,
    preAnchorFingerprint: Hash32,
    exactBytes: Bytes,
    rootSignature: Bytes)

  datatype BootstrapState = BootstrapState(
    step: BootstrapStep,
    aborted: bool,
    production: ProductionState,
    organizationId: Id16,
    chainId: Id16,
    root: Option<RootKeyMaterial>,
    adminPairs: seq<AdminPair>,
    exactPreAnchor: Option<Bytes>,
    sealedFingerprint: Option<Hash32>,
    sealedMedia: seq<Id16>,
    recoveryKem: Option<OuterKey>,
    hgaSigning: Option<OuterKey>,
    approvers: seq<OuterKey>,
    backups: seq<KeyBackup>,
    components: seq<ComponentBinding>,
    fingerprintsCompared: bool,
    publishedTargets: seq<Hash32>,
    genesisEntryHash: Option<Hash32>,
    exactFinalAnchor: Option<Bytes>,
    transcript: Option<Transcript>,
    recoveryTestMachine: Option<Hash32>,
    ceremonyMachine: Option<Hash32>)

  /** The state of a ceremony that has just begun: step 1 and nothing else. */
  function Fresh(organizationId: Id16, chainId: Id16, ceremonyMachine: Option<Hash32>): BootstrapState {
    BootstrapState(
      GenerateIds, false, BlockedRecoveryTest, organizationId, chainId,
      None, [], None, None, [], None, None, [], [], [], false, [], None, None, None, None,
      ceremonyMachine)
  }
}
