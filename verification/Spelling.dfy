/**
  The program's own spellings of its switches, commands and words, and that they
  make a lawful vocabulary.
*/
module Spelling {
  import opened Bytes
  import opened CommandLine

  /** What tells names apart; and a name begins with no dash and holds no slash. */
  predicate Shaped(name: string, shape: (nat, char, char)) {
    && |name| == shape.0 > 0 && name[0] == shape.1 && name[2 * shape.0 / 3] == shape.2
    && shape.1 != '-' && shape.1 as int < 128 && shape.2 as int < 128 && '/' !in name
  }

  function SwitchName(x: Switch): string {
    match x
    case TrustAnchor | Format | Output | Key | RecoveryKey | AuthorityKey => SwitchName1(x)
    case Authorization | RecipientCert | KeyInventory | OperatorConfig | NetworkArchiveProfile |
         EffectiveFrom => SwitchName2(x)
    case ValidThrough | NotAfter | Request | TransitionObject | Release | IncludeRuntimeMetadata => SwitchName3(x)
    case EscrowInbox | EscrowOutbox | Bundle | BundleVersion | EffectiveFromRegistryVersion |
         ReportSigningKey => SwitchName4(x)
    case PostureTarget | PostureDocument | EvidenceReference | ValidForMs | InitialRegistryVersion |
         RecoveryMode => SwitchName5(x)
    case ArchiveProfile | SourceEnvelope | Snapshot | BackupPassphraseFile | RestoreDatabase |
         MediaSources => SwitchName6(x)
    case CompletedReport | ComponentExport => SwitchName7(x)
  }

  function SwitchName1(x: Switch): string {
    match x
    case TrustAnchor => "trust-anchor" case Format => "format" case Output => "output" case Key => "key"
    case RecoveryKey => "recovery-key" case AuthorityKey => "authority-key" case _ => ""
  }

  function SwitchName2(x: Switch): string {
    match x
    case Authorization => "authorization" case RecipientCert => "recipient-cert"
    case KeyInventory => "key-inventory" case OperatorConfig => "operator-config"
    case NetworkArchiveProfile => "network-archive-profile" case EffectiveFrom => "effective-from" case _ => ""
  }

  function SwitchName3(x: Switch): string {
    match x
    case ValidThrough => "valid-through" case NotAfter => "not-after" case Request => "request"
    case TransitionObject => "transition-object" case Release => "release"
    case IncludeRuntimeMetadata => "include-runtime-metadata" case _ => ""
  }

  function SwitchName4(x: Switch): string {
    match x
    case EscrowInbox => "escrow-inbox" case EscrowOutbox => "escrow-outbox" case Bundle => "bundle"
    case BundleVersion => "bundle-version" case EffectiveFromRegistryVersion => "effective-from-registry-version"
    case ReportSigningKey => "report-signing-key" case _ => ""
  }

  function SwitchName5(x: Switch): string {
    match x
    case PostureTarget => "posture-target" case PostureDocument => "posture-document"
    case EvidenceReference => "evidence-reference" case ValidForMs => "valid-for-ms"
    case InitialRegistryVersion => "initial-registry-version" case RecoveryMode => "recovery-mode" case _ => ""
  }

  function SwitchName6(x: Switch): string {
    match x
    case ArchiveProfile => "archive-profile" case SourceEnvelope => "source-envelope" case Snapshot => "snapshot"
    case BackupPassphraseFile => "backup-passphrase-file" case RestoreDatabase => "restore-database"
    case MediaSources => "media-sources" case _ => ""
  }

  function SwitchName7(x: Switch): string {
    match x
    case CompletedReport => "completed-report" case ComponentExport => "component-export" case _ => ""
  }

  /** Length, first letter, and the letter two thirds on. */
  function SwitchShape(x: Switch): (nat, char, char) {
    match x
    case TrustAnchor => (12, 't', 'c') case Format => (6, 'f', 'a') case Output => (6, 'o', 'u')
    case Key => (3, 'k', 'y') case RecoveryKey => (12, 'r', '-') case AuthorityKey => (13, 'a', 'y')
    case Authorization => (13, 'a', 'a') case RecipientCert => (14, 'r', '-') case KeyInventory => (13, 'k', 'n')
    case OperatorConfig => (15, 'o', 'o') case NetworkArchiveProfile => (23, 'n', '-')
    case EffectiveFrom => (14, 'e', '-') case ValidThrough => (13, 'v', 'r') case NotAfter => (9, 'n', 't')
    case Request => (7, 'r', 'e') case TransitionObject => (17, 't', 'o') case Release => (7, 'r', 'a')
    case IncludeRuntimeMetadata => (24, 'i', 'm') case EscrowInbox => (12, 'e', 'n')
    case EscrowOutbox => (13, 'e', 'u') case Bundle => (6, 'b', 'l') case BundleVersion => (14, 'b', 'r')
    case EffectiveFromRegistryVersion => (31, 'e', 't') case ReportSigningKey => (18, 'r', 'n')
    case PostureTarget => (14, 'p', 'a') case PostureDocument => (16, 'p', 'c')
    case EvidenceReference => (18, 'e', 'e') case ValidForMs => (12, 'v', 'r')
    case InitialRegistryVersion => (24, 'i', '-') case RecoveryMode => (13, 'r', '-')
    case ArchiveProfile => (15, 'a', 'o') case SourceEnvelope => (15, 's', 'e') case Snapshot => (8, 's', 'h')
    case BackupPassphraseFile => (22, 'b', 'a') case RestoreDatabase => (16, 'r', 't')
    case MediaSources => (13, 'm', 'u') case CompletedReport => (16, 'c', 'r')
    case ComponentExport => (16, 'c', 'e')
  }

  lemma SwitchShape1(x: Switch)
    requires x.TrustAnchor? || x.Format? || x.Output? || x.Key? || x.RecoveryKey? || x.AuthorityKey?
    ensures Shaped(SwitchName1(x), SwitchShape(x))
  {
  }

  lemma SwitchShape2(x: Switch)
    requires x.Authorization? || x.RecipientCert? || x.KeyInventory? || x.OperatorConfig? ||
             x.NetworkArchiveProfile? || x.EffectiveFrom?
    ensures Shaped(SwitchName2(x), SwitchShape(x))
  {
  }

  lemma SwitchShape3(x: Switch)
    requires x.ValidThrough? || x.NotAfter? || x.Request? || x.TransitionObject? || x.Release? ||
             x.IncludeRuntimeMetadata?
    ensures Shaped(SwitchName3(x), SwitchShape(x))
  {
  }

  lemma SwitchShape4(x: Switch)
    requires x.EscrowInbox? || x.EscrowOutbox? || x.Bundle? || x.BundleVersion? ||
             x.EffectiveFromRegistryVersion? || x.ReportSigningKey?
    ensures Shaped(SwitchName4(x), SwitchShape(x))
  {
  }

  lemma SwitchShape5(x: Switch)
    requires x.PostureTarget? || x.PostureDocument? || x.EvidenceReference? || x.ValidForMs? ||
             x.InitialRegistryVersion? || x.RecoveryMode?
    ensures Shaped(SwitchName5(x), SwitchShape(x))
  {
  }

  lemma SwitchShape6(x: Switch)
    requires x.ArchiveProfile? || x.SourceEnvelope? || x.Snapshot? || x.BackupPassphraseFile? ||
             x.RestoreDatabase? || x.MediaSources?
    ensures Shaped(SwitchName6(x), SwitchShape(x))
  {
  }

  lemma SwitchShape7(x: Switch)
    requires x.CompletedReport? || x.ComponentExport?
    ensures Shaped(SwitchName7(x), SwitchShape(x))
  {
  }

  lemma SwitchIsShaped(x: Switch)
    ensures Shaped(SwitchName(x), SwitchShape(x))
  {
    hide Shaped, SwitchShape, SwitchName1, SwitchName2, SwitchName3, SwitchName4, SwitchName5, SwitchName6, SwitchName7;
    match x
    case TrustAnchor | Format | Output | Key | RecoveryKey | AuthorityKey => SwitchShape1(x);
    case Authorization | RecipientCert | KeyInventory | OperatorConfig | NetworkArchiveProfile |
         EffectiveFrom => SwitchShape2(x);
    case ValidThrough | NotAfter | Request | TransitionObject | Release | IncludeRuntimeMetadata => SwitchShape3(x);
    case EscrowInbox | EscrowOutbox | Bundle | BundleVersion | EffectiveFromRegistryVersion |
         ReportSigningKey => SwitchShape4(x);
    case PostureTarget | PostureDocument | EvidenceReference | ValidForMs | InitialRegistryVersion |
         RecoveryMode => SwitchShape5(x);
    case ArchiveProfile | SourceEnvelope | Snapshot | BackupPassphraseFile | RestoreDatabase |
         MediaSources => SwitchShape6(x);
    case CompletedReport | ComponentExport => SwitchShape7(x);
  }

  /** The switch of a shape. */
  function SwitchAt(shape: (nat, char, char)): Switch {
    match shape.0
    case 6 =>
      if shape.1 == 'f' then Format else if shape.1 == 'o' then Output else Bundle
    case 7 =>
      if shape.2 == 'e' then Request else Release
    case 8 => Snapshot
    case 9 => NotAfter
    case 12 =>
      if shape.1 == 't' then TrustAnchor else if shape.1 == 'r' then RecoveryKey else
      if shape.1 == 'e' then EscrowInbox else ValidForMs
    case 13 =>
      if shape.2 == 'y' then AuthorityKey else if shape.2 == 'a' then Authorization else
      if shape.1 == 'k' then KeyInventory else if shape.1 == 'v' then ValidThrough else
      if shape.1 == 'e' then EscrowOutbox else if shape.1 == 'r' then RecoveryMode else MediaSources
    case 14 =>
      if shape.1 == 'r' then RecipientCert else if shape.1 == 'e' then EffectiveFrom else
      if shape.1 == 'b' then BundleVersion else PostureTarget
    case 15 =>
      if shape.1 == 'o' then OperatorConfig else if shape.1 == 'a' then ArchiveProfile else SourceEnvelope
    case 16 =>
      if shape.1 == 'p' then PostureDocument else if shape.1 == 'r' then RestoreDatabase else
      if shape.2 == 'r' then CompletedReport else ComponentExport
    case 17 => TransitionObject
    case 18 =>
      if shape.1 == 'r' then ReportSigningKey else EvidenceReference
    case 22 => BackupPassphraseFile
    case 23 => NetworkArchiveProfile
    case 24 =>
      if shape.2 == 'm' then IncludeRuntimeMetadata else InitialRegistryVersion
    case 31 => EffectiveFromRegistryVersion
    case _ => Key
  }

  lemma ShortSwitch(x: Switch)
    requires SwitchShape(x).0 <= 13
    ensures SwitchAt(SwitchShape(x)) == x
  {
  }

  lemma LongSwitch(x: Switch)
    requires SwitchShape(x).0 > 13
    ensures SwitchAt(SwitchShape(x)) == x
  {
  }

  lemma SwitchByShape(x: Switch)
    ensures SwitchAt(SwitchShape(x)) == x
  {
    hide SwitchAt, SwitchShape;
    if SwitchShape(x).0 <= 13 {
      ShortSwitch(x);
    } else {
      LongSwitch(x);
    }
  }

  function KindName(x: Kind): string {
    match x
    case Verify | List | Decrypt | Grant | Report | Export => KindName1(x)
    case RecoveryTest | Organization | Operator | Posture | Registry | ClockRelease => KindName2(x)
    case WriterTransition | ReaderKeyEscrow => KindName3(x)
  }

  function KindName1(x: Kind): string {
    match x
    case Verify => "verify" case List => "list" case Decrypt => "decrypt" case Grant => "grant"
    case Report => "report" case Export => "export" case _ => ""
  }

  function KindName2(x: Kind): string {
    match x
    case RecoveryTest => "recovery-test" case Organization => "organization" case Operator => "operator"
    case Posture => "posture" case Registry => "registry" case ClockRelease => "clock-release" case _ => ""
  }

  function KindName3(x: Kind): string {
    match x
    case WriterTransition => "writer-transition" case ReaderKeyEscrow => "reader-key-escrow" case _ => ""
  }

  /** Length, first letter, and the letter two thirds on. */
  function KindShape(x: Kind): (nat, char, char) {
    match x
    case Verify => (6, 'v', 'f') case List => (4, 'l', 's') case Decrypt => (7, 'd', 'y')
    case Grant => (5, 'g', 'n') case Report => (6, 'r', 'r') case Export => (6, 'e', 'r')
    case RecoveryTest => (13, 'r', '-') case Organization => (12, 'o', 't') case Operator => (8, 'o', 't')
    case Posture => (7, 'p', 'u') case Registry => (8, 'r', 't') case ClockRelease => (13, 'c', 'l')
    case WriterTransition => (17, 'w', 's') case ReaderKeyEscrow => (17, 'r', 'e')
  }

  lemma KindShape1(x: Kind)
    requires x.Verify? || x.List? || x.Decrypt? || x.Grant? || x.Report? || x.Export?
    ensures Shaped(KindName1(x), KindShape(x))
  {
  }

  lemma KindShape2(x: Kind)
    requires x.RecoveryTest? || x.Organization? || x.Operator? || x.Posture? || x.Registry? || x.ClockRelease?
    ensures Shaped(KindName2(x), KindShape(x))
  {
  }

  lemma KindShape3(x: Kind)
    requires x.WriterTransition? || x.ReaderKeyEscrow?
    ensures Shaped(KindName3(x), KindShape(x))
  {
  }

  lemma KindIsShaped(x: Kind)
    ensures Shaped(KindName(x), KindShape(x))
  {
    hide Shaped, KindShape, KindName1, KindName2, KindName3;
    match x
    case Verify | List | Decrypt | Grant | Report | Export => KindShape1(x);
    case RecoveryTest | Organization | Operator | Posture | Registry | ClockRelease => KindShape2(x);
    case WriterTransition | ReaderKeyEscrow => KindShape3(x);
  }

  lemma KindByShape(x: Kind, y: Kind)
    requires KindShape(x) == KindShape(y)
    ensures x == y
  {
  }

  function WordName(x: Word): string {
    match x
    case Text | Json | Init | CertifyRoot | EscrowPublish | WebBundleRelease => WordName1(x)
    case WebBundleRevoke | Provision | VerifySession | Revoke | RegisterNetworkArchive | Target => WordName2(x)
    case Issue | Import | RevocationPlan | Apply | Prepare | Activate => WordName3(x)
    case Open | Pickup | Capture | RestoreRun | Status | FailureStatus => WordName4(x)
  }

  function WordName1(x: Word): string {
    match x
    case Text => "text" case Json => "json" case Init => "init" case CertifyRoot => "certify-root"
    case EscrowPublish => "reader-key-escrow-publish" case WebBundleRelease => "web-bundle-release" case _ => ""
  }

  function WordName2(x: Word): string {
    match x
    case WebBundleRevoke => "web-bundle-revoke" case Provision => "provision"
    case VerifySession => "verify-session" case Revoke => "revoke"
    case RegisterNetworkArchive => "register-network-archive" case Target => "target" case _ => ""
  }

  function WordName3(x: Word): string {
    match x
    case Issue => "issue" case Import => "import" case RevocationPlan => "revocation-plan" case Apply => "apply"
    case Prepare => "prepare" case Activate => "activate" case _ => ""
  }

  function WordName4(x: Word): string {
    match x
    case Open => "open" case Pickup => "pickup" case Capture => "capture" case RestoreRun => "restore-run"
    case Status => "status" case FailureStatus => "failure-status" case _ => ""
  }

  /** Length, first letter, and the letter two thirds on. */
  function WordShape(x: Word): (nat, char, char) {
    match x
    case Text => (4, 't', 'x') case Json => (4, 'j', 'o') case Init => (4, 'i', 'i')
    case CertifyRoot => (12, 'c', 'r') case EscrowPublish => (25, 'r', 'w') case WebBundleRelease => (18, 'w', 'e')
    case WebBundleRevoke => (17, 'w', 'r') case Provision => (9, 'p', 'i') case VerifySession => (14, 'v', 's')
    case Revoke => (6, 'r', 'k') case RegisterNetworkArchive => (24, 'r', '-') case Target => (6, 't', 'e')
    case Issue => (5, 'i', 'u') case Import => (6, 'i', 'r') case RevocationPlan => (15, 'r', '-')
    case Apply => (5, 'a', 'l') case Prepare => (7, 'p', 'a') case Activate => (8, 'a', 'a')
    case Open => (4, 'o', 'e') case Pickup => (6, 'p', 'u') case Capture => (7, 'c', 'u')
    case RestoreRun => (11, 'r', '-') case Status => (6, 's', 'u') case FailureStatus => (14, 'f', 't')
  }

  lemma WordShape1(x: Word)
    requires x.Text? || x.Json? || x.Init? || x.CertifyRoot? || x.EscrowPublish? || x.WebBundleRelease?
    ensures Shaped(WordName1(x), WordShape(x))
  {
  }

  lemma WordShape2(x: Word)
    requires x.WebBundleRevoke? || x.Provision? || x.VerifySession? || x.Revoke? || x.RegisterNetworkArchive? ||
             x.Target?
    ensures Shaped(WordName2(x), WordShape(x))
  {
  }

  lemma WordShape3(x: Word)
    requires x.Issue? || x.Import? || x.RevocationPlan? || x.Apply? || x.Prepare? || x.Activate?
    ensures Shaped(WordName3(x), WordShape(x))
  {
  }

  lemma WordShape4(x: Word)
    requires x.Open? || x.Pickup? || x.Capture? || x.RestoreRun? || x.Status? || x.FailureStatus?
    ensures Shaped(WordName4(x), WordShape(x))
  {
  }

  lemma WordIsShaped(x: Word)
    ensures Shaped(WordName(x), WordShape(x))
  {
    hide Shaped, WordShape, WordName1, WordName2, WordName3, WordName4;
    match x
    case Text | Json | Init | CertifyRoot | EscrowPublish | WebBundleRelease => WordShape1(x);
    case WebBundleRevoke | Provision | VerifySession | Revoke | RegisterNetworkArchive | Target => WordShape2(x);
    case Issue | Import | RevocationPlan | Apply | Prepare | Activate => WordShape3(x);
    case Open | Pickup | Capture | RestoreRun | Status | FailureStatus => WordShape4(x);
  }

  lemma WordByShape(x: Word, y: Word)
    requires WordShape(x) == WordShape(y)
    ensures x == y
  {
  }

  // ------------------------------------------------------------------ the vocabulary

  const SLASH: byte := 0x2f

  function Ascii(name: string): Bytes {
    seq(|name|, i requires 0 <= i < |name| => if name[i] as int < 256 then name[i] as int else 0)
  }

  /** Two shaped names with the same bytes have the same shape. */
  lemma SameBytes(a: string, s: (nat, char, char), b: string, r: (nat, char, char))
    requires Shaped(a, s) && Shaped(b, r) && Ascii(a) == Ascii(b)
    ensures s == r
  {
    assert |Ascii(a)| == s.0 && |Ascii(b)| == r.0;
    assert Ascii(a)[0] == s.1 as int && Ascii(b)[0] == r.1 as int;
    assert Ascii(a)[2 * s.0 / 3] == s.2 as int && Ascii(b)[2 * r.0 / 3] == r.2 as int;
  }

  lemma PlainBytes(name: string, shape: (nat, char, char))
    requires Shaped(name, shape)
    ensures !Dashed(Ascii(name)) && SLASH !in Ascii(name)
  {
    assert Ascii(name)[0] == shape.1 as int;
  }

  function SwitchToken(s: Switch): Bytes { [DASH, DASH] + Ascii(SwitchName(s)) }
  function KindToken(k: Kind): Bytes { Ascii(KindName(k)) }
  function WordToken(w: Word): Bytes { Ascii(WordName(w)) }

  ghost function SwitchOf(b: Bytes): Option<Switch> {
    if s :| b == SwitchToken(s) then Some(s) else None
  }

  ghost function KindOf(b: Bytes): Option<Kind> {
    if k :| b == KindToken(k) then Some(k) else None
  }

  ghost function WordOf(b: Bytes): Option<Word> {
    if w :| b == WordToken(w) then Some(w) else None
  }

  lemma SwitchIsFound(s: Switch)
    ensures SwitchOf(SwitchToken(s)) == Some(s) && Dashed(SwitchToken(s))
  {
    hide Shaped, SwitchName, SwitchShape, SwitchAt;
    forall x | SwitchToken(s) == SwitchToken(x)
      ensures x == s
    {
      assert SwitchToken(s)[2..] == Ascii(SwitchName(s)) && SwitchToken(x)[2..] == Ascii(SwitchName(x));
      SwitchIsShaped(s);
      SwitchIsShaped(x);
      SameBytes(SwitchName(s), SwitchShape(s), SwitchName(x), SwitchShape(x));
      SwitchByShape(s);
      SwitchByShape(x);
    }
  }

  lemma KindIsFound(k: Kind)
    ensures KindOf(KindToken(k)) == Some(k) && !Dashed(KindToken(k))
  {
    hide Shaped, KindName, KindShape, Ascii;
    KindIsShaped(k);
    PlainBytes(KindName(k), KindShape(k));
    forall x | KindToken(k) == KindToken(x)
      ensures x == k
    {
      KindIsShaped(x);
      SameBytes(KindName(k), KindShape(k), KindName(x), KindShape(x));
      KindByShape(k, x);
    }
  }

  lemma WordIsFound(w: Word)
    ensures WordOf(WordToken(w)) == Some(w) && !Dashed(WordToken(w)) && Component(WordToken(w))
  {
    hide Shaped, WordName, WordShape, Ascii;
    WordIsShaped(w);
    PlainBytes(WordName(w), WordShape(w));
    forall x | WordToken(w) == WordToken(x)
      ensures x == w
    {
      WordIsShaped(x);
      SameBytes(WordName(w), WordShape(w), WordName(x), WordShape(x));
      WordByShape(w, x);
    }
  }

  predicate Component(b: Bytes) {
    SLASH !in b
  }

  /** The vocabulary of the program; key sources, path equality and text encoding are those of the platform. */
  ghost function Program(
    keyText: KeySource -> Bytes, keyOf: Bytes -> Option<KeySource>,
    samePath: (Bytes, Bytes) -> bool, isUtf8: Bytes -> bool): Vocabulary
  {
    Vocabulary(
      s => SwitchToken(s), b => SwitchOf(b), k => KindToken(k), b => KindOf(b), w => WordToken(w), b => WordOf(b),
      keyText, keyOf, samePath, isUtf8)
  }

  /**
    The program's spellings are lawful: all it needs besides is that a key source
    can be written back, and that path equality is equality on single components.
  */
  lemma ProgramIsLawful(
    keyText: KeySource -> Bytes, keyOf: Bytes -> Option<KeySource>,
    samePath: (Bytes, Bytes) -> bool, isUtf8: Bytes -> bool)
    requires forall b, k :: keyOf(b) == Some(k) ==> keyOf(keyText(k)) == Some(k) && !Dashed(keyText(k))
    requires forall b :: samePath(b, b)
    requires forall a, b :: Component(a) && Component(b) && samePath(a, b) ==> a == b
    ensures Program(keyText, keyOf, samePath, isUtf8).Lawful()
  {
    hide SwitchToken, KindToken, WordToken, Dashed, Component;
    var v := Program(keyText, keyOf, samePath, isUtf8);
    forall s ensures v.switchOf(v.switchName(s)) == Some(s) && Dashed(v.switchName(s)) { SwitchIsFound(s); }
    forall k ensures v.kindOf(v.kindName(k)) == Some(k) && !Dashed(v.kindName(k)) { KindIsFound(k); }
    forall w ensures v.wordOf(v.wordName(w)) == Some(w) && !Dashed(v.wordName(w)) { WordIsFound(w); }
    forall w, x | v.samePath(v.wordName(w), v.wordName(x))
      ensures w == x
    {
      WordIsFound(w);
      WordIsFound(x);
      assert v.wordName(w) == v.wordName(x);
    }
  }
}
