/**
 Keys and certificates, symbolically: a key is an identity, a certificate records whose public
 key it certifies and which key signed it, and PEM encoding is injective.
 */
module Certificates {
  import opened Wrappers

  type KeyId = nat

  /** The identities the next key generations return, or a random source that fails. */
  datatype Entropy = Exhausted | Keys(k0: KeyId, k1: KeyId, k2: KeyId, k3: KeyId, k4: KeyId, k5: KeyId)

  datatype Usage = ServerAuth | ClientAuth

  datatype CertConfig = CertConfig(
    commonName: string,
    organization: seq<string>,
    dnsNames: seq<string>,
    ips: seq<string>,
    usages: seq<Usage>)

  const EMPTY_CONFIG := CertConfig("", [], [], [], [])

  datatype Subject = Subject(commonName: string, organization: seq<string>)

  datatype Certificate = Certificate(
    subject: Subject,
    issuer: Subject,
    dnsNames: seq<string>,
    ips: seq<string>,
    usages: seq<Usage>,
    isCA: bool,
    publicKey: KeyId,
    signedBy: KeyId)

  const CA_COMMON_NAME := "ca"
  const CA_ORGANIZATION := ["kcp"]

  /** The caller's configuration as it is after a CA has been made from it. */
  function CAConfig(config: CertConfig): CertConfig {
    config.(commonName := CA_COMMON_NAME, organization := CA_ORGANIZATION)
  }

  /** A self-signed CA certificate. It takes the DNS names of the configuration, but no addresses or usages. */
  function CACert(config: CertConfig, key: KeyId): Certificate {
    var subject := Subject(CAConfig(config).commonName, CAConfig(config).organization);
    Certificate(subject, subject, config.dnsNames, [], [], true, key, key)
  }

  function NewCA(config: Option<CertConfig>, key: KeyId): (Certificate, KeyId) {
    (CACert(match config case None => EMPTY_CONFIG case Some(c) => c, key), key)
  }

  /** Signing checks that the signer's key is the one the parent certificate certifies. */
  function SignedCert(config: CertConfig, key: KeyId, ca: Certificate, caKey: KeyId): Result<Certificate> {
    if ca.publicKey == caKey
    then Ok(Certificate(Subject(config.commonName, config.organization), ca.subject, config.dnsNames, config.ips,
                        config.usages, false, key, caKey))
    else Err
  }

  function NewCertAndKey(ca: Certificate, caKey: KeyId, config: CertConfig, key: KeyId): Result<(Certificate, KeyId)> {
    match SignedCert(config, key, ca, caKey)
    case Ok(cert) => Ok((cert, key))
    case Err => Err
  }

  /** The certificate chains to the CA: named issuer, and a signature its public key checks. */
  predicate Verifies(cert: Certificate, ca: Certificate) {
    ca.isCA && cert.issuer == ca.subject && cert.signedBy == ca.publicKey
  }

  /** The mutable configuration a caller passes; making a CA from it overwrites two of its fields. */
  class Config {
    var commonName: string
    var organization: seq<string>
    var dnsNames: seq<string>
    var ips: seq<string>
    var usages: seq<Usage>

    constructor (c: CertConfig)
      ensures View() == c
    {
      commonName, organization, dnsNames, ips, usages := c.commonName, c.organization, c.dnsNames, c.ips, c.usages;
    }

    function View(): CertConfig
      reads this
    {
      CertConfig(commonName, organization, dnsNames, ips, usages)
    }
  }

  method NewSelfSignedCACert(config: Config, key: KeyId) returns (cert: Certificate)
    modifies config
    ensures config.View() == CAConfig(old(config.View()))
    ensures cert == CACert(old(config.View()), key)
  {
    config.commonName := CA_COMMON_NAME;
    config.organization := CA_ORGANIZATION;
    var subject := Subject(config.commonName, config.organization);
    cert := Certificate(subject, subject, config.dnsNames, [], [], true, key, key);
  }

  /** NewCA in place: without a configuration of the caller's, it makes an empty one. */
  method MakeCA(config: Config?, key: KeyId) returns (cert: Certificate)
    modifies config
    ensures config == null ==> cert == NewCA(None, key).0
    ensures config != null ==>
              cert == NewCA(Some(old(config.View())), key).0 && config.View() == CAConfig(old(config.View()))
  {
    var c := config;
    if c == null {
      c := new Config(EMPTY_CONFIG);
    }
    cert := NewSelfSignedCACert(c, key);
  }

  /** A certificate issued by a CA chains to another exactly when the two CAs share their key. */
  lemma IssuedChainsByKeyAlone(a: CertConfig, b: CertConfig, ka: KeyId, kb: KeyId, config: CertConfig, key: KeyId)
    ensures var issued := NewCertAndKey(NewCA(Some(a), ka).0, ka, config, key);
            issued.Ok? && issued.value.0.publicKey == issued.value.1 == key &&
            (Verifies(issued.value.0, NewCA(Some(b), kb).0) <==> ka == kb)
  {
  }

  // ---------- PEM ----------

  datatype Pem = CertPem(cert: Certificate) | PrivatePem(key: KeyId) | PublicPem(of: KeyId) | OtherBytes(id: nat)

  function DecodeCertPEM(pem: Pem): Result<Certificate> { if pem.CertPem? then Ok(pem.cert) else Err }

  function DecodePrivateKeyPEM(pem: Pem): Result<KeyId> { if pem.PrivatePem? then Ok(pem.key) else Err }
}
