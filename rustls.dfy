/**
 * The vocabulary of the rustls library that the configuration builder produces,
 * and the external functions it calls, gathered into one record so that every
 * operation is a function of them.
 */
module Rustls {
  import opened Wrappers
  import opened Io

  /** rustls::Certificate: one DER-encoded certificate. */
  datatype Certificate = Certificate(der: Bytes)

  /** rustls::PrivateKey: one DER-encoded private key. */
  datatype PrivateKey = PrivateKey(der: Bytes)

  datatype SignatureAlgorithm = Rsa | Ecdsa | Ed25519

  /** The signer that sign::any_supported_type builds from a private key. */
  datatype SigningKey = SigningKey(algorithm: SignatureAlgorithm, key: PrivateKey)

  /** sign::CertifiedKey: a certificate chain, leaf first, with its signer and stapled data. */
  datatype CertifiedKey = CertifiedKey(
    cert: seq<Certificate>,
    key: SigningKey,
    ocsp: Option<Bytes>,
    sctList: Option<Bytes>)

  /** The trust anchors client certificates are verified against. */
  datatype RootCertStore = RootCertStore(roots: seq<Certificate>)

  /** The three client-certificate verifiers the builder chooses between. */
  datatype ClientCertVerifier =
    | NoClientAuth
    | AllowAnyAnonymousOrAuthenticatedClient(roots: RootCertStore)
    | AllowAnyAuthenticatedClient(roots: RootCertStore)
  {
    /** The server asks the client for a certificate. */
    predicate RequestsClientCert() {
      !NoClientAuth?
    }

    /** A client that presents no certificate is turned away. */
    predicate RejectsAnonymous() {
      AllowAnyAuthenticatedClient?
    }
  }

  /**
   * The external functions, left uninterpreted:
   * - readFile: File::open and read_to_end;
   * - certs, pkcs8PrivateKeys, rsaPrivateKeys: the PEM readers of rustls_pemfile, each giving
   *   the DER blocks it found, or None when the PEM text is malformed;
   * - anySupportedType: sign::any_supported_type, None when no signature scheme fits the key;
   * - readTrustAnchor: the crate's read_trust_anchor, which turns PEM roots into a store.
   */
  datatype Env = Env(
    readFile: FileSystem,
    certs: Bytes -> Option<seq<Bytes>>,
    pkcs8PrivateKeys: Bytes -> Option<seq<Bytes>>,
    rsaPrivateKeys: Bytes -> Option<seq<Bytes>>,
    anySupportedType: PrivateKey -> Option<SigningKey>,
    readTrustAnchor: Bytes -> Result<RootCertStore, IoError>)
}
