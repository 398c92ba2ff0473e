/** The secure-socket part of the client: which TLS set-up a configuration
    selects, the key material each set-up loads through the crypto library,
    and the SSL context that results.  The crypto library's decoders and the
    loading of PKCS12 files are parameters (`Crypto`); the JDK factories are
    represented by what they are initialised with. */
module Tls {
  import opened Results
  import opened Messages

  const PKCS12: string := "PKCS12"
  const TLS: string := "TLS"

  // ---------------------------------------------------------------------
  // Configuration

  /** The `cert` entry of the secure-socket configuration. */
  datatype TrustSource =
    | InlineCert(certPath: string)                      // a string: a certificate file
    | TrustStoreBundle(path: string, password: string)  // a map: a PKCS12 truststore
    | NoTrust                                           // anything else

  /** The `key` entry of the secure-socket configuration. */
  datatype KeySource =
    | NoKey
    | CertKeyFiles(certFile: string, keyFile: string, keyPassword: Option<string>)  // has `certFile`
    | KeyStoreBundle(path: string, password: string)

  datatype SecureSocket = SecureSocket(disable: bool, cert: TrustSource, key: KeySource)

  /** One constructor per `initSslContext` overload, plus "no context". */
  datatype SslPlan =
    | TrustAll
    | CertOnly(cert: string)
    | CertWithKeyFiles(cert: string, certFile: string, keyFile: string, keyPassword: Option<string>)
    | CertWithKeyStore(cert: string, keyStorePath: string, keyStorePassword: string)
    | TrustStoreOnly(trustStorePath: string, trustStorePassword: string)
    | TrustStoreWithKeyFiles(trustStorePath: string, trustStorePassword: string,
                             certFile: string, keyFile: string, keyPassword: Option<string>)
    | TrustStoreWithKeyStore(trustStorePath: string, trustStorePassword: string,
                             keyStorePath: string, keyStorePassword: string)
    | NoContext

  /** The trust source a plan loads. */
  function PlanTrust(p: SslPlan): TrustSource {
    match p
    case CertOnly(c) => InlineCert(c)
    case CertWithKeyFiles(c, _, _, _) => InlineCert(c)
    case CertWithKeyStore(c, _, _) => InlineCert(c)
    case TrustStoreOnly(tp, tw) => TrustStoreBundle(tp, tw)
    case TrustStoreWithKeyFiles(tp, tw, _, _, _) => TrustStoreBundle(tp, tw)
    case TrustStoreWithKeyStore(tp, tw, _, _) => TrustStoreBundle(tp, tw)
    case _ => NoTrust
  }

  /** The client key a plan loads. */
  function PlanKey(p: SslPlan): KeySource {
    match p
    case CertWithKeyFiles(_, cf, kf, kp) => CertKeyFiles(cf, kf, kp)
    case CertWithKeyStore(_, kp, kw) => KeyStoreBundle(kp, kw)
    case TrustStoreWithKeyFiles(_, _, cf, kf, kp) => CertKeyFiles(cf, kf, kp)
    case TrustStoreWithKeyStore(_, _, kp, kw) => KeyStoreBundle(kp, kw)
    case _ => NoKey
  }

  /** The dispatch of `getSslContext`: `disable` first, then the kind of the
      trust source, then the kind of the key. */
  function PlanOf(s: SecureSocket): (p: SslPlan)
    ensures s.disable ==> p == TrustAll
    ensures !s.disable && s.cert.NoTrust? ==> p == NoContext
    ensures !s.disable && !s.cert.NoTrust? ==>
      p != TrustAll && p != NoContext && PlanTrust(p) == s.cert && PlanKey(p) == s.key
  {
    if s.disable then TrustAll
    else
      match s.cert
      case InlineCert(c) =>
        (match s.key
         case CertKeyFiles(cf, kf, kp) => CertWithKeyFiles(c, cf, kf, kp)
         case KeyStoreBundle(kp, kw) => CertWithKeyStore(c, kp, kw)
         case NoKey => CertOnly(c))
      case TrustStoreBundle(tp, tw) =>
        (match s.key
         case CertKeyFiles(cf, kf, kp) => TrustStoreWithKeyFiles(tp, tw, cf, kf, kp)
         case KeyStoreBundle(kp, kw) => TrustStoreWithKeyStore(tp, tw, kp, kw)
         case NoKey => TrustStoreOnly(tp, tw))
      case NoTrust => NoContext
  }

  // ---------------------------------------------------------------------
  // Key material

  datatype Certificate = Certificate(handle: nat)
  datatype PrivateKey = PrivateKey(handle: nat)

  datatype StoreEntry =
    | TrustedCertEntry(cert: Certificate)
    | PrivateKeyEntry(key: PrivateKey, entryPassword: string, chain: seq<Certificate>)

  datatype KeyStore = KeyStore(storeType: string, entries: seq<StoreEntry>)

  /** The crypto library and the keystore loader, as the client sees them. */
  datatype Crypto = Crypto(
    decodePublicCert: string -> Result<Certificate>,                  // decodeRsaPublicKeyFromCertFile
    decodePrivateKey: (string, Option<string>) -> Result<PrivateKey>, // decodeRsaPrivateKeyFromKeyFile
    loadKeyStore: (string, string) -> Result<KeyStore>)              // getKeyStore: PKCS12 file + password

  /** A truststore holding the one certificate decoded from `path`. */
  function BuildTrustStore(path: string, crypto: Crypto): (r: Result<KeyStore>)
    ensures r.Ok? <==> crypto.decodePublicCert(path).Ok?
    ensures r.Ok? ==>
      r.value == KeyStore(PKCS12, [TrustedCertEntry(crypto.decodePublicCert(path).value)])
    ensures r.Err? ==> r.message == PUBLIC_KEY_PREFIX + crypto.decodePublicCert(path).message
  {
    match crypto.decodePublicCert(path)
    case Ok(cert) => Ok(KeyStore(PKCS12, [TrustedCertEntry(cert)]))
    case Err(m) => Err(PUBLIC_KEY_PREFIX + m)
  }

  /** A keystore holding the private key of `keyPath` with the certificate
      of `certPath` as its chain.  The certificate is decoded first. */
  function BuildKeyStore(certPath: string, keyPath: string, keyPassword: Option<string>,
                         crypto: Crypto): (r: Result<KeyStore>)
    ensures r.Ok? <==>
      crypto.decodePublicCert(certPath).Ok? && crypto.decodePrivateKey(keyPath, keyPassword).Ok?
    ensures crypto.decodePublicCert(certPath).Err? ==>
      r == Err(PUBLIC_KEY_PREFIX + crypto.decodePublicCert(certPath).message)
    ensures crypto.decodePublicCert(certPath).Ok? && crypto.decodePrivateKey(keyPath, keyPassword).Err? ==>
      r == Err(PRIVATE_KEY_PREFIX + crypto.decodePrivateKey(keyPath, keyPassword).message)
    ensures r.Ok? ==>
      r.value == KeyStore(PKCS12, [PrivateKeyEntry(crypto.decodePrivateKey(keyPath, keyPassword).value, "",
                                                   [crypto.decodePublicCert(certPath).value])])
  {
    match crypto.decodePublicCert(certPath)
    case Err(m) => Err(PUBLIC_KEY_PREFIX + m)
    case Ok(cert) =>
      match crypto.decodePrivateKey(keyPath, keyPassword)
      case Err(m) => Err(PRIVATE_KEY_PREFIX + m)
      case Ok(key) => Ok(KeyStore(PKCS12, [PrivateKeyEntry(key, "", [cert])]))
  }

  // ---------------------------------------------------------------------
  // SSL contexts

  /** The algorithm name a trust-manager factory is created with. */
  datatype TrustAlgorithm = TrustManagerDefault | KeyManagerDefault

  datatype TrustManagers =
    | AcceptAnyServer                                       // checks nothing
    | StoreTrust(algorithm: TrustAlgorithm, store: KeyStore)

  datatype KeyManagers =
    | NoKeyManagers
    | StoreKeys(store: KeyStore, password: string)          // factory initialised with `password`

  datatype SslContext = SslContext(protocol: string, keyManagers: KeyManagers, trustManagers: TrustManagers)

  /** The `initSslContext` overloads.  `None` is the null context. */
  function InitSslContext(p: SslPlan, crypto: Crypto): Result<Option<SslContext>> {
    match p
    case TrustAll =>
      Ok(Some(SslContext(TLS, NoKeyManagers, AcceptAnyServer)))
    case CertOnly(cert) =>
      var ts :- BuildTrustStore(cert, crypto);
      Ok(Some(SslContext(TLS, NoKeyManagers, StoreTrust(TrustManagerDefault, ts))))
    case CertWithKeyFiles(cert, certFile, keyFile, keyPassword) =>
      var ts :- BuildTrustStore(cert, crypto);
      var ks :- BuildKeyStore(certFile, keyFile, keyPassword, crypto);
      Ok(Some(SslContext(TLS, StoreKeys(ks, ""), StoreTrust(TrustManagerDefault, ts))))
    case CertWithKeyStore(cert, keyStorePath, keyStorePassword) =>
      var ts :- BuildTrustStore(cert, crypto);
      var ks :- crypto.loadKeyStore(keyStorePath, keyStorePassword);
      Ok(Some(SslContext(TLS, StoreKeys(ks, keyStorePassword), StoreTrust(TrustManagerDefault, ts))))
    case TrustStoreOnly(trustStorePath, trustStorePassword) =>
      var ts :- crypto.loadKeyStore(trustStorePath, trustStorePassword);
      Ok(Some(SslContext(TLS, NoKeyManagers, StoreTrust(TrustManagerDefault, ts))))
    case TrustStoreWithKeyFiles(trustStorePath, trustStorePassword, certFile, keyFile, keyPassword) =>
      var ts :- crypto.loadKeyStore(trustStorePath, trustStorePassword);
      var ks :- BuildKeyStore(certFile, keyFile, keyPassword, crypto);
      Ok(Some(SslContext(TLS, StoreKeys(ks, ""), StoreTrust(KeyManagerDefault, ts))))
    case TrustStoreWithKeyStore(trustStorePath, trustStorePassword, keyStorePath, keyStorePassword) =>
      var ts :- crypto.loadKeyStore(trustStorePath, trustStorePassword);
      var ks :- crypto.loadKeyStore(keyStorePath, keyStorePassword);
      Ok(Some(SslContext(TLS, StoreKeys(ks, keyStorePassword), StoreTrust(KeyManagerDefault, ts))))
    case NoContext =>
      Ok(None)
  }

  /** `getSslContext`: the plan of the configuration, carried out. */
  function SslContextOf(s: SecureSocket, crypto: Crypto): Result<Option<SslContext>> {
    InitSslContext(PlanOf(s), crypto)
  }

  // ---------------------------------------------------------------------
  // The same behaviour as one resolution: trust, then key, then context

  /** Loads the trust anchors of a trust source. */
  function TrustStep(t: TrustSource, crypto: Crypto): Result<KeyStore>
    requires !t.NoTrust?
  {
    match t
    case InlineCert(path) => BuildTrustStore(path, crypto)
    case TrustStoreBundle(path, password) => crypto.loadKeyStore(path, password)
  }

  /** Loads the client identity of a key source. */
  function KeyStep(k: KeySource, crypto: Crypto): Result<KeyManagers> {
    match k
    case NoKey => Ok(NoKeyManagers)
    case CertKeyFiles(certFile, keyFile, keyPassword) =>
      var ks :- BuildKeyStore(certFile, keyFile, keyPassword, crypto);
      Ok(StoreKeys(ks, ""))
    case KeyStoreBundle(path, password) =>
      var ks :- crypto.loadKeyStore(path, password);
      Ok(StoreKeys(ks, password))
  }

  /** The trust-manager factory of a truststore combined with a client key is
      created with the key-manager factory's default algorithm. */
  function TrustAlgorithmFor(s: SecureSocket): TrustAlgorithm {
    if s.cert.TrustStoreBundle? && !s.key.NoKey? then KeyManagerDefault else TrustManagerDefault
  }

  function Resolve(s: SecureSocket, crypto: Crypto): Result<Option<SslContext>> {
    if s.disable then Ok(Some(SslContext(TLS, NoKeyManagers, AcceptAnyServer)))
    else if s.cert.NoTrust? then Ok(None)
    else
      var ts :- TrustStep(s.cert, crypto);
      var km :- KeyStep(s.key, crypto);
      Ok(Some(SslContext(TLS, km, StoreTrust(TrustAlgorithmFor(s), ts))))
  }

  /** The seven overloads and the null case are exactly one resolution:
      disable wins, otherwise the trust anchors are loaded first, then the
      client key, and the first failure is the result. */
  lemma OverloadsAreResolution(s: SecureSocket, crypto: Crypto)
    ensures SslContextOf(s, crypto) == Resolve(s, crypto)
  {
  }

  // ---------------------------------------------------------------------
  // Properties

  /** The trust-everything context is chosen exactly when `disable` is set,
      and then whatever `cert` and `key` hold. */
  lemma TrustAllIffDisabled(s: SecureSocket, crypto: Crypto)
    ensures s.disable ==> SslContextOf(s, crypto) == Ok(Some(SslContext(TLS, NoKeyManagers, AcceptAnyServer)))
    ensures (SslContextOf(s, crypto).Ok? && SslContextOf(s, crypto).value.Some?
             && SslContextOf(s, crypto).value.value.trustManagers == AcceptAnyServer) ==> s.disable
  {
  }

  /** No context at all exactly when verification is on and `cert` is
      neither a certificate path nor a truststore. */
  lemma NoContextIffNoTrust(s: SecureSocket, crypto: Crypto)
    ensures SslContextOf(s, crypto) == Ok(None) <==> !s.disable && s.cert.NoTrust?
  {
  }

  /** A failure to load the trust anchors is the result, whatever the key. */
  lemma TrustFailureComesFirst(s: SecureSocket, crypto: Crypto)
    requires !s.disable && !s.cert.NoTrust?
    requires TrustStep(s.cert, crypto).Err?
    ensures SslContextOf(s, crypto) == Err(TrustStep(s.cert, crypto).message)
    ensures s.cert.InlineCert? ==>
      SslContextOf(s, crypto) == Err(PUBLIC_KEY_PREFIX + crypto.decodePublicCert(s.cert.certPath).message)
  {
  }

  /** The client identity: present exactly when a key is configured (and
      verification is on); a keystore's key managers use the keystore
      password, a certificate/key pair's use the empty password and hold the
      decoded key with the decoded certificate as chain. */
  lemma ClientIdentity(s: SecureSocket, crypto: Crypto, ctx: SslContext)
    requires SslContextOf(s, crypto) == Ok(Some(ctx))
    ensures ctx.protocol == TLS
    ensures ctx.keyManagers.StoreKeys? <==> !s.disable && !s.key.NoKey?
    ensures !s.disable && s.key.KeyStoreBundle? ==>
      ctx.keyManagers == StoreKeys(crypto.loadKeyStore(s.key.path, s.key.password).value, s.key.password)
    ensures !s.disable && s.key.CertKeyFiles? ==>
      var cert := crypto.decodePublicCert(s.key.certFile).value;
      var key := crypto.decodePrivateKey(s.key.keyFile, s.key.keyPassword).value;
      ctx.keyManagers == StoreKeys(KeyStore(PKCS12, [PrivateKeyEntry(key, "", [cert])]), "")
  {
  }

  /** The trust anchors: the decoded certificate alone for an inline
      certificate, the loaded truststore otherwise. */
  lemma TrustAnchors(s: SecureSocket, crypto: Crypto, ctx: SslContext)
    requires !s.disable
    requires SslContextOf(s, crypto) == Ok(Some(ctx))
    ensures ctx.trustManagers.StoreTrust?
    ensures ctx.trustManagers.algorithm == TrustAlgorithmFor(s)
    ensures s.cert.InlineCert? ==>
      ctx.trustManagers.store == KeyStore(PKCS12, [TrustedCertEntry(crypto.decodePublicCert(s.cert.certPath).value)])
    ensures s.cert.TrustStoreBundle? ==>
      ctx.trustManagers.store == crypto.loadKeyStore(s.cert.path, s.cert.password).value
  {
  }

  /** A failed resolution reports a decoder failure under one of the two
      crypto prefixes, or the loader's own message for one of the stores
      the configuration names. */
  lemma ErrorSources(s: SecureSocket, crypto: Crypto)
    requires SslContextOf(s, crypto).Err?
    ensures var m := SslContextOf(s, crypto).message;
      || StartsWith(m, PUBLIC_KEY_PREFIX)
      || StartsWith(m, PRIVATE_KEY_PREFIX)
      || (s.cert.TrustStoreBundle? && crypto.loadKeyStore(s.cert.path, s.cert.password) == Err(m))
      || (s.key.KeyStoreBundle? && crypto.loadKeyStore(s.key.path, s.key.password) == Err(m))
  {
  }
}
