/**
 * Keycert: a private key and a certificate chain, each given as bytes or as a
 * file path that is read lazily, plus OCSP staple bytes; and its materialization
 * into a rustls CertifiedKey.
 *
 * The object is a class (its key and cert buffers are filled in place), specified
 * against functions on KeycertState, a snapshot of its fields.
 */
module Keycerts {
  import opened Wrappers
  import opened Io
  import opened Rustls

  const EmptyKey: IoError := IoError(Other, "empty key")
  const EmptyCert: IoError := IoError(Other, "empty cert")
  const CertParseFailed: IoError := IoError(Other, "failed to parse tls certificates")
  const KeyParseFailed: IoError := IoError(Other, "failed to parse tls private keys")
  const InvalidPrivateKey: IoError := IoError(Other, "invalid private key")

  /** The fields of a Keycert, as a value. */
  datatype KeycertState = KeycertState(
    keyPath: Option<Path>,
    key: Bytes,
    certPath: Option<Path>,
    cert: Bytes,
    ocspResp: Bytes)

  /**
   * One lazily loaded buffer: when it is empty and a path is set, the file is read
   * into it; the outcome and the buffer afterwards. An empty buffer after the
   * attempt is the error `empty`.
   */
  function LoadBuffer(buffer: Bytes, path: Option<Path>, readFile: FileSystem, empty: IoError)
    : (out: (Result<Bytes, IoError>, Bytes))
    // a filled buffer is a cache hit: returned as it is, the file is not consulted
    ensures buffer != [] ==> out == (Ok(buffer), buffer)
    // nothing to load from
    ensures buffer == [] && path.None? ==> out == (Err(empty), [])
    // success always leaves exactly the returned bytes in the buffer
    ensures out.0.Ok? ==> out.0.value != [] && out.1 == out.0.value
    // a failed read leaves the buffer empty and reports the file's error
    ensures buffer == [] && path.Some? && readFile(path.value).Err? ==>
      out == (Err(readFile(path.value).error), [])
    // a read file fills the buffer; an empty file is the error `empty`
    ensures buffer == [] && path.Some? && readFile(path.value).Ok? ==>
      out.1 == readFile(path.value).value &&
      (out.0.Err? <==> out.1 == []) &&
      (out.0.Err? ==> out.0.error == empty)
  {
    var loaded :=
      if buffer == [] && path.Some? then
        match readFile(path.value)
        case Err(e) => Err(e)
        case Ok(data) => Ok(buffer + data)
      else
        Ok(buffer);
    match loaded
    case Err(e) => (Err(e), buffer)
    case Ok(b) => if b == [] then (Err(empty), b) else (Ok(b), b)
  }

  /** Keycert::key on a snapshot. */
  function LoadKey(st: KeycertState, readFile: FileSystem): (out: (Result<Bytes, IoError>, KeycertState))
    // only the key buffer changes, and a success leaves the returned bytes in it
    ensures out.1 == st.(key := out.1.key)
    ensures out.0.Ok? ==> out.1.key == out.0.value
  {
    var (r, buffer) := LoadBuffer(st.key, st.keyPath, readFile, EmptyKey);
    (r, st.(key := buffer))
  }

  /** Keycert::cert on a snapshot. */
  function LoadCert(st: KeycertState, readFile: FileSystem): (out: (Result<Bytes, IoError>, KeycertState))
    // only the cert buffer changes, and a success leaves the returned bytes in it
    ensures out.1 == st.(cert := out.1.cert)
    ensures out.0.Ok? ==> out.1.cert == out.0.value
  {
    var (r, buffer) := LoadBuffer(st.cert, st.certPath, readFile, EmptyCert);
    (r, st.(cert := buffer))
  }

  /** The parser found at least one key. */
  predicate HasKey(parsed: Option<seq<Bytes>>) {
    parsed.Some? && parsed.value != []
  }

  /**
   * The private key chosen from the key bytes: the first PKCS8 key; when the PKCS8
   * reader finds none, the first RSA key; a malformed PEM text or no key at all is
   * "failed to parse tls private keys".
   */
  function SelectPrivateKey(key: Bytes, env: Env): (r: Result<PrivateKey, IoError>)
    ensures r.Ok? <==>
      HasKey(env.pkcs8PrivateKeys(key)) ||
      (env.pkcs8PrivateKeys(key) == Some([]) && HasKey(env.rsaPrivateKeys(key)))
    ensures HasKey(env.pkcs8PrivateKeys(key)) ==>
      r == Ok(PrivateKey(env.pkcs8PrivateKeys(key).value[0]))
    ensures !HasKey(env.pkcs8PrivateKeys(key)) && r.Ok? ==>
      r.value == PrivateKey(env.rsaPrivateKeys(key).value[0])
    ensures r.Err? ==> r.error == KeyParseFailed
  {
    match env.pkcs8PrivateKeys(key)
    case None => Err(KeyParseFailed)
    case Some(pkcs8) =>
      if pkcs8 != [] then Ok(PrivateKey(pkcs8[0]))
      else
        match env.rsaPrivateKeys(key)
        case None => Err(KeyParseFailed)
        case Some(rsa) =>
          if rsa != [] then Ok(PrivateKey(rsa[0])) else Err(KeyParseFailed)
  }

  /** The RSA reader is not consulted when the PKCS8 reader finds a key. */
  lemma RsaNotConsultedAfterPkcs8(key: Bytes, env: Env, env': Env)
    requires HasKey(env.pkcs8PrivateKeys(key))
    requires env'.pkcs8PrivateKeys(key) == env.pkcs8PrivateKeys(key)
    ensures SelectPrivateKey(key, env') == SelectPrivateKey(key, env)
  {
  }

  /** The OCSP staple attached to a certified key: only non-empty bytes are stapled. */
  function OcspStaple(ocspResp: Bytes): (r: Option<Bytes>)
    ensures r.Some? <==> ocspResp != []
    ensures r.Some? ==> r.value == ocspResp
  {
    if ocspResp != [] then Some(ocspResp) else None
  }

  /** DER blocks wrapped as rustls certificates, in order. */
  function Certificates(ders: seq<Bytes>): (r: seq<Certificate>)
    ensures |r| == |ders|
    ensures forall i :: 0 <= i < |ders| ==> r[i] == Certificate(ders[i])
  {
    seq(|ders|, i requires 0 <= i < |ders| => Certificate(ders[i]))
  }

  /** The error a path's file read reports, if there is a path and the read fails. */
  predicate FileFailsWith(path: Option<Path>, readFile: FileSystem, e: IoError) {
    path.Some? && readFile(path.value) == Err(e)
  }

  /**
   * Keycert::build_certified_key on a snapshot: the certified key or the error, and
   * the snapshot afterwards. Certificates are loaded and parsed first, then the key is
   * loaded, chosen and turned into a signer; the first failure ends it.
   */
  function Materialize(st: KeycertState, env: Env): (out: (Result<CertifiedKey, IoError>, KeycertState))
    // only the two buffers change
    ensures out.1 == st.(key := out.1.key, cert := out.1.cert)
  {
    var (c, st1) := LoadCert(st, env.readFile);
    if c.Err? then (Err(c.error), st1)
    else
      match env.certs(c.value)
      case None => (Err(CertParseFailed), st1)
      case Some(ders) =>
        var (k, st2) := LoadKey(st1, env.readFile);
        if k.Err? then (Err(k.error), st2)
        else
          match SelectPrivateKey(k.value, env)
          case Err(e) => (Err(e), st2)
          case Ok(privateKey) =>
            match env.anySupportedType(privateKey)
            case None => (Err(InvalidPrivateKey), st2)
            case Some(signer) =>
              (Ok(CertifiedKey(Certificates(ders), signer, OcspStaple(st2.ocspResp), None)), st2)
  }

  /**
   * What materialization promises: only the two caches change, the certificate
   * buffer is loaded first and the key buffer only once the certificates have
   * parsed; a certified key is made of the loaded bytes, with the chosen private
   * key's signer, the OCSP bytes stapled only when there are some and no SCT list;
   * an error is one of the source's own, or that of one of the two file reads.
   */
  lemma MaterializeSpec(st: KeycertState, env: Env)
    ensures var (r, after) := Materialize(st, env);
      (after.keyPath == st.keyPath && after.certPath == st.certPath && after.ocspResp == st.ocspResp) &&
      (after.cert == LoadCert(st, env.readFile).1.cert) &&
      (after.key == st.key || after.key == LoadKey(st, env.readFile).1.key) &&
      (r.Ok? ==>
        var ck := r.value;
        after.cert != [] && after.key != [] &&
        env.certs(after.cert).Some? && ck.cert == Certificates(env.certs(after.cert).value) &&
        SelectPrivateKey(after.key, env).Ok? &&
        env.anySupportedType(SelectPrivateKey(after.key, env).value) == Some(ck.key) &&
        ck.ocsp == OcspStaple(st.ocspResp) && ck.sctList == None) &&
      (r.Err? ==>
        var e := r.error;
        e in {EmptyCert, CertParseFailed, EmptyKey, KeyParseFailed, InvalidPrivateKey} ||
        FileFailsWith(st.certPath, env.readFile, e) || FileFailsWith(st.keyPath, env.readFile, e))
  {
  }

  /**
   * Each step of materialization reports its own error, and the key buffer is not
   * touched until the certificates have parsed: a failed certificate load gives its
   * error, certificates that do not parse give "failed to parse tls certificates", a
   * failed key load gives its error, a key that cannot be chosen gives "failed to
   * parse tls private keys", and a key without a signer gives "invalid private key".
   */
  lemma MaterializeReportsEachStep(st: KeycertState, env: Env)
    ensures var (r, after) := Materialize(st, env);
      var c := LoadCert(st, env.readFile).0;
      var k := LoadKey(st, env.readFile).0;
      (c.Err? ==> r == Err(c.error) && after.key == st.key) &&
      (c.Ok? && env.certs(c.value).None? ==> r == Err(CertParseFailed) && after.key == st.key) &&
      (c.Ok? && env.certs(c.value).Some? && k.Err? ==> r == Err(k.error)) &&
      (c.Ok? && env.certs(c.value).Some? && k.Ok? && SelectPrivateKey(k.value, env).Err? ==>
        r == Err(KeyParseFailed)) &&
      (c.Ok? && env.certs(c.value).Some? && k.Ok? && SelectPrivateKey(k.value, env).Ok? &&
       env.anySupportedType(SelectPrivateKey(k.value, env).value).None? ==>
        r == Err(InvalidPrivateKey))
  {
  }

  /**
   * Materialization succeeds exactly when every step does: the certificates load and
   * parse, the key loads, a private key is chosen and a signer fits it. The identity
   * then holds one certificate per parsed block.
   */
  lemma MaterializeBuildsExactly(st: KeycertState, env: Env)
    ensures var r := Materialize(st, env).0;
      var c := LoadCert(st, env.readFile).0;
      var k := LoadKey(st, env.readFile).0;
      (r.Ok? <==>
        c.Ok? && env.certs(c.value).Some? && k.Ok? && SelectPrivateKey(k.value, env).Ok? &&
        env.anySupportedType(SelectPrivateKey(k.value, env).value).Some?) &&
      (r.Ok? ==> |r.value.cert| == |env.certs(c.value).value|)
  {
  }

  /**
   * A second load after a successful one is served from the buffer: same bytes, same
   * buffer, whatever the file system says now.
   */
  lemma LoadBufferCached(buffer: Bytes, path: Option<Path>, readFile: FileSystem, readFile': FileSystem, empty: IoError)
    requires LoadBuffer(buffer, path, readFile, empty).0.Ok?
    ensures var (r, after) := LoadBuffer(buffer, path, readFile, empty);
      LoadBuffer(after, path, readFile', empty) == (r, after)
  {
  }

  /**
   * Materializing again after a success gives the same certified key and leaves the
   * snapshot as it is, even when the files have changed in between: the loaded
   * buffers act as a cache.
   */
  lemma MaterializeCached(st: KeycertState, env: Env, readFile': FileSystem)
    requires Materialize(st, env).0.Ok?
    ensures var (r, after) := Materialize(st, env);
      Materialize(after, env.(readFile := readFile')) == (r, after)
  {
    var (r, after) := Materialize(st, env);
    var env' := env.(readFile := readFile');
    assert LoadCert(after, readFile') == (Ok(after.cert), after);
    assert LoadKey(after, readFile') == (Ok(after.key), after);
    assert SelectPrivateKey(after.key, env') == SelectPrivateKey(after.key, env);
  }

  /** With neither key bytes nor a key path, materialization can only fail. */
  lemma MaterializeWithoutKeyFails(st: KeycertState, env: Env)
    requires st.key == [] && st.keyPath.None?
    ensures Materialize(st, env).0.Err?
  {
  }

  /** A Tls private key and certificate, as the builder methods fill them in. */
  class Keycert {
    var keyPath: Option<Path>
    var key: Bytes
    var certPath: Option<Path>
    var cert: Bytes
    var ocspResp: Bytes

    function State(): KeycertState
      reads this
    {
      KeycertState(keyPath, key, certPath, cert, ocspResp)
    }

    constructor ()
      ensures State() == KeycertState(None, [], None, [], [])
    {
      keyPath, key, certPath, cert, ocspResp := None, [], None, [], [];
    }

    method WithKeyPath(path: Path)
      modifies this`keyPath
      ensures keyPath == Some(path)
    {
      keyPath := Some(path);
    }

    method WithKey(bytes: Bytes)
      modifies this`key
      ensures key == bytes
    {
      key := bytes;
    }

    method WithCertPath(path: Path)
      modifies this`certPath
      ensures certPath == Some(path)
    {
      certPath := Some(path);
    }

    method WithCert(bytes: Bytes)
      modifies this`cert
      ensures cert == bytes
    {
      cert := bytes;
    }

    /** The private key, read from keyPath into the empty buffer on first use. */
    method Key(readFile: FileSystem) returns (r: Result<Bytes, IoError>)
      modifies this`key
      ensures (r, key) == LoadBuffer(old(key), keyPath, readFile, EmptyKey)
    {
      if key == [] {
        if keyPath.Some? {
          var contents := readFile(keyPath.value);
          if contents.Err? {
            return Err(contents.error);
          }
          key := key + contents.value;
        }
      }
      if key == [] {
        r := Err(EmptyKey);
      } else {
        r := Ok(key);
      }
    }

    /** The certificate chain, read from certPath into the empty buffer on first use. */
    method Cert(readFile: FileSystem) returns (r: Result<Bytes, IoError>)
      modifies this`cert
      ensures (r, cert) == LoadBuffer(old(cert), certPath, readFile, EmptyCert)
    {
      if cert == [] {
        if certPath.Some? {
          var contents := readFile(certPath.value);
          if contents.Err? {
            return Err(contents.error);
          }
          cert := cert + contents.value;
        }
      }
      if cert == [] {
        r := Err(EmptyCert);
      } else {
        r := Ok(cert);
      }
    }

    /** The OCSP bytes, as given; reading them loads nothing. */
    function OcspResp(): (r: Bytes)
      reads this
      ensures r == State().ocspResp
    {
      ocspResp
    }

    /** The certified key this key and certificate make, filling the caches on the way. */
    method BuildCertifiedKey(env: Env) returns (r: Result<CertifiedKey, IoError>)
      modifies this`key, this`cert
      ensures (r, State()) == Materialize(old(State()), env)
    {
      var c := Cert(env.readFile);
      if c.Err? {
        return Err(c.error);
      }
      var ders := env.certs(c.value);
      if ders.None? {
        return Err(CertParseFailed);
      }
      var chain := Certificates(ders.value);

      var k := Key(env.readFile);
      if k.Err? {
        return Err(k.error);
      }
      var pkcs8 := env.pkcs8PrivateKeys(k.value);
      if pkcs8.None? {
        return Err(KeyParseFailed);
      }
      var privateKey: PrivateKey;
      if pkcs8.value != [] {
        privateKey := PrivateKey(pkcs8.value[0]);
      } else {
        // the key is asked for again; the first call filled the buffer, so this one
        // is served from it and cannot fail
        var again := Key(env.readFile);
        assert again == k;
        var rsa := env.rsaPrivateKeys(again.value);
        if rsa.None? {
          return Err(KeyParseFailed);
        }
        if rsa.value != [] {
          privateKey := PrivateKey(rsa.value[0]);
        } else {
          return Err(KeyParseFailed);
        }
      }

      var signer := env.anySupportedType(privateKey);
      if signer.None? {
        return Err(InvalidPrivateKey);
      }
      r := Ok(CertifiedKey(chain, signer.value, OcspStaple(ocspResp), None));
    }
  }
}
