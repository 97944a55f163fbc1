/**
 * RustlsConfig: the builder of a TLS server configuration. It holds a fallback
 * Keycert, a Keycert per SNI server name and a client-authentication policy, and
 * materializes them all into a ServerConfig whose certificate resolver serves them.
 */
module Config {
  import opened Wrappers
  import opened Io
  import opened Rustls
  import opened Keycerts
  import opened Resolver

  /** The client-authentication policy; the two trust-anchor variants carry PEM roots. */
  datatype TlsClientAuth = Off | Optional(trustAnchor: Bytes) | Required(trustAnchor: Bytes)

  /** The rustls ServerConfig, reduced to the three parts the builder sets. */
  datatype ServerConfig = ServerConfig(
    clientCertVerifier: ClientCertVerifier,
    certResolver: CertResolver,
    alpnProtocols: seq<string>)

  /** The application protocols offered, HTTP/2 first. */
  const AlpnProtocols: seq<string> := ["h2", "http/1.1"]

  /**
   * The verifier for a policy: none for Off; for the other two, one over the trust
   * anchors read from the policy's bytes, failing when they cannot be read.
   */
  function ClientCertVerifierFor(auth: TlsClientAuth, env: Env): (r: Result<ClientCertVerifier, IoError>)
    ensures auth.Off? ==> r == Ok(NoClientAuth)
    ensures !auth.Off? ==> (r.Ok? <==> env.readTrustAnchor(auth.trustAnchor).Ok?)
    ensures !auth.Off? && r.Err? ==> r.error == env.readTrustAnchor(auth.trustAnchor).error
    // the verifier keeps the policy: a certificate is asked for unless Off, and is
    // mandatory exactly under Required, checked against the policy's own anchors
    ensures r.Ok? ==>
      (r.value.RequestsClientCert() <==> !auth.Off?) &&
      (r.value.RejectsAnonymous() <==> auth.Required?) &&
      (!auth.Off? ==> r.value.roots == env.readTrustAnchor(auth.trustAnchor).value)
  {
    match auth
    case Off => Ok(NoClientAuth)
    case Optional(trustAnchor) =>
      (match env.readTrustAnchor(trustAnchor)
       case Err(e) => Err(e)
       case Ok(roots) => Ok(AllowAnyAnonymousOrAuthenticatedClient(roots)))
    case Required(trustAnchor) =>
      match env.readTrustAnchor(trustAnchor)
      case Err(e) => Err(e)
      case Ok(roots) => Ok(AllowAnyAuthenticatedClient(roots))
  }

  /** Trust anchors that are readable serve both trust-anchor policies alike. */
  lemma OptionalAndRequiredReadAnchorsAlike(trustAnchor: Bytes, env: Env)
    ensures ClientCertVerifierFor(Optional(trustAnchor), env).Ok? <==>
            ClientCertVerifierFor(Required(trustAnchor), env).Ok?
  {
  }

  predicate Distinct(s: seq<string>) {
    forall i, j :: 0 <= i < j < |s| ==> s[i] != s[j]
  }

  /** `order` lists every name of `names` exactly once: an iteration order of a map with these keys. */
  ghost predicate Enumerates(order: seq<string>, names: set<string>) {
    Distinct(order) && forall n :: n in order <==> n in names
  }

  /** The order in which a map with keys `names` is iterated: each key once, in an order the map chooses. */
  method IterationOrder(names: set<string>) returns (order: seq<string>)
    ensures Enumerates(order, names)
  {
    order := [];
    var remaining := names;
    while remaining != {}
      invariant remaining <= names
      invariant Enumerates(order, names - remaining)
      decreases remaining
    {
      var n :| n in remaining;
      order := order + [n];
      remaining := remaining - {n};
    }
  }

  /** How one Keycert snapshot is materialized: the certified key or error, and the snapshot afterwards. */
  type Build = KeycertState -> (Result<CertifiedKey, IoError>, KeycertState)

  /** Keycert::build_certified_key, as a Build. */
  function MaterializeWith(env: Env): Build
  {
    st => Materialize(st, env)
  }

  /**
   * One pass of the loop of build_server_config: unless an earlier Keycert failed,
   * the Keycert under `name` is built, and its certified key joins the map or its
   * error ends the loop. (A name the map lacks, which the loop never meets, is
   * passed over.)
   */
  function MaterializeStep(
    prior: (Result<map<string, CertifiedKey>, IoError>, map<string, KeycertState>), name: string, build: Build)
    : (out: (Result<map<string, CertifiedKey>, IoError>, map<string, KeycertState>))
    ensures out.1.Keys == prior.1.Keys
  {
    if prior.0.Err? || name !in prior.1 then prior
    else
      var built := build(prior.1[name]);
      var keys := if built.0.Err? then Err(built.0.error) else Ok(prior.0.value[name := built.0.value]);
      (keys, prior.1[name := built.1])
  }

  /**
   * The loop of build_server_config over the Keycerts, visiting the names in `order`;
   * the first failure ends it. Also the snapshots afterwards.
   */
  function MaterializeAll(order: seq<string>, states: map<string, KeycertState>, build: Build)
    : (out: (Result<map<string, CertifiedKey>, IoError>, map<string, KeycertState>))
    ensures out.1.Keys == states.Keys
    decreases |order|
  {
    if |order| == 0 then (Ok(map[]), states)
    else MaterializeStep(MaterializeAll(order[..|order| - 1], states, build), order[|order| - 1], build)
  }

  /**
   * The Keycert at position i of the order is the first to fail, with error e: the
   * loop over the names before it succeeds.
   */
  predicate FirstFailure(order: seq<string>, states: map<string, KeycertState>, build: Build, i: nat, e: IoError)
    requires i < |order|
  {
    MaterializeAll(order[..i], states, build).0.Ok? &&
    order[i] in states && build(states[order[i]]).0 == Err(e)
  }

  /** Keycerts the loop does not visit keep their snapshots. */
  lemma {:induction false} MaterializeAllLeavesUnvisited(order: seq<string>, states: map<string, KeycertState>, build: Build)
    ensures forall n :: n in states && n !in order ==> MaterializeAll(order, states, build).1[n] == states[n]
  {
    if order != [] {
      var prefix := order[..|order| - 1];
      assert forall n :: n in prefix ==> n in order;
      MaterializeAllLeavesUnvisited(prefix, states, build);
    }
  }

  lemma SplitAt(s: seq<string>, k: nat)
    requires k <= |s|
    ensures s[..k] + s[k..] == s
  {
  }

  /** The last name of a distinct order is none of those before it. */
  lemma LastIsNew(order: seq<string>)
    requires Distinct(order) && order != []
    ensures order[|order| - 1] !in order[..|order| - 1]
    ensures Distinct(order[..|order| - 1])
  {
    var prefix := order[..|order| - 1];
    forall i | 0 <= i < |prefix| ensures prefix[i] != order[|order| - 1] {
      assert order[i] == prefix[i];
    }
  }

  /**
   * What the loop computes, whatever the order: it succeeds exactly when every visited
   * Keycert builds, and then it maps each visited name, and no other, to that
   * Keycert's certified key and leaves that Keycert in the state its build left it.
   */
  lemma {:induction false} MaterializeAllSucceeds(order: seq<string>, states: map<string, KeycertState>, build: Build)
    requires Distinct(order)
    requires forall n :: n in order ==> n in states
    ensures var (r, after) := MaterializeAll(order, states, build);
      (r.Ok? <==> forall n :: n in order ==> build(states[n]).0.Ok?) &&
      (r.Ok? ==>
        (forall n :: n in r.value <==> n in order) &&
        (forall n :: n in order ==>
          r.value[n] == build(states[n]).0.value && after[n] == build(states[n]).1))
  {
    if order != [] {
      var prefix, name := order[..|order| - 1], order[|order| - 1];
      assert forall n :: n in order <==> n in prefix || n == name;
      LastIsNew(order);
      MaterializeAllSucceeds(prefix, states, build);
      MaterializeAllLeavesUnvisited(prefix, states, build);
    }
  }

  /** A failed loop reports the error of the first Keycert in the order that fails. */
  lemma {:induction false} MaterializeAllFailsAtFirst(order: seq<string>, states: map<string, KeycertState>, build: Build)
    requires Distinct(order)
    requires MaterializeAll(order, states, build).0.Err?
    ensures exists i :: 0 <= i < |order| && FirstFailure(order, states, build, i, MaterializeAll(order, states, build).0.error)
  {
    var prefix, name := order[..|order| - 1], order[|order| - 1];
    var r := MaterializeAll(order, states, build).0;
    var prior := MaterializeAll(prefix, states, build);
    LastIsNew(order);
    if prior.0.Err? {
      MaterializeAllFailsAtFirst(prefix, states, build);
      var i :| 0 <= i < |prefix| && FirstFailure(prefix, states, build, i, prior.0.error);
      assert order[..i] == prefix[..i];
      assert FirstFailure(order, states, build, i, r.error);
    } else {
      MaterializeAllLeavesUnvisited(prefix, states, build);
      assert order[..|prefix|] == prefix;
      assert FirstFailure(order, states, build, |prefix|, r.error);
    }
  }

  /**
   * A loop over an iteration order of all the names that succeeds yields a map with
   * exactly those names ...
   */
  lemma MaterializeAllKeys(order: seq<string>, states: map<string, KeycertState>, build: Build)
    requires Enumerates(order, states.Keys)
    requires MaterializeAll(order, states, build).0.Ok?
    ensures forall n :: n in MaterializeAll(order, states, build).0.value <==> n in states
  {
    MaterializeAllSucceeds(order, states, build);
  }

  /** ... each bound to the certified key its Keycert builds to. */
  lemma MaterializeAllEntries(order: seq<string>, states: map<string, KeycertState>, build: Build)
    requires Enumerates(order, states.Keys)
    requires MaterializeAll(order, states, build).0.Ok?
    ensures forall n :: n in states ==>
      n in MaterializeAll(order, states, build).0.value &&
      build(states[n]).0 == Ok(MaterializeAll(order, states, build).0.value[n])
  {
    MaterializeAllSucceeds(order, states, build);
  }

  /**
   * The iteration order decides which error is reported: with two Keycerts that both
   * fail, each order reports the error of the one it visits first.
   */
  lemma MaterializeAllErrorDependsOnOrder(states: map<string, KeycertState>, build: Build, a: string, b: string)
    requires a in states && b in states && a != b
    requires build(states[a]).0.Err? && build(states[b]).0.Err?
    ensures MaterializeAll([a, b], states, build).0 == Err(build(states[a]).0.error)
    ensures MaterializeAll([b, a], states, build).0 == Err(build(states[b]).0.error)
  {
    MaterializeAllStopsAt([a, b], 1, states, build);
    MaterializeAllStopsAt([b, a], 1, states, build);
  }

  /** Two orders over the same names build the same map when one of them succeeds. */
  lemma MaterializeAllOrderIrrelevant(
    order: seq<string>, order': seq<string>, states: map<string, KeycertState>, build: Build)
    requires Distinct(order) && Distinct(order')
    requires forall n :: n in order ==> n in states
    requires forall n :: n in order <==> n in order'
    requires MaterializeAll(order, states, build).0.Ok?
    ensures MaterializeAll(order', states, build).0 == MaterializeAll(order, states, build).0
  {
    MaterializeAllSucceeds(order, states, build);
    MaterializeAllSucceeds(order', states, build);
    var r, r' := MaterializeAll(order, states, build).0, MaterializeAll(order', states, build).0;
    assert r'.value.Keys == r.value.Keys;
    assert r'.value == r.value;
  }

  /** The loop over one more name of the order takes one more step. */
  lemma MaterializeAllNext(order: seq<string>, i: nat, states: map<string, KeycertState>, build: Build)
    requires i < |order|
    ensures MaterializeAll(order[..i + 1], states, build) ==
            MaterializeStep(MaterializeAll(order[..i], states, build), order[i], build)
  {
    var longer := order[..i + 1];
    assert longer[..|longer| - 1] == order[..i];
  }

  /** A prefix of the order that failed decides the loop over the whole order. */
  lemma MaterializeAllStopsAt(order: seq<string>, k: nat, states: map<string, KeycertState>, build: Build)
    requires k <= |order|
    requires MaterializeAll(order[..k], states, build).0.Err?
    ensures MaterializeAll(order, states, build) == MaterializeAll(order[..k], states, build)
  {
    SplitAt(order, k);
    MaterializeAllStopsAtError(order[..k], order[k..], states, build);
  }

  /** Once a prefix of the order has failed, the names after it are never visited. */
  lemma {:induction false} MaterializeAllStopsAtError(
    prefix: seq<string>, suffix: seq<string>, states: map<string, KeycertState>, build: Build)
    requires MaterializeAll(prefix, states, build).0.Err?
    ensures MaterializeAll(prefix + suffix, states, build) == MaterializeAll(prefix, states, build)
  {
    if suffix == [] {
      assert prefix + suffix == prefix;
    } else {
      var whole, shorter := prefix + suffix, suffix[..|suffix| - 1];
      assert whole[..|whole| - 1] == prefix + shorter;
      MaterializeAllStopsAtError(prefix, shorter, states, build);
    }
  }

  /** The fallback materialized, when there is one; and its snapshot afterwards. */
  function MaterializeFallback(fallback: Option<KeycertState>, env: Env)
    : (out: (Result<Option<CertifiedKey>, IoError>, Option<KeycertState>))
    ensures fallback.None? ==> out == (Ok(None), None)
    ensures fallback.Some? ==>
      var (built, after) := Materialize(fallback.value, env);
      out.1 == Some(after) &&
      (out.0.Ok? <==> built.Ok?) &&
      (out.0.Ok? ==> out.0.value == Some(built.value)) &&
      (out.0.Err? ==> out.0.error == built.error)
  {
    match fallback
    case None => (Ok(None), None)
    case Some(st) =>
      var (built, after) := Materialize(st, env);
      (if built.Ok? then Ok(Some(built.value)) else Err(built.error), Some(after))
  }

  /** The fallback, if any, materializes. */
  predicate FallbackBuilds(fallback: Option<KeycertState>, env: Env) {
    fallback.None? || Materialize(fallback.value, env).0.Ok?
  }

  /**
   * RustlsConfig::build_server_config on snapshots, visiting the named Keycerts in
   * `order`: the fallback first, then every name, then the client-auth policy; the
   * first failure is the result. Also the snapshots of the fallback and of the
   * named Keycerts afterwards.
   */
  function ServerConfigFor(
    fallback: Option<KeycertState>, order: seq<string>, states: map<string, KeycertState>,
    auth: TlsClientAuth, env: Env)
    : (out: (Result<ServerConfig, IoError>, Option<KeycertState>, map<string, KeycertState>))
    requires forall n :: n in order ==> n in states
    // a configuration always offers HTTP/2 before HTTP/1.1
    ensures out.0.Ok? ==> out.0.value.alpnProtocols == ["h2", "http/1.1"]
    // a failing fallback is reported before any named Keycert is touched
    ensures !FallbackBuilds(fallback, env) ==>
      out.0 == Err(Materialize(fallback.value, env).0.error) && out.2 == states
    ensures out.0.Ok? ==>
      FallbackBuilds(fallback, env) &&
      ClientCertVerifierFor(auth, env) == Ok(out.0.value.clientCertVerifier) &&
      (if fallback.Some?
       then out.0.value.certResolver.fallback.Some? &&
            Materialize(fallback.value, env).0 == Ok(out.0.value.certResolver.fallback.value)
       else out.0.value.certResolver.fallback.None?)
    // a failing named Keycert or trust-anchor read is reported as it is
    ensures FallbackBuilds(fallback, env) && MaterializeAll(order, states, MaterializeWith(env)).0.Err? ==>
      out.0 == Err(MaterializeAll(order, states, MaterializeWith(env)).0.error)
    ensures (FallbackBuilds(fallback, env) && MaterializeAll(order, states, MaterializeWith(env)).0.Ok? &&
             ClientCertVerifierFor(auth, env).Err?) ==>
      out.0 == Err(ClientCertVerifierFor(auth, env).error)
    // the resolver serves exactly what the loop over the named Keycerts built
    ensures out.0.Ok? ==>
      var built := MaterializeAll(order, states, MaterializeWith(env)).0;
      built.Ok? && out.0.value.certResolver.certifiedKeys == built.value
  {
    var (builtFallback, fallbackAfter) := MaterializeFallback(fallback, env);
    if builtFallback.Err? then (Err(builtFallback.error), fallbackAfter, states)
    else
      var (certifiedKeys, statesAfter) := MaterializeAll(order, states, MaterializeWith(env));
      if certifiedKeys.Err? then (Err(certifiedKeys.error), fallbackAfter, statesAfter)
      else
        match ClientCertVerifierFor(auth, env)
        case Err(e) => (Err(e), fallbackAfter, statesAfter)
        case Ok(verifier) =>
          var resolver := CertResolver(builtFallback.value, certifiedKeys.value);
          (Ok(ServerConfig(verifier, resolver, AlpnProtocols)), fallbackAfter, statesAfter)
  }

  /**
   * For an iteration order over all the names, the build succeeds exactly when the
   * fallback, every named Keycert and the client-auth policy all materialize.
   */
  lemma ServerConfigForSucceeds(
    fallback: Option<KeycertState>, order: seq<string>, states: map<string, KeycertState>,
    auth: TlsClientAuth, env: Env)
    requires Enumerates(order, states.Keys)
    ensures ServerConfigFor(fallback, order, states, auth, env).0.Ok? <==>
      FallbackBuilds(fallback, env) &&
      (forall n :: n in states ==> Materialize(states[n], env).0.Ok?) &&
      ClientCertVerifierFor(auth, env).Ok?
  {
    MaterializeAllSucceeds(order, states, MaterializeWith(env));
  }

  /** A built configuration's resolver holds a certified key for each registered name, and for no other. */
  lemma ServerConfigForResolverKeys(
    fallback: Option<KeycertState>, order: seq<string>, states: map<string, KeycertState>,
    auth: TlsClientAuth, env: Env)
    requires Enumerates(order, states.Keys)
    requires ServerConfigFor(fallback, order, states, auth, env).0.Ok?
    ensures ServerConfigFor(fallback, order, states, auth, env).0.value.certResolver.certifiedKeys.Keys == states.Keys
  {
    MaterializeAllKeys(order, states, MaterializeWith(env));
  }

  /** Under each registered name, a built configuration's resolver holds the certified key that name's Keycert builds. */
  lemma ServerConfigForResolverEntries(
    fallback: Option<KeycertState>, order: seq<string>, states: map<string, KeycertState>,
    auth: TlsClientAuth, env: Env)
    requires Enumerates(order, states.Keys)
    requires ServerConfigFor(fallback, order, states, auth, env).0.Ok?
    ensures var resolver := ServerConfigFor(fallback, order, states, auth, env).0.value.certResolver;
      forall n :: n in states ==> n in resolver.certifiedKeys && Materialize(states[n], env).0 == Ok(resolver.certifiedKeys[n])
  {
    MaterializeAllKeys(order, states, MaterializeWith(env));
    MaterializeAllEntries(order, states, MaterializeWith(env));
  }

  /**
   * The iteration order of the map can change which error is reported, never the
   * configuration built: if one order succeeds, every order builds the same one.
   */
  lemma IterationOrderIrrelevant(
    fallback: Option<KeycertState>, order: seq<string>, order': seq<string>,
    states: map<string, KeycertState>, auth: TlsClientAuth, env: Env)
    requires Enumerates(order, states.Keys) && Enumerates(order', states.Keys)
    ensures ServerConfigFor(fallback, order, states, auth, env).0.Ok? <==>
            ServerConfigFor(fallback, order', states, auth, env).0.Ok?
    ensures ServerConfigFor(fallback, order, states, auth, env).0.Ok? ==>
            ServerConfigFor(fallback, order, states, auth, env).0 ==
            ServerConfigFor(fallback, order', states, auth, env).0
  {
    var build := MaterializeWith(env);
    var keys, keys' := MaterializeAll(order, states, build).0, MaterializeAll(order', states, build).0;
    if keys.Ok? {
      MaterializeAllOrderIrrelevant(order, order', states, build);
    } else if keys'.Ok? {
      MaterializeAllOrderIrrelevant(order', order, states, build);
    }
  }

  /**
   * Looking up a server name in a built configuration: a registered name gets the
   * certified key of its own Keycert, even when there is a fallback; any other
   * name, or none, gets the fallback's, or nothing without a fallback.
   */
  lemma ResolveAfterBuild(
    fallback: Option<KeycertState>, order: seq<string>, states: map<string, KeycertState>,
    auth: TlsClientAuth, env: Env, serverName: Option<string>)
    requires Enumerates(order, states.Keys)
    requires ServerConfigFor(fallback, order, states, auth, env).0.Ok?
    ensures var resolved := ServerConfigFor(fallback, order, states, auth, env).0.value.certResolver.Resolve(serverName);
      if serverName.Some? && serverName.value in states then
        resolved.Some? && Materialize(states[serverName.value], env).0 == Ok(resolved.value)
      else if fallback.Some? then
        resolved.Some? && Materialize(fallback.value, env).0 == Ok(resolved.value)
      else
        resolved.None?
  {
    ServerConfigForResolverKeys(fallback, order, states, auth, env);
    ServerConfigForResolverEntries(fallback, order, states, auth, env);
  }

  /**
   * Virtual hosting: when a registered name's Keycert and the fallback materialize to
   * different certified keys, a client asking for that name and a client sending no
   * name are served different identities.
   */
  lemma NamedAndFallbackServedApart(
    fallback: Option<KeycertState>, order: seq<string>, states: map<string, KeycertState>,
    auth: TlsClientAuth, env: Env, name: string)
    requires Enumerates(order, states.Keys)
    requires ServerConfigFor(fallback, order, states, auth, env).0.Ok?
    requires fallback.Some? && name in states
    requires Materialize(states[name], env).0 != Materialize(fallback.value, env).0
    ensures var resolver := ServerConfigFor(fallback, order, states, auth, env).0.value.certResolver;
      resolver.Resolve(Some(name)) != resolver.Resolve(None)
  {
    ResolveAfterBuild(fallback, order, states, auth, env, Some(name));
    ResolveAfterBuild(fallback, order, states, auth, env, None);
  }

  /** Builder to set the configuration for the Tls server. */
  class RustlsConfig {
    var fallback: Option<Keycert>
    var keycerts: map<string, Keycert>
    var clientAuth: TlsClientAuth

    /**
     * The builder owns each of its Keycerts once, as a moved value: the fallback is
     * none of the named ones, and no two names share one.
     */
    ghost predicate Valid()
      reads this
    {
      (forall n :: n in keycerts ==> fallback != Some(keycerts[n])) &&
      (forall n, m :: n in keycerts && m in keycerts && n != m ==> keycerts[n] != keycerts[m])
    }

    ghost function FallbackObject(): set<Keycert>
      reads this
    {
      if fallback.Some? then {fallback.value} else {}
    }

    ghost function Owned(): set<Keycert>
      reads this
    {
      keycerts.Values + FallbackObject()
    }

    ghost function FallbackState(): Option<KeycertState>
      reads this, FallbackObject()
    {
      if fallback.Some? then Some(fallback.value.State()) else None
    }

    ghost function KeycertStates(): (states: map<string, KeycertState>)
      reads this, keycerts.Values
      ensures states.Keys == keycerts.Keys
    {
      map n | n in keycerts :: keycerts[n].State()
    }

    /** A builder with the given fallback, no named Keycerts and client auth off. */
    constructor (fallback: Option<Keycert>)
      ensures this.fallback == fallback && keycerts == map[] && clientAuth == Off
      ensures Valid()
    {
      this.fallback := fallback;
      keycerts := map[];
      clientAuth := Off;
    }

    /** Optional client authentication against the trust anchors read from a file. */
    method ClientAuthOptionalPath(path: Path, readFile: FileSystem) returns (r: Result<(), IoError>)
      modifies this`clientAuth
      ensures readFile(path).Ok? ==> r == Ok(()) && clientAuth == Optional(readFile(path).value)
      ensures readFile(path).Err? ==> r == Err(readFile(path).error) && clientAuth == old(clientAuth)
    {
      var data: Bytes := [];
      var contents := readFile(path);
      if contents.Err? {
        return Err(contents.error);
      }
      data := data + contents.value;
      clientAuth := Optional(data);
      r := Ok(());
    }

    /** Optional client authentication against the given trust anchors. */
    method ClientAuthOptional(trustAnchor: Bytes)
      modifies this`clientAuth
      ensures clientAuth == Optional(trustAnchor)
    {
      clientAuth := Optional(trustAnchor);
    }

    /** Required client authentication against the trust anchors read from a file. */
    method ClientAuthRequiredPath(path: Path, readFile: FileSystem) returns (r: Result<(), IoError>)
      modifies this`clientAuth
      ensures readFile(path).Ok? ==> r == Ok(()) && clientAuth == Required(readFile(path).value)
      ensures readFile(path).Err? ==> r == Err(readFile(path).error) && clientAuth == old(clientAuth)
    {
      var data: Bytes := [];
      var contents := readFile(path);
      if contents.Err? {
        return Err(contents.error);
      }
      data := data + contents.value;
      clientAuth := Required(data);
      r := Ok(());
    }

    /** Required client authentication against the given trust anchors. */
    method ClientAuthRequired(trustAnchor: Bytes)
      modifies this`clientAuth
      ensures clientAuth == Required(trustAnchor)
    {
      clientAuth := Required(trustAnchor);
    }

    /** Registers a Keycert for an SNI name, replacing any earlier one for that name. */
    method AddKeycert(name: string, keycert: Keycert)
      requires Valid()
      requires keycert !in keycerts.Values && fallback != Some(keycert)
      modifies this`keycerts
      ensures keycerts == old(keycerts)[name := keycert]
      ensures Valid()
    {
      keycerts := keycerts[name := keycert];
    }

    /** The fallback materialized, if there is one; the named Keycerts are not touched. */
    method BuildFallback(env: Env) returns (r: Result<Option<CertifiedKey>, IoError>)
      requires Valid()
      modifies FallbackObject()
      ensures (r, FallbackState()) == MaterializeFallback(old(FallbackState()), env)
      ensures KeycertStates() == old(KeycertStates())
    {
      if fallback.None? {
        return Ok(None);
      }
      var built := fallback.value.BuildCertifiedKey(env);
      if built.Err? {
        return Err(built.error);
      }
      r := Ok(Some(built.value));
    }

    /** Builds the Keycert registered under one name; the others are not touched. */
    method BuildEntry(name: string, env: Env) returns (built: Result<CertifiedKey, IoError>)
      requires Valid() && name in keycerts
      modifies keycerts[name]
      ensures (built, KeycertStates()[name]) == Materialize(old(KeycertStates())[name], env)
      ensures KeycertStates() == old(KeycertStates())[name := KeycertStates()[name]]
      ensures FallbackState() == old(FallbackState())
    {
      ghost var before := KeycertStates();
      built := keycerts[name].BuildCertifiedKey(env);
      assert KeycertStates() == before[name := keycerts[name].State()];
    }

    /**
     * The loop over the named Keycerts, in the map's own iteration order, which the
     * ghost result `order` reports; the fallback is not touched.
     */
    method BuildCertifiedKeys(env: Env) returns (r: Result<map<string, CertifiedKey>, IoError>, ghost order: seq<string>)
      requires Valid()
      modifies keycerts.Values
      ensures Enumerates(order, keycerts.Keys)
      ensures (r, KeycertStates()) == MaterializeAll(order, old(KeycertStates()), MaterializeWith(env))
      ensures FallbackState() == old(FallbackState())
    {
      ghost var states, build := KeycertStates(), MaterializeWith(env);
      var names := IterationOrder(keycerts.Keys);
      order := names;
      var certifiedKeys: map<string, CertifiedKey> := map[];
      for i := 0 to |names|
        invariant FallbackState() == old(FallbackState())
        invariant MaterializeAll(names[..i], states, build) == (Ok(certifiedKeys), KeycertStates())
      {
        var name := names[i];
        MaterializeAllNext(names, i, states, build);
        var built := BuildEntry(name, env);
        if built.Err? {
          MaterializeAllStopsAt(names, i + 1, states, build);
          return Err(built.error), names;
        }
        certifiedKeys := certifiedKeys[name := built.value];
      }
      assert names[..|names|] == names;
      r := Ok(certifiedKeys);
    }

    /**
     * Materializes the fallback, every named Keycert and the client-auth policy into
     * a server configuration; the outcome, the iteration order reported by the ghost
     * result `order`, and the Keycerts' snapshots are those of ServerConfigFor.
     */
    method BuildServerConfig(env: Env) returns (r: Result<ServerConfig, IoError>, ghost order: seq<string>)
      requires Valid()
      modifies Owned()
      ensures Enumerates(order, keycerts.Keys)
      ensures (r, FallbackState(), KeycertStates()) ==
              ServerConfigFor(old(FallbackState()), order, old(KeycertStates()), clientAuth, env)
    {
      var builtFallback := BuildFallback(env);
      if builtFallback.Err? {
        var names := IterationOrder(keycerts.Keys);
        return Err(builtFallback.error), names;
      }
      var certifiedKeys;
      certifiedKeys, order := BuildCertifiedKeys(env);
      if certifiedKeys.Err? {
        return Err(certifiedKeys.error), order;
      }
      var verifier := ClientCertVerifierFor(clientAuth, env);
      if verifier.Err? {
        return Err(verifier.error), order;
      }
      var config := ServerConfig(verifier.value, CertResolver(builtFallback.value, certifiedKeys.value), []);
      config := config.(alpnProtocols := ["h2", "http/1.1"]);
      r := Ok(config);
    }
  }
}
