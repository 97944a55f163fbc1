# salvo rustls server configuration, modelled in Dafny

This project models the TLS server-configuration builder of salvo's rustls
listener. It has four parts:

- **Keycert**: one TLS identity, a private key and a certificate chain. Each is
  given as bytes or as a file path that is read lazily, the first time the bytes
  are needed. It also holds OCSP staple bytes. `build_certified_key` turns a
  Keycert into a rustls `CertifiedKey`.
- **TlsClientAuth**: the client-authentication policy. It is `Off`, `Optional`
  (anonymous or authenticated clients) or `Required` (authenticated clients
  only). The last two carry PEM trust anchors.
- **RustlsConfig**: a last-write-wins builder. It holds an optional fallback
  Keycert, a Keycert per SNI server name and a TlsClientAuth.
  `build_server_config` materializes all of them into a `ServerConfig`. That
  config offers ALPN `["h2", "http/1.1"]`. Its certificate resolver serves the
  built identities.
- **CertResolver::resolve**: returns the identity registered for the server name
  the client sent, else the fallback, else nothing.

Files:

- `wrappers.dfy`: `Option` and `Result`.
- `io.dfy`: bytes, paths, `std::io::Error`, and the file system as an oracle.
- `rustls.dfy`: the rustls values the builder produces. It also holds `Env`, a
  record of the external functions the builder calls: file reads, the PEM
  readers, `sign::any_supported_type` and `read_trust_anchor`.
- `keycert.dfy`: the `Keycert` class. It is specified against
  `KeycertState`, a value snapshot of its fields, and against `LoadBuffer` and
  `Materialize`, pure functions on that snapshot.
- `resolver.dfy`: `CertResolver` and its `Resolve` function.
- `config.dfy`: `TlsClientAuth` and the `RustlsConfig` class.
  - `BuildServerConfig` is proved against `ServerConfigFor`, a pure function on
    snapshots.
  - The loop over the `HashMap` is proved against `MaterializeAll`, a fold over
    an iteration order.

The map's iteration order is left open. `IterationOrder` picks any order that
lists every key once. The build methods report that order in a ghost result.
`MaterializeAllErrorDependsOnOrder` shows that the order can change which error
is reported. `IterationOrderIrrelevant` shows that it never changes whether the
build succeeds or the configuration that is built.

## Model

| member | source | states |
|---|---|---|
| `Keycerts.LoadBuffer` | crates/core/src/conn/rustls/config.rs:78-106 | Lazy load of one buffer. A non-empty buffer is returned as it is, without reading the file. An empty buffer with no path is the "empty" error, and the buffer stays empty. A failed read reports the file's error and leaves the buffer empty. A successful read fills the buffer with the file's contents. An empty file is the "empty" error. A success always leaves exactly the returned bytes in the buffer. |
| `Keycerts.SelectPrivateKey` | crates/core/src/conn/rustls/config.rs:119-134 | Key choice. When the PKCS8 reader finds a key, the first one is taken. Only when the PKCS8 reader finds none is the first RSA key taken. A malformed text or no key at all fails with "failed to parse tls private keys". The success iff is stated in both directions. |
| `Keycerts.RsaNotConsultedAfterPkcs8` | crates/core/src/conn/rustls/config.rs:120-126 | Once PKCS8 yields a key, the RSA reader has no influence: any RSA reader gives the same choice. |
| `Keycerts.OcspStaple` | crates/core/src/conn/rustls/config.rs:141-145 | The OCSP staple is `Some(ocsp_resp)` exactly when the bytes are non-empty, and `None` otherwise. |
| `Keycerts.Certificates` | crates/core/src/conn/rustls/config.rs:115-116 | Each parsed DER block becomes one certificate, in order. |
| `Keycerts.LoadKey` | crates/core/src/conn/rustls/config.rs:78-90 | `key()` on a snapshot. Only the key buffer changes. A success leaves the returned bytes in it. |
| `Keycerts.LoadCert` | crates/core/src/conn/rustls/config.rs:94-106 | `cert()` on a snapshot. Only the cert buffer changes. A success leaves the returned bytes in it. |
| `Keycerts.Materialize` | crates/core/src/conn/rustls/config.rs:114-148 | `build_certified_key` on a snapshot. Only the key and cert buffers change. What it builds and which errors it reports are stated by the three lemmas below. |
| `Keycerts.MaterializeSpec` | crates/core/src/conn/rustls/config.rs:114-148 | Properties of a success and of any failure. Paths and OCSP bytes are unchanged. The cert buffer is the one the cert load leaves. A success uses the loaded bytes, the chosen key's signer, the OCSP staple only when non-empty, and an SCT list of `None`. An error is one of the five source messages or the error of one of the two file reads. |
| `Keycerts.MaterializeReportsEachStep` | crates/core/src/conn/rustls/config.rs:114-136 | Each step reports its own error. A failed cert load gives its error (line 115 `?`), and unparsable certificates give "failed to parse tls certificates" (line 117); in both cases the key buffer is untouched. A failed key load gives its error (lines 120, 125 `?`). A key that cannot be chosen gives "failed to parse tls private keys" (lines 121, 126, 131). A key with no signer gives "invalid private key" (line 136). |
| `Keycerts.MaterializeBuildsExactly` | crates/core/src/conn/rustls/config.rs:114-148 | The build succeeds exactly when every step does: the certificates load and parse, the key loads, a private key is chosen and a signer fits it. On success the identity holds one certificate per parsed PEM block. |
| `Keycerts.LoadBufferCached` | crates/core/src/conn/rustls/config.rs:79-82 | A load after a successful one returns the same bytes and the same buffer, whatever the file system now says. So the re-call of `key()` at line 125 cannot fail or re-read. |
| `Keycerts.MaterializeCached` | crates/core/src/conn/rustls/config.rs:114-148 | Building again after a success gives the same certified key and the same state, even when the files have changed in between. |
| `Keycerts.MaterializeWithoutKeyFails` | crates/core/src/conn/rustls/config.rs:85-86 | With neither key bytes nor a key path, building always fails. |
| `Keycerts.Keycert.constructor` | crates/core/src/conn/rustls/config.rs:39-47 | A new Keycert has no paths and empty key, cert and OCSP buffers. |
| `Keycerts.Keycert.WithKeyPath` | crates/core/src/conn/rustls/config.rs:50-53 | Sets the key path and changes no other field. |
| `Keycerts.Keycert.WithKey` | crates/core/src/conn/rustls/config.rs:57-60 | Replaces the key bytes and changes no other field. |
| `Keycerts.Keycert.WithCertPath` | crates/core/src/conn/rustls/config.rs:64-67 | Sets the cert path and changes no other field. |
| `Keycerts.Keycert.WithCert` | crates/core/src/conn/rustls/config.rs:71-74 | Replaces the cert bytes and changes no other field. |
| `Keycerts.Keycert.Key` | crates/core/src/conn/rustls/config.rs:78-90 | The result and the new key buffer are those of `LoadBuffer` on the old buffer, the key path and "empty key". Only the key buffer changes. |
| `Keycerts.Keycert.Cert` | crates/core/src/conn/rustls/config.rs:94-106 | The result and the new cert buffer are those of `LoadBuffer` on the old buffer, the cert path and "empty cert". Only the cert buffer changes. |
| `Keycerts.Keycert.OcspResp` | crates/core/src/conn/rustls/config.rs:110-112 | Returns the stored OCSP bytes. It reads the state and never changes it. |
| `Keycerts.Keycert.BuildCertifiedKey` | crates/core/src/conn/rustls/config.rs:114-148 | The result and the new state are those of `Materialize` on the old state. Only the key and cert buffers change. |
| `Resolver.CertResolver.Resolve` | crates/core/src/conn/rustls/config.rs:277-282 | A registered server name gets its own key, even when there is a fallback. No name, or an unregistered one, gets the fallback. The result is `None` exactly when the name is not registered and there is no fallback. |
| `Resolver.ResolveWithFallbackIsTotal` | crates/core/src/conn/rustls/config.rs:281 | With a fallback, every lookup yields an identity. |
| `Config.ClientCertVerifierFor` | crates/core/src/conn/rustls/config.rs:251-257 | `Off` gives no client auth. The other two policies succeed exactly when their trust anchors are read, and otherwise report the reader's error. A certificate is requested unless the policy is `Off`, and is mandatory exactly under `Required`, checked against the policy's own roots. |
| `Config.OptionalAndRequiredReadAnchorsAlike` | crates/core/src/conn/rustls/config.rs:253-256 | The same trust-anchor bytes either work under both `Optional` and `Required` or fail under both. |
| `Config.IterationOrder` | crates/core/src/conn/rustls/config.rs:247 | The map is iterated in some order that lists every key exactly once. |
| `Config.MaterializeStep` | crates/core/src/conn/rustls/config.rs:247-249 | One loop pass keeps the set of Keycerts the same. |
| `Config.MaterializeAll` | crates/core/src/conn/rustls/config.rs:245-249 | The loop never adds or drops a Keycert. |
| `Config.MaterializeAllLeavesUnvisited` | crates/core/src/conn/rustls/config.rs:247-249 | Keycerts the loop has not reached keep their state. |
| `Config.MaterializeAllSucceeds` | crates/core/src/conn/rustls/config.rs:245-249 | The loop succeeds exactly when every visited Keycert builds. Its map then holds exactly the visited names, each bound to its Keycert's certified key, and each Keycert is left in the state its build produced. |
| `Config.MaterializeAllFailsAtFirst` | crates/core/src/conn/rustls/config.rs:248 | A failed loop reports the error of the first Keycert in the order that fails. Every name before it built. |
| `Config.MaterializeAllKeys` | crates/core/src/conn/rustls/config.rs:245-249 | A loop over all the names that succeeds has exactly those names as keys. |
| `Config.MaterializeAllEntries` | crates/core/src/conn/rustls/config.rs:245-249 | A loop over all the names that succeeds binds each name to the certified key its Keycert builds. |
| `Config.MaterializeAllOrderIrrelevant` | crates/core/src/conn/rustls/config.rs:247-249 | Two orders over the same names build the same map when one of them succeeds. |
| `Config.MaterializeAllErrorDependsOnOrder` | crates/core/src/conn/rustls/config.rs:247-248 | With two Keycerts that both fail, the order `[a, b]` reports a's error and the order `[b, a]` reports b's. So the HashMap's iteration order can decide which error the build reports. |
| `Config.MaterializeAllNext` | crates/core/src/conn/rustls/config.rs:247-249 | Extending the visited prefix by one name adds exactly one loop pass. |
| `Config.MaterializeAllStopsAt` | crates/core/src/conn/rustls/config.rs:248 | After the first error (the `?`), the rest of the map is not visited. The outcome and all states are those at the error. |
| `Config.MaterializeAllStopsAtError` | crates/core/src/conn/rustls/config.rs:248 | Once a prefix of the order has failed, the names after it change nothing. |
| `Config.MaterializeFallback` | crates/core/src/conn/rustls/config.rs:239-244 | Without a fallback, the result is `Ok(None)`. With one, the result succeeds exactly when the fallback builds. Either way it reports the fallback's certified key or error and its new state. |
| `Config.ServerConfigFor` | crates/core/src/conn/rustls/config.rs:238-268 | A built config always has ALPN `["h2", "http/1.1"]`. A fallback that fails is returned as the error before any named Keycert is touched (line 243 `?`). After a fallback that builds, a failing loop returns the loop's error (line 248 `?`). After both build, a failing trust-anchor read returns that error (lines 254, 256 `?`). A success implies that the fallback built, that the verifier is the policy's, that the resolver's fallback is the fallback's certified key, and that the resolver map is what the loop built. |
| `Config.ServerConfigForSucceeds` | crates/core/src/conn/rustls/config.rs:238-268 | The build succeeds exactly when the fallback, every registered Keycert and the client-auth policy all build. Any one failure means no config. |
| `Config.ServerConfigForResolverKeys` | crates/core/src/conn/rustls/config.rs:245-265 | On success, the resolver's names are exactly the builder's keycert names. |
| `Config.ServerConfigForResolverEntries` | crates/core/src/conn/rustls/config.rs:245-265 | On success, each name in the resolver maps to the certified key its own Keycert builds. |
| `Config.IterationOrderIrrelevant` | crates/core/src/conn/rustls/config.rs:245-249 | Whichever order the map iterates in, the build either succeeds in every order or fails in every order. When it succeeds, it builds the same config. |
| `Config.ResolveAfterBuild` | crates/core/src/conn/rustls/config.rs:259-282 | In a built config, a registered name resolves to its own Keycert's certified key, even when there is a fallback. Any other name, or no name, resolves to the fallback's certified key, or to nothing without a fallback. |
| `Config.NamedAndFallbackServedApart` | crates/core/src/conn/rustls/config.rs:276-283 | SNI virtual hosting: when a registered Keycert and the fallback build different identities, a client asking for that name and a client sending no name are served different identities. |
| `Config.RustlsConfig.constructor` | crates/core/src/conn/rustls/config.rs:178-184 | A new builder holds the given fallback, no named Keycerts, and client auth `Off`. |
| `Config.RustlsConfig.ClientAuthOptionalPath` | crates/core/src/conn/rustls/config.rs:191-197 | If the file reads, the policy becomes `Optional(contents)`. Otherwise the read error is returned and the policy is unchanged. Nothing else changes. |
| `Config.RustlsConfig.ClientAuthOptional` | crates/core/src/conn/rustls/config.rs:203-206 | The policy becomes `Optional(trust_anchor)`, whatever it was. It is last-write-wins. |
| `Config.RustlsConfig.ClientAuthRequiredPath` | crates/core/src/conn/rustls/config.rs:213-219 | If the file reads, the policy becomes `Required(contents)`. Otherwise the read error is returned and the policy is unchanged. Nothing else changes. |
| `Config.RustlsConfig.ClientAuthRequired` | crates/core/src/conn/rustls/config.rs:226-229 | The policy becomes `Required(trust_anchor)`, whatever it was. It is last-write-wins. |
| `Config.RustlsConfig.AddKeycert` | crates/core/src/conn/rustls/config.rs:233-236 | The Keycert replaces any earlier one under that name. All other names are unchanged. Each Keycert stays owned once. |
| `Config.RustlsConfig.BuildFallback` | crates/core/src/conn/rustls/config.rs:239-244 | The result and the fallback's new state are those of `MaterializeFallback`. The named Keycerts are not touched. |
| `Config.RustlsConfig.BuildEntry` | crates/core/src/conn/rustls/config.rs:248 | Builds the Keycert under one name, as `Materialize` does. Every other Keycert and the fallback are unchanged. |
| `Config.RustlsConfig.BuildCertifiedKeys` | crates/core/src/conn/rustls/config.rs:245-249 | The loop visits the keys in an iteration order. Its result and the Keycerts' new states are those of `MaterializeAll` over that order. The fallback is not touched. |
| `Config.RustlsConfig.BuildServerConfig` | crates/core/src/conn/rustls/config.rs:238-268 | The result and the new states of the fallback and of the named Keycerts are those of `ServerConfigFor` over the map's iteration order. |

## Left out

- File access (`File::open` followed by `read_to_end`) is one oracle, `Io.FileSystem`, that returns the whole file or an error; opening and reading are not told apart.
- Keycerts.Keycert.Key: when `read_to_end` fails after reading part of the file, the source keeps those bytes in the buffer; the model leaves the buffer empty. Partial reads are not modelled.
- Keycerts.Keycert.Cert: the same partial-read simplification as for `Key`.
- Config.RustlsConfig.ClientAuthOptionalPath: in the source a failed read drops the whole builder (it is taken by value). The model returns the error and leaves the policy as it was. The same holds for `ClientAuthRequiredPath`.
- Ownership moves (`mut self` builders, `keycert` taking a Keycert by value) are modelled as object identity. `Valid` says that each Keycert is owned once, so `AddKeycert` requires a Keycert the builder does not already hold.
- `rustls_pemfile::certs`, `pkcs8_private_keys`, `rsa_private_keys`, `sign::any_supported_type` and `read_trust_anchor` are uninterpreted functions in `Env`. PEM syntax, key formats and signature-scheme choice are not modelled. `read_trust_anchor` is not part of this model, so the rule that an empty trust-anchor bundle fails is not part of it either. `OptionalAndRequiredReadAnchorsAlike` states only that both policies treat the same bytes alike.
- The rustls verifier objects and `ServerConfig::builder().with_safe_defaults()` are reduced to which verifier is chosen and to the resolver and ALPN fields that the builder sets.
- `Arc` reference counting: shared identities are plain values.
- The `Debug` impl (config.rs:168-173) is formatting only.
- `From<RustlsConfig> for Arc<ServerConfig>` (its `unwrap` panics on error) and the `Into<Once<Ready<..>>>` stream wrapper (config.rs:285-296) are library glue.
- `Keycert::default` (config.rs:30-34) only calls `new`, which is `Keycerts.Keycert.constructor`.
- `MaterializeStep` passes over a name that the map lacks. The loop never meets such a name, and the lemmas about the loop exclude it.
- The salvo examples (the nested-extraction handler and the ACME listener) are application wiring with no logic of their own.
- A PKCS8 reader that fails (malformed PEM) makes `build_certified_key` fail at once, without trying the RSA reader. RSA is tried only when PKCS8 parses and finds no key. The model follows the code: RSA is not a fallback for malformed PKCS8 input.
- An empty certificate chain is accepted by `build_certified_key`: the signer is chosen from the key alone. The model follows the code: the chain is not checked against the key.
