# OAuth2 endpoint client — a Dafny model

This project models `OAuth2Client.doHttpRequest` of the Ballerina OAuth2 module's native
side. The call sends one form-encoded POST to an identity-provider endpoint (authorization,
token or introspection) and returns either the response body or an error message. It works
in these steps:

- **Request assembly.** The payload gets `&` and the custom payload appended when one is
  configured. The `headers` map and then the `customHeaders` map are flattened into a list
  name, value, name, value, … The request builder without headers is used when that list is
  empty. Content-Type is always forced to `application/x-www-form-urlencoded`.
- **HTTP version.** HTTP/2 is used only when the configured name is `HTTP_2`.
- **TLS set-up** (`getSslContext`). `disable` selects a context that accepts any server
  certificate. Otherwise the kind of `cert` (a certificate path or a truststore) and of `key`
  (none, a certificate/key file pair, or a keystore) selects one of six `initSslContext`
  overloads. Any other `cert` gives no context.
- **Key material.** Certificates and private keys come from the crypto library's decoders.
  PKCS12 stores come from files. A decode failure aborts with a fixed prefix and the
  decoder's message.
- **Classification.** Status 200 gives the body. Any other status gives an error carrying the
  status and the body. An I/O failure gives an error carrying its message. A TLS set-up
  failure is wrapped as "Failed to init SSL context. …".

Modules: `Results` (Option/Result), `Messages` (error texts, decimal status codes, a
parser for endpoint errors), `Requests` (body, header flattening, the JDK request builder's
header semantics), `Tls` (configuration, dispatch, key material, SSL contexts) and `Client`
(version selection, classification, the whole call).

The network, the crypto decoders and the PKCS12 loader are parameters: `Client.Network` and
`Tls.Crypto` are records of functions. Ballerina maps are modelled as sequences of entries in
their iteration order. The secure-socket configuration uses tagged datatypes (`TrustSource`,
`KeySource`). Its store records are typed as the Ballerina record types make them: a store
always has `path` and `password`, and a certificate/key pair always has `certFile` and
`keyFile` but may lack `keyPassword`. `OAuth2Constants.java` is not part of this model. The
constants it defines are taken to be the strings `HTTP_2`, `Content-Type`,
`application/x-www-form-urlencoded`, `PKCS12` and `TLS`.

## Notes on the source

- The flat header list handed to the request builder has 2·(|headers| + |customHeaders|) entries: every map entry contributes its name and then its value.
- A non-200 error reads `Failed to get a success response from the endpoint. Response Code: '<code>'. Response Body: '<body>'`, with the status code in decimal.
- A missing `httpVersion` is not defaulted to HTTP/1.1: `doHttpRequest` calls `getValue()` on it at line 86, so its presence is a precondition of `Client.DoHttpRequest`.
- With a truststore and a client key, the trust-manager factory is created with the key-manager factory's default algorithm (lines 187 and 202). `Tls.TrustAlgorithmFor` records this.
- The choice made at lines 86-98 (TLS failure, null context, or a client to send on) is defined once, by `Client.RouteOf`.

## Model

| member | source | states |
|---|---|---|
| Requests.Body | oauth2-native/src/main/java/org/ballerinalang/stdlib/oauth2/OAuth2Client.java:57-61 | the body starts with the payload; it is the payload alone without a custom payload, and otherwise the rest is exactly `&` followed by the custom payload |
| Requests.FlattenShape | oauth2-native/src/main/java/org/ballerinalang/stdlib/oauth2/OAuth2Client.java:63-67 | the flat list has twice as many items as entries and alternates each entry's name with its value, in entry order |
| Requests.FlattenAppend | oauth2-native/src/main/java/org/ballerinalang/stdlib/oauth2/OAuth2Client.java:63-76 | flattening two entry lists one after the other keeps all pairs of the first ahead of all pairs of the second, duplicates included |
| Requests.UnflattenFlatten | oauth2-native/src/main/java/org/ballerinalang/stdlib/oauth2/OAuth2Client.java:82-83 | the flat list has even length and the builder's pairing reads back exactly the flattened entries |
| Requests.FlattenUnflatten | oauth2-native/src/main/java/org/ballerinalang/stdlib/oauth2/OAuth2Client.java:305-308 | every even-length name/value list is the flattening of its pairs (the pairing loses nothing) |
| Requests.SetHeaderValues | oauth2-native/src/main/java/org/ballerinalang/stdlib/oauth2/OAuth2Client.java:300 | after `setHeader` the header has the set value as its only value, whatever it held before; every other header keeps its values |
| Requests.BuildHttpRequestPlain | oauth2-native/src/main/java/org/ballerinalang/stdlib/oauth2/OAuth2Client.java:297-303 | the request is a POST to the URL with the payload as body and the form Content-Type as its only header |
| Requests.BuildHttpRequestWithHeaders | oauth2-native/src/main/java/org/ballerinalang/stdlib/oauth2/OAuth2Client.java:305-312 | for a non-empty, even-length flat list, the request is a POST of the payload; Content-Type has only the form value, and every other header has exactly the values the flat list pairs give it, in order |
| Client.AssembledRequestShape | oauth2-native/src/main/java/org/ballerinalang/stdlib/oauth2/OAuth2Client.java:57-84 | the request is a POST of the extended payload; the no-headers builder is used exactly when both maps are empty; Content-Type is only form-urlencoded; every other header carries the `headers` values followed by the custom ones |
| Client.BuildRequest | oauth2-native/src/main/java/org/ballerinalang/stdlib/oauth2/OAuth2Client.java:57-84 | the in-place payload extension and the two accumulating loops build exactly the assembled request |
| Client.HttpVersionOf | oauth2-native/src/main/java/org/ballerinalang/stdlib/oauth2/OAuth2Client.java:142-147 | the version is HTTP/2 if and only if the configured name equals `HTTP_2`; any other name, the empty one included, gives HTTP/1.1 |
| Tls.PlanOf | oauth2-native/src/main/java/org/ballerinalang/stdlib/oauth2/OAuth2Client.java:102-140 | `disable` gives trust-all whatever `cert` and `key` hold; otherwise a `cert` of another kind gives no context; otherwise the chosen overload loads exactly the configured trust source and key |
| Tls.BuildTrustStore | oauth2-native/src/main/java/org/ballerinalang/stdlib/oauth2/OAuth2Client.java:244-257 | succeeds exactly when the certificate decodes, giving a PKCS12 store with that certificate as its only entry; otherwise the error is the public-key prefix followed by the decoder's message |
| Tls.BuildKeyStore | oauth2-native/src/main/java/org/ballerinalang/stdlib/oauth2/OAuth2Client.java:259-281 | the certificate is decoded first: if it fails, the error is the public-key prefix with its message, whatever the key; then a key failure gives the private-key prefix; success gives one key entry with the empty password and the certificate as its chain |
| Tls.OverloadsAreResolution | oauth2-native/src/main/java/org/ballerinalang/stdlib/oauth2/OAuth2Client.java:102-233 | the overload dispatch equals one resolution: `disable` first, then trust anchors, then client key, the first failure being the result and no partial context |
| Tls.TrustAllIffDisabled | oauth2-native/src/main/java/org/ballerinalang/stdlib/oauth2/OAuth2Client.java:103-109 | the accept-any-server context results if and only if `disable` is set, and then it results whatever the credentials hold |
| Tls.NoContextIffNoTrust | oauth2-native/src/main/java/org/ballerinalang/stdlib/oauth2/OAuth2Client.java:110-139 | the null context results if and only if verification is on and `cert` is neither a path nor a truststore |
| Tls.TrustFailureComesFirst | oauth2-native/src/main/java/org/ballerinalang/stdlib/oauth2/OAuth2Client.java:175-233 | when the trust anchors fail to load, that failure is the result whatever the key configuration; for an inline certificate it is the public-key error |
| Tls.ClientIdentity | oauth2-native/src/main/java/org/ballerinalang/stdlib/oauth2/OAuth2Client.java:182-233 | key managers exist if and only if a key is configured and verification is on; a keystore's factory gets the keystore password, a certificate/key pair's gets the empty password and holds the decoded key with its certificate |
| Tls.TrustAnchors | oauth2-native/src/main/java/org/ballerinalang/stdlib/oauth2/OAuth2Client.java:166-233 | with verification on, the trust managers hold the decoded certificate alone (inline certificate) or the loaded truststore, under the algorithm `TrustAlgorithmFor` names |
| Tls.ErrorSources | oauth2-native/src/main/java/org/ballerinalang/stdlib/oauth2/OAuth2Client.java:235-281 | a failed set-up reports a decoder failure under the public-key or private-key prefix, or the loader's own message for a store the configuration names |
| Messages.ParseDecimal | oauth2-native/src/main/java/org/ballerinalang/stdlib/oauth2/OAuth2Client.java:320-321 | the decimal text of a status code denotes that code |
| Messages.EndpointErrorRoundTrip | oauth2-native/src/main/java/org/ballerinalang/stdlib/oauth2/OAuth2Client.java:320-321 | the status code and the body can be read back verbatim from the endpoint error, whatever the body contains |
| Messages.PhasesDistinct | oauth2-native/src/main/java/org/ballerinalang/stdlib/oauth2/OAuth2Client.java:95 | the SSL, send and endpoint prefixes tell the three failing phases apart, whatever follows them |
| Client.ClassifyResponse | oauth2-native/src/main/java/org/ballerinalang/stdlib/oauth2/OAuth2Client.java:314-325 | success if and only if status 200, with the body unchanged; another status is an endpoint error from which status and body read back; an I/O failure is the send prefix with its message |
| Client.Send | oauth2-native/src/main/java/org/ballerinalang/stdlib/oauth2/OAuth2Client.java:86-99 | without a secure socket, the classified response of one send on a plain client of the configured version; with one, the SSL prefix followed by the cause when set-up fails, the JDK's null-context outcome when there is no context, and otherwise the classified response of one send on a client of the configured version bound to the context |
| Client.DoHttpRequest | oauth2-native/src/main/java/org/ballerinalang/stdlib/oauth2/OAuth2Client.java:55-100 | the call returns the outcome of assembling, choosing version and context, sending once and classifying; `httpVersion` must be present |
| Client.SslFailureSendsNothing | oauth2-native/src/main/java/org/ballerinalang/stdlib/oauth2/OAuth2Client.java:89-96 | a failed TLS set-up yields "Failed to init SSL context. " with the cause, and the outcome does not depend on the network at all |
| Client.SentRequestOutcome | oauth2-native/src/main/java/org/ballerinalang/stdlib/oauth2/OAuth2Client.java:86-99 | a sent request goes out on the configured version; success exactly on status 200 with the body verbatim; the error names the send phase exactly on an I/O failure and the endpoint phase exactly on another status |
| Client.InsecureOnlyWhenDisabled | oauth2-native/src/main/java/org/ballerinalang/stdlib/oauth2/OAuth2Client.java:87-109 | the request goes out on an accept-any-server context if and only if the secure socket sets `disable` |

## Left out

- Network I/O (`client.send`) is the function `Network.send`. It returns a status and body, or an I/O failure or interruption with its message.
- The outcome when the JDK client builder receives a null SSL context (a `cert` that is neither a path nor a truststore) is the unconstrained function `Network.withNullContext`. The model does not assume plaintext or an error.
- The crypto library's decoders and the loading of PKCS12 files (`getKeyStore`) are the functions of `Tls.Crypto`. Missing files, wrong passwords and malformed PEM are whatever errors those functions return.
- JDK TLS internals are out of scope: `SSLContext`, the trust- and key-manager factories, `KeyStore.load` of the empty in-memory stores, and `SecureRandom`. They are assumed to succeed, and a context is represented by what its factories are initialised with.
- The random UUID aliases of the in-memory store entries are not modelled. They are nondeterministic and affect nothing else.
- JDK checks that throw outside the `try` are not modelled: `URI.create` on an invalid URL, and restricted or malformed header names in the request builder. The builder's rejection of an empty or odd-length list by `headers(String...)` is a precondition of `Requests.BuildHttpRequestWithHeaders`, which the caller always meets.
- Runtime exceptions thrown by `send` are not modelled. Only `IOException` and `InterruptedException` are caught by `callEndpoint`.
- Header names are compared case-insensitively with ASCII case folding only. Unicode case folding is not modelled.
- A `null` exception message (printed by Java as `null`) is not modelled. Messages are plain strings supplied by the parameter functions.
- Status codes are natural numbers. The JDK only reports three-digit codes.
- Ballerina error values and `createError` are not modelled. An error is its message string.
- A `cert` or `key` map lacking a field its Ballerina record type makes mandatory is excluded by the datatypes. In the original that would fail with a null dereference inside the `try`.
