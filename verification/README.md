# HugeClientHolder connection bootstrap, modelled in Dafny

This project models the part of the HugeGraph loader that turns load options
into a `HugeClient`, or into a `LoadException` that names the likely cause.
The code is `HugeClientHolder` with its two methods:

- `create` chooses a strategy. A non-empty `metaURL` list selects discovery
  through a meta store. Otherwise the client connects directly: it builds
  `host:port`, adds a scheme when the host has none, defaults the username to
  the graph name, and resolves the trust store when the protocol is `https`.
- `createFromMeta` picks a meta driver type, opens a `MetaHugeClientFactory`,
  asks it once for an authenticated client, and closes the factory in a
  `finally` block.

Both methods send library failures through the same catch clauses. The
clauses recognise a version mismatch, bad credentials, a refused connection,
an unknown host and a connect timeout. Every other failure is rethrown
unchanged.

Files, one module each:

- `base.dfy` (`Base`): `Option` for nullable references, `Result`, `IsNotEmpty`.
- `text.dfy` (`Text`): `startsWith`, `contains` (proved equal to "some occurrence exists") and ASCII `toUpperCase`.
- `decimal.dfy` (`Decimal`): how Java prints an `int`, with a parser proved to invert it.
- `options.dfy` (`LoadModel`): the options, the constants, failures (one variant per exception class), `LoadException` kinds and outcomes.
- `classifier.dfy` (`Classifier`): the catch clauses, a declarative statement of each failure signature, and the exception messages.
- `direct.dfy` (`Direct`): the direct path.
- `meta.dfy` (`Discovery`): the discovery path, with a trace of the factory's lifecycle.
- `holder.dfy` (`Holder`): the strategy choice.
- `scenarios.dfy` (`Scenarios`): concrete instances of the rules.

The library calls are parameters of the model: `HugeClientBuilder.build()`,
`MetaHugeClientFactory.connect` and `createAuthClient`. Each returns either a
handle or a `Failure`. The `loader.home.path` system property is also a
parameter, an `Option<string>`.

## Model

| member | source | states |
|---|---|---|
| Holder.Create | src/main/java/com/baidu/hugegraph/loader/util/HugeClientHolder.java:39-42 | Discovery runs iff `metaURL` is non-empty, and the direct path runs otherwise. The direct path returns exactly the direct outcome and never opens a meta factory. The discovery path returns exactly what `createFromMeta` returns: an unknown driver type or a failed connect is rethrown unchanged with no close; the factory that `connect` returned is the one asked once for a client and closed once at the end, and a built client is returned while a failure is classified by the shared rules. |
| Direct.TlsIgnoresHost | src/main/java/com/baidu/hugegraph/loader/util/HugeClientHolder.java:44-45 | Whether TLS is on depends on the `protocol` option alone, and neither it nor the resolved trust material depends on the host. Replacing the host, even with one that carries the HTTPS scheme, leaves trust-store resolution and the builder's SSL settings unchanged. A host with the HTTPS scheme under a non-HTTPS protocol gets an `https://` address but no SSL settings. |
| Direct.ResolveAddress | src/main/java/com/baidu/hugegraph/loader/util/HugeClientHolder.java:46-54 | The address always starts with a scheme. A host that has a scheme keeps it, and `:port` is still appended. A bare host gets the HTTPS prefix iff TLS is on, and the HTTP prefix otherwise. |
| Direct.AddressCarriesPort | src/main/java/com/baidu/hugegraph/loader/util/HugeClientHolder.java:46 | Whatever the host holds (a scheme, a colon, a port of its own), reading the text after the address's last colon as a number gives back the configured port. |
| Decimal.ParseIntToString | src/main/java/com/baidu/hugegraph/loader/util/HugeClientHolder.java:46 | The decimal text of the port parses back to the same integer, negative values included. |
| Direct.ResolveTrustStore | src/main/java/com/baidu/hugegraph/loader/util/HugeClientHolder.java:66-82 | Without TLS nothing is resolved. With TLS, an explicit trust-store file is used as-is. Otherwise the file is the home path joined with the trust-store file name. Resolution fails, with the home-path argument error, exactly when TLS is on, no file is given and the home path is null or empty. The token defaults to `"hugegraph"`. |
| Direct.PlanDirect | src/main/java/com/baidu/hugegraph/loader/util/HugeClientHolder.java:44-83 | The builder configuration fails iff trust-store resolution fails. On success the address is the resolved address, and its port reads back as `options.port`. The username is the effective username. The SSL settings are exactly the resolved trust material, present iff TLS is on. Graph space, graph, timeout, token, password and both pool limits are forwarded unchanged. |
| Direct.CreateDirect | src/main/java/com/baidu/hugegraph/loader/util/HugeClientHolder.java:57-119 | A configuration error leaves the method unclassified, as the argument error itself. Otherwise a successful build returns its client, and a failed build is translated by the classifier using `options.host` and `options.port`. |
| Direct.ConfigErrorPrecedesBuild | src/main/java/com/baidu/hugegraph/loader/util/HugeClientHolder.java:66-84 | With TLS on and neither a trust-store file nor a home path, the outcome is the same whatever the build would do, so no connection is attempted. The outcome is the unclassified argument error. |
| Classifier.Classify | src/main/java/com/baidu/hugegraph/loader/util/HugeClientHolder.java:85-119 | A rethrown failure is the original one, and a `LoadException` keeps the original as its cause. Each domain error arises only from its own exception class, and host and port are those of the options. Status 401 means bad credentials, whatever the message says. Argument errors, other classes, and a client failure without a cause message are rethrown. |
| Classifier.ClassifyBySignature | src/main/java/com/baidu/hugegraph/loader/util/HugeClientHolder.java:85-119 | Each outcome holds iff its signature is present: a version-prefixed state message, or 401 or an `Authentication` prefix on a server failure. For cause messages, "Connection refused" is tested first, then the unknown-host phrases, then "connect timed out", each with the earlier ones absent. The failure is rethrown unchanged iff no signature is present. Occurrences are stated as existence of a position, independently of the scan. |
| Text.ContainsIsSubstring | src/main/java/com/baidu/hugegraph/loader/util/HugeClientHolder.java:105-112 | The scanning `contains` used on cause messages is true iff the phrase occurs at some position. |
| Classifier.MessageNamesEndpoint | src/main/java/com/baidu/hugegraph/loader/util/HugeClientHolder.java:106-116 | The unavailable, unknown-host and timeout messages contain the host. The unavailable and timeout messages contain `host:port`. |
| Discovery.ParseDriverType | src/main/java/com/baidu/hugegraph/loader/util/HugeClientHolder.java:129-131 | `valueOf` yields the constant whose name is exactly the given text, and fails iff no constant has that name. |
| Discovery.DriverTypeIgnoresCase | src/main/java/com/baidu/hugegraph/loader/util/HugeClientHolder.java:129-131 | A corollary of `ParseDriverType` and `ToUpper`, kept as documentation: any spelling of `metaType` whose upper-case form is a constant's name selects that constant. |
| Text.ToUpper | src/main/java/com/baidu/hugegraph/loader/util/HugeClientHolder.java:131 | Upper-casing keeps the length. It leaves no lower-case letter behind. It changes only lower-case letters, each to its capital. |
| Discovery.ChooseConnect | src/main/java/com/baidu/hugegraph/loader/util/HugeClientHolder.java:129-142 | Choosing the driver fails iff the upper-cased `metaType` names no driver type, even when no CA is given. With a non-empty `metaCa`, the parsed type and all three TLS fields are used. Otherwise ETCD is used with the endpoints only. The endpoints are always the `metaURL` list. |
| Discovery.UserAgreesAcrossPathsIffSet | src/main/java/com/baidu/hugegraph/loader/util/HugeClientHolder.java:123-150 | The direct path and the discovery path log in as the same user iff `username` is set. Without one, the direct builder gets the graph name (lines 55-56), and the factory gets no username, although a default is computed at lines 123-124. |
| Discovery.CreateFromMeta | src/main/java/com/baidu/hugegraph/loader/util/HugeClientHolder.java:122-190 | An unknown driver type fails before anything is opened. A failed connect is rethrown with no close. Once `connect` returns a factory, the call makes exactly one client request to that factory and then closes that same factory once, as the last event. This holds on success, on classified errors and on unclassified errors. The path's own copy of the catch clauses gives exactly what the shared classifier gives. |
| Scenarios.BareHostExample | src/main/java/com/baidu/hugegraph/loader/util/HugeClientHolder.java:46-54 | `db.example.com`, port 8080 becomes `http://db.example.com:8080`, or `https://…` with TLS. |
| Scenarios.SchemeHostExample | src/main/java/com/baidu/hugegraph/loader/util/HugeClientHolder.java:46-54 | `https://db.example.com` with port 8080 becomes `https://db.example.com:8080` whatever the protocol. |
| Scenarios.RefusedExample | src/main/java/com/baidu/hugegraph/loader/util/HugeClientHolder.java:104-107 | The cause message "Connection refused: connect" gives an unavailable-service error naming the options' host and port. |
| Scenarios.VersionExample | src/main/java/com/baidu/hugegraph/loader/util/HugeClientHolder.java:85-90 | The message "The version 1.0 does not match 2.0" gives a version-mismatch error that keeps the failure as its cause. |
| Scenarios.LowerCaseDriverExample | src/main/java/com/baidu/hugegraph/loader/util/HugeClientHolder.java:129-131 | `etcd` and `pd` select ETCD and PD. |

## Left out

- The network calls are parameters of the model: `HugeClient.builder(...).build()`, `MetaHugeClientFactory.connect` and `createAuthClient`. Each returns a handle or a `Failure`. The library's own behaviour is outside this model.
- Checks that `HugeClient.builder(address, graphSpace, graph)` itself may make are folded into the build outcome. The model therefore resolves the trust store before them. If both would fail, Java reports the builder's error and the model reports the trust-store error.
- `System.getProperty("loader.home.path")` is an `Option<string>` parameter. The trust-store file is never read.
- `Paths.get(home, file)` is `Direct.Join`, a plain `/` join. Path normalisation is not modelled.
- An exception thrown by `clientFactory.close()` is not modelled. In Java such an exception would replace the one in flight.
- `host`, `metaType`, `graph`, `graphSpace` and `cluster` are non-null strings here. In Java a null `host` or `metaType` ends in a `NullPointerException`. A null `graph` with a null `username` gives a null effective username, which is then passed to `configUser`; the model cannot express that. A null `metaURL` is treated as the empty list, as `CollectionUtils.isNotEmpty` does.
- Text.ToUpper: only ASCII letters are upper-cased. Java's locale-aware `toUpperCase` also maps other characters; for example the dotless `ı` becomes `I`.
- Exception subclassing is flattened into one `Failure` variant per caught class. A failure from a subclass of a caught class is modelled as that class.
- Some values come from files outside this model: `Constants.java`, `LoadOptions.java`, and the `MetaDriverType` enum of the client library. They are named constants: `http://`, `https://`, `https`, status 401, `conf/hugegraph.truststore`, and driver types ETCD and PD.
- Timeout and connection-pool values are copied into the builder configuration unchanged. They have no effect here.
- The unused `HugeClientBuilder builder` local in `createFromMeta` has no behaviour to model.

## Notes on the code as written

- The host is never left unchanged. Even a host that already has a scheme gets `:port` appended.
- The unknown-host test looks for `java.net.UnknownHostException`, the fully qualified class name.
- The home-path check raises `IllegalArgumentException`. None of the catch clauses handle that class, so it leaves `create` unclassified.
- `createFromMeta` computes a default username but passes `options.username` to the factory. The model follows the code (`Discovery.AuthRequestOf`).
- Without a CA, a non-ETCD `metaType` is parsed and then silently replaced by ETCD (`Discovery.ChooseConnect`).
- The discovery path reports connection errors with `options.host` and `options.port`. Those are the direct-mode options, not the address found through discovery.
