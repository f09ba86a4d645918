/** The load options this component consumes, the constants it compares
    them with, and the failures the client library can raise. */
module LoadModel {
  import opened Base

  /** `Constants.HTTP_PREFIX` and `Constants.HTTPS_PREFIX`. */
  const HTTP_PREFIX: string := "http://"
  const HTTPS_PREFIX: string := "https://"
  /** `LoadOptions.HTTPS_SCHEMA`, the value of `--protocol` that enables TLS. */
  const HTTPS_SCHEMA: string := "https"
  /** `Constants.TRUST_STORE_FILE`, relative to the loader's home path. */
  const TRUST_STORE_FILE: string := "conf/hugegraph.truststore"
  /** `Constants.STATUS_UNAUTHORIZED`. */
  const STATUS_UNAUTHORIZED: int := 401
  /** Trust-store password used when none is configured. */
  const DEFAULT_TRUST_STORE_TOKEN: string := "hugegraph"

  /** The fields of `LoadOptions` read by the client holder. Nullable Java
      fields are `Option`s; a null `metaURL` list is the empty sequence. */
  datatype LoadOptions = LoadOptions(
    host: string,
    port: int,
    protocol: Option<string>,
    graphSpace: string,
    graph: string,
    username: Option<string>,
    password: Option<string>,
    token: Option<string>,
    timeout: int,
    maxConnections: int,
    maxConnectionsPerRoute: int,
    trustStoreFile: Option<string>,
    trustStoreToken: Option<string>,
    metaURL: seq<string>,
    metaType: string,
    metaCa: Option<string>,
    metaClientCa: Option<string>,
    metaClientKey: Option<string>,
    cluster: string
  )

  /** What the library may throw while a client is being obtained, by
      exception class: `IllegalStateException`, `ServerException` (with its
      HTTP status), `ClientException` (reduced to its cause's message, `None`
      when the cause or its message is null), `IllegalArgumentException`, and
      any other exception class. */
  datatype Failure =
    | IllegalState(msg: Option<string>)
    | Server(status: int, msg: Option<string>)
    | Client(causeMsg: Option<string>)
    | IllegalArgument(reason: string)
    | Other(className: string, msg: Option<string>)

  /** An opaque client handle (`HugeClient`). */
  datatype HugeClient = HugeClient(id: nat)

  /** What one library call for a client produced. */
  datatype Attempt = Built(client: HugeClient) | Failed(failure: Failure)

  /** The `LoadException` kinds the holder raises; host and port are kept as
      fields rather than rendered into the message. */
  datatype LoadErrorKind =
    | VersionMismatch
    | BadCredentials
    | Unavailable(host: string, port: int)
    | UnknownHost(host: string)
    | ConnectTimeout(host: string, port: int)

  /** What leaves the holder when it throws: a `LoadException` wrapping the
      library failure as its cause, or the library failure itself. */
  datatype Raised =
    | LoadError(kind: LoadErrorKind, cause: Failure)
    | Propagated(failure: Failure)

  /** The result of asking the holder for a client. */
  datatype Outcome = Connected(client: HugeClient) | Threw(raised: Raised)
}
