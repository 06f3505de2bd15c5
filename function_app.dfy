/** The HTTP-triggered handler of function_app.py: read the configuration,
    resolve the API key, fetch the flight data, and store it unchanged as a
    timestamped JSON blob. Each external service is an input: the secret as
    `get_secret` returned it, the outcome of the fetch, the outcome of the
    storage calls, and the clock reading. The handler returns the response
    and the trace of external calls it made, in order. */
module FunctionApp {
  import opened Wrappers
  import opened Environment
  import Timestamp
  import Naming

  const ApiUrlKey := "API_URL"
  const ContainerKey := "ADLS_FILE_SYSTEM"
  const PathPrefixKey := "ADLS_PATH_PREFIX"
  const DefaultPathPrefix := "flights"
  const SecretName := "api-key"

  /** Status codes, section 15.3.1 (200 OK), 15.6.1 (500 Internal Server
      Error) and 15.6.3 (502 Bad Gateway) of RFC 9110. */
  const StatusOk := 200
  const StatusInternalServerError := 500
  const StatusBadGateway := 502

  const ConfigErrorPrefix := "Configuration error: Missing "
  const FetchFailedBody := "Failed to fetch data from endpoint"
  const StorageErrorPrefix := "Failed to save data to storage: "
  const SavedPrefix := "Data saved successfully to "

  datatype Response = Response(status: int, body: string)

  /** The configuration read from the environment. */
  datatype Config = Config(apiUrl: string, container: string, pathPrefix: string)

  /** What the single GET returned: the body text, or an `httpx.HTTPError`
      (transport failure, timeout, or a status that `raise_for_status` rejects). */
  datatype FetchOutcome = Fetched(text: string) | HttpError(reason: string)

  /** The storage calls, in the order the handler makes them. */
  datatype StorageStep = ServiceClientStep | ContainerClientStep | BlobClientStep | UploadStep

  /** What the storage calls did: all succeeded, or the named call raised an
      exception whose `str()` is `error`. */
  datatype StorageOutcome = Stored | StorageFailed(at: StorageStep, error: string)

  predicate FailsAt(storage: StorageOutcome, step: StorageStep) {
    storage.StorageFailed? && storage.at == step
  }

  /** An external call the handler makes. */
  datatype Call =
    | GetSecret(name: string)
    | HttpGet(url: string)
    | GetBlobServiceClient
    | GetContainerClient(container: string)
    | ReadClock
    | GetBlobClient(blobName: string)
    | UploadBlob(content: string, overwrite: bool)

  /** The configuration stage (lines 20-26): `API_URL` is looked up first,
      then `ADLS_FILE_SYSTEM`; `ADLS_PATH_PREFIX` is optional. */
  function LoadConfig(env: Env): (r: Result<Config, KeyError>)
    ensures r.Success? <==> ApiUrlKey in env && ContainerKey in env
    ensures ApiUrlKey !in env ==> r == Failure(KeyError(ApiUrlKey))
    ensures ApiUrlKey in env && ContainerKey !in env ==> r == Failure(KeyError(ContainerKey))
    ensures r.Success? ==>
      r.value.apiUrl == env[ApiUrlKey] && r.value.container == env[ContainerKey] &&
      (PathPrefixKey in env ==> r.value.pathPrefix == env[PathPrefixKey]) &&
      (PathPrefixKey !in env ==> r.value.pathPrefix == DefaultPathPrefix)
  {
    match Require(env, ApiUrlKey)
    case Failure(e) => Failure(e)
    case Success(apiUrl) =>
      match Require(env, ContainerKey)
      case Failure(e) => Failure(e)
      case Success(container) => Success(Config(apiUrl, container, GetOr(env, PathPrefixKey, DefaultPathPrefix)))
  }

  /** The body of the configuration error: the prefix and `str()` of the
      `KeyError`, which quotes the key. */
  function ConfigErrorBody(key: string): (body: string)
    ensures |body| == |ConfigErrorPrefix| + |key| + 2
    ensures body[..|ConfigErrorPrefix|] == ConfigErrorPrefix
    ensures body[|ConfigErrorPrefix|..] == "'" + key + "'"
  {
    ConfigErrorPrefix + KeyError(key).Text()
  }

  lemma ConfigErrorBodies()
    ensures ConfigErrorBody(ApiUrlKey) == "Configuration error: Missing 'API_URL'"
    ensures ConfigErrorBody(ContainerKey) == "Configuration error: Missing 'ADLS_FILE_SYSTEM'"
  {
    ConfigErrorBodyOf(ApiUrlKey, "Configuration error: Missing 'API_URL'");
    ConfigErrorBodyOf(ContainerKey, "Configuration error: Missing 'ADLS_FILE_SYSTEM'");
  }

  lemma ConfigErrorBodyOf(key: string, body: string)
    requires body == ConfigErrorPrefix + "'" + key + "'"
    ensures ConfigErrorBody(key) == body
  {
  }

  /** The calls the storage stage makes when none of them raises: service
      client, container client, the clock, the blob client for the
      timestamped name, and the upload of the payload with overwrite. */
  function StorageCalls(cfg: Config, data: string, now: Timestamp.DateTime): (calls: seq<Call>)
    requires Timestamp.IsFormattable(now)
    ensures |calls| == 5
  {
    [GetBlobServiceClient, GetContainerClient(cfg.container), ReadClock,
     GetBlobClient(Naming.BlobName(cfg.pathPrefix, Timestamp.Format(now))),
     UploadBlob(data, true)]
  }

  /** How many storage calls have been made once the given one has been made
      (the clock is read between the container client and the blob client).
      The bound is what lets callers cut StorageCalls at this point. */
  function CallsThrough(step: StorageStep): (n: nat)
    ensures 1 <= n <= 5
  {
    match step
    case ServiceClientStep => 1
    case ContainerClientStep => 2
    case BlobClientStep => 4
    case UploadStep => 5
  }

  /** Whether `call` is the external call that the given storage step makes. */
  predicate IsCallOf(step: StorageStep, call: Call) {
    match step
    case ServiceClientStep => call.GetBlobServiceClient?
    case ContainerClientStep => call.GetContainerClient?
    case BlobClientStep => call.GetBlobClient?
    case UploadStep => call.UploadBlob?
  }

  /** Cutting the storage calls at a step ends with that step's own call,
      made there for the first time, and the cuts grow in step order. */
  lemma CallsThroughEndsAtStep(cfg: Config, data: string, now: Timestamp.DateTime, step: StorageStep)
    requires Timestamp.IsFormattable(now)
    ensures var calls := StorageCalls(cfg, data, now)[..CallsThrough(step)];
      IsCallOf(step, calls[|calls| - 1]) &&
      forall j :: 0 <= j < |calls| - 1 ==> !IsCallOf(step, calls[j])
    ensures CallsThrough(ServiceClientStep) < CallsThrough(ContainerClientStep) <
            CallsThrough(BlobClientStep) < CallsThrough(UploadStep)
  {
  }

  /** The storage stage (lines 40-59): the first call that raises ends the
      stage with 500 and the exception's text, and no later call is made;
      when none raises, the payload is uploaded once, unchanged, under
      `prefix/timestamp.json` with overwrite, and the answer is 200 naming
      the container and the blob. The clock reading `now` is consulted only
      once the container client has been obtained; it is required to be a
      date-time with a four-digit year on every path because it is an input,
      not a call the stage may skip. */
  method SaveToStorage(cfg: Config, data: string, storage: StorageOutcome, now: Timestamp.DateTime)
    returns (resp: Response, calls: seq<Call>)
    requires Timestamp.IsFormattable(now)
    ensures storage.Stored? ==>
      resp == Response(StatusOk, SavedPrefix + cfg.container + "/" +
                       Naming.BlobName(cfg.pathPrefix, Timestamp.Format(now))) &&
      calls == StorageCalls(cfg, data, now)
    ensures storage.StorageFailed? ==>
      resp == Response(StatusInternalServerError, StorageErrorPrefix + storage.error) &&
      calls == StorageCalls(cfg, data, now)[..CallsThrough(storage.at)]
    ensures forall i :: 0 <= i < |calls| && calls[i].UploadBlob? ==>
      i == |calls| - 1 && calls[i] == UploadBlob(data, true)
  {
    ghost var planned := StorageCalls(cfg, data, now);
    calls := [GetBlobServiceClient];
    if FailsAt(storage, ServiceClientStep) {
      return Response(StatusInternalServerError, StorageErrorPrefix + storage.error), calls;
    }
    calls := calls + [GetContainerClient(cfg.container)];
    if FailsAt(storage, ContainerClientStep) {
      return Response(StatusInternalServerError, StorageErrorPrefix + storage.error), calls;
    }
    calls := calls + [ReadClock];
    var timestamp := Timestamp.Format(now);
    var blobName := Naming.BlobName(cfg.pathPrefix, timestamp);
    calls := calls + [GetBlobClient(blobName)];
    assert calls == planned[..4];
    if FailsAt(storage, BlobClientStep) {
      return Response(StatusInternalServerError, StorageErrorPrefix + storage.error), calls;
    }
    calls := calls + [UploadBlob(data, true)];
    if storage.StorageFailed? {
      return Response(StatusInternalServerError, StorageErrorPrefix + storage.error), calls;
    }
    resp := Response(StatusOk, SavedPrefix + cfg.container + "/" + blobName);
  }

  /** `http_trigger(req)`. The first stage that fails decides the response and
      no later stage runs:
      - a missing `API_URL` (checked first) or `ADLS_FILE_SYSTEM` gives 500
        naming the key, before any external call;
      - the secret is looked up once and never stops the run; an absent one
        is sent as the text `None`;
      - an HTTP error from the one GET gives 502 and nothing is stored;
      - an exception from any storage call gives 500 with its text;
      - otherwise the fetched text is uploaded once, unchanged, with
        overwrite, and the answer is 200 naming container and blob.
      The clock reading `now` matters only in the storage stage (it is read
      after the container client, line 44); the configuration and fetch
      paths never consult it, so its requires is a condition on the input,
      not on those paths. */
  method HttpTrigger(env: Env, secret: Option<string>, fetch: FetchOutcome, storage: StorageOutcome,
                     now: Timestamp.DateTime)
    returns (resp: Response, trace: seq<Call>)
    requires Timestamp.IsFormattable(now)
    ensures resp.status == StatusOk || resp.status == StatusInternalServerError || resp.status == StatusBadGateway
    // configuration errors
    ensures ApiUrlKey !in env ==>
      resp == Response(StatusInternalServerError, ConfigErrorBody(ApiUrlKey)) && trace == []
    ensures ApiUrlKey in env && ContainerKey !in env ==>
      resp == Response(StatusInternalServerError, ConfigErrorBody(ContainerKey)) && trace == []
    // with a configuration, the secret is always looked up and the fetch always attempted
    ensures LoadConfig(env).Success? ==>
      |trace| >= 2 && trace[0] == GetSecret(SecretName) &&
      trace[1] == HttpGet(Naming.FetchUrl(env[ApiUrlKey], secret))
    // fetch errors
    ensures LoadConfig(env).Success? && fetch.HttpError? ==>
      resp == Response(StatusBadGateway, FetchFailedBody) && |trace| == 2
    // storage errors and success
    ensures LoadConfig(env).Success? && fetch.Fetched? ==>
      var cfg := LoadConfig(env).value;
      var stored := StorageCalls(cfg, fetch.text, now);
      (storage.Stored? ==>
        resp == Response(StatusOk, SavedPrefix + cfg.container + "/" +
                         Naming.BlobName(cfg.pathPrefix, Timestamp.Format(now))) &&
        trace[2..] == stored) &&
      (storage.StorageFailed? ==>
        resp == Response(StatusInternalServerError, StorageErrorPrefix + storage.error) &&
        trace[2..] == stored[..CallsThrough(storage.at)])
    // the payload: uploaded at most once, as the last call, and only the fetched text
    ensures forall i :: 0 <= i < |trace| && trace[i].UploadBlob? ==>
      i == |trace| - 1 && fetch.Fetched? && trace[i] == UploadBlob(fetch.text, true)
    ensures resp.status == StatusOk <==> LoadConfig(env).Success? && fetch.Fetched? && storage.Stored?
  {
    trace := [];
    var config := LoadConfig(env);
    if config.Failure? {
      return Response(StatusInternalServerError, ConfigErrorBody(config.error.key)), trace;
    }
    var cfg := config.value;
    var endpointUrl := cfg.apiUrl + Naming.FlightsPath;

    trace := trace + [GetSecret(SecretName)];
    var apiKey := secret;
    endpointUrl := endpointUrl + Naming.KeyQuery + Naming.SecretText(apiKey);

    trace := trace + [HttpGet(endpointUrl)];
    if fetch.HttpError? {
      return Response(StatusBadGateway, FetchFailedBody), trace;
    }
    var data := fetch.text;

    var calls;
    resp, calls := SaveToStorage(cfg, data, storage, now);
    trace := trace + calls;
  }
}
