# Flight-data function app: a verified model

The system is a single HTTP-triggered Azure Function. On each request it
does four things:

1. It reads its configuration from the environment.
2. It asks the Key Vault for the API key.
3. It makes one GET to `{API_URL}/flights?key={key}`.
4. It stores the fetched text, unchanged, as the blob
   `{container}/{prefix}/{YYYYMMDDTHHMMSSZ}.json`.

Its Key Vault helpers build one process-wide credential and one secret
client on first use (`functools.cache`), resolve secrets with every failure
turned into `None`, and build a new storage client for the account's blob
endpoint on every call.

The Dafny modules are:

- `Wrappers`: `Option` and `Result`.
- `Environment`: `os.environ[key]` (which raises `KeyError`),
  `os.getenv(key, default)`, and `str()` of a `KeyError`.
- `Timestamp`: `strftime("%Y%m%dT%H%M%SZ")`. This is the basic format of
  ISO 8601:2004 section 4.3.2, with the `Z` UTC designator. The module
  also has a parser that inverts it.
- `Naming`: `str.rstrip`, the fetch URL and the blob name.
- `FunctionApp`: the configuration stage, the storage stage
  (`SaveToStorage`) and the handler (`HttpTrigger`).
- `KeyVault`:
  - the pure parts of `get_secret` (`ResolveSecret`);
  - the storage account URL (`AccountUrl`);
  - the class `ClientCache`, which holds the two cache slots and counts
    how many times each SDK constructor ran.

The handler takes each external service as an input:

- the environment, as a map;
- the secret that `get_secret` returned, as an `Option`;
- the fetch outcome, `Fetched(text)` or `HttpError`;
- the storage outcome, which is either all calls succeeded or the call
  (service client, container client, blob client or upload) that raised,
  with the exception's text;
- the clock reading.

It returns the response `(status, body)` and the ordered trace of external
calls it made. The status codes are 200, 500 and 502, as defined in sections
15.3.1, 15.6.1 and 15.6.3 of RFC 9110.

Three places where the behaviour might be expected to differ from what the
code does. The model follows the code:

- **Absent secret.** When the secret is absent, the Python f-string writes
  the text `None` into the query (`?key=None`), not an empty value.
  `Naming.AbsentSecretSendsNone` proves that this request is the same as
  one for a secret whose value is `None`.
- **Configuration error body.** The body is built from `str()` of the
  `KeyError`, which quotes the key: `Configuration error: Missing 'API_URL'`.
- **Empty path prefix.** `ADLS_PATH_PREFIX` set to the empty string is kept
  (`os.getenv` uses its default only when the variable is unset). The blob
  name then starts with `/`.

## Model

| member | source | states |
|---|---|---|
| `Environment.Require` | function_app.py:21-22 | `os.environ[key]` gives the value exactly when the key is set, and otherwise raises the `KeyError` naming that key (also used at key_vault.py lines 17 and 32) |
| `Environment.GetOr` | function_app.py:23 | `os.getenv(key, default)` gives the set value, even an empty one, and the default only when the key is unset |
| `Environment.KeyError.Text` | function_app.py:24-26 | `str()` of the `KeyError` is the key between single quotes |
| `Timestamp.Format` | function_app.py:44 | the timestamp has 16 characters: zero-padded decimal digits, with `T` at index 8 and `Z` at index 15 |
| `Timestamp.Parse` | function_app.py:44 | whatever the parser accepts is a valid date-time with a four-digit year, read from a string of the basic shape |
| `Timestamp.ParseFormat` | function_app.py:44 | parsing a formatted timestamp gives back the same date-time (round trip) |
| `Timestamp.FormatParse` | function_app.py:44 | every string the parser accepts is exactly the formatting of the date-time it returns (reverse round trip) |
| `Timestamp.FormatInjective` | function_app.py:44 | two different date-times never get the same timestamp |
| `Timestamp.FormatExample` | tests/test_function_app.py:55-57 | 2023-11-10 12:00:00 UTC is written `20231110T120000Z` |
| `Naming.RStrip` | function_app.py:45 | `rstrip('/')` returns a prefix of its input, does not end in `/`, and removes only `/` characters |
| `Naming.RStripUnique` | function_app.py:45 | any prefix with those three properties is the stripped string, so the contract fully determines the result |
| `Naming.RStripIdempotent` | function_app.py:45 | stripping twice gives the same result as stripping once |
| `Naming.SecretText` | function_app.py:28-29 | the f-string writes a present secret as its own text and an absent one as `None` |
| `Naming.FetchUrl` | function_app.py:21-29 | the URL is `API_URL`, then `/flights?key=`, then the secret's text, joined by plain concatenation with no escaping |
| `Naming.FetchUrlInjective` | function_app.py:29 | different keys give different URLs, so the key can be read back from the URL |
| `Naming.AbsentSecretSendsNone` | function_app.py:28-29 | an absent secret does not stop the request: the URL ends in `?key=None`, the same as for a secret whose value is `None` |
| `Naming.FetchUrlExample` | tests/test_function_app.py:74-77 | the URL for `https://api.example.com` with key `test-api-key` is `https://api.example.com/flights?key=test-api-key` |
| `Naming.BlobName` | function_app.py:45 | the name's length is the stripped prefix's length, plus the timestamp's length, plus 6 (the `/` and `.json`) |
| `Naming.BlobNameShape` | function_app.py:45 | the name is the stripped prefix, then `/`, then the rest, and ends in `.json`; the part before that `/` does not end in `/` |
| `Naming.BlobNameIgnoresTrailingSlashes` | function_app.py:45 | adding or removing trailing slashes on the prefix does not change the blob name |
| `Naming.BlobNameDecomposes` | function_app.py:44-45 | the blob name splits back into the stripped prefix, `/`, a timestamp that parses to the clock reading, and `.json` |
| `Naming.BlobNameInjective` | function_app.py:44-45 | equal blob names mean equal stripped prefixes and the same second |
| `Naming.BlobNameExample` | tests/test_function_app.py:210-215 | with the default prefix, the name is `flights/20231110T120000Z.json` |
| `FunctionApp.LoadConfig` | function_app.py:20-26 | the configuration fails exactly when `API_URL` or `ADLS_FILE_SYSTEM` is unset; `API_URL` is checked first; the prefix is `ADLS_PATH_PREFIX` if set, otherwise `flights` |
| `FunctionApp.ConfigErrorBody` | function_app.py:24-26 | the body is `Configuration error: Missing ` followed by the key in single quotes |
| `FunctionApp.ConfigErrorBodies` | function_app.py:20-26 | the two possible configuration error bodies, written out as text |
| `FunctionApp.CallsThroughEndsAtStep` | function_app.py:40-49 | cutting the storage calls at a step ends with that step's own call, made there for the first time, and the cuts grow in the order the calls are made |
| `FunctionApp.SaveToStorage` | function_app.py:40-59 | the first storage call that raises gives 500 with `Failed to save data to storage: ` and the error text, and no later call is made. If no call raises, the unchanged payload is uploaded once with overwrite, under the timestamped name, as the last call, and the result is 200 naming the container and blob |
| `FunctionApp.HttpTrigger` | function_app.py:14-59 | the decision table. A missing key gives 500 naming it, with no external call. Otherwise the secret is looked up once and the fetch always goes to the fetch URL. An HTTP error gives 502 `Failed to fetch data from endpoint` with no storage call. Storage failures and success are handled as in `SaveToStorage`. The status is 200 exactly when every stage succeeds, and only the fetched text is ever uploaded |
| `KeyVault.Lookup` | key_vault.py:24 | the lookup succeeds exactly when the vault can be reached and holds the requested name, and returns the value stored under that exact name. Otherwise it raises not-found or unreachable |
| `KeyVault.ResolveSecret` | key_vault.py:21-28 | `get_secret` returns a value exactly when the client was built, the vault answers, and it holds the name. The value is the one stored under that exact name. Every other case gives `None` |
| `KeyVault.AccountUrl` | key_vault.py:32-33 | the account URL is `https://`, then the account name, then `.blob.core.windows.net` |
| `KeyVault.AccountUrlInjective` | key_vault.py:32-33 | different storage accounts get different endpoints |
| `KeyVault.AccountUrlExample` | tests/test_key_vault.py:142-145 | account `teststorage` gets `https://teststorage.blob.core.windows.net` |
| `KeyVault.ClientCache.constructor` | key_vault.py:10-16 | a new process starts with both cache slots empty and nothing built |
| `KeyVault.ClientCache.GetCredential` | key_vault.py:10-12 | the first call builds the credential. Every later call returns that same instance and builds nothing. At most one credential is ever built |
| `KeyVault.ClientCache.GetSecretClient` | key_vault.py:15-18 | a cached client is returned unchanged. Otherwise a missing `KEY_VAULT_URL` raises `KeyError` and leaves the cache empty, so a later call retries. Otherwise a client is built for that URL with the shared credential and then cached |
| `KeyVault.ClientCache.GetSecret` | key_vault.py:21-28 | never raises. It returns the stored value exactly when a client is available or can be built and the vault holds the name; otherwise `None`. With a cached client, or with `KEY_VAULT_URL` unset, nothing changes. Otherwise a client for that URL with the shared credential is built and cached. A cached credential is never replaced |
| `KeyVault.ClientCache.GetBlobServiceClient` | key_vault.py:31-36 | a missing `STORAGE_ACCOUNT_NAME` raises `KeyError` before the credential is touched. Otherwise a new client (not cached) is built for the account URL with the shared credential |
| `KeyVault.SharedCredential` | key_vault.py:10-36 | in one process, the secret client and every storage client hold the same single credential, and two storage clients are different instances |

## Left out

- The Azure Functions app, its route registration, and the `HttpRequest` and `HttpResponse` types are not modelled. The response is a `(status, body)` value.
- The `httpx` client, its 30-second timeout, and which statuses `raise_for_status` rejects are not modelled. The fetch is an abstract outcome.
- HttpTrigger: exceptions from the fetch other than `httpx.HTTPError` propagate out of the handler uncaught. This is not modelled, because the fetch outcome has only the two cases the handler handles.
- The Azure SDK constructors and calls are not modelled. Clients are values that record their arguments and a serial number. The credential's `exclude_interactive_browser_credential` argument is not recorded. Failures of the identity chain show up only as storage or lookup failures.
- HttpTrigger takes the secret and the storage outcome as inputs. It does not call `ClientCache`, so the cache effects of one request are modelled only by `ClientCache` itself.
- `datetime.now(timezone.utc)` is not modelled. The clock reading is an input.
- Timestamp.Format: defined only for years 1000 to 9999, because below 1000 the padding of `%Y` depends on the platform.
- The UTF-8 encoding of the payload is not modelled. The upload call records the fetched text itself.
- Logging calls are not modelled.
- The thread safety of `functools.cache` under concurrent invocations is not modelled. The caches are sequential.
- The SDK's `KeyVaultSecret.value` can itself be `None`. The vault here stores only strings.
- KeyError.Text renders the key between single quotes. This is Python's repr for keys without quotes or backslashes, which covers every key the code uses.
