/** The credential and client helpers of key_vault.py: a process-wide
    credential and secret-store client, each built once and then reused
    (`functools.cache`), a secret lookup that turns every failure into
    `None`, and the storage client factory. The Azure SDK objects are values
    that record what they were built from; a serial number tells apart
    instances built at different times. */
module KeyVault {
  import opened Wrappers
  import opened Environment

  const KeyVaultUrlKey := "KEY_VAULT_URL"
  const StorageAccountKey := "STORAGE_ACCOUNT_NAME"
  const BlobDomain := ".blob.core.windows.net"

  /** A `DefaultAzureCredential`; `serial` counts the credentials built before it. */
  datatype Credential = Credential(serial: nat)

  /** A `SecretClient(vault_url, credential)`. */
  datatype SecretClient = SecretClient(vaultUrl: string, credential: Credential)

  /** A `BlobServiceClient(account_url, credential)`; `serial` counts the
      storage clients built before it. */
  datatype BlobServiceClient = BlobServiceClient(serial: nat, accountUrl: string, credential: Credential)

  /** The vault behind `KEY_VAULT_URL` as one lookup sees it: the secrets it
      holds and whether it can be reached with the credential at all
      (network and permission failures). */
  datatype Vault = Vault(secrets: map<string, string>, reachable: bool)

  datatype LookupError = NotFound | Unreachable

  /** `secret_client.get_secret(name)`: the value stored under exactly that
      name, or the exception it raises. */
  function Lookup(vault: Vault, name: string): (r: Result<string, LookupError>)
    ensures r.Success? <==> vault.reachable && name in vault.secrets
    ensures r.Success? ==> r.value == vault.secrets[name]
    ensures !vault.reachable ==> r == Failure(Unreachable)
    ensures vault.reachable && name !in vault.secrets ==> r == Failure(NotFound)
  {
    if !vault.reachable then Failure(Unreachable)
    else if name in vault.secrets then Success(vault.secrets[name])
    else Failure(NotFound)
  }

  /** The body of `get_secret` once the client has been asked for: a client
      that could not be built and a lookup that raised both become `None`;
      otherwise the value stored under exactly the requested name. */
  function ResolveSecret(client: Result<SecretClient, KeyError>, vault: Vault, name: string): (r: Option<string>)
    ensures r.Some? <==> client.Success? && vault.reachable && name in vault.secrets
    ensures r.Some? ==> r.value == vault.secrets[name]
  {
    match client
    case Failure(_) => None
    case Success(_) =>
      match Lookup(vault, name)
      case Success(value) => Some(value)
      case Failure(_) => None
  }

  /** `f"https://{storage_account_name}.blob.core.windows.net"`. */
  function AccountUrl(accountName: string): (url: string)
    ensures |url| == |accountName| + 30
    ensures url[..8] == "https://"
    ensures url[8..|url| - 22] == accountName
    ensures url[|url| - 22..] == ".blob.core.windows.net"
  {
    "https://" + accountName + BlobDomain
  }

  /** Distinct storage accounts get distinct endpoints. */
  lemma AccountUrlInjective(a1: string, a2: string)
    requires AccountUrl(a1) == AccountUrl(a2)
    ensures a1 == a2
  {
    var u := AccountUrl(a1);
    assert a1 == u[8..|u| - 22];
  }

  lemma AccountUrlExample()
    ensures AccountUrl("teststorage") == "https://teststorage.blob.core.windows.net"
  {
  }

  /** The process-wide state of key_vault.py: the two `functools.cache`
      slots, and how many times each SDK constructor has run. */
  class ClientCache {
    var credential: Option<Credential>
    var secretClient: Option<SecretClient>
    var credentialsBuilt: nat
    var secretClientsBuilt: nat
    var blobClientsBuilt: nat

    /** At most one credential and one secret client are ever built, each
        exactly when its cache slot is filled, and the cached secret client
        uses the cached credential. */
    ghost predicate Valid()
      reads this
    {
      credentialsBuilt == (if credential.Some? then 1 else 0) &&
      (credential.Some? ==> credential.value == Credential(0)) &&
      secretClientsBuilt == (if secretClient.Some? then 1 else 0) &&
      (secretClient.Some? ==> credential.Some? && secretClient.value.credential == credential.value)
    }

    /** A fresh process: nothing cached, nothing built. */
    constructor ()
      ensures Valid()
      ensures credential == None && secretClient == None && blobClientsBuilt == 0
    {
      credential := None;
      secretClient := None;
      credentialsBuilt := 0;
      secretClientsBuilt := 0;
      blobClientsBuilt := 0;
    }

    /** `get_credential()`: builds the credential on the first call and
        returns that same instance on every later one. */
    method GetCredential() returns (c: Credential)
      requires Valid()
      modifies this
      ensures Valid()
      ensures credential == Some(c)
      ensures old(credential).Some? ==> c == old(credential).value && credentialsBuilt == old(credentialsBuilt)
      ensures old(credential).None? ==> credentialsBuilt == old(credentialsBuilt) + 1
      ensures secretClient == old(secretClient) && secretClientsBuilt == old(secretClientsBuilt)
      ensures blobClientsBuilt == old(blobClientsBuilt)
    {
      if credential.Some? {
        return credential.value;
      }
      c := Credential(credentialsBuilt);
      credentialsBuilt := credentialsBuilt + 1;
      credential := Some(c);
    }

    /** `get_secret_client()`: the cached client if there is one; otherwise
        `KeyError` when `KEY_VAULT_URL` is unset (and nothing is cached, so a
        later call tries again), or a new client for that URL with the shared
        credential, which is then cached. */
    method GetSecretClient(env: Env) returns (r: Result<SecretClient, KeyError>)
      requires Valid()
      modifies this
      ensures Valid()
      ensures old(secretClient).Some? ==> r == Success(old(secretClient).value) && unchanged(this)
      ensures old(secretClient).None? && KeyVaultUrlKey !in env ==>
        r == Failure(KeyError(KeyVaultUrlKey)) && unchanged(this)
      ensures old(secretClient).None? && KeyVaultUrlKey in env ==>
        r.Success? && r.value.vaultUrl == env[KeyVaultUrlKey] &&
        Some(r.value.credential) == credential &&
        (old(credential).Some? ==> credential == old(credential)) &&
        secretClientsBuilt == old(secretClientsBuilt) + 1
      ensures r.Success? ==> secretClient == Some(r.value)
      ensures blobClientsBuilt == old(blobClientsBuilt)
    {
      if secretClient.Some? {
        return Success(secretClient.value);
      }
      var url := Require(env, KeyVaultUrlKey);
      if url.Failure? {
        return Failure(url.error);
      }
      var cred := GetCredential();
      var client := SecretClient(url.value, cred);
      secretClientsBuilt := secretClientsBuilt + 1;
      secretClient := Some(client);
      r := Success(client);
    }

    /** `get_secret(name)`: never raises; the value stored under `name` when
        the client can be had and the vault answers, `None` otherwise. */
    method GetSecret(env: Env, vault: Vault, name: string) returns (v: Option<string>)
      requires Valid()
      modifies this
      ensures Valid()
      ensures v.Some? <==> (old(secretClient).Some? || KeyVaultUrlKey in env) && vault.reachable && name in vault.secrets
      ensures v.Some? ==> v.value == vault.secrets[name]
      ensures secretClient.Some? <==> old(secretClient).Some? || KeyVaultUrlKey in env
      ensures old(secretClient).Some? ==> unchanged(this)
      ensures old(secretClient).None? && KeyVaultUrlKey !in env ==> unchanged(this)
      ensures old(secretClient).None? && KeyVaultUrlKey in env ==>
        secretClient.value.vaultUrl == env[KeyVaultUrlKey] &&
        credential.Some? && secretClient.value.credential == credential.value &&
        secretClientsBuilt == old(secretClientsBuilt) + 1
      ensures old(credential).Some? ==> credential == old(credential)
      ensures blobClientsBuilt == old(blobClientsBuilt)
    {
      var client := GetSecretClient(env);
      v := ResolveSecret(client, vault, name);
    }

    /** `get_blob_service_client()`: not cached. `KeyError` when
        `STORAGE_ACCOUNT_NAME` is unset (before the credential is touched);
        otherwise a newly built client for the account's blob endpoint with
        the shared credential. */
    method GetBlobServiceClient(env: Env) returns (r: Result<BlobServiceClient, KeyError>)
      requires Valid()
      modifies this
      ensures Valid()
      ensures StorageAccountKey !in env ==> r == Failure(KeyError(StorageAccountKey)) && unchanged(this)
      ensures StorageAccountKey in env ==>
        credential.Some? && (old(credential).Some? ==> credential == old(credential)) &&
        r == Success(BlobServiceClient(old(blobClientsBuilt), AccountUrl(env[StorageAccountKey]), credential.value)) &&
        blobClientsBuilt == old(blobClientsBuilt) + 1
      ensures secretClient == old(secretClient) && secretClientsBuilt == old(secretClientsBuilt)
    {
      var name := Require(env, StorageAccountKey);
      if name.Failure? {
        return Failure(name.error);
      }
      var url := AccountUrl(name.value);
      var cred := GetCredential();
      r := Success(BlobServiceClient(blobClientsBuilt, url, cred));
      blobClientsBuilt := blobClientsBuilt + 1;
    }
  }

  /** One process that resolves a secret and then builds two storage
      clients: every client holds the one credential built on first use, and
      each storage client is a new instance. */
  method SharedCredential(env: Env, vault: Vault, name: string)
    returns (secretCredential: Option<Credential>, b1: BlobServiceClient, b2: BlobServiceClient)
    requires StorageAccountKey in env
    ensures b1.credential == b2.credential == Credential(0)
    ensures b1.accountUrl == b2.accountUrl == AccountUrl(env[StorageAccountKey])
    ensures b1 != b2
    ensures KeyVaultUrlKey in env <==> secretCredential == Some(b1.credential)
  {
    var cache := new ClientCache();
    var secret := cache.GetSecret(env, vault, name);
    var r1 := cache.GetBlobServiceClient(env);
    var r2 := cache.GetBlobServiceClient(env);
    b1, b2 := r1.value, r2.value;
    secretCredential := if cache.secretClient.Some? then Some(cache.secretClient.value.credential) else None;
  }
}
