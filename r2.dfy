/**
 * The R2 object-store service: the credential check and client
 * configuration, the bucket name, and the two presigned-URL generators.
 * The SDK's signing call is the `Signer` parameter, an arbitrary function
 * that may fail; the millisecond clock read after signing is `nowMs`.
 */
module R2 {
  import opened Wrappers
  import opened Strings

  /** The deployment bindings the service reads; an absent variable is `None`. */
  datatype Env = Env(
    r2AccessKeyId: Option<string>,
    r2SecretAccessKey: Option<string>,
    r2AccountId: Option<string>,
    cloudflareAccountId: Option<string>,
    r2BucketName: string)

  /** A thrown value: an `Error` with its message, or anything else. */
  datatype Thrown = ErrorObject(message: string) | NonErrorValue

  datatype Credentials = Credentials(accessKeyId: string, secretAccessKey: string)

  /** The configuration the S3 client is constructed with. */
  datatype ClientConfig = ClientConfig(region: string, endpoint: string, credentials: Credentials)

  /** The object-store command a URL is signed for. */
  datatype Command =
    | GetObject(bucket: string, key: string)
    | PutObject(bucket: string, key: string, contentType: string)

  /** Signs a command with a lifetime in seconds, or throws. */
  type Signer = (ClientConfig, Command, int) -> Result<string, Thrown>

  /** What a generator returns: the URL and its expiry in Unix seconds. */
  datatype Presigned = Presigned(url: string, expires: int)

  const CredentialsNotConfigured := "R2 credentials not configured. Please set R2_ACCESS_KEY_ID, R2_SECRET_ACCESS_KEY, and R2_ACCOUNT_ID in your environment variables."
  const Region := "auto"
  const EndpointScheme := "https://"
  const EndpointHost := ".r2.cloudflarestorage.com"
  const DefaultExpiresIn := 3600
  const DefaultContentType := "application/octet-stream"

  /** `R2_ACCOUNT_ID || CLOUDFLARE_ACCOUNT_ID`. */
  function ResolveAccountId(env: Env): (accountId: Option<string>)
    ensures Truthy(accountId) <==> Truthy(env.r2AccountId) || Truthy(env.cloudflareAccountId)
    ensures Truthy(env.r2AccountId) ==> accountId == env.r2AccountId
    ensures !Truthy(env.r2AccountId) ==> accountId == env.cloudflareAccountId
  {
    if Truthy(env.r2AccountId) then env.r2AccountId else env.cloudflareAccountId
  }

  /** The three credentials the client needs are all present and non-empty. */
  predicate CredentialsConfigured(env: Env) {
    Truthy(env.r2AccessKeyId) && Truthy(env.r2SecretAccessKey) && Truthy(ResolveAccountId(env))
  }

  /** The account id named by an endpoint URL, if it has the R2 shape. */
  function AccountOfEndpoint(endpoint: string): Option<string> {
    if StartsWith(endpoint, EndpointScheme) && |endpoint| >= |EndpointScheme| + |EndpointHost|
       && EndsWith(endpoint, EndpointHost)
    then Some(endpoint[|EndpointScheme|..|endpoint| - |EndpointHost|])
    else None
  }

  /** The account's R2 endpoint; the account id can be read back from it. */
  function Endpoint(accountId: string): (endpoint: string)
    ensures StartsWith(endpoint, EndpointScheme) && EndsWith(endpoint, EndpointHost)
    ensures AccountOfEndpoint(endpoint) == Some(accountId)
  {
    var e := EndpointScheme + accountId + EndpointHost;
    assert e[..|EndpointScheme|] == EndpointScheme;
    assert e[|EndpointScheme|..|e| - |EndpointHost|] == accountId;
    e
  }

  lemma EndpointInjective(a: string, b: string)
    ensures Endpoint(a) == Endpoint(b) <==> a == b
  {
  }

  /** Builds the client configuration, or throws when a credential is missing. */
  function CreateR2Client(env: Env): (r: Result<ClientConfig, Thrown>)
    ensures r.Success? <==> CredentialsConfigured(env)
    ensures r.Failure? ==> r.error == ErrorObject(CredentialsNotConfigured)
    ensures r.Success? ==>
      && r.value.region == "auto"
      && AccountOfEndpoint(r.value.endpoint) == ResolveAccountId(env)
      && r.value.credentials.accessKeyId == env.r2AccessKeyId.value
      && r.value.credentials.secretAccessKey == env.r2SecretAccessKey.value
  {
    var accessKeyId := env.r2AccessKeyId;
    var secretAccessKey := env.r2SecretAccessKey;
    var accountId := ResolveAccountId(env);
    if !Truthy(accessKeyId) || !Truthy(secretAccessKey) || !Truthy(accountId) then
      Failure(ErrorObject(CredentialsNotConfigured))
    else
      Success(ClientConfig(Region, Endpoint(accountId.value),
                           Credentials(accessKeyId.value, secretAccessKey.value)))
  }

  function GetBucketName(env: Env): string {
    env.r2BucketName
  }

  /**
   * `Math.floor(nowMs / 1000) + expiresIn`: the lifetime added to the current
   * whole second, so within one second of `nowMs + expiresIn` seconds.
   */
  function ExpiresAt(nowMs: nat, expiresIn: int): (expires: int)
    ensures expires * 1000 <= nowMs + expiresIn * 1000 < expires * 1000 + 1000
  {
    nowMs / 1000 + expiresIn
  }

  /** The expiry never precedes the current whole second exactly when the lifetime is not negative. */
  lemma ExpiresNotBeforeNow(nowMs: nat, expiresIn: int)
    ensures ExpiresAt(nowMs, expiresIn) >= nowMs / 1000 <==> expiresIn >= 0
    ensures expiresIn == DefaultExpiresIn ==> ExpiresAt(nowMs, expiresIn) == nowMs / 1000 + 3600
  {
  }

  /** A later clock reading never gives an earlier expiry. */
  lemma ExpiresMonotonic(earlierMs: nat, laterMs: nat, expiresIn: int)
    requires earlierMs <= laterMs
    ensures ExpiresAt(earlierMs, expiresIn) <= ExpiresAt(laterMs, expiresIn)
  {
  }

  /** Signs `command` with the configured client and stamps the expiry. */
  function Sign(env: Env, command: Command, expiresIn: int, nowMs: nat, signer: Signer): Result<Presigned, Thrown>
  {
    match CreateR2Client(env)
    case Failure(thrown) => Failure(thrown)
    case Success(client) =>
      match signer(client, command, expiresIn)
      case Failure(thrown) => Failure(thrown)
      case Success(url) => Success(Presigned(url, ExpiresAt(nowMs, expiresIn)))
  }

  /**
   * A presigned GET for `key` in the configured bucket; `expiresIn` defaults
   * to 3600 seconds.
   */
  function GeneratePresignedDownloadUrl(env: Env, key: string, expiresIn: Option<int>, nowMs: nat, signer: Signer)
    : (r: Result<Presigned, Thrown>)
    ensures !CredentialsConfigured(env) ==> r == Failure(ErrorObject(CredentialsNotConfigured))
    ensures CredentialsConfigured(env) ==>
      var command := GetObject(env.r2BucketName, key);
      var ttl := expiresIn.GetOr(DefaultExpiresIn);
      var signed := signer(CreateR2Client(env).value, command, ttl);
      && (r.Success? <==> signed.Success?)
      && (r.Success? ==> r.value.url == signed.value && r.value.expires == ExpiresAt(nowMs, ttl))
      && (r.Failure? ==> r.error == signed.error)
  {
    var bucketName := GetBucketName(env);
    Sign(env, GetObject(bucketName, key), expiresIn.GetOr(DefaultExpiresIn), nowMs, signer)
  }

  /**
   * A presigned PUT for `key` in the configured bucket, bound to
   * `contentType` (default `application/octet-stream`); `expiresIn` defaults
   * to 3600 seconds.
   */
  function GeneratePresignedUploadUrl(env: Env, key: string, contentType: Option<string>, expiresIn: Option<int>,
                                      nowMs: nat, signer: Signer)
    : (r: Result<Presigned, Thrown>)
    ensures !CredentialsConfigured(env) ==> r == Failure(ErrorObject(CredentialsNotConfigured))
    ensures CredentialsConfigured(env) ==>
      var command := PutObject(env.r2BucketName, key, contentType.GetOr(DefaultContentType));
      var ttl := expiresIn.GetOr(DefaultExpiresIn);
      var signed := signer(CreateR2Client(env).value, command, ttl);
      && (r.Success? <==> signed.Success?)
      && (r.Success? ==> r.value.url == signed.value && r.value.expires == ExpiresAt(nowMs, ttl))
      && (r.Failure? ==> r.error == signed.error)
  {
    var bucketName := GetBucketName(env);
    var command := PutObject(bucketName, key, contentType.GetOr(DefaultContentType));
    Sign(env, command, expiresIn.GetOr(DefaultExpiresIn), nowMs, signer)
  }

  /** With credentials missing, no signer can produce a URL: both generators fail. */
  lemma MissingCredentialsNeverSign(env: Env, key: string, contentType: Option<string>, expiresIn: Option<int>,
                                    nowMs: nat, signer: Signer)
    requires !Truthy(env.r2AccessKeyId) || !Truthy(env.r2SecretAccessKey)
             || (!Truthy(env.r2AccountId) && !Truthy(env.cloudflareAccountId))
    ensures GeneratePresignedDownloadUrl(env, key, expiresIn, nowMs, signer).Failure?
    ensures GeneratePresignedUploadUrl(env, key, contentType, expiresIn, nowMs, signer).Failure?
  {
  }
}
