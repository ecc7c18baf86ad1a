/**
 * The media route handlers: the authentication check, per-user key
 * derivation for uploads, the namespace gate for downloads, and the mapping
 * of the generator's outcome to a 200, 401 or 500 reply. The caller's id is
 * what the authentication middleware stored (`None` when it stored nothing);
 * `keyClockMs` is the clock read for the upload key, `signClockMs` the one
 * the generator reads after signing.
 */
module Media {
  import opened Wrappers
  import opened Strings
  import opened MediaSchemas
  import opened R2

  /** An HTTP reply: a status code and a JSON body. */
  datatype Response = Response(status: nat, body: ResponseBody)

  /** A request either fails schema validation (400, with its issues) or reaches the handler. */
  datatype RouteResult = BadRequest(issues: seq<string>) | Handled(response: Response)

  const UnauthorizedMessage := "Unauthorized"
  const GenericFailureMessage := "Failed to generate presigned URL"
  const Unauthorized := Response(401, ErrorResponse(UnauthorizedMessage))

  /** The object key an upload is stored under: `userId/<ms>-filename`. */
  function UploadKey(userId: string, nowMs: nat, filename: string): (key: string)
    ensures StartsWith(key, userId + "/")
    ensures EndsWith(key, "-" + filename)
    ensures |key| == |userId| + |Decimal(nowMs)| + |filename| + 2
    ensures key[|userId| + 1..|key| - |filename| - 1] == Decimal(nowMs)
  {
    var key := userId + "/" + Decimal(nowMs) + "-" + filename;
    assert key[..|userId| + 1] == userId + "/";
    assert key[|key| - |filename| - 1..] == "-" + filename;
    assert key[|userId| + 1..|key| - |filename| - 1] == Decimal(nowMs);
    key
  }

  /** For one user and file name, keys coincide exactly when the timestamps do. */
  lemma UploadKeyInjective(userId: string, filename: string, t1: nat, t2: nat)
    ensures UploadKey(userId, t1, filename) == UploadKey(userId, t2, filename) <==> t1 == t2
  {
    if UploadKey(userId, t1, filename) == UploadKey(userId, t2, filename) {
      DecimalInjective(t1, t2);
    }
  }

  /** The download gate: an authenticated caller whose id, then '/', begins the key. */
  predicate OwnsKey(userId: Option<string>, key: string) {
    Truthy(userId) && StartsWith(key, userId.value + "/")
  }

  /** The leading path segment of a key: the text before its first '/'. */
  function NamespaceOf(key: string): Option<string> {
    match SlashIndex(key)
    case None => None
    case Some(i) => Some(key[..i])
  }

  /**
   * For a caller id without '/', the prefix gate is the same as "the key's
   * leading path segment is the caller's id".
   */
  lemma GateIsNamespaceCheck(userId: string, key: string)
    requires '/' !in userId
    ensures OwnsKey(Some(userId), key) <==> userId != "" && NamespaceOf(key) == Some(userId)
  {
    var n := |userId|;
    if OwnsKey(Some(userId), key) {
      assert key[..n] == userId && key[n] == '/';
    }
    if userId != "" && NamespaceOf(key) == Some(userId) {
      assert key[..n + 1] == userId + "/";
    }
  }

  /** A key derived for a '/'-free user lies in that user's namespace (the empty id included). */
  lemma UploadKeyNamespace(userId: string, nowMs: nat, filename: string)
    requires '/' !in userId
    ensures NamespaceOf(UploadKey(userId, nowMs, filename)) == Some(userId)
  {
    GateIsNamespaceCheck(userId, UploadKey(userId, nowMs, filename));
  }

  /**
   * Namespace isolation: when user ids contain no '/', a key derived for
   * `owner` passes the download gate for `caller` exactly when they are the
   * same user.
   */
  lemma NamespaceIsolation(owner: string, caller: string, nowMs: nat, filename: string)
    requires owner != "" && '/' !in owner && '/' !in caller
    ensures OwnsKey(Some(caller), UploadKey(owner, nowMs, filename)) <==> caller == owner
  {
    var key := UploadKey(owner, nowMs, filename);
    UploadKeyNamespace(owner, nowMs, filename);
    GateIsNamespaceCheck(caller, key);
  }

  /** Without the '/'-free assumption isolation fails: user "a" may fetch user "a/b"'s uploads. */
  lemma SlashInUserIdBreaksIsolation(nowMs: nat, filename: string)
    ensures OwnsKey(Some("a"), UploadKey("a/b", nowMs, filename))
  {
  }

  /** The gate is a textual prefix test and does no normalisation: a key with ".." segments still passes. */
  lemma DotDotKeyPassesGate()
    ensures OwnsKey(Some("alice"), "alice/../bob/photo.png")
  {
  }

  /** The `error` text a 500 reply carries for a thrown value. */
  function CaughtMessage(thrown: Thrown): string {
    match thrown
    case ErrorObject(message) => message
    case NonErrorValue => GenericFailureMessage
  }

  /** Maps a generator outcome to the reply: 200 with the URL, or 500 with the error. */
  function Reply(outcome: Result<Presigned, Thrown>, key: string): Response {
    match outcome
    case Success(presigned) => Response(200, PresignedUrlResponse(presigned.url, key, presigned.expires))
    case Failure(thrown) => Response(500, ErrorResponse(CaughtMessage(thrown)))
  }

  /** `POST /media/upload/presigned` once the body has been validated. */
  function UploadPresigned(request: UploadRequest, userId: Option<string>, env: Env,
                           keyClockMs: nat, signClockMs: nat, signer: Signer): (resp: Response)
    ensures !Truthy(userId) ==> resp == Unauthorized
    ensures resp.status == 200 || resp.status == 401 || resp.status == 500
    ensures resp.status == 200 <==> resp.body.PresignedUrlResponse?
    ensures resp.status == 401 ==> !Truthy(userId)
    ensures resp.status == 200 ==>
      && Truthy(userId) && CredentialsConfigured(env)
      && resp.body.key == UploadKey(userId.value, keyClockMs, request.filename)
      && signer(CreateR2Client(env).value, PutObject(env.r2BucketName, resp.body.key, request.contentType), DefaultExpiresIn)
         == Success(resp.body.url)
      && resp.body.expires == ExpiresAt(signClockMs, DefaultExpiresIn)
    ensures resp.status == 500 ==>
      && Truthy(userId)
      && if !CredentialsConfigured(env) then resp.body == ErrorResponse(CredentialsNotConfigured)
         else
           var key := UploadKey(userId.value, keyClockMs, request.filename);
           var signed := signer(CreateR2Client(env).value, PutObject(env.r2BucketName, key, request.contentType), DefaultExpiresIn);
           signed.Failure? && resp.body == ErrorResponse(CaughtMessage(signed.error))
  {
    if !Truthy(userId) then Unauthorized
    else
      var key := UploadKey(userId.value, keyClockMs, request.filename);
      Reply(GeneratePresignedUploadUrl(env, key, Some(request.contentType), None, signClockMs, signer), key)
  }

  /** `GET /media/download/presigned?key=...` once the query has been validated. */
  function DownloadPresigned(query: DownloadQuery, userId: Option<string>, env: Env,
                             signClockMs: nat, signer: Signer): (resp: Response)
    ensures !OwnsKey(userId, query.key) <==> resp == Unauthorized
    ensures resp.status == 401 ==> !OwnsKey(userId, query.key)
    ensures resp.status == 200 || resp.status == 401 || resp.status == 500
    ensures resp.status == 200 <==> resp.body.PresignedUrlResponse?
    ensures resp.status == 200 ==>
      && CredentialsConfigured(env)
      && resp.body.key == query.key
      && signer(CreateR2Client(env).value, GetObject(env.r2BucketName, query.key), DefaultExpiresIn) == Success(resp.body.url)
      && resp.body.expires == ExpiresAt(signClockMs, DefaultExpiresIn)
    ensures resp.status == 500 ==>
      && OwnsKey(userId, query.key)
      && if !CredentialsConfigured(env) then resp.body == ErrorResponse(CredentialsNotConfigured)
         else
           var signed := signer(CreateR2Client(env).value, GetObject(env.r2BucketName, query.key), DefaultExpiresIn);
           signed.Failure? && resp.body == ErrorResponse(CaughtMessage(signed.error))
  {
    var key := query.key;
    if !OwnsKey(userId, key) then Unauthorized
    else Reply(GeneratePresignedDownloadUrl(env, key, None, signClockMs, signer), key)
  }

  /** The upload route: schema validation (400) in front of the handler. */
  function UploadRoute(request: UploadRequest, userId: Option<string>, env: Env,
                       keyClockMs: nat, signClockMs: nat, signer: Signer): (r: RouteResult)
    ensures r.BadRequest? <==> !ValidUpload(request)
    ensures r.BadRequest? ==> r.issues != [] && r.issues == UploadIssues(request)
    ensures r.Handled? ==>
      && |request.filename| >= 1
      && IsAllowedMediaType(request.contentType)
      && request.contentType != DefaultContentType
      && r.response == UploadPresigned(request, userId, env, keyClockMs, signClockMs, signer)
  {
    var issues := UploadIssues(request);
    if issues != [] then BadRequest(issues)
    else
      AllowListIsMedia(request.contentType);
      Handled(UploadPresigned(request, userId, env, keyClockMs, signClockMs, signer))
  }

  /** The download route: schema validation (400) in front of the handler. */
  function DownloadRoute(query: DownloadQuery, userId: Option<string>, env: Env,
                         signClockMs: nat, signer: Signer): (r: RouteResult)
    ensures r.BadRequest? <==> query.key == ""
    ensures r.BadRequest? ==> r.issues == [KeyRequired]
    ensures r.Handled? ==> r.response == DownloadPresigned(query, userId, env, signClockMs, signer)
  {
    var issues := DownloadIssues(query);
    if issues != [] then BadRequest(issues)
    else Handled(DownloadPresigned(query, userId, env, signClockMs, signer))
  }

  /**
   * An unauthenticated upload is refused before a key is derived or the
   * signer is consulted: the reply depends on neither clock nor signer.
   */
  lemma UnauthenticatedUploadIgnoresClockAndSigner(request: UploadRequest, userId: Option<string>, env: Env,
                                                   k1: nat, s1: nat, signer1: Signer,
                                                   k2: nat, s2: nat, signer2: Signer)
    requires !Truthy(userId)
    ensures UploadPresigned(request, userId, env, k1, s1, signer1)
         == UploadPresigned(request, userId, env, k2, s2, signer2)
  {
  }

  /** A key outside the caller's namespace is refused whatever the signer would do. */
  lemma ForeignDownloadIgnoresSigner(query: DownloadQuery, userId: Option<string>, env: Env,
                                     s1: nat, signer1: Signer, s2: nat, signer2: Signer)
    requires !OwnsKey(userId, query.key)
    ensures DownloadPresigned(query, userId, env, s1, signer1)
         == DownloadPresigned(query, userId, env, s2, signer2)
  {
  }

  /** Missing credentials surface as a 500 whose text is the credentials message. */
  lemma MissingCredentialsEchoed(request: UploadRequest, query: DownloadQuery, userId: Option<string>, env: Env,
                                 keyClockMs: nat, signClockMs: nat, signer: Signer)
    requires Truthy(userId) && !CredentialsConfigured(env)
    ensures UploadPresigned(request, userId, env, keyClockMs, signClockMs, signer)
         == Response(500, ErrorResponse(CredentialsNotConfigured))
    ensures OwnsKey(userId, query.key) ==>
      DownloadPresigned(query, userId, env, signClockMs, signer)
      == Response(500, ErrorResponse(CredentialsNotConfigured))
  {
  }

  /**
   * When the key is derived before the generator reads the clock, the URL
   * outlives the key's timestamp by at least the default lifetime.
   */
  lemma UploadExpiryCoversKeyTime(request: UploadRequest, userId: Option<string>, env: Env,
                                  keyClockMs: nat, signClockMs: nat, signer: Signer)
    requires keyClockMs <= signClockMs
    ensures var resp := UploadPresigned(request, userId, env, keyClockMs, signClockMs, signer);
            resp.status == 200 ==> resp.body.expires >= keyClockMs / 1000 + DefaultExpiresIn
  {
  }

  /**
   * The round trip: a user who uploads may download the key they were given,
   * and any other '/'-free user is refused it.
   */
  lemma UploadThenDownload(owner: string, other: string, filename: string, contentType: string, env: Env,
                           keyClockMs: nat, signClockMs: nat, laterMs: nat, signer: Signer)
    requires owner != "" && '/' !in owner && '/' !in other && other != owner
    requires UploadPresigned(UploadRequest(filename, contentType), Some(owner), env, keyClockMs, signClockMs, signer).status == 200
    ensures var key := UploadPresigned(UploadRequest(filename, contentType), Some(owner), env, keyClockMs, signClockMs, signer).body.key;
            && DownloadPresigned(DownloadQuery(key), Some(owner), env, laterMs, signer).status != 401
            && DownloadPresigned(DownloadQuery(key), Some(other), env, laterMs, signer) == Unauthorized
  {
    NamespaceIsolation(owner, other, keyClockMs, filename);
    NamespaceIsolation(owner, owner, keyClockMs, filename);
  }
}
