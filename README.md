# Media presign flow — a Dafny model

This project models the decision logic of a small authenticated HTTP API that
hands out time-limited presigned URLs for uploading media to, and downloading
it from, a Cloudflare R2 bucket (an S3-compatible object store). Three source
files make up that logic, and each becomes one Dafny module of pure
functions and lemmas:

- `media.dfy` (module `Media`, from `src/routes/media.ts`): the upload and
  download handlers. The upload handler refuses a caller without a user id
  (401), derives the key `userId/<ms>-filename` and asks the R2 service for a
  signed PUT. The download handler lets a key through only when it starts
  with `userId/` and asks for a signed GET. Each maps the outcome to 200
  `{url, key, expires}` or 500 `{error}`. The module also puts the schema
  validation (400) in front of each handler (`UploadRoute`, `DownloadRoute`).
- `r2.dfy` (module `R2`, from `src/services/r2.ts`): the credential check and
  client configuration (`createR2Client`, with the `R2_ACCOUNT_ID ||
  CLOUDFLARE_ACCOUNT_ID` fallback and the endpoint URL), `getBucketName`, and
  the two generators with their defaults and the expiry arithmetic
  `floor(nowMs / 1000) + expiresIn`.
- `media_schemas.dfy` (module `MediaSchemas`, from
  `src/routes/media.schemas.ts`): the fifteen-entry MIME allow-list, the
  upload-body and download-query schemas as the lists of issues they report,
  and the two JSON response shapes.
- `strings.dfy` (module `Strings`) holds the JavaScript string behaviour these
  rely on: truthiness of a possibly undefined string, `startsWith`, printing
  a whole number in decimal and `Array.prototype.join`. It also holds two
  definitions used only to state properties, which the source never calls:
  `EndsWith`, the suffix test in `UploadKey`'s contract and in
  `AccountOfEndpoint`; and `SlashIndex`, the position of the first `/`,
  the reference definition of a key's leading path segment against which
  the download gate is checked.
  `wrappers.dfy` holds `Option` and `Result`.

Inputs the source reads from its surroundings are parameters:

- the user id stored by the authentication middleware is an `Option<string>`;
- the deployment bindings are an `Env` record whose variables may be absent;
- `Date.now()` is read twice in a successful upload. It is read once for the
  upload key (`keyClockMs`) and once inside the generator after signing
  (`signClockMs`). Both are `nat` parameters. A successful download reads
  the clock only once, inside the generator;
- the AWS SDK's `getSignedUrl` is a `Signer` parameter. It is an arbitrary
  function from (client configuration, command, lifetime in seconds) to a URL
  or a thrown value. Every property is proved for every such function. The
  SDK also reads the clock for the signing date; that reading is folded into
  the signer.

The headline property is per-user namespace isolation (`NamespaceIsolation`,
`UploadThenDownload`). If user ids contain no `/`, a key derived for one user
passes the download gate for that user and for no other.
`SlashInUserIdBreaksIsolation` shows that the assumption is needed.

Three behaviours of the code are worth stating plainly:

- The credential-missing message reaches the caller verbatim in the 500
  body, because the handler echoes the message of every thrown `Error`
  (src/routes/media.ts:52; `MissingCredentialsEchoed`).
- Upload keys have no random component (src/routes/media.ts:34). The same
  user, file name and millisecond give the same key (`UploadKeyInjective`).
- Content types are checked against a fixed allow-list of fifteen MIME types
  (src/routes/media.schemas.ts:32).

## Model

| member | source | states |
|---|---|---|
| `Strings.Decimal` | src/routes/media.ts:34 | the timestamp printed into the key is a non-empty string of digits with no leading zero (except for 0) |
| `Strings.DecimalRoundTrip` | src/routes/media.ts:34 | reading the printed timestamp back gives the timestamp |
| `Strings.DecimalInjective` | src/routes/media.ts:34 | two timestamps print alike exactly when they are equal |
| `Strings.Join` | src/routes/media.schemas.ts:33 | definition, no contract of its own: `Array.prototype.join` on strings; used by `MediaSchemas.ContentTypeMessageNamesAll` and `Strings.JoinMentions` |
| `Strings.JoinMentions` | src/routes/media.schemas.ts:33 | every element of a joined list occurs in the joined text, at a returned offset |
| `MediaSchemas.ValidUpload` | src/routes/media.schemas.ts:30-35 | definition, no contract of its own: a non-empty filename and an allowed content type; used by `MediaSchemas.UploadIssues` and `Media.UploadRoute` |
| `MediaSchemas.ValidDownload` | src/routes/media.schemas.ts:40-42 | definition, no contract of its own: a non-empty key; used by `MediaSchemas.DownloadIssues` |
| `MediaSchemas.UploadIssues` | src/routes/media.schemas.ts:30-35 | the upload body is accepted exactly when there are no issues; "filename is required" is reported exactly when the filename is empty; the content-type message is reported exactly when the type is off the allow-list; no other message appears, and there are at most two |
| `MediaSchemas.UploadIssuesInSchemaOrder` | src/routes/media.schemas.ts:30-35 | issues follow the schema's field order: a missing filename is reported first, and with both fields failing the list is the filename message then the content-type message |
| `MediaSchemas.DownloadIssues` | src/routes/media.schemas.ts:40-42 | the download query is accepted exactly when the key is non-empty; otherwise the single issue is "key query parameter is required" |
| `MediaSchemas.AllowListDistinct` | src/routes/media.schemas.ts:6-25 | the allow-list has 15 pairwise distinct entries |
| `MediaSchemas.AllowListIsMedia` | src/routes/media.schemas.ts:6-25 | every allowed type starts with `image/`, `video/` or `audio/`, and none is `application/octet-stream` |
| `MediaSchemas.ContentTypeMessageNamesAll` | src/routes/media.schemas.ts:32-34 | the content-type rejection message names every allowed type |
| `R2.ResolveAccountId` | src/services/r2.ts:10 | the account id is `R2_ACCOUNT_ID` when it is non-empty, otherwise `CLOUDFLARE_ACCOUNT_ID`; it is non-empty exactly when one of the two is |
| `R2.Endpoint` | src/services/r2.ts:20 | the endpoint is `https://` + account id + `.r2.cloudflarestorage.com`, and the account id can be read back from it |
| `R2.EndpointInjective` | src/services/r2.ts:20 | distinct accounts get distinct endpoints |
| `R2.CreateR2Client` | src/services/r2.ts:7-26 | the client is built exactly when access key, secret key and resolved account id are all present and non-empty; otherwise the credentials `Error` is thrown; the region is `auto`, the endpoint names the resolved account, the credentials are the configured pair |
| `R2.ExpiresAt` | src/services/r2.ts:65 | the expiry in seconds is within one second of the clock plus the lifetime (`floor` of the millisecond clock) |
| `R2.ExpiresNotBeforeNow` | src/services/r2.ts:63-66 | the expiry is not before the current whole second exactly when the lifetime is not negative; with the default it is exactly 3600 above it |
| `R2.ExpiresMonotonic` | src/services/r2.ts:97-100 | a later clock reading never gives an earlier expiry |
| `R2.GeneratePresignedDownloadUrl` | src/services/r2.ts:46-67 | missing credentials give the credentials error and no URL; otherwise the signer gets a GET for the bucket and the key verbatim with the lifetime (default 3600), its URL or error is passed on, and the expiry is computed from the clock |
| `R2.GeneratePresignedUploadUrl` | src/services/r2.ts:78-101 | as for downloads, with a PUT that also binds the content type (default `application/octet-stream`) |
| `R2.Sign` | src/services/r2.ts:51-66 | definition, no contract of its own: the shared generator body (client, then signer, then expiry); its behaviour is stated by `R2.GeneratePresignedDownloadUrl` and `R2.GeneratePresignedUploadUrl` |
| `R2.MissingCredentialsNeverSign` | src/services/r2.ts:8-16 | a missing access key, secret key or account id makes both generators fail, whatever the signer |
| `Media.UploadKey` | src/routes/media.ts:34 | the key starts with `userId/`, ends with `-filename`, and between them holds exactly the decimal timestamp |
| `Media.UploadKeyInjective` | src/routes/media.ts:34 | for a fixed user and file name, keys are equal exactly when the timestamps are |
| `Media.OwnsKey` | src/routes/media.ts:69 | definition, no contract of its own: the download gate, a truthy user id whose value followed by `/` begins the key; used by `Media.DownloadPresigned`, `Media.GateIsNamespaceCheck` and `Media.NamespaceIsolation` |
| `Media.GateIsNamespaceCheck` | src/routes/media.ts:69 | for a user id without `/`, the prefix gate passes exactly when the id is non-empty and is the key's leading path segment |
| `Media.UploadKeyNamespace` | src/routes/media.ts:34 | a key derived for a `/`-free user has that user as its leading path segment |
| `Media.NamespaceIsolation` | src/routes/media.ts:69 | with `/`-free ids, a key derived for one user passes the download gate for a caller exactly when the caller is that user |
| `Media.SlashInUserIdBreaksIsolation` | src/routes/media.ts:69 | user `a` passes the gate for keys derived for user `a/b` |
| `Media.DotDotKeyPassesGate` | src/routes/media.ts:69-75 | the gate is a textual prefix test: `alice/../bob/photo.png` passes for `alice` |
| `Media.CaughtMessage` | src/routes/media.ts:49-56 | definition, no contract of its own: an `Error`'s message, or the fixed text for any other thrown value; used by `Media.UploadPresigned` and `Media.DownloadPresigned` |
| `Media.Reply` | src/routes/media.ts:44-56 | definition, no contract of its own: a generator success becomes 200 `{url, key, expires}`, a failure 500 `{error}`; its behaviour is stated by `Media.UploadPresigned` and `Media.DownloadPresigned` |
| `Media.UploadPresigned` | src/routes/media.ts:23-57 | no user id gives 401; the status is 200, 401 or 500; a 200 carries the derived key, the signer's URL for a PUT of that key with the request's content type and a 3600-second lifetime, and the expiry from the clock; a 500 carries the credentials message or the thrown `Error`'s message, or the fixed text for a non-`Error` throw |
| `Media.DownloadPresigned` | src/routes/media.ts:63-90 | the reply is 401 exactly when the caller fails the gate; a 200 echoes the query key verbatim with the signer's URL for a GET of that key; a 500 carries the message as for uploads |
| `Media.UploadRoute` | src/routes/media.schemas.ts:30-35 | an invalid body is rejected with its issues and never reaches the handler; a handled request has a non-empty filename and an allowed content type, so a validated body never falls back to the signer's default content type (the unvalidated path is under "## Left out") |
| `Media.DownloadRoute` | src/routes/media.schemas.ts:40-42 | an empty key is rejected with the key-required issue; any other query reaches the handler |
| `Media.UnauthenticatedUploadIgnoresClockAndSigner` | src/routes/media.ts:28-31 | without a user id the upload reply depends neither on the clock nor on the signer |
| `Media.ForeignDownloadIgnoresSigner` | src/routes/media.ts:68-71 | a download refused by the gate does not depend on the clock or the signer |
| `Media.MissingCredentialsEchoed` | src/routes/media.ts:49-56 | for an authenticated caller, missing credentials give 500 with the credentials message, for uploads and for gated downloads |
| `Media.UploadExpiryCoversKeyTime` | src/routes/media.ts:34-42 | when the key's clock reading precedes the generator's, a 200 upload expires at least 3600 seconds after the key's whole second |
| `Media.UploadThenDownload` | src/routes/media.ts:34-71 | after a successful upload by a `/`-free user, that user's download of the returned key is not refused, and another `/`-free user's is |

## Left out

- The AWS SDK (`S3Client`, `GetObjectCommand`, `PutObjectCommand`, `getSignedUrl`) is a foreign library. The signature is not modelled: the signer is an arbitrary, possibly failing function parameter. `getSignedUrl` also reads the clock for the signing date, so one (client, command, lifetime) can give different URLs on different calls. That clock reading is folded into the signer parameter: each request is modelled with its own signer. No proved property relates the URLs of two calls.
- `Date.now()` is not modelled as a clock. Its two readings are parameters, and nothing relates them unless a lemma says so.
- The authentication middleware that stores `userId` and the Clerk identity provider are not part of this model. The user id is a parameter.
- The body of the framework's 400 reply is not part of this model. `UploadRoute` and `DownloadRoute` return the validation issues instead.
- Media.UploadRoute: assumes the upload body is always validated before the handler runs. The route declares the JSON body without marking it required (src/routes/media.routes.ts:18-26). For such a body the framework validates only requests whose Content-Type is JSON. Any other request reaches the handler with `filename` and `contentType` undefined. Its key then ends in `-undefined`, and the signer's default `application/octet-stream` is used. The model does not capture that path. Namespace isolation is unaffected, because the key still starts with `userId/`.
- Missing or non-string fields in a JSON body are not modelled. The model's request fields are always strings.
- Media.DownloadRoute: a query without exactly one string `key` is not modelled. That covers a missing `key` and a repeated `?key=a&key=b`, which the query validator passes on as an array. Such a query fails zod's string type check (src/routes/media.schemas.ts:41) and is rejected with a type issue, not with "key query parameter is required". `DownloadQuery.key` is always a single string, so the model cannot express these requests. The row's "any other query reaches the handler" speaks only of queries with one string `key`.
- Strings are sequences of Unicode scalar values, whereas JavaScript strings are sequences of UTF-16 code units. Non-emptiness (`min(1)`) and `startsWith` agree on well-formed text. They can differ only on strings holding lone surrogates, which the model cannot represent.
- `Strings.Decimal` prints every number in plain decimal. JavaScript prints numbers of 10^21 and above in exponent form. A millisecond clock never reaches that.
- `R2.ExpiresAt` takes the lifetime as an integer. A fractional `expiresIn` is not modelled; every caller passes the integer default.
- `R2.GetBucketName` has no contract of its own. It returns `R2_BUCKET_NAME` unchanged, and the generators' contracts state that the signed command names that bucket.
- Asynchrony (`async`/`await`) and the Hono context are not modelled. Each request is a single function application.
- `src/index.ts`, `src/db/schema.ts`, `drizzle.config.ts`, `src/routes/media.routes.ts` and `src/config/openapi.ts` hold persistence and routing wiring and are not part of this model.
