/**
 * Request validation and response shapes of the media endpoints: the
 * content-type allow-list, the upload-body and download-query schemas, and the
 * two JSON bodies the handlers reply with.
 */
module MediaSchemas {
  import opened Strings

  /** The MIME types an upload may declare, in their declared order. */
  const AllowedMediaTypes: seq<string> := [
    "image/jpeg",
    "image/jpg",
    "image/png",
    "image/gif",
    "image/webp",
    "image/svg+xml",
    "video/mp4",
    "video/webm",
    "video/quicktime",
    "video/x-msvideo",
    "audio/mpeg",
    "audio/mp3",
    "audio/wav",
    "audio/webm",
    "audio/ogg"
  ]

  predicate IsAllowedMediaType(contentType: string) {
    contentType in AllowedMediaTypes
  }

  /** The JSON body of an upload request. */
  datatype UploadRequest = UploadRequest(filename: string, contentType: string)

  /** The query of a download request. */
  datatype DownloadQuery = DownloadQuery(key: string)

  /** The two JSON shapes a handler replies with. */
  datatype ResponseBody =
    | PresignedUrlResponse(url: string, key: string, expires: int)
    | ErrorResponse(error: string)

  const FilenameRequired := "filename is required"
  const KeyRequired := "key query parameter is required"
  const ContentTypeNotAllowed := "contentType must be one of: " + Join(AllowedMediaTypes, ", ")

  predicate ValidUpload(request: UploadRequest) {
    |request.filename| >= 1 && IsAllowedMediaType(request.contentType)
  }

  predicate ValidDownload(query: DownloadQuery) {
    |query.key| >= 1
  }

  /** The two upload messages differ (already in their first letter). */
  lemma MessagesDiffer()
    ensures FilenameRequired != ContentTypeNotAllowed
  {
    assert FilenameRequired[0] != ContentTypeNotAllowed[0];
  }

  /**
   * The issues the upload-body schema reports, field by field in schema order;
   * every failing field contributes its message.
   */
  function UploadIssues(request: UploadRequest): (issues: seq<string>)
    ensures issues == [] <==> ValidUpload(request)
    ensures FilenameRequired in issues <==> request.filename == ""
    ensures ContentTypeNotAllowed in issues <==> !IsAllowedMediaType(request.contentType)
    ensures |issues| <= 2
    ensures forall m :: m in issues ==> m == FilenameRequired || m == ContentTypeNotAllowed
  {
    MessagesDiffer();
    var filenameOk := |request.filename| >= 1;
    var contentTypeOk := IsAllowedMediaType(request.contentType);
    var issues :=
      if filenameOk && contentTypeOk then []
      else if contentTypeOk then [FilenameRequired]
      else if filenameOk then [ContentTypeNotAllowed]
      else [FilenameRequired, ContentTypeNotAllowed];
    OnlyListedMembers(FilenameRequired, ContentTypeNotAllowed, issues);
    issues
  }

  /** Issues come in schema order: a missing filename is reported first. */
  lemma UploadIssuesInSchemaOrder(request: UploadRequest)
    ensures request.filename == "" ==> UploadIssues(request)[0] == FilenameRequired
    ensures |UploadIssues(request)| == 2 ==> UploadIssues(request) == [FilenameRequired, ContentTypeNotAllowed]
  {
  }

  /** The issues the download-query schema reports. */
  function DownloadIssues(query: DownloadQuery): (issues: seq<string>)
    ensures issues == [] <==> ValidDownload(query)
    ensures issues != [] ==> issues == [KeyRequired] && query.key == ""
  {
    if |query.key| >= 1 then [] else [KeyRequired]
  }

  /** The allow-list has fifteen entries, no two alike. */
  lemma AllowListDistinct()
    ensures |AllowedMediaTypes| == 15
    ensures forall i, j :: 0 <= i < j < |AllowedMediaTypes| ==> AllowedMediaTypes[i] != AllowedMediaTypes[j]
  {
  }

  /**
   * Every allowed type is an image, video or audio type, so the signer's
   * default `application/octet-stream` is never one of them.
   */
  lemma AllowListIsMedia(contentType: string)
    requires IsAllowedMediaType(contentType)
    ensures StartsWith(contentType, "image/") || StartsWith(contentType, "video/") || StartsWith(contentType, "audio/")
    ensures contentType != "application/octet-stream"
  {
  }

  /** The rejection message for a content type names every allowed type. */
  lemma ContentTypeMessageNamesAll(i: nat) returns (k: nat)
    requires i < |AllowedMediaTypes|
    ensures OccursAt(ContentTypeNotAllowed, AllowedMediaTypes[i], k)
  {
    var offset := JoinMentions(AllowedMediaTypes, ", ", i);
    OccursAfterPrefix("contentType must be one of: ", Join(AllowedMediaTypes, ", "), AllowedMediaTypes[i], offset);
    k := |"contentType must be one of: "| + offset;
  }
}
