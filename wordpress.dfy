/**
 * The content-backend side of the relay: the mime type and file extension
 * chosen for an upload, the decision whether an upload produced an asset
 * id, the `source_url` lookup of an uploaded asset, the JSON payload of an
 * article, and the reading of the article-creation response.
 *
 * The HTTP exchanges themselves are not modelled: their outcomes (status
 * codes, the id and link fields of the response bodies, the media-info
 * records) are parameters.
 */
module WordPress {
  import opened Wrappers
  import Text

  /** The two kinds of Telegram media the relay forwards. */
  datatype MediaKind = Photo | Video

  /** One media item of a post: its kind and the file path Telegram resolved for it. */
  datatype MediaItem = MediaItem(kind: MediaKind, url: string)

  const ImageMime: string := "image/jpeg"
  const VideoMime: string := "video/mp4"

  /** Mime type sent with an upload: photos are JPEG, everything else MP4. */
  function MimeType(kind: MediaKind): (mime: string)
    ensures mime == ImageMime <==> kind == Photo
    ensures mime == ImageMime || mime == VideoMime
    ensures Extension(mime) == (if kind == Photo then ".jpg" else ".mp4")
  {
    if kind == Photo then ImageMime else VideoMime
  }

  /** Extension of the uploaded file name, chosen from the mime type. */
  function Extension(mime: string): (ext: string)
    ensures |ext| == 4
    ensures ext == ".jpg" <==> mime == ImageMime
    ensures ext == ".jpg" || ext == ".mp4"
  {
    if mime == ImageMime then ".jpg" else ".mp4"
  }

  const FileNamePrefix: string := "telegram_media_"

  /** `telegram_media_<stamp><ext>`; the timestamp is a parameter. */
  function FileName(stamp: string, mime: string): (name: string)
    ensures FileNamePrefix <= name
    ensures |name| == |FileNamePrefix| + |stamp| + 4
    ensures name[|FileNamePrefix|..|FileNamePrefix| + |stamp|] == stamp
    ensures name[|name| - 4..] == Extension(mime)
  {
    FileNamePrefix + stamp + Extension(mime)
  }

  /** The two headers of an upload request. */
  datatype UploadHeaders = UploadHeaders(contentDisposition: string, contentType: string)

  function MakeUploadHeaders(stamp: string, mime: string): (h: UploadHeaders)
    ensures h.contentType == mime
    ensures Text.Contains(h.contentDisposition, FileName(stamp, mime))
  {
    var name := FileName(stamp, mime);
    Text.ContainsSelf(name);
    Text.ContainsInside("attachment; filename=\"", name, "\"", name);
    UploadHeaders("attachment; filename=\"" + name + "\"", mime)
  }

  /** Python truthiness of an optional asset id: present and not zero. */
  predicate IsTruthyId(id: Option<int>) {
    id.Some? && id.value != 0
  }

  /**
   * Result of `upload_media_to_wordpress`: the id field of the backend's
   * answer when the download returned 200 and the upload 200 or 201,
   * otherwise nothing. A transport failure is a status other than these.
   */
  function UploadMedia(downloadStatus: int, uploadStatus: int, responseId: Option<int>): (id: Option<int>)
    ensures id.Some? ==> downloadStatus == 200 && (uploadStatus == 200 || uploadStatus == 201)
    ensures downloadStatus == 200 && (uploadStatus == 200 || uploadStatus == 201) ==> id == responseId
    ensures downloadStatus != 200 ==> id == None
  {
    if downloadStatus == 200 && (uploadStatus == 200 || uploadStatus == 201) then responseId else None
  }

  /**
   * The `source_url` of an asset as `get_media_info` reports it: `info`
   * maps an asset id to the field's value, or to `None` when the record
   * lacks it; an id missing from `info` is a failed lookup.
   */
  function SourceUrl(info: map<int, Option<string>>, id: int): (url: Option<string>)
    ensures url.Some? ==> id in info && info[id] == url
    ensures id in info ==> url == info[id]
  {
    if id in info then info[id] else None
  }

  // ---------------------------------------------------------------------
  // post_to_wordpress

  const PublishStatus: string := "publish"

  /** The JSON body of an article-creation request. */
  datatype PostData = PostData(title: string, content: string, status: string, featuredMedia: Option<int>)

  /** `post_data`, with `featured_media` only when the featured id is truthy. */
  function MakePostData(title: string, content: string, featured: Option<int>): (p: PostData)
    ensures p.title == title && p.content == content
    ensures p.status == PublishStatus
    ensures p.featuredMedia.Some? <==> IsTruthyId(featured)
    ensures p.featuredMedia.Some? ==> p.featuredMedia == featured
  {
    PostData(title, content, PublishStatus, if IsTruthyId(featured) then featured else None)
  }

  const Created: int := 201

  /**
   * The pair `post_to_wordpress` returns for a response with `status` and
   * the `link` field of its body: success with the link on 201, otherwise
   * `(False, None)`.
   */
  function PublishResult(status: int, link: Option<string>): (r: (bool, Option<string>))
    ensures r.0 <==> status == Created
    ensures r.0 ==> r.1 == link
    ensures !r.0 ==> r.1 == None
  {
    if status == Created then (true, link) else (false, None)
  }
}
