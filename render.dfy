/**
 * The HTML the relay publishes: the text block with the Telegram deep link,
 * the gallery of a media group, and the image or video block of a single
 * post. The literal fragments are the source's templates, whitespace
 * included.
 */
module Render {
  import opened Wrappers
  import opened Text
  import opened WordPress

  // ---------------------------------------------------------------------
  // Text block and deep link

  const PostOpen: string := "\n    <div class=\"telegram-post\">\n        "
  const LinkOpen: string := "\n        <br><br>\n        <a href=\""
  const LinkClose: string := "\" class=\"telegram-link\">Перейти в Telegram</a>\n    </div>\n    "
  const TelegramHost: string := "https://t.me/"

  /** `https://t.me/{user}/{id}`. */
  function TelegramLink(user: string, id: int): (link: string)
    ensures TelegramHost <= link
    ensures link[|TelegramHost|..] == user + "/" + IntToString(id)
  {
    TelegramHost + user + "/" + IntToString(id)
  }

  /** A link names one post: the handle and the message id can be read back from it. */
  lemma {:induction false} TelegramLinkInjective(u1: string, i1: int, u2: string, i2: int)
    requires TelegramLink(u1, i1) == TelegramLink(u2, i2)
    ensures u1 == u2 && i1 == i2
  {
    var d1, d2 := IntToString(i1), IntToString(i2);
    var t := u1 + "/" + d1;
    assert t == TelegramLink(u1, i1)[|TelegramHost|..];
    assert t == u2 + "/" + d2;
    AfterLastSlashOf(u1, d1);
    AfterLastSlashOf(u2, d2);
    assert u1 == t[..|t| - |d1| - 1] == u2;
    IntToStringRoundTrip(i1);
    IntToStringRoundTrip(i2);
  }

  /** The part of `s` after its last `/`, or all of `s` when it has none. */
  function AfterLastSlash(s: string): (d: string)
    ensures '/' !in d
  {
    if s == [] || s[|s| - 1] == '/' then []
    else AfterLastSlash(s[..|s| - 1]) + [s[|s| - 1]]
  }

  /** What follows the last `/` of `u + "/" + d` is `d`, when `d` has no `/`; `u` may contain any. */
  lemma {:induction false} AfterLastSlashOf(u: string, d: string)
    requires '/' !in d
    ensures AfterLastSlash(u + "/" + d) == d
  {
    var s := u + "/" + d;
    if d == [] {
      assert s[|s| - 1] == '/';
    } else {
      var n := |d| - 1;
      assert s[|s| - 1] == d[n];
      assert s[..|s| - 1] == u + "/" + d[..n];
      assert '/' !in d[..n] by {
        forall k | 0 <= k < n ensures d[..n][k] != '/' {
          assert d[..n][k] == d[k];
        }
      }
      AfterLastSlashOf(u, d[..n]);
      assert d[..n] + [d[n]] == d;
    }
  }

  /** The text part of every post: the text with `<br>` line breaks, then the deep link. */
  function TextBlock(text: string, user: string, id: int): (html: string)
    ensures Contains(html, BrText(text))
    ensures Contains(html, TelegramLink(user, id))
    ensures PostOpen <= html
  {
    var body := BrText(text);
    var link := TelegramLink(user, id);
    ContainsSelf(body);
    ContainsInside(PostOpen, body, LinkOpen + link + LinkClose, body);
    assert PostOpen + body + LinkOpen + link + LinkClose == PostOpen + body + (LinkOpen + link + LinkClose);
    ContainsSelf(link);
    ContainsInside(PostOpen + body + LinkOpen, link, LinkClose, link);
    PostOpen + body + LinkOpen + link + LinkClose
  }

  // ---------------------------------------------------------------------
  // Media-group gallery

  const GalleryOpen: string := "<div class=\"wp-block-gallery\"><ul class=\"blocks-gallery-grid\">"
  const GalleryClose: string := "</ul></div>"

  /** One `<li>` of the gallery. */
  function GalleryItem(url: string): (li: string)
    ensures Contains(li, url)
  {
    ContainsSelf(url);
    ContainsInside("<li class=\"blocks-gallery-item\"><figure><img src=\"", url, "\" alt=\"\"/></figure></li>", url);
    "<li class=\"blocks-gallery-item\"><figure><img src=\"" + url + "\" alt=\"\"/></figure></li>"
  }

  /** The `<li>` items of `urls`, in order. */
  function GalleryItems(urls: seq<string>): string {
    if urls == [] then "" else GalleryItems(urls[..|urls| - 1]) + GalleryItem(urls[|urls| - 1])
  }

  /** `[id]` when an upload produced a truthy id, `[]` otherwise. */
  function IdIfUploaded(upload: Option<int>): (ids: seq<int>)
    ensures |ids| <= 1
    ensures ids != [] <==> IsTruthyId(upload)
    ensures ids != [] ==> ids[0] == upload.value
  {
    if IsTruthyId(upload) then [upload.value] else []
  }

  /** `media_ids`: the truthy upload results in arrival order. */
  function UploadedIds(uploads: seq<Option<int>>): seq<int> {
    if uploads == [] then []
    else UploadedIds(uploads[..|uploads| - 1]) + IdIfUploaded(uploads[|uploads| - 1])
  }

  /** The source_url a gallery shows for one item, if any: photos only, after a truthy upload. */
  function RenderedUrl(item: MediaItem, upload: Option<int>, info: map<int, Option<string>>): (url: seq<string>)
    ensures |url| <= 1
    ensures url != [] <==> item.kind == Photo && IsTruthyId(upload) && SourceUrl(info, upload.value).Some?
    ensures url != [] ==> Some(url[0]) == info[upload.value]
  {
    if item.kind == Photo && IsTruthyId(upload) && SourceUrl(info, upload.value).Some?
    then [SourceUrl(info, upload.value).value] else []
  }

  /** The urls of the gallery's `<li>` items, in arrival order. */
  function GalleryUrls(media: seq<MediaItem>, uploads: seq<Option<int>>, info: map<int, Option<string>>): seq<string>
    requires |uploads| == |media|
  {
    if media == [] then []
    else GalleryUrls(media[..|media| - 1], uploads[..|media| - 1], info)
         + RenderedUrl(media[|media| - 1], uploads[|media| - 1], info)
  }

  /** Collecting ids over two runs of uploads is collecting over their concatenation. */
  lemma {:induction false} UploadedIdsConcat(a: seq<Option<int>>, b: seq<Option<int>>)
    ensures UploadedIds(a + b) == UploadedIds(a) + UploadedIds(b)
    decreases |b|
  {
    if b == [] {
      assert a + b == a;
    } else {
      var b' := b[..|b| - 1];
      assert (a + b)[..|a + b| - 1] == a + b';
      assert (a + b)[|a + b| - 1] == b[|b| - 1];
      UploadedIdsConcat(a, b');
    }
  }

  /** `media_ids` holds exactly the truthy upload results, and no zero. */
  lemma {:induction false} UploadedIdsMembers(uploads: seq<Option<int>>, x: int)
    ensures x in UploadedIds(uploads) <==> exists i :: 0 <= i < |uploads| && IsTruthyId(uploads[i]) && uploads[i].value == x
    ensures 0 !in UploadedIds(uploads)
  {
    if uploads != [] {
      var n := |uploads| - 1;
      var pre := uploads[..n];
      UploadedIdsMembers(pre, x);
      if x in UploadedIds(uploads) {
        if x in UploadedIds(pre) {
          var i :| 0 <= i < |pre| && IsTruthyId(pre[i]) && pre[i].value == x;
          assert uploads[i] == pre[i];
        } else {
          assert IsTruthyId(uploads[n]) && uploads[n].value == x;
        }
      }
      if exists i :: 0 <= i < |uploads| && IsTruthyId(uploads[i]) && uploads[i].value == x {
        var i :| 0 <= i < |uploads| && IsTruthyId(uploads[i]) && uploads[i].value == x;
        if i < n {
          assert pre[i] == uploads[i];
        }
      }
    }
  }

  /** The number of ids is the number of truthy uploads; none when every upload failed. */
  lemma {:induction false} UploadedIdsEmpty(uploads: seq<Option<int>>)
    ensures UploadedIds(uploads) == [] <==> forall i :: 0 <= i < |uploads| ==> !IsTruthyId(uploads[i])
  {
    if uploads != [] {
      var n := |uploads| - 1;
      var pre := uploads[..n];
      UploadedIdsEmpty(pre);
      var ids, last := UploadedIds(pre), IdIfUploaded(uploads[n]);
      assert UploadedIds(uploads) == ids + last;
      assert UploadedIds(uploads) == [] <==> ids == [] && last == [];
      forall i | 0 <= i < n ensures pre[i] == uploads[i] { }
    }
  }

  /** `media_ids[0] if media_ids else None`. */
  function FeaturedId(ids: seq<int>): (featured: Option<int>)
    ensures featured.Some? <==> ids != []
    ensures featured.Some? ==> featured.value == ids[0]
  {
    if ids == [] then None else Some(ids[0])
  }

  /**
   * The featured asset of a group is the FIRST truthy upload, of whatever
   * kind of item: it is absent exactly when every upload failed.
   */
  lemma {:induction false} FeaturedIsFirstUpload(uploads: seq<Option<int>>, k: nat)
    requires k < |uploads| && IsTruthyId(uploads[k])
    requires forall j :: 0 <= j < k ==> !IsTruthyId(uploads[j])
    ensures FeaturedId(UploadedIds(uploads)) == uploads[k]
  {
    var pre, rest := uploads[..k], uploads[k + 1..];
    assert uploads == pre + ([uploads[k]] + rest);
    forall i | 0 <= i < |pre| ensures !IsTruthyId(pre[i]) {
      assert pre[i] == uploads[i];
    }
    UploadedIdsEmpty(pre);
    UploadedIdsConcat(pre, [uploads[k]] + rest);
    UploadedIdsConcat([uploads[k]], rest);
    UploadedIdsOne(uploads[k]);
    assert UploadedIds(uploads) == [uploads[k].value] + UploadedIds(rest);
  }

  lemma UploadedIdsOne(upload: Option<int>)
    ensures UploadedIds([upload]) == IdIfUploaded(upload)
  {
    assert [upload][..0] == [];
  }

  /** A gallery url shows a photo whose upload succeeded and whose record has that source_url. */
  lemma {:induction false} GalleryUrlsMembers(media: seq<MediaItem>, uploads: seq<Option<int>>, info: map<int, Option<string>>, url: string)
    requires |uploads| == |media|
    ensures url in GalleryUrls(media, uploads, info) <==>
      exists i :: 0 <= i < |media| && media[i].kind == Photo && IsTruthyId(uploads[i])
                  && SourceUrl(info, uploads[i].value) == Some(url)
  {
    if media != [] {
      var n := |media| - 1;
      GalleryUrlsMembers(media[..n], uploads[..n], info, url);
      if url in GalleryUrls(media, uploads, info) {
        if url in GalleryUrls(media[..n], uploads[..n], info) {
          var i :| 0 <= i < n && media[..n][i].kind == Photo && IsTruthyId(uploads[..n][i])
                   && SourceUrl(info, uploads[..n][i].value) == Some(url);
          assert media[i] == media[..n][i] && uploads[i] == uploads[..n][i];
        } else {
          assert RenderedUrl(media[n], uploads[n], info) == [url];
        }
      }
      if exists i :: 0 <= i < |media| && media[i].kind == Photo && IsTruthyId(uploads[i])
                     && SourceUrl(info, uploads[i].value) == Some(url) {
        var i :| 0 <= i < |media| && media[i].kind == Photo && IsTruthyId(uploads[i])
                 && SourceUrl(info, uploads[i].value) == Some(url);
        if i < n {
          assert media[..n][i] == media[i] && uploads[..n][i] == uploads[i];
        }
      }
    }
  }

  /** Every `<li>` stands for an uploaded item, so there are never more items than `media_ids`. */
  lemma {:induction false} GalleryNoLargerThanIds(media: seq<MediaItem>, uploads: seq<Option<int>>, info: map<int, Option<string>>)
    requires |uploads| == |media|
    ensures |GalleryUrls(media, uploads, info)| <= |UploadedIds(uploads)|
  {
    if media != [] {
      var n := |media| - 1;
      GalleryNoLargerThanIds(media[..n], uploads[..n], info);
    }
  }

  /** When every uploaded item is a photo with a source_url, the gallery shows one `<li>` per id. */
  lemma {:induction false} GalleryMatchesIds(media: seq<MediaItem>, uploads: seq<Option<int>>, info: map<int, Option<string>>)
    requires |uploads| == |media|
    requires forall i :: 0 <= i < |media| && IsTruthyId(uploads[i]) ==>
               media[i].kind == Photo && SourceUrl(info, uploads[i].value).Some?
    ensures |GalleryUrls(media, uploads, info)| == |UploadedIds(uploads)|
  {
    if media != [] {
      var n := |media| - 1;
      forall i | 0 <= i < n && IsTruthyId(uploads[..n][i])
        ensures media[..n][i].kind == Photo && SourceUrl(info, uploads[..n][i].value).Some?
      {
        assert media[..n][i] == media[i] && uploads[..n][i] == uploads[i];
      }
      GalleryMatchesIds(media[..n], uploads[..n], info);
    }
  }

  /** Videos are uploaded but never shown in the gallery. */
  lemma {:induction false} VideosNotInGallery(media: seq<MediaItem>, uploads: seq<Option<int>>, info: map<int, Option<string>>)
    requires |uploads| == |media|
    requires forall i :: 0 <= i < |media| ==> media[i].kind == Video
    ensures GalleryUrls(media, uploads, info) == []
  {
    if media != [] {
      var n := |media| - 1;
      forall i | 0 <= i < n ensures media[..n][i].kind == Video {
        assert media[..n][i] == media[i];
      }
      VideosNotInGallery(media[..n], uploads[..n], info);
    }
  }

  /** The positions of the items the gallery shows: photos with a truthy upload whose record has a source_url. */
  ghost function ShownItems(media: seq<MediaItem>, uploads: seq<Option<int>>, info: map<int, Option<string>>): set<int>
    requires |uploads| == |media|
  {
    set i | 0 <= i < |media| && media[i].kind == Photo && IsTruthyId(uploads[i]) && SourceUrl(info, uploads[i].value).Some?
  }

  /** The gallery has exactly one `<li>` per shown item. */
  lemma {:induction false} GalleryCountsShownItems(media: seq<MediaItem>, uploads: seq<Option<int>>, info: map<int, Option<string>>)
    requires |uploads| == |media|
    ensures |GalleryUrls(media, uploads, info)| == |ShownItems(media, uploads, info)|
  {
    if media != [] {
      var n := |media| - 1;
      GalleryCountsShownItems(media[..n], uploads[..n], info);
      var before := ShownItems(media[..n], uploads[..n], info);
      var last: set<int> := if RenderedUrl(media[n], uploads[n], info) != [] then {n} else {};
      forall i | 0 <= i < n ensures media[..n][i] == media[i] && uploads[..n][i] == uploads[i] { }
      assert ShownItems(media, uploads, info) == before + last;
      assert n !in before;
    }
  }

  /** The `<li>` one item contributes: a photo with a truthy upload whose record has a source_url. */
  function ItemHtml(item: MediaItem, upload: Option<int>, info: map<int, Option<string>>): string {
    if item.kind == Photo && IsTruthyId(upload) && SourceUrl(info, upload.value).Some?
    then GalleryItem(SourceUrl(info, upload.value).value) else ""
  }

  /** The `<li>` items of a whole group, item by item in arrival order. */
  function GalleryBody(media: seq<MediaItem>, uploads: seq<Option<int>>, info: map<int, Option<string>>): string
    requires |uploads| == |media|
  {
    if media == [] then ""
    else GalleryBody(media[..|media| - 1], uploads[..|media| - 1], info)
         + ItemHtml(media[|media| - 1], uploads[|media| - 1], info)
  }

  /** The gallery markup is one `<li>` per url of `GalleryUrls`, in the same order. */
  lemma {:induction false} GalleryBodyIsItemsOfUrls(media: seq<MediaItem>, uploads: seq<Option<int>>, info: map<int, Option<string>>)
    requires |uploads| == |media|
    ensures GalleryBody(media, uploads, info) == GalleryItems(GalleryUrls(media, uploads, info))
  {
    if media != [] {
      var n := |media| - 1;
      GalleryBodyIsItemsOfUrls(media[..n], uploads[..n], info);
      GalleryItemsStep(GalleryUrls(media[..n], uploads[..n], info), RenderedUrl(media[n], uploads[n], info));
    }
  }

  /** One more item of the loop: the prefix specifications grow by that item's share. */
  lemma GalleryStep(media: seq<MediaItem>, uploads: seq<Option<int>>, info: map<int, Option<string>>, i: nat)
    requires |uploads| == |media| && i < |media|
    ensures UploadedIds(uploads[..i + 1]) == UploadedIds(uploads[..i]) + IdIfUploaded(uploads[i])
    ensures GalleryBody(media[..i + 1], uploads[..i + 1], info)
            == GalleryBody(media[..i], uploads[..i], info) + ItemHtml(media[i], uploads[i], info)
  {
    assert media[..i + 1][..i] == media[..i] && uploads[..i + 1][..i] == uploads[..i];
  }

  lemma GalleryItemsStep(urls: seq<string>, shown: seq<string>)
    requires |shown| <= 1
    ensures GalleryItems(urls + shown) == GalleryItems(urls) + (if shown == [] then "" else GalleryItem(shown[0]))
  {
    if shown == [] {
      assert urls + shown == urls;
    } else {
      assert (urls + shown)[..|urls|] == urls;
    }
  }

  /**
   * Regrouping a concatenation. Stated over opaque arguments so that the
   * loop below need not reason about the template literals it is applied to.
   */
  lemma AppendAssoc(a: string, b: string, c: string)
    ensures (a + b) + c == a + (b + c)
  {
  }

  /**
   * The loop of `process_media_group`: each item is uploaded in arrival
   * order (`uploads[i]` is the result of uploading `media[i]` with
   * `MimeType(media[i].kind)`), truthy ids are collected, and a `<li>` is
   * added for each photo whose record has a source_url.
   */
  method BuildGallery(media: seq<MediaItem>, uploads: seq<Option<int>>, info: map<int, Option<string>>)
    returns (mediaIds: seq<int>, galleryHtml: string)
    requires |uploads| == |media|
    ensures mediaIds == UploadedIds(uploads)
    ensures galleryHtml == GalleryOpen + GalleryItems(GalleryUrls(media, uploads, info)) + GalleryClose
  {
    galleryHtml := GalleryOpen;
    mediaIds := [];
    var i := 0;
    while i < |media|
      invariant 0 <= i <= |media|
      invariant mediaIds == UploadedIds(uploads[..i])
      invariant galleryHtml == GalleryOpen + GalleryBody(media[..i], uploads[..i], info)
    {
      var item := media[i];
      var mediaId := uploads[i];
      GalleryStep(media, uploads, info, i);
      if IsTruthyId(mediaId) {
        mediaIds := mediaIds + [mediaId.value];
        if item.kind == Photo {
          var sourceUrl := SourceUrl(info, mediaId.value);
          if sourceUrl.Some? {
            AppendAssoc(GalleryOpen, GalleryBody(media[..i], uploads[..i], info), GalleryItem(sourceUrl.value));
            galleryHtml := galleryHtml + GalleryItem(sourceUrl.value);
          }
        }
      }
      i := i + 1;
    }
    assert media[..i] == media && uploads[..i] == uploads;
    GalleryBodyIsItemsOfUrls(media, uploads, info);
    galleryHtml := galleryHtml + GalleryClose;
  }

  /** The body of a group article: the gallery, then the text block. */
  function GroupBody(gallery: string, text: string, user: string, id: int): (html: string)
    ensures Contains(html, gallery)
    ensures Contains(html, BrText(text))
    ensures Contains(html, TelegramLink(user, id))
  {
    var block := TextBlock(text, user, id);
    ContainsSelf(gallery);
    ContainsInside("\n    ", gallery, block, gallery);
    ContainsInside("\n    " + gallery, block, "", BrText(text));
    ContainsInside("\n    " + gallery, block, "", TelegramLink(user, id));
    assert "\n    " + gallery + block + "" == "\n    " + gallery + block;
    "\n    " + gallery + block
  }

  // ---------------------------------------------------------------------
  // Single post

  const ImageOpen: string := "<div class=\"wp-block-image\"><figure><img src=\""
  const ImageClose: string := "\" alt=\"\"/></figure></div>"
  const VideoOpen: string := "<div class=\"wp-block-video\"><video controls src=\""
  const VideoClose: string := "\"></video></div>"

  /**
   * The embed block of a single post's media item: an image block for a
   * photo, a video block for a video, each showing the url.
   */
  function MediaBlock(kind: MediaKind, url: string): (html: string)
    ensures kind == Photo ==> ImageOpen <= html
    ensures kind == Video ==> VideoOpen <= html
    ensures Contains(html, url)
  {
    var (open, close) := if kind == Photo then (ImageOpen, ImageClose) else (VideoOpen, VideoClose);
    ContainsSelf(url);
    ContainsInside(open, url, close, url);
    open + url + close
  }

  /** The featured id of a single post: a photo's raw upload result, a video's only when truthy. */
  function SingleFeatured(attachment: Option<MediaItem>, upload: Option<int>): (featured: Option<int>)
    ensures IsTruthyId(featured) <==> attachment.Some? && IsTruthyId(upload)
    ensures featured.Some? ==> attachment.Some? && featured == upload
    ensures attachment.Some? && attachment.value.kind == Photo ==> featured == upload
  {
    if attachment.None? then None
    else if attachment.value.kind == Photo then upload
    else if IsTruthyId(upload) then upload
    else None
  }

  /** What prepending a media block keeps: both parts can be read back, and what each contains. */
  lemma PrependBlock(media: string, block: string, url: string, a: string, b: string)
    requires Contains(media, url) && Contains(block, a) && Contains(block, b)
    ensures Contains(media + block, url) && Contains(media + block, a) && Contains(media + block, b)
    ensures (media + block)[|media + block| - |block|..] == block
    ensures (media + block)[..|media + block| - |block|] == media
  {
    ContainsInside("", media, block, url);
    ContainsInside(media, block, "", a);
    ContainsInside(media, block, "", b);
    assert "" + media + block == media + block + "" == media + block;
  }

  /**
   * The body of a single post: the text block, preceded by one image or
   * video block when the upload is truthy and its record has a source_url.
   */
  function SingleBody(text: string, user: string, id: int, attachment: Option<MediaItem>,
                      upload: Option<int>, info: map<int, Option<string>>): (html: string)
    ensures Contains(html, BrText(text)) && Contains(html, TelegramLink(user, id))
    ensures |html| >= |TextBlock(text, user, id)|
    ensures html[|html| - |TextBlock(text, user, id)|..] == TextBlock(text, user, id)
    ensures !(attachment.Some? && IsTruthyId(upload) && SourceUrl(info, upload.value).Some?)
            ==> html == TextBlock(text, user, id)
    ensures attachment.Some? && IsTruthyId(upload) && SourceUrl(info, upload.value).Some?
            ==> && Contains(html, SourceUrl(info, upload.value).value)
                && html[..|html| - |TextBlock(text, user, id)|] == MediaBlock(attachment.value.kind, SourceUrl(info, upload.value).value)
  {
    var block := TextBlock(text, user, id);
    if attachment.Some? && IsTruthyId(upload) && SourceUrl(info, upload.value).Some? then
      var url := SourceUrl(info, upload.value).value;
      var media := MediaBlock(attachment.value.kind, url);
      PrependBlock(media, block, url, BrText(text), TelegramLink(user, id));
      media + block
    else
      block
  }

  /**
   * The media part of the single-post path, with the source's conditional
   * reassignments: `attachment` is the largest photo or else the video of
   * the message, `upload` the result of uploading it.
   */
  method RenderSingle(text: string, user: string, id: int, attachment: Option<MediaItem>,
                      upload: Option<int>, info: map<int, Option<string>>)
    returns (html: string, featured: Option<int>)
    ensures html == SingleBody(text, user, id, attachment, upload, info)
    ensures featured == SingleFeatured(attachment, upload)
  {
    html := TextBlock(text, user, id);
    featured := None;
    if attachment.Some? && attachment.value.kind == Photo {
      featured := upload;
      if IsTruthyId(featured) {
        var sourceUrl := SourceUrl(info, featured.value);
        if sourceUrl.Some? {
          html := MediaBlock(Photo, sourceUrl.value) + html;
        }
      }
    } else if attachment.Some? {
      var mediaId := upload;
      if IsTruthyId(mediaId) {
        featured := mediaId;
        var sourceUrl := SourceUrl(info, mediaId.value);
        if sourceUrl.Some? {
          html := MediaBlock(Video, sourceUrl.value) + html;
        }
      }
    }
  }
}
