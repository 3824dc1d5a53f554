# Telegram channel → WordPress relay: a verified model of its core

The relay is a Telegram bot that watches one channel and republishes its
text-bearing posts as WordPress articles. A post on its own is published
straight away. A captioned post that belongs to a Telegram media group
(an album) is first buffered under its group id; a member without text or
caption is dropped before it reaches the buffer. A timer job then
publishes what the group's buffer holds as one article, with a gallery.
As written, the buffer holds only the latest captioned member, and a
group's arrival discards every other pending group (see "## Findings"). After every
publication attempt a short notice is handed to `send_admin_message`,
which sends nothing when no administrator id is configured.

This project models the deterministic part of that program in Dafny:

- **ingress routing** (`Ingress`): which posts are ignored or skipped, and
  how the text, title, channel handle and media item are derived;
- **string logic** (`Text`): the title cut, the newline-to-`<br>`
  rewriting, and the decimal message id in the deep link;
- **payloads and protocol decisions** (`WordPress`): mime type, extension
  and file name of an upload; when an upload yields an asset id; the
  article JSON; how the creation status is read;
- **rendering** (`Render`): the text block with its `https://t.me/…` deep
  link, the gallery loop of a media group, the featured asset, and the
  image or video block of a single post;
- **notifications** (`Notify`): the guard of `send_admin_message` and the
  success and failure texts;
- **the bot's state** (`Registry`): the media-group registry as a `class
  Bot` holding a `map`, the channel handler and the timer job as methods,
  and the registry operations as pure functions with lemmas about them.

The WordPress exchanges and the delivery of the administrator notice are
oracle parameters (`get_file` is assumed to succeed, see "## Left out"):

- each item's upload result is an `Option<int>`;
- the media-info records are a `map<int, Option<string>>` from asset id to
  `source_url`;
- the article-creation response is a status code and a link;
- whether `send_message` delivered the notice is a boolean.

`Bot` records what the handlers send, in order: `posts` holds the article
payloads and `notices` the administrator texts. `scheduled` holds the
group id of every timer job that was armed. Each timer firing is modelled
as an explicit call of `ProcessMediaGroup`.

Points where the code's behaviour is easy to misread, and how the model
follows the code:

- `message.chat.username or "channel"` is evaluated once, before the
  branch (`automated_w_tg.py:253`). The `"channel"` fallback therefore
  applies on the single-post path as well as the group path.
- The text filter (`automated_w_tg.py:242-244`) runs before the group
  branch. A group member without text or caption returns there: it never
  reaches the buffer and schedules no job (`Ingress.Classify`). With the
  registry kept (`Registry.Arrive`), the buffer's text, title, message id
  and handle are those of the first captioned member; as written, they are
  those of the latest one (`Registry.LatestMemberOnlyAsWritten`).
- The comments at `automated_w_tg.py:179` and `212` speak of a gallery of
  images and videos and of the first image as the thumbnail. The code puts
  only photos in the gallery (`Render.VideosNotInGallery`), and the
  featured asset is the first truthy upload of any kind
  (`automated_w_tg.py:213`), so it can be a video
  (`Render.FeaturedIsFirstUpload`).
- Every captioned member schedules a fresh job and none is ever cancelled
  (`automated_w_tg.py:288`). When n captioned members all arrive before the
  first fire, the group is fired n times and only the first fire
  publishes: it deletes the buffer (`automated_w_tg.py:229`), and every
  later fire stops at the absent-entry guard (`automated_w_tg.py:176-177`).
  `Registry.Bot.ProcessMediaGroup` states that the group is absent after
  any fire. A member arriving after a fire starts a new buffer, and a later
  job publishes that one as a second article.
  `Registry.DuplicateTimersPublishOnce` walks through two captioned members
  under the handler that keeps the registry (`Registry.Bot.ChannelPost`'s
  group branch): two jobs, one article, one notice.

## Model

| member | source | states |
|---|---|---|
| Text.FirstLine | automated_w_tg.py:250 | the first element of `split('\n')`: a prefix of the text with no newline, either the whole text or followed by a newline |
| Text.Title | automated_w_tg.py:250 | the title is a prefix of the text, at most 100 characters, without newline; it equals the first line when that line has ≤ 100 characters, else it is that line's first 100 characters |
| Text.BrText | automated_w_tg.py:209 | the rewritten body has no newline, is 3 characters longer per newline, and equals the text when it had none |
| Text.BrTextConcat | automated_w_tg.py:302 | rewriting newlines distributes over concatenation |
| Text.BrTextRoundTrip | automated_w_tg.py:302 | on a text without `<`, reading each `<br>` back as a newline recovers the text: the rewriting loses nothing |
| Text.IntToString | automated_w_tg.py:300 | `str(message_id)` is non-empty, has no `/`, starts with `-` exactly for negative ids, is otherwise digits, and has no leading zero: only 0 is written starting with `0` |
| Text.NatToString | automated_w_tg.py:300 | the decimal rendering of a natural number is a non-empty run of digits with no leading zero |
| Text.NatToStringRoundTrip | automated_w_tg.py:300 | the decimal digits of a natural number denote that number |
| Text.IntToStringRoundTrip | automated_w_tg.py:300 | parsing the rendered id gives back the id |
| WordPress.MimeType | automated_w_tg.py:187 | a photo is uploaded as `image/jpeg`, anything else as `video/mp4`; the extension follows (`.jpg` / `.mp4`) |
| WordPress.Extension | automated_w_tg.py:57 | the extension is `.jpg` exactly for `image/jpeg`, `.mp4` for every other mime type |
| WordPress.FileName | automated_w_tg.py:56-61 | the upload file name is `telegram_media_`, then the timestamp, then the 4-character extension of the mime type |
| WordPress.MakeUploadHeaders | automated_w_tg.py:60-63 | the upload's `Content-Type` is the mime type and its `Content-Disposition` names the file |
| WordPress.UploadMedia | automated_w_tg.py:55-84 | an upload yields an id only when the download returned 200 and the upload 200 or 201, and then it is the response's id; a failed download yields nothing |
| WordPress.SourceUrl | automated_w_tg.py:195-197 | the `source_url` of an asset is the one its media-info record holds; a failed lookup gives none |
| WordPress.MakePostData | automated_w_tg.py:93-101 | the article has the given title and content, status `publish`, and `featured_media` exactly when the featured id is truthy, equal to it |
| WordPress.PublishResult | automated_w_tg.py:106-111 | success exactly on status 201, with the response's link; otherwise `(False, None)` |
| Render.TelegramLink | automated_w_tg.py:207 | the deep link is `https://t.me/` followed by the handle, `/` and the decimal id |
| Render.TelegramLinkInjective | automated_w_tg.py:300 | the deep link determines both the handle and the message id, for every handle |
| Render.TextBlock | automated_w_tg.py:296-302 | the text block opens the `telegram-post` div and contains the `<br>` text and the deep link |
| Render.GalleryItem | automated_w_tg.py:197 | a gallery `<li>` contains the image's url |
| Render.IdIfUploaded | automated_w_tg.py:190-191 | an upload contributes its id to `media_ids` exactly when the id is truthy |
| Render.RenderedUrl | automated_w_tg.py:193-197 | an item is shown in the gallery exactly when it is a photo with a truthy upload whose record has a `source_url`, and then with that url |
| Render.UploadedIdsConcat | automated_w_tg.py:183-191 | collecting ids over two runs of items is collecting over their concatenation |
| Render.UploadedIdsMembers | automated_w_tg.py:183-191 | `media_ids` holds exactly the truthy upload results, and never 0 |
| Render.UploadedIdsEmpty | automated_w_tg.py:183-191 | `media_ids` is empty exactly when no upload was truthy |
| Render.FeaturedId | automated_w_tg.py:213 | the featured id is present exactly when `media_ids` is non-empty, and is its first element |
| Render.FeaturedIsFirstUpload | automated_w_tg.py:183-213 | the featured id of a group is the first truthy upload, whatever kind of item it belongs to |
| Render.GalleryUrlsMembers | automated_w_tg.py:193-197 | a url is in the gallery exactly when some photo's truthy upload has that `source_url` |
| Render.GalleryCountsShownItems | automated_w_tg.py:183-197 | the gallery has exactly one `<li>` per photo with a truthy upload and a `source_url` |
| Render.GalleryNoLargerThanIds | automated_w_tg.py:183-197 | the gallery never has more items than `media_ids` |
| Render.GalleryMatchesIds | automated_w_tg.py:183-197 | when every uploaded item is a photo with a `source_url`, the gallery has one item per id |
| Render.VideosNotInGallery | automated_w_tg.py:193 | a group of videos only has an empty gallery |
| Render.GalleryBodyIsItemsOfUrls | automated_w_tg.py:183-197 | the markup built item by item is the `<li>` list of the gallery's urls, in arrival order |
| Render.BuildGallery | automated_w_tg.py:180-199 | the loop returns exactly the truthy upload ids in arrival order and the gallery markup of the shown photos, wrapped in the gallery's open and close tags |
| Render.GroupBody | automated_w_tg.py:202-210 | the group body contains the gallery, the `<br>` text and the deep link |
| Render.MediaBlock | automated_w_tg.py:322-339 | a photo gets an image block and a video a video block, each showing the url |
| Render.SingleFeatured | automated_w_tg.py:305-333 | a single post's featured id is truthy exactly when it has media and the upload is truthy, whether or not the lookup succeeds; a photo's featured id is its raw upload result |
| Render.SingleBody | automated_w_tg.py:296-340 | the single-post body ends with the text block; it is that block alone unless the upload is truthy and its record has a `source_url`, in which case exactly one block of the item's kind, showing that url, comes before it |
| Render.RenderSingle | automated_w_tg.py:305-340 | the conditional reassignments of `html_content` and `featured_media_id` compute the body and featured id above |
| Notify.SendAdminMessage | automated_w_tg.py:131-142 | nothing is sent without an admin id; otherwise the result is whether delivery succeeded |
| Notify.PublishNotice | automated_w_tg.py:217-226 | the notice starts with ✅ exactly on success and with ❌ exactly on failure, always names the title, and on success carries the link |
| Ingress.ChannelUsername | automated_w_tg.py:253 | the handle is the chat's username when it is non-empty, else `channel` |
| Ingress.PostText | automated_w_tg.py:247 | the post's text is its text when non-empty, else its caption |
| Ingress.Attachment | automated_w_tg.py:272-284 | a post's media is its largest photo size when it has photos, else its video, else nothing |
| Ingress.Classify | automated_w_tg.py:236-256 | a post from another chat is ignored and one without text or caption skipped; a post with a group id joins that group, every other post is published alone; the derived text, title, handle and id are as above |
| Registry.ItemSeq | automated_w_tg.py:272-284 | a member adds one item when it has media and none otherwise |
| Registry.Arrive | automated_w_tg.py:261-284 | an arrival adds its group id and touches no other group; an existing buffer keeps its text, title, id, handle and time and gains the member's item at the end; a new buffer holds the member's data and item |
| Registry.ArriveAsWritten | automated_w_tg.py:258-284 | with the registry emptied first, an arrival leaves a registry holding only its own group, with only its own item |
| Registry.GroupCollectsAllMembers | automated_w_tg.py:261-284 | a new group ends with every member's item in arrival order, under the first member's text, title, id and handle; other groups are untouched |
| Registry.LatestMemberOnlyAsWritten | automated_w_tg.py:258-259 | as written, after any arrivals the registry holds only the group's latest member |
| Registry.ResetLosesEarlierMember | automated_w_tg.py:258-259 | for two captioned photos A and B, the buffer holds `[B]` as written and `[A, B]` when the registry is kept |
| Registry.GroupContent | automated_w_tg.py:202-210 | a group article's body contains the gallery markup, the `<br>` text and the deep link |
| Registry.GroupPost | automated_w_tg.py:202-214 | a group article has the buffer's title, the group body, status `publish`, and as featured media the first element of `media_ids` |
| Registry.GroupPostWithoutFeatured | automated_w_tg.py:212-214 | a group article has no featured media exactly when every upload failed |
| Registry.Bot.ResetRegistry | automated_w_tg.py:258-259 | the registry becomes empty and nothing else changes |
| Registry.Bot.PublishAndNotify | automated_w_tg.py:214-226 | one publication appends exactly one article payload and exactly one outcome notice, and leaves the registry and the jobs alone |
| Registry.Bot.ProcessMediaGroup | automated_w_tg.py:172-229 | a fire for an absent group changes nothing; otherwise it sends exactly one article and one notice and removes that group only; either way the group is absent afterwards |
| Registry.Bot.BufferMember | automated_w_tg.py:261-292 | a group member updates the registry as `Arrive` says and schedules one job for its group |
| Registry.Bot.PublishSingle | automated_w_tg.py:305-355 | a single post sends exactly one article, with the body and featured id above, and exactly one notice, and leaves the registry alone |
| Registry.Bot.ChannelPost | automated_w_tg.py:232-355 | an ignored or skipped post changes nothing and sends nothing; a group member only buffers and schedules; a single post only publishes and notifies |
| Registry.Bot.ChannelPostAsWritten | automated_w_tg.py:256-293 | the handler as written, with the registry emptied before each group arrival |

## Left out

- HTTP exchanges with WordPress (`requests.get`/`post`) and with Telegram (`get_file`, `send_message`, `reply_text`) are left out; the WordPress outcomes and the delivery outcome of `send_message` are parameters (`reply_text` belongs to the `/start` and `/status` handlers, left out below). A photo size or video carries the file path `get_file` would resolve for it.
- `get_file` is assumed to succeed. On the group path its calls (`automated_w_tg.py:274`, `280`) are outside any `try`, so a failure there leaves the buffer created (lines 261-269) with no item for that member and no job armed (line 288), and `error_handler` sends its own notice; the model does not capture that outcome.
- `time.sleep(2)`, `time.time()` and `datetime.now()` are left out; the buffer's arrival time and the file-name timestamp are parameters.
- Scheduling of the jobs (`job_queue.run_once`, the 2-second delay, async interleaving) is left out; the model records each scheduled job's group id, and a fire is an explicit call.
- The `/start` and `/status` handlers, `check_wordpress_connection`, `error_handler`, `main`, logging and `.env` loading are bootstrap and plumbing, so they are left out.
- Exceptions inside the single-post path are left out, and so is the error notice sent when one is caught. The helpers catch their own exceptions and return `None` or `False`; the model covers that as a failed status.
- WordPress.SourceUrl: a media-info record whose `source_url` field is present but null counts as lacking the field, although the code would render the text `None` in that case.
- Text.Title: characters are Dafny's `char`, a Unicode scalar value, so the cut counts the same units as Python's slice; a Python string holding a lone surrogate has no counterpart in the model.

## Findings

| source | as written | input that shows it | evidently intended | confidence | as-written member | corrected member |
|---|---|---|---|---|---|---|
| automated_w_tg.py:258 | the registry test asks `hasattr` of a dict, which is always false, so every group arrival replaces the registry with an empty one; earlier members of the same group, and every other pending group, are lost | two captioned photos A and B of group G arriving before G's job fires: the buffer ends with `[B]` and A's media is never published | create the registry once and keep buffers across arrivals, so the buffer ends with `[A, B]` | not executed | Registry.ArriveAsWritten, Registry.ResetLosesEarlierMember, Registry.Bot.ChannelPostAsWritten | Registry.Arrive, Registry.GroupCollectsAllMembers, Registry.Bot.ChannelPost |
