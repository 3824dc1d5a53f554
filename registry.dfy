/**
 * The media-group registry and the two handlers that use it: the channel
 * handler, which routes each inbound post and either buffers it under its
 * media group id or publishes it at once, and the timer job, which
 * publishes a buffered group and discards its buffer.
 *
 * The bot's mutable state is a class: the registry `groups`, the ids of
 * the fire jobs scheduled so far, the article payloads sent to the posts
 * endpoint, and the texts handed to `send_admin_message`, all in order.
 */
module Registry {
  import opened Wrappers
  import opened Text
  import opened WordPress
  import opened Render
  import opened Notify
  import opened Ingress

  /** The buffer of one media group: the first member's text, title, id and handle, and every member's media. */
  datatype GroupBuffer = GroupBuffer(
    media: seq<MediaItem>,
    text: string,
    title: string,
    messageId: int,
    channelUsername: string,
    timestamp: real)

  type Groups = map<string, GroupBuffer>

  /** The media a member adds to its group: its item, if it has one. */
  function ItemSeq(item: Option<MediaItem>): (items: seq<MediaItem>)
    ensures |items| <= 1
    ensures items != [] <==> item.Some?
    ensures item.Some? ==> items == [item.value]
  {
    if item.Some? then [item.value] else []
  }

  /** The buffer created by a group's first member, before its media is appended. */
  function NewBuffer(post: Post, now: real): GroupBuffer {
    GroupBuffer([], post.text, post.title, post.messageId, post.user, now)
  }

  // ---------------------------------------------------------------------
  // The registry as a value

  /**
   * One member's arrival: create the group's buffer when the id is new
   * (first writer wins), then append the member's item.
   */
  function Arrive(groups: Groups, gid: string, post: Post, now: real, item: Option<MediaItem>): (r: Groups)
    ensures r.Keys == groups.Keys + {gid}
    ensures forall g :: g in groups && g != gid ==> r[g] == groups[g]
    ensures gid in groups ==>
              && r[gid].text == groups[gid].text
              && r[gid].title == groups[gid].title
              && r[gid].messageId == groups[gid].messageId
              && r[gid].channelUsername == groups[gid].channelUsername
              && r[gid].timestamp == groups[gid].timestamp
              && r[gid].media == groups[gid].media + ItemSeq(item)
    ensures gid !in groups ==> r[gid] == NewBuffer(post, now).(media := ItemSeq(item))
  {
    var seeded := if gid in groups then groups else groups[gid := NewBuffer(post, now)];
    seeded[gid := seeded[gid].(media := seeded[gid].media + ItemSeq(item))]
  }

  /**
   * One member's arrival as the handler is written: the registry test
   * `hasattr(bot_data, 'media_groups')` is always false on a dict, so the
   * registry is emptied before every arrival.
   */
  function ArriveAsWritten(groups: Groups, gid: string, post: Post, now: real, item: Option<MediaItem>): (r: Groups)
    ensures r == map[gid := NewBuffer(post, now).(media := ItemSeq(item))]
  {
    Arrive(map[], gid, post, now, item)
  }

  /** The data of one member of a group as it reaches the registry. */
  datatype Arrival = Arrival(post: Post, now: real, item: Option<MediaItem>)

  /** The registry after `arrivals`, in order, all for group `gid`. */
  function ArriveAll(groups: Groups, gid: string, arrivals: seq<Arrival>): Groups {
    if arrivals == [] then groups
    else
      var last := arrivals[|arrivals| - 1];
      Arrive(ArriveAll(groups, gid, arrivals[..|arrivals| - 1]), gid, last.post, last.now, last.item)
  }

  /** The same arrivals handled as written. */
  function ArriveAllAsWritten(groups: Groups, gid: string, arrivals: seq<Arrival>): Groups {
    if arrivals == [] then groups
    else
      var last := arrivals[|arrivals| - 1];
      ArriveAsWritten(ArriveAllAsWritten(groups, gid, arrivals[..|arrivals| - 1]), gid, last.post, last.now, last.item)
  }

  /** The items of `arrivals`, in arrival order. */
  function ArrivedItems(arrivals: seq<Arrival>): seq<MediaItem> {
    if arrivals == [] then []
    else ArrivedItems(arrivals[..|arrivals| - 1]) + ItemSeq(arrivals[|arrivals| - 1].item)
  }

  /**
   * A new group collects the media of all its members in arrival order,
   * under the text, title, id and handle of its first member; no other
   * group changes.
   */
  lemma {:induction false} GroupCollectsAllMembers(groups: Groups, gid: string, arrivals: seq<Arrival>)
    requires gid !in groups && arrivals != []
    ensures var r := ArriveAll(groups, gid, arrivals);
            && r.Keys == groups.Keys + {gid}
            && (forall g :: g in groups ==> r[g] == groups[g])
            && r[gid] == NewBuffer(arrivals[0].post, arrivals[0].now).(media := ArrivedItems(arrivals))
  {
    var n := |arrivals| - 1;
    if n == 0 {
      assert arrivals[..n] == [];
      assert ArrivedItems(arrivals) == ArrivedItems([]) + ItemSeq(arrivals[0].item);
    } else {
      var prefix := arrivals[..n];
      GroupCollectsAllMembers(groups, gid, prefix);
      assert prefix[0] == arrivals[0];
    }
  }

  /** As written, a group only ever holds its latest member, and every other group is gone. */
  lemma LatestMemberOnlyAsWritten(groups: Groups, gid: string, arrivals: seq<Arrival>)
    requires arrivals != []
    ensures var last := arrivals[|arrivals| - 1];
            ArriveAllAsWritten(groups, gid, arrivals) == map[gid := NewBuffer(last.post, last.now).(media := ItemSeq(last.item))]
  {
  }

  /**
   * The input that shows the difference: two captioned photos A and B of
   * group G. As written the buffer ends with [B] only; with the registry
   * kept across arrivals it holds [A, B].
   */
  lemma {:induction false} ResetLosesEarlierMember(p1: Post, p2: Post, a: MediaItem, b: MediaItem)
    ensures ArriveAllAsWritten(map[], "G", [Arrival(p1, 0.0, Some(a)), Arrival(p2, 0.5, Some(b))])["G"].media == [b]
    ensures ArriveAll(map[], "G", [Arrival(p1, 0.0, Some(a)), Arrival(p2, 0.5, Some(b))])["G"].media == [a, b]
  {
    var arrivals := [Arrival(p1, 0.0, Some(a)), Arrival(p2, 0.5, Some(b))];
    LatestMemberOnlyAsWritten(map[], "G", arrivals);
    GroupCollectsAllMembers(map[], "G", arrivals);
    assert arrivals[..1] == [Arrival(p1, 0.0, Some(a))];
    assert arrivals[..1][..0] == [];
    assert ArrivedItems(arrivals[..1]) == [a];
    assert ArrivedItems(arrivals) == ArrivedItems(arrivals[..1]) + [b];
  }

  // ---------------------------------------------------------------------
  // What a fire publishes

  /** The body of a group article: gallery, text with `<br>` breaks, deep link. */
  function GroupContent(buf: GroupBuffer, uploads: seq<Option<int>>, info: map<int, Option<string>>): (html: string)
    requires |uploads| == |buf.media|
    ensures Contains(html, GalleryOpen + GalleryItems(GalleryUrls(buf.media, uploads, info)) + GalleryClose)
    ensures Contains(html, BrText(buf.text))
    ensures Contains(html, TelegramLink(buf.channelUsername, buf.messageId))
  {
    GroupBody(GalleryOpen + GalleryItems(GalleryUrls(buf.media, uploads, info)) + GalleryClose,
              buf.text, buf.channelUsername, buf.messageId)
  }

  /**
   * The article a fire sends: the buffer's title, the group body, status
   * `publish`, and as featured media the first truthy upload.
   */
  function GroupPost(buf: GroupBuffer, uploads: seq<Option<int>>, info: map<int, Option<string>>): (p: PostData)
    requires |uploads| == |buf.media|
    ensures p.title == buf.title
    ensures p.content == GroupContent(buf, uploads, info)
    ensures p.status == PublishStatus
    ensures p.featuredMedia == FeaturedId(UploadedIds(uploads))
  {
    UploadedIdsMembers(uploads, 0);
    MakePostData(buf.title, GroupContent(buf, uploads, info), FeaturedId(UploadedIds(uploads)))
  }

  /** A group article has no featured media exactly when every upload of the group failed. */
  lemma GroupPostWithoutFeatured(buf: GroupBuffer, uploads: seq<Option<int>>, info: map<int, Option<string>>)
    requires |uploads| == |buf.media|
    ensures GroupPost(buf, uploads, info).featuredMedia.None? <==> forall i :: 0 <= i < |uploads| ==> !IsTruthyId(uploads[i])
  {
    UploadedIdsEmpty(uploads);
  }

  // ---------------------------------------------------------------------
  // The bot

  class Bot {
    /** `bot_data['media_groups']`. */
    var groups: Groups
    /** The group id of every `process_media_group` job scheduled, in order. */
    var scheduled: seq<string>
    /** Every article payload sent to the posts endpoint, in order. */
    var posts: seq<PostData>
    /** Every text handed to `send_admin_message`, in order. */
    var notices: seq<string>

    constructor ()
      ensures groups == map[] && scheduled == [] && posts == [] && notices == []
    {
      groups := map[];
      scheduled := [];
      posts := [];
      notices := [];
    }

    /** The registry initialisation the channel handler runs before every group arrival. */
    method ResetRegistry()
      modifies this
      ensures groups == map[]
      ensures scheduled == old(scheduled) && posts == old(posts) && notices == old(notices)
    {
      groups := map[];
    }

    /**
     * One publication: the article is sent to the posts endpoint, which
     * answers with `status` and `link`, and the outcome notice is handed
     * to `send_admin_message`.
     */
    method PublishAndNotify(path: PostPath, title: string, content: string, featured: Option<int>,
                            status: int, link: Option<string>)
      modifies this
      ensures posts == old(posts) + [MakePostData(title, content, featured)]
      ensures notices == old(notices) + [PublishNotice(path, title, PublishResult(status, link))]
      ensures groups == old(groups) && scheduled == old(scheduled)
    {
      var success, postUrl := PublishResult(status, link).0, PublishResult(status, link).1;
      posts := posts + [MakePostData(title, content, featured)];
      notices := notices + [PublishNotice(path, title, (success, postUrl))];
    }

    /**
     * `process_media_group` for the job scheduled with `gid`. `uploads[i]`
     * is the result of uploading the buffer's i-th item, `info` the
     * media-info records, `status` and `link` the posts endpoint's answer.
     * An absent group is left alone; a present one is published once,
     * notified once, and removed. Either way the group is absent afterwards,
     * so a further fire with no arrival in between changes nothing.
     */
    method ProcessMediaGroup(gid: string, uploads: seq<Option<int>>, info: map<int, Option<string>>,
                             status: int, link: Option<string>)
      requires gid in groups ==> |uploads| == |groups[gid].media|
      modifies this
      ensures scheduled == old(scheduled)
      ensures gid !in groups
      ensures gid !in old(groups) ==> groups == old(groups) && posts == old(posts) && notices == old(notices)
      ensures gid in old(groups) ==>
                && groups == old(groups) - {gid}
                && posts == old(posts) + [GroupPost(old(groups)[gid], uploads, info)]
                && notices == old(notices) + [PublishNotice(GroupPath, old(groups)[gid].title, PublishResult(status, link))]
    {
      if gid !in groups {
        return;
      }
      var mediaGroup := groups[gid];
      var mediaIds, galleryHtml := BuildGallery(mediaGroup.media, uploads, info);
      var htmlContent := GroupBody(galleryHtml, mediaGroup.text, mediaGroup.channelUsername, mediaGroup.messageId);
      var featuredMediaId := FeaturedId(mediaIds);
      assert MakePostData(mediaGroup.title, htmlContent, featuredMediaId) == GroupPost(mediaGroup, uploads, info);
      PublishAndNotify(GroupPath, mediaGroup.title, htmlContent, featuredMediaId, status, link);
      groups := groups - {gid};
    }

    /**
     * The group branch of `channel_post`: create the group's buffer when
     * its id is new, append the member's item, and schedule a fire job.
     */
    method BufferMember(gid: string, post: Post, now: real, item: Option<MediaItem>)
      modifies this
      ensures groups == Arrive(old(groups), gid, post, now, item)
      ensures scheduled == old(scheduled) + [gid]
      ensures posts == old(posts) && notices == old(notices)
    {
      ghost var expected := Arrive(groups, gid, post, now, item);
      if gid !in groups {
        groups := groups[gid := NewBuffer(post, now)];
      }
      assert groups[gid].media + ItemSeq(item) == expected[gid].media;
      if item.Some? {
        groups := groups[gid := groups[gid].(media := groups[gid].media + [item.value])];
      } else {
        assert groups[gid].media + [] == groups[gid].media;
      }
      assert groups.Keys == expected.Keys;
      assert forall g :: g in groups ==> groups[g] == expected[g];
      scheduled := scheduled + [gid];
    }

    /**
     * The single-post branch of `channel_post`: render, publish once, and
     * notify once.
     */
    method PublishSingle(post: Post, attachment: Option<MediaItem>, upload: Option<int>,
                         info: map<int, Option<string>>, status: int, link: Option<string>)
      modifies this
      ensures groups == old(groups) && scheduled == old(scheduled)
      ensures posts == old(posts) + [MakePostData(post.title,
                                                 SingleBody(post.text, post.user, post.messageId, attachment, upload, info),
                                                 SingleFeatured(attachment, upload))]
      ensures notices == old(notices) + [PublishNotice(SinglePath, post.title, PublishResult(status, link))]
    {
      var htmlContent, featuredMediaId := RenderSingle(post.text, post.user, post.messageId, attachment, upload, info);
      PublishAndNotify(SinglePath, post.title, htmlContent, featuredMediaId, status, link);
    }

    /**
     * `channel_post` with the registry kept across arrivals. For a single
     * post, `upload` is the result of uploading its attachment, `info` the
     * media-info records, `status` and `link` the posts endpoint's answer;
     * `now` is the clock reading stored in a new group buffer.
     */
    method ChannelPost(msg: Message, channelId: Option<string>, now: real, upload: Option<int>,
                       info: map<int, Option<string>>, status: int, link: Option<string>)
      modifies this
      ensures Classify(msg, channelId).Ignored? || Classify(msg, channelId).Skipped? ==>
                groups == old(groups) && scheduled == old(scheduled) && posts == old(posts) && notices == old(notices)
      ensures Classify(msg, channelId).GroupMember? ==>
                var r := Classify(msg, channelId);
                && groups == Arrive(old(groups), r.groupId, r.post, now, r.item)
                && scheduled == old(scheduled) + [r.groupId]
                && posts == old(posts) && notices == old(notices)
      ensures Classify(msg, channelId).SinglePost? ==>
                var r := Classify(msg, channelId);
                && groups == old(groups) && scheduled == old(scheduled)
                && posts == old(posts) + [MakePostData(r.post.title,
                                                      SingleBody(r.post.text, r.post.user, r.post.messageId, r.attachment, upload, info),
                                                      SingleFeatured(r.attachment, upload))]
                && notices == old(notices) + [PublishNotice(SinglePath, r.post.title, PublishResult(status, link))]
    {
      var route := Classify(msg, channelId);
      match route {
        case Ignored =>
        case Skipped =>
        case GroupMember(gid, post, item) =>
          BufferMember(gid, post, now, item);
        case SinglePost(post, attachment) =>
          PublishSingle(post, attachment, upload, info, status, link);
      }
    }

    /** `channel_post` as written: the registry is emptied before each group arrival. */
    method ChannelPostAsWritten(msg: Message, channelId: Option<string>, now: real, upload: Option<int>,
                                info: map<int, Option<string>>, status: int, link: Option<string>)
      modifies this
      ensures Classify(msg, channelId).Ignored? || Classify(msg, channelId).Skipped? ==>
                groups == old(groups) && scheduled == old(scheduled) && posts == old(posts) && notices == old(notices)
      ensures Classify(msg, channelId).GroupMember? ==>
                var r := Classify(msg, channelId);
                && groups == ArriveAsWritten(old(groups), r.groupId, r.post, now, r.item)
                && scheduled == old(scheduled) + [r.groupId]
                && posts == old(posts) && notices == old(notices)
      ensures Classify(msg, channelId).SinglePost? ==>
                var r := Classify(msg, channelId);
                && groups == old(groups) && scheduled == old(scheduled)
                && posts == old(posts) + [MakePostData(r.post.title,
                                                      SingleBody(r.post.text, r.post.user, r.post.messageId, r.attachment, upload, info),
                                                      SingleFeatured(r.attachment, upload))]
                && notices == old(notices) + [PublishNotice(SinglePath, r.post.title, PublishResult(status, link))]
    {
      if Classify(msg, channelId).GroupMember? {
        ResetRegistry();
      }
      ChannelPost(msg, channelId, now, upload, info, status, link);
    }
  }

  /**
   * Two captioned members of one group, both arriving before the first
   * fire, under the handler that keeps the registry: they schedule two
   * jobs; the first fire publishes the group once and the second finds
   * nothing to do.
   */
  method DuplicateTimersPublishOnce(first: Post, second: Post, a: string, b: string)
  {
    var bot := new Bot();
    bot.BufferMember("G1", first, 0.0, Some(MediaItem(Photo, a)));
    bot.BufferMember("G1", second, 0.5, Some(MediaItem(Photo, b)));
    assert bot.scheduled == ["G1", "G1"];
    assert bot.groups["G1"].media == [MediaItem(Photo, a), MediaItem(Photo, b)];
    assert bot.groups["G1"].title == first.title;
    var uploads: seq<Option<int>> := [Some(11), Some(12)];
    var none: seq<Option<int>> := [];
    assert uploads[..1] == [Some(11)] && uploads[..1][..0] == none;
    assert UploadedIds(uploads) == [11, 12];
    bot.ProcessMediaGroup("G1", uploads, map[11 := Some("u11")], 201, Some("https://example.org/p"));
    assert |bot.posts| == 1 && bot.posts[0].featuredMedia == Some(11);
    assert "G1" !in bot.groups;
    bot.ProcessMediaGroup("G1", [], map[], 201, None);
    assert |bot.posts| == 1 && |bot.notices| == 1;
  }
}
