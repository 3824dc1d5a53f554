/**
 * The ingress router of the channel handler: which inbound channel posts
 * are ignored or skipped, what text, title and channel handle are derived
 * from the others, and whether a post goes to the media-group registry or
 * straight to publication.
 */
module Ingress {
  import opened Wrappers
  import opened Text
  import opened WordPress

  /** The chat a post comes from: its id as `str(chat.id)`, and its public handle if any. */
  datatype Chat = Chat(id: string, username: Option<string>)

  /**
   * An inbound channel post. `photo` lists the sizes of an attached photo,
   * smallest first, each as the file path Telegram resolves for it (empty
   * when there is no photo); `video` is the file path of an attached video.
   */
  datatype Message = Message(
    chat: Chat,
    messageId: int,
    text: Option<string>,
    caption: Option<string>,
    mediaGroupId: Option<string>,
    photo: seq<string>,
    video: Option<string>)

  /** What the handler derives from an accepted post. */
  datatype Post = Post(text: string, title: string, user: string, messageId: int)

  /** Where an inbound post goes. */
  datatype Route =
    | Ignored
    | Skipped
    | GroupMember(groupId: string, post: Post, item: Option<MediaItem>)
    | SinglePost(post: Post, attachment: Option<MediaItem>)

  const DefaultUsername: string := "channel"

  /** `message.chat.username or "channel"`. */
  function ChannelUsername(chat: Chat): (user: string)
    ensures user != ""
    ensures NonEmpty(chat.username) ==> user == chat.username.value
    ensures !NonEmpty(chat.username) ==> user == DefaultUsername
  {
    if NonEmpty(chat.username) then chat.username.value else DefaultUsername
  }

  /** The post's text when it has one, otherwise its caption. */
  function PostText(msg: Message): (text: string)
    requires NonEmpty(msg.text) || NonEmpty(msg.caption)
    ensures text != ""
    ensures NonEmpty(msg.text) ==> Some(text) == msg.text
    ensures !NonEmpty(msg.text) ==> Some(text) == msg.caption
  {
    if NonEmpty(msg.text) then msg.text.value else msg.caption.value
  }

  /** The media item a post carries: its largest photo size, else its video. */
  function Attachment(msg: Message): (item: Option<MediaItem>)
    ensures item.Some? <==> msg.photo != [] || msg.video.Some?
    ensures msg.photo != [] ==> item == Some(MediaItem(Photo, msg.photo[|msg.photo| - 1]))
    ensures msg.photo == [] && msg.video.Some? ==> item == Some(MediaItem(Video, msg.video.value))
  {
    if msg.photo != [] then Some(MediaItem(Photo, msg.photo[|msg.photo| - 1]))
    else if msg.video.Some? then Some(MediaItem(Video, msg.video.value))
    else None
  }

  /**
   * The routing decision of `channel_post`: a post from any chat other
   * than the configured channel is ignored, a post with neither text nor
   * caption is skipped, a post with a media group id joins that group, and
   * every other post is published on its own.
   */
  function Classify(msg: Message, channelId: Option<string>): (r: Route)
    ensures r.Ignored? <==> channelId != Some(msg.chat.id)
    ensures r.Skipped? <==> channelId == Some(msg.chat.id) && !NonEmpty(msg.text) && !NonEmpty(msg.caption)
    ensures r.GroupMember? <==> channelId == Some(msg.chat.id) && (NonEmpty(msg.text) || NonEmpty(msg.caption))
                                 && NonEmpty(msg.mediaGroupId)
    ensures r.GroupMember? ==> Some(r.groupId) == msg.mediaGroupId && r.item == Attachment(msg)
    ensures r.SinglePost? ==> r.attachment == Attachment(msg)
    ensures (r.GroupMember? || r.SinglePost?) ==>
              && r.post.text == PostText(msg)
              && r.post.title == Title(r.post.text)
              && r.post.user == ChannelUsername(msg.chat)
              && r.post.messageId == msg.messageId
  {
    if channelId != Some(msg.chat.id) then Ignored
    else if !NonEmpty(msg.text) && !NonEmpty(msg.caption) then Skipped
    else
      var text := PostText(msg);
      var post := Post(text, Title(text), ChannelUsername(msg.chat), msg.messageId);
      if NonEmpty(msg.mediaGroupId) then GroupMember(msg.mediaGroupId.value, post, Attachment(msg))
      else SinglePost(post, Attachment(msg))
  }
}
