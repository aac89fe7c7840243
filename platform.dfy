/** The chat-platform (Discord) entities the bot reads, reduced to the fields its rules use. */
module Platform {
  import opened Wrappers

  /** Discord snowflakes are non-negative integers. */
  type Id = nat

  /** A user or member; `str(user)` renders as `name`, equality is by `id`. */
  datatype User = User(id: Id, name: string)

  /** An attachment as listed on a message; its bytes are fetched separately. */
  datatype Attachment = Attachment(filename: string)

  /** The channel a message arrives in: `discord.Thread`, `discord.TextChannel`, any other
      named kind (voice, stage, forum, group), or a channel without a `name` attribute: a
      direct-message channel or a partial messageable. */
  datatype Channel =
    | Thread(id: Id, name: string, parent: Option<Id>)
    | TextChannel(id: Id, name: string)
    | OtherChannel(id: Id, name: string)
    | NamelessChannel(id: Id)

  datatype Message = Message(author: User, channel: Channel, content: string, attachments: seq<Attachment>)

  /** A file uploaded to one of the HTTP routes (FastAPI `UploadFile`). */
  datatype Upload = Upload(filename: string, data: seq<bv8>)

  /** A text message the bot sends into a channel, with at most one file. */
  datatype Post = Post(channelId: Id, content: string, file: Option<Upload>)

  datatype ChannelKind = ForumKind | CategoryKind | TextKind | VoiceKind | OtherKind

  datatype ChannelInfo = ChannelInfo(kind: ChannelKind, name: string)

  /** A guild as `guild.get_channel` sees it. */
  datatype Guild = Guild(id: Id, channels: map<Id, ChannelInfo>)

  /** `guild.get_channel(id)` */
  function GetChannel(g: Guild, id: Id): Option<ChannelInfo> {
    if id in g.channels then Some(g.channels[id]) else None
  }

  /** A route's refusal: FastAPI's `HTTPException(status_code, detail)`. */
  datatype HttpError = HttpError(status: int, detail: string)
}
