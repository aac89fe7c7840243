/** The HTTP routes of cogs/messaging.py: their guards (404 for what the bot cannot find, 400
    for a malformed embed request), the unpacking of a created thread, the normalisation of an
    embed request, and the content of the two send-message routes. `escape_mentions` and
    `datetime.fromisoformat` come from libraries and are parameters here. */
module Messaging {
  import opened Wrappers
  import opened Http
  import opened Platform
  import LegacyBot

  const BadRequest := 400

  // ---------------------------------------------------------------- /create-thread

  /** `ChannelRequest`: the content defaults when the request body leaves it out. */
  datatype ChannelRequest = ChannelRequest(title: string, content: string)

  const DefaultThreadContent := "Discussion started via API"

  function ChannelRequestOf(title: string, content: Option<string>): (r: ChannelRequest)
    ensures r.title == title
    ensures r.content == (if content.Some? then content.value else DefaultThreadContent)
  {
    ChannelRequest(title, content.GetOr(DefaultThreadContent))
  }

  /** The thread the route asks Discord to create in the forum channel. */
  datatype ThreadCreation = ThreadCreation(forumId: Id, name: string, content: string)

  /** The guards of `/create-thread`: the configured guild must be present and the configured
      forum id must name a forum channel in it; title and content are mention-escaped. */
  function CreateThread(guild: Option<Guild>, forumChannelId: Id, request: ChannelRequest,
                        escape: string -> string): (r: Result<ThreadCreation, HttpError>)
    ensures r.Err? <==>
      guild.None? || GetChannel(guild.value, forumChannelId).None? ||
      GetChannel(guild.value, forumChannelId).value.kind != ForumKind
    ensures r.Err? ==> r.error.status == NotFound
    ensures r.Ok? ==> r.value.forumId == forumChannelId
    ensures r.Ok? ==> r.value.name == escape(request.title) && r.value.content == escape(request.content)
  {
    if guild.None? then Err(HttpError(NotFound, "Guild not found"))
    else
      var forum := GetChannel(guild.value, forumChannelId);
      if forum.None? || forum.value.kind != ForumKind then Err(HttpError(NotFound, "Forum channel not found"))
      else Ok(ThreadCreation(forumChannelId, escape(request.title), escape(request.content)))
  }

  datatype CreatedThread = CreatedThread(id: Id, name: string)

  /** What `create_thread` returns: a bare thread, or a (thread, first message) pair. */
  datatype CreateResult = ThreadOnly(thread: CreatedThread) | ThreadWithMessage(thread: CreatedThread, messageId: Id)

  datatype ThreadResponse = ThreadResponse(threadId: Id, threadName: string, forumName: string, firstMessageId: Option<Id>)

  /** The route's JSON reply: the first message's id exactly when Discord returned a pair. */
  function ThreadResponseOf(forumName: string, result: CreateResult): (r: ThreadResponse)
    ensures r.threadId == result.thread.id && r.threadName == result.thread.name && r.forumName == forumName
    ensures r.firstMessageId.Some? <==> result.ThreadWithMessage?
    ensures r.firstMessageId.Some? ==> r.firstMessageId.value == result.messageId
  {
    match result
    case ThreadOnly(t) => ThreadResponse(t.id, t.name, forumName, None)
    case ThreadWithMessage(t, m) => ThreadResponse(t.id, t.name, forumName, Some(m))
  }

  // ---------------------------------------------------------------- /create-channel, /delete-channel

  /** The guards of `/create-channel`: unlike the older route in bot.py, the id must name a
      category channel. */
  function CreateChannel(guild: Option<Guild>, categoryId: Id, channelName: string): (r: Result<LegacyBot.ChannelCreation, HttpError>)
    ensures r.Err? <==>
      guild.None? || GetChannel(guild.value, categoryId).None? ||
      GetChannel(guild.value, categoryId).value.kind != CategoryKind
    ensures r.Err? ==> r.error.status == NotFound
    ensures r.Ok? ==> r.value == LegacyBot.ChannelCreation(guild.value.id, categoryId, channelName)
  {
    if guild.None? then Err(HttpError(NotFound, "Guild not found"))
    else
      var category := GetChannel(guild.value, categoryId);
      if category.None? || category.value.kind != CategoryKind then Err(HttpError(NotFound, "Category not found"))
      else Ok(LegacyBot.ChannelCreation(guild.value.id, categoryId, channelName))
  }

  /** The guards of `/delete-channel`: any channel of the guild may be deleted; the result is
      the id of the channel to delete. */
  function DeleteChannel(guild: Option<Guild>, channelId: Id): (r: Result<Id, HttpError>)
    ensures r.Err? <==> guild.None? || channelId !in guild.value.channels
    ensures r.Err? ==> r.error.status == NotFound
    ensures r.Ok? ==> r.value == channelId
  {
    if guild.None? then Err(HttpError(NotFound, "Guild not found"))
    else if GetChannel(guild.value, channelId).None? then Err(HttpError(NotFound, "Channel not found"))
    else Ok(channelId)
  }

  // ---------------------------------------------------------------- /send-embed

  /** One entry of the request's `fields` list; an absent key is `None`. */
  datatype FieldRequest = FieldRequest(name: Option<string>, value: Option<string>, inline: Option<bool>)

  /** The request's `embed` object. `otherKeys` records keys the route does not read, which
      still make the object non-empty. */
  datatype EmbedRequest = EmbedRequest(
    title: Option<string>, description: Option<string>, color: Option<int>,
    fields: Option<seq<FieldRequest>>, footer: Option<Option<string>>, timestamp: Option<string>,
    otherKeys: bool)

  /** The request body: `channel_id` and `embed`, each possibly absent. */
  datatype EmbedPayload = EmbedPayload(channelId: Option<Id>, embed: Option<EmbedRequest>)

  /** A point in time as `datetime.fromisoformat` returns it. */
  datatype Instant = Instant(micros: int)

  datatype EmbedField = EmbedField(name: string, value: string, inline: bool)

  /** The `discord.Embed` the route sends. */
  datatype Embed = Embed(
    title: Option<string>, description: Option<string>, color: Option<int>,
    fields: seq<EmbedField>, footer: Option<string>, timestamp: Option<Instant>)

  /** The embed colour when the request gives none. */
  const DefaultColor := 0x00BFFF

  const UnnamedField := "Unnamed Field"

  const EmptyValue := "—"

  /** A dictionary is falsy exactly when it has no keys. */
  predicate IsEmpty(e: EmbedRequest) {
    e.title.None? && e.description.None? && e.color.None? && e.fields.None? &&
    e.footer.None? && e.timestamp.None? && !e.otherKeys
  }

  /** The refusal of `/send-embed`, if any: 400 when `channel_id` is absent or 0 or `embed`
      is absent or empty, else 404 when the bot does not see the channel. */
  function EmbedGuard(p: EmbedPayload, known: set<Id>): (r: Option<HttpError>)
    ensures r.Some? && r.value.status == BadRequest <==>
      p.channelId.None? || p.channelId.value == 0 || p.embed.None? || IsEmpty(p.embed.value)
    ensures r.Some? && r.value.status == NotFound <==>
      p.channelId.Some? && p.channelId.value != 0 && p.embed.Some? && !IsEmpty(p.embed.value) &&
      p.channelId.value !in known
    ensures r.Some? ==> r.value.status in {BadRequest, NotFound}
  {
    if p.channelId.None? || p.channelId.value == 0 || p.embed.None? || IsEmpty(p.embed.value) then
      Some(HttpError(BadRequest, "Missing 'channel_id' or 'embed' in JSON body"))
    else if p.channelId.value !in known then Some(HttpError(NotFound, "Channel not found"))
    else None
  }

  /** One embed field: name and value default and are then escaped; inline defaults to false. */
  function FieldOf(f: FieldRequest, escape: string -> string): (e: EmbedField)
    ensures f.name.None? ==> e.name == escape(UnnamedField)
    ensures f.name.Some? ==> e.name == escape(f.name.value)
    ensures f.value.None? ==> e.value == escape(EmptyValue)
    ensures f.value.Some? ==> e.value == escape(f.value.value)
    ensures e.inline <==> f.inline == Some(true)
  {
    EmbedField(escape(f.name.GetOr(UnnamedField)), escape(f.value.GetOr(EmptyValue)), f.inline.GetOr(false))
  }

  /** `embed` is the normalisation of the request `e`: title and description only when
      non-empty, and escaped; the colour defaulted; one field per requested field, in order; a
      footer only when its text is non-empty; the timestamp only when it parses. */
  predicate Normalised(e: EmbedRequest, escape: string -> string, parseIso: string -> Option<Instant>, embed: Embed) {
    && embed.title == (if Truthy(e.title) then Some(escape(e.title.value)) else None)
    && embed.description == (if Truthy(e.description) then Some(escape(e.description.value)) else None)
    && embed.color == Some(e.color.GetOr(DefaultColor))
    && |embed.fields| == |e.fields.GetOr([])|
    && (forall i :: 0 <= i < |embed.fields| ==> embed.fields[i] == FieldOf(e.fields.GetOr([])[i], escape))
    && (embed.footer.Some? <==> e.footer.Some? && Truthy(e.footer.value))
    && (embed.footer.Some? ==> embed.footer.value == escape(e.footer.value.value))
    && (embed.timestamp.Some? ==> e.timestamp.Some? && embed.timestamp == parseIso(e.timestamp.value))
    && (e.timestamp.Some? ==> embed.timestamp == parseIso(e.timestamp.value))
  }

  /** The normalisation leaves nothing open: one request has one normalised embed. */
  lemma NormalisedIsUnique(e: EmbedRequest, escape: string -> string, parseIso: string -> Option<Instant>, a: Embed, b: Embed)
    requires Normalised(e, escape, parseIso, a) && Normalised(e, escape, parseIso, b)
    ensures a == b
  {
    assert a.fields == b.fields;
  }

  /** Builds the embed the route sends, field by field. */
  method BuildEmbed(e: EmbedRequest, escape: string -> string, parseIso: string -> Option<Instant>) returns (embed: Embed)
    ensures Normalised(e, escape, parseIso, embed)
  {
    var title := if Truthy(e.title) then Some(escape(e.title.value)) else None;
    var description := if Truthy(e.description) then Some(escape(e.description.value)) else None;
    embed := Embed(title, description, Some(e.color.GetOr(DefaultColor)), [], None, None);
    var requested := e.fields.GetOr([]);
    var i := 0;
    while i < |requested|
      invariant 0 <= i <= |requested|
      invariant |embed.fields| == i
      invariant forall j :: 0 <= j < i ==> embed.fields[j] == FieldOf(requested[j], escape)
      invariant embed.title == title && embed.description == description
      invariant embed.color == Some(e.color.GetOr(DefaultColor))
      invariant embed.footer.None? && embed.timestamp.None?
    {
      embed := embed.(fields := embed.fields + [FieldOf(requested[i], escape)]);
      i := i + 1;
    }
    if e.footer.Some? {
      var text := e.footer.value;
      if Truthy(text) {
        embed := embed.(footer := Some(escape(text.value)));
      }
    }
    if e.timestamp.Some? {
      var parsed := parseIso(e.timestamp.value);
      if parsed.Some? {
        embed := embed.(timestamp := parsed);
      }
    }
  }

  /** An embed sent to a channel. */
  datatype EmbedPost = EmbedPost(channelId: Id, embed: Embed)

  /** `/send-embed`: refuse as `EmbedGuard` says, otherwise send the normalised embed. */
  method SendEmbed(p: EmbedPayload, known: set<Id>, escape: string -> string, parseIso: string -> Option<Instant>)
    returns (r: Result<EmbedPost, HttpError>)
    ensures r.Err? <==> EmbedGuard(p, known).Some?
    ensures r.Err? ==> r.error == EmbedGuard(p, known).value
    ensures r.Ok? ==> r.value.channelId == p.channelId.value && p.channelId.value in known
    ensures r.Ok? ==> Normalised(p.embed.value, escape, parseIso, r.value.embed)
  {
    var refusal := EmbedGuard(p, known);
    if refusal.Some? {
      return Err(refusal.value);
    }
    var embed := BuildEmbed(p.embed.value, escape, parseIso);
    r := Ok(EmbedPost(p.channelId.value, embed));
  }

  // ---------------------------------------------------------------- /send-message-clean, /send-message

  /** `/send-message-clean`: 404 for a channel the bot cannot see; otherwise the message,
      mention-escaped, with the upload attached when one is given. */
  function SendMessageClean(known: set<Id>, channelId: Id, message: string, image: Option<Upload>,
                            escape: string -> string): (r: Result<Post, HttpError>)
    ensures r.Err? <==> channelId !in known
    ensures r.Err? ==> r.error.status == NotFound
    ensures r.Ok? ==> r.value.channelId == channelId && r.value.file == image
    ensures r.Ok? ==> r.value.content == escape(message)
  {
    if channelId !in known then Err(HttpError(NotFound, "Channel not found"))
    else Ok(Post(channelId, escape(message), image))
  }

  /** `/send-message`: as the clean route, but the content is the sender line of bot.py's
      route, escaped as a whole. */
  function SendMessage(known: set<Id>, channelId: Id, sendBy: string, message: string, image: Option<Upload>,
                       escape: string -> string): (r: Result<Post, HttpError>)
    ensures r.Err? <==> channelId !in known
    ensures r.Err? ==> r.error.status == NotFound
    ensures r.Ok? ==> r.value.channelId == channelId && r.value.file == image
    ensures r.Ok? ==> r.value.content == escape(LegacyBot.SenderLine(sendBy, message))
  {
    if channelId !in known then Err(HttpError(NotFound, "Channel not found"))
    else Ok(Post(channelId, escape(LegacyBot.SenderLine(sendBy, message)), image))
  }
}
