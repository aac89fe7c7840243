/** The older single-file bot (bot.py): an unfiltered relay of every message to the backend,
    and two HTTP routes that act on Discord. */
module LegacyBot {
  import opened Wrappers
  import opened Http
  import opened Platform
  import Text

  /** The relay body; unlike the forum relay, the channel id stays an integer and there is
      no forum id. */
  datatype LegacyPayload = LegacyPayload(threadChannelId: Id, author: string, content: string)

  datatype Call =
    | ReadAttachment(filename: string)                        // attachment.read()
    | PostJson(payload: LegacyPayload)                        // POST /api/discord-message/ (JSON)
    | PostMultipart(payload: LegacyPayload, file: FilePart)   // POST /api/discord-message/ (multipart)
    | ReportFailure                                           // the caught exception, printed
    | ProcessCommands                                         // bot.process_commands(message)

  /** How the outside world answers, for one message. */
  datatype Backend = Backend(read: Option<seq<bv8>>, relay: Response<()>)

  /** The calls one message causes; `raised` when the attachment read raises (it is outside
      the `try`). */
  datatype Run = Run(calls: seq<Call>, raised: bool)

  /** The relay is inside a `try` with `raise_for_status()`: a transport failure or a non-2xx
      answer is printed and swallowed. */
  function ReportFor(relay: Response<()>): seq<Call> {
    if relay.NetworkError? || !IsSuccess(relay.status) then [ReportFailure] else []
  }

  /** The relay POST, the report of its failure, and `process_commands`. */
  function Relay(post: Call, relay: Response<()>): seq<Call> {
    [post] + ReportFor(relay) + [ProcessCommands]
  }

  /** bot.py's `on_message`. */
  function Handle(botId: Id, m: Message, b: Backend): Run {
    if m.author.id == botId then Run([], false)
    else
      var payload := LegacyPayload(m.channel.id, m.author.name, m.content);
      if m.attachments == [] then Run(Relay(PostJson(payload), b.relay), false)
      else
        var first := m.attachments[0];
        if b.read.None? then Run([ReadAttachment(first.filename)], true)
        else
          var file := FilePart("image", first.filename, b.read.value);
          Run([ReadAttachment(first.filename)] + Relay(PostMultipart(payload, file), b.relay), false)
  }

  predicate IsPost(c: Call) {
    c.PostJson? || c.PostMultipart?
  }

  /** The number of relay POSTs in a trace. */
  function PostCount(t: seq<Call>): nat {
    if t == [] then 0 else (if IsPost(t[0]) then 1 else 0) + PostCount(t[1..])
  }

  lemma {:induction false} PostCountAppend(a: seq<Call>, b: seq<Call>)
    ensures PostCount(a + b) == PostCount(a) + PostCount(b)
  {
    if a == [] {
      assert a + b == b;
    } else {
      assert (a + b)[0] == a[0];
      assert (a + b)[1..] == a[1..] + b;
      PostCountAppend(a[1..], b);
    }
  }

  lemma {:induction false} PostCountNone(t: seq<Call>)
    requires forall i :: 0 <= i < |t| ==> !IsPost(t[i])
    ensures PostCount(t) == 0
  {
    if t != [] {
      PostCountNone(t[1..]);
    }
  }

  /** The relay tail holds one POST and ends with `process_commands`. */
  lemma RelayHasOnePost(post: Call, relay: Response<()>)
    requires IsPost(post)
    ensures PostCount(Relay(post, relay)) == 1
    ensures var t := Relay(post, relay); t[|t| - 1] == ProcessCommands
  {
    var t := Relay(post, relay);
    assert t == [post] + t[1..];
    assert forall i :: 0 <= i < |t[1..]| ==> !IsPost(t[1..][i]);
    PostCountNone(t[1..]);
    PostCountAppend([post], t[1..]);
  }

  /** Every message not written by the bot is relayed, whatever its channel: exactly one
      POST, and then `process_commands`. Only a failed attachment read stops it, before the
      POST. The bot's own messages cause nothing. */
  lemma {:induction false} EveryMessageRelayedOnce(botId: Id, m: Message, b: Backend)
    ensures m.author.id == botId ==> Handle(botId, m, b) == Run([], false)
    ensures var run := Handle(botId, m, b);
      m.author.id != botId ==>
        && (run.raised <==> m.attachments != [] && b.read.None?)
        && PostCount(run.calls) == (if run.raised then 0 else 1)
        && (!run.raised ==> run.calls[|run.calls| - 1] == ProcessCommands)
  {
    var run := Handle(botId, m, b);
    if m.author.id != botId {
      var payload := LegacyPayload(m.channel.id, m.author.name, m.content);
      if m.attachments == [] {
        RelayHasOnePost(PostJson(payload), b.relay);
      } else if b.read.None? {
        PostCountNone(run.calls);
      } else {
        var first := m.attachments[0];
        var post := PostMultipart(payload, FilePart("image", first.filename, b.read.value));
        var read := [ReadAttachment(first.filename)];
        RelayHasOnePost(post, b.relay);
        PostCountNone(read);
        PostCountAppend(read, Relay(post, b.relay));
      }
    }
  }

  /** The POST is addressed by the integer channel id and carries `str(author)` and the text;
      it is multipart with the first attachment under `image` exactly when there is an
      attachment, JSON otherwise. */
  lemma RelayShape(botId: Id, m: Message, b: Backend)
    ensures var calls := Handle(botId, m, b).calls;
      forall c :: c in calls && IsPost(c) ==>
        && c.payload == LegacyPayload(m.channel.id, m.author.name, m.content)
        && (c.PostMultipart? <==> m.attachments != [])
        && (c.PostMultipart? ==> b.read.Some? && c.file == FilePart("image", m.attachments[0].filename, b.read.value))
  {
  }

  /** A relay that fails in transport or is answered with a non-2xx status is reported, and
      `process_commands` is still reached. */
  lemma RelayFailureReported(botId: Id, m: Message, b: Backend)
    requires m.author.id != botId && !Handle(botId, m, b).raised
    ensures var calls := Handle(botId, m, b).calls;
      && (ReportFailure in calls <==> b.relay.NetworkError? || !IsSuccess(b.relay.status))
      && calls[|calls| - 1] == ProcessCommands
  {
  }

  /** `f"**{send_by}:** {message}"`: the sender in bold, then the message unchanged. */
  function SenderLine(sendBy: string, message: string): (line: string)
    ensures Text.StartsWith(line, "**" + sendBy + ":** ")
    ensures |line| == |sendBy| + 6 + |message| && line[|line| - |message|..] == message
  {
    "**" + sendBy + ":** " + message
  }

  /** The `/send-message` route: 404 for a channel the bot cannot see; otherwise the
      sender line is posted as it is (no mention escaping), with the upload when one is given. */
  function SendMessage(known: set<Id>, channelId: Id, sendBy: string, message: string, image: Option<Upload>): (r: Result<Post, HttpError>)
    ensures r.Err? <==> channelId !in known
    ensures r.Err? ==> r.error.status == NotFound
    ensures r.Ok? ==> r.value.channelId == channelId && r.value.file == image
    ensures r.Ok? ==> r.value.content == SenderLine(sendBy, message)
  {
    if channelId !in known then Err(HttpError(NotFound, "Channel not found"))
    else Ok(Post(channelId, SenderLine(sendBy, message), image))
  }

  /** A text channel the bot asks Discord to create. */
  datatype ChannelCreation = ChannelCreation(guildId: Id, categoryId: Id, name: string)

  /** The `/create-channel` route: 404 when the configured guild or the configured category
      is missing; otherwise a text channel named after the request's title in that category.
      Any channel kind found under the category id is accepted. */
  function CreateChannel(guild: Option<Guild>, categoryId: Id, title: string): (r: Result<ChannelCreation, HttpError>)
    ensures r.Err? <==> guild.None? || categoryId !in guild.value.channels
    ensures r.Err? ==> r.error.status == NotFound
    ensures r.Ok? ==> r.value == ChannelCreation(guild.value.id, categoryId, title)
  {
    if guild.None? then Err(HttpError(NotFound, "Guild not found"))
    else if GetChannel(guild.value, categoryId).None? then Err(HttpError(NotFound, "Category not found"))
    else Ok(ChannelCreation(guild.value.id, categoryId, title))
  }

  /** The bot of bot.py: its readiness event and the trace of its relay's calls. */
  class Bot {
    const botUserId: Id
    var ready: bool
    var calls: seq<Call>

    constructor (botUserId: Id)
      ensures this.botUserId == botUserId && !ready && calls == []
    {
      this.botUserId := botUserId;
      ready := false;
      calls := [];
    }

    /** `on_ready`: sets `bot_ready`, which the routes wait on. */
    method OnReady()
      modifies this
      ensures ready && calls == old(calls)
    {
      ready := true;
    }

    /** `on_message`: relay to the backend, then process commands. */
    method OnMessage(m: Message, b: Backend) returns (raised: bool)
      modifies this
      ensures calls == old(calls) + Handle(botUserId, m, b).calls
      ensures raised == Handle(botUserId, m, b).raised
      ensures ready == old(ready)
    {
      if m.author.id == botUserId {
        return false;
      }
      var payload := LegacyPayload(m.channel.id, m.author.name, m.content);
      var file: Option<FilePart> := None;
      if m.attachments != [] {
        var first := m.attachments[0];
        calls := calls + [ReadAttachment(first.filename)];
        if b.read.None? {
          return true;
        }
        file := Some(FilePart("image", first.filename, b.read.value));
      }
      if file.Some? {
        calls := calls + [PostMultipart(payload, file.value)];
      } else {
        calls := calls + [PostJson(payload)];
      }
      if b.relay.NetworkError? || !IsSuccess(b.relay.status) {
        calls := calls + [ReportFailure];
      }
      calls := calls + [ProcessCommands];
      raised := false;
    }
  }
}
