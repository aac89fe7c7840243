/** The forum relay (cogs/forum.py): every message the bot sees in an allow-listed forum
    thread or allow-listed text channel is mirrored to the web backend. The routing decision
    is a pure function; the handler is a method that appends the calls it makes, in order,
    to the cog's call trace. The backend and Discord are abstract: the status or failure of
    each exchange is an input. */
module Forum {
  import opened Wrappers
  import opened Http
  import opened Platform
  import Decimal

  /** The forums and channels whose messages are relayed. */
  const AllowedForumIds: seq<Id> := [
    1399863670581891222,  // Forum forum
    1397600257398800496,  // V2 Bugs forum
    1374761374684676147,  // V2 Questions forum
    1349105620669698048,  // V2 Suggestions forum
    1351659604614058109,  // Company Updates
    1348465750926430249   // General
  ]

  /** Where a message goes: a thread of an allow-listed forum, an allow-listed text
      channel, or nowhere. A relayed route keeps the channel's name, the thread's title. */
  datatype Route =
    | ForumThread(threadId: Id, forumId: Id, title: string)
    | AllowedTextChannel(channelId: Id, title: string)
    | Ignore

  /** The `if isinstance(...)` chain that sets `process_message`, `thread_id` and `forum_id`. */
  function Classify(ch: Channel): (r: Route)
    ensures r.ForumThread? <==> ch.Thread? && ch.parent.Some? && ch.parent.value in AllowedForumIds
    ensures r.AllowedTextChannel? <==> ch.TextChannel? && ch.id in AllowedForumIds
    ensures r.ForumThread? ==> r.threadId == ch.id && r.forumId == ch.parent.value
    ensures r.AllowedTextChannel? ==> r.channelId == ch.id
    ensures !r.Ignore? ==> r.title == ch.name
  {
    match ch
    case Thread(id, name, parent) =>
      if parent.Some? && parent.value in AllowedForumIds then ForumThread(id, parent.value, name) else Ignore
    case TextChannel(id, name) =>
      if id in AllowedForumIds then AllowedTextChannel(id, name) else Ignore
    case OtherChannel(_, _) => Ignore
    case NamelessChannel(_) => Ignore
  }

  /** `thread_id`: the decimal text of the channel the message is in. */
  function ThreadKey(r: Route): string
    requires !r.Ignore?
  {
    match r
    case ForumThread(t, _, _) => Decimal.Show(t)
    case AllowedTextChannel(c, _) => Decimal.Show(c)
  }

  /** `forum_id`: the parent forum's id for a thread, the channel's own id for a text channel. */
  function ForumKey(r: Route): string
    requires !r.Ignore?
  {
    match r
    case ForumThread(_, f, _) => Decimal.Show(f)
    case AllowedTextChannel(c, _) => Decimal.Show(c)
  }

  datatype CreatePayload = CreatePayload(
    discordChannelId: string, forumId: string, title: string, createdBy: string, firstPost: string)

  datatype RelayPayload = RelayPayload(threadChannelId: string, forumId: string, author: string, content: string)

  /** What the handler does to the outside world, in order. */
  datatype Call =
    | CheckThread(threadId: string)                       // GET  /api/check-thread/{id}/
    | CreateThread(create: CreatePayload)                 // POST /api/create-thread/ (JSON)
    | ReadAttachment(filename: string)                    // attachment.read()
    | RelayJson(payload: RelayPayload)                    // POST /api/discord-message/ (JSON)
    | RelayMultipart(payload: RelayPayload, file: FilePart) // POST /api/discord-message/ (multipart)
    | ReportRelayFailure                                  // the relay's exception, printed
    | ProcessCommands                                     // bot.process_commands(message)

  /** The kinds of call the properties below count. */
  datatype Kind = CreateKind | RelayKind | BackendKind

  predicate Is(k: Kind, c: Call) {
    match k
    case CreateKind => c.CreateThread?
    case RelayKind => c.RelayJson? || c.RelayMultipart?
    case BackendKind => c.CheckThread? || c.CreateThread? || c.RelayJson? || c.RelayMultipart?
  }

  /** The step whose exception escapes the handler: reading `channel.name` for the log line
      (an AttributeError in a channel without a name), the check, the create, or the
      attachment read. */
  datatype Stage = NameStage | CheckStage | CreateStage | ReadStage

  /** The calls one message causes, and the step that raised, if any. */
  datatype Run = Run(calls: seq<Call>, raised: Option<Stage>)

  /** How the outside world answers, for one message. */
  datatype Backend = Backend(
    check: Response<()>,         // the check-thread GET
    create: Response<()>,        // the create-thread POST (its reply is never inspected)
    read: Option<seq<bv8>>,     // the first attachment's bytes, or None when reading raises
    relay: Response<()>)         // the discord-message POST (its status is never inspected)

  function ReportFor(relay: Response<()>): seq<Call> {
    if relay.NetworkError? then [ReportRelayFailure] else []
  }

  /** `ForumCog.on_message`, as the sequence of calls it makes. */
  function Handle(botId: Id, m: Message, b: Backend): Run {
    if m.author.id == botId then Run([], None)
    else if m.channel.NamelessChannel? then Run([], Some(NameStage))
    else
      var route := Classify(m.channel);
      if route.Ignore? then Run([ProcessCommands], None) else RelayRun(route, m, b)
  }

  /** The create-thread POST that follows a 404 from the check, if any. */
  function CreateCalls(route: Route, m: Message, b: Backend): seq<Call>
    requires !route.Ignore?
  {
    if b.check.Replied? && b.check.status == NotFound
    then [CreateThread(CreatePayload(ThreadKey(route), ForumKey(route), route.title, m.author.name, m.content))]
    else []
  }

  /** Check, create on 404, then deliver. */
  function RelayRun(route: Route, m: Message, b: Backend): Run
    requires !route.Ignore?
  {
    var check := [CheckThread(ThreadKey(route))];
    if b.check.NetworkError? then Run(check, Some(CheckStage))
    else
      var create := CreateCalls(route, m, b);
      if create != [] && b.create.NetworkError? then Run(check + create, Some(CreateStage))
      else
        var deliver := Deliver(route, m, b);
        Run(check + create + deliver.calls, deliver.raised)
  }

  /** Read the first attachment, if any, post the relay, report its failure, process commands. */
  function Deliver(route: Route, m: Message, b: Backend): Run
    requires !route.Ignore?
  {
    var payload := RelayPayload(ThreadKey(route), ForumKey(route), m.author.name, m.content);
    if m.attachments == [] then
      Run([RelayJson(payload)] + ReportFor(b.relay) + [ProcessCommands], None)
    else
      var first := m.attachments[0];
      if b.read.None? then Run([ReadAttachment(first.filename)], Some(ReadStage))
      else
        var file := FilePart("image", first.filename, b.read.value);
        Run([ReadAttachment(first.filename), RelayMultipart(payload, file)] + ReportFor(b.relay) + [ProcessCommands], None)
  }

  function Count(t: seq<Call>, k: Kind): nat {
    if t == [] then 0 else (if Is(k, t[0]) then 1 else 0) + Count(t[1..], k)
  }

  lemma {:induction false} CountAppend(a: seq<Call>, b: seq<Call>, k: Kind)
    ensures Count(a + b, k) == Count(a, k) + Count(b, k)
  {
    if a == [] {
      assert a + b == b;
    } else {
      assert (a + b)[0] == a[0];
      assert (a + b)[1..] == a[1..] + b;
      CountAppend(a[1..], b, k);
    }
  }

  lemma {:induction false} CountNone(t: seq<Call>, k: Kind)
    requires forall i :: 0 <= i < |t| ==> !Is(k, t[i])
    ensures Count(t, k) == 0
  {
    if t != [] {
      CountNone(t[1..], k);
    }
  }

  lemma {:induction false} CountSingle(c: Call, k: Kind)
    ensures Count([c], k) == if Is(k, c) then 1 else 0
  {
    assert [c][1..] == [];
  }

  /** Delivery makes no create call and exactly one relay unless the attachment read raises;
      it ends with `process_commands` when it does not raise. */
  lemma DeliverCounts(route: Route, m: Message, b: Backend)
    requires !route.Ignore?
    ensures var d := Deliver(route, m, b);
      && Count(d.calls, CreateKind) == 0
      && Count(d.calls, RelayKind) == (if d.raised.None? then 1 else 0)
      && (d.raised.None? ==> d.calls[|d.calls| - 1] == ProcessCommands)
      && (d.raised.Some? ==> ProcessCommands !in d.calls)
  {
    var d := Deliver(route, m, b);
    CountNone(d.calls, CreateKind);
    if d.raised.None? {
      var k := if m.attachments == [] then 0 else 1;
      var pre := d.calls[..k];
      var post := d.calls[k + 1..];
      assert d.calls == pre + [d.calls[k]] + post;
      CountNone(pre, RelayKind);
      CountNone(post, RelayKind);
      CountSingle(d.calls[k], RelayKind);
      CountAppend(pre + [d.calls[k]], post, RelayKind);
      CountAppend(pre, [d.calls[k]], RelayKind);
    } else {
      CountNone(d.calls, RelayKind);
    }
  }

  /** A message is relayed at all exactly when it is not the bot's own and its channel is
      allow-listed; otherwise no backend call is made. Only the bot's own messages and
      messages in a channel without a name (where the log line raises) skip
      `process_commands`. */
  lemma {:induction false} BackendCalledOnlyWhenRouted(botId: Id, m: Message, b: Backend)
    ensures Count(Handle(botId, m, b).calls, BackendKind) > 0 <==> m.author.id != botId && !Classify(m.channel).Ignore?
    ensures m.author.id == botId ==> Handle(botId, m, b) == Run([], None)
    ensures m.author.id != botId && m.channel.NamelessChannel? ==> Handle(botId, m, b) == Run([], Some(NameStage))
    ensures m.author.id != botId && !m.channel.NamelessChannel? && Classify(m.channel).Ignore? ==>
      Handle(botId, m, b) == Run([ProcessCommands], None)
  {
    if m.author.id == botId {
      assert Handle(botId, m, b) == Run([], None);
    } else if m.channel.NamelessChannel? {
      assert Handle(botId, m, b) == Run([], Some(NameStage));
    } else if Classify(m.channel).Ignore? {
      assert Handle(botId, m, b) == Run([ProcessCommands], None);
      CountSingle(ProcessCommands, BackendKind);
    } else {
      var route := Classify(m.channel);
      var calls := RelayRun(route, m, b).calls;
      assert Handle(botId, m, b).calls == calls;
      CheckComesFirst(route, m, b);
      CountLeading(calls, BackendKind);
    }
  }

  lemma CountLeading(t: seq<Call>, k: Kind)
    requires |t| > 0 && Is(k, t[0])
    ensures Count(t, k) > 0
  {
  }

  lemma CheckComesFirst(route: Route, m: Message, b: Backend)
    requires !route.Ignore?
    ensures var calls := RelayRun(route, m, b).calls;
      |calls| > 0 && calls[0] == CheckThread(ThreadKey(route))
  {
  }

  /** The check-thread GET comes first, for the channel's own key; a create-thread POST
      follows exactly when that GET answered 404, right after it, with the thread's metadata. */
  lemma {:induction false} CheckThenCreateOn404(botId: Id, m: Message, b: Backend)
    requires m.author.id != botId && !Classify(m.channel).Ignore?
    ensures var calls := Handle(botId, m, b).calls;
      && |calls| > 0
      && calls[0] == CheckThread(ThreadKey(Classify(m.channel)))
      && Count(calls, CreateKind) == (if b.check.Replied? && b.check.status == NotFound then 1 else 0)
    ensures var calls := Handle(botId, m, b).calls;
      forall i :: 0 <= i < |calls| && calls[i].CreateThread? ==>
        && i == 1
        && calls[i].create == CreatePayload(ThreadKey(Classify(m.channel)), ForumKey(Classify(m.channel)),
                                            m.channel.name, m.author.name, m.content)
  {
    var route := Classify(m.channel);
    assert Handle(botId, m, b) == RelayRun(route, m, b);
    CheckComesFirst(route, m, b);
    CreateCountOn404(route, m, b);
    CreateOnlySecond(route, m, b);
  }

  /** The run is the check, the create calls, and a tail without creates. */
  lemma RunSplits(route: Route, m: Message, b: Backend) returns (tail: seq<Call>)
    requires !route.Ignore? && b.check.Replied?
    ensures RelayRun(route, m, b).calls == [CheckThread(ThreadKey(route))] + CreateCalls(route, m, b) + tail
    ensures Count(tail, CreateKind) == 0
  {
    var create := CreateCalls(route, m, b);
    if create != [] && b.create.NetworkError? {
      tail := [];
    } else {
      tail := Deliver(route, m, b).calls;
      DeliverCounts(route, m, b);
    }
  }

  lemma {:induction false} CreateCountOn404(route: Route, m: Message, b: Backend)
    requires !route.Ignore?
    ensures Count(RelayRun(route, m, b).calls, CreateKind) == (if b.check.Replied? && b.check.status == NotFound then 1 else 0)
  {
    var check := [CheckThread(ThreadKey(route))];
    CountSingle(check[0], CreateKind);
    if b.check.Replied? {
      var create := CreateCalls(route, m, b);
      if create != [] {
        CountSingle(create[0], CreateKind);
      } else {
        CountNone(create, CreateKind);
      }
      var tail := RunSplits(route, m, b);
      CountAppend(check + create, tail, CreateKind);
      CountAppend(check, create, CreateKind);
    }
  }

  lemma {:induction false} CreateOnlySecond(route: Route, m: Message, b: Backend)
    requires !route.Ignore?
    ensures var calls := RelayRun(route, m, b).calls;
      forall i :: 0 <= i < |calls| && calls[i].CreateThread? ==>
        && i == 1
        && calls[i].create == CreatePayload(ThreadKey(route), ForumKey(route), route.title, m.author.name, m.content)
  {
    if b.check.Replied? {
      var calls := RelayRun(route, m, b).calls;
      var head := [CheckThread(ThreadKey(route))] + CreateCalls(route, m, b);
      var tail := RunSplits(route, m, b);
      assert calls == head + tail;
      forall i | 0 <= i < |calls| && calls[i].CreateThread?
        ensures i == 1
      {
        if i >= |head| {
          assert calls[i] == tail[i - |head|];
          CountZeroAt(tail, CreateKind, i - |head|);
        }
      }
    }
  }

  lemma {:induction false} CountZeroAt(t: seq<Call>, k: Kind, i: nat)
    requires Count(t, k) == 0 && i < |t|
    ensures !Is(k, t[i])
  {
    if i > 0 {
      CountZeroAt(t[1..], k, i - 1);
    }
  }

  /** Where the handler stops: at the check, at the create, or wherever delivery stops. */
  lemma RaisedStage(route: Route, m: Message, b: Backend)
    requires !route.Ignore?
    ensures RelayRun(route, m, b).raised.Some? <==>
        || b.check.NetworkError?
        || (b.check.status == NotFound && b.create.NetworkError?)
        || (m.attachments != [] && b.read.None?)
  {
  }

  /** When the check or the create raises, nothing is relayed and commands are not processed. */
  lemma {:induction false} EarlyRaiseRelaysNothing(route: Route, m: Message, b: Backend)
    requires !route.Ignore?
    requires b.check.NetworkError? || (CreateCalls(route, m, b) != [] && b.create.NetworkError?)
    ensures var run := RelayRun(route, m, b);
      Count(run.calls, RelayKind) == 0 && ProcessCommands !in run.calls
  {
    var run := RelayRun(route, m, b);
    assert |run.calls| <= 2;
    assert forall i :: 0 <= i < |run.calls| ==> run.calls[i].CheckThread? || run.calls[i].CreateThread?;
    CountNone(run.calls, RelayKind);
  }

  /** Otherwise the run is the check, the create if any, and the delivery. */
  lemma {:induction false} LateRun(route: Route, m: Message, b: Backend)
    requires !route.Ignore?
    requires !(b.check.NetworkError? || (CreateCalls(route, m, b) != [] && b.create.NetworkError?))
    ensures var run := RelayRun(route, m, b);
      && run.calls == [CheckThread(ThreadKey(route))] + CreateCalls(route, m, b) + Deliver(route, m, b).calls
      && run.raised == Deliver(route, m, b).raised
  {
  }

  /** After a relay-eligible message the handler raises exactly when the check, the create
      or the attachment read raises; then nothing is relayed and `process_commands` is not
      reached. Otherwise exactly one relay POST is made, after any create, and
      `process_commands` runs last. */
  lemma {:induction false} OneRelayUnlessRaised(route: Route, m: Message, b: Backend)
    requires !route.Ignore?
    ensures var run := RelayRun(route, m, b);
      run.raised.Some? <==>
        || b.check.NetworkError?
        || (b.check.status == NotFound && b.create.NetworkError?)
        || (m.attachments != [] && b.read.None?)
    ensures var run := RelayRun(route, m, b);
      run.raised.Some? ==> Count(run.calls, RelayKind) == 0 && ProcessCommands !in run.calls
    ensures var run := RelayRun(route, m, b);
      run.raised.None? ==>
        && Count(run.calls, RelayKind) == 1
        && run.calls[|run.calls| - 1] == ProcessCommands
        && (forall i, j :: 0 <= i < |run.calls| && 0 <= j < |run.calls| && run.calls[i].CreateThread? && Is(RelayKind, run.calls[j]) ==> i < j)
  {
    var run := RelayRun(route, m, b);
    RaisedStage(route, m, b);
    var create := CreateCalls(route, m, b);
    if b.check.NetworkError? || (create != [] && b.create.NetworkError?) {
      EarlyRaiseRelaysNothing(route, m, b);
    } else {
      LateCounts(route, m, b);
      RelayFollowsCreate(route, m, b);
    }
  }

  /** Past the check and the create, the run relays as its delivery does. */
  lemma LateCounts(route: Route, m: Message, b: Backend)
    requires !route.Ignore?
    requires !(b.check.NetworkError? || (CreateCalls(route, m, b) != [] && b.create.NetworkError?))
    ensures var run := RelayRun(route, m, b);
      && Count(run.calls, RelayKind) == (if run.raised.None? then 1 else 0)
      && (run.raised.None? ==> run.calls[|run.calls| - 1] == ProcessCommands)
      && (run.raised.Some? ==> ProcessCommands !in run.calls)
  {
    LateRun(route, m, b);
    var head := [CheckThread(ThreadKey(route))] + CreateCalls(route, m, b);
    var d := Deliver(route, m, b);
    DeliverCounts(route, m, b);
    assert forall i :: 0 <= i < |head| ==> head[i].CheckThread? || head[i].CreateThread?;
    CountNone(head, RelayKind);
    CountAppend(head, d.calls, RelayKind);
  }

  lemma RelayFollowsCreate(route: Route, m: Message, b: Backend)
    requires !route.Ignore?
    ensures var calls := RelayRun(route, m, b).calls;
      forall i, j :: 0 <= i < |calls| && 0 <= j < |calls| && calls[i].CreateThread? && Is(RelayKind, calls[j]) ==> i < j
  {
    var create := CreateCalls(route, m, b);
    if !(b.check.NetworkError? || (create != [] && b.create.NetworkError?)) {
      LateRun(route, m, b);
      var head := [CheckThread(ThreadKey(route))] + create;
      var d := Deliver(route, m, b).calls;
      var calls := head + d;
      assert forall j :: 0 <= j < |calls| && Is(RelayKind, calls[j]) ==> j >= |head|;
      assert forall i :: 0 <= i < |calls| && calls[i].CreateThread? ==> i < |head|;
    }
  }

  /** The single relay POST carries the thread and forum keys, `str(author)` and the text;
      it is multipart exactly when the message has an attachment, and then carries only the
      first attachment, under the field `image`. */
  lemma RelayShape(route: Route, m: Message, b: Backend)
    requires !route.Ignore?
    ensures var calls := RelayRun(route, m, b).calls;
      forall c :: c in calls && Is(RelayKind, c) ==>
        && c.payload == RelayPayload(ThreadKey(route), ForumKey(route), m.author.name, m.content)
        && (c.RelayMultipart? <==> m.attachments != [])
        && (c.RelayMultipart? ==> b.read.Some? && c.file == FilePart("image", m.attachments[0].filename, b.read.value))
  {
    var create := CreateCalls(route, m, b);
    if !(b.check.NetworkError? || (create != [] && b.create.NetworkError?)) {
      LateRun(route, m, b);
    }
  }

  /** A failed relay POST is reported and swallowed: `process_commands` still runs. A relay
      that is answered, whatever its status, is not reported. */
  lemma RelayFailureIsSwallowed(botId: Id, m: Message, b: Backend)
    requires m.author.id != botId && !Classify(m.channel).Ignore?
    requires Handle(botId, m, b).raised.None?
    ensures var calls := Handle(botId, m, b).calls;
      (ReportRelayFailure in calls <==> b.relay.NetworkError?) && calls[|calls| - 1] == ProcessCommands
  {
    var route := Classify(m.channel);
    assert Handle(botId, m, b) == RelayRun(route, m, b);
    RaisedStage(route, m, b);
    LateRun(route, m, b);
    var head := [CheckThread(ThreadKey(route))] + CreateCalls(route, m, b);
    assert ReportRelayFailure !in head;
    DeliverReports(route, m, b);
  }

  /** A delivery that does not raise reports exactly a failed relay, and ends with
      `process_commands`. */
  lemma DeliverReports(route: Route, m: Message, b: Backend)
    requires !route.Ignore? && Deliver(route, m, b).raised.None?
    ensures var d := Deliver(route, m, b).calls;
      (ReportRelayFailure in d <==> b.relay.NetworkError?) && d[|d| - 1] == ProcessCommands
  {
  }

  /** The keys identify the channel: `int(thread_id)` is the channel's id, `int(forum_id)`
      is allow-listed, and two channels share a thread key only if they are the same channel. */
  lemma KeysIdentifyChannel(ch: Channel, other: Channel)
    requires !Classify(ch).Ignore?
    ensures Decimal.Value(ThreadKey(Classify(ch))) == ch.id
    ensures Decimal.Value(ForumKey(Classify(ch))) in AllowedForumIds
    ensures !Classify(other).Ignore? && ThreadKey(Classify(ch)) == ThreadKey(Classify(other)) ==> ch.id == other.id
  {
    var r := Classify(ch);
    Decimal.ValueOfShow(ch.id);
    Decimal.ShowInjective(ch.id, other.id);
    match r
    case ForumThread(_, f, _) => Decimal.ValueOfShow(f);
    case AllowedTextChannel(_, _) =>
  }

  /** A backend that answers the check truthfully from the threads it has recorded. */
  function HonestCheck(known: set<string>, key: string): Response<()> {
    if key in known then Replied(200, "", ()) else Replied(NotFound, "", ())
  }

  /** The threads such a backend knows after receiving a trace's create calls. */
  function Recorded(known: set<string>, calls: seq<Call>): set<string> {
    known + set c | c in calls && c.CreateThread? :: c.create.discordChannelId
  }

  /** Check-then-create is idempotent across two messages in one channel handled one after
      the other: against a backend that records each create it receives, at most one
      create is issued, and the second message issues none. */
  lemma SecondMessageDoesNotCreate(botId: Id, m1: Message, b1: Backend, m2: Message, b2: Backend, known: set<string>)
    requires m1.author.id != botId && m2.author.id != botId
    requires !Classify(m1.channel).Ignore? && !Classify(m2.channel).Ignore? && m1.channel.id == m2.channel.id
    requires b1.check == HonestCheck(known, ThreadKey(Classify(m1.channel))) && b1.create.Replied?
    requires b2.check == HonestCheck(Recorded(known, Handle(botId, m1, b1).calls), ThreadKey(Classify(m2.channel)))
    ensures Count(Handle(botId, m2, b2).calls, CreateKind) == 0
    ensures Count(Handle(botId, m1, b1).calls + Handle(botId, m2, b2).calls, CreateKind) <= 1
  {
    var key := ThreadKey(Classify(m1.channel));
    assert ThreadKey(Classify(m2.channel)) == key;
    var calls1 := Handle(botId, m1, b1).calls;
    CheckThenCreateOn404(botId, m1, b1);
    CheckThenCreateOn404(botId, m2, b2);
    if key !in known {
      assert calls1[1].CreateThread? && calls1[1].create.discordChannelId == key;
    }
    assert key in Recorded(known, calls1);
    CountAppend(calls1, Handle(botId, m2, b2).calls, CreateKind);
  }

  datatype Config = Config(guildId: Id, forumChannelId: Id)

  /** The extension's `setup`: it refuses, with a ValueError, unless the bot carries all of
      GUILD_ID, FORUM_CHANNEL_ID and bot_ready. */
  function Setup(guildId: Option<Id>, forumChannelId: Option<Id>, hasReadyEvent: bool): (r: Result<Config, string>)
    ensures r.Ok? <==> guildId.Some? && forumChannelId.Some? && hasReadyEvent
    ensures r.Ok? ==> r.value.guildId == guildId.value && r.value.forumChannelId == forumChannelId.value
  {
    if guildId.None? || forumChannelId.None? || !hasReadyEvent
    then Err("Bot missing required attributes: GUILD_ID, FORUM_CHANNEL_ID, or bot_ready")
    else Ok(Config(guildId.value, forumChannelId.value))
  }

  /** `ForumCog`: its configuration, the shared readiness event and the trace of calls its
      message handler has made. */
  class ForumCog {
    const botUserId: Id
    const config: Config
    var ready: bool
    var calls: seq<Call>

    constructor (botUserId: Id, config: Config)
      ensures this.botUserId == botUserId && this.config == config
      ensures !ready && calls == []
    {
      this.botUserId := botUserId;
      this.config := config;
      ready := false;
      calls := [];
    }

    /** `on_ready`: sets the readiness event the HTTP routes wait on. */
    method OnReady()
      modifies this
      ensures ready && calls == old(calls)
    {
      ready := true;
    }

    /** `on_message`: log the channel's name (raising when it has none), classify, check,
        create on 404, read the first attachment, relay once, then hand the message to the
        command processor. */
    method OnMessage(m: Message, b: Backend) returns (raised: Option<Stage>)
      modifies this
      ensures calls == old(calls) + Handle(botUserId, m, b).calls
      ensures raised == Handle(botUserId, m, b).raised
      ensures ready == old(ready)
    {
      if m.author.id == botUserId {
        return None;
      }
      if m.channel.NamelessChannel? {
        return Some(NameStage);
      }
      var route := Classify(m.channel);
      if route.Ignore? {
        calls := calls + [ProcessCommands];
        return None;
      }
      raised := RelayMessage(route, m, b);
    }

    /** The `if process_message:` block and the `process_commands` call after it. */
    method RelayMessage(route: Route, m: Message, b: Backend) returns (raised: Option<Stage>)
      requires !route.Ignore?
      modifies this
      ensures calls == old(calls) + RelayRun(route, m, b).calls
      ensures raised == RelayRun(route, m, b).raised
      ensures ready == old(ready)
    {
      calls := calls + [CheckThread(ThreadKey(route))];
      if b.check.NetworkError? {
        return Some(CheckStage);
      }
      if b.check.status == NotFound {
        calls := calls + [CreateThread(CreatePayload(ThreadKey(route), ForumKey(route), route.title, m.author.name, m.content))];
        if b.create.NetworkError? {
          return Some(CreateStage);
        }
      }
      LateRun(route, m, b);
      ghost var before := calls;
      assert before == old(calls) + [CheckThread(ThreadKey(route))] + CreateCalls(route, m, b);
      raised := DeliverMessage(route, m, b);
    }

    /** Read the first attachment, post the relay (multipart with it, JSON without), report a
        failed post, and process commands. */
    method DeliverMessage(route: Route, m: Message, b: Backend) returns (raised: Option<Stage>)
      requires !route.Ignore?
      modifies this
      ensures calls == old(calls) + Deliver(route, m, b).calls
      ensures raised == Deliver(route, m, b).raised
      ensures ready == old(ready)
    {
      var payload := RelayPayload(ThreadKey(route), ForumKey(route), m.author.name, m.content);
      var file: Option<FilePart> := None;
      if m.attachments != [] {
        var first := m.attachments[0];
        calls := calls + [ReadAttachment(first.filename)];
        if b.read.None? {
          return Some(ReadStage);
        }
        file := Some(FilePart("image", first.filename, b.read.value));
      }
      if file.Some? {
        calls := calls + [RelayMultipart(payload, file.value)];
      } else {
        calls := calls + [RelayJson(payload)];
      }
      if b.relay.NetworkError? {
        calls := calls + [ReportRelayFailure];
      }
      calls := calls + [ProcessCommands];
      raised := None;
    }
  }
}
