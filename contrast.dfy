/** How the variants relate: the allow-listed forum relay against the older unfiltered relay of
    bot.py, and the routes of cogs/messaging.py against the routes of bot.py. */
module Contrast {
  import opened Wrappers
  import opened Platform
  import Decimal
  import Forum
  import LegacyBot
  import Messaging

  /** The forum relay posts nothing the older relay would not post: whenever the forum cog
      relays a message, bot.py relays it too, given the same attachment bytes. */
  lemma ForumRelaysOnlyWhatLegacyRelays(botId: Id, m: Message, fb: Forum.Backend, lb: LegacyBot.Backend)
    requires lb.read == fb.read
    ensures Forum.Count(Forum.Handle(botId, m, fb).calls, Forum.RelayKind) > 0 ==>
      LegacyBot.PostCount(LegacyBot.Handle(botId, m, lb).calls) == 1
  {
    var calls := Forum.Handle(botId, m, fb).calls;
    if Forum.Count(calls, Forum.RelayKind) > 0 {
      Forum.BackendCalledOnlyWhenRouted(botId, m, fb);
      if m.author.id == botId || Forum.Classify(m.channel).Ignore? {
        Forum.CountSingle(Forum.ProcessCommands, Forum.RelayKind);
        Forum.CountNone([], Forum.RelayKind);
        assert false;
      }
      Forum.OneRelayUnlessRaised(Forum.Classify(m.channel), m, fb);
      LegacyBot.EveryMessageRelayedOnce(botId, m, lb);
    }
  }

  /** The converse fails: a message in a channel the forum cog ignores makes no backend call
      there, yet bot.py relays it (unless reading its attachment raises). */
  lemma LegacyRelaysWhatForumIgnores(botId: Id, m: Message, fb: Forum.Backend, lb: LegacyBot.Backend)
    requires m.author.id != botId && Forum.Classify(m.channel).Ignore?
    requires m.attachments == [] || lb.read.Some?
    ensures Forum.Count(Forum.Handle(botId, m, fb).calls, Forum.BackendKind) == 0
    ensures LegacyBot.PostCount(LegacyBot.Handle(botId, m, lb).calls) == 1
  {
    Forum.BackendCalledOnlyWhenRouted(botId, m, fb);
    LegacyBot.EveryMessageRelayedOnce(botId, m, lb);
  }

  /** The forum relay's payload, whichever form the POST takes. */
  lemma ForumRelayPayload(botId: Id, m: Message, fb: Forum.Backend, c: Forum.Call)
    requires m.author.id != botId && !Forum.Classify(m.channel).Ignore?
    requires c in Forum.Handle(botId, m, fb).calls && Forum.Is(Forum.RelayKind, c)
    ensures c.payload.author == m.author.name && c.payload.content == m.content
    ensures c.payload.threadChannelId == Decimal.Show(m.channel.id)
  {
    var route := Forum.Classify(m.channel);
    assert Forum.Handle(botId, m, fb).calls == Forum.RelayRun(route, m, fb).calls;
    Forum.RelayShape(route, m, fb);
  }

  /** When both relays post a message, they carry the same author and text, and the forum
      relay's string key is the decimal text of the integer id bot.py sends. */
  lemma RelaysAgreeOnPayload(botId: Id, m: Message, fb: Forum.Backend, lb: LegacyBot.Backend,
                             c: Forum.Call, d: LegacyBot.Call)
    requires m.author.id != botId && !Forum.Classify(m.channel).Ignore?
    requires c in Forum.Handle(botId, m, fb).calls && Forum.Is(Forum.RelayKind, c)
    requires d in LegacyBot.Handle(botId, m, lb).calls && LegacyBot.IsPost(d)
    ensures c.payload.author == d.payload.author && c.payload.content == d.payload.content
    ensures c.payload.threadChannelId == Decimal.Show(d.payload.threadChannelId)
  {
    ForumRelayPayload(botId, m, fb, c);
    LegacyBot.RelayShape(botId, m, lb);
  }

  /** `/send-message` of cogs/messaging.py is bot.py's route with the content mention-escaped:
      the same refusals, channel and attachment. */
  lemma SendMessageEscapesLegacy(known: set<Id>, channelId: Id, sendBy: string, message: string,
                                 image: Option<Upload>, escape: string -> string)
    ensures var newer := Messaging.SendMessage(known, channelId, sendBy, message, image, escape);
      var older := LegacyBot.SendMessage(known, channelId, sendBy, message, image);
      && (newer.Ok? <==> older.Ok?)
      && (newer.Err? ==> newer.error == older.error)
      && (newer.Ok? ==> newer.value == older.value.(content := escape(older.value.content)))
  {
  }

  /** `/create-channel` of cogs/messaging.py accepts a subset of what bot.py's route accepts,
      creating the same channel; the difference is exactly an id that names a channel of
      another kind than a category. */
  lemma CreateChannelIsStricter(guild: Option<Guild>, categoryId: Id, name: string)
    ensures var newer := Messaging.CreateChannel(guild, categoryId, name);
      var older := LegacyBot.CreateChannel(guild, categoryId, name);
      && (newer.Ok? ==> older == newer)
      && (older.Ok? && newer.Err? <==>
            guild.Some? && categoryId in guild.value.channels && guild.value.channels[categoryId].kind != CategoryKind)
  {
  }
}
