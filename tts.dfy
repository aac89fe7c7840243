/** The voice cog (cogs/tts.py): a small state machine over the fields `synced`,
    `voice_client`, `reconnect_attempts`, `manual_disconnect` and `auto_reconnect_disabled`.
    Discord's voice layer is abstract: the bot's list of voice clients and the outcome of
    each connect or disconnect are inputs, and the calls made are appended to `effects`. */
module Tts {
  import opened Wrappers
  import opened Platform
  import Text

  /** `max_reconnect_attempts`; the threshold test in the voice-state handler uses the same 3. */
  const MaxReconnectAttempts := 3

  /** An entry of `bot.voice_clients`. */
  datatype VoiceClient = VoiceClient(guildId: Id, channelId: Id, connected: bool)

  /** What the cog asks Discord to do. */
  datatype VoiceEffect =
    | SyncCommands(guildId: Id)   // bot.tree.sync(guild=...)
    | Connect(channelId: Id)      // channel.connect()
    | Disconnect(channelId: Id)   // voice_client.disconnect(force=True)
    | ReadTts(text: string)       // self.read_tts(text); the method is commented out, so the call raises

  datatype JoinReply = NotInVoice | AlreadyIn(channelId: Id) | Joined(channelId: Id) | JoinFailed

  datatype LeaveReply = NotConnected | Left(channelId: Id) | LeaveFailed

  /** The bot's voice client in the guild: the first entry of `bot.voice_clients` whose guild
      matches. */
  function VoiceClientOf(clients: seq<VoiceClient>, guildId: Id): Option<VoiceClient> {
    if clients == [] then None
    else if clients[0].guildId == guildId then Some(clients[0])
    else VoiceClientOf(clients[1..], guildId)
  }

  /** `VoiceClientOf` finds the first client of the guild, and finds none only when there is none. */
  lemma {:induction false} VoiceClientOfIsFirst(clients: seq<VoiceClient>, guildId: Id)
    ensures VoiceClientOf(clients, guildId).None? <==> forall i :: 0 <= i < |clients| ==> clients[i].guildId != guildId
    ensures VoiceClientOf(clients, guildId).Some? ==>
      exists k :: 0 <= k < |clients| && clients[k] == VoiceClientOf(clients, guildId).value &&
        clients[k].guildId == guildId && forall i :: 0 <= i < k ==> clients[i].guildId != guildId
  {
    if clients != [] && clients[0].guildId != guildId {
      VoiceClientOfIsFirst(clients[1..], guildId);
      if VoiceClientOf(clients, guildId).Some? {
        var k :| 0 <= k < |clients| - 1 && clients[1..][k] == VoiceClientOf(clients, guildId).value &&
          clients[1..][k].guildId == guildId && forall i :: 0 <= i < k ==> clients[1..][i].guildId != guildId;
        assert clients[k + 1] == clients[1..][k];
        assert forall i :: 1 <= i < k + 1 ==> clients[i] == clients[1..][i - 1];
      } else {
        assert forall i :: 1 <= i < |clients| ==> clients[i] == clients[1..][i - 1];
      }
    }
  }

  /** `get_voice_client`: the search loop over `bot.voice_clients`. */
  method FindVoiceClient(clients: seq<VoiceClient>, guildId: Id) returns (r: Option<VoiceClient>)
    ensures r == VoiceClientOf(clients, guildId)
  {
    var i := 0;
    while i < |clients|
      invariant 0 <= i <= |clients|
      invariant VoiceClientOf(clients[i..], guildId) == VoiceClientOf(clients, guildId)
    {
      if clients[i].guildId == guildId {
        return Some(clients[i]);
      }
      assert clients[i..][1..] == clients[i + 1..];
      i := i + 1;
    }
    return None;
  }

  /** The forced disconnects after repeated failures: one per voice client of the guild, in
      list order. */
  function DisconnectsIn(clients: seq<VoiceClient>, guildId: Id): seq<VoiceEffect> {
    if clients == [] then []
    else
      var last := clients[|clients| - 1];
      DisconnectsIn(clients[..|clients| - 1], guildId) + (if last.guildId == guildId then [Disconnect(last.channelId)] else [])
  }

  class TtsCog {
    const guildId: Id
    const botUserId: Id
    var synced: bool
    var voiceClient: Option<VoiceClient>
    var reconnectAttempts: nat
    var manualDisconnect: bool
    var autoReconnectDisabled: bool
    var effects: seq<VoiceEffect>

    /** Auto-reconnect is disabled exactly when the failure counter has reached the threshold:
        both are raised together by the voice-state handler and reset together by join and leave. */
    ghost predicate Valid()
      reads this
    {
      autoReconnectDisabled <==> reconnectAttempts >= MaxReconnectAttempts
    }

    constructor (guildId: Id, botUserId: Id)
      ensures Valid()
      ensures this.guildId == guildId && this.botUserId == botUserId
      ensures !synced && voiceClient.None? && reconnectAttempts == 0
      ensures !manualDisconnect && !autoReconnectDisabled && effects == []
    {
      this.guildId := guildId;
      this.botUserId := botUserId;
      synced := false;
      voiceClient := None;
      reconnectAttempts := 0;
      manualDisconnect := false;
      autoReconnectDisabled := false;
      effects := [];
    }

    /** `/join`: nothing changes when the user is not in voice or the bot is already connected
        to that channel. Otherwise the counter and the disabled flag are reset; a connected
        client is disconnected first (as a manual disconnect); on a successful connect the new
        client is stored and the manual flag cleared. A raising disconnect or connect leaves the
        manual flag as it was set. */
    method Join(userChannel: Option<Id>, clients: seq<VoiceClient>, disconnectOk: bool, connected: Option<VoiceClient>)
      returns (reply: JoinReply)
      requires Valid()
      modifies this
      ensures Valid()
      ensures synced == old(synced)
      ensures userChannel.None? ==> reply == NotInVoice && unchanged(this)
      ensures var vc := VoiceClientOf(clients, guildId);
        userChannel.Some? && vc.Some? && vc.value.channelId == userChannel.value && vc.value.connected ==>
          reply == AlreadyIn(userChannel.value) && unchanged(this)
      ensures var vc := VoiceClientOf(clients, guildId);
        userChannel.Some? && !(vc.Some? && vc.value.channelId == userChannel.value && vc.value.connected) ==>
          var moving := vc.Some? && vc.value.connected;
          var failed := (moving && !disconnectOk) || connected.None?;
          && reconnectAttempts == 0 && !autoReconnectDisabled
          && effects == old(effects)
               + (if moving then [Disconnect(vc.value.channelId)] else [])
               + (if moving && !disconnectOk then [] else [Connect(userChannel.value)])
          && reply == (if failed then JoinFailed else Joined(userChannel.value))
          && voiceClient == (if failed then old(voiceClient) else connected)
          && manualDisconnect == (moving && failed)
    {
      if userChannel.None? {
        return NotInVoice;
      }
      var channel := userChannel.value;
      var vc := FindVoiceClient(clients, guildId);
      if vc.Some? && vc.value.channelId == channel && vc.value.connected {
        return AlreadyIn(channel);
      }
      reconnectAttempts := 0;
      autoReconnectDisabled := false;
      manualDisconnect := false;
      if vc.Some? && vc.value.connected {
        manualDisconnect := true;
        effects := effects + [Disconnect(vc.value.channelId)];
        if !disconnectOk {
          return JoinFailed;
        }
      }
      effects := effects + [Connect(channel)];
      if connected.None? {
        return JoinFailed;
      }
      reply := Joined(channel);
      voiceClient := connected;
      manualDisconnect := false;
    }

    /** `/leave`: nothing changes when the bot has no connected client. Otherwise the
        disconnect is marked manual; when it succeeds the client is cleared, the counter reset
        and auto-reconnect re-enabled. */
    method Leave(clients: seq<VoiceClient>, disconnectOk: bool) returns (reply: LeaveReply)
      requires Valid()
      modifies this
      ensures Valid()
      ensures synced == old(synced)
      ensures var vc := VoiceClientOf(clients, guildId);
        vc.None? || !vc.value.connected ==> reply == NotConnected && unchanged(this)
      ensures var vc := VoiceClientOf(clients, guildId);
        vc.Some? && vc.value.connected ==>
          && manualDisconnect
          && effects == old(effects) + [Disconnect(vc.value.channelId)]
          && (disconnectOk ==>
                reply == Left(vc.value.channelId) && voiceClient.None? && reconnectAttempts == 0 && !autoReconnectDisabled)
          && (!disconnectOk ==>
                && reply == LeaveFailed && voiceClient == old(voiceClient)
                && reconnectAttempts == old(reconnectAttempts) && autoReconnectDisabled == old(autoReconnectDisabled))
    {
      var vc := FindVoiceClient(clients, guildId);
      if vc.None? || !vc.value.connected {
        return NotConnected;
      }
      manualDisconnect := true;
      effects := effects + [Disconnect(vc.value.channelId)];
      if !disconnectOk {
        return LeaveFailed;
      }
      voiceClient := None;
      reconnectAttempts := 0;
      autoReconnectDisabled := false;
      reply := Left(vc.value.channelId);
    }

    /** `on_voice_state_update`. Only the bot's own updates matter. A disconnect while the
        manual flag is set consumes the flag. Any other disconnect counts one failure; at the
        threshold auto-reconnect is disabled and every client of the guild is disconnected.
        A move to another channel while auto-reconnect is disabled (and not manual) is undone
        by a disconnect and changes no field. Every other update refreshes `voice_client`. The
        counter never decreases here. */
    method OnVoiceStateUpdate(memberId: Id, before: Option<Id>, after: Option<Id>, clients: seq<VoiceClient>)
      requires Valid()
      modifies this
      ensures Valid()
      ensures synced == old(synced)
      ensures reconnectAttempts >= old(reconnectAttempts)
      ensures memberId != botUserId ==> unchanged(this)
      ensures memberId == botUserId && after.None? && old(manualDisconnect) ==>
        && !manualDisconnect && voiceClient.None?
        && reconnectAttempts == old(reconnectAttempts) && autoReconnectDisabled == old(autoReconnectDisabled)
        && effects == old(effects)
      ensures memberId == botUserId && after.None? && !old(manualDisconnect) ==>
        && reconnectAttempts == old(reconnectAttempts) + 1
        && !manualDisconnect
        && (reconnectAttempts >= MaxReconnectAttempts ==>
              autoReconnectDisabled && voiceClient.None? && effects == old(effects) + DisconnectsIn(clients, guildId))
        && (reconnectAttempts < MaxReconnectAttempts ==>
              !autoReconnectDisabled && voiceClient == VoiceClientOf(clients, guildId) && effects == old(effects))
      ensures memberId == botUserId && after.Some? && before != after && old(autoReconnectDisabled) && !old(manualDisconnect) ==>
        && voiceClient == old(voiceClient) && reconnectAttempts == old(reconnectAttempts)
        && autoReconnectDisabled && !manualDisconnect
        && var vc := VoiceClientOf(clients, guildId);
           effects == old(effects) + (if vc.Some? then [Disconnect(vc.value.channelId)] else [])
      ensures memberId == botUserId && after.Some? && !(before != after && old(autoReconnectDisabled) && !old(manualDisconnect)) ==>
        && voiceClient == VoiceClientOf(clients, guildId)
        && reconnectAttempts == old(reconnectAttempts) && autoReconnectDisabled == old(autoReconnectDisabled)
        && manualDisconnect == old(manualDisconnect) && effects == old(effects)
    {
      if memberId != botUserId {
        return;
      }
      if after.None? {
        if manualDisconnect {
          manualDisconnect := false;
          voiceClient := None;
          return;
        }
        voiceClient := None;
        reconnectAttempts := reconnectAttempts + 1;
        if reconnectAttempts >= MaxReconnectAttempts {
          autoReconnectDisabled := true;
          ForceDisconnect(clients);
          return;
        }
      } else if before != after {
        if autoReconnectDisabled && !manualDisconnect {
          var vc := FindVoiceClient(clients, guildId);
          if vc.Some? {
            effects := effects + [Disconnect(vc.value.channelId)];
          }
          return;
        }
        voiceClient := FindVoiceClient(clients, guildId);
      }
      voiceClient := FindVoiceClient(clients, guildId);
    }

    /** The loop over `bot.voice_clients` that force-disconnects every client of the guild;
        a failing disconnect is printed and the loop goes on. */
    method ForceDisconnect(clients: seq<VoiceClient>)
      modifies this`effects
      ensures effects == old(effects) + DisconnectsIn(clients, guildId)
    {
      var i := 0;
      while i < |clients|
        invariant 0 <= i <= |clients|
        invariant effects == old(effects) + DisconnectsIn(clients[..i], guildId)
      {
        assert clients[..i + 1][..i] == clients[..i];
        if clients[i].guildId == guildId {
          effects := effects + [Disconnect(clients[i].channelId)];
        }
        i := i + 1;
      }
      assert clients[..|clients|] == clients;
    }

    /** `on_ready`: the command tree is synced to the guild once; a sync that raises leaves
        `synced` false so that the next ready event tries again. */
    method OnReady(syncOk: bool) returns (raised: bool)
      requires Valid()
      modifies this
      ensures Valid()
      ensures old(synced) ==> !raised && unchanged(this)
      ensures !old(synced) ==>
        && effects == old(effects) + [SyncCommands(guildId)]
        && synced == syncOk && raised == !syncOk
        && voiceClient == old(voiceClient) && reconnectAttempts == old(reconnectAttempts)
        && manualDisconnect == old(manualDisconnect) && autoReconnectDisabled == old(autoReconnectDisabled)
    {
      raised := false;
      if !synced {
        effects := effects + [SyncCommands(guildId)];
        if !syncOk {
          return true;
        }
        synced := true;
      }
    }

    /** `on_message`: the `read_tts` call (which raises, as `read_tts` is commented out) is
        attempted only when the message is not the bot's own, comes from a guild, the bot has
        a connected voice client there, and it does not start with "/"; then that client
        becomes `voice_client`. */
    method OnMessage(authorId: Id, inGuild: bool, content: string, clients: seq<VoiceClient>) returns (attemptedTts: bool)
      requires Valid()
      modifies this
      ensures Valid()
      ensures var vc := VoiceClientOf(clients, guildId);
        attemptedTts <==> authorId != botUserId && inGuild && vc.Some? && vc.value.connected && !Text.StartsWith(content, "/")
      ensures attemptedTts ==> voiceClient == VoiceClientOf(clients, guildId) && effects == old(effects) + [ReadTts(content)]
      ensures attemptedTts ==>
        && synced == old(synced) && reconnectAttempts == old(reconnectAttempts)
        && manualDisconnect == old(manualDisconnect) && autoReconnectDisabled == old(autoReconnectDisabled)
      ensures !attemptedTts ==> unchanged(this)
    {
      if authorId == botUserId || !inGuild {
        return false;
      }
      var vc := FindVoiceClient(clients, guildId);
      if vc.None? || !vc.value.connected {
        return false;
      }
      if Text.StartsWith(content, "/") {
        return false;
      }
      voiceClient := vc;
      effects := effects + [ReadTts(content)];
      attemptedTts := true;
    }
  }

  /** Three unexpected disconnects after a fresh start disable auto-reconnect, and a later
      `/leave` that succeeds re-enables it and resets the counter. */
  method RepeatedDropsScenario(cog: TtsCog, channel: Id, client: VoiceClient) returns (disabledAfterDrops: bool)
    requires cog.Valid() && cog.reconnectAttempts == 0 && !cog.manualDisconnect
    requires client.guildId == cog.guildId && client.connected
    modifies cog
    ensures disabledAfterDrops
    ensures cog.Valid() && !cog.autoReconnectDisabled && cog.reconnectAttempts == 0
    ensures cog.voiceClient.None? && cog.manualDisconnect
  {
    cog.OnVoiceStateUpdate(cog.botUserId, Some(channel), None, []);
    cog.OnVoiceStateUpdate(cog.botUserId, Some(channel), None, []);
    cog.OnVoiceStateUpdate(cog.botUserId, Some(channel), None, []);
    disabledAfterDrops := cog.autoReconnectDisabled;
    var reply := cog.Leave([client], true);
  }
}
