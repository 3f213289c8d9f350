/**
 * Properties of `handle_command` in rust-native/src/main.rs, stated over `Dispatch`.
 */
module BridgeProperties {
  import opened Wrappers
  import opened Decimal
  import opened Json
  import opened Polling
  import opened BridgeTypes
  import opened BridgeArgs
  import opened BridgeReady
  import opened BridgeSpec

  /** `ping` answers `{"pong": true}` whatever the session state, and changes nothing. */
  lemma PingInAnyState(s: SessionState, id: u64, a: Option<Json>, rp: Replies)
    ensures Dispatch(s, Request(id, "ping", a), rp) == Step(Succeed(Obj("pong", JBool(true))), s, [])
    ensures Respond(Request(id, "ping", a), Dispatch(s, Request(id, "ping", a), rp)).id == id
  {
  }

  /** A name outside the command table yields `Unknown: <name>`, no result, and no effect. */
  lemma UnknownCommand(s: SessionState, req: Request, rp: Replies)
    requires req.command !in KNOWN_COMMANDS
    ensures Dispatch(s, req, rp) == Step(Reply(false, None, Some("Unknown: " + req.command)), s, [])
  {
  }

  /** A decimal-string id argument: the error it causes before the session is consulted, if any. */
  function IdArgError(a: Option<Json>, missingArgs: string, key: string, missingKey: string, invalid: string): Option<string>
  {
    if a.None? then Some(missingArgs)
    else if StrArg(a, key).None? then Some(missingKey)
    else if ParseU64(StrArg(a, key).value).None? then Some(invalid)
    else None
  }

  /**
   * The argument errors a guarded command reports even when the session is not initialized,
   * command by command: the checks that the source places before the INITIALIZED test.
   */
  function PreGuardError(c: string, a: Option<Json>): Option<string>
  {
    if c == "get_guild_channels" then IdArgError(a, "Missing args", "guild_id", "Missing guild_id", "Invalid guild_id")
    else if c == "send_message" then
      if a.None? then Some("Missing args")
      else if StrArg(a, "channel_id").None? || StrArg(a, "content").None? then Some("Missing channel_id or content")
      else if ParseU64(StrArg(a, "channel_id").value).None? then Some("Invalid channel_id")
      else None
    else if c == "send_dm" then
      if a.None? then Some("Missing args")
      else if StrArg(a, "recipient_id").None? || StrArg(a, "content").None? then Some("Missing recipient_id or content")
      else if ParseU64(StrArg(a, "recipient_id").value).None? then Some("Invalid recipient_id")
      else None
    else if c == "set_activity" then if a.None? then Some("Missing args") else None
    else if c == "get_lobby" then if LobbyIdArg(a) == 0 then Some(INVALID_LOBBY_ID) else None
    else if c == "get_lobby_messages" then IdArgError(a, "Missing args", "lobby_id", "Missing lobby_id", "Invalid lobby_id")
    else if c == "get_message" then IdArgError(a, "Missing args", "message_id", "Missing message_id", "Invalid message_id")
    else if c == "get_user_messages" then IdArgError(a, "Missing args", "recipient_id", "Missing recipient_id", "Invalid recipient_id")
    else if c == "connect_lobby_voice" || c == "disconnect_lobby_voice" then
      IdArgError(a, "Missing arguments", "lobby_id", "Missing lobby_id argument", INVALID_LOBBY_ID)
    else None
  }

  /**
   * The session guard: while INITIALIZED is false, every session-dependent command fails
   * without any SDK call and without changing the globals. Its error is "SDK not initialized"
   * unless an argument check that comes before the guard has already failed.
   */
  lemma GuardBlocksWithoutSdkCall(s: SessionState, req: Request, rp: Replies)
    requires !s.initialized && req.command in GUARDED_COMMANDS
    ensures Dispatch(s, req, rp) == Refuse(s, PreGuardError(req.command, req.args).GetOr(NOT_INITIALIZED))
  {
    var c := req.command;
    if c in ID_ARG_COMMANDS {
      GuardIdCommands(s, req, rp);
    } else if c in TEXT_ARG_COMMANDS {
      GuardTextCommands(s, req, rp);
    } else {
      GuardPlainCommands(s, req, rp);
    }
  }

  /** The guarded commands that first read a decimal id argument. */
  const ID_ARG_COMMANDS: set<string> := {
    "get_guild_channels", "get_lobby_messages", "get_message", "get_user_messages",
    "connect_lobby_voice", "disconnect_lobby_voice"}

  /** The guarded commands with other argument checks before the guard. */
  const TEXT_ARG_COMMANDS: set<string> := {"send_message", "send_dm", "set_activity", "get_lobby"}

  lemma GuardIdCommands(s: SessionState, req: Request, rp: Replies)
    requires !s.initialized && req.command in ID_ARG_COMMANDS
    ensures Dispatch(s, req, rp) == Refuse(s, PreGuardError(req.command, req.args).GetOr(NOT_INITIALIZED))
  {
    var c := req.command;
    if c == "get_user_messages" || c == "get_lobby_messages" {
      GuardMessagesCommands(s, req, rp);
    }
  }

  lemma GuardMessagesCommands(s: SessionState, req: Request, rp: Replies)
    requires !s.initialized && (req.command == "get_user_messages" || req.command == "get_lobby_messages")
    ensures Dispatch(s, req, rp) == Refuse(s, PreGuardError(req.command, req.args).GetOr(NOT_INITIALIZED))
  {
    assert ("Missing " + "recipient_id") == "Missing recipient_id";
    assert ("Invalid " + "recipient_id") == "Invalid recipient_id";
    assert ("Missing " + "lobby_id") == "Missing lobby_id";
    assert ("Invalid " + "lobby_id") == "Invalid lobby_id";
  }

  lemma GuardTextCommands(s: SessionState, req: Request, rp: Replies)
    requires !s.initialized && req.command in TEXT_ARG_COMMANDS
    ensures Dispatch(s, req, rp) == Refuse(s, PreGuardError(req.command, req.args).GetOr(NOT_INITIALIZED))
  {
  }

  lemma GuardPlainCommands(s: SessionState, req: Request, rp: Replies)
    requires !s.initialized && req.command in GUARDED_COMMANDS
    requires req.command !in ID_ARG_COMMANDS && req.command !in TEXT_ARG_COMMANDS
    ensures Dispatch(s, req, rp) == Refuse(s, NOT_INITIALIZED)
  {
  }

  /** `get_guild_channels` validates its arguments before the guard. */
  lemma ChannelsValidateBeforeGuard(s: SessionState, id: u64, rp: Replies)
    requires !s.initialized
    ensures Dispatch(s, Request(id, "get_guild_channels", None), rp).reply == Fail("Missing args")
    ensures Dispatch(s, Request(id, "get_guild_channels", Some(JObject(map["guild_id" := JString("x")]))), rp).reply == Fail("Invalid guild_id")
  {
    assert !IsDigit("x"[0]);
  }

  /** `get_lobby` rejects lobby 0 before the guard, in every session state. */
  lemma GetLobbyRejectsZeroFirst(s: SessionState, id: u64, a: Option<Json>, rp: Replies)
    requires LobbyIdArg(a) == 0
    ensures Dispatch(s, Request(id, "get_lobby", a), rp) == Refuse(s, INVALID_LOBBY_ID)
  {
  }

  /** `send_lobby_message` applies the guard before the lobby check; with a session, lobby 0 is refused without a call. */
  lemma SendLobbyGuardBeforeLobbyCheck(s: SessionState, id: u64, a: Option<Json>, rp: Replies)
    ensures !s.initialized ==> Dispatch(s, Request(id, "send_lobby_message", a), rp) == Refuse(s, NOT_INITIALIZED)
    ensures s.initialized && LobbyIdArg(a) == 0 ==> Dispatch(s, Request(id, "send_lobby_message", a), rp) == Refuse(s, INVALID_LOBBY_ID)
  {
  }

  /** `get_guild_channels` fails with "Timeout for guild {id}" exactly when its done flag stays unset. */
  lemma ChannelsTimeoutIffNotDone(s: SessionState, id: u64, guildId: u64, rp: Replies)
    requires s.initialized
    ensures var st := Dispatch(s, Request(id, "get_guild_channels", Some(JObject(map["guild_id" := JString(NatToString(guildId))]))), rp);
            (!st.reply.success <==> !Seen(s, rp.channels, 5000, 50)) &&
            (!st.reply.success ==> st.reply.error == Some("Timeout for guild " + NatToString(guildId))) &&
            st.next == s && st.calls == CallIfClient(s, GetGuildChannels(guildId))
  {
    ParseU64OfNatToString(guildId);
  }

  /**
   * `get_guilds` succeeds unless the error text is set and no guild was collected, which
   * happens only when the callback ran with a null span; a timeout succeeds with no guilds.
   */
  lemma GuildsFailOnlyOnNullSpan(s: SessionState, id: u64, a: Option<Json>, rp: Replies)
    requires s.initialized && s.clientPtr != 0
    ensures var st := Dispatch(s, Request(id, "get_guilds", a), rp);
            (!st.reply.success <==> Completes(rp.guilds, 15000, 50) && rp.guilds.payload.NullSpan?) &&
            (!Completes(rp.guilds, 15000, 50) ==> st.reply == Succeed(Obj("guilds", JArray([]))))
  {
  }

  /** `create_or_join_lobby`: success iff completed with an id > 0; completed with 0 is a failure; else a timeout. */
  lemma CreateOrJoinOutcomes(s: SessionState, id: u64, a: Option<Json>, rp: Replies)
    requires s.initialized && StrArgOr(a, "secret") != []
    ensures var st := Dispatch(s, Request(id, "create_or_join_lobby", a), rp);
            var done := Seen(s, rp.lobbyJoined, 10000, 50);
            (st.reply.success <==> done && rp.lobbyJoined.payload > 0) &&
            (done && rp.lobbyJoined.payload == 0 ==> st.reply.error == Some("Failed to create/join lobby")) &&
            (!done ==> st.reply.error == Some("Lobby operation timeout"))
  {
  }

  /** `send_lobby_message` tells a timeout, an SDK error result and a success apart. */
  lemma SendLobbyThreeOutcomes(s: SessionState, id: u64, a: Option<Json>, rp: Replies)
    requires s.initialized && LobbyIdArg(a) != 0
    ensures var st := Dispatch(s, Request(id, "send_lobby_message", a), rp);
            var sent := Seen(s, rp.lobbyMessageSent, 15000, 25);
            (!sent ==> st.reply == Fail(SEND_TIMEOUT)) &&
            (sent && !rp.lobbyMessageSent.payload ==> st.reply == Fail(SEND_SDK_ERROR)) &&
            (sent && rp.lobbyMessageSent.payload ==> st.reply == Succeed(Obj("sent", JBool(true)))) &&
            SEND_TIMEOUT != SEND_SDK_ERROR
  {
    assert SEND_TIMEOUT[0] == 'S' && SEND_SDK_ERROR[0] == 'D';
  }

  /** A second `disconnect` makes no SDK call and changes nothing. */
  lemma DisconnectIdempotent(s: SessionState, id: u64, a: Option<Json>, rp: Replies)
    ensures var first := Dispatch(s, Request(id, "disconnect", a), rp);
            var second := Dispatch(first.next, Request(id, "disconnect", a), rp);
            !first.next.initialized && first.next.clientPtr == 0 && first.next.token.None? &&
            second.next == first.next && second.calls == [] && second.reply == first.reply
  {
  }

  /** `get_message_events` returns every queued event in arrival order and leaves the queue empty. */
  lemma {:induction false} MessageEventsDrainAll(s: SessionState, id: u64, a: Option<Json>, rp: Replies)
    ensures var st := Dispatch(s, Request(id, "get_message_events", a), rp);
            st.reply.success && st.next.events == [] && st.calls == [] &&
            st.reply.result == Some(Obj("messages", JArray(MapJson(EventJson, s.events)))) &&
            forall k :: 0 <= k < |s.events| ==> MapJson(EventJson, s.events)[k] == EventJson(s.events[k])
  {
    forall k | 0 <= k < |s.events|
      ensures MapJson(EventJson, s.events)[k] == EventJson(s.events[k])
    {
      MapJsonAt(EventJson, s.events, k);
    }
  }

  /** INITIALIZED becomes true only by a Ready status read before the 30 s deadline. */
  lemma InitializedOnlyWhenReady(s: SessionState, id: u64, a: Option<Json>, rp: Replies)
    requires !s.initialized
    ensures var st := Dispatch(s, Request(id, "initialize", a), rp);
            st.next.initialized ==>
              (st.reply.success && exists k :: 0 <= k < READY_POLLS && StatusAt(s.currentStatus, rp.init.statuses, k) >= READY_STATUS)
  {
    var st := Dispatch(s, Request(id, "initialize", a), rp);
    if st.next.initialized {
      var k := FirstReady(s.currentStatus, rp.init.statuses, 0).value;
      assert StatusAt(s.currentStatus, rp.init.statuses, k) >= READY_STATUS;
    }
  }

  /** No initialization failure is ever reported as error 4004. */
  lemma InitNever4004(s: SessionState, id: u64, a: Option<Json>, rp: Replies)
    ensures Dispatch(s, Request(id, "initialize", a), rp).reply.error != Some(ERROR_4004_MESSAGE)
  {
    var i := InitSpec(s, StrArg(a, "token").GetOr(""), U64Text(a, "app_id").GetOr(0), rp.init);
    var o := ExpectedOutcome(s.currentStatus, rp.init.statuses);
    if FirstReady(s.currentStatus, rp.init.statuses, 0).None? {
      IntToStringNot4004(StatusAt(s.currentStatus, rp.init.statuses, READY_POLLS - 1));
    }
    assert o.result != Err(ERROR_4004_MESSAGE);
  }

  /** Without an application id, initialization fails after creating the client and leaves the globals alone. */
  lemma InitRequiresAppId(s: SessionState, id: u64, token: string, rp: Replies)
    ensures var a := Some(JObject(map["token" := JString(token)]));
            Dispatch(s, Request(id, "initialize", a), rp) == Step(Fail(NO_APP_ID), s, [SetFreeThreaded, ClientInit])
  {
  }

  /** A stored `type=N:rest` token hands N and rest to UpdateToken and keeps rest as TOKEN. */
  lemma StoredTokenReachesSdk(s: SessionState, id: u64, n: i32, rest: string, appId: u64, rp: Replies)
    requires appId != 0 && !HasNul(rest)
    requires UsesStoredToken("type=" + IntToString(n) + ":" + rest)
    ensures var token := "type=" + IntToString(n) + ":" + rest;
            var a := Some(JObject(map["token" := JString(token), "app_id" := JString(NatToString(appId))]));
            var st := Dispatch(s, Request(id, "initialize", a), rp);
            st.next.token == Some(rest) && st.next.appId == appId && st.next.clientPtr == rp.init.clientAddress &&
            |st.calls| > 4 && st.calls[4] == UpdateToken(n, rest)
  {
    StoredTokenRoundTrip(n, rest);
    ParseU64OfNatToString(appId);
  }
}
