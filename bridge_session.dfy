/**
 * The stdio subprocess of rust-native/src/main.rs as state that commands update in place:
 * the process globals become fields of `Session`, each handler arm a method that checks,
 * calls the SDK, polls, and collects what callbacks delivered. Each method is proved to do
 * what the matching function of `BridgeSpec` says.
 */
module BridgeSession {
  import opened Wrappers
  import opened Decimal
  import opened Json
  import opened Polling
  import opened BridgeTypes
  import opened BridgeArgs
  import opened BridgeReady
  import opened BridgeSpec

  /** What a callback pushes for each record of its span, in span order. */
  method CollectEach<T>(f: T -> Json, xs: seq<T>) returns (out: seq<Json>)
    ensures out == MapJson(f, xs)
  {
    out := [];
    var i := 0;
    while i < |xs|
      invariant 0 <= i <= |xs|
      invariant out == MapJson(f, xs[..i])
    {
      assert xs[..i + 1][..i] == xs[..i];
      out := out + [f(xs[i])];
      i := i + 1;
    }
    assert xs[..|xs|] == xs;
  }

  /** The relationship loop of `get_relationships`: push a friend for each entry with a user handle. */
  method CollectFriends(rs: seq<Relationship>) returns (out: seq<Json>)
    ensures out == Friends(rs)
  {
    out := [];
    var i := 0;
    while i < |rs|
      invariant 0 <= i <= |rs|
      invariant out == Friends(rs[..i])
    {
      assert rs[..i + 1][..i] == rs[..i];
      var r := rs[i];
      if r.user.Some? {
        out := out + [JObject(map["id" := IdText(r.userId), "username" := JString(TextOr(r.user.value, "Unknown"))])];
      }
      i := i + 1;
    }
    assert rs[..|rs|] == rs;
  }

  /** The metadata loop of `get_lobby`: `metadata_map[key] = value` for each readable pair. */
  method CollectMetadata(ps: seq<Property>) returns (m: map<string, Json>)
    ensures m == Metadata(ps)
  {
    m := map[];
    var i := 0;
    while i < |ps|
      invariant 0 <= i <= |ps|
      invariant m == Metadata(ps[..i])
    {
      assert ps[..i + 1][..i] == ps[..i];
      var p := ps[i];
      if p.key.Some? && p.value.Some? {
        m := m[p.key.value := JString(p.value.value)];
      }
      i := i + 1;
    }
    assert ps[..|ps|] == ps;
  }

  /** One line of standard input after `trim()`, as the read loop classifies it. */
  datatype InputLine = Blank | Unparsable | Parsed(request: Request, replies: Replies)

  /** The requests among the lines, in order. */
  function Requests(lines: seq<InputLine>): seq<Request>
  {
    if lines == [] then []
    else Requests(lines[..|lines| - 1]) + (if lines[|lines| - 1].Parsed? then [lines[|lines| - 1].request] else [])
  }

  /** What the read loop owes for a prefix of the input: the responses, the globals, the SDK calls. */
  datatype Served = Served(responses: seq<Response>, next: SessionState, calls: seq<SdkCall>)

  /** `handle_command` applied to each parsed line in turn, each on the globals the previous left. */
  function Serve(s: SessionState, lines: seq<InputLine>): Served
  {
    if lines == [] then Served([], s, [])
    else ServeLine(Serve(s, lines[..|lines| - 1]), lines[|lines| - 1])
  }

  /** One more line: a parsed request is answered, anything else is skipped. */
  function ServeLine(prev: Served, line: InputLine): Served
  {
    if line.Parsed? then
      var st := Dispatch(prev.next, line.request, line.replies);
      Served(prev.responses + [Respond(line.request, st)], st.next, prev.calls + st.calls)
    else prev
  }

  /** One response per request, in order, each carrying that request's id. */
  lemma {:induction false} ServeAnswersEach(s: SessionState, lines: seq<InputLine>)
    ensures |Serve(s, lines).responses| == |Requests(lines)|
    ensures forall k :: 0 <= k < |Requests(lines)| ==> Serve(s, lines).responses[k].id == Requests(lines)[k].id
  {
    if lines != [] {
      ServeAnswersEach(s, lines[..|lines| - 1]);
    }
  }

  lemma AppendAssoc<T>(a: seq<T>, b: seq<T>, c: seq<T>)
    ensures a + b + c == a + (b + c)
  {
  }

  class Session {
    var initialized: bool
    var clientPtr: nat
    var token: Option<string>
    var currentStatus: i32
    var appId: u64
    var messageEvents: seq<MessageEvent>
    /** The SDK calls made so far, oldest first. */
    ghost var sdkCalls: seq<SdkCall>

    function State(): SessionState
      reads this
    {
      SessionState(initialized, clientPtr, token, currentStatus, appId, messageEvents)
    }

    /** The globals as `lazy_static!` first creates them. */
    constructor ()
      ensures State() == SessionState(false, 0, None, 0, 0, []) && sdkCalls == []
    {
      initialized, clientPtr, token, currentStatus, appId, messageEvents := false, 0, None, 0, 0, [];
      sdkCalls := [];
    }

    /** The handler produced `r` and left the globals and the call trace as `st` says. */
    ghost predicate Did(st: Step, r: Reply, callsBefore: seq<SdkCall>)
      reads this
    {
      r == st.reply && State() == st.next && sdkCalls == callsBefore + st.calls
    }

    /** `cleanup()`. */
    method Cleanup()
      modifies this
      ensures State() == CleanupState(old(State())) && sdkCalls == old(sdkCalls) + CleanupCalls(old(State()))
    {
      if clientPtr != 0 {
        sdkCalls := sdkCalls + [ClientDrop(clientPtr)];
      }
      clientPtr := 0;
      token := None;
      initialized := false;
    }

    /** The MESSAGE_CREATED callback, run by some pump: append the event. */
    method OnMessageCreated(messageId: u64, timestamp: string)
      modifies this`messageEvents
      ensures messageEvents == old(messageEvents) + [MessageEvent(messageId, timestamp)]
    {
      messageEvents := messageEvents + [MessageEvent(messageId, timestamp)];
    }

    /** The status-changed callback, run by some pump: record the status. */
    method OnStatusChanged(status: i32)
      modifies this`currentStatus
      ensures currentStatus == status
    {
      currentStatus := status;
    }

    /** The ready wait, and INITIALIZED set when it succeeds. */
    method AwaitReady(statuses: seq<i32>) returns (result: Result<string, string>)
      modifies this`currentStatus, this`initialized
      ensures var i := ReadyFinish(old(State()), [], statuses); result == i.result && State() == i.next
    {
      var o := WaitForReady(currentStatus, statuses);
      currentStatus := o.finalStatus;
      if o.result.Ok? {
        initialized := true;
      }
      result := o.result;
    }

    /** `init_discord_sdk(token, app_id)`. */
    method InitDiscordSdk(tokenText: string, appIdArg: u64, ir: InitReplies) returns (result: Result<string, string>)
      modifies this
      ensures var i := InitSpec(old(State()), tokenText, appIdArg, ir);
              result == i.result && State() == i.next && sdkCalls == old(sdkCalls) + i.calls
    {
      ghost var calls0 := sdkCalls;
      sdkCalls := sdkCalls + [SetFreeThreaded, ClientInit];
      if appIdArg == 0 {
        return Err(NO_APP_ID);
      }
      sdkCalls := sdkCalls + [SetApplicationId(appIdArg), SetStatusChangedCallback];
      appId := appIdArg;
      ghost var prefix := [SetFreeThreaded, ClientInit] + [SetApplicationId(appIdArg), SetStatusChangedCallback];
      assert sdkCalls == calls0 + prefix;
      ghost var s1 := State();
      if UsesStoredToken(tokenText) {
        result := InitWithStoredToken(tokenText, ir);
        assert sdkCalls == calls0 + (prefix + StoredTokenInit(s1, tokenText, ir).calls);
      } else {
        result := InitWithOAuth(ir);
        assert sdkCalls == calls0 + (prefix + OAuthInit(s1, ir).calls);
      }
    }

    /** The stored-token half of `init_discord_sdk`. */
    method InitWithStoredToken(tokenText: string, ir: InitReplies) returns (result: Result<string, string>)
      modifies this
      ensures var i := StoredTokenInit(old(State()), tokenText, ir);
              result == i.result && State() == i.next && sdkCalls == old(sdkCalls) + i.calls
    {
      var parsed := ParseStoredToken(tokenText);
      var tokenType, actual := parsed.0, parsed.1;
      if HasNul(actual) {
        return Err(INVALID_TOKEN);
      }
      sdkCalls := sdkCalls + [UpdateToken(tokenType, actual)];
      var tokenUpdated, waited := PumpUntilDone(ir.tokenUpdated, 5000, 50);
      // The source's empty and shorter-than-20 checks here test the stored token, which is
      // longer than 20 bytes on this path, so they never fail and are not repeated.
      sdkCalls := sdkCalls + [Connect];
      token := Some(actual);
      clientPtr := ir.clientAddress;
      // CLIENT_PTR was just set to a boxed client, so the message callback is registered.
      sdkCalls := sdkCalls + [SetMessageCreatedCallback];
      result := AwaitReady(ir.statuses);
    }

    /** The OAuth half of `init_discord_sdk`. */
    method InitWithOAuth(ir: InitReplies) returns (result: Result<string, string>)
      modifies this
      ensures var i := OAuthInit(old(State()), ir);
              result == i.result && State() == i.next && sdkCalls == old(sdkCalls) + i.calls
    {
      sdkCalls := sdkCalls + [AuthorizationFlow];
      if !ir.auth.AuthGranted? {
        return Err(AuthFailure(ir.auth));
      }
      var access, tokenType := ir.auth.accessToken, ir.auth.tokenType;
      if HasNul(access) {
        return Err(INVALID_TOKEN);
      }
      sdkCalls := sdkCalls + [UpdateToken(tokenType, access)];
      var tokenUpdated, waited := PumpUntilDone(ir.tokenUpdated, 5000, 50);
      if access == [] {
        return Err(EMPTY_ACCESS_TOKEN);
      }
      if |access| < 20 {
        return Err(SHORT_ACCESS_TOKEN);
      }
      sdkCalls := sdkCalls + [Connect];
      clientPtr := ir.clientAddress;
      token := Some(access);
      result := AwaitReady(ir.statuses);
    }

    method Initialize(a: Option<Json>, ir: InitReplies) returns (r: Reply)
      modifies this
      ensures Did(InitializeStep(old(State()), a, ir), r, old(sdkCalls))
    {
      if a.None? {
        return Fail("Missing args");
      }
      var tokenArg := StrArg(a, "token");
      if tokenArg.None? {
        return Fail("Missing token");
      }
      var id := U64Text(a, "app_id").GetOr(0);
      var result := InitDiscordSdk(tokenArg.value, id, ir);
      match result
      case Ok(msg) => r := Succeed(Obj("status", JString(msg)));
      case Err(e) => r := Fail(e);
    }

    method GetGuilds(cb: Callback<Span<GuildMinimal>>) returns (r: Reply)
      modifies this
      ensures Did(GuildsStep(old(State()), cb), r, old(sdkCalls))
    {
      if !initialized {
        return Fail(NOT_INITIALIZED);
      }
      if clientPtr == 0 {
        return Fail(CLIENT_NOT_INITIALIZED);
      }
      var guilds: seq<Json> := [];
      var error := "";
      sdkCalls := sdkCalls + [GetUserGuilds];
      var completed, waited := PumpUntilDone(cb, 15000, 50);
      if completed {
        match cb.payload
        case NullSpan => error := "Null span pointer";
        case Items(gs) => guilds := CollectEach(GuildJson, gs);
      }
      if |guilds| == 0 && error != "" {
        r := Fail(error);
      } else {
        r := Succeed(Obj("guilds", JArray(guilds)));
      }
    }

    method GetGuildChannels(a: Option<Json>, cb: Callback<Span<GuildChannel>>) returns (r: Reply)
      modifies this
      ensures Did(ChannelsStep(old(State()), a, cb), r, old(sdkCalls))
    {
      if a.None? {
        return Fail("Missing args");
      }
      var text := StrArg(a, "guild_id");
      if text.None? {
        return Fail("Missing guild_id");
      }
      var parsed := ParseU64(text.value);
      if parsed.None? {
        return Fail("Invalid guild_id");
      }
      var guildId := parsed.value;
      if !initialized {
        return Fail(NOT_INITIALIZED);
      }
      var channels: seq<Json> := [];
      if clientPtr != 0 {
        sdkCalls := sdkCalls + [SdkCall.GetGuildChannels(guildId)];
      }
      // Without a client nothing was requested, so no callback arrives.
      var completed, waited := PumpUntilDone(if clientPtr != 0 then cb else Never, 5000, 50);
      if completed {
        match cb.payload
        case NullSpan =>
        case Items(cs) => channels := CollectEach(ChannelJson, cs);
      }
      if !completed {
        r := Fail("Timeout for guild " + NatToString(guildId));
      } else {
        r := Succeed(Obj("channels", JArray(channels)));
      }
    }

    method SendMessage(a: Option<Json>, cb: Callback<()>) returns (r: Reply)
      modifies this
      ensures Did(SendMessageStep(old(State()), a, cb), r, old(sdkCalls))
    {
      if a.None? {
        return Fail("Missing args");
      }
      var channelText, content := StrArg(a, "channel_id"), StrArg(a, "content");
      if channelText.None? || content.None? {
        return Fail("Missing channel_id or content");
      }
      var parsed := ParseU64(channelText.value);
      if parsed.None? {
        return Fail("Invalid channel_id");
      }
      if !initialized {
        return Fail(NOT_INITIALIZED);
      }
      if HasNul(content.value) {
        // The early `return Response { id: req.id, .. }`: the dispatcher attaches the id.
        return Fail("Invalid content");
      }
      if clientPtr != 0 {
        sdkCalls := sdkCalls + [SendLobbyMessage(parsed.value, content.value)];
      }
      // Without a client nothing was requested, so no callback arrives.
      var sent, waited := PumpUntilDone(if clientPtr != 0 then cb else Never, 5000, 50);
      r := if sent then Succeed(Obj("sent", JBool(true))) else Fail("Message send timeout");
    }

    method SetActivity(a: Option<Json>, cb: Callback<()>) returns (r: Reply)
      modifies this
      ensures Did(SetActivityStep(old(State()), a, cb), r, old(sdkCalls))
    {
      if a.None? {
        return Fail("Missing args");
      }
      if !initialized {
        return Fail(NOT_INITIALIZED);
      }
      if clientPtr != 0 {
        sdkCalls := sdkCalls + [UpdateRichPresence];
      }
      // Without a client nothing was requested, so no callback arrives.
      var done, waited := PumpUntilDone(if clientPtr != 0 then cb else Never, 3000, 50);
      r := if done then Succeed(Obj("updated", JBool(true))) else Fail("Activity update timeout");
    }

    method GetRelationships(span: Span<Relationship>) returns (r: Reply)
      modifies this
      ensures Did(RelationshipsStep(old(State()), span), r, old(sdkCalls))
    {
      if !initialized {
        return Fail(NOT_INITIALIZED);
      }
      if clientPtr == 0 {
        return Fail(CLIENT_NOT_INITIALIZED);
      }
      sdkCalls := sdkCalls + [SdkCall.GetRelationships];
      var friends: seq<Json> := [];
      if span.Items? {
        friends := CollectFriends(span.items);
      }
      r := Succeed(Obj("friends", JArray(friends)));
    }

    method GetLobbyIds(span: Span<u64>) returns (r: Reply)
      modifies this
      ensures Did(LobbyIdsStep(old(State()), span), r, old(sdkCalls))
    {
      if !initialized {
        return Fail(NOT_INITIALIZED);
      }
      if clientPtr == 0 {
        return Fail(CLIENT_NOT_INITIALIZED);
      }
      sdkCalls := sdkCalls + [SdkCall.GetLobbyIds];
      var ids: seq<Json> := [];
      if span.Items? && 0 < |span.items| < 1000 {
        ids := CollectEach(LobbyIdJson, span.items);
      }
      r := Succeed(Obj("lobby_ids", JArray(ids)));
    }

    method GetLobby(a: Option<Json>, handle: Option<seq<Property>>) returns (r: Reply)
      modifies this
      ensures Did(GetLobbyStep(old(State()), a, handle), r, old(sdkCalls))
    {
      var lobbyId := LobbyIdArg(a);
      if lobbyId == 0 {
        return Fail(INVALID_LOBBY_ID);
      }
      if !initialized {
        return Fail(NOT_INITIALIZED);
      }
      if clientPtr == 0 {
        return Fail(CLIENT_NOT_INITIALIZED);
      }
      sdkCalls := sdkCalls + [GetLobbyHandle(lobbyId)];
      if handle.Some? {
        var metadata := CollectMetadata(handle.value);
        r := Succeed(Obj2("lobby_id", JInt(lobbyId), "metadata", JObject(metadata)));
      } else {
        r := Fail("Failed to get lobby handle for " + NatToString(lobbyId));
      }
    }

    method SendDm(a: Option<Json>, cb: Callback<u64>) returns (r: Reply)
      modifies this
      ensures Did(SendDmStep(old(State()), a, cb), r, old(sdkCalls))
    {
      if a.None? {
        return Fail("Missing args");
      }
      var recipientText, content := StrArg(a, "recipient_id"), StrArg(a, "content");
      if recipientText.None? || content.None? {
        return Fail("Missing recipient_id or content");
      }
      var parsed := ParseU64(recipientText.value);
      if parsed.None? {
        return Fail("Invalid recipient_id");
      }
      if !initialized {
        return Fail(NOT_INITIALIZED);
      }
      if HasNul(content.value) {
        return Fail("Invalid content");
      }
      var messageId: u64 := 0;
      if clientPtr != 0 {
        sdkCalls := sdkCalls + [SendUserMessage(parsed.value, content.value)];
      }
      // Without a client nothing was requested, so no callback arrives.
      var sent, waited := PumpUntilDone(if clientPtr != 0 then cb else Never, 5000, 50);
      if sent {
        messageId := cb.payload;
      }
      r := if sent then Succeed(Obj("message_id", IdText(messageId))) else Fail("DM send timeout");
    }

    /** `get_lobby_messages` (`byUser` false) and `get_user_messages` (`byUser` true). */
    method GetMessages(a: Option<Json>, cb: Callback<Span<MessageHandle>>, byUser: bool) returns (r: Reply)
      modifies this
      ensures Did(MessagesStep(old(State()), a, cb, byUser), r, old(sdkCalls))
    {
      var key := if byUser then "recipient_id" else "lobby_id";
      if a.None? {
        return Fail("Missing args");
      }
      var text := StrArg(a, key);
      if text.None? {
        return Fail("Missing " + key);
      }
      var parsed := ParseU64(text.value);
      if parsed.None? {
        return Fail("Invalid " + key);
      }
      if !initialized {
        return Fail(NOT_INITIALIZED);
      }
      var limit := LimitArg(a);
      var deadline := if byUser then 10000 else 5000;
      if clientPtr != 0 {
        var call := if byUser then GetUserMessagesWithLimit(parsed.value, limit) else GetLobbyMessagesWithLimit(parsed.value, limit);
        sdkCalls := sdkCalls + [call];
      }
      // Without a client nothing was requested, so no callback arrives.
      var completed, waited := PumpUntilDone(if clientPtr != 0 then cb else Never, deadline, 50);
      var messages: seq<Json> := [];
      if completed && cb.payload.Items? {
        messages := CollectEach(MessageJson, cb.payload.items);
      }
      r := if completed then Succeed(Obj("messages", JArray(messages))) else Fail("Message fetch timeout");
    }

    method GetMessage(a: Option<Json>, found: Option<MessageHandle>) returns (r: Reply)
      modifies this
      ensures Did(GetMessageStep(old(State()), a, found), r, old(sdkCalls))
    {
      if a.None? {
        return Fail("Missing args");
      }
      var text := StrArg(a, "message_id");
      if text.None? {
        return Fail("Missing message_id");
      }
      var parsed := ParseU64(text.value);
      if parsed.None? {
        return Fail("Invalid message_id");
      }
      if !initialized {
        return Fail(NOT_INITIALIZED);
      }
      if clientPtr == 0 {
        return Fail(CLIENT_NOT_INITIALIZED);
      }
      sdkCalls := sdkCalls + [GetMessageHandle(parsed.value)];
      r := if found.Some? then Succeed(MessageJson(found.value)) else Fail("Message not found");
    }

    method CreateLobby(a: Option<Json>, cb: Callback<Option<u64>>) returns (r: Reply)
      modifies this
      ensures Did(CreateLobbyStep(old(State()), a, cb), r, old(sdkCalls))
    {
      var secret, title, description := StrArgOr(a, "secret"), StrArgOr(a, "title"), StrArgOr(a, "description");
      if !initialized {
        return Fail(NOT_INITIALIZED);
      }
      var lobbyId: u64 := 0;
      if clientPtr != 0 {
        sdkCalls := sdkCalls + [CreateOrJoinLobbyWithMetadata(secret, [("title", title), ("description", description)])];
      }
      // Without a client nothing was requested, so no callback arrives.
      var created, waited := PumpUntilDone(if clientPtr != 0 then cb else Never, 10000, 50);
      if created && cb.payload.Some? {
        lobbyId := cb.payload.value;
      }
      r := if created then Succeed(Obj("lobby_id", LobbyIdJson(lobbyId))) else Fail("Lobby creation timeout");
    }

    method SendLobbyMessageCmd(a: Option<Json>, cb: Callback<bool>) returns (r: Reply)
      modifies this
      ensures Did(SendLobbyMessageStep(old(State()), a, cb), r, old(sdkCalls))
    {
      var lobbyId := LobbyIdArg(a);
      var content := StrArgOr(a, "content");
      if !initialized {
        return Fail(NOT_INITIALIZED);
      }
      if lobbyId == 0 {
        return Fail(INVALID_LOBBY_ID);
      }
      var success := false;
      if clientPtr != 0 {
        sdkCalls := sdkCalls + [SendLobbyMessage(lobbyId, content)];
      }
      // Without a client nothing was requested, so no callback arrives.
      var sent, waited := PumpUntilDone(if clientPtr != 0 then cb else Never, 15000, 25);
      if sent {
        success := cb.payload;
      }
      if !sent {
        r := Fail(SEND_TIMEOUT);
      } else if !success {
        r := Fail(SEND_SDK_ERROR);
      } else {
        // The extra 5 s of pumping only lets the SDK flush; no flag is read.
        r := Succeed(Obj("sent", JBool(true)));
      }
    }

    method LeaveLobbyCmd(a: Option<Json>, cb: Callback<()>) returns (r: Reply)
      modifies this
      ensures Did(LeaveLobbyStep(old(State()), a, cb), r, old(sdkCalls))
    {
      var lobbyId := LobbyIdArg(a);
      if !initialized {
        return Fail(NOT_INITIALIZED);
      }
      if lobbyId == 0 {
        return Fail(INVALID_LOBBY_ID);
      }
      if clientPtr != 0 {
        sdkCalls := sdkCalls + [LeaveLobby(lobbyId)];
      }
      // Without a client nothing was requested, so no callback arrives.
      var done, waited := PumpUntilDone(if clientPtr != 0 then cb else Never, 5000, 50);
      r := if done then Succeed(Obj("left", JBool(true))) else Fail("Leave lobby timeout");
    }

    /** `set_mute` (`deaf` false) and `set_deaf` (`deaf` true). */
    method SetSelf(a: Option<Json>, deaf: bool) returns (r: Reply)
      modifies this
      ensures Did(SetSelfStep(old(State()), a, deaf), r, old(sdkCalls))
    {
      var flag := AsBool(Get(a, if deaf then "deaf" else "mute")).GetOr(false);
      if !initialized {
        return Fail(NOT_INITIALIZED);
      }
      if clientPtr != 0 {
        sdkCalls := sdkCalls + [if deaf then SetSelfDeafAll(flag) else SetSelfMuteAll(flag)];
      }
      r := Succeed(Obj(if deaf then "deafened" else "muted", JBool(flag)));
    }

    /** `get_mute_status` (`deaf` false) and `get_deaf_status` (`deaf` true). */
    method GetSelf(answer: bool, deaf: bool) returns (r: Reply)
      modifies this
      ensures Did(GetSelfStep(old(State()), answer, deaf), r, old(sdkCalls))
    {
      if !initialized {
        return Fail(NOT_INITIALIZED);
      }
      var value := false;
      if clientPtr != 0 {
        sdkCalls := sdkCalls + [if deaf then GetSelfDeafAll else GetSelfMuteAll];
        value := answer;
      }
      r := Succeed(Obj(if deaf then "deafened" else "muted", JBool(value)));
    }

    method ConnectLobbyVoice(a: Option<Json>) returns (r: Reply)
      modifies this
      ensures Did(ConnectVoiceStep(old(State()), a), r, old(sdkCalls))
    {
      var lobby := VoiceLobbyId(a);
      if lobby.Err? {
        return Fail(lobby.error);
      }
      if !initialized {
        return Fail(NOT_INITIALIZED);
      }
      if clientPtr == 0 {
        // The early `return Response { id: req.id, .. }`: the dispatcher attaches the id.
        return Fail(CLIENT_NOT_INITIALIZED);
      }
      sdkCalls := sdkCalls + [StartCall(lobby.value)];
      // Nothing ever sets the flag this loop polls, so it always runs to the deadline.
      var connected, waited := PumpUntilDone(Callback<()>.Never, 10000, 100);
      r := Succeed(Obj2("connected", JBool(connected), "callback_fired", JBool(connected)));
    }

    method DisconnectLobbyVoice(a: Option<Json>) returns (r: Reply)
      modifies this
      ensures Did(DisconnectVoiceStep(old(State()), a), r, old(sdkCalls))
    {
      var lobby := VoiceLobbyId(a);
      if lobby.Err? {
        return Fail(lobby.error);
      }
      if !initialized {
        return Fail(NOT_INITIALIZED);
      }
      if clientPtr != 0 {
        sdkCalls := sdkCalls + [EndCall(lobby.value)];
      }
      r := Succeed(Obj("disconnected", JBool(true)));
    }

    /** `get_message_events`: `drain(..)` the queue. */
    method GetMessageEvents() returns (r: Reply)
      modifies this
      ensures Did(MessageEventsStep(old(State())), r, old(sdkCalls))
    {
      var events := messageEvents;
      messageEvents := [];
      var data := CollectEach(EventJson, events);
      r := Succeed(Obj("messages", JArray(data)));
    }

    method CreateOrJoinLobby(a: Option<Json>, cb: Callback<u64>) returns (r: Reply)
      modifies this
      ensures Did(CreateOrJoinStep(old(State()), a, cb), r, old(sdkCalls))
    {
      var secret := StrArgOr(a, "secret");
      if !initialized {
        return Fail(NOT_INITIALIZED);
      }
      if secret == [] {
        return Fail("Lobby secret required");
      }
      var lobbyId: u64 := 0;
      if clientPtr != 0 {
        sdkCalls := sdkCalls + [CreateOrJoinLobbyWithMetadata(secret, [])];
      }
      // Without a client nothing was requested, so no callback arrives.
      var completed, waited := PumpUntilDone(if clientPtr != 0 then cb else Never, 10000, 50);
      if completed {
        lobbyId := cb.payload;
      }
      if completed && lobbyId > 0 {
        r := Succeed(Obj("lobby_id", LobbyIdJson(lobbyId)));
      } else if completed {
        r := Fail("Failed to create/join lobby");
      } else {
        r := Fail("Lobby operation timeout");
      }
    }

    /** `handle_command`: select the arm by name and attach the request's id to its triple. */
    method HandleCommand(req: Request, rp: Replies) returns (resp: Response)
      modifies this
      ensures resp.id == req.id
      ensures var st := Dispatch(old(State()), req, rp);
              resp == Respond(req, st) && State() == st.next && sdkCalls == old(sdkCalls) + st.calls
    {
      var c, a := req.command, req.args;
      var r: Reply;
      if c == "initialize" {
        r := Initialize(a, rp.init);
      } else if c == "disconnect" {
        Cleanup();
        r := Succeed(Obj("status", JString("disconnected")));
      } else if c == "get_guilds" {
        r := GetGuilds(rp.guilds);
      } else if c == "get_guild_channels" {
        r := GetGuildChannels(a, rp.channels);
      } else if c == "send_message" {
        r := SendMessage(a, rp.messageSent);
      } else if c == "set_activity" {
        r := SetActivity(a, rp.activityUpdated);
      } else if c == "get_relationships" {
        r := GetRelationships(rp.relationships);
      } else if c == "get_lobby_ids" {
        r := GetLobbyIds(rp.lobbyIds);
      } else if c == "get_lobby" {
        r := GetLobby(a, rp.lobbyHandle);
      } else if c == "send_dm" {
        r := SendDm(a, rp.dmSent);
      } else if c == "get_lobby_messages" {
        r := GetMessages(a, rp.lobbyMessages, false);
      } else if c == "get_message" {
        r := GetMessage(a, rp.message);
      } else if c == "get_user_messages" {
        r := GetMessages(a, rp.userMessages, true);
      } else if c == "create_lobby" {
        r := CreateLobby(a, rp.lobbyCreated);
      } else if c == "send_lobby_message" {
        r := SendLobbyMessageCmd(a, rp.lobbyMessageSent);
      } else if c == "leave_lobby" {
        r := LeaveLobbyCmd(a, rp.lobbyLeft);
      } else if c == "set_mute" {
        r := SetSelf(a, false);
      } else if c == "set_deaf" {
        r := SetSelf(a, true);
      } else if c == "get_mute_status" {
        r := GetSelf(rp.selfMute, false);
      } else if c == "get_deaf_status" {
        r := GetSelf(rp.selfDeaf, true);
      } else if c == "connect_lobby_voice" {
        r := ConnectLobbyVoice(a);
      } else if c == "disconnect_lobby_voice" {
        r := DisconnectLobbyVoice(a);
      } else if c == "get_message_events" {
        r := GetMessageEvents();
      } else if c == "create_or_join_lobby" {
        r := CreateOrJoinLobby(a, rp.lobbyJoined);
      } else if c == "ping" {
        r := Succeed(Obj("pong", JBool(true)));
      } else {
        r := Fail("Unknown: " + c);
      }
      resp := Response(req.id, r.success, r.result, r.error);
    }

    /**
     * `main`'s read loop: blank lines are skipped, lines that do not parse produce no output,
     * every request gets one response carrying its id, in order; `cleanup()` runs at the end.
     */
    /** One pass of the read loop: a parsed line is handled and its response appended. */
    method ServeOne(line: InputLine, ghost prev: Served, ghost calls0: seq<SdkCall>, out: seq<Response>)
      returns (out': seq<Response>)
      modifies this
      requires out == prev.responses && State() == prev.next && sdkCalls == calls0 + prev.calls
      ensures var n := ServeLine(prev, line);
              out' == n.responses && State() == n.next && sdkCalls == calls0 + n.calls
    {
      out' := out;
      if line.Parsed? {
        ghost var st := Dispatch(prev.next, line.request, line.replies);
        var resp := HandleCommand(line.request, line.replies);
        ghost var done := st.calls;
        AppendAssoc(calls0, prev.calls, done);
        out' := out + [resp];
      }
    }

    method ServeLines(lines: seq<InputLine>) returns (out: seq<Response>)
      modifies this
      ensures var sv := Serve(old(State()), lines);
              out == sv.responses && State() == CleanupState(sv.next) &&
              sdkCalls == old(sdkCalls) + sv.calls + CleanupCalls(sv.next)
      ensures |out| == |Requests(lines)|
      ensures forall k :: 0 <= k < |out| ==> out[k].id == Requests(lines)[k].id
      ensures !initialized && clientPtr == 0 && token.None?
    {
      ghost var s0, calls0 := State(), sdkCalls;
      out := [];
      var i := 0;
      while i < |lines|
        invariant 0 <= i <= |lines|
        invariant var sv := Serve(s0, lines[..i]);
                  out == sv.responses && State() == sv.next && sdkCalls == calls0 + sv.calls
      {
        assert lines[..i + 1][..i] == lines[..i];
        assert Serve(s0, lines[..i + 1]) == ServeLine(Serve(s0, lines[..i]), lines[i]);
        out := ServeOne(lines[i], Serve(s0, lines[..i]), calls0, out);
        i := i + 1;
      }
      assert lines[..|lines|] == lines;
      Cleanup();
      ServeAnswersEach(s0, lines);
    }
  }
}
