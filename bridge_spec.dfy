/**
 * What `handle_command` in rust-native/src/main.rs does with a request, as a function of the
 * process globals and the SDK's answers: the reply triple, the new globals, and the SDK calls
 * made. Each handler arm is one function; `Dispatch` selects the arm by command name.
 */
module BridgeSpec {
  import opened Wrappers
  import opened Decimal
  import opened Json
  import opened Polling
  import opened BridgeTypes
  import opened BridgeArgs
  import opened BridgeReady

  /** A handler's effect: its reply, the globals afterwards, and the SDK calls it made, in order. */
  datatype Step = Step(reply: Reply, next: SessionState, calls: seq<SdkCall>)

  const NOT_INITIALIZED: string := "SDK not initialized"
  const CLIENT_NOT_INITIALIZED: string := "Client not initialized"
  const INVALID_LOBBY_ID: string := "Invalid lobby ID"

  /** A handler that stops before any SDK call and leaves the globals alone. */
  function Refuse(s: SessionState, msg: string): Step { Step(Fail(msg), s, []) }

  /** The asynchronous request is issued only when CLIENT_PTR is set. */
  function CallIfClient(s: SessionState, c: SdkCall): seq<SdkCall>
  {
    if s.clientPtr != 0 then [c] else []
  }

  /** The polling loop sees the callback: the request was issued and its callback ran before the deadline. */
  predicate Seen<T>(s: SessionState, cb: Callback<T>, deadline: nat, interval: nat)
    requires interval > 0
  {
    s.clientPtr != 0 && Completes(cb, deadline, interval)
  }

  function StrArg(a: Option<Json>, key: string): Option<string> { AsStr(Get(a, key)) }

  // ---------------------------------------------------------------- session lifecycle

  /** `cleanup()`: drop the client if there is one, then CLIENT_PTR = 0, TOKEN = None, INITIALIZED = false. */
  function CleanupCalls(s: SessionState): seq<SdkCall>
  {
    if s.clientPtr != 0 then [ClientDrop(s.clientPtr)] else []
  }

  function CleanupState(s: SessionState): SessionState
  {
    s.(initialized := false, clientPtr := 0, token := None)
  }

  /** The effect of `init_discord_sdk`: its `Result`, the globals afterwards, the SDK calls. */
  datatype InitStep = InitStep(result: Result<string, string>, next: SessionState, calls: seq<SdkCall>)

  const NO_APP_ID: string := "No application ID provided"
  const INVALID_TOKEN: string := "Invalid token string"
  const EMPTY_ACCESS_TOKEN: string := "Access token is empty"
  const SHORT_ACCESS_TOKEN: string := "Access token appears malformed (too short)"

  /** The common end of both paths: the ready wait decides the result and INITIALIZED. */
  function ReadyFinish(s: SessionState, calls: seq<SdkCall>, statuses: seq<i32>): InitStep
  {
    var o := ExpectedOutcome(s.currentStatus, statuses);
    InitStep(o.result, s.(currentStatus := o.finalStatus, initialized := s.initialized || o.result.Ok?), calls)
  }

  /** `i` with `calls` made before it. */
  function After(calls: seq<SdkCall>, i: InitStep): (r: InitStep)
    ensures r.result == i.result && r.next == i.next && r.calls == calls + i.calls
  {
    InitStep(i.result, i.next, calls + i.calls)
  }

  /** The stored-token path, from the state after the status callback is registered. */
  function StoredTokenInit(s1: SessionState, token: string, ir: InitReplies): InitStep
  {
    var parsed := ParseStoredToken(token);
    if HasNul(parsed.1) then InitStep(Err(INVALID_TOKEN), s1, [])
    else
      var calls2 := [UpdateToken(parsed.0, parsed.1), Connect, SetMessageCreatedCallback];
      ReadyFinish(s1.(token := Some(parsed.1), clientPtr := ir.clientAddress), calls2, ir.statuses)
  }

  /** The OAuth path, from the state after the status callback is registered. */
  function OAuthInit(s1: SessionState, ir: InitReplies): InitStep
  {
    var calls2 := [AuthorizationFlow];
    match ir.auth
    case AuthGranted(access, tokenType) =>
      if HasNul(access) then InitStep(Err(INVALID_TOKEN), s1, calls2)
      else
        var calls3 := calls2 + [UpdateToken(tokenType, access)];
        if access == [] then InitStep(Err(EMPTY_ACCESS_TOKEN), s1, calls3)
        else if |access| < 20 then InitStep(Err(SHORT_ACCESS_TOKEN), s1, calls3)
        else ReadyFinish(s1.(clientPtr := ir.clientAddress, token := Some(access)), calls3 + [Connect], ir.statuses)
    case _ => InitStep(Err(AuthFailure(ir.auth)), s1, calls2)
  }

  /** `init_discord_sdk(token, app_id)`: which path runs, and what each check refuses. */
  function InitSpec(s: SessionState, token: string, appId: u64, ir: InitReplies): InitStep
  {
    var calls0 := [SetFreeThreaded, ClientInit];
    if appId == 0 then InitStep(Err(NO_APP_ID), s, calls0)
    else
      var s1 := s.(appId := appId);
      var calls1 := calls0 + [SetApplicationId(appId), SetStatusChangedCallback];
      After(calls1, if UsesStoredToken(token) then StoredTokenInit(s1, token, ir) else OAuthInit(s1, ir))
  }

  /** `initialize`: `token` is required; `app_id` is a decimal string read as u64, 0 when absent or malformed. */
  function InitializeStep(s: SessionState, a: Option<Json>, ir: InitReplies): Step
  {
    if a.None? then Refuse(s, "Missing args")
    else
      match StrArg(a, "token")
      case None => Refuse(s, "Missing token")
      case Some(token) =>
        var i := InitSpec(s, token, U64Text(a, "app_id").GetOr(0), ir);
        match i.result
        case Ok(msg) => Step(Succeed(Obj("status", JString(msg))), i.next, i.calls)
        case Err(e) => Step(Fail(e), i.next, i.calls)
  }

  function DisconnectStep(s: SessionState): Step
  {
    Step(Succeed(Obj("status", JString("disconnected"))), CleanupState(s), CleanupCalls(s))
  }

  // ---------------------------------------------------------------- guild queries

  /** What the guilds callback leaves behind: the guild list and the error text. */
  function GuildsCollected(span: Span<GuildMinimal>): (seq<Json>, string)
  {
    match span
    case NullSpan => ([], "Null span pointer")
    case Items(gs) => (MapJson(GuildJson, gs), "")
  }

  /** `get_guilds` outcome: a failure only when no guild was collected and an error was recorded. */
  function GuildsReply(fetched: seq<Json>, error: string): Reply
  {
    if |fetched| == 0 && error != "" then Fail(error) else Succeed(Obj("guilds", JArray(fetched)))
  }

  function GuildsStep(s: SessionState, cb: Callback<Span<GuildMinimal>>): Step
  {
    if !s.initialized then Refuse(s, NOT_INITIALIZED)
    else if s.clientPtr == 0 then Refuse(s, CLIENT_NOT_INITIALIZED)
    else
      var got := if Completes(cb, 15000, 50) then GuildsCollected(cb.payload) else ([], "");
      Step(GuildsReply(got.0, got.1), s, [GetUserGuilds])
  }

  function ChannelsCollected(span: Span<GuildChannel>): seq<Json>
  {
    match span
    case NullSpan => []
    case Items(cs) => MapJson(ChannelJson, cs)
  }

  function ChannelsStep(s: SessionState, a: Option<Json>, cb: Callback<Span<GuildChannel>>): Step
  {
    if a.None? then Refuse(s, "Missing args")
    else match StrArg(a, "guild_id")
    case None => Refuse(s, "Missing guild_id")
    case Some(text) =>
      match ParseU64(text)
      case None => Refuse(s, "Invalid guild_id")
      case Some(guildId) =>
        if !s.initialized then Refuse(s, NOT_INITIALIZED)
        else
          var calls := CallIfClient(s, GetGuildChannels(guildId));
          if !Seen(s, cb, 5000, 50) then Step(Fail("Timeout for guild " + NatToString(guildId)), s, calls)
          else Step(Succeed(Obj("channels", JArray(ChannelsCollected(cb.payload)))), s, calls)
  }

  // ---------------------------------------------------------------- messages

  function SendMessageStep(s: SessionState, a: Option<Json>, cb: Callback<()>): Step
  {
    if a.None? then Refuse(s, "Missing args")
    else if StrArg(a, "channel_id").None? || StrArg(a, "content").None? then Refuse(s, "Missing channel_id or content")
    else
      var content := StrArg(a, "content").value;
      match ParseU64(StrArg(a, "channel_id").value)
      case None => Refuse(s, "Invalid channel_id")
      case Some(channelId) =>
        if !s.initialized then Refuse(s, NOT_INITIALIZED)
        else if HasNul(content) then Refuse(s, "Invalid content")
        else
          var calls := CallIfClient(s, SendLobbyMessage(channelId, content));
          if Seen(s, cb, 5000, 50) then Step(Succeed(Obj("sent", JBool(true))), s, calls)
          else Step(Fail("Message send timeout"), s, calls)
  }

  function SendDmStep(s: SessionState, a: Option<Json>, cb: Callback<u64>): Step
  {
    if a.None? then Refuse(s, "Missing args")
    else if StrArg(a, "recipient_id").None? || StrArg(a, "content").None? then Refuse(s, "Missing recipient_id or content")
    else
      var content := StrArg(a, "content").value;
      match ParseU64(StrArg(a, "recipient_id").value)
      case None => Refuse(s, "Invalid recipient_id")
      case Some(recipientId) =>
        if !s.initialized then Refuse(s, NOT_INITIALIZED)
        else if HasNul(content) then Refuse(s, "Invalid content")
        else
          var calls := CallIfClient(s, SendUserMessage(recipientId, content));
          if Seen(s, cb, 5000, 50) then Step(Succeed(Obj("message_id", IdText(cb.payload))), s, calls)
          else Step(Fail("DM send timeout"), s, calls)
  }

  function MessagesCollected(span: Span<MessageHandle>): seq<Json>
  {
    match span
    case NullSpan => []
    case Items(ms) => MapJson(MessageJson, ms)
  }

  /** `get_lobby_messages` (5 s) and `get_user_messages` (10 s) differ in their keys, call and deadline. */
  function MessagesStep(s: SessionState, a: Option<Json>, cb: Callback<Span<MessageHandle>>, byUser: bool): Step
  {
    var key := if byUser then "recipient_id" else "lobby_id";
    if a.None? then Refuse(s, "Missing args")
    else match StrArg(a, key)
    case None => Refuse(s, "Missing " + key)
    case Some(text) =>
      match ParseU64(text)
      case None => Refuse(s, "Invalid " + key)
      case Some(id) =>
        if !s.initialized then Refuse(s, NOT_INITIALIZED)
        else
          var limit := LimitArg(a);
          var calls := CallIfClient(s, if byUser then GetUserMessagesWithLimit(id, limit) else GetLobbyMessagesWithLimit(id, limit));
          if Seen(s, cb, if byUser then 10000 else 5000, 50) then Step(Succeed(Obj("messages", JArray(MessagesCollected(cb.payload)))), s, calls)
          else Step(Fail("Message fetch timeout"), s, calls)
  }

  function GetMessageStep(s: SessionState, a: Option<Json>, found: Option<MessageHandle>): Step
  {
    if a.None? then Refuse(s, "Missing args")
    else match StrArg(a, "message_id")
    case None => Refuse(s, "Missing message_id")
    case Some(text) =>
      match ParseU64(text)
      case None => Refuse(s, "Invalid message_id")
      case Some(id) =>
        if !s.initialized then Refuse(s, NOT_INITIALIZED)
        else if s.clientPtr == 0 then Refuse(s, CLIENT_NOT_INITIALIZED)
        else
          match found
          case Some(m) => Step(Succeed(MessageJson(m)), s, [GetMessageHandle(id)])
          case None => Step(Fail("Message not found"), s, [GetMessageHandle(id)])
  }

  /** `get_message_events`: every queued event, oldest first, and the queue emptied. */
  function MessageEventsStep(s: SessionState): Step
  {
    Step(Succeed(Obj("messages", JArray(MapJson(EventJson, s.events)))), s.(events := []), [])
  }

  // ---------------------------------------------------------------- presence and social

  function SetActivityStep(s: SessionState, a: Option<Json>, cb: Callback<()>): Step
  {
    if a.None? then Refuse(s, "Missing args")
    else if !s.initialized then Refuse(s, NOT_INITIALIZED)
    else
      var calls := CallIfClient(s, UpdateRichPresence);
      if Seen(s, cb, 3000, 50) then Step(Succeed(Obj("updated", JBool(true))), s, calls)
      else Step(Fail("Activity update timeout"), s, calls)
  }

  function RelationshipsStep(s: SessionState, span: Span<Relationship>): Step
  {
    if !s.initialized then Refuse(s, NOT_INITIALIZED)
    else if s.clientPtr == 0 then Refuse(s, CLIENT_NOT_INITIALIZED)
    else
      var friends := match span case NullSpan => [] case Items(rs) => Friends(rs);
      Step(Succeed(Obj("friends", JArray(friends))), s, [GetRelationships])
  }

  // ---------------------------------------------------------------- lobbies

  /** The lobby ids that `get_lobby_ids` copies: a span is trusted only when non-null with 0 < size < 1000. */
  function LobbyIdsCollected(span: Span<u64>): seq<Json>
  {
    match span
    case NullSpan => []
    case Items(ids) => if 0 < |ids| < 1000 then MapJson(LobbyIdJson, ids) else []
  }

  function LobbyIdsStep(s: SessionState, span: Span<u64>): Step
  {
    if !s.initialized then Refuse(s, NOT_INITIALIZED)
    else if s.clientPtr == 0 then Refuse(s, CLIENT_NOT_INITIALIZED)
    else Step(Succeed(Obj("lobby_ids", JArray(LobbyIdsCollected(span)))), s, [GetLobbyIds])
  }

  /** `get_lobby` checks the id before the session: an id of 0 is refused even when not initialized. */
  function GetLobbyStep(s: SessionState, a: Option<Json>, handle: Option<seq<Property>>): Step
  {
    var lobbyId := LobbyIdArg(a);
    if lobbyId == 0 then Refuse(s, INVALID_LOBBY_ID)
    else if !s.initialized then Refuse(s, NOT_INITIALIZED)
    else if s.clientPtr == 0 then Refuse(s, CLIENT_NOT_INITIALIZED)
    else
      match handle
      case Some(props) => Step(Succeed(Obj2("lobby_id", JInt(lobbyId), "metadata", JObject(Metadata(props)))), s, [GetLobbyHandle(lobbyId)])
      case None => Step(Fail("Failed to get lobby handle for " + NatToString(lobbyId)), s, [GetLobbyHandle(lobbyId)])
  }

  function StrArgOr(a: Option<Json>, key: string): string { StrArg(a, key).GetOr("") }

  function CreateLobbyStep(s: SessionState, a: Option<Json>, cb: Callback<Option<u64>>): Step
  {
    var secret, title, description := StrArgOr(a, "secret"), StrArgOr(a, "title"), StrArgOr(a, "description");
    if !s.initialized then Refuse(s, NOT_INITIALIZED)
    else
      var calls := CallIfClient(s, CreateOrJoinLobbyWithMetadata(secret, [("title", title), ("description", description)]));
      if Seen(s, cb, 10000, 50) then Step(Succeed(Obj("lobby_id", LobbyIdJson(cb.payload.GetOr(0)))), s, calls)
      else Step(Fail("Lobby creation timeout"), s, calls)
  }

  const SEND_TIMEOUT: string := "Send message timeout - callback never fired"
  const SEND_SDK_ERROR: string := "Discord SDK returned error result for " + "SendLobbyMessage"

  /** `send_lobby_message` checks the session first and the id second; the callback reports a non-null result. */
  function SendLobbyMessageStep(s: SessionState, a: Option<Json>, cb: Callback<bool>): Step
  {
    var lobbyId := LobbyIdArg(a);
    if !s.initialized then Refuse(s, NOT_INITIALIZED)
    else if lobbyId == 0 then Refuse(s, INVALID_LOBBY_ID)
    else
      var calls := CallIfClient(s, SendLobbyMessage(lobbyId, StrArgOr(a, "content")));
      if !Seen(s, cb, 15000, 25) then Step(Fail(SEND_TIMEOUT), s, calls)
      else if !cb.payload then Step(Fail(SEND_SDK_ERROR), s, calls)
      else Step(Succeed(Obj("sent", JBool(true))), s, calls)
  }

  function LeaveLobbyStep(s: SessionState, a: Option<Json>, cb: Callback<()>): Step
  {
    var lobbyId := LobbyIdArg(a);
    if !s.initialized then Refuse(s, NOT_INITIALIZED)
    else if lobbyId == 0 then Refuse(s, INVALID_LOBBY_ID)
    else
      var calls := CallIfClient(s, LeaveLobby(lobbyId));
      if Seen(s, cb, 5000, 50) then Step(Succeed(Obj("left", JBool(true))), s, calls)
      else Step(Fail("Leave lobby timeout"), s, calls)
  }

  /** `create_or_join_lobby`: success needs a completed callback with a positive id. */
  function CreateOrJoinStep(s: SessionState, a: Option<Json>, cb: Callback<u64>): Step
  {
    var secret := StrArgOr(a, "secret");
    if !s.initialized then Refuse(s, NOT_INITIALIZED)
    else if secret == [] then Refuse(s, "Lobby secret required")
    else
      var calls := CallIfClient(s, CreateOrJoinLobbyWithMetadata(secret, []));
      var completed := Seen(s, cb, 10000, 50);
      if completed && cb.payload > 0 then Step(Succeed(Obj("lobby_id", LobbyIdJson(cb.payload))), s, calls)
      else if completed then Step(Fail("Failed to create/join lobby"), s, calls)
      else Step(Fail("Lobby operation timeout"), s, calls)
  }

  // ---------------------------------------------------------------- voice

  /** `set_mute` / `set_deaf`: the flag defaults to false; the reply echoes it. */
  function SetSelfStep(s: SessionState, a: Option<Json>, deaf: bool): Step
  {
    var flag := AsBool(Get(a, if deaf then "deaf" else "mute")).GetOr(false);
    if !s.initialized then Refuse(s, NOT_INITIALIZED)
    else Step(Succeed(Obj(if deaf then "deafened" else "muted", JBool(flag))), s,
              CallIfClient(s, if deaf then SetSelfDeafAll(flag) else SetSelfMuteAll(flag)))
  }

  /** `get_mute_status` / `get_deaf_status`: the SDK's answer, or false without a client. */
  function GetSelfStep(s: SessionState, answer: bool, deaf: bool): Step
  {
    if !s.initialized then Refuse(s, NOT_INITIALIZED)
    else Step(Succeed(Obj(if deaf then "deafened" else "muted", JBool(s.clientPtr != 0 && answer))), s,
              CallIfClient(s, if deaf then GetSelfDeafAll else GetSelfMuteAll))
  }

  /** The validation shared by the two voice commands: the lobby id must be a decimal string. */
  function VoiceLobbyId(a: Option<Json>): Result<u64, string>
  {
    if a.None? then Err("Missing arguments")
    else match StrArg(a, "lobby_id")
    case None => Err("Missing lobby_id argument")
    case Some(text) =>
      match ParseU64(text)
      case None => Err(INVALID_LOBBY_ID)
      case Some(id) => Ok(id)
  }

  /**
   * `connect_lobby_voice`: the flag the wait loop polls is never set by any code, so the
   * reply is always `{"connected": false, "callback_fired": false}` once a call was started.
   */
  function ConnectVoiceStep(s: SessionState, a: Option<Json>): Step
  {
    match VoiceLobbyId(a)
    case Err(e) => Refuse(s, e)
    case Ok(lobbyId) =>
      if !s.initialized then Refuse(s, NOT_INITIALIZED)
      else if s.clientPtr == 0 then Refuse(s, CLIENT_NOT_INITIALIZED)
      else Step(Succeed(Obj2("connected", JBool(false), "callback_fired", JBool(false))), s, [StartCall(lobbyId)])
  }

  /** `disconnect_lobby_voice`: pumps for the full 10 s and always reports success. */
  function DisconnectVoiceStep(s: SessionState, a: Option<Json>): Step
  {
    match VoiceLobbyId(a)
    case Err(e) => Refuse(s, e)
    case Ok(lobbyId) =>
      if !s.initialized then Refuse(s, NOT_INITIALIZED)
      else Step(Succeed(Obj("disconnected", JBool(true))), s, CallIfClient(s, EndCall(lobbyId)))
  }

  // ---------------------------------------------------------------- dispatch

  const KNOWN_COMMANDS: set<string> := {
    "initialize", "disconnect", "get_guilds", "get_guild_channels", "send_message", "set_activity",
    "get_relationships", "get_lobby_ids", "get_lobby", "send_dm", "get_lobby_messages", "get_message",
    "get_user_messages", "create_lobby", "send_lobby_message", "leave_lobby", "set_mute", "set_deaf",
    "get_mute_status", "get_deaf_status", "connect_lobby_voice", "disconnect_lobby_voice",
    "get_message_events", "create_or_join_lobby", "ping"}

  /** The commands that consult INITIALIZED; the others work in any session state. */
  const GUARDED_COMMANDS: set<string> := KNOWN_COMMANDS - {"initialize", "disconnect", "get_message_events", "ping"}

  function Dispatch(s: SessionState, req: Request, rp: Replies): Step
  {
    var c, a := req.command, req.args;
    if c == "initialize" then InitializeStep(s, a, rp.init)
    else if c == "disconnect" then DisconnectStep(s)
    else if c == "get_guilds" then GuildsStep(s, rp.guilds)
    else if c == "get_guild_channels" then ChannelsStep(s, a, rp.channels)
    else if c == "send_message" then SendMessageStep(s, a, rp.messageSent)
    else if c == "set_activity" then SetActivityStep(s, a, rp.activityUpdated)
    else if c == "get_relationships" then RelationshipsStep(s, rp.relationships)
    else if c == "get_lobby_ids" then LobbyIdsStep(s, rp.lobbyIds)
    else if c == "get_lobby" then GetLobbyStep(s, a, rp.lobbyHandle)
    else if c == "send_dm" then SendDmStep(s, a, rp.dmSent)
    else if c == "get_lobby_messages" then MessagesStep(s, a, rp.lobbyMessages, false)
    else if c == "get_message" then GetMessageStep(s, a, rp.message)
    else if c == "get_user_messages" then MessagesStep(s, a, rp.userMessages, true)
    else if c == "create_lobby" then CreateLobbyStep(s, a, rp.lobbyCreated)
    else if c == "send_lobby_message" then SendLobbyMessageStep(s, a, rp.lobbyMessageSent)
    else if c == "leave_lobby" then LeaveLobbyStep(s, a, rp.lobbyLeft)
    else if c == "set_mute" then SetSelfStep(s, a, false)
    else if c == "set_deaf" then SetSelfStep(s, a, true)
    else if c == "get_mute_status" then GetSelfStep(s, rp.selfMute, false)
    else if c == "get_deaf_status" then GetSelfStep(s, rp.selfDeaf, true)
    else if c == "connect_lobby_voice" then ConnectVoiceStep(s, a)
    else if c == "disconnect_lobby_voice" then DisconnectVoiceStep(s, a)
    else if c == "get_message_events" then MessageEventsStep(s)
    else if c == "create_or_join_lobby" then CreateOrJoinStep(s, a, rp.lobbyJoined)
    else if c == "ping" then Step(Succeed(Obj("pong", JBool(true))), s, [])
    else Refuse(s, "Unknown: " + c)
  }

  /** The response line: the triple with the request's id attached. */
  function Respond(req: Request, st: Step): Response
  {
    Response(req.id, st.reply.success, st.reply.result, st.reply.error)
  }
}
