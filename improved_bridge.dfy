/**
 * rust-native/src/main_improved.rs: the smaller stdio subprocess. Its session is one
 * `STATE: Option<State>`, replaced wholesale by `init_discord`, taken by `disconnect_cmd`
 * and touched by `status_cb`; callbacks run on a background thread, so the wait loops only
 * sleep and read a flag that the callback sets.
 */
module ImprovedBridge {
  import opened Wrappers
  import opened Decimal
  import opened Json
  import opened Polling
  import opened BridgeTypes
  import opened BridgeArgs

  /** `struct State`. */
  datatype State = State(client: nat, token: Option<string>, status: i32, initialized: bool)

  /** `DiscordGuildMinimal`, with its name as the SDK string it hands out (`None` for null). */
  datatype Guild = Guild(id: u64, name: SdkString)

  /** `DiscordGuildChannel`: `name` is the raw fixed-size `c_char` array. */
  datatype Channel = Channel(id: u64, guildId: u64, name: seq<char>, channelType: nat)

  /** What the SDK hands back while a command runs. */
  datatype Replies = Replies(client: Address, guilds: Callback<Span<Guild>>, channels: Callback<Span<Channel>>)

  /** A handler's triple, the STATE it leaves, and the SDK calls it made. */
  datatype Step = Step(reply: Reply, next: Option<State>, calls: seq<SdkCall>)

  const NOT_INITIALIZED: string := "Not initialized"
  const GUILDS_DEADLINE: nat := 3000
  const CHANNELS_DEADLINE: nat := 5000
  const FLAG_INTERVAL: nat := 50
  /** The wait for a connected status before `get_guilds`: 3 s in steps of 100 ms. */
  const CONNECT_DEADLINE: nat := 3000
  const CONNECT_INTERVAL: nat := 100

  // ---------------------------------------------------------------- records to JSON

  /** The position of the first NUL, if any. */
  function FirstNul(raw: seq<char>): (r: Option<nat>)
    ensures r.Some? ==> r.value < |raw| && raw[r.value] == '\0'
    ensures r.Some? ==> forall i :: 0 <= i < r.value ==> raw[i] != '\0'
    ensures r.None? <==> '\0' !in raw
  {
    if raw == [] then None
    else if raw[0] == '\0' then Some(0)
    else match FirstNul(raw[1..])
      case None => None
      case Some(j) => Some(j + 1)
  }

  /**
   * The channel name as the callback reads it: the characters before the first NUL, or
   * "Unknown" when the array has no NUL or starts with one.
   */
  function ChannelName(raw: seq<char>): string
  {
    match FirstNul(raw)
    case Some(j) => if j > 0 then raw[..j] else "Unknown"
    case None => "Unknown"
  }

  /** A NUL-terminated non-empty name is read back as written. */
  lemma ChannelNameOfTerminated(name: string, rest: seq<char>)
    requires name != [] && '\0' !in name
    ensures ChannelName(name + ['\0'] + rest) == name
  {
    var raw := name + ['\0'] + rest;
    assert raw[|name|] == '\0';
    assert raw[..|name|] == name;
    assert forall i :: 0 <= i < |name| ==> raw[i] == name[i];
  }

  /** The name scan of the channels callback: `for j in 0..len { if name[j] == 0 { len = j; break } }`. */
  method NameLength(raw: seq<char>) returns (len: nat)
    ensures FirstNul(raw).Some? ==> len == FirstNul(raw).value
    ensures FirstNul(raw).None? ==> len == 0
  {
    len := 0;
    var j := 0;
    while j < |raw|
      invariant 0 <= j <= |raw|
      invariant forall i :: 0 <= i < j ==> raw[i] != '\0'
    {
      if raw[j] == '\0' {
        len := j;
        return;
      }
      j := j + 1;
    }
  }

  function GuildJson(g: Guild): Json
  {
    JObject(map["id" := IdText(g.id), "name" := JString(if g.name.Some? then g.name.value else "Unknown")])
  }

  function ChannelJson(c: Channel): Json
  {
    JObject(map[
      "id" := IdText(c.id),
      "name" := JString(ChannelName(c.name)),
      "guild_id" := IdText(c.guildId),
      "type" := JInt(c.channelType)])
  }

  /** What a callback collects: nothing from a null or empty span, else one entry per record. */
  function Collected<T>(f: T -> Json, span: Span<T>): (r: seq<Json>)
    ensures span.NullSpan? ==> r == []
    ensures span.Items? ==> |r| == |span.items|
  {
    match span
    case NullSpan => []
    case Items(xs) => MapJson(f, xs)
  }

  // ---------------------------------------------------------------- commands

  /** `init_discord(token, app_id)`: only a token with a NUL byte is refused. */
  function InitDiscord(st: Option<State>, token: string, appId: u64, client: Address): (Result<(), string>, Option<State>, seq<SdkCall>)
  {
    var calls := [ClientInit] + (if appId != 0 then [SetApplicationId(appId)] else []) + [SetStatusChangedCallback];
    if HasNul(token) then (Err("Invalid token"), st, calls)
    else (Ok(()), Some(State(client, Some(token), 0, true)), calls + [UpdateToken(1, token), Connect])
  }

  function InitCmd(st: Option<State>, a: Option<Json>, client: Address): Step
  {
    if a.None? then Step(Fail("Missing args"), st, [])
    else
      match AsStr(Get(a, "token"))
      case None => Step(Fail("Missing token"), st, [])
      case Some(token) =>
        var r := InitDiscord(st, token, U64Text(a, "app_id").GetOr(0), client);
        match r.0
        case Ok(_) => Step(Succeed(Obj("status", JString("initialized"))), r.1, r.2)
        case Err(e) => Step(Fail(e), r.1, r.2)
  }

  predicate Ready(st: Option<State>) { st.Some? && st.value.initialized }

  function GuildsCmd(st: Option<State>, cb: Callback<Span<Guild>>): Step
  {
    if !Ready(st) then Step(Fail(NOT_INITIALIZED), st, [])
    else if FiredBy(cb, PumpTick(GUILDS_DEADLINE, FLAG_INTERVAL)) then
      Step(Succeed(Obj("guilds", JArray(Collected(GuildJson, cb.payload)))), st, [GetUserGuilds])
    else Step(Fail("Timeout"), st, [GetUserGuilds])
  }

  function ChannelsCmd(st: Option<State>, a: Option<Json>, cb: Callback<Span<Channel>>): Step
  {
    if a.None? then Step(Fail("Missing args"), st, [])
    else
      match U64Text(a, "guild_id")
      case None => Step(Fail("Invalid guild_id"), st, [])
      case Some(guildId) =>
        if !Ready(st) then Step(Fail(NOT_INITIALIZED), st, [])
        else if FiredBy(cb, PumpTick(CHANNELS_DEADLINE, FLAG_INTERVAL)) then
          Step(Succeed(Obj("channels", JArray(Collected(ChannelJson, cb.payload)))), st, [SdkCall.GetGuildChannels(guildId)])
        else Step(Fail("Timeout for guild " + NatToString(guildId)), st, [SdkCall.GetGuildChannels(guildId)])
  }

  function DisconnectCmd(st: Option<State>): Step
  {
    var calls := if st.Some? && st.value.client != 0 then [ClientDrop(st.value.client)] else [];
    Step(Succeed(Obj("status", JString("disconnected"))), None, calls)
  }

  /** `status_cb`: record the status in STATE, when there is one. */
  function StatusChanged(st: Option<State>, status: i32): Option<State>
  {
    if st.Some? then Some(st.value.(status := status)) else None
  }

  const COMMANDS: set<string> := {"initialize", "get_guilds", "get_guild_channels", "disconnect", "ping"}

  function Dispatch(st: Option<State>, req: Request, rp: Replies): Step
  {
    var c, a := req.command, req.args;
    if c == "initialize" then InitCmd(st, a, rp.client)
    else if c == "get_guilds" then GuildsCmd(st, rp.guilds)
    else if c == "get_guild_channels" then ChannelsCmd(st, a, rp.channels)
    else if c == "disconnect" then DisconnectCmd(st)
    else if c == "ping" then Step(Succeed(Obj("pong", JBool(true))), st, [])
    else Step(Fail("Unknown: " + c), st, [])
  }

  function Respond(req: Request, st: Step): Response
  {
    Response(req.id, st.reply.success, st.reply.result, st.reply.error)
  }

  // ---------------------------------------------------------------- properties

  /** Only the five names are dispatched; any other is refused by name and changes nothing. */
  lemma OnlyFiveCommands(st: Option<State>, req: Request, rp: Replies)
    requires req.command !in COMMANDS
    ensures var r := Respond(req, Dispatch(st, req, rp));
            r.id == req.id && !r.success && r.result.None? && r.error == Some("Unknown: " + req.command)
    ensures Dispatch(st, req, rp).next == st && Dispatch(st, req, rp).calls == []
  {
  }

  /** `init_cmd` checks args, then the token, and reads a missing or malformed app_id as 0. */
  lemma InitCmdOrder(st: Option<State>, a: Option<Json>, client: Address)
    ensures a.None? ==> InitCmd(st, a, client) == Step(Fail("Missing args"), st, [])
    ensures a.Some? && AsStr(Get(a, "token")).None? ==> InitCmd(st, a, client) == Step(Fail("Missing token"), st, [])
    ensures a.Some? && AsStr(Get(a, "token")).Some? && U64Text(a, "app_id").None? ==>
              InitCmd(st, a, client).calls[..2] == [ClientInit, SetStatusChangedCallback]
  {
  }

  /** A session-dependent command without an initialized STATE is refused and calls nothing. */
  lemma GuardWithoutState(st: Option<State>, a: Option<Json>, rp: Replies, guildId: u64)
    requires !Ready(st)
    requires U64Text(a, "guild_id") == Some(guildId)
    ensures GuildsCmd(st, rp.guilds) == Step(Fail(NOT_INITIALIZED), st, [])
    ensures ChannelsCmd(st, a, rp.channels) == Step(Fail(NOT_INITIALIZED), st, [])
  {
  }

  /** `channels_cmd` rejects a bad guild_id whatever the session. */
  lemma ChannelsValidateFirst(st: Option<State>, a: Option<Json>, cb: Callback<Span<Channel>>)
    requires a.Some? && U64Text(a, "guild_id").None?
    ensures ChannelsCmd(st, a, cb) == Step(Fail("Invalid guild_id"), st, [])
  {
  }

  /** A successful `initialize` replaces STATE outright, whatever was there before. */
  lemma InitReplacesState(st: Option<State>, token: string, a: map<string, Json>, client: Address)
    requires Get(Some(JObject(a)), "token") == Some(JString(token)) && !HasNul(token)
    ensures var r := InitCmd(st, Some(JObject(a)), client);
            r.reply.success && r.next == Some(State(client, Some(token), 0, true)) && r.next.value.client != 0
    ensures var r := InitCmd(st, Some(JObject(a)), client);
            |r.calls| >= 2 && r.calls[|r.calls| - 2..] == [UpdateToken(1, token), Connect]
  {
  }

  /** `disconnect` always succeeds and leaves no STATE; a second one drops nothing. */
  lemma DisconnectIdempotent(st: Option<State>)
    ensures DisconnectCmd(st).reply == Succeed(Obj("status", JString("disconnected")))
    ensures DisconnectCmd(st).next.None?
    ensures DisconnectCmd(DisconnectCmd(st).next) == Step(DisconnectCmd(st).reply, None, [])
  {
  }

  /** `status_cb` touches only the status, and only of an existing STATE. */
  lemma StatusChangedOnlyWithState(st: Option<State>, status: i32)
    ensures st.None? ==> StatusChanged(st, status).None?
    ensures st.Some? ==> StatusChanged(st, status) == Some(State(st.value.client, st.value.token, status, st.value.initialized))
  {
  }

  /** The guild and channel commands time out exactly when the flag is still down at the last read. */
  lemma TimeoutIffFlagDown(st: Option<State>, a: Option<Json>, rp: Replies, guildId: u64)
    requires Ready(st) && a.Some? && U64Text(a, "guild_id") == Some(guildId)
    ensures !GuildsCmd(st, rp.guilds).reply.success <==> !FiredBy(rp.guilds, GUILDS_DEADLINE)
    ensures ChannelsCmd(st, a, rp.channels).reply == Fail("Timeout for guild " + NatToString(guildId)) <==>
              !FiredBy(rp.channels, CHANNELS_DEADLINE)
  {
    assert PumpTick(GUILDS_DEADLINE, FLAG_INTERVAL) == GUILDS_DEADLINE;
    assert PumpTick(CHANNELS_DEADLINE, FLAG_INTERVAL) == CHANNELS_DEADLINE;
  }

  /** A channel array with a name before its NUL shows that name; one without shows "Unknown". */
  lemma ChannelJsonName(c: Channel)
    ensures '\0' !in c.name ==> ChannelJson(c).fields["name"] == JString("Unknown")
    ensures |c.name| > 0 && c.name[0] == '\0' ==> ChannelJson(c).fields["name"] == JString("Unknown")
  {
  }

  // ---------------------------------------------------------------- the process

  /** The channel loop of the callback, one record at a time. */
  method CollectChannels(cs: seq<Channel>) returns (out: seq<Json>)
    ensures out == MapJson(ChannelJson, cs)
  {
    out := [];
    var i := 0;
    while i < |cs|
      invariant 0 <= i <= |cs|
      invariant out == MapJson(ChannelJson, cs[..i])
    {
      assert cs[..i + 1][..i] == cs[..i];
      var c := cs[i];
      var len := NameLength(c.name);
      var name := if len > 0 then c.name[..len] else "Unknown";
      out := out + [JObject(map["id" := IdText(c.id), "name" := JString(name), "guild_id" := IdText(c.guildId), "type" := JInt(c.channelType)])];
      i := i + 1;
    }
    assert cs[..|cs|] == cs;
  }

  /** The guild loop of the callback. */
  method CollectGuilds(gs: seq<Guild>) returns (out: seq<Json>)
    ensures out == MapJson(GuildJson, gs)
  {
    out := [];
    var i := 0;
    while i < |gs|
      invariant 0 <= i <= |gs|
      invariant out == MapJson(GuildJson, gs[..i])
    {
      assert gs[..i + 1][..i] == gs[..i];
      out := out + [GuildJson(gs[i])];
      i := i + 1;
    }
    assert gs[..|gs|] == gs;
  }

  /**
   * The wait for a connection before `get_guilds`: each 100 ms step re-reads the status until
   * it is at least 1 or 3 s have passed. Commands are atomic, so the status does not change
   * while it waits.
   */
  method AwaitConnection(status: i32) returns (waited: nat)
    ensures status >= 1 ==> waited == 0
    ensures status < 1 ==> waited == CONNECT_DEADLINE
  {
    waited := 0;
    while waited < CONNECT_DEADLINE
      invariant waited <= CONNECT_DEADLINE && waited % CONNECT_INTERVAL == 0
      invariant status >= 1 ==> waited == 0
    {
      if status >= 1 {
        break;
      }
      waited := waited + CONNECT_INTERVAL;
    }
  }

  class Process {
    var state: Option<State>
    ghost var sdkCalls: seq<SdkCall>

    constructor ()
      ensures state.None? && sdkCalls == []
    {
      state := None;
      sdkCalls := [];
    }

    ghost predicate Did(st: Step, r: Reply, callsBefore: seq<SdkCall>)
      reads this
    {
      r == st.reply && state == st.next && sdkCalls == callsBefore + st.calls
    }

    method InitDiscordSdk(token: string, appId: u64, client: Address) returns (result: Result<(), string>)
      modifies this
      ensures var i := InitDiscord(old(state), token, appId, client);
              result == i.0 && state == i.1 && sdkCalls == old(sdkCalls) + i.2
    {
      sdkCalls := sdkCalls + [ClientInit];
      if appId != 0 {
        sdkCalls := sdkCalls + [SetApplicationId(appId)];
      }
      sdkCalls := sdkCalls + [SetStatusChangedCallback];
      if HasNul(token) {
        return Err("Invalid token");
      }
      sdkCalls := sdkCalls + [UpdateToken(1, token)];
      sdkCalls := sdkCalls + [Connect];
      state := Some(State(client, Some(token), 0, true));
      result := Ok(());
    }

    method Init(a: Option<Json>, client: Address) returns (r: Reply)
      modifies this
      ensures Did(InitCmd(old(state), a, client), r, old(sdkCalls))
    {
      if a.None? {
        return Fail("Missing args");
      }
      var token := AsStr(Get(a, "token"));
      if token.None? {
        return Fail("Missing token");
      }
      var appId := U64Text(a, "app_id").GetOr(0);
      var result := InitDiscordSdk(token.value, appId, client);
      match result
      case Ok(_) => r := Succeed(Obj("status", JString("initialized")));
      case Err(e) => r := Fail(e);
    }

    method Guilds(cb: Callback<Span<Guild>>) returns (r: Reply)
      modifies this
      ensures Did(GuildsCmd(old(state), cb), r, old(sdkCalls))
    {
      if !(state.Some? && state.value.initialized) {
        return Fail(NOT_INITIALIZED);
      }
      var waited := AwaitConnection(state.value.status);
      sdkCalls := sdkCalls + [GetUserGuilds];
      var done := WaitForFlag(cb, GUILDS_DEADLINE, FLAG_INTERVAL);
      var guilds: seq<Json> := [];
      if done && cb.payload.Items? {
        guilds := CollectGuilds(cb.payload.items);
      }
      r := if !done then Fail("Timeout") else Succeed(Obj("guilds", JArray(guilds)));
    }

    method Channels(a: Option<Json>, cb: Callback<Span<Channel>>) returns (r: Reply)
      modifies this
      ensures Did(ChannelsCmd(old(state), a, cb), r, old(sdkCalls))
    {
      if a.None? {
        return Fail("Missing args");
      }
      var guildId := U64Text(a, "guild_id");
      if guildId.None? {
        return Fail("Invalid guild_id");
      }
      if !(state.Some? && state.value.initialized) {
        return Fail(NOT_INITIALIZED);
      }
      sdkCalls := sdkCalls + [SdkCall.GetGuildChannels(guildId.value)];
      var done := WaitForFlag(cb, CHANNELS_DEADLINE, FLAG_INTERVAL);
      var channels: seq<Json> := [];
      if done && cb.payload.Items? {
        channels := CollectChannels(cb.payload.items);
      }
      if !done {
        r := Fail("Timeout for guild " + NatToString(guildId.value));
      } else {
        r := Succeed(Obj("channels", JArray(channels)));
      }
    }

    method Disconnect() returns (r: Reply)
      modifies this
      ensures Did(DisconnectCmd(old(state)), r, old(sdkCalls))
    {
      var taken := state;
      state := None;
      if taken.Some? && taken.value.client != 0 {
        sdkCalls := sdkCalls + [ClientDrop(taken.value.client)];
      }
      r := Succeed(Obj("status", JString("disconnected")));
    }

    /** `status_cb`, run by the background thread between commands. */
    method OnStatusChanged(status: i32)
      modifies this`state
      ensures state == StatusChanged(old(state), status)
    {
      if state.Some? {
        state := Some(state.value.(status := status));
      }
    }

    method HandleCommand(req: Request, rp: Replies) returns (resp: Response)
      modifies this
      ensures resp.id == req.id
      ensures var st := Dispatch(old(state), req, rp);
              resp == Respond(req, st) && state == st.next && sdkCalls == old(sdkCalls) + st.calls
    {
      var c, a := req.command, req.args;
      var r: Reply;
      if c == "initialize" {
        r := Init(a, rp.client);
      } else if c == "get_guilds" {
        r := Guilds(rp.guilds);
      } else if c == "get_guild_channels" {
        r := Channels(a, rp.channels);
      } else if c == "disconnect" {
        r := Disconnect();
      } else if c == "ping" {
        r := Succeed(Obj("pong", JBool(true)));
      } else {
        r := Fail("Unknown: " + c);
      }
      resp := Response(req.id, r.success, r.result, r.error);
    }
  }
}
