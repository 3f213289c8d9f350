/**
 * native/src/discord_client.cc: the C API client behind the Node addon. Its state is the
 * file's globals (`g_client_initialized`, `g_client_dropped`, the guild and channel caches)
 * together with the `initialized`/`ready` members of the one `DiscordClient` object.
 */
module CppClient {
  import opened Wrappers
  import opened Decimal
  import opened Uint64Text
  import opened NativeTypes

  datatype ClientState = ClientState(
    clientInitialized: bool,
    clientDropped: bool,
    initialized: bool,
    ready: bool,
    guilds: seq<Guild>,
    channels: seq<Channel>)

  /** The state at load time and after the constructor. */
  const START: ClientState := ClientState(false, false, false, false, [], [])

  /** An operation's answer, the state it leaves, and the C API calls it made. */
  datatype Op<T> = Op(value: T, next: ClientState, calls: seq<CCall>)

  function InitializeOp(s: ClientState, applicationId: string, accessToken: string): Op<bool>
  {
    if !ValidUint64(applicationId) || accessToken == [] then Op(false, s, [])
    else
      var calls := [SetFreeThreaded, ClientInit, SetApplicationId(Strtoull(applicationId)), UpdateToken(accessToken), Connect];
      Op(true, s.(clientInitialized := true, initialized := true, ready := true), calls)
  }

  function DisconnectOp(s: ClientState): Op<()>
  {
    if s.clientInitialized && !s.clientDropped then
      Op((), s.(clientDropped := true, clientInitialized := false, initialized := false, ready := false), [Disconnect, ClientDrop])
    else Op((), s, [])
  }

  function RunCallbacksCalls(s: ClientState): seq<CCall>
  {
    if s.clientInitialized then [RunCallbacks] else []
  }

  function FetchGuildsCalls(s: ClientState): seq<CCall>
  {
    if s.clientInitialized then [GetUserGuilds] else []
  }

  function ResultDropCalls(result: ClientResult): seq<CCall>
  {
    if result.Done? then [ResultDrop] else []
  }

  /** `on_user_guilds`: the cache is emptied, then refilled only from a successful result. */
  function OnUserGuildsOp(s: ClientState, result: ClientResult, span: seq<GuildRecord>): Op<()>
  {
    Op((), s.(guilds := if Succeeded(result) then Guilds(span) else []), ResultDropCalls(result))
  }

  /** `on_guild_channels`: the same for the channel cache. */
  function OnGuildChannelsOp(s: ClientState, result: ClientResult, span: seq<ChannelRecord>): Op<()>
  {
    Op((), s.(channels := if Succeeded(result) then Channels(span) else []), ResultDropCalls(result))
  }

  // ---------------------------------------------------------------- properties

  /** A malformed application id or an empty token is refused before any C API call. */
  lemma InitializeValidatesFirst(s: ClientState, applicationId: string, accessToken: string)
    ensures var o := InitializeOp(s, applicationId, accessToken);
            (!o.value <==> !ValidUint64(applicationId) || accessToken == []) &&
            (!o.value ==> o.next == s && o.calls == [])
  {
  }

  /** An accepted application id reaches the SDK as the number it spells. */
  lemma InitializeSetsParsedId(s: ClientState, n: u64, accessToken: string)
    requires accessToken != []
    ensures var o := InitializeOp(s, NatToString(n), accessToken);
            o.value && |o.calls| == 5 && o.calls[2] == SetApplicationId(n) && o.next.clientInitialized
  {
    NatToStringDigits(n);
    NatToStringLength(n);
    ValidMeansFits(NatToString(n));
  }

  lemma {:induction false} NatToStringLength(n: u64)
    ensures |NatToString(n)| <= 20
  {
    Pow10Of19();
    NatToStringShort(n, 20);
  }

  lemma {:induction false} NatToStringShort(n: nat, k: nat)
    requires n < Pow10(k) && k > 0
    ensures |NatToString(n)| <= k
    decreases k
  {
    if n >= 10 {
      assert k > 1;
      NatToStringShort(n / 10, k - 1);
    }
  }

  /** `Disconnect` acts once: afterwards, and after any later `Initialize`, it does nothing. */
  lemma {:induction false} DisconnectOnlyOnce(s: ClientState, applicationId: string, accessToken: string)
    requires s.clientInitialized && !s.clientDropped
    ensures DisconnectOp(s).calls == [Disconnect, ClientDrop]
    ensures var d := DisconnectOp(s).next;
            d.clientDropped && !d.clientInitialized && DisconnectOp(d) == Op((), d, [])
    ensures var again := InitializeOp(DisconnectOp(s).next, applicationId, accessToken).next;
            again.clientDropped && DisconnectOp(again).calls == []
  {
  }

  /** Nothing but `Disconnect` writes `g_client_dropped`, and it only sets it. */
  lemma DroppedIsPermanent(s: ClientState, applicationId: string, accessToken: string, result: ClientResult,
                           gs: seq<GuildRecord>, cs: seq<ChannelRecord>)
    requires s.clientDropped
    ensures InitializeOp(s, applicationId, accessToken).next.clientDropped
    ensures DisconnectOp(s).next.clientDropped
    ensures OnUserGuildsOp(s, result, gs).next.clientDropped && OnGuildChannelsOp(s, result, cs).next.clientDropped
  {
  }

  /** `RunCallbacks` and `FetchGuilds` do nothing before `Initialize` has succeeded. */
  lemma GuardedByInitialized(s: ClientState)
    requires !s.clientInitialized
    ensures RunCallbacksCalls(s) == [] && FetchGuildsCalls(s) == []
  {
  }

  /** After a callback the cache holds exactly the delivered records, or nothing on failure. */
  lemma {:induction false} CacheRefilled(s: ClientState, result: ClientResult, gs: seq<GuildRecord>, cs: seq<ChannelRecord>)
    ensures var g := OnUserGuildsOp(s, result, gs).next.guilds;
            (Succeeded(result) ==> |g| == |gs| && forall i :: 0 <= i < |gs| ==> g[i].id == NatToString(gs[i].id) && g[i].name == gs[i].name) &&
            (!Succeeded(result) ==> g == [])
    ensures var c := OnGuildChannelsOp(s, result, cs).next.channels;
            (Succeeded(result) ==> |c| == |cs| && forall i :: 0 <= i < |cs| ==> c[i] == ChannelOf(cs[i])) &&
            (!Succeeded(result) ==> c == [])
  {
  }

  /** A channel without a parent shows an empty `parent_id`; one with a parent shows its id. */
  lemma ParentIdText(c: ChannelRecord)
    ensures c.parentId.None? ==> ChannelOf(c).parentId == ""
    ensures c.parentId.Some? ==> ChannelOf(c).parentId == NatToString(c.parentId.value) && ChannelOf(c).parentId != ""
  {
    if c.parentId.Some? {
      NatToStringDigits(c.parentId.value);
    }
  }

  // ---------------------------------------------------------------- the object

  class DiscordClient {
    var clientInitialized: bool
    var clientDropped: bool
    var initialized: bool
    var ready: bool
    var cachedGuilds: seq<Guild>
    var cachedChannels: seq<Channel>
    ghost var calls: seq<CCall>

    function State(): ClientState
      reads this
    {
      ClientState(clientInitialized, clientDropped, initialized, ready, cachedGuilds, cachedChannels)
    }

    constructor ()
      ensures State() == START && calls == []
    {
      clientInitialized, clientDropped, initialized, ready := false, false, false, false;
      cachedGuilds, cachedChannels := [], [];
      calls := [];
    }

    method Initialize(applicationId: string, accessToken: string) returns (ok: bool)
      modifies this
      ensures var o := InitializeOp(old(State()), applicationId, accessToken);
              ok == o.value && State() == o.next && calls == old(calls) + o.calls
    {
      var valid, appIdValue := IsValidUint64(applicationId);
      if !valid {
        return false;
      }
      if accessToken == [] {
        return false;
      }
      calls := calls + [SetFreeThreaded, ClientInit];
      clientInitialized := true;
      calls := calls + [SetApplicationId(appIdValue), UpdateToken(accessToken), Connect];
      initialized, ready := true, true;
      ok := true;
    }

    method Disconnect()
      modifies this
      ensures var o := DisconnectOp(old(State()));
              State() == o.next && calls == old(calls) + o.calls
    {
      if clientInitialized && !clientDropped {
        calls := calls + [CCall.Disconnect, ClientDrop];
        clientDropped := true;
        clientInitialized, initialized, ready := false, false, false;
      }
    }

    /** `~DiscordClient`. */
    method Destroy()
      modifies this
      ensures var o := DisconnectOp(old(State()));
              State() == o.next && calls == old(calls) + o.calls
    {
      Disconnect();
    }

    method RunCallbacks()
      modifies this`calls
      ensures calls == old(calls) + RunCallbacksCalls(State())
    {
      if clientInitialized {
        calls := calls + [CCall.RunCallbacks];
      }
    }

    method FetchGuilds()
      modifies this`calls
      ensures calls == old(calls) + FetchGuildsCalls(State())
    {
      if clientInitialized {
        calls := calls + [GetUserGuilds];
      }
    }

    method OnUserGuilds(result: ClientResult, span: seq<GuildRecord>)
      modifies this
      ensures var o := OnUserGuildsOp(old(State()), result, span);
              State() == o.next && calls == old(calls) + o.calls
    {
      cachedGuilds := [];
      if Succeeded(result) {
        var i := 0;
        while i < |span|
          invariant 0 <= i <= |span|
          invariant cachedGuilds == Guilds(span[..i])
          modifies this`cachedGuilds
        {
          cachedGuilds := cachedGuilds + [Guild(NatToString(span[i].id), span[i].name, "", false)];
          i := i + 1;
        }
        assert span[..|span|] == span;
      }
      if result.Done? {
        calls := calls + [ResultDrop];
      }
    }

    method OnGuildChannels(result: ClientResult, span: seq<ChannelRecord>)
      modifies this
      ensures var o := OnGuildChannelsOp(old(State()), result, span);
              State() == o.next && calls == old(calls) + o.calls
    {
      cachedChannels := [];
      if Succeeded(result) {
        var i := 0;
        while i < |span|
          invariant 0 <= i <= |span|
          invariant cachedChannels == Channels(span[..i])
          modifies this`cachedChannels
        {
          var c := span[i];
          var parentId := if c.parentId.Some? then NatToString(c.parentId.value) else "";
          cachedChannels := cachedChannels + [Channel(NatToString(c.id), c.name, c.channelType, c.position, parentId)];
          i := i + 1;
        }
        assert span[..|span|] == span;
      }
      if result.Done? {
        calls := calls + [ResultDrop];
      }
    }

    method GetGuilds() returns (gs: seq<Guild>)
      ensures gs == State().guilds
    {
      gs := cachedGuilds;
    }

    /** The cache, whatever guild was asked for. */
    method GetGuildChannels(guildId: string) returns (cs: seq<Channel>)
      ensures cs == State().channels
    {
      cs := cachedChannels;
    }

    method GetCurrentUser() returns (u: User)
      ensures u == DEFAULT_USER
    {
      u := DEFAULT_USER;
    }

    /** Not implemented: always false. */
    method SendMessage(channelId: string, userId: string, content: string) returns (ok: bool)
      ensures !ok
    {
      ok := false;
    }

    /** A stub that answers whether the client is initialized. */
    method JoinVoiceChannel(guildId: string, channelId: string) returns (ok: bool)
      ensures ok == State().clientInitialized
    {
      ok := clientInitialized;
    }

    method LeaveVoiceChannel() returns (ok: bool)
      ensures ok == State().clientInitialized
    {
      ok := clientInitialized;
    }

    /** Not available in this client: always false. */
    method SetActivityRichPresence(details: string, state: string) returns (ok: bool)
      ensures !ok
    {
      ok := false;
    }
  }
}
