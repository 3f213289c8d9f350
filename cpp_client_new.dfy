/**
 * native/src/discord_client_new.cc: the second C API client. One global flag
 * `g_initialized` guards everything; the caches are read but, since every request here is
 * made without a callback, nothing in this file ever fills them.
 */
module CppClientNew {
  import opened Wrappers
  import opened Decimal
  import opened Uint64Text
  import opened NativeTypes

  datatype ClientState = ClientState(
    globalInitialized: bool,
    initialized: bool,
    ready: bool,
    guilds: seq<Guild>,
    channels: seq<Channel>)

  const START: ClientState := ClientState(false, false, false, [], [])

  datatype Op<T> = Op(value: T, next: ClientState, calls: seq<CCall>)

  function InitializeOp(s: ClientState, applicationId: string, accessToken: string): Op<bool>
  {
    if !ValidUint64(applicationId) || accessToken == [] then Op(false, s, [])
    else
      var calls := [ClientInit, SetApplicationId(Strtoull(applicationId)), UpdateToken(accessToken), Connect, GetUserGuilds];
      Op(true, s.(globalInitialized := true, initialized := true, ready := true), calls)
  }

  /** `Disconnect`: acts only while `g_initialized`; `ready` is left as it was. */
  function DisconnectOp(s: ClientState): Op<()>
  {
    if s.globalInitialized then
      Op((), s.(globalInitialized := false, initialized := false), [Disconnect, ClientDestroy])
    else Op((), s, [])
  }

  function RunCallbacksCalls(s: ClientState): seq<CCall>
  {
    if s.globalInitialized then [RunCallbacks] else []
  }

  /** `GetGuildChannels`: the cache if it has anything; otherwise ask, if possible, and return the cache. */
  function GetGuildChannelsOp(s: ClientState, guildId: string): Op<seq<Channel>>
  {
    if s.channels != [] then Op(s.channels, s, [])
    else if s.globalInitialized && ValidUint64(guildId) then Op(s.channels, s, [GetGuildChannels(Strtoull(guildId))])
    else Op(s.channels, s, [])
  }

  function SetActivityOp(s: ClientState, details: string, state: string): Op<bool>
  {
    if !s.globalInitialized then Op(false, s, [])
    else Op(true, s, [UpdateActivity(CText(details), CText(state))])
  }

  // ---------------------------------------------------------------- properties

  /** A malformed application id or an empty token is refused before any C API call. */
  lemma InitializeValidatesFirst(s: ClientState, applicationId: string, accessToken: string)
    ensures var o := InitializeOp(s, applicationId, accessToken);
            (!o.value <==> !ValidUint64(applicationId) || accessToken == []) &&
            (!o.value ==> o.next == s && o.calls == [])
  {
  }

  /** `Disconnect` leaves `g_initialized` false, so a second call does nothing. */
  lemma DisconnectIdempotent(s: ClientState)
    ensures !DisconnectOp(s).next.globalInitialized
    ensures DisconnectOp(DisconnectOp(s).next) == Op((), DisconnectOp(s).next, [])
    ensures s.globalInitialized <==> DisconnectOp(s).calls == [Disconnect, ClientDestroy]
  {
  }

  /** A non-empty cache is returned without a request; a request goes out only for an empty cache. */
  lemma ChannelsCacheFirst(s: ClientState, guildId: string)
    ensures GetGuildChannelsOp(s, guildId).value == s.channels
    ensures GetGuildChannelsOp(s, guildId).next == s
    ensures GetGuildChannelsOp(s, guildId).calls != [] <==> s.channels == [] && s.globalInitialized && ValidUint64(guildId)
  {
  }

  /** `SetActivityRichPresence` fails exactly when the client is not initialized; `RunCallbacks` is guarded the same way. */
  lemma ActivityGuard(s: ClientState, details: string, state: string)
    ensures !SetActivityOp(s, details, state).value <==> !s.globalInitialized
    ensures RunCallbacksCalls(s) == [] <==> !s.globalInitialized
  {
  }

  /**
   * The activity texts reach the SDK through `c_str()`: a text without a NUL arrives whole,
   * and "a\0b" arrives as "a".
   */
  lemma {:induction false} ActivityTextsStopAtNul(s: ClientState, details: string, state: string)
    requires s.globalInitialized
    ensures (forall i :: 0 <= i < |details| ==> details[i] != '\0') && (forall i :: 0 <= i < |state| ==> state[i] != '\0') ==>
            SetActivityOp(s, details, state).calls == [UpdateActivity(details, state)]
    ensures SetActivityOp(s, "a\0b", state).calls == [UpdateActivity("a", CText(state))]
  {
    var e := "a\0b";
    assert e[1..][0] == '\0';
    assert CText(e[1..]) == [];
    assert CText(e) == ['a'] + CText(e[1..]) == "a";
    if forall i :: 0 <= i < |details| ==> details[i] != '\0' {
      NulFreeWhole(details);
    }
    if forall i :: 0 <= i < |state| ==> state[i] != '\0' {
      NulFreeWhole(state);
    }
  }

  lemma {:induction false} NulFreeWhole(t: string)
    requires forall i :: 0 <= i < |t| ==> t[i] != '\0'
    ensures CText(t) == t
  {
    if t != [] {
      NulFreeWhole(t[1..]);
      assert [t[0]] + t[1..] == t;
    }
  }

  /** No operation of this client writes the caches, so they stay as they started. */
  lemma CachesNeverWritten(s: ClientState, applicationId: string, accessToken: string, guildId: string, details: string, state: string)
    ensures var n := InitializeOp(s, applicationId, accessToken).next; n.guilds == s.guilds && n.channels == s.channels
    ensures var n := DisconnectOp(s).next; n.guilds == s.guilds && n.channels == s.channels
    ensures GetGuildChannelsOp(s, guildId).next == s && SetActivityOp(s, details, state).next == s
  {
  }

  /**
   * From the start state, then, the channel list is always empty and every call with a valid
   * guild id on an initialized client issues a fresh request.
   */
  lemma AlwaysRequestsFromStart(applicationId: string, accessToken: string, guildId: string)
    requires ValidUint64(applicationId) && accessToken != [] && ValidUint64(guildId)
    ensures var s := InitializeOp(START, applicationId, accessToken).next;
            GetGuildChannelsOp(s, guildId) == Op([], s, [GetGuildChannels(Strtoull(guildId))])
  {
  }

  // ---------------------------------------------------------------- the object

  class DiscordClient {
    var globalInitialized: bool
    var initialized: bool
    var ready: bool
    var cachedGuilds: seq<Guild>
    var cachedChannels: seq<Channel>
    ghost var calls: seq<CCall>

    function State(): ClientState
      reads this
    {
      ClientState(globalInitialized, initialized, ready, cachedGuilds, cachedChannels)
    }

    constructor ()
      ensures State() == START && calls == []
    {
      globalInitialized, initialized, ready := false, false, false;
      cachedGuilds, cachedChannels := [], [];
      calls := [];
    }

    method Initialize(applicationId: string, accessToken: string) returns (ok: bool)
      modifies this
      ensures var o := InitializeOp(old(State()), applicationId, accessToken);
              ok == o.value && State() == o.next && calls == old(calls) + o.calls
    {
      var valid, appIdValue := IsValidUint64(applicationId);
      if !valid {
        return false;
      }
      if accessToken == [] {
        return false;
      }
      calls := calls + [ClientInit];
      globalInitialized := true;
      calls := calls + [SetApplicationId(appIdValue), UpdateToken(accessToken), Connect, GetUserGuilds];
      initialized, ready := true, true;
      ok := true;
    }

    method Disconnect()
      modifies this
      ensures var o := DisconnectOp(old(State()));
              State() == o.next && calls == old(calls) + o.calls
    {
      if globalInitialized {
        calls := calls + [CCall.Disconnect, ClientDestroy];
        globalInitialized, initialized := false, false;
      }
    }

    /** `~DiscordClient`. */
    method Destroy()
      modifies this
      ensures var o := DisconnectOp(old(State()));
              State() == o.next && calls == old(calls) + o.calls
    {
      Disconnect();
    }

    method RunCallbacks()
      modifies this`calls
      ensures calls == old(calls) + RunCallbacksCalls(State())
    {
      if globalInitialized {
        calls := calls + [CCall.RunCallbacks];
      }
    }

    method GetGuilds() returns (gs: seq<Guild>)
      ensures gs == State().guilds
    {
      gs := cachedGuilds;
    }

    method GetGuildChannels(guildId: string) returns (cs: seq<Channel>)
      modifies this`calls
      ensures var o := GetGuildChannelsOp(State(), guildId);
              cs == o.value && calls == old(calls) + o.calls
    {
      if cachedChannels != [] {
        return cachedChannels;
      }
      if globalInitialized {
        var valid, gid := IsValidUint64(guildId);
        if valid {
          calls := calls + [CCall.GetGuildChannels(gid)];
        }
      }
      cs := cachedChannels;
    }

    method GetCurrentUser() returns (u: User)
      ensures u == DEFAULT_USER
    {
      u := DEFAULT_USER;
    }

    method SetActivityRichPresence(details: string, state: string) returns (ok: bool)
      modifies this`calls
      ensures var o := SetActivityOp(State(), details, state);
              ok == o.value && calls == old(calls) + o.calls
    {
      if !globalInitialized {
        return false;
      }
      calls := calls + [UpdateActivity(CText(details), CText(state))];
      ok := true;
    }
  }
}
