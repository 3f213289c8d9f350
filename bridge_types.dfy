/**
 * Entities of the stdio subprocess in rust-native/src/main.rs: the request and response
 * lines, the (success, result, error) triple each handler produces, the records the vendor
 * SDK hands to callbacks, the oracle answers, the trace of SDK calls, and the JSON the
 * handlers build from SDK records.
 */
module BridgeTypes {
  import opened Wrappers
  import opened Decimal
  import opened Json
  import opened Polling

  /** One request line: `{"id": .., "command": .., "args": ..}`. */
  datatype Request = Request(id: u64, command: string, args: Option<Json>)

  /** One response line. */
  datatype Response = Response(id: u64, success: bool, result: Option<Json>, error: Option<string>)

  /** The triple a handler arm evaluates to, before the id is attached. */
  datatype Reply = Reply(success: bool, result: Option<Json>, error: Option<string>)

  function Succeed(v: Json): Reply
  {
    Reply(true, Some(v), None)
  }

  function Fail(msg: string): Reply
  {
    Reply(false, None, Some(msg))
  }

  /** A `*const u8`/length pair from the SDK: `None` is a null pointer. */
  type SdkString = Option<string>

  /** A span from the SDK: a null pointer, or a pointer to `size` records. */
  datatype Span<T> = NullSpan | Items(items: seq<T>)

  datatype GuildMinimal = GuildMinimal(id: u64, name: SdkString)
  datatype GuildChannel = GuildChannel(id: u64, name: SdkString, channelType: i32)
  /** `user` is `None` when `Discord_RelationshipHandle_User` fails or leaves a null handle. */
  datatype Relationship = Relationship(userId: u64, user: Option<SdkString>)
  datatype MessageHandle = MessageHandle(id: u64, authorId: u64, channelId: u64, content: SdkString, timestamp: u64)
  /** One key/value pair of a lobby's metadata. */
  datatype Property = Property(key: SdkString, value: SdkString)

  /** An entry of MESSAGE_EVENTS: the message id and the formatted arrival time. */
  datatype MessageEvent = MessageEvent(messageId: u64, timestamp: string)

  /**
   * The OAuth authorization and token exchange, seen only by its end result: one of the ways
   * it gives up, or the access token and token type that GetToken delivered.
   */
  datatype AuthFlow =
    | AuthorizationTimeout
    | NoAuthorizationCode
    | GetTokenTimeout
    | NoAccessToken
    | AuthGranted(accessToken: string, tokenType: i32)

  /** The error `init_discord_sdk` returns when the OAuth flow gives up. */
  function AuthFailure(f: AuthFlow): string
    requires !f.AuthGranted?
  {
    match f
    case AuthorizationTimeout => "Authorization timeout"
    case NoAuthorizationCode => "No authorization code received"
    case GetTokenTimeout => "GetToken timeout"
    case NoAccessToken => "No access token received"
  }

  /** A non-null pointer handed out by `Box::into_raw`. */
  type Address = n: nat | n > 0 witness 1

  /** What the SDK answers during `init_discord_sdk`. */
  datatype InitReplies = InitReplies(
    clientAddress: Address,
    tokenUpdated: Callback<()>,
    auth: AuthFlow,
    statuses: seq<i32>)

  /**
   * What the SDK answers to the command being handled: the callback each asynchronous call
   * eventually delivers, or the value a synchronous query returns.
   */
  datatype Replies = Replies(
    guilds: Callback<Span<GuildMinimal>>,
    channels: Callback<Span<GuildChannel>>,
    messageSent: Callback<()>,
    activityUpdated: Callback<()>,
    relationships: Span<Relationship>,
    lobbyIds: Span<u64>,
    lobbyHandle: Option<seq<Property>>,
    dmSent: Callback<u64>,
    lobbyMessages: Callback<Span<MessageHandle>>,
    message: Option<MessageHandle>,
    userMessages: Callback<Span<MessageHandle>>,
    lobbyCreated: Callback<Option<u64>>,
    lobbyMessageSent: Callback<bool>,
    lobbyLeft: Callback<()>,
    selfMute: bool,
    selfDeaf: bool,
    lobbyJoined: Callback<u64>,
    init: InitReplies)

  /** The SDK calls a handler makes, apart from `Discord_RunCallbacks` and record accessors. */
  datatype SdkCall =
    | SetFreeThreaded
    | ClientInit
    | SetApplicationId(appId: u64)
    | SetStatusChangedCallback
    | UpdateToken(tokenType: i32, token: string)
    | AuthorizationFlow
    | Connect
    | SetMessageCreatedCallback
    | ClientDrop(client: nat)
    | GetUserGuilds
    | GetGuildChannels(guildId: u64)
    | SendLobbyMessage(lobbyId: u64, content: string)
    | UpdateRichPresence
    | GetRelationships
    | GetLobbyIds
    | GetLobbyHandle(lobbyId: u64)
    | SendUserMessage(recipientId: u64, content: string)
    | GetLobbyMessagesWithLimit(lobbyId: u64, limit: i32)
    | GetMessageHandle(messageId: u64)
    | GetUserMessagesWithLimit(recipientId: u64, limit: i32)
    | CreateOrJoinLobbyWithMetadata(secret: string, metadata: seq<(string, string)>)
    | LeaveLobby(lobbyId: u64)
    | SetSelfMuteAll(mute: bool)
    | SetSelfDeafAll(deaf: bool)
    | GetSelfMuteAll
    | GetSelfDeafAll
    | StartCall(lobbyId: u64)
    | EndCall(lobbyId: u64)

  /** The process-wide globals: INITIALIZED, CLIENT_PTR, TOKEN, CURRENT_STATUS, CURRENT_APP_ID, MESSAGE_EVENTS. */
  datatype SessionState = SessionState(
    initialized: bool,
    clientPtr: nat,
    token: Option<string>,
    currentStatus: i32,
    appId: u64,
    events: seq<MessageEvent>)

  /** The text the handlers show for an SDK string: its bytes, or `fallback` when null or empty. */
  function TextOr(s: SdkString, fallback: string): string
  {
    if s.Some? && |s.value| > 0 then s.value else fallback
  }

  function IdText(n: u64): Json { JString(NatToString(n)) }

  function GuildJson(g: GuildMinimal): Json
  {
    JObject(map["id" := IdText(g.id), "name" := JString(TextOr(g.name, "Unknown"))])
  }

  function ChannelJson(c: GuildChannel): Json
  {
    JObject(map["id" := IdText(c.id), "name" := JString(TextOr(c.name, "Unknown")), "type" := JInt(c.channelType)])
  }

  function MessageJson(m: MessageHandle): Json
  {
    JObject(map[
      "id" := IdText(m.id),
      "author_id" := IdText(m.authorId),
      "channel_id" := IdText(m.channelId),
      "content" := JString(TextOr(m.content, "")),
      "timestamp" := JInt(m.timestamp)])
  }

  function EventJson(e: MessageEvent): Json
  {
    JObject(map["message_id" := IdText(e.messageId), "timestamp" := JString(e.timestamp)])
  }

  function LobbyIdJson(id: u64): Json { JString(NatToString(id)) }

  /** `iter().map(f).collect()`, element by element. */
  function MapJson<T>(f: T -> Json, xs: seq<T>): (r: seq<Json>)
    ensures |r| == |xs|
  {
    if xs == [] then [] else MapJson(f, xs[..|xs| - 1]) + [f(xs[|xs| - 1])]
  }

  lemma {:induction false} MapJsonAt<T>(f: T -> Json, xs: seq<T>, k: nat)
    requires k < |xs|
    ensures MapJson(f, xs)[k] == f(xs[k])
  {
    if k < |xs| - 1 {
      MapJsonAt(f, xs[..|xs| - 1], k);
    }
  }

  /**
   * The friends of `get_relationships`: every relationship that has a user handle, in order,
   * as `{"id": .., "username": ..}` with "Unknown" for a null or empty name.
   */
  function Friends(rs: seq<Relationship>): seq<Json>
  {
    if rs == [] then []
    else
      var last := rs[|rs| - 1];
      Friends(rs[..|rs| - 1]) +
        (if last.user.Some? then [JObject(map["id" := IdText(last.userId), "username" := JString(TextOr(last.user.value, "Unknown"))])] else [])
  }

  /** Relationships without a user are dropped; with every user present, nothing is. */
  lemma {:induction false} FriendsLength(rs: seq<Relationship>)
    ensures |Friends(rs)| <= |rs|
    ensures (forall i :: 0 <= i < |rs| ==> rs[i].user.Some?) ==> |Friends(rs)| == |rs|
    ensures (forall i :: 0 <= i < |rs| ==> rs[i].user.None?) ==> Friends(rs) == []
  {
    if rs != [] {
      var init := rs[..|rs| - 1];
      FriendsLength(init);
      assert forall i :: 0 <= i < |init| ==> init[i] == rs[i];
    }
  }

  /** A property both of whose strings are non-null contributes an entry. */
  predicate Readable(p: Property) { p.key.Some? && p.value.Some? }

  /**
   * The metadata object of `get_lobby`: `metadata_map[key] = value` for each readable pair in
   * order, so a later pair with the same key overwrites an earlier one.
   */
  function Metadata(ps: seq<Property>): map<string, Json>
  {
    if ps == [] then map[]
    else
      var last := ps[|ps| - 1];
      var m := Metadata(ps[..|ps| - 1]);
      if Readable(last) then m[last.key.value := JString(last.value.value)] else m
  }

  /** The keys of the metadata object are exactly the keys of the readable pairs. */
  lemma {:induction false} MetadataKeys(ps: seq<Property>, k: string)
    ensures k in Metadata(ps) <==> exists i :: 0 <= i < |ps| && Readable(ps[i]) && ps[i].key.value == k
  {
    if ps != [] {
      var init := ps[..|ps| - 1];
      MetadataKeys(init, k);
      assert forall i :: 0 <= i < |init| ==> init[i] == ps[i];
      if k in Metadata(init) {
        var i :| 0 <= i < |init| && Readable(init[i]) && init[i].key.value == k;
        assert Readable(ps[i]) && ps[i].key.value == k;
      }
    }
  }

  /** The value under a key is the one of the last readable pair with that key. */
  lemma {:induction false} MetadataLastWins(ps: seq<Property>, i: nat)
    requires i < |ps| && Readable(ps[i])
    requires forall j :: i < j < |ps| && Readable(ps[j]) ==> ps[j].key != ps[i].key
    ensures ps[i].key.value in Metadata(ps)
    ensures Metadata(ps)[ps[i].key.value] == JString(ps[i].value.value)
  {
    var init := ps[..|ps| - 1];
    if i < |ps| - 1 {
      assert forall j :: 0 <= j < |init| ==> init[j] == ps[j];
      MetadataLastWins(init, i);
    }
  }
}
