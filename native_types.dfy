/**
 * The records of native/src/discord_client.h that the two C++ clients hand to JavaScript,
 * the SDK records their callbacks read, and the trace of C API calls they make.
 */
module NativeTypes {
  import opened Wrappers
  import opened Decimal

  datatype Guild = Guild(id: string, name: string, icon: string, owner: bool)
  datatype Channel = Channel(id: string, name: string, channelType: int, position: int, parentId: string)
  datatype User = User(id: string, username: string, avatar: string, discriminator: string)

  /** `g_cached_user` is never assigned, so it keeps its default value. */
  const DEFAULT_USER: User := User("", "", "", "")

  /** A `Discord_GuildMinimal` as its accessors read it. */
  datatype GuildRecord = GuildRecord(id: u64, name: string)

  /** A `Discord_GuildChannel` as its accessors read it; `parentId` is `None` when the accessor returns false. */
  datatype ChannelRecord = ChannelRecord(id: u64, name: string, channelType: int, position: int, parentId: Option<u64>)

  /** The `Discord_ClientResult*` a callback receives: null, or a result that did or did not succeed. */
  datatype ClientResult = NullResult | Done(successful: bool)

  predicate Succeeded(r: ClientResult) { r.Done? && r.successful }

  /** The C API calls the clients make. */
  datatype CCall =
    | SetFreeThreaded
    | ClientInit
    | SetApplicationId(appId: u64)
    | UpdateToken(token: string)
    | Connect
    | Disconnect
    | ClientDrop
    | ClientDestroy
    | RunCallbacks
    | GetUserGuilds
    | GetGuildChannels(guildId: u64)
    | UpdateActivity(details: string, state: string)
    | ResultDrop

  function GuildOf(g: GuildRecord): Guild
  {
    Guild(NatToString(g.id), g.name, "", false)
  }

  function ChannelOf(c: ChannelRecord): Channel
  {
    Channel(NatToString(c.id), c.name, c.channelType, c.position, if c.parentId.Some? then NatToString(c.parentId.value) else "")
  }

  /** What the SDK reads through `c_str()`, a pointer without a length: the text up to its first NUL. */
  function CText(s: string): (r: string)
    ensures |r| <= |s| && r == s[..|r|]
    ensures forall i :: 0 <= i < |r| ==> r[i] != '\0'
    ensures |r| < |s| ==> s[|r|] == '\0'
  {
    if s == [] || s[0] == '\0' then [] else [s[0]] + CText(s[1..])
  }

  /** `push_back` of each converted record, in span order. */
  function Guilds(gs: seq<GuildRecord>): seq<Guild>
  {
    seq(|gs|, i requires 0 <= i < |gs| => GuildOf(gs[i]))
  }

  function Channels(cs: seq<ChannelRecord>): seq<Channel>
  {
    seq(|cs|, i requires 0 <= i < |cs| => ChannelOf(cs[i]))
  }
}
