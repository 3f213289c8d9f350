/**
 * rust-native/src/lib.rs: the safe wrapper around the SDK's C functions and the `client_*`
 * functions it exports. Every C function is an oracle: its return code (and whatever it
 * writes) is a parameter. On Linux the wrapper links the SDK; elsewhere it links stubs that
 * return null or -1. A raw pointer is an address, 0 being null.
 */
module RustWrapper {
  import opened Wrappers
  import opened Decimal

  type u8 = x: int | 0 <= x < 256

  /** The `cfg(target_os)` split. */
  datatype Platform = Linux | OtherPlatform

  datatype DiscordError = SdkError(code: i32) | NullPointer | Utf8Error | InvalidState

  /** A `DiscordChannel` as far as the wrapper reads it: its id and its 100-byte name field. */
  datatype RawChannel = RawChannel(id: u64, name: seq<u8>)

  /** The C calls the wrapper makes, with the client pointer passed. */
  datatype FfiCall =
    | Destroy(client: nat)
    | ConnectCall(client: nat)
    | DisconnectCall(client: nat)
    | RunCallbacksCall(client: nat)
    | CurrentUserCall(client: nat)
    | ActivityUpdate(client: nat, state: seq<u8>, details: seq<u8>, largeImage: seq<u8>, largeText: seq<u8>, partyId: seq<u8>)
    | ActivityClear(client: nat)
    | GetChannelsCall(client: nat, maxCount: int)
    | SendMessageCall(client: nat, channelId: u64, content: seq<u8>)

  const STATE_LEN: nat := 128
  const DETAILS_LEN: nat := 128
  const LARGE_IMAGE_LEN: nat := 256
  const LARGE_TEXT_LEN: nat := 128
  const PARTY_ID_LEN: nat := 128
  const CHANNEL_NAME_LEN: nat := 100
  /** `get_channels` allocates, and offers the SDK, this many channel slots. */
  const MAX_CHANNELS: nat := 100
  const USIZE_LIMIT: nat := 0x1_0000_0000_0000_0000

  function Zeros(n: nat): seq<u8>
  {
    seq(n, _ => 0)
  }

  const ZERO_CHANNEL: RawChannel := RawChannel(0, Zeros(CHANNEL_NAME_LEN))

  function Min(a: nat, b: nat): nat { if a < b then a else b }

  predicate NoNul(s: seq<u8>) { forall i :: 0 <= i < |s| ==> s[i] != 0 }

  // ---------------------------------------------------------------- the C side

  /** What a C function returns: the SDK's code on Linux, the stub's -1 elsewhere. */
  function Ffi(p: Platform, code: i32): i32
  {
    if p.Linux? then code else -1
  }

  /** `discord_client_create`: the SDK's pointer on Linux, null from the stub. */
  function Created(p: Platform, created: nat): nat
  {
    if p.Linux? then created else 0
  }

  /** The wrapper's reading of a return code: anything but 0 is an `SdkError` carrying it. */
  function Check(code: i32): Result<(), DiscordError>
  {
    if code != 0 then Err(SdkError(code)) else Ok(())
  }

  /** `CStr::from_ptr`: the bytes before the first NUL (here bounded by the field's end). */
  function CStr(b: seq<u8>): (r: seq<u8>)
    ensures r <= b && NoNul(r) && (|r| < |b| ==> b[|r|] == 0)
  {
    if b == [] || b[0] == 0 then [] else [b[0]] + CStr(b[1..])
  }

  /**
   * A zeroed `size`-byte field after `copy_nonoverlapping` of at most `size - 1` bytes of
   * `src`: the copied prefix, then zeros.
   */
  function Field(src: seq<u8>, size: nat): seq<u8>
    requires size > 0
  {
    var n := Min(|src|, size - 1);
    src[..n] + Zeros(size - n)
  }

  /** `count as usize` on a 64-bit target: a negative count wraps around. */
  function AsUsize(count: i32): nat
  {
    if count >= 0 then count else USIZE_LIMIT + count
  }

  /** `Vec::truncate(count as usize)` on the 100 slots: it only ever shortens. */
  function Kept(count: i32): nat
  {
    Min(AsUsize(count), MAX_CHANNELS)
  }

  /** The 100 slots after the call: what the SDK wrote at the front on Linux, zeros elsewhere. */
  function Buffer(p: Platform, filled: seq<RawChannel>): (r: seq<RawChannel>)
    ensures |r| == MAX_CHANNELS
  {
    var m := if p.Linux? then Min(|filled|, MAX_CHANNELS) else 0;
    filled[..m] + seq(MAX_CHANNELS - m, _ => ZERO_CHANNEL)
  }

  /** `get_channels`'s answer. */
  function ChannelsResult(p: Platform, code: i32, count: i32, filled: seq<RawChannel>): Result<seq<(u64, seq<u8>)>, DiscordError>
  {
    var rc := Ffi(p, code);
    if rc != 0 then Err(SdkError(rc))
    else
      var buf := Buffer(p, filled);
      var keep := Kept(count);
      Ok(seq(keep, i requires 0 <= i < keep => (buf[i].id, CStr(buf[i].name))))
  }

  /** What the `client_*` exports return for a wrapper call's result. */
  function ExportCode(r: Result<(), DiscordError>): int
  {
    if r.Ok? then 0 else -1
  }

  /** `client_connect`, `client_disconnect` and `client_run_callbacks` for a handle and an SDK code. */
  function Exported(handleIsNull: bool, p: Platform, code: i32): int
  {
    if handleIsNull then -1 else ExportCode(Check(Ffi(p, code)))
  }

  // ---------------------------------------------------------------- properties

  /** Only a zero code is success, and an error carries the code unchanged. */
  lemma CheckOkIffZero(code: i32)
    ensures Check(code).Ok? <==> code == 0
    ensures Check(code).Err? ==> Check(code).error == SdkError(code)
  {
  }

  /** Off Linux nothing works: no client is created and every call fails with code -1. */
  lemma StubsAlwaysFail(created: nat, code: i32, count: i32, filled: seq<RawChannel>)
    ensures Created(OtherPlatform, created) == 0
    ensures Check(Ffi(OtherPlatform, code)) == Err(SdkError(-1))
    ensures ChannelsResult(OtherPlatform, code, count, filled) == Err(SdkError(-1))
    ensures Exported(false, OtherPlatform, code) == -1
  {
  }

  /** The exports answer 0 or -1, and 0 exactly for a live handle whose SDK call returned 0. */
  lemma ExportedCodes(handleIsNull: bool, p: Platform, code: i32)
    ensures Exported(handleIsNull, p, code) in {0, -1}
    ensures Exported(handleIsNull, p, code) == 0 <==> !handleIsNull && p.Linux? && code == 0
  {
  }

  lemma {:induction false} CStrStopsAtNul(a: seq<u8>, rest: seq<u8>)
    requires NoNul(a) && rest != [] && rest[0] == 0
    ensures CStr(a + rest) == a
  {
    if a != [] {
      assert (a + rest)[1..] == a[1..] + rest;
      CStrStopsAtNul(a[1..], rest);
      assert [a[0]] + a[1..] == a;
    } else {
      assert a + rest == rest;
    }
  }

  /**
   * Each activity text reaches the SDK truncated to one byte less than its field and always
   * NUL-terminated, so the SDK reads back exactly the kept prefix.
   */
  lemma FieldReadsBack(src: seq<u8>, size: nat)
    requires size > 0 && NoNul(src)
    ensures |Field(src, size)| == size && Field(src, size)[size - 1] == 0
    ensures CStr(Field(src, size)) == src[..Min(|src|, size - 1)]
    ensures |src| < size ==> CStr(Field(src, size)) == src
  {
    var n := Min(|src|, size - 1);
    assert NoNul(src[..n]);
    CStrStopsAtNul(src[..n], Zeros(size - n));
    assert src[..|src|] == src;
  }

  /**
   * The channel list has `count` entries when 0 <= count <= 100, and all 100 slots otherwise:
   * a larger count cannot grow the vector and a negative one wraps to a huge `usize`. Slots
   * the SDK did not write read as id 0 with an empty name.
   */
  lemma ChannelCount(p: Platform, code: i32, count: i32, filled: seq<RawChannel>)
    ensures var r := ChannelsResult(p, code, count, filled);
            r.Ok? ==> |r.value| == (if 0 <= count <= MAX_CHANNELS then count else MAX_CHANNELS)
    ensures var r := ChannelsResult(p, code, count, filled);
            r.Ok? ==> forall i :: 0 <= i < |r.value| ==>
              r.value[i] == (if i < |filled| then (filled[i].id, CStr(filled[i].name)) else (0, []))
  {
    var r := ChannelsResult(p, code, count, filled);
    if r.Ok? {
      var buf := Buffer(p, filled);
      var m := Min(|filled|, MAX_CHANNELS);
      forall i | 0 <= i < |r.value|
        ensures r.value[i] == (if i < |filled| then (filled[i].id, CStr(filled[i].name)) else (0, []))
      {
        if i >= m {
          assert buf[i] == ZERO_CHANNEL;
        }
      }
    }
  }

  // ---------------------------------------------------------------- the activity record

  /** A `DiscordActivity`, zeroed as `std::mem::zeroed` leaves it. */
  class DiscordActivity {
    const state: array<u8>
    const details: array<u8>
    const assetsLargeImage: array<u8>
    const assetsLargeText: array<u8>
    const partyId: array<u8>

    /** The five fields are five separate arrays. */
    ghost predicate Separate()
    {
      state != details && state != assetsLargeImage && state != assetsLargeText && state != partyId &&
      details != assetsLargeImage && details != assetsLargeText && details != partyId &&
      assetsLargeImage != assetsLargeText && assetsLargeImage != partyId && assetsLargeText != partyId
    }

    constructor ()
      ensures Separate()
      ensures fresh(state) && fresh(details) && fresh(assetsLargeImage) && fresh(assetsLargeText) && fresh(partyId)
      ensures state[..] == Zeros(STATE_LEN) && details[..] == Zeros(DETAILS_LEN)
      ensures assetsLargeImage[..] == Zeros(LARGE_IMAGE_LEN)
      ensures assetsLargeText[..] == Zeros(LARGE_TEXT_LEN) && partyId[..] == Zeros(PARTY_ID_LEN)
    {
      state := new u8[STATE_LEN](_ => 0);
      details := new u8[DETAILS_LEN](_ => 0);
      assetsLargeImage := new u8[LARGE_IMAGE_LEN](_ => 0);
      assetsLargeText := new u8[LARGE_TEXT_LEN](_ => 0);
      partyId := new u8[PARTY_ID_LEN](_ => 0);
    }
  }

  /** `copy_nonoverlapping` of `n` bytes of `src` to the front of `dst`. */
  method CopyNonoverlapping(src: seq<u8>, dst: array<u8>, n: nat)
    requires n <= |src| && n <= dst.Length
    modifies dst
    ensures dst[..] == src[..n] + old(dst[..])[n..]
  {
    forall i | 0 <= i < n {
      dst[i] := src[i];
    }
  }

  /** One `copy_nonoverlapping(.., len().min(size - 1))` into a zeroed field gives `Field`. */
  method CopyText(src: seq<u8>, dst: array<u8>)
    requires dst.Length > 0 && dst[..] == Zeros(dst.Length)
    modifies dst
    ensures dst[..] == Field(src, dst.Length)
  {
    var n := Min(|src|, dst.Length - 1);
    CopyNonoverlapping(src, dst, n);
    assert Zeros(dst.Length)[n..] == Zeros(dst.Length - n);
  }

  // ---------------------------------------------------------------- the wrapper

  class DiscordClientWrapper {
    /** The `*mut DiscordClient` behind the mutex. */
    var client: nat
    const clientId: u64
    const platform: Platform
    ghost var calls: seq<FfiCall>

    constructor (platform: Platform, clientId: u64, client: nat)
      requires client != 0
      ensures this.client == client && this.clientId == clientId && this.platform == platform && calls == []
    {
      this.client, this.clientId, this.platform := client, clientId, platform;
      calls := [];
    }

    method Connect(code: i32) returns (r: Result<(), DiscordError>)
      modifies this`calls
      ensures r == Check(Ffi(platform, code)) && calls == old(calls) + [ConnectCall(client)]
    {
      calls := calls + [ConnectCall(client)];
      var result := Ffi(platform, code);
      if result != 0 {
        return Err(SdkError(result));
      }
      r := Ok(());
    }

    method Disconnect(code: i32) returns (r: Result<(), DiscordError>)
      modifies this`calls
      ensures r == Check(Ffi(platform, code)) && calls == old(calls) + [DisconnectCall(client)]
    {
      calls := calls + [DisconnectCall(client)];
      var result := Ffi(platform, code);
      if result != 0 {
        return Err(SdkError(result));
      }
      r := Ok(());
    }

    method RunCallbacks(code: i32) returns (r: Result<(), DiscordError>)
      modifies this`calls
      ensures r == Check(Ffi(platform, code)) && calls == old(calls) + [RunCallbacksCall(client)]
    {
      calls := calls + [RunCallbacksCall(client)];
      var result := Ffi(platform, code);
      if result != 0 {
        return Err(SdkError(result));
      }
      r := Ok(());
    }

    method ClearActivity(code: i32) returns (r: Result<(), DiscordError>)
      modifies this`calls
      ensures r == Check(Ffi(platform, code)) && calls == old(calls) + [ActivityClear(client)]
    {
      calls := calls + [ActivityClear(client)];
      var result := Ffi(platform, code);
      if result != 0 {
        return Err(SdkError(result));
      }
      r := Ok(());
    }

    /** `get_current_user`: the id and the name up to its NUL, as the SDK wrote them. */
    method GetCurrentUser(code: i32, id: u64, username: seq<u8>) returns (r: Result<(u64, seq<u8>), DiscordError>)
      modifies this`calls
      ensures calls == old(calls) + [CurrentUserCall(client)]
      ensures Ffi(platform, code) != 0 ==> r == Err(SdkError(Ffi(platform, code)))
      ensures Ffi(platform, code) == 0 ==> r == Ok((id, CStr(username)))
    {
      calls := calls + [CurrentUserCall(client)];
      var result := Ffi(platform, code);
      if result != 0 {
        return Err(SdkError(result));
      }
      r := Ok((id, CStr(username)));
    }

    /** `send_message`: a content with a NUL byte is refused before the SDK sees it. */
    method SendMessage(channelId: u64, content: seq<u8>, code: i32) returns (r: Result<(), DiscordError>)
      modifies this`calls
      ensures !NoNul(content) ==> r == Err(Utf8Error) && calls == old(calls)
      ensures NoNul(content) ==>
                r == Check(Ffi(platform, code)) && calls == old(calls) + [SendMessageCall(client, channelId, content)]
    {
      if !NoNul(content) {
        return Err(Utf8Error);
      }
      calls := calls + [SendMessageCall(client, channelId, content)];
      var result := Ffi(platform, code);
      if result != 0 {
        return Err(SdkError(result));
      }
      r := Ok(());
    }

    /**
     * `get_channels`: 100 zeroed slots, the SDK (or the stub, which sets the count to 0) fills
     * them, and the vector is truncated to the count it reported.
     */
    method GetChannels(code: i32, count: i32, filled: seq<RawChannel>) returns (r: Result<seq<(u64, seq<u8>)>, DiscordError>)
      modifies this`calls
      ensures r == ChannelsResult(platform, code, count, filled)
      ensures calls == old(calls) + [GetChannelsCall(client, MAX_CHANNELS)]
    {
      var channels := new RawChannel[MAX_CHANNELS](_ => ZERO_CHANNEL);
      var reported: i32 := 0;
      calls := calls + [GetChannelsCall(client, MAX_CHANNELS)];
      if platform.Linux? {
        var m := Min(|filled|, MAX_CHANNELS);
        forall i | 0 <= i < m {
          channels[i] := filled[i];
        }
        reported := count;
      }
      var result := Ffi(platform, code);
      if result != 0 {
        return Err(SdkError(result));
      }
      var buf := channels[..];
      assert buf == Buffer(platform, filled);
      var keep := Kept(reported);
      r := Ok(seq(keep, i requires 0 <= i < keep => (buf[i].id, CStr(buf[i].name))));
    }

    /**
     * `set_activity`: all three texts must convert to C strings before anything is copied;
     * each is then copied, truncated, into its zeroed field, and the other two fields stay
     * zero.
     */
    method SetActivity(state: seq<u8>, details: seq<u8>, largeImage: seq<u8>, code: i32) returns (r: Result<(), DiscordError>)
      modifies this`calls
      ensures !(NoNul(state) && NoNul(details) && NoNul(largeImage)) ==> r == Err(Utf8Error) && calls == old(calls)
      ensures NoNul(state) && NoNul(details) && NoNul(largeImage) ==>
                r == Check(Ffi(platform, code)) &&
                calls == old(calls) + [ActivityUpdate(client, Field(state, STATE_LEN), Field(details, DETAILS_LEN),
                                                      Field(largeImage, LARGE_IMAGE_LEN), Zeros(LARGE_TEXT_LEN), Zeros(PARTY_ID_LEN))]
    {
      var activity := new DiscordActivity();
      if !NoNul(state) || !NoNul(details) || !NoNul(largeImage) {
        return Err(Utf8Error);
      }
      CopyText(state, activity.state);
      CopyText(details, activity.details);
      CopyText(largeImage, activity.assetsLargeImage);
      calls := calls + [ActivityUpdate(client, activity.state[..], activity.details[..], activity.assetsLargeImage[..],
                                       activity.assetsLargeText[..], activity.partyId[..])];
      var result := Ffi(platform, code);
      if result != 0 {
        return Err(SdkError(result));
      }
      r := Ok(());
    }

    /** `Drop`: destroys a live client once and nulls its client pointer. */
    method Drop()
      modifies this
      ensures client == 0
      ensures calls == old(calls) + (if old(client) != 0 then [Destroy(old(client))] else [])
    {
      if client != 0 {
        calls := calls + [Destroy(client)];
        client := 0;
      }
    }
  }

  /** `DiscordClientWrapper::new`: a null client from `discord_client_create` is `NullPointer`. */
  method New(platform: Platform, clientId: u64, created: nat) returns (r: Result<DiscordClientWrapper, DiscordError>)
    ensures r.Err? <==> Created(platform, created) == 0
    ensures r.Err? ==> r.error == NullPointer
    ensures r.Ok? ==> fresh(r.value) && r.value.client == created && r.value.clientId == clientId &&
                      r.value.platform == platform && r.value.calls == []
  {
    var client := Created(platform, created);
    if client == 0 {
      return Err(NullPointer);
    }
    var w := new DiscordClientWrapper(platform, clientId, client);
    r := Ok(w);
  }

  // ---------------------------------------------------------------- the exports

  /** `create_discord_client`: a boxed wrapper, or null. */
  method CreateDiscordClient(platform: Platform, clientId: u64, created: nat) returns (h: DiscordClientWrapper?)
    ensures h == null <==> Created(platform, created) == 0
    ensures h != null ==> fresh(h) && h.client == created && h.calls == []
  {
    var w := New(platform, clientId, created);
    if w.Ok? {
      return w.value;
    }
    h := null;
  }

  /** `destroy_discord_client`: dropping the box runs `Drop`; a null handle is ignored. */
  method DestroyDiscordClient(h: DiscordClientWrapper?)
    modifies h
    ensures h != null ==> h.client == 0 && h.calls == old(h.calls) + (if old(h.client) != 0 then [Destroy(old(h.client))] else [])
  {
    if h != null {
      h.Drop();
    }
  }

  method ClientConnect(h: DiscordClientWrapper?, code: i32) returns (rc: int)
    modifies h
    ensures h == null ==> rc == -1
    ensures h != null ==> rc == Exported(false, h.platform, code) && h.calls == old(h.calls) + [ConnectCall(h.client)]
  {
    if h == null {
      return -1;
    }
    var r := h.Connect(code);
    rc := if r.Ok? then 0 else -1;
  }

  method ClientDisconnect(h: DiscordClientWrapper?, code: i32) returns (rc: int)
    modifies h
    ensures h == null ==> rc == -1
    ensures h != null ==> rc == Exported(false, h.platform, code) && h.calls == old(h.calls) + [DisconnectCall(h.client)]
  {
    if h == null {
      return -1;
    }
    var r := h.Disconnect(code);
    rc := if r.Ok? then 0 else -1;
  }

  method ClientRunCallbacks(h: DiscordClientWrapper?, code: i32) returns (rc: int)
    modifies h
    ensures h == null ==> rc == -1
    ensures h != null ==> rc == Exported(false, h.platform, code) && h.calls == old(h.calls) + [RunCallbacksCall(h.client)]
  {
    if h == null {
      return -1;
    }
    var r := h.RunCallbacks(code);
    rc := if r.Ok? then 0 else -1;
  }
}
