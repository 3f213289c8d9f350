/**
 * The pure argument and token readings of rust-native/src/main.rs: the `lobby_id` that is
 * either a JSON number or a decimal string, the `limit` cast to `i32`, the NUL test of
 * `CString::new`, and the stored-token format `type=N:token`.
 */
module BridgeArgs {
  import opened Wrappers
  import opened Decimal
  import opened Json

  /**
   * `lobby_id` as `get_lobby`, `send_lobby_message` and `leave_lobby` read it:
   * `v.as_u64()`, else `v.as_str()` parsed as u64, else 0.
   */
  function LobbyIdArg(args: Option<Json>): (id: u64)
    ensures id != 0 ==> Get(args, "lobby_id") == Some(JInt(id)) ||
                        (AsStr(Get(args, "lobby_id")).Some? && ParseU64(AsStr(Get(args, "lobby_id")).value) == Some(id))
  {
    var v := Get(args, "lobby_id");
    match AsU64(v)
    case Some(n) => n
    case None =>
      match AsStr(v)
      case Some(s) => ParseU64(s).GetOr(0)
      case None => 0
  }

  /** A positive id is accepted whether it is sent as a number or as its decimal text. */
  lemma LobbyIdAcceptsBothForms(fields: map<string, Json>, n: u64)
    requires "lobby_id" in fields
    requires fields["lobby_id"] == JInt(n) || fields["lobby_id"] == JString(NatToString(n))
    ensures LobbyIdArg(Some(JObject(fields))) == n
  {
    ParseU64OfNatToString(n);
  }

  /** Anything that is neither a u64 number nor a decimal string reads as 0. */
  lemma LobbyIdOtherwiseZero(args: Option<Json>)
    requires var v := Get(args, "lobby_id");
             v.None? || v.value.JNull? || v.value.JBool? || v.value.JFloat? || v.value.JArray? || v.value.JObject? ||
             (v.value.JInt? && !(0 <= v.value.i < U64_LIMIT)) ||
             (v.value.JString? && ParseU64(v.value.s).None?)
    ensures LobbyIdArg(args) == 0
  {
  }

  /** Rust's `as i32` on an `i64`: keep the low 32 bits, read them as two's complement. */
  function WrapI32(x: int): (r: i32)
    ensures I32_MIN <= x < I32_LIMIT ==> r == x
    ensures (x - r) % 0x1_0000_0000 == 0
  {
    (x - I32_MIN) % 0x1_0000_0000 + I32_MIN
  }

  /** The `limit` argument: `as_i64().unwrap_or(50) as i32`. */
  function LimitArg(args: Option<Json>): (limit: i32)
    ensures AsI64(Get(args, "limit")).None? ==> limit == 50
  {
    WrapI32(AsI64(Get(args, "limit")).GetOr(50))
  }

  /** `CString::new(s)` fails exactly when `s` contains a NUL byte. */
  predicate HasNul(s: string) { '\0' in s }

  /** The marker the host sends when no token is stored. */
  const AUTH_REQUIRED: string := "SDK_AUTH_REQUIRED"

  /** The stored-token path is taken for anything but the marker that is longer than 20 bytes. */
  predicate UsesStoredToken(token: string) { token != AUTH_REQUIRED && |token| > 20 }

  /** `s.find(':')`: the index of the first colon. */
  function FindColon(s: string): (r: Option<nat>)
    ensures r.Some? ==> r.value < |s| && s[r.value] == ':' && ':' !in s[..r.value]
    ensures r.None? ==> ':' !in s
  {
    if s == [] then None
    else if s[0] == ':' then Some(0)
    else
      match FindColon(s[1..])
      case Some(k) =>
        assert s[..k + 1] == [s[0]] + s[1..][..k];
        Some(k + 1)
      case None => None
  }

  /** The first colon is found wherever it is. */
  lemma {:induction false} FindColonAt(s: string, k: nat)
    requires k < |s| && s[k] == ':' && ':' !in s[..k]
    ensures FindColon(s) == Some(k)
  {
    if k > 0 {
      assert s[0] == s[..k][0];
      assert s[1..][..k - 1] == s[1..k];
      assert forall i :: 0 <= i < k - 1 ==> s[1..k][i] == s[..k][i + 1];
      FindColonAt(s[1..], k - 1);
    }
  }

  /**
   * The stored-token format: `"type=N:rest"` gives (N, rest), with N = 1 when it does not
   * parse as a c_int; anything else gives (1, whole token). The token part is always a
   * suffix of the stored token.
   */
  function ParseStoredToken(token: string): (r: (i32, string))
    ensures |r.1| <= |token| && r.1 == token[|token| - |r.1|..]
  {
    if |token| >= 5 && token[..5] == "type=" then
      // "type=" holds no colon, so the first colon of the token is the first one after it.
      match FindColon(token[5..])
      case Some(k) => (ParseI32(token[5..5 + k]).GetOr(1), token[5 + k + 1..])
      case None => (1, token)
    else (1, token)
  }

  /** Round trip: writing `type=N:rest` and reading it back yields N and rest, whatever rest holds. */
  lemma StoredTokenRoundTrip(n: i32, rest: string)
    ensures ParseStoredToken("type=" + IntToString(n) + ":" + rest) == (n, rest)
  {
    var digits := IntToString(n);
    var token := "type=" + digits + ":" + rest;
    IntToStringHasNoColon(n);
    assert token[..5] == "type=";
    assert ':' !in token[..5 + |digits|] by {
      assert token[..5 + |digits|] == "type=" + digits;
    }
    assert token[5 + |digits|] == ':';
    assert token[5..] == digits + ":" + rest;
    assert token[5..][..|digits|] == digits;
    assert token[5..][..|digits|] == digits;
    FindColonAt(token[5..], |digits|);
    assert token[5..5 + |digits|] == digits;
    assert token[5 + |digits| + 1..] == rest;
    ParseI32OfIntToString(n);
  }

  /** A type field that is not a number falls back to Bearer (1). */
  lemma StoredTokenBadTypeIsBearer(typeText: string, rest: string)
    requires ':' !in typeText && ParseI32(typeText).None?
    ensures ParseStoredToken("type=" + typeText + ":" + rest) == (1, rest)
  {
    var token := "type=" + typeText + ":" + rest;
    assert token[..5] == "type=";
    assert token[5..] == typeText + ":" + rest;
    assert token[5..][..|typeText|] == typeText;
    FindColonAt(token[5..], |typeText|);
    assert token[5..5 + |typeText|] == typeText;
  }

  /** A token without the `type=` prefix, or without a colon, is used whole as a Bearer token. */
  lemma StoredTokenLegacy(token: string)
    requires !(|token| >= 5 && token[..5] == "type=") || ':' !in token
    ensures ParseStoredToken(token) == (1, token)
  {
    if |token| >= 5 && token[..5] == "type=" {
      assert forall i :: 0 <= i < |token[5..]| ==> token[5..][i] == token[5 + i];
      assert FindColon(token[5..]).None?;
    }
  }
}
