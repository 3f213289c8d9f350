/**
 * The slice of `serde_json::Value` the command handlers touch: field lookup on the
 * optional `args` object and the `as_str` / `as_u64` / `as_i64` / `as_bool` views.
 */
module Json {
  import opened Wrappers
  import opened Decimal

  /** A JSON value. `JInt` is a number serde holds as an integer; `JFloat` one it holds as a float. */
  datatype Json =
    | JNull
    | JBool(b: bool)
    | JInt(i: int)
    | JFloat(text: string)
    | JString(s: string)
    | JArray(items: seq<Json>)
    | JObject(fields: map<string, Json>)

  /** `args.as_ref().and_then(|a| a.get(key))`: only an object has fields. */
  function Get(v: Option<Json>, key: string): Option<Json>
  {
    match v
    case Some(JObject(fields)) => if key in fields then Some(fields[key]) else None
    case _ => None
  }

  function AsStr(v: Option<Json>): Option<string>
  {
    match v
    case Some(JString(s)) => Some(s)
    case _ => None
  }

  function AsU64(v: Option<Json>): Option<u64>
  {
    match v
    case Some(JInt(i)) => if 0 <= i < U64_LIMIT then Some(i) else None
    case _ => None
  }

  function AsI64(v: Option<Json>): Option<int>
  {
    match v
    case Some(JInt(i)) => if -0x8000_0000_0000_0000 <= i < 0x8000_0000_0000_0000 then Some(i) else None
    case _ => None
  }

  function AsBool(v: Option<Json>): Option<bool>
  {
    match v
    case Some(JBool(b)) => Some(b)
    case _ => None
  }

  /** `json!({key: value})`. */
  function Obj(key: string, value: Json): Json
  {
    JObject(map[key := value])
  }

  function Obj2(k1: string, v1: Json, k2: string, v2: Json): Json
  {
    JObject(map[k1 := v1, k2 := v2])
  }

  /** `args.get(key).and_then(|v| v.as_str()).and_then(|s| s.parse::<u64>().ok())`. */
  function U64Text(args: Option<Json>, key: string): Option<u64>
  {
    match AsStr(Get(args, key))
    case Some(s) => ParseU64(s)
    case None => None
  }

  /** A field read as a decimal string is the number written there, and nothing else is. */
  lemma U64TextOfDecimal(fields: map<string, Json>, key: string, n: u64)
    requires key in fields && fields[key] == JString(NatToString(n))
    ensures U64Text(Some(JObject(fields)), key) == Some(n)
  {
    ParseU64OfNatToString(n);
  }
}
