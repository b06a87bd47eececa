/**
 * NativoBidExt.isOwnedOperated: reads the owned-and-operated flag at ext.nativo.oo of a bid's
 * JSON.  The org.json parser is an input (`parse`, None for a JSONException); its result is
 * an abstract JSON value.  `JInt` holds a whole-number literal; org.json reads one inside the
 * Long range as Integer or Long, and one outside it as Double.  `JDouble` holds the value of the
 * Double org.json parsed from a literal with a fraction or exponent (a real, without NaN or
 * infinities), so rounding to the nearest Double has already happened.
 */
module BidExt {
  import opened Wrappers
  import opened Bids

  datatype Json =
    | JNull
    | JBool(b: bool)
    | JInt(i: int)
    | JDouble(d: real)
    | JString(s: string)
    | JArray(items: seq<Json>)
    | JObject(fields: map<string, Json>)

  const ExtKey: string := "ext"
  const NativoKey: string := "nativo"
  const OwnedOperatedKey: string := "oo"

  const TwoTo32: int := 0x1_0000_0000
  const LongMin: int := -0x8000_0000_0000_0000
  const LongMax: int := 0x7fff_ffff_ffff_ffff
  const IntMin: int := -0x8000_0000
  const IntMax: int := 0x7fff_ffff

  /** A whole number org.json reads as Integer or Long rather than as Double. */
  predicate LongRange(i: int)
  {
    LongMin <= i <= LongMax
  }

  /** Long.toInt: keeps the low 32 bits, read as a signed two's-complement Int. */
  function LongToInt(i: int): (r: int)
    ensures IntMin <= r <= IntMax
    ensures (r - i) % TwoTo32 == 0
  {
    var low := i % TwoTo32;
    if low > IntMax then low - TwoTo32 else low
  }

  /** Rounds toward zero. */
  function Truncate(d: real): (r: int)
    ensures d >= 0.0 ==> r as real <= d < r as real + 1.0
    ensures d < 0.0 ==> r as real - 1.0 < d <= r as real
  {
    if d >= 0.0 then d.Floor else -((-d).Floor)
  }

  /** Double.toInt: truncates toward zero and saturates at the Int bounds. */
  function DoubleToInt(d: real): (r: int)
    ensures IntMin <= r <= IntMax
    ensures d >= IntMax as real ==> r == IntMax
    ensures d <= IntMin as real ==> r == IntMin
    ensures IntMin as real < d < IntMax as real ==> r == Truncate(d)
  {
    if d >= IntMax as real then IntMax
    else if d <= IntMin as real then IntMin
    else Truncate(d)
  }

  /** A whole number converts to a non-zero Int iff it is not a multiple of 2^32. */
  lemma LongToIntNonZero(i: int)
    ensures LongToInt(i) != 0 <==> i % TwoTo32 != 0
  {
  }

  /** A decimal converts to a non-zero Int iff its magnitude is at least one. */
  lemma DoubleToIntNonZero(d: real)
    ensures DoubleToInt(d) != 0 <==> d <= -1.0 || 1.0 <= d
  {
    if -1.0 < d < 1.0 {
      assert Truncate(d) == 0;
    }
  }

  /** JSONObject.optJSONObject: the value under `key` when it is an object, else null. */
  function OptJsonObject(fields: map<string, Json>, key: string): (r: Option<map<string, Json>>)
  {
    if key in fields && fields[key].JObject? then Some(fields[key].fields) else None
  }

  /** JSONObject.opt: the value under `key`, or null when the key is absent. */
  function Opt(fields: map<string, Json>, key: string): Option<Json>
  {
    if key in fields then Some(fields[key]) else None
  }

  /**
   * The `when` over the raw value: a Boolean as is, a Number by its Int conversion, anything else
   * false.  A whole number beyond the Long range is a Double to org.json; its conversion saturates.
   */
  function FlagValue(raw: Option<Json>): bool
  {
    match raw
    case Some(JBool(b)) => b
    case Some(JInt(i)) => if LongRange(i) then LongToInt(i) != 0 else DoubleToInt(i as real) != 0
    case Some(JDouble(d)) => DoubleToInt(d) != 0
    case _ => false
  }

  /** The value at `path`, descending through objects only. */
  function Lookup(j: Json, path: seq<string>): Option<Json>
  {
    if path == [] then Some(j)
    else if j.JObject? && path[0] in j.fields then Lookup(j.fields[path[0]], path[1..])
    else None
  }

  lemma LookupStep(fields: map<string, Json>, key: string, rest: seq<string>)
    ensures Lookup(JObject(fields), [key] + rest) == if key in fields then Lookup(fields[key], rest) else None
  {
    assert ([key] + rest)[1..] == rest;
  }

  function IsOwnedOperated(bid: Option<Bid>, parse: string -> Option<Json>): (r: bool)
    ensures r <==>
      && bid.Some? && bid.value.jsonString.Some?
      && parse(bid.value.jsonString.value).Some?
      && var oo := Lookup(parse(bid.value.jsonString.value).value, [ExtKey, NativoKey, OwnedOperatedKey]);
         || oo == Some(JBool(true))
         || (oo.Some? && oo.value.JInt? && (!LongRange(oo.value.i) || oo.value.i % TwoTo32 != 0))
         || (oo.Some? && oo.value.JDouble? && (oo.value.d <= -1.0 || 1.0 <= oo.value.d))
  {
    if bid.None? then false
    else if bid.value.jsonString.None? then false
    else
      match parse(bid.value.jsonString.value)
      case None => false
      case Some(root) =>
        if !root.JObject? then false
        else
          match OptJsonObject(root.fields, ExtKey)
          case None => false
          case Some(ext) =>
            LookupStep(root.fields, ExtKey, [NativoKey, OwnedOperatedKey]);
            LookupStep(ext, NativoKey, [OwnedOperatedKey]);
            match OptJsonObject(ext, NativoKey)
            case None => false
            case Some(nativo) =>
              var raw := Opt(nativo, OwnedOperatedKey);
              LookupStep(nativo, OwnedOperatedKey, []);
              LongToIntNonZero(if raw.Some? && raw.value.JInt? then raw.value.i else 0);
              DoubleToIntNonZero(if raw.Some? && raw.value.JDouble? then raw.value.d else 0.0);
              DoubleToIntNonZero(if raw.Some? && raw.value.JInt? then raw.value.i as real else 0.0);
              FlagValue(raw)
  }

  /** Without `ext`, or with `ext` lacking a `nativo` object, the bid is not owned and operated. */
  lemma {:induction false} MissingNativoObjectIsNotOwned(bid: Bid, parse: string -> Option<Json>)
    requires bid.jsonString.Some? && parse(bid.jsonString.value).Some?
    requires var root := parse(bid.jsonString.value).value;
      !root.JObject? || OptJsonObject(root.fields, ExtKey).None?
      || OptJsonObject(OptJsonObject(root.fields, ExtKey).value, NativoKey).None?
    ensures !IsOwnedOperated(Some(bid), parse)
  {
    var root := parse(bid.jsonString.value).value;
    if root.JObject? && OptJsonObject(root.fields, ExtKey).Some? {
      var ext := OptJsonObject(root.fields, ExtKey).value;
      assert root.fields[ExtKey] == JObject(ext);
      assert Lookup(root, [ExtKey, NativoKey, OwnedOperatedKey]) == Lookup(JObject(ext), [NativoKey, OwnedOperatedKey]);
    }
  }
}
