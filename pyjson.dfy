/** Decoded JSON values as Python sees them after `response.json()`, and the few
    pieces of Python's runtime semantics the bot applies to them: the `in`
    operator with a string on the left, subscription with a string key, hashing
    a value to look it up among a dict's keys, and `str()` in an f-string. */
module PyJson {
  import opened Wrappers

  /** A decoded JSON value: `dict`, `list`, `str`, `int`, `bool` or `None`. */
  datatype Json =
    | JObject(fields: map<string, Json>)
    | JArray(items: seq<Json>)
    | JString(str: string)
    | JInt(num: int)
    | JBool(flag: bool)
    | JNull

  /** The errors the Python interpreter itself raises on these values. */
  datatype PyError =
    | NotIterable(typeName: string)       // `key in v` where v is an int, bool or None
    | NotSubscriptable(typeName: string)  // `v[key]` where v is not a dict
    | Unhashable(typeName: string)        // `v in some_dict` where v is a list or dict

  /** The name Python gives the type of a decoded value. */
  function TypeName(v: Json): (r: string)
    ensures r == "dict" <==> v.JObject?
    ensures r == "list" <==> v.JArray?
  {
    match v
    case JObject(_) => "dict"
    case JArray(_) => "list"
    case JString(_) => "str"
    case JInt(_) => "int"
    case JBool(_) => "bool"
    case JNull => "NoneType"
  }

  /** str(error) for an interpreter error, as CPython words it: the offending
      type's name, quoted, in a fixed frame. */
  function Message(e: PyError): (r: string)
    ensures e.NotIterable? ==> r == "argument of type '" + e.typeName + "' is not iterable"
    ensures e.Unhashable? ==> r == "unhashable type: '" + e.typeName + "'"
    ensures (e.NotSubscriptable? && e.typeName != "str" && e.typeName != "list")
            ==> r == "'" + e.typeName + "' object is not subscriptable"
  {
    match e
    case NotIterable(t) => "argument of type '" + t + "' is not iterable"
    case NotSubscriptable(t) =>
      if t == "str" then "string indices must be integers"
      else if t == "list" then "list indices must be integers or slices, not str"
      else "'" + t + "' object is not subscriptable"
    case Unhashable(t) => "unhashable type: '" + t + "'"
  }

  /** Whether `needle` occurs in `hay` at position `i`. */
  predicate OccursAt(hay: string, needle: string, i: int) {
    0 <= i && i + |needle| <= |hay| && hay[i..i + |needle|] == needle
  }

  /** Whether `needle` occurs as a contiguous piece of `hay`: Python's
      `needle in hay` on two strings. */
  function HasSubstring(hay: string, needle: string): (r: bool)
    ensures r <==> exists i :: OccursAt(hay, needle, i)
    decreases |hay|
  {
    if needle <= hay then
      assert OccursAt(hay, needle, 0);
      true
    else if hay == [] then
      false
    else
      var r := HasSubstring(hay[1..], needle);
      assert !OccursAt(hay, needle, 0);
      assert forall i :: OccursAt(hay[1..], needle, i) <==> OccursAt(hay, needle, i + 1) by {
        forall i ensures OccursAt(hay[1..], needle, i) <==> OccursAt(hay, needle, i + 1) {
          if 0 <= i && i + 1 + |needle| <= |hay| {
            assert hay[1..][i..i + |needle|] == hay[i + 1..i + 1 + |needle|];
          }
        }
      }
      assert r ==> exists i :: OccursAt(hay, needle, i) by {
        if r {
          var i :| OccursAt(hay[1..], needle, i);
          assert OccursAt(hay, needle, i + 1);
        }
      }
      assert (exists i :: OccursAt(hay, needle, i)) ==> r by {
        if exists i :: OccursAt(hay, needle, i) {
          var i :| OccursAt(hay, needle, i);
          assert i != 0;
          assert OccursAt(hay[1..], needle, i - 1);
        }
      }
      r
  }

  /** Python's `key in v` for a string `key`: a key of a dict, an element of a
      list, a substring of a string; an error for any other type. */
  function Contains(v: Json, key: string): (r: Result<bool, PyError>)
    ensures r.Err? <==> v.JInt? || v.JBool? || v.JNull?
    ensures v.JObject? ==> r == Ok(key in v.fields)
    ensures v.JArray? ==> r == Ok(JString(key) in v.items)
    ensures v.JString? ==> r == Ok(exists i :: OccursAt(v.str, key, i))
  {
    match v
    case JObject(m) => Ok(key in m)
    case JArray(xs) => Ok(JString(key) in xs)
    case JString(s) => Ok(HasSubstring(s, key))
    case _ => Err(NotIterable(TypeName(v)))
  }

  /** Python's `v[key]` for a string `key`, for a dict that has the key; every
      other type refuses a string subscript. */
  function GetItem(v: Json, key: string): (r: Result<Json, PyError>)
    requires v.JObject? ==> key in v.fields
    ensures r.Ok? <==> v.JObject?
    ensures r.Ok? ==> r.value == v.fields[key]
  {
    if v.JObject? then Ok(v.fields[key]) else Err(NotSubscriptable(TypeName(v)))
  }

  /** Python's `v in d` for a dict `d` with string keys `keys`: lists and dicts
      cannot be hashed; only a string can equal a string key. */
  function IsKeyOf(v: Json, keys: set<string>): (r: Result<bool, PyError>)
    ensures r.Err? <==> v.JArray? || v.JObject?
    ensures r == Ok(true) <==> v.JString? && v.str in keys
  {
    match v
    case JArray(_) => Err(Unhashable(TypeName(v)))
    case JObject(_) => Err(Unhashable(TypeName(v)))
    case JString(s) => Ok(s in keys)
    case _ => Ok(false)
  }

  // ----- str() of an int: decimal digits ---------------------------------

  predicate IsDigit(c: char) {
    '0' <= c <= '9'
  }

  predicate AllDigits(s: string) {
    forall i :: 0 <= i < |s| ==> IsDigit(s[i])
  }

  function DigitChar(d: nat): (c: char)
    requires d < 10
    ensures IsDigit(c) && c as int - '0' as int == d
  {
    ('0' as int + d) as char
  }

  /** The decimal digits of `n`: never empty, no leading zero. */
  function NatToDecimal(n: nat): (r: string)
    ensures |r| > 0 && AllDigits(r)
    ensures r[0] == '0' ==> n == 0
    decreases n
  {
    if n < 10 then [DigitChar(n)] else NatToDecimal(n / 10) + [DigitChar(n % 10)]
  }

  /** The value a string of decimal digits denotes; the partner of NatToDecimal. */
  function DecimalToNat(s: string): nat
    requires AllDigits(s)
  {
    if s == [] then 0
    else DecimalToNat(s[..|s| - 1]) * 10 + (s[|s| - 1] as int - '0' as int)
  }

  lemma {:induction false} DecimalRoundTrip(n: nat)
    ensures DecimalToNat(NatToDecimal(n)) == n
    decreases n
  {
    if n >= 10 {
      var r := NatToDecimal(n);
      assert r[..|r| - 1] == NatToDecimal(n / 10);
      DecimalRoundTrip(n / 10);
    }
  }

  /** Python's `str(i)` for an int. */
  function IntToDecimal(i: int): (r: string)
    ensures |r| > 0
    ensures i < 0 <==> r[0] == '-'
    ensures i >= 0 ==> AllDigits(r) && DecimalToNat(r) == i
    ensures i < 0 ==> AllDigits(r[1..]) && DecimalToNat(r[1..]) == -i
    ensures r[0] == '0' ==> r == "0"
    ensures i < 0 ==> |r| >= 2 && r[1] != '0'
  {
    if i < 0 then
      DecimalRoundTrip(-i);
      assert ("-" + NatToDecimal(-i))[1..] == NatToDecimal(-i);
      "-" + NatToDecimal(-i)
    else
      DecimalRoundTrip(i);
      assert i == 0 ==> NatToDecimal(i) == "0";
      NatToDecimal(i)
  }

  /** Python's `str(v)` as an f-string applies it to a scalar; the text of a
      list or dict (its repr) is not modelled, so those give None. */
  function Str(v: Json): (r: Option<string>)
    ensures r.None? <==> v.JArray? || v.JObject?
    ensures v.JString? ==> r == Some(v.str)
    ensures v.JInt? ==> r == Some(IntToDecimal(v.num))
    ensures v.JBool? ==> r == Some(if v.flag then "True" else "False")
    ensures v.JNull? ==> r == Some("None")
  {
    match v
    case JString(s) => Some(s)
    case JInt(i) => Some(IntToDecimal(i))
    case JBool(b) => Some(if b then "True" else "False")
    case JNull => Some("None")
    case _ => None
  }
}
