/**
 * Decoded JSON values, as the Python objects that `response.json()` yields,
 * and the few Python operations the bot applies to them: truthiness, the
 * `in` operator, subscripting with a string key and `str()`.
 */
module Json {
  import opened Exceptions

  /** None, bool, int, str, list and dict (JSON floats are not modelled). */
  datatype Json =
    | JNull
    | JBool(b: bool)
    | JInt(i: int)
    | JString(s: string)
    | JArray(elems: seq<Json>)
    | JObject(fields: map<string, Json>)

  /** Python truthiness: None, False, 0 and empty containers are falsy. */
  predicate Truthy(v: Json)
    ensures !Truthy(v) <==> v == JNull || v == JBool(false) || v == JInt(0) || v == JString("")
                            || v == JArray([]) || v == JObject(map[])
  {
    match v
    case JNull => false
    case JBool(b) => b
    case JInt(i) => i != 0
    case JString(s) => s != ""
    case JArray(xs) => xs != []
    case JObject(m) => m != map[]
  }

  /** `type(v).__name__` */
  function TypeName(v: Json): string
  {
    match v
    case JNull => "NoneType"
    case JBool(_) => "bool"
    case JInt(_) => "int"
    case JString(_) => "str"
    case JArray(_) => "list"
    case JObject(_) => "dict"
  }

  /** `needle` occurs in `hay` starting at index `i`. */
  ghost predicate OccursAt(hay: string, needle: string, i: int)
  {
    0 <= i && i + |needle| <= |hay| && hay[i..i + |needle|] == needle
  }

  /** Python's `needle in hay` on two strings: substring containment. */
  function Contains(hay: string, needle: string): bool
    decreases |hay|
  {
    if |hay| < |needle| then false
    else if hay[..|needle|] == needle then true
    else Contains(hay[1..], needle)
  }

  /** `Contains` holds exactly when `needle` occurs somewhere in `hay`. */
  lemma {:induction false} ContainsIffOccurs(hay: string, needle: string)
    ensures Contains(hay, needle) <==> exists i :: OccursAt(hay, needle, i)
    decreases |hay|
  {
    if |hay| < |needle| {
      assert forall i :: !OccursAt(hay, needle, i);
    } else if hay[..|needle|] == needle {
      assert OccursAt(hay, needle, 0);
    } else {
      ContainsIffOccurs(hay[1..], needle);
      if exists i :: OccursAt(hay[1..], needle, i) {
        var i :| OccursAt(hay[1..], needle, i);
        assert hay[1..][i..i + |needle|] == hay[i + 1..i + 1 + |needle|];
        assert OccursAt(hay, needle, i + 1);
      }
      if exists i :: OccursAt(hay, needle, i) {
        var i :| OccursAt(hay, needle, i);
        assert i != 0;
        assert hay[1..][i - 1..i - 1 + |needle|] == hay[i..i + |needle|];
        assert OccursAt(hay[1..], needle, i - 1);
      }
    }
  }

  /** A string contains every prefix of itself, in particular itself. */
  lemma ContainsPrefix(hay: string, needle: string)
    requires |needle| <= |hay| && hay[..|needle|] == needle
    ensures Contains(hay, needle)
  {
  }

  /** Python's `key in container` for a string key. */
  function In(container: Json, key: string): (r: Result<bool>)
    ensures r.Err? <==> container.JNull? || container.JBool? || container.JInt?
    ensures r.Err? ==> r.error == TypeError(NotIterable(TypeName(container)))
    ensures container.JObject? ==> r == Ok(key in container.fields)
    ensures container.JArray? ==> r == Ok(JString(key) in container.elems)
    ensures container.JString? ==> r == Ok(exists i :: OccursAt(container.s, key, i))
  {
    match container
    case JObject(m) => Ok(key in m)
    case JArray(xs) => Ok(JString(key) in xs)
    case JString(s) =>
      ContainsIffOccurs(s, key);
      Ok(Contains(s, key))
    case _ => Err(TypeError(NotIterable(TypeName(container))))
  }

  /** Python's `container[key]` for a string key. */
  function GetItem(container: Json, key: string): (r: Result<Json>)
    ensures container.JObject? && key in container.fields ==> r == Ok(container.fields[key])
    ensures container.JObject? && key !in container.fields ==> r == Err(KeyError(key))
    ensures container.JString? ==> r == Err(TypeError(StringIndicesMustBeIntegers))
    ensures container.JArray? ==> r == Err(TypeError(ListIndicesMustBeIntegers))
    ensures container.JNull? || container.JBool? || container.JInt?
            ==> r == Err(TypeError(NotSubscriptable(TypeName(container))))
  {
    match container
    case JObject(m) => if key in m then Ok(m[key]) else Err(KeyError(key))
    case JString(_) => Err(TypeError(StringIndicesMustBeIntegers))
    case JArray(_) => Err(TypeError(ListIndicesMustBeIntegers))
    case _ => Err(TypeError(NotSubscriptable(TypeName(container))))
  }

  /** `dict.get(key, default)` */
  function Get(m: map<string, Json>, key: string, default: Json): (r: Json)
    ensures key in m ==> r == m[key]
    ensures key !in m ==> r == default
  {
    if key in m then m[key] else default
  }

  predicate IsDigit(c: char)
  {
    '0' <= c <= '9'
  }

  function DigitChar(d: nat): (c: char)
    requires d < 10
    ensures IsDigit(c) && c as int - '0' as int == d
  {
    ('0' as int + d) as char
  }

  /** The number a string of decimal digits denotes. */
  ghost function DecimalValue(digits: string): int
    requires forall k :: 0 <= k < |digits| ==> IsDigit(digits[k])
  {
    if digits == [] then 0
    else DecimalValue(digits[..|digits| - 1]) * 10 + (digits[|digits| - 1] as int - '0' as int)
  }

  /** `str(n)` for a natural number: its decimal digits, without leading zeros. */
  function NatToDecimal(n: nat): (r: string)
    ensures |r| > 0 && (r[0] == '0' ==> r == "0")
    ensures forall k :: 0 <= k < |r| ==> IsDigit(r[k])
    ensures DecimalValue(r) == n
  {
    if n < 10 then [DigitChar(n)]
    else
      var r := NatToDecimal(n / 10) + [DigitChar(n % 10)];
      assert r[..|r| - 1] == NatToDecimal(n / 10);
      r
  }

  /**
   * `str(v)` as an f-string renders it.  Strings render unchanged; lists and
   * dicts render as a fixed placeholder instead of Python's repr.
   */
  function Str(v: Json): (r: string)
    ensures v.JString? ==> r == v.s
    ensures v.JNull? ==> r == "None"
    ensures v.JBool? ==> r == if v.b then "True" else "False"
    // An int renders as its decimal digits without leading zeros, after a
    // minus sign when negative.
    ensures v.JInt? && v.i >= 0
            ==> |r| > 0 && (r[0] == '0' ==> r == "0")
                && (forall k :: 0 <= k < |r| ==> IsDigit(r[k])) && DecimalValue(r) == v.i
    ensures v.JInt? && v.i < 0
            ==> |r| > 1 && r[0] == '-' && r[1] != '0'
                && (forall k :: 1 <= k < |r| ==> IsDigit(r[k]))
                && DecimalValue(r[1..]) == -v.i
  {
    match v
    case JNull => "None"
    case JBool(b) => if b then "True" else "False"
    case JInt(i) => if i < 0 then "-" + NatToDecimal(-i) else NatToDecimal(i)
    case JString(s) => s
    case JArray(_) => "[...]"
    case JObject(_) => "{...}"
  }
}
