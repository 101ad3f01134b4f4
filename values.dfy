/**
 * Python values as they travel through the core: settings dictionaries, status
 * patches, signal dictionaries and JSON replies hold these. The interpreter's own
 * conversions (`int(s)`, `float(s)`, `repr` of floats, `json.dumps`,
 * `json.loads`, UTF-8, `strftime`) are not re-implemented; they are the
 * functions of a `Builtins` value handed to each component.
 */
module Values {
  import opened Wrappers
  import opened Text

  type byte = b: int | 0 <= b < 256

  /** A clock reading, in seconds. */
  type Time = int

  datatype Value =
    | Null
    | Bool(b: bool)
    | Int(i: int)
    | Float(x: real)
    | Str(s: string)
    | List(items: seq<Value>)
    | Dict(entries: map<string, Value>)

  datatype Builtins = Builtins(
    parseInt: string -> Option<int>,        // int(s); None where Python raises ValueError
    parseFloat: string -> Option<real>,     // float(s); None where Python raises ValueError
    floatText: real -> string,              // str(x) for a float x
    containerText: Value -> string,         // str(v) for a list or a dict
    jsonDumps: Value -> string,
    jsonLoads: string -> Option<Value>,     // None where json.loads raises
    formatTime: Time -> string,             // strftime("%Y-%m-%d %H:%M:%S")
    utf8Encode: string -> seq<byte>,
    utf8Decode: seq<byte> -> Result<string, string>)  // Err carries the exception text

  /** `x` is a value a Python float can hold: some text that `float` accepts reads as `x`. */
  ghost predicate Representable(rt: Builtins, x: real) {
    exists s :: rt.parseFloat(s) == Some(x)
  }

  /** 2^53: every integer of at most this magnitude is exactly a float. */
  const ExactIntBound: int := 0x20_0000_0000_0000

  /** `int` reads back what `str` wrote and ignores surrounding white space. */
  ghost predicate IntLaws(rt: Builtins) {
    && (forall i :: rt.parseInt(IntToString(i)) == Some(i))
    && (forall s :: rt.parseInt(Strip(s)) == rt.parseInt(s))
  }

  /**
   * `float` reads back what `str` wrote for every float it can produce, and the
   * text of such a float has no '#'; it reads the integers up to 2^53 exactly,
   * and it ignores surrounding white space.
   */
  ghost predicate FloatLaws(rt: Builtins) {
    && (forall s :: rt.parseFloat(s).Some? ==>
          && rt.parseFloat(rt.floatText(rt.parseFloat(s).value)) == rt.parseFloat(s)
          && '#' !in rt.floatText(rt.parseFloat(s).value))
    && (forall i :: -ExactIntBound <= i <= ExactIntBound ==> rt.parseFloat(IntToString(i)) == Some(i as real))
    && (forall s :: rt.parseFloat(Strip(s)) == rt.parseFloat(s))
  }

  /** The laws of Python's own conversions that the settings proofs rely on. */
  ghost predicate Faithful(rt: Builtins) {
    IntLaws(rt) && FloatLaws(rt)
  }

  /** A representable float's text reads back as it and holds no '#'. */
  lemma FloatTextReadsBack(rt: Builtins, x: real)
    requires FloatLaws(rt) && Representable(rt, x)
    ensures rt.parseFloat(rt.floatText(x)) == Some(x) && '#' !in rt.floatText(x)
  {
    var s :| rt.parseFloat(s) == Some(x);
    assert rt.parseFloat(s).Some?;
  }

  /** A decimal integer, optionally negative, with surrounding white space ignored. */
  function ParseDecimal(s: string): Option<int> {
    DecimalOf(Strip(s))
  }

  function DecimalOf(t: string): Option<int> {
    if |t| >= 2 && t[0] == '-' && AllDigits(t[1..]) then Some(0 - DigitsValue(t[1..]))
    else if t != [] && AllDigits(t) then Some(DigitsValue(t))
    else None
  }

  predicate AllDigits(t: string) {
    forall k :: 0 <= k < |t| ==> IsDigit(t[k])
  }

  lemma ParseDecimalReadsBack(i: int)
    ensures ParseDecimal(IntToString(i)) == Some(i)
  {
    if i < 0 {
      ParseNegative(i);
    } else {
      ParseNonNegative(i);
    }
  }

  lemma ParseNonNegative(i: int)
    requires i >= 0
    ensures ParseDecimal(IntToString(i)) == Some(i)
  {
    var r := IntToString(i);
    PlainDigitsStripped(r);
    NatToStringValue(i);
    assert AllDigits(r);
    assert DecimalOf(r) == Some(i);
  }

  lemma ParseNegative(i: int)
    requires i < 0
    ensures ParseDecimal(IntToString(i)) == Some(i)
  {
    var r := IntToString(i);
    PlainDigitsStripped(r);
    var d := NatToString(-i);
    assert r == "-" + d;
    NegativeDigits(r, d, -i);
  }

  lemma PlainDigitsStripped(r: string)
    requires r != [] && forall k :: 0 <= k < |r| ==> r[k] == '-' || '0' <= r[k] <= '9'
    ensures Strip(r) == r
  {
    assert !IsSpace(r[0]) && !IsSpace(r[|r| - 1]);
  }

  lemma NegativeDigits(r: string, d: string, n: nat)
    requires d == NatToString(n) && r == "-" + d
    ensures DecimalOf(r) == Some(0 - n)
  {
    assert r[1..] == d;
    NatToStringValue(n);
    assert AllDigits(d);
  }

  /**
   * Builtins whose `int` and `float` read decimal integers and whose float text
   * is that of the floor: they meet `Faithful`, so the laws can all hold at once.
   */
  function DecimalBuiltins(): Builtins {
    Builtins(
      s => ParseDecimal(s),
      s => match ParseDecimal(s) case Some(i) => Some(i as real) case None => None,
      (x: real) => IntToString(x.Floor),
      v => "", v => "", s => None, t => "", s => [], b => Ok(""))
  }

  lemma FaithfulSatisfiable()
    ensures Faithful(DecimalBuiltins())
  {
    DecimalIntLaws();
    DecimalFloatLaws();
  }

  /** The integer half of `FaithfulSatisfiable`. */
  lemma DecimalIntLaws()
    ensures IntLaws(DecimalBuiltins())
  {
    var rt := DecimalBuiltins();
    forall i ensures rt.parseInt(IntToString(i)) == Some(i) {
      ParseDecimalReadsBack(i);
    }
    forall s ensures rt.parseInt(Strip(s)) == rt.parseInt(s) {
      StripIdempotent(s);
    }
  }

  /** The float half of `FaithfulSatisfiable`. */
  lemma DecimalFloatLaws()
    ensures FloatLaws(DecimalBuiltins())
  {
    var rt := DecimalBuiltins();
    forall s | rt.parseFloat(s).Some?
      ensures rt.parseFloat(rt.floatText(rt.parseFloat(s).value)) == rt.parseFloat(s)
      ensures '#' !in rt.floatText(rt.parseFloat(s).value)
    {
      var i := ParseDecimal(s).value;
      assert (i as real).Floor == i;
      ParseDecimalReadsBack(i);
    }
    forall i | -ExactIntBound <= i <= ExactIntBound ensures rt.parseFloat(IntToString(i)) == Some(i as real) {
      ParseDecimalReadsBack(i);
    }
    forall s ensures rt.parseFloat(Strip(s)) == rt.parseFloat(s) {
      StripIdempotent(s);
    }
  }

  /** `bool(v)` */
  predicate Truthy(v: Value) {
    match v
    case Null => false
    case Bool(b) => b
    case Int(i) => i != 0
    case Float(x) => x != 0.0
    case Str(s) => s != ""
    case List(items) => items != []
    case Dict(entries) => entries != map[]
  }

  /** `str(v)` */
  function PyStr(v: Value, rt: Builtins): string {
    match v
    case Null => "None"
    case Bool(b) => if b then "True" else "False"
    case Int(i) => IntToString(i)
    case Float(x) => rt.floatText(x)
    case Str(s) => s
    case List(_) => rt.containerText(v)
    case Dict(_) => rt.containerText(v)
  }

  /** `int(x)` for a float: truncation toward zero. */
  function Truncate(x: real): (r: int)
    ensures 0.0 <= x ==> r as real <= x < r as real + 1.0
    ensures x < 0.0 ==> r as real - 1.0 < x <= r as real
  {
    if x >= 0.0 then x.Floor else -((-x).Floor)
  }

  /** `int(v)` for a value that is not a string; None where Python raises TypeError. */
  function PyIntOf(v: Value): Option<int> {
    match v
    case Bool(b) => Some(if b then 1 else 0)
    case Int(i) => Some(i)
    case Float(x) => Some(Truncate(x))
    case _ => None
  }

  /** `float(v)` for a value that is not a string; None where Python raises TypeError. */
  function PyFloatOf(v: Value): Option<real> {
    match v
    case Bool(b) => Some(if b then 1.0 else 0.0)
    case Int(i) => Some(i as real)
    case Float(x) => Some(x)
    case _ => None
  }

  /** `d[key]` read as an optional entry. */
  function Lookup<V>(d: map<string, V>, key: string): Option<V> {
    if key in d then Some(d[key]) else None
  }

  /** A Python dict as its items in insertion order; a later item for a key wins, as in `dict(pairs)`. */
  type Items = seq<(string, Value)>

  /** `d.get(key)` */
  function Get(d: Items, key: string): Option<Value>
    decreases |d|
  {
    if d == [] then None
    else if d[|d| - 1].0 == key then Some(d[|d| - 1].1)
    else Get(d[..|d| - 1], key)
  }

  /** The entry `Get` finds is the last item for the key, and there is one exactly when the key occurs. */
  lemma {:induction false} GetLast(d: Items, key: string)
    ensures Get(d, key).Some? <==> exists i :: 0 <= i < |d| && d[i].0 == key
    ensures Get(d, key).Some? ==> exists i :: 0 <= i < |d| && d[i] == (key, Get(d, key).value)
                                              && forall j :: i < j < |d| ==> d[j].0 != key
    decreases |d|
  {
    if d != [] {
      var init := d[..|d| - 1];
      assert forall i :: 0 <= i < |init| ==> init[i] == d[i];
      GetLast(init, key);
    }
  }

  lemma {:induction false} GetAppend(a: Items, b: Items, key: string)
    ensures Get(a + b, key) == if Get(b, key).Some? then Get(b, key) else Get(a, key)
    decreases |b|
  {
    if b == [] {
      assert a + b == a;
    } else {
      assert (a + b)[..|a + b| - 1] == a + b[..|b| - 1];
      GetAppend(a, b[..|b| - 1], key);
    }
  }

  lemma GetAppendAll(a: Items, b: Items)
    ensures forall key :: Get(a + b, key) == if Get(b, key).Some? then Get(b, key) else Get(a, key)
  {
    forall key
      ensures Get(a + b, key) == if Get(b, key).Some? then Get(b, key) else Get(a, key)
    {
      GetAppend(a, b, key);
    }
  }

  /** `d[key] = v`: an existing key keeps its place, a new one goes to the end. */
  function Set(d: Items, key: string, v: Value): (r: Items)
    ensures Get(r, key) == Some(v)
    ensures forall k :: k != key ==> Get(r, k) == Get(d, k)
  {
    if Get(d, key).Some? then Replace(d, key, v) else (GetAppend(d, [(key, v)], key); d + [(key, v)])
  }

  /** Every item for `key` gets the value `v`. */
  function Replace(d: Items, key: string, v: Value): (r: Items)
    ensures |r| == |d| && forall i :: 0 <= i < |d| ==> r[i].0 == d[i].0
    ensures Get(d, key).Some? ==> Get(r, key) == Some(v)
    ensures forall k :: k != key ==> Get(r, k) == Get(d, k)
    decreases |d|
  {
    if d == [] then []
    else
      var init := Replace(d[..|d| - 1], key, v);
      var last := if d[|d| - 1].0 == key then (key, v) else d[|d| - 1];
      var r := init + [last];
      assert r[..|r| - 1] == init;
      r
  }

  /** `dict(d)` as a map. */
  function AsMap(d: Items): (m: map<string, Value>)
    ensures forall k :: (k in m <==> Get(d, k).Some?) && (k in m ==> Some(m[k]) == Get(d, k))
    decreases |d|
  {
    if d == [] then map[] else AsMap(d[..|d| - 1])[d[|d| - 1].0 := d[|d| - 1].1]
  }
}
