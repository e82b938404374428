/** The in-memory result structure that both serialisers consume, and the JSON
    request bodies the handlers inspect: a tree of dicts, lists and scalars.
    Dict order is the Python insertion order, kept as the order of `fields`. */
module Payload {

  datatype Option<T> = None | Some(value: T)

  /** A scalar leaf, by Python type. A `Float` carries Python's `repr` text of
      the number; database values of other types (Decimal, datetime) are carried
      as `Str` of their `str()` text. */
  datatype Scalar =
    | Str(s: string)
    | Int(i: int)
    | Bool(b: bool)
    | Null
    | Float(repr: string)

  datatype Value =
    | Leaf(scalar: Scalar)
    | Dict(fields: seq<Field>)
    | List(items: seq<Value>)

  datatype Field = Field(key: string, value: Value)

  function Digit(d: nat): char
    requires d < 10
  {
    "0123456789"[d]
  }

  /** Decimal digits of `n`, most significant first, as `str(n)` writes them. */
  function NatText(n: nat): (r: string)
    ensures |r| > 0
    ensures forall i :: 0 <= i < |r| ==> '0' <= r[i] <= '9'
    ensures r[0] == '0' ==> n == 0
  {
    if n < 10 then [Digit(n)] else NatText(n / 10) + [Digit(n % 10)]
  }

  /** Value of a string of decimal digits: the reading a client makes of `str(n)`. */
  function DigitsValue(s: string): int
  {
    if |s| == 0 then 0
    else DigitsValue(s[..|s| - 1]) * 10 + (s[|s| - 1] as int - '0' as int)
  }

  lemma {:induction false} NatTextRoundTrip(n: nat)
    ensures DigitsValue(NatText(n)) == n
  {
    var r := NatText(n);
    if n >= 10 {
      assert r[..|r| - 1] == NatText(n / 10);
      NatTextRoundTrip(n / 10);
    }
  }

  /** `str(value)` for a scalar: the text the XML renderer writes verbatim. */
  function ScalarText(sc: Scalar): (r: string)
    ensures sc.Str? ==> r == sc.s
    ensures sc.Int? ==> |r| > 0 && (r[0] == '-' <==> sc.i < 0)
    ensures !sc.Str? && !sc.Float? ==> |r| > 0 && r[0] != '<'
  {
    match sc
    case Str(s) => s
    case Int(i) => if i < 0 then "-" + NatText(-i) else NatText(i)
    case Bool(b) => if b then "True" else "False"
    case Null => "None"
    case Float(repr) => repr
  }

  /** A minus sign before the digits of `n` reads back as `-n`. */
  lemma SignedTextRoundTrip(t: string, n: nat)
    requires t == "-" + NatText(n)
    ensures t[0] == '-' && -DigitsValue(t[1..]) == -(n as int)
  {
    assert t[1..] == NatText(n);
    NatTextRoundTrip(n);
  }

  /** The text of an integer leaf reads back as that integer, sign included. */
  lemma IntTextRoundTrip(i: int)
    ensures var t := ScalarText(Int(i));
            if i < 0 then t[0] == '-' && -DigitsValue(t[1..]) == i
            else DigitsValue(t) == i && '0' <= t[0] <= '9'
  {
    if i < 0 {
      SignedTextRoundTrip(ScalarText(Int(i)), -i);
    } else {
      NatTextRoundTrip(i);
      assert ScalarText(Int(i)) == NatText(i);
    }
  }

  /** Python truthiness (`if x:` / `not x`). Python prints a zero float as
      `0.0` or `-0.0`, so those are the falsy float texts. */
  function Truthy(v: Value): (r: bool)
    ensures !r <==> v in FalsyValues
  {
    match v
    case Leaf(Str(s)) => s != ""
    case Leaf(Int(i)) => i != 0
    case Leaf(Bool(b)) => b
    case Leaf(Null) => false
    case Leaf(Float(repr)) => repr != "0.0" && repr != "-0.0"
    case Dict(fs) => |fs| > 0
    case List(xs) => |xs| > 0
  }

  /** The falsy values as Python's documentation lists them: `None`, `False`,
      the zeros, and the empty string, dict and list. */
  const FalsyValues: set<Value> := {
    Leaf(Null), Leaf(Bool(false)), Leaf(Int(0)), Leaf(Float("0.0")), Leaf(Float("-0.0")),
    Leaf(Str("")), Dict([]), List([])
  }

  /** The least magnitude at which `float(i)` of an int raises
      `OverflowError`: 2^1024 - 2^970, written in hex as the fourteen digits
      `FFFFFFFFFFFFFC` followed by 242 zeros. It lies halfway between the
      largest double, (2^53 - 1) * 2^971, and 2^1024; the tie rounds to the
      even 2^1024, which is out of range. */
  const FloatOverflow: int := 0xFFFF_FFFF_FFFF_FC00_0000_0000_0000_0000_0000_0000_0000_0000_0000_0000_0000_0000_0000_0000_0000_0000_0000_0000_0000_0000_0000_0000_0000_0000_0000_0000_0000_0000_0000_0000_0000_0000_0000_0000_0000_0000_0000_0000_0000_0000_0000_0000_0000_0000_0000_0000_0000_0000_0000_0000_0000_0000_0000_0000_0000_0000_0000_0000_0000_0000

  /** What `float(value)` does with a JSON value: returns, raises `TypeError`
      or `ValueError` (refused), or raises `OverflowError`. */
  datatype Conversion = Converts | Refused | Overflows

  /** `float(value)`. Booleans and floats always convert; `None`, dicts and
      lists are refused; a string converts exactly when Python's float parser
      accepts it, which is the `parsesFloat` parameter (an out-of-range string
      gives `inf` and does not raise); an int converts unless its magnitude
      reaches `FloatOverflow`. */
  function FloatConversion(v: Value, parsesFloat: string -> bool): (r: Conversion)
    ensures r == Overflows <==> v.Leaf? && v.scalar.Int? && !(-FloatOverflow < v.scalar.i < FloatOverflow)
    ensures r == Refused <==>
      v.Dict? || v.List? || v == Leaf(Null) || (v.Leaf? && v.scalar.Str? && !parsesFloat(v.scalar.s))
  {
    match v
    case Leaf(Str(s)) => if parsesFloat(s) then Converts else Refused
    case Leaf(Int(i)) => if -FloatOverflow < i < FloatOverflow then Converts else Overflows
    case Leaf(Bool(_)) => Converts
    case Leaf(Float(_)) => Converts
    case Leaf(Null) => Refused
    case Dict(_) => Refused
    case List(_) => Refused
  }

  /** Every int a double holds exactly, `|i| <= 2^53`, converts. */
  lemma ExactIntsConvert(i: int, parsesFloat: string -> bool)
    requires -0x20_0000_0000_0000 <= i <= 0x20_0000_0000_0000
    ensures FloatConversion(Leaf(Int(i)), parsesFloat) == Converts
  {
  }

  /** `validate_numeric(value)` returns True: `float(value)` converts. */
  predicate IsNumeric(v: Value, parsesFloat: string -> bool) {
    FloatConversion(v, parsesFloat) == Converts
  }

  /** `data.keys()` in order. */
  function Keys(fs: seq<Field>): (r: seq<string>)
    ensures |r| == |fs|
    ensures forall i :: 0 <= i < |fs| ==> r[i] == fs[i].key
  {
    seq(|fs|, i requires 0 <= i < |fs| => fs[i].key)
  }

  /** `data.values()` in order. */
  function Values(fs: seq<Field>): (r: seq<Value>)
    ensures |r| == |fs|
    ensures forall i :: 0 <= i < |fs| ==> r[i] == fs[i].value
  {
    seq(|fs|, i requires 0 <= i < |fs| => fs[i].value)
  }

  /** A Python dict never holds a key twice. */
  predicate UniqueKeys(fs: seq<Field>) {
    forall i, j :: 0 <= i < j < |fs| ==> fs[i].key != fs[j].key
  }

  /** A JSON object or a database row: a dict, whose keys are distinct. */
  type Object = fs: seq<Field> | UniqueKeys(fs)

  /** `data.get(key)`: the value stored under `key`, if any. */
  function Get(fs: seq<Field>, key: string): (r: Option<Value>)
    ensures r.Some? <==> key in Keys(fs)
    ensures r.Some? ==> exists i :: 0 <= i < |fs| && fs[i] == Field(key, r.value)
  {
    if |fs| == 0 then None
    else if fs[0].key == key then Some(fs[0].value)
    else
      assert Keys(fs) == [fs[0].key] + Keys(fs[1..]);
      var r := Get(fs[1..], key);
      assert r.Some? ==> exists i :: 0 <= i < |fs| - 1 && fs[1..][i] == Field(key, r.value);
      r
  }

  /** In a dict with distinct keys, `Get` finds exactly the stored entry. */
  lemma GetStored(fs: seq<Field>, i: nat)
    requires UniqueKeys(fs)
    requires i < |fs|
    ensures Get(fs, fs[i].key) == Some(fs[i].value)
  {
    var r := Get(fs, fs[i].key);
    assert fs[i].key in Keys(fs);
    var j :| 0 <= j < |fs| && fs[j] == Field(fs[i].key, r.value);
    assert j == i;
  }

  /** `data.get(key)` with Python's default `None`. */
  function GetOrNull(fs: seq<Field>, key: string): Value {
    match Get(fs, key)
    case Some(v) => v
    case None => Leaf(Null)
  }

  /** The payload `{'error': message}`. */
  function ErrorMessage(message: string): Value {
    Dict([Field("error", Leaf(Str(message)))])
  }
}
