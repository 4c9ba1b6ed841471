/**
 * The JSON-shaped Python values the scripts pass around (parsed LLM replies, REST payloads,
 * datapoints), with Python's truthiness, insertion-ordered dictionaries and `str()`.
 */
module PyValue {
  import opened Wrappers
  import Text
  import Dicts

  datatype Value =
    | NoneV
    | Bool(b: bool)
    | Int(i: int)
    | Float(r: real)
    | Str(s: string)
    | List(items: seq<Value>)
    | Dict(entries: Entries)
    | DateTime(iso: string)   // a `datetime`; `iso` is what `.isoformat()` returns

  /** A dictionary's (key, value) pairs in insertion order. */
  type Entries = Dicts.Dict<Value>

  /** Python's `bool(v)`. */
  predicate Truthy(v: Value) {
    match v
    case NoneV => false
    case Bool(b) => b
    case Int(i) => i != 0
    case Float(r) => r != 0.0
    case Str(s) => s != ""
    case List(xs) => xs != []
    case Dict(es) => es != []
    case DateTime(_) => true
  }

  /** Python's `a or b`: the first operand when it is truthy, otherwise the second. */
  function Or(a: Value, b: Value): (r: Value)
    ensures Truthy(r) <==> Truthy(a) || Truthy(b)
  {
    if Truthy(a) then a else b
  }

  /**
   * Python's `v[key]` on a parsed JSON value: a dict lookup (KeyError when absent);
   * any other value raises TypeError.
   */
  function GetItem(v: Value, key: string): (r: Result<Value>)
    ensures v.Dict? ==> r == Dicts.Index(v.entries, key)
    ensures !v.Dict? ==> r.Err? && r.error.TypeError?
  {
    match v
    case Dict(es) => Dicts.Index(es, key)
    case List(_) => Err(TypeError("list indices must be integers or slices, not str"))
    case Str(_) => Err(TypeError("string indices must be integers, not 'str'"))
    case _ => Err(TypeError("object is not subscriptable"))
  }

  /** Values Python can hash; lists and dicts cannot be dictionary keys or be looked up as one. */
  predicate Hashable(v: Value) {
    !(v.List? || v.Dict?)
  }

  /** `x in d` for a dictionary `d` with string keys `keys`. */
  function InKeys(x: Value, keys: seq<string>): (r: Result<bool>)
    ensures r.Err? <==> !Hashable(x)
    ensures r.Ok? ==> (r.value <==> x.Str? && x.s in keys)
  {
    if !Hashable(x) then Err(TypeError("unhashable type")) else Ok(x.Str? && x.s in keys)
  }

  /** Python's `x in container`: keys of a dict, elements of a list, substrings of a str. */
  function In(x: Value, container: Value): (r: Result<bool>)
    ensures r.Err? <==> !((container.Dict? && Hashable(x)) || container.List? || (container.Str? && x.Str?))
    ensures container.Dict? && r.Ok? ==> (r.value <==> x.Str? && Dicts.HasKey(container.entries, x.s))
  {
    match container
    case Dict(es) => InKeys(x, Dicts.Keys(es))
    case List(xs) => Ok(x in xs)
    case Str(s) => if x.Str? then Ok(Text.Contains(s, x.s)) else Err(TypeError("'in <string>' requires string as left operand"))
    case _ => Err(TypeError("argument of type is not iterable"))
  }

  /** Python's `str(v)` (strings as themselves; inside containers, strings in single quotes). */
  function PyStr(v: Value): string
    decreases v, 1
  {
    match v
    case Str(s) => s
    case _ => Repr(v)
  }

  /**
   * Python's `repr(v)`, simplified: a string is always single-quoted and unescaped, a float is
   * always written positionally, and a datetime is `datetime(<iso>)`.
   */
  function Repr(v: Value): string
    decreases v, 0
  {
    match v
    case NoneV => "None"
    case Bool(b) => if b then "True" else "False"
    case Int(i) => Text.IntToString(i)
    case Float(r) => FloatRepr(r)
    case Str(s) => "'" + s + "'"
    case List(xs) => "[" + ReprItems(xs) + "]"
    case Dict(es) => "{" + ReprEntries(es) + "}"
    case DateTime(iso) => "datetime(" + iso + ")"
  }

  /**
   * Python's float repr for values with a short decimal expansion (`3.0`, `0.95`, `-12.5`);
   * an expansion longer than 17 fractional digits is cut there.
   */
  function FloatRepr(r: real): string {
    if r < 0.0 then "-" + UnsignedFloatRepr(-r) else UnsignedFloatRepr(r)
  }

  function UnsignedFloatRepr(r: real): string
    requires r >= 0.0
  {
    var n := r.Floor;
    var frac := r - n as real;
    Text.IntToString(n) + "." + (if frac == 0.0 then "0" else FractionDigits(frac, 17))
  }

  function FractionDigits(f: real, fuel: nat): string
    requires 0.0 <= f < 1.0
    decreases fuel
  {
    if f == 0.0 || fuel == 0 then ""
    else
      var scaled := f * 10.0;
      var d := scaled.Floor;
      assert 0 <= d < 10;
      [Text.DigitChar(d)] + FractionDigits(scaled - d as real, fuel - 1)
  }

  function ReprItems(xs: seq<Value>): string
    decreases xs
  {
    if xs == [] then ""
    else if |xs| == 1 then Repr(xs[0])
    else Repr(xs[0]) + ", " + ReprItems(xs[1..])
  }

  function ReprEntries(es: Entries): string
    decreases es
  {
    if es == [] then ""
    else
      assert es[0].1 < Dict(es);
      var head := "'" + es[0].0 + "': " + Repr(es[0].1);
      if |es| == 1 then head else head + ", " + ReprEntries(es[1..])
  }

  /** A string value is its own `str()`. */
  lemma PyStrOfStr(s: string)
    ensures PyStr(Str(s)) == s
  {
  }
}
