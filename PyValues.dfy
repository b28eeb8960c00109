/**
 * The slice of Python's value semantics that data_handler.py relies on:
 * the JSON-like values found in trade and reward records, Python truthiness,
 * `dict.get`, the built-in `int()` conversion and `str()` of an int as an
 * f-string renders it, and the insertion-ordered dictionary of records.
 */
module PyValues {
  import opened Wrappers

  /** A field value of a decoded record. Floats are modelled as exact reals. */
  datatype Value = Null | Bool(b: bool) | Int(i: int) | Float(f: real) | Str(s: string)

  /** A record (one trade, one reward, one metadata document): a Python dict. */
  type Record = map<string, Value>

  /** One `(key, value)` entry of a dictionary of records, keyed by record id. */
  datatype Item = Item(id: string, data: Record)

  /** Python's `bool(v)`. */
  predicate Truthy(v: Value) {
    match v
    case Null => false
    case Bool(b) => b
    case Int(i) => i != 0
    case Float(f) => f != 0.0
    case Str(s) => s != ""
  }

  /** `rec.get(key, default)`. */
  function GetOr(rec: Record, key: string, default: Value): Value {
    if key in rec then rec[key] else default
  }

  /** `rec.get(key)`: a missing key reads as None. */
  function Get(rec: Record, key: string): Value {
    GetOr(rec, key, Null)
  }

  // ---------------------------------------------------------------------
  // int(): truncation of a float and parsing of a decimal string

  /** `int(f)` for a float: truncation toward zero. */
  function TruncateToInt(f: real): (n: int)
    ensures f >= 0.0 ==> 0 <= n && n as real <= f < n as real + 1.0
    ensures f < 0.0 ==> n <= 0 && n as real - 1.0 < f <= n as real
  {
    if f >= 0.0 then f.Floor else -((-f).Floor)
  }

  predicate IsDigit(c: char) {
    '0' <= c <= '9'
  }

  /** A non-empty run of ASCII decimal digits. */
  predicate IsDigits(s: string) {
    |s| > 0 && forall i :: 0 <= i < |s| ==> IsDigit(s[i])
  }

  function DigitValue(c: char): nat
    requires IsDigit(c)
  {
    (c as int) - ('0' as int)
  }

  /** The number a string of digits denotes in base ten (0 for the empty string). */
  function DigitsValue(s: string): nat
    requires forall i :: 0 <= i < |s| ==> IsDigit(s[i])
  {
    if s == [] then 0 else DigitsValue(s[..|s| - 1]) * 10 + DigitValue(s[|s| - 1])
  }

  /**
   * `int(s)` for a string: an optional sign followed by decimal digits;
   * anything else raises ValueError, modelled as None.
   */
  function ParseInt(s: string): (r: Option<int>)
    ensures r.Some? <==> IsDigits(s) || (|s| > 1 && (s[0] == '-' || s[0] == '+') && IsDigits(s[1..]))
    ensures IsDigits(s) ==> r == Some(DigitsValue(s))
    ensures |s| > 1 && s[0] == '-' && IsDigits(s[1..]) ==> r == Some(-(DigitsValue(s[1..]) as int))
    ensures |s| > 1 && s[0] == '+' && IsDigits(s[1..]) ==> r == Some(DigitsValue(s[1..]))
  {
    if |s| > 0 && (s[0] == '-' || s[0] == '+') then
      if IsDigits(s[1..]) then
        Some(if s[0] == '-' then -(DigitsValue(s[1..]) as int) else DigitsValue(s[1..]))
      else None
    else if IsDigits(s) then Some(DigitsValue(s))
    else None
  }

  /**
   * Python's `int(v)`: None raises TypeError, an unparsable string raises
   * ValueError; both are modelled as None.
   */
  function ToInt(v: Value): (r: Option<int>)
    ensures r.None? <==> v.Null? || (v.Str? && ParseInt(v.s).None?)
    ensures v.Bool? ==> r == Some(if v.b then 1 else 0)
    ensures v.Int? ==> r == Some(v.i)
    ensures v.Float? ==> r == Some(TruncateToInt(v.f))
    ensures v.Str? ==> r == ParseInt(v.s)
  {
    match v
    case Null => None
    case Bool(b) => Some(if b then 1 else 0)
    case Int(i) => Some(i)
    case Float(f) => Some(TruncateToInt(f))
    case Str(s) => ParseInt(s)
  }

  // ---------------------------------------------------------------------
  // str() of an int, as an f-string renders it

  function DigitChar(d: nat): (c: char)
    requires d < 10
    ensures IsDigit(c) && DigitValue(c) == d
  {
    ('0' as int + d) as char
  }

  /** Decimal digits of a natural number, most significant first, no leading zeros. */
  function NatDigits(n: nat): (s: string)
    ensures IsDigits(s)
    ensures |s| > 1 ==> s[0] != '0'
    ensures n > 0 ==> s[0] != '0'
  {
    if n < 10 then [DigitChar(n)] else NatDigits(n / 10) + [DigitChar(n % 10)]
  }

  /** `f"{n}"` for an int: a minus sign for negative numbers, then its digits. */
  function FormatInt(n: int): (r: string)
    ensures n >= 0 ==> IsDigits(r)
    ensures n < 0 ==> |r| > 1 && r[0] == '-' && IsDigits(r[1..])
    ensures n >= 0 && |r| > 1 ==> r[0] != '0'
    ensures n < 0 ==> r[1] != '0'
  {
    if n < 0 then "-" + NatDigits(-n) else NatDigits(n)
  }

  lemma {:induction false} NatDigitsValue(n: nat)
    ensures DigitsValue(NatDigits(n)) == n
  {
    if n >= 10 {
      var s := NatDigits(n);
      assert s[..|s| - 1] == NatDigits(n / 10);
      NatDigitsValue(n / 10);
    }
  }

  /** `int(f"{n}") == n`: the decimal rendering of an int parses back to it. */
  lemma FormatIntRoundTrip(n: int)
    ensures ParseInt(FormatInt(n)) == Some(n)
  {
    if n < 0 {
      assert FormatInt(n)[1..] == NatDigits(-n);
      NatDigitsValue(-n);
    } else {
      NatDigitsValue(n);
    }
  }

  // ---------------------------------------------------------------------
  // An insertion-ordered dictionary of records, updated in place

  /** No record id occurs twice, as in a Python dict. */
  predicate DistinctIds(items: seq<Item>) {
    forall i, j :: 0 <= i < j < |items| ==> items[i].id != items[j].id
  }

  /**
   * A Python dict `record id -> record`; `items` lists its entries in insertion
   * order. `Valid` is the unique-key guarantee every dict has.
   */
  class RecordDict {
    var items: seq<Item>

    ghost predicate Valid()
      reads this
    {
      DistinctIds(items)
    }

    constructor (items: seq<Item>)
      requires DistinctIds(items)
      ensures Valid() && this.items == items
    {
      this.items := items;
    }
  }
}
