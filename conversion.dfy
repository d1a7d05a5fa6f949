/** The `default=` hook both back-ends hand to the JSON encoder (`safe_convert`): a dispatch on
    the kind of a value that turns arrays into lists, timestamps into ISO text, numpy integers
    and floats into floats and anything else into its `str` text. */
module Conversion {
  import opened TextOps

  /** The range of numpy's `int64`. */
  type Int64 = i: int | -0x8000_0000_0000_0000 <= i < 0x8000_0000_0000_0000

  /** The kinds of value the hook can receive. */
  datatype Value =
    | NdArray(elements: seq<Value>)
    | Series(elements: seq<Value>)
    | Timestamp(iso: string)
    | NpInt64(i: Int64)
    | NpFloat64(x: real)
    | PyInt(n: int)
    | PyStr(s: string)
    | Other(text: string)   // any other object, carried with the text `str` gives it

  /** An element of the list `tolist()` builds: a Python list (one more dimension of an
      array), a Python `int` or `float`, or an object kept as it was. */
  datatype Native = NativeList(items: seq<Native>) | NativeInt(n: int) | NativeFloat(x: real) | Kept(v: Value)

  /** What the hook hands back to the encoder: a list, a text or a float. */
  datatype Safe = SafeList(items: seq<Native>) | SafeText(text: string) | SafeFloat(x: real)

  /** No numpy scalar is left at any depth of the lists. */
  predicate NoNumpyScalar(e: Native)
    decreases e
  {
    match e
    case NativeList(items) => forall i :: 0 <= i < |items| ==> NoNumpyScalar(items[i])
    case Kept(v) => !v.NpInt64? && !v.NpFloat64?
    case _ => true
  }

  /** What `tolist()` makes of a scalar element: numpy integers and floats become the Python
      number of the same value; anything else is kept. */
  function ScalarItem(v: Value): (r: Native)
    ensures NoNumpyScalar(r)
    ensures v.NpInt64? ==> r == NativeInt(v.i)
    ensures v.NpFloat64? ==> r == NativeFloat(v.x)
    ensures v.PyInt? ==> r == NativeInt(v.n)
    ensures r.Kept? ==> r.v == v
    ensures !v.NpInt64? && !v.NpFloat64? && !v.PyInt? ==> r == Kept(v)
  {
    match v
    case NpInt64(i) => NativeInt(i)
    case NpFloat64(x) => NativeFloat(x)
    case PyInt(n) => NativeInt(n)
    case _ => Kept(v)
  }

  /** What an array's `tolist()` makes of an element: a nested array (the next dimension)
      becomes a nested list of the same length, a scalar as `ScalarItem` says. */
  function ArrayItem(v: Value): (r: Native)
    decreases v
    ensures NoNumpyScalar(r)
    ensures r.NativeList? <==> v.NdArray?
    ensures v.NdArray? ==> |r.items| == |v.elements|
    ensures v.NdArray? ==> forall i :: 0 <= i < |v.elements| ==> r.items[i] == ArrayItem(v.elements[i])
    ensures !v.NdArray? ==> r == ScalarItem(v)
  {
    match v
    case NdArray(es) => NativeList(seq(|es|, i requires 0 <= i < |es| => ArrayItem(es[i])))
    case _ => ScalarItem(v)
  }

  predicate IsDigit(c: char) {
    '0' <= c <= '9'
  }

  function DigitChar(d: nat): (c: char)
    requires d < 10
    ensures IsDigit(c) && (c as int) - ('0' as int) == d
  {
    ['0', '1', '2', '3', '4', '5', '6', '7', '8', '9'][d]
  }

  /** Decimal digits of a natural number, most significant first, without leading zeros. */
  function Digits(n: nat): (s: string)
    ensures |s| > 0 && forall i :: 0 <= i < |s| ==> IsDigit(s[i])
    ensures s[0] == '0' ==> n == 0 && |s| == 1
    decreases n
  {
    if n < 10 then [DigitChar(n)] else Digits(n / 10) + [DigitChar(n % 10)]
  }

  /** Python's canonical decimal text: an optional minus sign, then a non-empty run of digits
      with no leading zero, and no "-0". */
  predicate Canonical(t: string) {
    var d := if |t| > 0 && t[0] == '-' then t[1..] else t;
    && |d| > 0 && (forall i :: 0 <= i < |d| ==> IsDigit(d[i]))
    && (d[0] == '0' ==> |d| == 1 && t == d)
  }

  /** `str` of a Python `int`: a minus sign for negative numbers, then the digits. */
  function DecimalText(n: int): string {
    if n < 0 then "-" + Digits(-n) else Digits(n)
  }

  /** Reads back a non-empty run of decimal digits. */
  function ParseDigits(s: string): nat
    requires |s| > 0 && forall i :: 0 <= i < |s| ==> IsDigit(s[i])
  {
    assert IsDigit(s[|s| - 1]);
    var d: nat := (s[|s| - 1] as int) - ('0' as int);
    if |s| == 1 then d else ParseDigits(s[..|s| - 1]) * 10 + d
  }

  /** Reads back an optionally signed decimal text; `None` for anything else. */
  function ParseDecimal(s: string): Option<int> {
    if |s| > 1 && s[0] == '-' && forall i :: 1 <= i < |s| ==> IsDigit(s[i]) then
      var magnitude: int := ParseDigits(s[1..]);
      Some(-magnitude)
    else if |s| > 0 && forall i :: 0 <= i < |s| ==> IsDigit(s[i]) then
      Some(ParseDigits(s))
    else
      None
  }

  lemma {:induction false} DigitsRoundTrip(n: nat)
    ensures ParseDigits(Digits(n)) == n
    decreases n
  {
    if n >= 10 {
      var s := Digits(n);
      assert s[..|s| - 1] == Digits(n / 10);
      DigitsRoundTrip(n / 10);
    }
  }

  lemma ParseNegative(t: string)
    requires |t| > 0 && forall i :: 0 <= i < |t| ==> IsDigit(t[i])
    ensures ParseDecimal("-" + t) == Some(0 - ParseDigits(t))
  {
    var s := "-" + t;
    assert s[1..] == t;
    forall i | 1 <= i < |s| ensures IsDigit(s[i]) {
      assert s[i] == t[i - 1];
    }
  }

  lemma ParseUnsigned(t: string)
    requires |t| > 0 && forall i :: 0 <= i < |t| ==> IsDigit(t[i])
    ensures ParseDecimal(t) == Some(ParseDigits(t))
  {
    assert IsDigit(t[0]);
  }

  lemma NegatedReading(t: string, m: nat)
    requires |t| > 0 && (forall i :: 0 <= i < |t| ==> IsDigit(t[i])) && ParseDigits(t) == m
    ensures ParseDecimal("-" + t) == Some(-(m as int))
  {
    ParseNegative(t);
  }

  lemma NegativeRoundTrip(n: int)
    requires n < 0
    ensures ParseDecimal(DecimalText(n)) == Some(n)
  {
    var m: nat := -n;
    var t := Digits(m);
    DigitsRoundTrip(m);
    NegatedReading(t, m);
    assert DecimalText(n) == "-" + t;
  }

  lemma UnsignedRoundTrip(n: nat)
    ensures ParseDecimal(DecimalText(n)) == Some(n)
  {
    var t := Digits(n);
    assert DecimalText(n) == t;
    DigitsRoundTrip(n);
    ParseUnsigned(t);
  }

  /** `str` of an integer reads back as the same integer. */
  lemma DecimalRoundTrip(n: int)
    ensures ParseDecimal(DecimalText(n)) == Some(n)
  {
    if n < 0 {
      NegativeRoundTrip(n);
    } else {
      UnsignedRoundTrip(n);
    }
  }

  /** The hook itself: arrays and series become Python lists of their elements in the same
      order (numpy numbers as Python numbers of the same value, nested arrays as nested lists),
      timestamps their ISO text, numpy integers and floats a float of the same value, and every
      other value its `str` text (for a Python `int`, decimal text that reads back as it). */
  function SafeConvert(v: Value): (r: Safe)
    ensures r.SafeList? <==> v.NdArray? || v.Series?
    ensures r.SafeList? ==> |r.items| == |v.elements|
    ensures r.SafeList? ==> forall i :: 0 <= i < |r.items| ==> NoNumpyScalar(r.items[i])
    ensures v.NdArray? ==> forall i :: 0 <= i < |r.items| ==> r.items[i] == ArrayItem(v.elements[i])
    ensures v.Series? ==> forall i :: 0 <= i < |r.items| ==> r.items[i] == ScalarItem(v.elements[i])
    ensures r.SafeFloat? <==> v.NpInt64? || v.NpFloat64?
    ensures v.NpInt64? ==> r.x == v.i as real
    ensures v.NpFloat64? ==> r.x == v.x
    ensures v.Timestamp? ==> r.text == v.iso
    ensures v.PyInt? ==> r.SafeText? && ParseDecimal(r.text) == Some(v.n) && Canonical(r.text)
    ensures v.PyStr? ==> r.text == v.s
    ensures v.Other? ==> r.text == v.text
  {
    match v
    case NdArray(elements) => SafeList(ArrayItem(v).items)
    case Series(elements) => SafeList(seq(|elements|, i requires 0 <= i < |elements| => ScalarItem(elements[i])))
    case Timestamp(iso) => SafeText(iso)
    case NpInt64(i) => SafeFloat(i as real)
    case NpFloat64(x) => SafeFloat(x)
    case PyInt(n) => DecimalRoundTrip(n); SafeText(DecimalText(n))
    case PyStr(s) => SafeText(s)
    case Other(text) => SafeText(text)
  }
}
