/**
 * The Python built-ins the log reports rely on: `str.strip`, `str.split`,
 * `str()`, `float()` and dictionary-key identity. What the model does not
 * define (the JSON decoder, parsing a float from text, and the text form of
 * floats and containers) is supplied by a `Host`.
 */
module Python {
  import opened Wrappers
  import opened JsonData

  /** The parts of the Python runtime this model leaves abstract. */
  datatype Host = Host(
    /** `json.loads(line)`; `None` when it raises. */
    loads: string -> Option<Json>,
    /** `float(text)` for a string; `None` when it raises `ValueError`. */
    parseFloat: string -> Option<real>,
    /** `str(v)` for a float, a list or a dict. */
    showOther: Json -> string)

  // ---------------------------------------------------------------------
  // str.strip()

  /** `c.isspace()`: the characters `str.strip()` removes. */
  predicate IsSpace(c: char)
  {
    c in Whitespace
  }

  /** Python's whitespace: U+0009 to U+000D, U+001C to U+0020, U+0085, U+00A0,
      U+1680, U+2000 to U+200A, U+2028, U+2029, U+202F, U+205F and U+3000. */
  const Whitespace: set<char> := {
    '\U{0009}', '\U{000A}', '\U{000B}', '\U{000C}', '\U{000D}',
    '\U{001C}', '\U{001D}', '\U{001E}', '\U{001F}', '\U{0020}',
    '\U{0085}', '\U{00A0}', '\U{1680}',
    '\U{2000}', '\U{2001}', '\U{2002}', '\U{2003}', '\U{2004}', '\U{2005}',
    '\U{2006}', '\U{2007}', '\U{2008}', '\U{2009}', '\U{200A}',
    '\U{2028}', '\U{2029}', '\U{202F}', '\U{205F}', '\U{3000}'
  }

  /** The line is empty or holds only whitespace. */
  predicate IsBlank(line: string)
  {
    forall i :: 0 <= i < |line| ==> IsSpace(line[i])
  }

  /** `s.lstrip()`: `s` without its leading whitespace. */
  function LStrip(s: string): (r: string)
    ensures |r| <= |s| && r == s[|s| - |r|..]
    ensures r == [] || !IsSpace(r[0])
    ensures forall i :: 0 <= i < |s| - |r| ==> IsSpace(s[i])
  {
    if s == [] || !IsSpace(s[0]) then s else LStrip(s[1..])
  }

  /** `s.rstrip()`: `s` without its trailing whitespace. */
  function RStrip(s: string): (r: string)
    ensures |r| <= |s| && r == s[..|r|]
    ensures r == [] || !IsSpace(r[|r| - 1])
    ensures forall i :: |r| <= i < |s| ==> IsSpace(s[i])
  {
    if s == [] || !IsSpace(s[|s| - 1]) then s else RStrip(s[..|s| - 1])
  }

  /** `s.strip()`: `s` without whitespace at either end. */
  function Strip(s: string): (r: string)
    ensures |r| <= |s|
    ensures r == [] || (!IsSpace(r[0]) && !IsSpace(r[|r| - 1]))
  {
    RStrip(LStrip(s))
  }

  /** `s.strip()` is the slice of `s` left once the whitespace before and
      after it is removed, and nothing else. */
  lemma StripIsTrimmedSlice(s: string)
    ensures |s| - |LStrip(s)| + |Strip(s)| <= |s|
    ensures Strip(s) == s[|s| - |LStrip(s)|..|s| - |LStrip(s)| + |Strip(s)|]
    ensures forall k :: 0 <= k < |s| - |LStrip(s)| ==> IsSpace(s[k])
    ensures forall k :: |s| - |LStrip(s)| + |Strip(s)| <= k < |s| ==> IsSpace(s[k])
  {
    var l := LStrip(s);
    var r := RStrip(l);
    PrefixOfSuffix(s, l, r);
  }

  /** A prefix `r` of a suffix `l` of `s` sits in `s` right after what `l`
      drops, and whatever follows `r` in `l` follows it in `s`. */
  lemma PrefixOfSuffix(s: string, l: string, r: string)
    requires |l| <= |s| && l == s[|s| - |l|..]
    requires |r| <= |l| && r == l[..|r|]
    requires forall k :: |r| <= k < |l| ==> IsSpace(l[k])
    ensures var i := |s| - |l|;
            && s[i..i + |r|] == r
            && (forall k :: i + |r| <= k < |s| ==> IsSpace(s[k]))
  {
    var i := |s| - |l|;
    forall k | i + |r| <= k < |s| ensures IsSpace(s[k]) {
      assert s[k] == l[k - i];
    }
  }

  /** `not line.strip()` holds exactly for the blank lines. */
  lemma StripEmptyIffBlank(line: string)
    ensures Strip(line) == [] <==> IsBlank(line)
  {
  }

  // ---------------------------------------------------------------------
  // str.split("T")[0]

  /** `s.split("T")[0]`: the text before the first `T`, or all of `s`. */
  function DatePart(s: string): (r: string)
    ensures r <= s
    ensures 'T' !in r
    ensures |r| < |s| ==> s[|r|] == 'T'
    ensures 'T' !in s ==> r == s
  {
    if s == [] then []
    else if s[0] == 'T' then []
    else [s[0]] + DatePart(s[1..])
  }

  /** The date part of `d + "T" + rest` is `d` when `d` holds no `T`. */
  lemma DatePartBeforeSeparator(d: string, rest: string)
    requires 'T' !in d
    ensures DatePart(d + "T" + rest) == d
  {
    var s := d + "T" + rest;
    var r := DatePart(s);
    assert s[|d|] == 'T';
    assert s[..|d|] == d;
  }

  // ---------------------------------------------------------------------
  // str() of an int

  function DigitChar(d: nat): char
    requires d < 10
  {
    ('0' as int + d) as char
  }

  predicate IsDigit(c: char)
  {
    '0' <= c <= '9'
  }

  /** The decimal digits of `n`, most significant first, without leading zeros. */
  function NatDigits(n: nat): (r: string)
    ensures |r| >= 1
    ensures forall i :: 0 <= i < |r| ==> IsDigit(r[i])
    ensures n > 0 ==> r[0] != '0'
    decreases n
  {
    if n < 10 then [DigitChar(n)] else NatDigits(n / 10) + [DigitChar(n % 10)]
  }

  /** `str(i)` for an int. */
  function IntText(i: int): string
  {
    if i < 0 then "-" + NatDigits(-i) else NatDigits(i)
  }

  /** The value of a string of decimal digits. */
  function DigitsValue(s: string): nat
    requires forall i :: 0 <= i < |s| ==> IsDigit(s[i])
  {
    if s == [] then 0
    else
      assert IsDigit(s[|s| - 1]);
      10 * DigitsValue(s[..|s| - 1]) + (s[|s| - 1] as int - '0' as int)
  }

  /** `int(text)` for the strings `IntText` produces. */
  function ParseInt(s: string): int
  {
    if |s| > 0 && s[0] == '-' && forall i :: 1 <= i < |s| ==> IsDigit(s[i]) then
      -(DigitsValue(s[1..]) as int)
    else if forall i :: 0 <= i < |s| ==> IsDigit(s[i]) then
      DigitsValue(s)
    else 0
  }

  lemma {:induction false} DigitsRoundTrip(n: nat)
    ensures DigitsValue(NatDigits(n)) == n
    decreases n
  {
    if n >= 10 {
      var s := NatDigits(n);
      assert s[..|s| - 1] == NatDigits(n / 10);
      DigitsRoundTrip(n / 10);
    }
  }

  /** Reading back the decimal text of an int gives the int: `int(str(i)) == i`. */
  lemma IntTextRoundTrip(i: int)
    ensures ParseInt(IntText(i)) == i
  {
    var t := IntText(i);
    if i < 0 {
      DigitsRoundTrip(-i);
      assert t[1..] == NatDigits(-i);
      assert forall k :: 1 <= k < |t| ==> IsDigit(t[k]) by {
        forall k | 1 <= k < |t| ensures IsDigit(t[k]) {
          assert t[k] == NatDigits(-i)[k - 1];
        }
      }
    } else {
      DigitsRoundTrip(i);
      assert IsDigit(t[0]);
    }
  }

  /** Distinct ints never share a text form. */
  lemma IntTextInjective(i: int, j: int)
    requires IntText(i) == IntText(j)
    ensures i == j
  {
    IntTextRoundTrip(i);
    IntTextRoundTrip(j);
  }

  // ---------------------------------------------------------------------
  // str()

  /** `str(v)`. */
  function Str(host: Host, v: Json): (r: string)
    ensures v.JStr? ==> r == v.s
    ensures v.JInt? ==> ParseInt(r) == v.i
  {
    match v
    case JNull => "None"
    case JBool(b) => if b then "True" else "False"
    case JInt(i) => IntTextRoundTrip(i); IntText(i)
    case JStr(s) => s
    case _ => host.showOther(v)
  }

  // ---------------------------------------------------------------------
  // float()

  /** `2^n`. */
  function Pow2(n: nat): (r: nat)
    ensures r >= 1
    ensures n >= 1 ==> r >= 2
  {
    if n == 0 then 1 else 2 * Pow2(n - 1)
  }

  /** The least magnitude of an integer that `float()` rejects with
      `OverflowError`. The largest double is (2^53 - 1) * 2^971; this is the
      midpoint between it and 2^1024, where rounding half to even goes up to
      2^1024, which is out of range. */
  const FloatOverflow: nat := (Pow2(54) - 1) * Pow2(970)

  lemma FloatOverflowPositive()
    ensures FloatOverflow >= 1
  {
    var a, b := Pow2(54) - 1, Pow2(970);
    assert a >= 1 && b >= 1;
    assert a * b >= b by {
      assert a * b == (a - 1) * b + b;
    }
  }

  /** The values `float(v)` converts or rejects with a `ValueError`: not
      `None`, a list or an object (`TypeError`), nor an integer too large
      for a double (`OverflowError`). */
  predicate Floatable(v: Json)
  {
    || v.JBool? || v.JFloat? || v.JStr?
    || (v.JInt? && -v.i < FloatOverflow && v.i < FloatOverflow)
  }

  /** `float(v)`; `None` when it raises `ValueError`. */
  function ToFloat(host: Host, v: Json): (r: Option<real>)
    requires Floatable(v)
    ensures v.JBool? ==> r == Some(if v.b then 1.0 else 0.0)
    ensures v.JInt? ==> r == Some(v.i as real)
    ensures v.JFloat? ==> r == Some(v.f)
    ensures v.JStr? ==> r == host.parseFloat(v.s)
  {
    if v.JStr? then host.parseFloat(v.s) else Some(NumValue(v))
  }

  // ---------------------------------------------------------------------
  // Dictionary keys

  /** The identity of a value used as a `dict` key. Python's `True`, `1` and
      `1.0` are one key, so all numbers are compared by value. */
  datatype Key = KNone | KNum(n: real) | KStr(s: string)

  /** Lists and dicts raise `TypeError` when used as a key. */
  predicate Hashable(v: Json)
  {
    !v.JArr? && !v.JObj?
  }

  function HashKey(v: Json): (k: Key)
    requires Hashable(v)
    ensures v.JStr? <==> k.KStr?
    ensures v.JStr? ==> k.s == v.s
  {
    match v
    case JNull => KNone
    case JStr(s) => KStr(s)
    case JBool(_) => KNum(NumValue(v))
    case JInt(_) => KNum(NumValue(v))
    case JFloat(_) => KNum(NumValue(v))
  }

  /** Two hashable values are the same key iff Python's `==` holds between them. */
  lemma HashKeyIsPythonEquality(v: Json, w: Json)
    requires Hashable(v) && Hashable(w)
    ensures HashKey(v) == HashKey(w) <==> PyEq(v, w)
  {
  }

  /** Python's `==` between two scalars. */
  predicate PyEq(v: Json, w: Json)
    requires Hashable(v) && Hashable(w)
  {
    if v.JNull? || w.JNull? then v.JNull? && w.JNull?
    else if v.JStr? || w.JStr? then v.JStr? && w.JStr? && v.s == w.s
    else NumValue(v) == NumValue(w)
  }

  /** The number a bool, an int or a float stands for: `True` is 1, `False` is 0. */
  function NumValue(v: Json): real
    requires v.JBool? || v.JInt? || v.JFloat?
  {
    match v
    case JBool(b) => if b then 1.0 else 0.0
    case JInt(i) => i as real
    case JFloat(f) => f
  }
}
