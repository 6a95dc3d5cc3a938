/** The few JavaScript value semantics the engine and the directives depend on:
    the values found in job records, property-key conversion, number-to-string
    conversion, `parseInt` and `Array.prototype.join`. */
module JsValues {

  datatype Option<T> = None | Some(value: T)

  /** A computation that either returns a value or throws (`error` names the exception). */
  datatype Result<T> = Success(value: T) | Failure(error: string)

  /** The values a job record can hold in the fields the engine reads.
      Integers stand for JavaScript numbers (ids, timestamps); an absent
      property reads as `Undefined`. */
  datatype JsValue = Undefined | Null | Num(n: int) | Str(s: string)

  /** A plain JavaScript object used as a record of fields. */
  type Record = map<string, JsValue>

  /** `obj.name`: an absent property reads as `undefined`. */
  function Field(r: Record, name: string): JsValue
  {
    if name in r then r[name] else Undefined
  }

  /** `v == undefined` with loose equality: true of both `undefined` and `null`. */
  predicate IsNullish(v: JsValue)
  {
    v.Undefined? || v.Null?
  }

  predicate IsDigit(c: char)
  {
    '0' <= c <= '9'
  }

  predicate AllDigits(s: string)
  {
    forall i | 0 <= i < |s| :: IsDigit(s[i])
  }

  function DigitChar(d: nat): (c: char)
    requires d < 10
    ensures IsDigit(c) && DigitValue(c) == d
  {
    ('0' as int + d) as char
  }

  function DigitValue(c: char): nat
    requires IsDigit(c)
  {
    c as int - '0' as int
  }

  /** The decimal digits of `n`, most significant first, without leading zeros. */
  function NatToString(n: nat): (s: string)
    ensures |s| > 0 && AllDigits(s)
    ensures s[0] == '0' ==> s == "0"
  {
    if n < 10 then [DigitChar(n)] else NatToString(n / 10) + [DigitChar(n % 10)]
  }

  /** `String(n)` for an integral number. */
  function IntToString(n: int): string
  {
    if n < 0 then "-" + NatToString(-n) else NatToString(n)
  }

  /** The property key a value denotes when used as `obj[v]`, i.e. `String(v)`. */
  function ToPropertyKey(v: JsValue): string
  {
    match v
    case Undefined => "undefined"
    case Null => "null"
    case Num(n) => IntToString(n)
    case Str(s) => s
  }

  /** What `Array.prototype.join` writes for one element: `null` and `undefined` become empty. */
  function ElementString(v: JsValue): string
  {
    if IsNullish(v) then "" else ToPropertyKey(v)
  }

  /** `xs.join(sep)`. */
  function Join(xs: seq<JsValue>, sep: string): (r: string)
    ensures xs == [] ==> r == ""
    ensures |xs| == 1 ==> r == ElementString(xs[0])
  {
    if xs == [] then ""
    else if |xs| == 1 then ElementString(xs[0])
    else Join(xs[..|xs| - 1], sep) + sep + ElementString(xs[|xs| - 1])
  }

  /** `s.indexOf(x)`: the first position holding `x`, or -1. */
  function IndexOf<T(==)>(s: seq<T>, x: T): (i: int)
    ensures -1 <= i < |s|
    ensures i == -1 <==> x !in s
    ensures 0 <= i ==> s[i] == x && x !in s[..i]
  {
    if s == [] then -1
    else if s[0] == x then 0
    else
      var j := IndexOf(s[1..], x);
      if j == -1 then -1
      else
        assert s[..j + 1] == [s[0]] + s[1..][..j];
        j + 1
  }

  /** `s.lastIndexOf(x)`: the last position holding `x`, or -1. */
  function LastIndexOf<T(==)>(s: seq<T>, x: T): (i: int)
    ensures -1 <= i < |s|
    ensures i == -1 <==> x !in s
    ensures 0 <= i ==> s[i] == x && x !in s[i + 1..]
  {
    if s == [] then -1
    else if s[|s| - 1] == x then |s| - 1
    else
      var j := LastIndexOf(s[..|s| - 1], x);
      assert j >= 0 ==> s[j + 1..] == s[..|s| - 1][j + 1..] + [s[|s| - 1]];
      j
  }

  /** `s.split(c)` for a one-character separator: the pieces between the occurrences of `c`. */
  function Split(s: string, c: char): (parts: seq<string>)
    ensures |parts| > 0
    decreases |s|
  {
    var i := LastIndexOf(s, c);
    if i < 0 then [s] else Split(s[..i], c) + [s[i + 1..]]
  }

  /** The last separator of `a + [c] + b` is the one added when `b` has none. */
  lemma LastIndexOfJoined(a: string, c: char, b: string)
    requires c !in b
    ensures LastIndexOf(a + [c] + b, c) == |a|
  {
    var s := a + [c] + b;
    assert s[|a|] == c;
    assert s[|a| + 1..] == b;
  }

  /** Joining pieces that do not contain the separator and splitting the result gives the
      pieces back. */
  lemma {:induction false} SplitJoin(xs: seq<JsValue>, c: char)
    requires |xs| > 0
    requires forall k | 0 <= k < |xs| :: c !in ElementString(xs[k])
    ensures Split(Join(xs, [c]), c) == seq(|xs|, k requires 0 <= k < |xs| => ElementString(xs[k]))
  {
    var n := |xs| - 1;
    if n > 0 {
      var front := Join(xs[..n], [c]);
      var last := ElementString(xs[n]);
      var s := front + [c] + last;
      assert Join(xs, [c]) == s;
      SplitJoin(xs[..n], c);
      LastIndexOfJoined(front, c, last);
      assert s[..|front|] == front && s[|front| + 1..] == last;
      assert Split(s, c) == Split(front, c) + [last];
    }
  }

  /** The value of a digit in radix 10 or 16, or -1 when it is not one. */
  function RadixDigit(c: char, radix: nat): (d: int)
    requires radix == 10 || radix == 16
    ensures -1 <= d < radix
    ensures radix == 10 ==> (d >= 0 <==> IsDigit(c))
    ensures IsDigit(c) ==> d == DigitValue(c)
  {
    if IsDigit(c) then DigitValue(c)
    else if radix == 16 && 'a' <= c <= 'f' then c as int - 'a' as int + 10
    else if radix == 16 && 'A' <= c <= 'F' then c as int - 'A' as int + 10
    else -1
  }

  /** The longest prefix of `s` made of digits of `radix`. */
  function DigitPrefix(s: string, radix: nat): (z: string)
    requires radix == 10 || radix == 16
    ensures z <= s
    ensures forall i | 0 <= i < |z| :: RadixDigit(z[i], radix) >= 0
    ensures |z| < |s| ==> RadixDigit(s[|z|], radix) < 0
  {
    if s == [] || RadixDigit(s[0], radix) < 0 then [] else [s[0]] + DigitPrefix(s[1..], radix)
  }

  /** The number the digits `z` denote in `radix`. */
  function DigitsValue(z: string, radix: nat): nat
    requires radix == 10 || radix == 16
    requires forall i | 0 <= i < |z| :: RadixDigit(z[i], radix) >= 0
  {
    if z == [] then 0
    else DigitsValue(z[..|z| - 1], radix) * radix + RadixDigit(z[|z| - 1], radix)
  }

  /** The characters the `parseInt` algorithm skips at the start (StrWhiteSpaceChar of ECMA-262:
      the ASCII blanks, NBSP, ZWNBSP, the line separators and the Unicode space separators). */
  predicate IsJsWhiteSpace(c: char)
  {
    c == ' ' || c == '\t' || c == '\n' || c == '\r' || c == '\U{000B}' || c == '\U{000C}'
    || c == '\U{00A0}' || c == '\U{FEFF}' || c == '\U{2028}' || c == '\U{2029}'
    || c == '\U{1680}' || ('\U{2000}' <= c <= '\U{200A}') || c == '\U{202F}' || c == '\U{205F}'
    || c == '\U{3000}'
  }

  function TrimStart(s: string): (r: string)
    ensures r == [] || !IsJsWhiteSpace(r[0])
    ensures |r| <= |s| && r == s[|s| - |r|..]
  {
    if s != [] && IsJsWhiteSpace(s[0]) then TrimStart(s[1..]) else s
  }

  /** The unsigned part of `parseInt`: a leading "0x" or "0X" selects radix 16, then the
      longest run of digits is read; `None` (NaN) when there is none. */
  function ParseUnsigned(s: string): (r: Option<nat>)
  {
    if |s| >= 2 && s[0] == '0' && (s[1] == 'x' || s[1] == 'X') then
      var z := DigitPrefix(s[2..], 16);
      if z == [] then None else Some(DigitsValue(z, 16))
    else
      var z := DigitPrefix(s, 10);
      if z == [] then None else Some(DigitsValue(z, 10))
  }

  /** `parseInt(s)` with no radix; `None` is `NaN`. Leading white space is skipped, then one
      optional sign. */
  function ParseInt(str: string): Option<int>
  {
    var s := TrimStart(str);
    if s != [] && s[0] == '-' then
      match ParseUnsigned(s[1..])
      case None => None
      case Some(v) => Some(-(v as int))
    else
      var u := if s != [] && s[0] == '+' then ParseUnsigned(s[1..]) else ParseUnsigned(s);
      match u
      case None => None
      case Some(v) => Some(v as int)
  }

  lemma {:induction false} DigitPrefixOfDigits(s: string)
    requires AllDigits(s)
    ensures DigitPrefix(s, 10) == s
  {
    if s != [] {
      DigitPrefixOfDigits(s[1..]);
    }
  }

  lemma {:induction false} DecimalRoundTrip(n: nat)
    ensures DigitsValue(NatToString(n), 10) == n
  {
    if n >= 10 {
      var s := NatToString(n);
      var d := DigitChar(n % 10);
      assert s == NatToString(n / 10) + [d];
      assert s[..|s| - 1] == NatToString(n / 10);
      DecimalRoundTrip(n / 10);
    }
  }

  /** `parseInt` reads a run of decimal digits that does not start with "0x" as a number. */
  lemma ParseUnsignedOfDecimal(digits: string)
    requires digits != [] && AllDigits(digits)
    requires digits[0] == '0' ==> |digits| == 1
    ensures ParseUnsigned(digits) == Some(DigitsValue(digits, 10))
  {
    DigitPrefixOfDigits(digits);
  }

  /** `parseInt(String(n)) === n`: the decimal rendering of an integer parses back to it. */
  lemma ParseIntRoundTrip(n: int)
    ensures ParseInt(IntToString(n)) == Some(n)
  {
    var m: nat := if n < 0 then -n else n;
    var digits := NatToString(m);
    ParseUnsignedOfDecimal(digits);
    DecimalRoundTrip(m);
    if n < 0 {
      ParseIntOfSigned(digits, m);
    } else {
      ParseIntOfUnsigned(digits, m);
    }
  }

  /** A minus sign followed by digits that read as `v` parses to `-v`. */
  lemma ParseIntOfSigned(digits: string, v: nat)
    requires digits != [] && IsDigit(digits[0]) && ParseUnsigned(digits) == Some(v)
    ensures ParseInt("-" + digits) == Some(-(v as int))
  {
    var s := "-" + digits;
    assert TrimStart(s) == s by { assert !IsJsWhiteSpace(s[0]); }
    assert s[1..] == digits;
  }

  /** Digits with no sign in front parse to their value. */
  lemma ParseIntOfUnsigned(digits: string, v: nat)
    requires digits != [] && IsDigit(digits[0]) && ParseUnsigned(digits) == Some(v)
    ensures ParseInt(digits) == Some(v)
  {
    assert TrimStart(digits) == digits by { assert !IsJsWhiteSpace(digits[0]); }
  }

  /** Distinct integers have distinct renderings, so numeric ids give distinct property keys. */
  lemma IntToStringInjective(a: int, b: int)
    ensures IntToString(a) == IntToString(b) <==> a == b
  {
    if IntToString(a) == IntToString(b) {
      ParseIntRoundTrip(a);
      ParseIntRoundTrip(b);
    }
  }
}
