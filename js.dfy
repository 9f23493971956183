/** JavaScript values and the few String/Number built-ins the server relies on.

    A request body or query string reaches a handler as a plain object; here it
    is a map from key to value, and a key that is absent is `undefined`.
    Numbers are integers or `NaN` (floating point is not modelled). */
module Js {

  datatype Option<+T> = None | Some(value: T)

  datatype Result<+T, +E> = Ok(value: T) | Err(error: E)

  /** A JavaScript value: what Express's body parser or query parser
      delivers, plus the `NaN` that `parseInt` may return and the `Date`
      objects handlers build (`None`: an Invalid Date). Arrays and nested
      objects are opaque (`Composite`). */
  datatype Value =
    | Null | Bool(b: bool) | Num(n: int) | NaN | Str(s: string)
    | Date(time: Option<int>) | Composite

  type Obj = map<string, Value>

  /** `obj[key]`: `None` is `undefined`. */
  function Get(o: Obj, key: string): (f: Option<Value>)
    ensures f.Some? <==> key in o
    ensures f.Some? ==> f.value == o[key]
  {
    if key in o then Some(o[key]) else None
  }

  /** JavaScript truthiness, as in `if (x)` and `x || y`. */
  predicate Truthy(f: Option<Value>) {
    match f
    case None => false
    case Some(v) =>
      match v
      case Null => false
      case Bool(b) => b
      case Num(n) => n != 0
      case NaN => false
      case Str(s) => s != ""
      case Date(_) => true
      case Composite => true
  }

  // ---------------------------------------------------------------------------
  // Whitespace: the WhiteSpace and LineTerminator code points of ECMAScript.
  // `String.prototype.trim` strips exactly these, and the regular-expression
  // class `\s` matches exactly these.

  predicate IsLineTerminator(c: char) {
    var n := c as int;
    n == 0x0A || n == 0x0D || n == 0x2028 || n == 0x2029
  }

  predicate IsSpace(c: char) {
    var n := c as int;
    n == 0x09 || n == 0x0B || n == 0x0C || n == 0x20 || n == 0xA0 || n == 0x1680
    || (0x2000 <= n <= 0x200A) || n == 0x202F || n == 0x205F || n == 0x3000 || n == 0xFEFF
    || IsLineTerminator(c)
  }

  predicate AllSpace(s: string) {
    forall i :: 0 <= i < |s| ==> IsSpace(s[i])
  }

  /** `s.trimStart()`: drops the leading whitespace and nothing else. */
  function TrimStart(s: string): (r: string)
    ensures |r| <= |s| && r == s[|s| - |r|..]
    ensures AllSpace(s[..|s| - |r|])
    ensures r == [] || !IsSpace(r[0])
  {
    if s != [] && IsSpace(s[0]) then
      var r := TrimStart(s[1..]);
      assert s[1..][..|s| - 1 - |r|] == s[1..|s| - |r|];
      r
    else s
  }

  /** `s.trimEnd()`: drops the trailing whitespace and nothing else. */
  function TrimEnd(s: string): (r: string)
    ensures |r| <= |s| && r == s[..|r|]
    ensures AllSpace(s[|r|..])
    ensures r == [] || !IsSpace(r[|r| - 1])
  {
    if s != [] && IsSpace(s[|s| - 1]) then
      var r := TrimEnd(s[..|s| - 1]);
      assert s[..|s| - 1][|r|..] == s[|r|..|s| - 1];
      r
    else s
  }

  /** `s.trim()`. */
  function Trim(s: string): string {
    TrimEnd(TrimStart(s))
  }

  /** What `trim` keeps is a contiguous piece of `s`, everything cut off on
      either side is whitespace, and the piece neither starts nor ends with
      whitespace. */
  lemma TrimCharacterised(s: string)
    ensures exists i, j :: 0 <= i <= j <= |s| && Trim(s) == s[i..j]
                           && AllSpace(s[..i]) && AllSpace(s[j..])
    ensures Trim(s) == [] || (!IsSpace(Trim(s)[0]) && !IsSpace(Trim(s)[|Trim(s)| - 1]))
  {
    var a := TrimStart(s);
    var r := TrimEnd(a);
    var i := |s| - |a|;
    var j := i + |r|;
    TrimmedSlice(s, a, r);
    assert Trim(s) == s[i..j] && AllSpace(s[..i]) && AllSpace(s[j..]);
    if r != [] {
      assert r[0] == a[0];
    }
  }

  /** Cutting whitespace off the front and then off the back leaves a
      slice framed by whitespace. */
  lemma TrimmedSlice(s: string, a: string, r: string)
    requires |a| <= |s| && a == s[|s| - |a|..] && AllSpace(s[..|s| - |a|])
    requires |r| <= |a| && r == a[..|r|] && AllSpace(a[|r|..])
    ensures r == s[|s| - |a|..|s| - |a| + |r|]
    ensures AllSpace(s[|s| - |a| + |r|..])
  {
    assert s[|s| - |a| + |r|..] == a[|r|..];
  }

  /** `s` neither starts nor ends with whitespace. */
  predicate IsTrimmed(s: string) {
    s == [] || (!IsSpace(s[0]) && !IsSpace(s[|s| - 1]))
  }

  lemma TrimIsTrimmed(s: string)
    ensures IsTrimmed(Trim(s))
  {
    TrimCharacterised(s);
  }

  /** A string without whitespace at either end is its own trim. */
  lemma TrimOfTrimmed(s: string)
    requires IsTrimmed(s)
    ensures Trim(s) == s
  {
  }

  /** Trimming twice is trimming once. */
  lemma TrimIdempotent(s: string)
    ensures Trim(Trim(s)) == Trim(s)
  {
    TrimCharacterised(s);
    TrimOfTrimmed(Trim(s));
  }

  // ---------------------------------------------------------------------------
  // Case folding. Only the ASCII letters are folded (JavaScript's
  // `toLowerCase` folds every cased code point).

  function LowerChar(c: char): char {
    if 'A' <= c <= 'Z' then (c as int + 32) as char else c
  }

  /** `s.toLowerCase()`. */
  function Lower(s: string): (r: string)
    ensures |r| == |s|
    ensures forall i :: 0 <= i < |s| ==> r[i] == LowerChar(s[i])
  {
    seq(|s|, i requires 0 <= i < |s| => LowerChar(s[i]))
  }

  /** `s` has no upper-case letter. */
  predicate IsLowered(s: string) {
    forall i :: 0 <= i < |s| ==> LowerChar(s[i]) == s[i]
  }

  lemma LowerIsLowered(s: string)
    ensures IsLowered(Lower(s))
  {
  }

  lemma LowerOfLowered(s: string)
    requires IsLowered(s)
    ensures Lower(s) == s
  {
  }

  lemma LowerIdempotent(s: string)
    ensures Lower(Lower(s)) == Lower(s)
  {
  }

  /** Folding case never turns whitespace into non-whitespace or back, so
      lower-casing and trimming commute. */
  lemma LowerKeepsSpace(c: char)
    ensures IsSpace(LowerChar(c)) == IsSpace(c)
  {
  }

  lemma {:induction false} TrimStartLower(s: string)
    ensures TrimStart(Lower(s)) == Lower(TrimStart(s))
  {
    if s != [] {
      var l := Lower(s);
      assert l[0] == LowerChar(s[0]);
      LowerKeepsSpace(s[0]);
      if IsSpace(s[0]) {
        assert l[1..] == Lower(s[1..]);
        TrimStartLower(s[1..]);
      }
    }
  }

  lemma {:induction false} TrimEndLower(s: string)
    ensures TrimEnd(Lower(s)) == Lower(TrimEnd(s))
  {
    if s != [] {
      var l := Lower(s);
      assert l[|s| - 1] == LowerChar(s[|s| - 1]);
      LowerKeepsSpace(s[|s| - 1]);
      if IsSpace(s[|s| - 1]) {
        assert l[..|s| - 1] == Lower(s[..|s| - 1]);
        TrimEndLower(s[..|s| - 1]);
      }
    }
  }

  lemma TrimLowerCommute(s: string)
    ensures Trim(Lower(s)) == Lower(Trim(s))
  {
    TrimStartLower(s);
    TrimEndLower(TrimStart(s));
  }

  /** `email.toLowerCase().trim()`, the normal form of a stored e-mail. */
  function NormalEmail(s: string): string {
    Trim(Lower(s))
  }

  /** The shape alone of a normalised e-mail, without the equations. */
  lemma NormalEmailShape(s: string)
    ensures IsTrimmed(NormalEmail(s)) && IsLowered(NormalEmail(s))
  {
    NormalEmailIsNormal(s);
  }

  /** A normalised e-mail is already lower-case and trimmed, so normalising
      it again changes nothing. */
  lemma NormalEmailIsNormal(s: string)
    ensures IsTrimmed(NormalEmail(s)) && IsLowered(NormalEmail(s))
    ensures Lower(NormalEmail(s)) == NormalEmail(s)
    ensures Trim(NormalEmail(s)) == NormalEmail(s)
    ensures NormalEmail(NormalEmail(s)) == NormalEmail(s)
  {
    var t := NormalEmail(s);
    TrimLowerCommute(s);
    LowerIdempotent(Trim(s));
    TrimIdempotent(Lower(s));
    TrimLowerCommute(t);
    TrimIsTrimmed(Lower(s));
    LowerIsLowered(Trim(s));
  }

  /** The e-mail normal form is a fixed point: a trimmed string without
      upper-case letters normalises to itself. */
  lemma NormalEmailOfNormal(s: string)
    requires IsTrimmed(s) && IsLowered(s)
    ensures NormalEmail(s) == s
  {
    LowerOfLowered(s);
    TrimOfTrimmed(s);
  }

  /** `hay.includes(needle)`: `needle` occurs somewhere in `hay`. */
  predicate Contains(hay: string, needle: string)
    decreases |hay|
  {
    needle <= hay || (hay != [] && Contains(hay[1..], needle))
  }

  /** `contains` with Prisma's `mode: 'insensitive'`. */
  predicate ContainsInsensitive(hay: string, needle: string) {
    Contains(Lower(hay), Lower(needle))
  }

  /** `equals` with Prisma's `mode: 'insensitive'`. */
  predicate EqualsInsensitive(a: string, b: string) {
    Lower(a) == Lower(b)
  }

  // ---------------------------------------------------------------------------
  // Numbers written in decimal.

  predicate IsDigit(c: char) { '0' <= c <= '9' }

  predicate AllDigits(s: string) {
    forall i :: 0 <= i < |s| ==> IsDigit(s[i])
  }

  function DigitValue(c: char): nat
    requires IsDigit(c)
  {
    c as int - '0' as int
  }

  function DigitChar(d: nat): (c: char)
    requires d < 10
    ensures IsDigit(c) && DigitValue(c) == d
  {
    ('0' as int + d) as char
  }

  /** The value of a string of decimal digits, most significant first. */
  function DigitsValue(s: string): nat
    requires AllDigits(s)
  {
    if s == [] then 0 else DigitsValue(s[..|s| - 1]) * 10 + DigitValue(s[|s| - 1])
  }

  /** The longest prefix of `s` made of decimal digits. */
  function DigitPrefix(s: string): (r: string)
    ensures r <= s && AllDigits(r)
    ensures |r| < |s| ==> !IsDigit(s[|r|])
  {
    if s != [] && IsDigit(s[0]) then [s[0]] + DigitPrefix(s[1..]) else []
  }

  /** `String(n)` for a natural number. */
  function Decimal(n: nat): (r: string)
    ensures r != [] && AllDigits(r)
  {
    if n < 10 then [DigitChar(n)] else Decimal(n / 10) + [DigitChar(n % 10)]
  }

  lemma {:induction false} DecimalValue(n: nat)
    ensures DigitsValue(Decimal(n)) == n
  {
    if n >= 10 {
      var r := Decimal(n);
      assert r[..|r| - 1] == Decimal(n / 10);
      DecimalValue(n / 10);
    }
  }

  lemma {:induction false} DigitPrefixOfDigits(s: string)
    requires AllDigits(s)
    ensures DigitPrefix(s) == s
  {
    if s != [] {
      DigitPrefixOfDigits(s[1..]);
    }
  }

  /** `String(n)` for any integer. */
  function IntToString(n: int): string {
    if n < 0 then ['-'] + Decimal(-n) else Decimal(n)
  }

  /** `parseInt(s)` with no radix: leading whitespace is skipped, one sign
      is allowed, and the longest run of decimal digits is read; `None` is
      NaN. A `0x` prefix (which `parseInt` reads as hexadecimal) is not
      modelled. */
  function ParseInt(s: string): Option<int> {
    ParseSigned(TrimStart(s))
  }

  /** The sign-and-digits part of `parseInt`, after the leading whitespace. */
  function ParseSigned(t: string): Option<int> {
    if t != [] && (t[0] == '-' || t[0] == '+') then
      match ReadDigits(t[1..])
      case None => None
      case Some(v) => var n: int := v; Some(if t[0] == '-' then -n else n)
    else ReadDigits(t)
  }

  /** The value of the leading decimal digits of `u`, if there are any. */
  function ReadDigits(u: string): Option<nat> {
    var d := DigitPrefix(u);
    if d == [] then None else Some(DigitsValue(d))
  }

  /** `parseInt(String(n)) === n`: reading back what `String` writes. */
  lemma ParseIntRoundTrip(n: int)
    ensures ParseInt(IntToString(n)) == Some(n)
  {
    var s := IntToString(n);
    var m: nat := if n < 0 then -n else n;
    DecimalValue(m);
    DigitPrefixOfDigits(Decimal(m));
    assert !IsSpace(s[0]);
    assert TrimStart(s) == s;
    if n < 0 {
      assert s[1..] == Decimal(m);
    } else {
      assert s[0] != '-' && s[0] != '+';
    }
  }

  /** `Number(s)`: surrounding whitespace is ignored, a blank string is 0,
      and the rest must be an optionally signed run of decimal digits; `None`
      stands for every other outcome (NaN, a fraction, or an integer written
      in exponent or hexadecimal form, which are not modelled). */
  function NumberOf(s: string): Option<int> {
    var t := Trim(s);
    if t == [] then Some(0) else
    var neg := t != [] && t[0] == '-';
    var u := if t != [] && (t[0] == '-' || t[0] == '+') then t[1..] else t;
    var v: int := if AllDigits(u) then DigitsValue(u) else 0;
    if u != [] && AllDigits(u) then Some(if neg then -v else v) else None
  }

  /** `Number(v)`; `None` is NaN. Composites are not modelled and read as NaN. */
  function NumberValue(v: Value): Option<int> {
    match v
    case Null => Some(0)
    case Bool(b) => Some(if b then 1 else 0)
    case Num(n) => Some(n)
    case NaN => None
    case Str(s) => NumberOf(s)
    case Date(t) => t
    case Composite => None
  }

  /** `parseInt(v)`; `None` is NaN. The value is first converted to a string:
      `null`, booleans, NaN and dates spell no digits; composites are not
      modelled and read as NaN. */
  function ParseIntValue(v: Value): Option<int> {
    match v
    case Num(n) => ParseInt(IntToString(n))
    case Str(s) => ParseInt(s)
    case _ => None
  }

  /** The value `parseInt(v)` evaluates to. */
  function ParseIntJs(v: Value): (r: Value)
    ensures r.Num? || r.NaN?
    ensures r.Num? <==> ParseIntValue(v).Some?
    ensures r.Num? ==> r.n == ParseIntValue(v).value
  {
    var n := ParseIntValue(v);
    if n.Some? then Num(n.value) else NaN
  }

  lemma ParseIntOfNumber(n: int)
    ensures ParseIntValue(Num(n)) == Some(n)
  {
    ParseIntRoundTrip(n);
  }
}
