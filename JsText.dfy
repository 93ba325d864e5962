/** The pieces of JavaScript string and number behaviour the modelled actions rely on:
    `length` in UTF-16 code units, `trim`, the character classes of the validation
    regular expressions, ASCII case folding, `includes`, `Number.prototype.toString(radix)`
    and `Math.ceil` of a quotient. */
module JsText {

  // ---------------------------------------------------------------------------
  // length
  // ---------------------------------------------------------------------------

  /** `s.length`: JavaScript counts UTF-16 code units, so a character outside the
      Basic Multilingual Plane counts twice. */
  function Utf16Length(s: string): (n: nat)
    ensures |s| <= n <= 2 * |s|
    ensures (forall i :: 0 <= i < |s| ==> s[i] as int <= 0xFFFF) ==> n == |s|
  {
    if s == [] then 0
    else (if s[0] as int > 0xFFFF then 2 else 1) + Utf16Length(s[1..])
  }

  // ---------------------------------------------------------------------------
  // trim
  // ---------------------------------------------------------------------------

  /** The characters `String.prototype.trim` removes: ECMAScript WhiteSpace
      (tab, vertical tab, form feed, the byte order mark and the space separators)
      and LineTerminator (line feed, carriage return, U+2028, U+2029). */
  predicate IsJsWhitespace(c: char)
  {
    c == '\t' || c == '\n' || c == '\U{000B}' || c == '\U{000C}' || c == '\r' || c == ' '
    || c == '\U{00A0}' || c == '\U{1680}' || ('\U{2000}' <= c <= '\U{200A}')
    || c == '\U{2028}' || c == '\U{2029}' || c == '\U{202F}' || c == '\U{205F}'
    || c == '\U{3000}' || c == '\U{FEFF}'
  }

  /** Number of whitespace characters at the start of `s`. */
  function LeadingSpace(s: string): (n: nat)
    ensures n <= |s|
    ensures forall k :: 0 <= k < n ==> IsJsWhitespace(s[k])
    ensures n < |s| ==> !IsJsWhitespace(s[n])
  {
    if s != [] && IsJsWhitespace(s[0]) then 1 + LeadingSpace(s[1..]) else 0
  }

  /** Number of whitespace characters at the end of `s`. */
  function TrailingSpace(s: string): (n: nat)
    ensures n <= |s|
    ensures forall k :: |s| - n <= k < |s| ==> IsJsWhitespace(s[k])
    ensures n < |s| ==> !IsJsWhitespace(s[|s| - 1 - n])
  {
    if s != [] && IsJsWhitespace(s[|s| - 1]) then 1 + TrailingSpace(s[..|s| - 1]) else 0
  }

  /** `s.trim()`: the longest slice of `s` that neither starts nor ends with
      whitespace, everything cut off on either side being whitespace. */
  function Trim(s: string): (r: string)
    ensures LeadingSpace(s) + |r| <= |s|
    ensures r == s[LeadingSpace(s)..LeadingSpace(s) + |r|]
    ensures r == [] || (!IsJsWhitespace(r[0]) && !IsJsWhitespace(r[|r| - 1]))
    ensures forall k :: LeadingSpace(s) + |r| <= k < |s| ==> IsJsWhitespace(s[k])
  {
    var t := s[LeadingSpace(s)..];
    var n := TrailingSpace(t);
    assert forall k :: |t| - n <= k < |t| ==> IsJsWhitespace(t[k]);
    t[..|t| - n]
  }

  /** A string with no whitespace at either end is its own trim. */
  lemma {:induction false} TrimOfTrimmed(s: string)
    requires s == [] || (!IsJsWhitespace(s[0]) && !IsJsWhitespace(s[|s| - 1]))
    ensures Trim(s) == s
  {
    var t := s[LeadingSpace(s)..];
    assert LeadingSpace(s) == 0;
    assert t == s;
    if s != [] {
      assert TrailingSpace(s) == 0;
    }
  }

  /** Trimming twice is trimming once. */
  lemma TrimIdempotent(s: string)
    ensures Trim(Trim(s)) == Trim(s)
  {
    TrimOfTrimmed(Trim(s));
  }

  // ---------------------------------------------------------------------------
  // Character classes of the validation regular expressions
  // ---------------------------------------------------------------------------

  /** `[0-9]` */
  predicate IsAsciiDigit(c: char) { '0' <= c <= '9' }

  /** `[A-Z]` */
  predicate IsAsciiUpper(c: char) { 'A' <= c <= 'Z' }

  /** The class `[!@#$%^&*()_+\-=\[\]{};':"\\|,.<>\/?]` shared by registration and the
      strength meter, written out character by character. */
  const SpecialChars: string := "!@#$%^&*()_+-=[]{};':\"\\|,.<>/?"

  predicate IsSpecialChar(c: char) { c in SpecialChars }

  /** `/^[0-9]{10}$/.test(s)`. The digits are single code units, so ten characters
      and ten code units agree here; without the `m` flag `$` matches only at the end. */
  predicate IsTenDigits(s: string)
  {
    |s| == 10 && forall i :: 0 <= i < |s| ==> IsAsciiDigit(s[i])
  }

  /** `/[A-Z]/.test(s)` */
  predicate HasUpper(s: string) { exists i :: 0 <= i < |s| && IsAsciiUpper(s[i]) }

  /** `/[0-9]/.test(s)` */
  predicate HasDigit(s: string) { exists i :: 0 <= i < |s| && IsAsciiDigit(s[i]) }

  /** `/[!@#...]/.test(s)` with the class above. */
  predicate HasSpecial(s: string) { exists i :: 0 <= i < |s| && IsSpecialChar(s[i]) }

  // ---------------------------------------------------------------------------
  // ASCII case mapping
  // ---------------------------------------------------------------------------

  function LowerChar(c: char): char
  {
    if 'A' <= c <= 'Z' then (c as int + 32) as char else c
  }

  function UpperChar(c: char): char
  {
    if 'a' <= c <= 'z' then (c as int - 32) as char else c
  }

  /** Lower-cases the ASCII letters and leaves every other character alone. */
  function ToLowerAscii(s: string): (r: string)
    ensures |r| == |s|
  {
    seq(|s|, i requires 0 <= i < |s| => LowerChar(s[i]))
  }

  /** Upper-cases the ASCII letters and leaves every other character alone. */
  function ToUpperAscii(s: string): (r: string)
    ensures |r| == |s|
  {
    seq(|s|, i requires 0 <= i < |s| => UpperChar(s[i]))
  }

  lemma LowerDistributes(a: string, b: string)
    ensures ToLowerAscii(a + b) == ToLowerAscii(a) + ToLowerAscii(b)
  {
  }

  /** Lower-casing forgets any earlier ASCII upper-casing. */
  lemma LowerOfUpper(s: string)
    ensures ToLowerAscii(ToUpperAscii(s)) == ToLowerAscii(s)
  {
  }

  // ---------------------------------------------------------------------------
  // includes
  // ---------------------------------------------------------------------------

  predicate StartsWith(s: string, t: string)
  {
    |t| <= |s| && s[..|t|] == t
  }

  /** `s.includes(t)`: `t` occurs in `s` at some position. */
  predicate Contains(s: string, t: string)
    decreases |s|
  {
    StartsWith(s, t) || (s != [] && Contains(s[1..], t))
  }

  /** An occurrence stays an occurrence when text is appended. */
  lemma {:induction false} ContainsAppend(s: string, post: string, t: string)
    requires Contains(s, t)
    ensures Contains(s + post, t)
    decreases |s|
  {
    if StartsWith(s, t) {
      assert (s + post)[..|t|] == s[..|t|];
    } else {
      ContainsAppend(s[1..], post, t);
      assert (s + post)[1..] == s[1..] + post;
    }
  }

  /** An occurrence stays an occurrence when text is prepended. */
  lemma {:induction false} ContainsPrepend(pre: string, s: string, t: string)
    requires Contains(s, t)
    ensures Contains(pre + s, t)
    decreases |pre|
  {
    if pre != [] {
      ContainsPrepend(pre[1..], s, t);
      assert (pre + s)[1..] == pre[1..] + s;
    } else {
      assert pre + s == s;
    }
  }

  /** An occurrence anywhere in the middle of a string counts. */
  lemma ContainsInfix(pre: string, s: string, post: string, t: string)
    requires Contains(s, t)
    ensures Contains(pre + s + post, t)
  {
    ContainsAppend(s, post, t);
    ContainsPrepend(pre, s + post, t);
    assert pre + (s + post) == pre + s + post;
  }

  /** For a one-character needle, `includes` is membership. */
  lemma {:induction false} ContainsChar(s: string, c: char)
    ensures Contains(s, [c]) <==> c in s
    decreases |s|
  {
    if s != [] {
      ContainsChar(s[1..], c);
      assert s == [s[0]] + s[1..];
    }
  }

  /** `/[A-Z]/` finds a match exactly when lower-casing changes the string. */
  lemma UpperClassByCase(s: string)
    ensures HasUpper(s) <==> ToLowerAscii(s) != s
  {
    if HasUpper(s) {
      var i :| 0 <= i < |s| && IsAsciiUpper(s[i]);
      assert ToLowerAscii(s)[i] != s[i];
    } else {
      assert forall i :: 0 <= i < |s| ==> ToLowerAscii(s)[i] == s[i];
    }
  }

  /** `/[0-9]/` is the alternation of the ten one-digit literals. */
  lemma DigitClassByLiterals(s: string)
    ensures HasDigit(s) <==> exists d :: 0 <= d < 10 && Contains(s, [DigitChar(d)])
  {
    forall d | 0 <= d < 10 {
      ContainsChar(s, DigitChar(d));
    }
    if HasDigit(s) {
      var i :| 0 <= i < |s| && IsAsciiDigit(s[i]);
      var d := s[i] as int - 48;
      assert DigitChar(d) == s[i];
      assert Contains(s, [DigitChar(d)]);
    }
  }

  /** The special-character class is the alternation of its one-character literals. */
  lemma SpecialClassByLiterals(s: string)
    ensures HasSpecial(s) <==> exists k :: 0 <= k < |SpecialChars| && Contains(s, [SpecialChars[k]])
  {
    forall k | 0 <= k < |SpecialChars| {
      ContainsChar(s, SpecialChars[k]);
    }
    if HasSpecial(s) {
      var i :| 0 <= i < |s| && IsSpecialChar(s[i]);
      var k :| 0 <= k < |SpecialChars| && SpecialChars[k] == s[i];
      assert Contains(s, [SpecialChars[k]]);
    }
  }

  /** A string `/^[0-9]{10}$/` accepts is ten code units long and holds digits only:
      no letter and no special character. */
  lemma TenDigitsFacts(s: string)
    requires IsTenDigits(s)
    ensures Utf16Length(s) == 10
    ensures HasDigit(s) && !HasUpper(s) && !HasSpecial(s)
  {
    assert IsAsciiDigit(s[0]);
    assert forall i :: 0 <= i < |s| ==> !IsSpecialChar(s[i]);
  }

  // ---------------------------------------------------------------------------
  // Number.prototype.toString(radix) for non-negative integers
  // ---------------------------------------------------------------------------

  /** The digit characters `0-9a-z` JavaScript prints for radices up to 36. */
  predicate IsRadixDigit(c: char) { '0' <= c <= '9' || 'a' <= c <= 'z' }

  function DigitChar(d: nat): (c: char)
    requires d < 36
    ensures IsRadixDigit(c)
  {
    if d < 10 then (48 + d) as char else (87 + d) as char
  }

  function DigitValue(c: char): (d: nat)
    requires IsRadixDigit(c)
    ensures d < 36
  {
    if '0' <= c <= '9' then c as int - 48 else c as int - 87
  }

  /** `n.toString(radix)`: the digits of `n`, most significant first, without
      leading zeros. */
  function ToRadix(n: nat, radix: nat): (r: string)
    requires 2 <= radix <= 36
    ensures |r| >= 1
    ensures forall i :: 0 <= i < |r| ==> IsRadixDigit(r[i]) && DigitValue(r[i]) < radix
    ensures |r| > 1 ==> r[0] != '0'
    decreases n
  {
    if n < radix then [DigitChar(n)]
    else
      DivModFacts(n, radix);
      ToRadix(n / radix, radix) + [DigitChar(n % radix)]
  }

  /** Euclidean division facts the radix functions need. */
  lemma DivModFacts(n: nat, d: nat)
    requires 2 <= d <= n
    ensures 1 <= n / d < n && n % d < d && n == (n / d) * d + n % d
  {
  }

  /** Reads a digit string back as a number (the inverse of `ToRadix`). */
  function FromRadix(s: string, radix: nat): nat
    requires 2 <= radix <= 36
    requires forall i :: 0 <= i < |s| ==> IsRadixDigit(s[i])
  {
    if s == [] then 0
    else FromRadix(s[..|s| - 1], radix) * radix + DigitValue(s[|s| - 1])
  }

  /** Printing a number in a radix loses nothing: reading the digits back gives it. */
  lemma {:induction false} RadixRoundTrip(n: nat, radix: nat)
    requires 2 <= radix <= 36
    ensures FromRadix(ToRadix(n, radix), radix) == n
    decreases n
  {
    var r := ToRadix(n, radix);
    if n < radix {
      assert r[..0] == [];
    } else {
      DivModFacts(n, radix);
      var q, m := n / radix, n % radix;
      RadixRoundTrip(q, radix);
      assert r[..|r| - 1] == ToRadix(q, radix);
      assert r[|r| - 1] == DigitChar(m);
      assert DigitValue(DigitChar(m)) == m;
      assert q * radix + m == n;
    }
  }

  /** `String(n)` for a non-negative integer. */
  function DecimalString(n: nat): (r: string)
    ensures |r| >= 1 && forall i :: 0 <= i < |r| ==> IsAsciiDigit(r[i])
  {
    ToRadix(n, 10)
  }

  // ---------------------------------------------------------------------------
  // Math.ceil(x / d)
  // ---------------------------------------------------------------------------

  /** `Math.ceil(x / d)` for an integer `x` and a positive integer `d`: the least
      integer `r` with `x <= r * d`. */
  function CeilDiv(x: int, d: int): (r: int)
    requires d > 0
    ensures x <= r * d
    ensures (r - 1) * d < x
  {
    var q := (-x) / d;
    assert -x == q * d + (-x) % d;
    -q
  }

  // ---------------------------------------------------------------------------
  // Numbers
  // ---------------------------------------------------------------------------

  /** A JavaScript number as a server action receives it: an absent field, NaN, a
      finite value or an infinity. Finite values are exact reals: binary floating-point
      rounding is not modelled. Both zeros are `Finite(0.0)`. */
  datatype JsNumber = Undefined | NaN | Finite(value: real) | PosInfinity | NegInfinity

  /** `!n`: undefined, NaN and zero are falsy. */
  predicate Falsy(n: JsNumber)
  {
    n.Undefined? || n.NaN? || n == Finite(0.0)
  }

  /** `n < c` for a finite `c`; any comparison with undefined or NaN is false. */
  predicate LessThan(n: JsNumber, c: real)
  {
    match n
    case Finite(v) => v < c
    case NegInfinity => true
    case _ => false
  }

  /** `n <= c` */
  predicate AtMost(n: JsNumber, c: real)
  {
    match n
    case Finite(v) => v <= c
    case NegInfinity => true
    case _ => false
  }

  /** `n > c` */
  predicate GreaterThan(n: JsNumber, c: real)
  {
    match n
    case Finite(v) => v > c
    case PosInfinity => true
    case _ => false
  }

  /** Undefined and NaN fail every comparison; every other number is ordered against
      `c`, so `n <= c` is the negation of `n > c` and `n < c` implies `n <= c`. */
  lemma ComparisonFacts(n: JsNumber, c: real)
    ensures n.Undefined? || n.NaN? ==> !LessThan(n, c) && !AtMost(n, c) && !GreaterThan(n, c)
    ensures !(n.Undefined? || n.NaN?) ==> (AtMost(n, c) <==> !GreaterThan(n, c))
    ensures LessThan(n, c) ==> AtMost(n, c)
  {
  }

  /** `Math.random()` returns a draw in [0, 1). */
  predicate IsDraw(u: real)
  {
    0.0 <= u < 1.0
  }

  /** `Math.round(x)`: the nearest integer, a half rounded up. */
  function Round(x: real): (r: int)
    ensures r as real - 0.5 <= x < r as real + 0.5
  {
    (x + 0.5).Floor
  }

  /** `Math.floor(u * n)` for a draw `u`: an index below `n`. */
  function ScaledIndex(u: real, n: nat): (i: nat)
    requires IsDraw(u) && n > 0
    ensures i < n
    ensures i as real <= u * n as real < i as real + 1.0
  {
    var x := u * n as real;
    assert x < n as real by {
      assert (1.0 - u) * n as real > 0.0;
    }
    x.Floor
  }
}
