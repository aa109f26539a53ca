/** The few JavaScript string and value rules the source relies on: truthiness of an
    optional string, `a || b`, template-literal interpolation of `undefined`,
    `toLowerCase` as far as it matters for comparing with lower-case ASCII words,
    `String(n)` for an integer, and `trim`. */
module JsText {
  import opened Wrappers

  /** `if (s)` on a string that may be undefined: undefined and "" are falsy. */
  predicate Truthy(s: Option<string>) {
    s.Some? && s.value != ""
  }

  /** `s || fallback`. */
  function OrElse(s: Option<string>, fallback: string): string {
    if Truthy(s) then s.value else fallback
  }

  lemma OrElseSpec(s: Option<string>, fallback: string)
    ensures Truthy(s) ==> OrElse(s, fallback) == s.value
    ensures !Truthy(s) ==> OrElse(s, fallback) == fallback
    ensures fallback != "" ==> OrElse(s, fallback) != ""
  {
  }

  /** `${s}` in a template literal: an undefined value prints as "undefined". */
  function Interpolate(s: Option<string>): string {
    s.GetOr("undefined")
  }

  /** `toLowerCase` on one character, restricted to the characters whose lower case is
      in ASCII: A-Z and the Kelvin sign U+212A, whose lower case is 'k'. Every other
      character is left as it is; no other character lower-cases to something made of
      ASCII letters alone, so comparisons with lower-case ASCII words come out the same. */
  function LowerChar(c: char): char {
    if 'A' <= c <= 'Z' then (c as int + 32) as char
    else if c == '\U{212A}' then 'k'
    else c
  }

  function Lower(s: string): (r: string)
    ensures |r| == |s|
    ensures forall i :: 0 <= i < |s| ==> r[i] == LowerChar(s[i])
  {
    seq(|s|, i requires 0 <= i < |s| => LowerChar(s[i]))
  }

  lemma LowerIdempotent(s: string)
    ensures Lower(Lower(s)) == Lower(s)
  {
  }

  predicate IsDigit(c: char) {
    '0' <= c <= '9'
  }

  function DigitChar(d: nat): (c: char)
    requires d < 10
    ensures IsDigit(c)
  {
    ('0' as int + d) as char
  }

  /** The decimal digits of n, most significant first, without leading zeros. */
  function NatDigits(n: nat): (r: string)
    ensures |r| >= 1
    ensures |r| == 1 <==> n < 10
    ensures forall i :: 0 <= i < |r| ==> IsDigit(r[i])
  {
    if n < 10 then [DigitChar(n)] else NatDigits(n / 10) + [DigitChar(n % 10)]
  }

  /** `String(n)` for an integer n; JavaScript switches to exponent notation from
      10^21 on, which this model does not follow. */
  function DecimalString(n: int): string {
    if n < 0 then "-" + NatDigits(-n) else NatDigits(n)
  }

  lemma {:induction false} NatDigitsInjective(a: nat, b: nat)
    requires NatDigits(a) == NatDigits(b)
    ensures a == b
  {
    if a >= 10 && b >= 10 {
      var da, db := NatDigits(a), NatDigits(b);
      assert da[|da| - 1] == DigitChar(a % 10) && db[|db| - 1] == DigitChar(b % 10);
      assert da[..|da| - 1] == NatDigits(a / 10);
      assert db[..|db| - 1] == NatDigits(b / 10);
      NatDigitsInjective(a / 10, b / 10);
    }
  }

  /** Two integers print alike exactly when they are equal. */
  lemma DecimalStringInjective(a: int, b: int)
    ensures DecimalString(a) == DecimalString(b) <==> a == b
  {
    if a < 0 && b < 0 {
      if DecimalString(a) == DecimalString(b) {
        assert NatDigits(-a) == DecimalString(a)[1..];
        NatDigitsInjective(-a, -b);
      }
    } else if a >= 0 && b >= 0 {
      if DecimalString(a) == DecimalString(b) {
        NatDigitsInjective(a, b);
      }
    } else if a < 0 {
      assert DecimalString(a)[0] != DecimalString(b)[0];
    } else {
      assert DecimalString(a)[0] != DecimalString(b)[0];
    }
  }

  /** The characters `String.prototype.trim` removes: ECMAScript WhiteSpace and LineTerminator. */
  predicate IsJsWhitespace(c: char) {
    || c == ' ' || c == '\t' || c == '\n' || c == '\U{000B}' || c == '\U{000C}' || c == '\r'
    || c == '\U{00A0}' || c == '\U{1680}' || ('\U{2000}' <= c <= '\U{200A}')
    || c == '\U{2028}' || c == '\U{2029}' || c == '\U{202F}' || c == '\U{205F}'
    || c == '\U{3000}' || c == '\U{FEFF}'
  }

  function TrimStart(s: string): (r: string)
    ensures r == "" || !IsJsWhitespace(r[0])
  {
    if s != [] && IsJsWhitespace(s[0]) then TrimStart(s[1..]) else s
  }

  function TrimEnd(s: string): string {
    if s != [] && IsJsWhitespace(s[|s| - 1]) then TrimEnd(s[..|s| - 1]) else s
  }

  function Trim(s: string): string {
    TrimEnd(TrimStart(s))
  }

  predicate AllWhitespace(s: string) {
    forall i :: 0 <= i < |s| ==> IsJsWhitespace(s[i])
  }

  lemma {:induction false} TrimStartEmptyIff(s: string)
    ensures TrimStart(s) == "" <==> AllWhitespace(s)
  {
    if s != [] && IsJsWhitespace(s[0]) {
      TrimStartEmptyIff(s[1..]);
      assert AllWhitespace(s) <==> AllWhitespace(s[1..]) by {
        if AllWhitespace(s[1..]) {
          forall i | 0 <= i < |s| ensures IsJsWhitespace(s[i]) {
            if i > 0 { assert s[i] == s[1..][i - 1]; }
          }
        }
      }
    }
  }

  lemma {:induction false} TrimEndOfNonBlank(s: string)
    requires s != [] && !IsJsWhitespace(s[0])
    ensures TrimEnd(s) != ""
    decreases |s|
  {
    if IsJsWhitespace(s[|s| - 1]) {
      TrimEndOfNonBlank(s[..|s| - 1]);
    }
  }

  /** `reply.trim()` is empty exactly when the reply holds nothing but whitespace. */
  lemma TrimEmptyIff(s: string)
    ensures Trim(s) == "" <==> AllWhitespace(s)
  {
    TrimStartEmptyIff(s);
    var t := TrimStart(s);
    if t != "" {
      TrimEndOfNonBlank(t);
    }
  }
}
