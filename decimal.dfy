/** Decimal text for JavaScript `bigint`: `x.toString()`, `BigInt(str)` and
    `String.prototype.padStart`, shared by the account store, the deep-link
    parser and the balance display. */
module Decimal {
  import opened Errors

  predicate IsDigit(c: char) { '0' <= c <= '9' }

  predicate AllDigits(s: string) { forall i :: 0 <= i < |s| ==> IsDigit(s[i]) }

  function DigitChar(d: nat): (c: char)
    requires d < 10
    ensures IsDigit(c) && (c as int) - ('0' as int) == d
  {
    (('0' as int) + d) as char
  }

  function DigitValue(c: char): nat
    requires IsDigit(c)
  {
    (c as int) - ('0' as int)
  }

  function Pow10(n: nat): (p: nat)
    ensures p >= 1
  {
    if n == 0 then 1 else 10 * Pow10(n - 1)
  }

  /** The value of a string of decimal digits; the empty string is 0. */
  function DigitsValue(s: string): nat
    requires AllDigits(s)
  {
    if s == [] then 0 else 10 * DigitsValue(s[..|s| - 1]) + DigitValue(s[|s| - 1])
  }

  /** `n.toString()` for a non-negative bigint: shortest decimal form. */
  function NatToString(n: nat): (s: string)
    ensures |s| >= 1 && AllDigits(s)
    ensures s[0] == '0' ==> n == 0
  {
    if n < 10 then [DigitChar(n)] else NatToString(n / 10) + [DigitChar(n % 10)]
  }

  /** `x.toString()` for any bigint: a leading `-` for negative values. */
  function IntToString(x: int): (s: string)
    ensures |s| >= 1
    ensures x >= 0 <==> s[0] != '-'
  {
    if x < 0 then "-" + NatToString(-x) else NatToString(x)
  }

  /** The code points `BigInt(str)` strips from both ends of its argument:
      the WhiteSpace and LineTerminator code points of ECMAScript. */
  predicate IsStrWhiteSpace(c: char)
  {
    var n := c as int;
    n in {0x09, 0x0A, 0x0B, 0x0C, 0x0D, 0x20, 0xA0, 0x1680, 0x2028, 0x2029, 0x202F, 0x205F, 0x3000, 0xFEFF}
    || 0x2000 <= n <= 0x200A
  }

  predicate AllWhiteSpace(s: string) { forall i :: 0 <= i < |s| ==> IsStrWhiteSpace(s[i]) }

  /** `s` with its leading white space removed. */
  function TrimStart(s: string): (t: string)
    ensures |t| <= |s|
    ensures t != [] ==> !IsStrWhiteSpace(t[0])
  {
    if s != [] && IsStrWhiteSpace(s[0]) then TrimStart(s[1..]) else s
  }

  /** `s` with its trailing white space removed. */
  function TrimEnd(s: string): (t: string)
    ensures |t| <= |s|
    ensures t != [] ==> !IsStrWhiteSpace(t[|t| - 1])
  {
    if s != [] && IsStrWhiteSpace(s[|s| - 1]) then TrimEnd(s[..|s| - 1]) else s
  }

  function Trim(s: string): string
  {
    TrimEnd(TrimStart(s))
  }

  predicate IsHexDigit(c: char) { IsDigit(c) || 'a' <= c <= 'f' || 'A' <= c <= 'F' }

  function HexDigitValue(c: char): (d: nat)
    requires IsHexDigit(c)
    ensures d < 16
  {
    if IsDigit(c) then DigitValue(c)
    else if 'a' <= c <= 'f' then (c as int) - ('a' as int) + 10
    else (c as int) - ('A' as int) + 10
  }

  /** The radix a `0x`, `0o` or `0b` prefix letter selects; 0 for any other character. */
  function RadixOf(c: char): nat
  {
    if c == 'x' || c == 'X' then 16
    else if c == 'o' || c == 'O' then 8
    else if c == 'b' || c == 'B' then 2
    else 0
  }

  predicate AllRadixDigits(s: string, radix: nat)
  {
    forall i :: 0 <= i < |s| ==> IsHexDigit(s[i]) && HexDigitValue(s[i]) < radix
  }

  /** The value of digits in the given radix; the empty string is 0. */
  function RadixValue(s: string, radix: nat): nat
    requires AllRadixDigits(s, radix)
  {
    if s == [] then 0 else radix * RadixValue(s[..|s| - 1], radix) + HexDigitValue(s[|s| - 1])
  }

  /** The StringIntegerLiteral grammar of ECMAScript, on trimmed text: empty,
      decimal digits with at most one sign, or a `0x`/`0o`/`0b` prefix with
      digits of that radix and no sign. */
  predicate IsIntegerLiteral(t: string)
  {
    || t == []
    || (AllDigits(t))
    || (|t| >= 2 && (t[0] == '-' || t[0] == '+') && AllDigits(t[1..]))
    || (|t| >= 3 && t[0] == '0' && RadixOf(t[1]) != 0 && AllRadixDigits(t[2..], RadixOf(t[1])))
  }

  /** The value of an integer literal. */
  function LiteralValue(t: string): int
    requires IsIntegerLiteral(t)
  {
    if t == [] then 0
    else if |t| >= 3 && t[0] == '0' && RadixOf(t[1]) != 0 && AllRadixDigits(t[2..], RadixOf(t[1])) then
      RadixValue(t[2..], RadixOf(t[1]))
    else if AllDigits(t) then DigitsValue(t)
    else if t[0] == '-' then -(DigitsValue(t[1..]) as int)
    else DigitsValue(t[1..])
  }

  /** `BigInt(str)`: surrounding white space is ignored, blank text is 0n,
      and anything that is not an integer literal throws a SyntaxError. */
  function ParseBigInt(s: string): (r: Result<int>)
    ensures r.Ok? <==> IsIntegerLiteral(Trim(s))
    ensures s != [] && AllDigits(s) ==> r == Ok(DigitsValue(s))
    ensures r.Err? ==> r.msg == "SyntaxError: Cannot convert " + s + " to a BigInt"
  {
    var t := Trim(s);
    assert s != [] && AllDigits(s) ==> t == s && IsIntegerLiteral(t) && LiteralValue(t) == DigitsValue(s) by {
      if s != [] && AllDigits(s) {
        TrimUntouched(s);
        assert !(|s| >= 3 && RadixOf(s[1]) != 0);
      }
    }
    if IsIntegerLiteral(t) then Ok(LiteralValue(t))
    else Err("SyntaxError: Cannot convert " + s + " to a BigInt")
  }

  /** Trimming removes only white space: what it drops from the front is
      white space and what it keeps is the rest of the text. */
  lemma {:induction false} TrimStartDropsWhiteSpace(s: string)
    ensures var t := TrimStart(s); t == s[|s| - |t|..] && AllWhiteSpace(s[..|s| - |t|])
  {
    if s != [] && IsStrWhiteSpace(s[0]) {
      TrimStartDropsWhiteSpace(s[1..]);
      var t := TrimStart(s);
      assert s[1..][|s| - 1 - |t|..] == s[|s| - |t|..];
      assert forall i :: 1 <= i < |s| - |t| ==> s[1..][..|s| - 1 - |t|][i - 1] == s[i];
    }
  }

  /** Likewise at the back. */
  lemma {:induction false} TrimEndDropsWhiteSpace(s: string)
    ensures var t := TrimEnd(s); t == s[..|t|] && AllWhiteSpace(s[|t|..])
  {
    if s != [] && IsStrWhiteSpace(s[|s| - 1]) {
      var s' := s[..|s| - 1];
      TrimEndDropsWhiteSpace(s');
      var t := TrimEnd(s);
      assert s'[..|t|] == s[..|t|];
      assert forall i :: |t| <= i < |s| - 1 ==> s'[|t|..][i - |t|] == s[i];
    }
  }

  /** Text that neither starts nor ends with white space is its own trim. */
  lemma TrimUntouched(t: string)
    requires t != [] && !IsStrWhiteSpace(t[0]) && !IsStrWhiteSpace(t[|t| - 1])
    ensures TrimStart(t) == t && TrimEnd(t) == t && Trim(t) == t
  {
  }

  /** Leading white space is dropped up to the first other character. */
  lemma {:induction false} TrimStartWhiteSpace(w: string, t: string)
    requires AllWhiteSpace(w) && t != [] && !IsStrWhiteSpace(t[0])
    ensures TrimStart(w + t) == t
  {
    if w != [] {
      assert (w + t)[1..] == w[1..] + t;
      TrimStartWhiteSpace(w[1..], t);
    } else {
      assert w + t == t;
    }
  }

  /** Trailing white space is dropped back to the last other character. */
  lemma {:induction false} TrimEndWhiteSpace(t: string, w: string)
    requires AllWhiteSpace(w) && t != [] && !IsStrWhiteSpace(t[|t| - 1])
    ensures TrimEnd(t + w) == t
  {
    if w != [] {
      var w' := w[..|w| - 1];
      assert (t + w)[..|t + w| - 1] == t + w';
      TrimEndWhiteSpace(t, w');
    } else {
      assert t + w == t;
    }
  }

  /** `BigInt` reads the same number whatever white space surrounds it. */
  lemma ParseIgnoresWhiteSpace(w1: string, t: string, w2: string)
    requires AllWhiteSpace(w1) && AllWhiteSpace(w2)
    requires t != [] && !IsStrWhiteSpace(t[0]) && !IsStrWhiteSpace(t[|t| - 1])
    ensures ParseBigInt(w1 + t + w2).Ok? <==> ParseBigInt(t).Ok?
    ensures ParseBigInt(t).Ok? ==> ParseBigInt(w1 + t + w2).value == ParseBigInt(t).value
  {
    assert w1 + t + w2 == w1 + (t + w2);
    TrimStartWhiteSpace(w1, t + w2);
    TrimEndWhiteSpace(t, w2);
    TrimUntouched(t);
  }

  /** A `0x`, `0o` or `0b` prefix reads the digits in that radix. */
  lemma ParseNonDecimal(prefix: char, digits: string)
    requires RadixOf(prefix) != 0 && digits != [] && AllRadixDigits(digits, RadixOf(prefix))
    ensures ParseBigInt(['0', prefix] + digits) == Ok(RadixValue(digits, RadixOf(prefix)))
  {
    var t := ['0', prefix] + digits;
    assert t[|t| - 1] == digits[|digits| - 1];
    TrimUntouched(t);
    assert t[2..] == digits;
  }

  /** One sign in front of decimal digits gives the signed value. */
  lemma ParseSigned(sign: char, digits: string)
    requires (sign == '-' || sign == '+') && digits != [] && AllDigits(digits)
    ensures ParseBigInt([sign] + digits) == Ok(if sign == '-' then -(DigitsValue(digits) as int) else DigitsValue(digits))
  {
    var t := [sign] + digits;
    assert t[0] == sign && t[1..] == digits;
    assert t[|t| - 1] == digits[|digits| - 1];
    TrimUntouched(t);
    assert !AllDigits(t) by { assert !IsDigit(t[0]); }
    assert IsIntegerLiteral(t);
    assert LiteralValue(t) == if sign == '-' then -(DigitsValue(digits) as int) else DigitsValue(digits);
    assert ParseBigInt(t) == Ok(LiteralValue(t));
  }

  /** A sign in front of a `0x`, `0o` or `0b` prefix is refused. */
  lemma SignedRadixRefused(sign: char, prefix: char, digits: string)
    requires (sign == '-' || sign == '+') && RadixOf(prefix) != 0 && digits != [] && AllDigits(digits)
    ensures ParseBigInt([sign, '0', prefix] + digits).Err?
  {
    var t := [sign, '0', prefix] + digits;
    assert t[|t| - 1] == digits[|digits| - 1];
    TrimUntouched(t);
    assert !IsDigit(t[0]) && !IsDigit(t[2]);
    assert !AllDigits(t[1..]) by { assert t[1..][1] == prefix; }
  }

  /** `s.padStart(len, c)`. */
  function PadStart(s: string, len: nat, c: char): (r: string)
    ensures |r| == if |s| >= len then |s| else len
    ensures r[|r| - |s|..] == s
    ensures forall i :: 0 <= i < |r| - |s| ==> r[i] == c
  {
    if |s| >= len then s else seq(len - |s|, _ => c) + s
  }

  lemma {:induction false} NatToStringValue(n: nat)
    ensures DigitsValue(NatToString(n)) == n
  {
    if n >= 10 {
      NatToStringValue(n / 10);
      var s := NatToString(n);
      assert s[..|s| - 1] == NatToString(n / 10);
    }
  }

  /** Round trip of the stored balance: `BigInt(x.toString()) === x`. */
  lemma ParseIntToString(x: int)
    ensures ParseBigInt(IntToString(x)) == Ok(x)
  {
    var s := IntToString(x);
    if x < 0 {
      NatToStringValue(-x);
      assert s[1..] == NatToString(-x);
      assert s[|s| - 1] == s[1..][|s| - 2];
      TrimUntouched(s);
      assert !AllDigits(s) by { assert !IsDigit(s[0]); }
    } else {
      NatToStringValue(x);
      TrimUntouched(s);
    }
  }

  /** Splitting digit text: the value of `a + b` is `a` shifted by `|b|` digits plus `b`. */
  lemma {:induction false} DigitsValueConcat(a: string, b: string)
    requires AllDigits(a) && AllDigits(b)
    ensures AllDigits(a + b)
    ensures DigitsValue(a + b) == DigitsValue(a) * Pow10(|b|) + DigitsValue(b)
  {
    if b != [] {
      var b' := b[..|b| - 1];
      DigitsValueConcat(a, b');
      var d := DigitValue(b[|b| - 1]);
      assert (a + b)[..|a + b| - 1] == a + b';
      assert DigitsValue(a + b) == 10 * DigitsValue(a + b') + d;
      assert DigitsValue(b) == 10 * DigitsValue(b') + d by { assert b[..|b| - 1] == b'; }
      ShiftStep(DigitsValue(a), Pow10(|b'|), DigitsValue(b'), d);
    } else {
      assert a + b == a;
    }
  }

  /** Appending a digit to both sides of `x * p + y`. */
  lemma ShiftStep(x: nat, p: nat, y: nat, d: nat)
    ensures 10 * (x * p + y) + d == x * (10 * p) + (10 * y + d)
  {
  }

  /** Leading zeros do not change the value of digit text. */
  lemma {:induction false} LeadingZerosValue(k: nat, s: string)
    requires AllDigits(s)
    ensures AllDigits(seq(k, _ => '0') + s)
    ensures DigitsValue(seq(k, _ => '0') + s) == DigitsValue(s)
  {
    ZerosValue(k);
    DigitsValueConcat(seq(k, _ => '0'), s);
  }

  lemma {:induction false} ZerosValue(k: nat)
    ensures AllDigits(seq(k, _ => '0'))
    ensures DigitsValue(seq(k, _ => '0')) == 0
  {
    if k > 0 {
      ZerosValue(k - 1);
      assert seq(k, _ => '0')[..k - 1] == seq(k - 1, _ => '0');
    }
  }
}
