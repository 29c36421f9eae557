/**
 * The quantity stepper (frontend/src/components/TableQty.tsx): a minus
 * button, a typed number input and a plus button, each emitting the new
 * quantity through `onChange`. The typed value goes through JavaScript's
 * `parseInt`, modelled here with its prefix semantics; a text with no number
 * in it (`parseInt` gives NaN) is the `None` case.
 */
module TableQty {
  import opened Common

  /** `onChange(Math.max(0, value - 1))`. */
  function Minus(value: int): (r: int)
    ensures r >= 0
    ensures value >= 1 ==> r == value - 1
    ensures value <= 1 ==> r == 0
  {
    if value - 1 > 0 then value - 1 else 0
  }

  /** `onChange(value + 1)`. */
  function Plus(value: int): int
  {
    value + 1
  }

  /** On any value of 1 or more, minus then plus comes back to it. */
  lemma MinusThenPlus(value: int)
    requires value >= 1
    ensures Plus(Minus(value)) == value
  {
  }

  /** Plus then minus comes back to any non-negative value. */
  lemma PlusThenMinus(value: int)
    requires value >= 0
    ensures Minus(Plus(value)) == value
  {
  }

  // ---------------------------------------------------------------------------
  // parseInt(s) with no radix argument
  // ---------------------------------------------------------------------------

  predicate IsHexLetter(c: char)
  {
    ('a' <= c <= 'f') || ('A' <= c <= 'F')
  }

  predicate IsRadixDigit(c: char, radix: int)
  {
    IsAsciiDigit(c) || (radix == 16 && IsHexLetter(c))
  }

  function DigitValue(c: char): (d: nat)
    ensures IsAsciiDigit(c) ==> d == c as int - '0' as int
  {
    if IsAsciiDigit(c) then c as int - '0' as int
    else if 'a' <= c <= 'f' then c as int - 'a' as int + 10
    else if 'A' <= c <= 'F' then c as int - 'A' as int + 10
    else 0
  }

  function DropLeadingSpace(s: string): (r: string)
    ensures |r| <= |s|
  {
    if s != [] && IsJsSpace(s[0]) then DropLeadingSpace(s[1..]) else s
  }

  /** Length of the longest prefix of `s` made of digits of `radix`. */
  function DigitRun(s: string, radix: int): (n: nat)
    ensures n <= |s|
  {
    if s != [] && IsRadixDigit(s[0], radix) then 1 + DigitRun(s[1..], radix) else 0
  }

  /** The value of a digit string, most significant digit first. */
  function DigitsValue(ds: string, radix: nat): nat
  {
    if ds == [] then 0 else DigitsValue(ds[..|ds| - 1], radix) * radix + DigitValue(ds[|ds| - 1])
  }

  /**
   * `parseInt(s)`: skip leading white space, read an optional sign, switch to
   * base 16 after a `0x`/`0X` prefix, then read the longest run of digits and
   * ignore the rest (so `"12.7"` reads 12 and `"3e5"` reads 3). No digit at all
   * is NaN, here `None`.
   */
  function ParseInt(s: string): Option<int>
  {
    var t := DropLeadingSpace(s);
    var negative := t != [] && t[0] == '-';
    var unsigned := if t != [] && (t[0] == '-' || t[0] == '+') then t[1..] else t;
    var hex := |unsigned| >= 2 && unsigned[0] == '0' && (unsigned[1] == 'x' || unsigned[1] == 'X');
    var radix := if hex then 16 else 10;
    var body := if hex then unsigned[2..] else unsigned;
    var n := DigitRun(body, radix);
    if n == 0 then None
    else
      var magnitude: int := DigitsValue(body[..n], radix);
      Some(if negative then -magnitude else magnitude)
  }

  /**
   * The typed handler, `onChange(Math.max(0, parseInt(e.target.value || '0')))`:
   * empty text counts as `"0"`; `None` is the NaN the handler would emit.
   */
  function Typed(text: string): (r: Option<int>)
    ensures r.Some? ==> r.value >= 0
  {
    match ParseInt(if text == "" then "0" else text)
    case None => None
    case Some(n) => Some(if n > 0 then n else 0)
  }

  // ---------------------------------------------------------------------------
  // Decimal rendering, the partner of ParseInt
  // ---------------------------------------------------------------------------

  function DigitChar(d: nat): char
    requires d < 10
  {
    ('0' as int + d) as char
  }

  /** The decimal digits of `n`, without sign or leading zeros. */
  function Show(n: nat): string
  {
    if n < 10 then [DigitChar(n)] else Show(n / 10) + [DigitChar(n % 10)]
  }

  lemma {:induction false} ShowShape(n: nat)
    ensures |Show(n)| >= 1
    ensures forall i :: 0 <= i < |Show(n)| ==> IsAsciiDigit(Show(n)[i])
    ensures Show(n)[0] == '0' ==> n == 0 && |Show(n)| == 1
    ensures DigitsValue(Show(n), 10) == n
  {
    if n >= 10 {
      ShowShape(n / 10);
      var s := Show(n);
      assert s[..|s| - 1] == Show(n / 10);
      assert s[0] == Show(n / 10)[0];
    }
  }

  lemma {:induction false} DigitRunOfDigits(a: string, b: string)
    requires forall i :: 0 <= i < |a| ==> IsAsciiDigit(a[i])
    requires b == [] || !IsAsciiDigit(b[0])
    ensures DigitRun(a + b, 10) == |a|
    decreases |a|
  {
    if a == [] {
      assert a + b == b;
    } else {
      assert (a + b)[1..] == a[1..] + b;
      DigitRunOfDigits(a[1..], b);
    }
  }

  /**
   * `parseInt` reads a rendered number back, whatever follows it, as long as
   * the next character is not a digit (and, after a single `0`, is not the `x`
   * of a hexadecimal prefix).
   */
  lemma ParseIntPrefix(n: nat, rest: string)
    requires rest == [] || !IsAsciiDigit(rest[0])
    requires n == 0 && rest != [] ==> rest[0] != 'x' && rest[0] != 'X'
    ensures ParseInt(Show(n) + rest) == Some(n)
  {
    ShowShape(n);
    var s := Show(n) + rest;
    assert s[0] == Show(n)[0];
    assert DropLeadingSpace(s) == s;
    if |s| >= 2 && s[0] == '0' {
      assert s[1] == rest[0];
    }
    DigitRunOfDigits(Show(n), rest);
    assert s[..|Show(n)|] == Show(n);
  }

  /** `parseInt(String(n)) == n`. */
  lemma ParseShowRoundTrip(n: nat)
    ensures ParseInt(Show(n)) == Some(n)
  {
    ParseIntPrefix(n, []);
    assert Show(n) + [] == Show(n);
  }

  /** Typing a number emits it, and anything after it (a fraction, an exponent) is cut off. */
  lemma TypedNumber(n: nat, rest: string)
    requires rest == [] || !IsAsciiDigit(rest[0])
    requires n == 0 && rest != [] ==> rest[0] != 'x' && rest[0] != 'X'
    ensures Typed(Show(n) + rest) == Some(n)
  {
    ShowShape(n);
    ParseIntPrefix(n, rest);
  }

  /** Typing a negative integer emits 0. */
  lemma {:induction false} TypedNegative(n: nat, rest: string)
    requires rest == [] || !IsAsciiDigit(rest[0])
    requires n == 0 && rest != [] ==> rest[0] != 'x' && rest[0] != 'X'
    ensures Typed("-" + Show(n) + rest) == Some(0)
  {
    ShowShape(n);
    var s := "-" + Show(n) + rest;
    assert s[1..] == Show(n) + rest;
    assert DropLeadingSpace(s) == s;
    var u := Show(n) + rest;
    assert u[0] == Show(n)[0];
    if |u| >= 2 && u[0] == '0' {
      assert u[1] == rest[0];
    }
    DigitRunOfDigits(Show(n), rest);
    assert u[..|Show(n)|] == Show(n);
  }

  /** Clearing the field emits 0. */
  lemma TypedEmpty()
    ensures Typed("") == Some(0)
  {
    ParseShowRoundTrip(0);
  }

  /**
   * A text with no leading number emits NaN: its first character is neither
   * white space, a sign nor a digit (a letter, `a`–`f` and `x` included).
   */
  lemma TypedNoNumber(c: char, rest: string)
    requires !IsJsSpace(c) && c != '+' && c != '-' && !IsAsciiDigit(c)
    ensures Typed([c] + rest) == None
  {
    var s := [c] + rest;
    assert s[0] == c;
    assert DropLeadingSpace(s) == s;
  }
}
