/**
  Uppercase hexadecimal text as the decoders produce it with Python's format specifier
  `{v:0{w}X}` (at least `w` digits, zero-padded on the left, digits 0-9 and A-F), and
  Python's `int(s, 16)` on the strings they produce, which accepts an optional `0x` prefix.
*/
module Hex {
  import opened Options
  import opened Bytes

  const DIGITS: string := "0123456789ABCDEF"

  function Pow16(n: nat): (r: nat)
    ensures r >= 1
  {
    if n == 0 then 1 else 16 * Pow16(n - 1)
  }

  /** `format(v, 'X')`: the shortest uppercase digit string, "0" for zero. */
  function Digits(v: nat): (r: string)
    ensures 1 <= |r|
    ensures forall i :: 0 <= i < |r| ==> r[i] in DIGITS
    decreases v
  {
    if v < 16 then [DIGITS[v]] else Digits(v / 16) + [DIGITS[v % 16]]
  }

  function Zeros(n: nat): (r: string)
    ensures |r| == n
    ensures forall i :: 0 <= i < n ==> r[i] == '0'
  {
    seq(n, _ => '0')
  }

  /** `f"{v:0{width}X}"`. */
  function Format(v: nat, width: nat): (r: string)
    ensures width <= |r|
    ensures forall i :: 0 <= i < |r| ==> r[i] in DIGITS
  {
    var d := Digits(v);
    if |d| >= width then d else Zeros(width - |d|) + d
  }

  /** `f"0x{v:0{width}X}"`. */
  function Literal(v: nat, width: nat): (r: string)
    ensures |r| >= 2 && r[..2] == "0x"
  {
    "0x" + Format(v, width)
  }

  /** The value of one hex digit of either case, as `int(_, 16)` reads it. */
  function DigitValue(c: char): (r: Option<nat>)
    ensures r.Some? ==> r.value < 16
  {
    if '0' <= c <= '9' then Some(c as int - '0' as int)
    else if 'A' <= c <= 'F' then Some(c as int - 'A' as int + 10)
    else if 'a' <= c <= 'f' then Some(c as int - 'a' as int + 10)
    else None
  }

  /** The value of a non-empty run of hex digits, most significant first; None for anything else. */
  function ParseDigits(s: string): (r: Option<nat>)
  {
    if s == [] then None
    else
      var d := DigitValue(s[|s| - 1]);
      if d.None? then None
      else if |s| == 1 then d
      else
        match ParseDigits(s[..|s| - 1])
        case None => None
        case Some(h) => Some(16 * h + d.value)
  }

  /** `int(s, 16)` on digit strings with an optional `0x`/`0X` prefix; None where Python raises `ValueError`. */
  function ParseInt16(s: string): (r: Option<nat>)
  {
    if |s| >= 2 && s[0] == '0' && (s[1] == 'x' || s[1] == 'X') then ParseDigits(s[2..]) else ParseDigits(s)
  }

  lemma DigitValueOfDigit(d: nat)
    requires d < 16
    ensures DigitValue(DIGITS[d]) == Some(d)
  {
  }

  /** Appending one digit to a digit run multiplies its value by 16 and adds the digit. */
  lemma ParseDigitsSnoc(t: string, d: nat)
    requires t != [] && d < 16
    ensures ParseDigits(t + [DIGITS[d]]) == if ParseDigits(t).None? then None else Some(16 * ParseDigits(t).value + d)
  {
    DigitValueOfDigit(d);
    var s := t + [DIGITS[d]];
    assert s[..|s| - 1] == t;
  }

  lemma {:induction false} ParseDigitsOfDigits(v: nat)
    ensures ParseDigits(Digits(v)) == Some(v)
    decreases v
  {
    if v < 16 {
      DigitValueOfDigit(v);
    } else {
      ParseDigitsOfDigits(v / 16);
      ParseDigitsSnoc(Digits(v / 16), v % 16);
    }
  }

  lemma {:induction false} ParseDigitsOfZeros(n: nat)
    requires n >= 1
    ensures ParseDigits(Zeros(n)) == Some(0)
  {
    if n > 1 {
      assert Zeros(n)[..n - 1] == Zeros(n - 1);
      ParseDigitsOfZeros(n - 1);
    }
  }

  /** Leading zeros do not change the value `int(_, 16)` reads. */
  lemma {:induction false} ParseDigitsPadded(n: nat, s: string)
    requires n >= 1 && s != []
    ensures ParseDigits(Zeros(n) + s) == ParseDigits(s)
    decreases |s|
  {
    var t := Zeros(n) + s;
    assert t[|t| - 1] == s[|s| - 1];
    if |s| == 1 {
      assert t[..|t| - 1] == Zeros(n);
      ParseDigitsOfZeros(n);
    } else {
      assert t[..|t| - 1] == Zeros(n) + s[..|s| - 1];
      ParseDigitsPadded(n, s[..|s| - 1]);
    }
  }

  /** The formatted text parses back to the value it was made from, whatever the width. */
  lemma ParseFormat(v: nat, width: nat)
    ensures ParseDigits(Format(v, width)) == Some(v)
    ensures ParseInt16(Literal(v, width)) == Some(v)
  {
    ParseDigitsOfDigits(v);
    var d := Digits(v);
    if |d| < width {
      ParseDigitsPadded(width - |d|, d);
    }
    assert Literal(v, width)[2..] == Format(v, width);
  }

  lemma {:induction false} DigitsFit(v: nat, width: nat)
    requires width >= 1 && v < Pow16(width)
    ensures |Digits(v)| <= width
    decreases v
  {
    if v >= 16 {
      assert width >= 2;
      DigitsFit(v / 16, width - 1);
    }
  }

  /** A value below 16^width is formatted with exactly `width` digits, so that `Literal` has `2 + width` characters. */
  lemma FormatWidth(v: nat, width: nat)
    requires width >= 1 && v < Pow16(width)
    ensures |Format(v, width)| == width
    ensures |Literal(v, width)| == width + 2
  {
    DigitsFit(v, width);
  }

  /** n bytes take 2n hex digits. */
  lemma {:induction false} Pow256IsPow16(n: nat)
    ensures Pow256(n) == Pow16(2 * n)
  {
    if n > 0 {
      Pow256IsPow16(n - 1);
      assert Pow16(2 * n) == 16 * 16 * Pow16(2 * (n - 1));
    }
  }
}
