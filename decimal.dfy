/** Decimal text of unsigned integers, as the Rust standard library writes
    it (`{}`, `{:02}`, `{:4}`) and reads it (`str::parse` for an unsigned
    type). */
module Decimal {
  import opened Base

  predicate IsDigit(c: char) { '0' <= c <= '9' }

  predicate AllDigits(s: string) { forall i :: 0 <= i < |s| ==> IsDigit(s[i]) }

  /** Text made only of plus signs and digits. */
  predicate Numeral(s: string) { forall i :: 0 <= i < |s| ==> s[i] == '+' || IsDigit(s[i]) }

  function DigitChar(d: nat): (c: char)
    requires d < 10
    ensures IsDigit(c)
  {
    ('0' as int + d) as char
  }

  /** The number a digit string denotes, most significant digit first. */
  function ValueOf(s: string): nat
    requires AllDigits(s)
  {
    if s == [] then 0 else 10 * ValueOf(s[..|s| - 1]) + (s[|s| - 1] as int - '0' as int)
  }

  function Pow10(k: nat): (p: nat)
    ensures p >= 1
  {
    if k == 0 then 1 else 10 * Pow10(k - 1)
  }

  /** `format!("{}", n)`: the shortest digit string denoting `n`. */
  function ToDecimal(n: nat): (r: string)
    ensures 1 <= |r| && AllDigits(r)
    ensures ValueOf(r) == n
    ensures r[0] == '0' <==> n == 0
    ensures ':' !in r && '/' !in r && ' ' !in r
  {
    if n < 10 then [DigitChar(n)]
    else
      var front := ToDecimal(n / 10);
      var r := front + [DigitChar(n % 10)];
      assert r[..|r| - 1] == front;
      r
  }

  /** `n` needs no more than `k` digits when it is below `10^k`. */
  lemma {:induction false} TextWidth(n: nat, k: nat)
    requires 1 <= k && n < Pow10(k)
    ensures |ToDecimal(n)| <= k
  {
    if n >= 10 {
      TextWidth(n / 10, k - 1);
    }
  }

  /** Left padding with `fill` up to `width` characters, as Rust's
      width specifier does for numbers. */
  function PadLeft(s: string, width: nat, fill: char): (r: string)
    ensures |r| == if |s| >= width then |s| else width
    ensures r[|r| - |s|..] == s
    ensures forall i :: 0 <= i < |r| - |s| ==> r[i] == fill
  {
    if |s| >= width then s else Repeat(fill, width - |s|) + s
  }

  /** `format!("{:02}", n)`. */
  function Pad2(n: nat): (r: string)
    ensures AllDigits(r) && ValueOf(r) == n
    ensures n < 100 ==> |r| == 2
    ensures ':' !in r
  {
    var t := ToDecimal(n);
    assert n < 100 ==> |t| <= 2 by {
      if n < 100 { TextWidth(n, 2); }
    }
    if |t| >= 2 then t
    else
      assert t == [t[0]];
      var r := ['0'] + t;
      assert r[..1] == ['0'];
      r
  }

  /** `s.parse::<uN>()` for an unsigned type whose largest value is `max`:
      an optional leading `+`, then at least one digit, and no overflow.
      `None` stands for Rust's `ParseIntError`. */
  function ParseUnsigned(s: string, max: nat): (r: Option<nat>)
    ensures r.Some? ==> r.value <= max
  {
    var digits := if |s| > 0 && s[0] == '+' then s[1..] else s;
    if |digits| > 0 && AllDigits(digits) && ValueOf(digits) <= max then Some(ValueOf(digits))
    else None
  }

  /** Reading back what `{}` wrote gives the number again. */
  lemma {:induction false} ParseText(n: nat, max: nat)
    requires n <= max
    ensures ParseUnsigned(ToDecimal(n), max) == Some(n)
  {
    assert ToDecimal(n)[0] != '+';
  }

  /** A minus sign is never accepted for an unsigned type. */
  lemma {:induction false} ParseRejectsMinus(s: string, max: nat)
    requires |s| > 0 && s[0] == '-'
    ensures ParseUnsigned(s, max) == None
  {
    assert !IsDigit(s[0]);
  }

  function Sign(plus: bool): string
  {
    if plus then "+" else ""
  }

  /** The text of `n` with an optional `+` and `z` leading zeros. */
  function Denote(plus: bool, z: nat, n: nat): string
  {
    Sign(plus) + (Repeat('0', z) + ToDecimal(n))
  }

  /** The texts that denote `n`: an optional `+`, any number of leading
      zeros, then the `{}` text of `n`. */
  ghost predicate Spells(s: string, n: nat)
  {
    exists plus: bool, z: nat :: s == Denote(plus, z, n)
  }

  /** Leading zeros do not change the value. */
  lemma {:induction false} ZerosValue(z: nat, t: string)
    requires AllDigits(t)
    ensures AllDigits(Repeat('0', z) + t)
    ensures ValueOf(Repeat('0', z) + t) == ValueOf(t)
    decreases z + |t|
  {
    var u := Repeat('0', z) + t;
    if t == [] {
      assert u == Repeat('0', z);
      if z > 0 {
        assert u[..|u| - 1] == Repeat('0', z - 1) + [];
        ZerosValue(z - 1, []);
      }
    } else {
      assert u[..|u| - 1] == Repeat('0', z) + t[..|t| - 1];
      ZerosValue(z, t[..|t| - 1]);
    }
  }

  /** A digit string without a superfluous leading zero is the `{}` text
      of its value. */
  lemma {:induction false} CanonicalText(d: string)
    requires 1 <= |d| && AllDigits(d) && (d[0] == '0' ==> |d| == 1)
    ensures ToDecimal(ValueOf(d)) == d
    decreases |d|
  {
    if |d| == 1 {
      assert d[..0] == [];
    } else {
      var p := d[..|d| - 1];
      CanonicalText(p);
      var n := ValueOf(d);
      assert n == 10 * ValueOf(p) + (d[|d| - 1] as int - '0' as int);
      assert ValueOf(p) != 0;
      assert n / 10 == ValueOf(p) && n % 10 == d[|d| - 1] as int - '0' as int;
      assert d == p + [d[|d| - 1]];
    }
  }

  /** A zero in front of `z` zeros is `z + 1` zeros. */
  lemma {:induction false} OneMoreZero(z: nat, t: string)
    ensures Repeat('0', 1) + (Repeat('0', z) + t) == Repeat('0', z + 1) + t
  {
    var a, b := Repeat('0', 1) + (Repeat('0', z) + t), Repeat('0', z + 1) + t;
    assert |a| == |b|;
    forall i | 0 <= i < |a| ensures a[i] == b[i] {
      if i == 0 {
      } else if i <= z {
        assert a[i] == (Repeat('0', z) + t)[i - 1];
      } else {
        assert a[i] == t[i - 1 - z];
      }
    }
  }

  /** Every digit string is some leading zeros followed by the `{}` text
      of its value. */
  lemma {:induction false} StripZeros(d: string) returns (z: nat)
    requires 1 <= |d| && AllDigits(d)
    ensures d == Repeat('0', z) + ToDecimal(ValueOf(d))
    decreases |d|
  {
    if d[0] == '0' && |d| > 1 {
      var rest := d[1..];
      var z' := StripZeros(rest);
      assert d == Repeat('0', 1) + rest;
      ZerosValue(1, rest);
      z := z' + 1;
      OneMoreZero(z', ToDecimal(ValueOf(rest)));
    } else {
      CanonicalText(d);
      z := 0;
      assert Repeat('0', 0) == [];
    }
  }

  /** Whatever `parse` accepts denotes the number it gives. */
  lemma {:induction false} ParseSpells(s: string, max: nat)
    requires ParseUnsigned(s, max).Some?
    ensures Spells(s, ParseUnsigned(s, max).value)
  {
    var plus := |s| > 0 && s[0] == '+';
    var digits := if plus then s[1..] else s;
    var z := StripZeros(digits);
    if plus {
      assert s == "+" + digits;
    }
    assert s == Denote(plus, z, ParseUnsigned(s, max).value);
  }

  /** Every text denoting a number in range is accepted, with that number. */
  lemma {:induction false} SpellsParse(s: string, max: nat, n: nat)
    requires n <= max && Spells(s, n)
    ensures ParseUnsigned(s, max) == Some(n)
  {
    var plus: bool, z: nat :| s == Denote(plus, z, n);
    var t := Repeat('0', z) + ToDecimal(n);
    ZerosValue(z, ToDecimal(n));
    assert |t| > 0 && t[0] != '+';
    var digits := if |s| > 0 && s[0] == '+' then s[1..] else s;
    assert digits == t by {
      if plus {
        assert s == "+" + t;
      } else {
        assert s == t;
      }
    }
    assert ParseUnsigned(s, max) == Some(ValueOf(t));
  }

  /** `parse` accepts exactly the texts that denote a number in range, and
      gives that number. */
  lemma {:induction false} ParseExact(s: string, max: nat, n: nat)
    ensures ParseUnsigned(s, max) == Some(n) <==> n <= max && Spells(s, n)
  {
    if ParseUnsigned(s, max) == Some(n) {
      ParseSpells(s, max);
    }
    if n <= max && Spells(s, n) {
      SpellsParse(s, max, n);
    }
  }

  /** A text denoting a number holds nothing but a sign and digits. */
  lemma {:induction false} SpellsChars(s: string, n: nat)
    requires Spells(s, n)
    ensures Numeral(s)
  {
    var plus: bool, z: nat :| s == Denote(plus, z, n);
    var t := Repeat('0', z) + ToDecimal(n);
    assert AllDigits(t);
    assert s == Sign(plus) + t;
  }

  /** Worked values: signs, leading zeros, and what is rejected. */
  lemma {:induction false} ParseExamples()
    ensures ParseUnsigned("12", 100) == Some(12)
    ensures ParseUnsigned("+007", 100) == Some(7)
    ensures ParseUnsigned("12a", 100) == None
    ensures ParseUnsigned("", 100) == None
    ensures ParseUnsigned("+", 100) == None
    ensures ParseUnsigned("101", 100) == None
  {
    assert ValueOf("1") == 1 by { assert "1"[..0] == ""; }
    assert ValueOf("12") == 12 by { assert "12"[..1] == "1"; }
    assert ValueOf("10") == 10 by { assert "10"[..1] == "1"; }
    assert ValueOf("101") == 101 by { assert "101"[..2] == "10"; }
    assert ValueOf("0") == 0 by { assert "0"[..0] == ""; }
    assert ValueOf("00") == 0 by { assert "00"[..1] == "0"; }
    assert ValueOf("007") == 7 by { assert "007"[..2] == "00"; }
    assert "+007"[1..] == "007";
    assert "12a"[2] == 'a';
  }
}
