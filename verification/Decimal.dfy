/** The two hand-written integer printers, with Go's int64 negation, and the text they produce. */
module Decimal {
  import opened Common

  /** Go's unary minus on int64: the least value is its own negation. */
  function Negate(n: int): int
    requires IsInt64(n)
  {
    if n == -TWO_63 then n else -n
  }

  predicate IsDigit(c: char) { '0' <= c <= '9' }

  function Digit(d: int): (c: char)
    requires 0 <= d < 10
    ensures IsDigit(c) && c as int - '0' as int == d
  {
    ('0' as int + d) as char
  }

  /** The digits of a positive number, most significant first. */
  function Digits(n: nat): string {
    if n == 0 then "" else Digits(n / 10) + [Digit(n % 10)]
  }

  /** `itoa` in the router. */
  function RouterText(n: int): string
    requires IsInt64(n)
  {
    if n == 0 then "0"
    else if n > 0 then Digits(n)
    else "-" + (if Negate(n) > 0 then Digits(Negate(n)) else "")
  }

  /** `itoa` in main: no sign, and the loop does not run for a negative number. */
  function MainText(n: int): string
    requires IsInt64(n)
  {
    if n == 0 then "0" else if n > 0 then Digits(n) else ""
  }

  // ---- reading back ----

  predicate AllDigits(s: string) { forall i :: 0 <= i < |s| ==> IsDigit(s[i]) }

  function ReadDigits(s: string): nat
    requires AllDigits(s)
  {
    if s == "" then 0 else ReadDigits(s[..|s| - 1]) * 10 + (s[|s| - 1] as int - '0' as int)
  }

  /** The `int` rule of section 6 of RFC 8259: a zero alone, or no leading zero; an optional minus before it. */
  predicate IsJsonInt(s: string) {
    var body := if s != "" && s[0] == '-' then s[1..] else s;
    body != "" && AllDigits(body) && (body[0] == '0' ==> body == "0")
  }

  function ReadInt(s: string): int
    requires IsJsonInt(s)
  {
    if s[0] == '-' then 0 - ReadDigits(s[1..]) else ReadDigits(s)
  }

  lemma OneMoreDigit(s: string, d: int)
    requires AllDigits(s) && 0 <= d < 10
    ensures AllDigits(s + [Digit(d)]) && ReadDigits(s + [Digit(d)]) == ReadDigits(s) * 10 + d
  {
  }

  lemma {:induction false} DigitsReadBack(n: nat)
    ensures AllDigits(Digits(n)) && ReadDigits(Digits(n)) == n
  {
    if n > 0 {
      DigitsReadBack(n / 10);
      OneMoreDigit(Digits(n / 10), n % 10);
    }
  }

  lemma {:induction false} NoLeadingZero(n: nat)
    requires n > 0
    ensures Digits(n) != "" && Digits(n)[0] != '0'
  {
    if n >= 10 {
      NoLeadingZero(n / 10);
    } else {
      assert Digits(n / 10) == "";
      assert Digit(n) != '0';
    }
  }

  lemma PositiveText(n: nat)
    requires n > 0
    ensures var s := Digits(n); s != "" && AllDigits(s) && s[0] != '0' && s[0] != '-' && ReadDigits(s) == n
  {
    DigitsReadBack(n);
    NoLeadingZero(n);
  }

  lemma NegativeText(n: int)
    requires -TWO_63 < n < 0
    ensures IsJsonInt(RouterText(n)) && ReadInt(RouterText(n)) == n
  {
    PositiveText(-n);
    assert RouterText(n)[1..] == Digits(-n);
  }

  /** Round trip: the router's text is a JSON integer that reads back as the number exactly when the number is not
      the least int64, for which it is a bare minus sign. */
  lemma RouterRoundTrip(n: int)
    requires IsInt64(n)
    ensures IsJsonInt(RouterText(n)) && ReadInt(RouterText(n)) == n <==> n != -TWO_63
    ensures n == -TWO_63 ==> RouterText(n) == "-"
  {
    if n > 0 {
      PositiveText(n);
    } else if -TWO_63 < n < 0 {
      NegativeText(n);
    } else if n == 0 {
      OneMoreDigit("", 0);
      assert "" + [Digit(0)] == "0";
    } else {
      assert RouterText(n) == "-" && "-"[1..] == "";
    }
  }

  /** The copy in main agrees with it exactly on the numbers that are not negative, and prints nothing for the others.
      */
  lemma PrintersAgree(n: int)
    requires IsInt64(n)
    ensures MainText(n) == RouterText(n) <==> n >= 0
    ensures n < 0 ==> MainText(n) == ""
  {
  }

  /** The router's loop, prepending one digit per turn. */
  method RouterItoa(value: int) returns (s: string)
    requires IsInt64(value)
    ensures s == RouterText(value)
  {
    if value == 0 {
      return "0";
    }
    var n, neg := value, false;
    if n < 0 {
      neg := true;
      n := Negate(n);
    }
    var b := Prepend(n);
    if neg {
      b := "-" + b;
    }
    return b;
  }

  method MainItoa(value: int) returns (s: string)
    requires IsInt64(value)
    ensures s == MainText(value)
  {
    if value == 0 {
      return "0";
    }
    s := Prepend(value);
  }

  /** The digit loop both copies share; it does not run unless the number is positive. */
  method Prepend(value: int) returns (b: string)
    ensures b == if value > 0 then Digits(value) else ""
  {
    b := "";
    var n := value;
    while n > 0
      invariant value > 0 ==> n >= 0 && Digits(n) + b == Digits(value)
      invariant value <= 0 ==> n == value && b == ""
    {
      ghost var before := b;
      b := [Digit(n % 10)] + b;
      assert Digits(n / 10) + b == Digits(n) + before;
      n := n / 10;
    }
  }
}
