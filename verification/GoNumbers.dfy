/** Go's fixed-width integers and their decimal notation. */
module GoNumbers {
  import opened Wrappers

  const TWO_63: int := 0x8000_0000_0000_0000
  const TWO_31: int := 0x8000_0000

  type int32 = x: int | -TWO_31 <= x < TWO_31

  predicate FitsInt64(x: int) {
    -TWO_63 <= x < TWO_63
  }

  /** The result of 64-bit arithmetic whose exact value is x. */
  function Wrap64(x: int): (w: int)
    ensures FitsInt64(w)
    ensures FitsInt64(x) ==> w == x
    ensures (x - w) % (2 * TWO_63) == 0
    ensures x >= 0 ==> w <= x
  {
    (x + TWO_63) % (2 * TWO_63) - TWO_63
  }

  /** Division by two, toward zero. */
  function Half(x: int): (h: int)
    ensures x >= 0 ==> 0 <= 2 * h <= x <= 2 * h + 1
    ensures x <= 0 ==> 2 * h - 1 <= x <= 2 * h <= 0
  {
    if x >= 0 then x / 2 else -(-x / 2)
  }

  // ---- Decimal notation ----

  function Digit(d: int): char
    requires 0 <= d < 10
  {
    "0123456789"[d]
  }

  predicate IsDigit(c: char) {
    '0' <= c <= '9'
  }

  function DigitValue(c: char): int
    requires IsDigit(c)
  {
    c as int - '0' as int
  }

  function NatToString(n: nat): string {
    if n < 10 then [Digit(n)] else NatToString(n / 10) + [Digit(n % 10)]
  }

  /** `strconv.Itoa`. */
  function Itoa(n: int): string {
    if n < 0 then "-" + NatToString(-n) else NatToString(n)
  }

  predicate AllDigits(s: string) {
    forall c :: c in s ==> IsDigit(c)
  }

  function Value(s: string): nat
    requires AllDigits(s)
  {
    if s == "" then 0 else 10 * Value(s[..|s| - 1]) + DigitValue(s[|s| - 1])
  }

  /** `strconv.ParseInt(s, 10, 32)`. */
  function ParseInt32(s: string): Option<int32> {
    if s == "" then None
    else
      var signed := s[0] == '-' || s[0] == '+';
      var digits := if signed then s[1..] else s;
      if digits == "" || !AllDigits(digits) then None
      else
        var n: int := if s[0] == '-' then -(Value(digits) as int) else Value(digits);
        if -TWO_31 <= n < TWO_31 then Some(n) else None
  }

  lemma {:induction false} ValueOfNat(n: nat)
    ensures var s := NatToString(n);
            s != "" && AllDigits(s) && Value(s) == n
  {
    if n >= 10 {
      ValueOfNat(n / 10);
      var s := NatToString(n);
      assert s[..|s| - 1] == NatToString(n / 10);
    } else {
      assert [Digit(n)][..0] == "";
    }
  }

  /** Nothing but digits after an optional sign is a number. */
  lemma ParseRefuses(s: string, i: nat)
    requires i < |s| && !IsDigit(s[i]) && (i > 0 || s[i] !in {'-', '+'})
    ensures ParseInt32(s) == None
  {
    assert s[i] in s && (i > 0 ==> s[i] == s[1..][i - 1] && s[i] in s[1..]);
  }

  /** A number survives being printed and parsed when it has 32 bits, and is refused otherwise. */
  lemma ParseOfItoa(n: int)
    ensures ParseInt32(Itoa(n)) == if -TWO_31 <= n < TWO_31 then Some(n) else None
  {
    hide NatToString, Value;
    if n < 0 {
      ValueOfNat(-n);
      assert Itoa(n)[1..] == NatToString(-n);
    } else {
      ValueOfNat(n);
      assert IsDigit(NatToString(n)[0]);
    }
  }
}
