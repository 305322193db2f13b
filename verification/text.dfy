/** Numbers as text. */
module Text {

  function Digit(d: nat): char
    requires d < 10
  {
    "0123456789"[d]
  }

  /** Decimal digits without leading zeros. */
  function Decimal(n: nat): (s: string)
    ensures |s| > 0
    decreases n
  {
    if n < 10 then [Digit(n)] else Decimal(n / 10) + [Digit(n % 10)]
  }

  function Integer(n: int): string {
    if n < 0 then "-" + Decimal(-n) else Decimal(n)
  }

  lemma {:induction false} DecimalLengthMonotone(m: nat, n: nat)
    requires m <= n
    ensures |Decimal(m)| <= |Decimal(n)|
    decreases n
  {
    if m >= 10 {
      DecimalLengthMonotone(m / 10, n / 10);
    }
  }

  // ----- Reading numbers -----

  predicate Digits(s: string) {
    forall i :: 0 <= i < |s| ==> '0' <= s[i] <= '9'
  }

  /** What a string of digits says, the last digit counting ones. */
  function Read(s: string): int {
    if s == "" then 0 else 10 * Read(s[..|s| - 1]) + (s[|s| - 1] as int - '0' as int)
  }

  lemma DigitReads(d: nat)
    requires d < 10
    ensures '0' <= Digit(d) <= '9' && Digit(d) as int - '0' as int == d
  {
  }

  /** The digits of a number say that number, without a leading zero. */
  lemma {:induction false} DecimalReads(n: nat)
    ensures Read(Decimal(n)) == n && Digits(Decimal(n))
    ensures Decimal(n)[0] == '0' ==> n == 0 && Decimal(n) == "0"
    decreases n
  {
    if n < 10 {
      DigitReads(n);
      assert Decimal(n)[..0] == "";
    } else {
      DecimalReads(n / 10);
      DigitReads(n % 10);
      assert Decimal(n)[..|Decimal(n)| - 1] == Decimal(n / 10);
    }
  }

  lemma {:induction false} ReadIsNat(s: string)
    requires Digits(s)
    ensures Read(s) >= 0
    ensures s != "" && s[0] != '0' ==> Read(s) > 0
    decreases |s|
  {
    if s != "" {
      ReadIsNat(s[..|s| - 1]);
    }
  }

  /** And there is only one way of writing it so. */
  lemma {:induction false} OneDecimal(s: string)
    requires s != "" && Digits(s) && (s[0] == '0' ==> |s| == 1)
    ensures Read(s) >= 0 && Decimal(Read(s)) == s
    decreases |s|
  {
    var head, d := s[..|s| - 1], s[|s| - 1] as int - '0' as int;
    DigitReads(d);
    ReadIsNat(head);
    if head != "" {
      OneDecimal(head);
      assert Read(s) / 10 == Read(head) && Read(s) % 10 == d;
      assert s == head + [s[|s| - 1]];
    } else {
      assert s == [Digit(d)];
    }
  }

  /** A negative number is a minus sign and what it lacks to zero. */
  lemma IntegerReads(n: int)
    ensures n >= 0 ==> Digits(Integer(n)) && Read(Integer(n)) == n
    ensures n < 0 ==> Integer(n)[0] == '-' && Digits(Integer(n)[1..]) && Read(Integer(n)[1..]) == -n
  {
    DecimalReads(if n < 0 then -n else n);
    if n < 0 {
      assert Integer(n)[1..] == Decimal(-n);
    }
  }
}
