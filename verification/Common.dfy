/** Options, and decimal numbers as text. */
module Common {
  datatype Option<+T> = None | Some(value: T)

  function Digit(n: nat): char
    requires n < 10
  {
    "0123456789"[n]
  }

  function Decimal(n: nat): string {
    if n < 10 then [Digit(n)] else Decimal(n / 10) + [Digit(n % 10)]
  }

  function Parsed(s: string): Option<nat> {
    if s == "" || !('0' <= s[|s| - 1] <= '9') then None
    else
      var digit := s[|s| - 1] as nat - '0' as nat;
      if |s| == 1 then Some(digit)
      else
        var front := Parsed(s[..|s| - 1]);
        if front.Some? then Some(10 * front.value + digit) else None
  }

  lemma {:induction false} DecimalDigits(n: nat)
    ensures var s := Decimal(n); s != "" && (forall i :: 0 <= i < |s| ==> '0' <= s[i] <= '9')
  {
    if n < 10 {
    } else {
      DecimalDigits(n / 10);
    }
  }

  lemma {:induction false} ParsedDecimal(n: nat)
    ensures Parsed(Decimal(n)) == Some(n)
  {
    var s := Decimal(n);
    if n < 10 {
    } else {
      ParsedDecimal(n / 10);
      assert s[..|s| - 1] == Decimal(n / 10);
      assert Decimal(n / 10) != "";
    }
  }
}
