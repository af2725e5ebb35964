// Trade ids are the text "<exchange order id>:t<trade time>"; no two different pairs share one.
module TradeIds {

  predicate IsDigit(c: char) {
    '0' <= c <= '9'
  }

  function Digits(n: nat): (s: string)
    ensures |s| > 0 && (|s| == 1 <==> n < 10) && forall c | c in s :: IsDigit(c)
  {
    var last := ('0' as int + n % 10) as char;
    if n < 10 then [last] else Digits(n / 10) + [last]
  }

  function Decimal(n: int): string {
    if n < 0 then "-" + Digits(-n) else Digits(n)
  }

  function Format(exchangeOrderId: string, tradeTimeMs: int): string {
    exchangeOrderId + ":t" + Decimal(tradeTimeMs)
  }

  // The number a decimal text denotes.
  function Value(s: string): int {
    if s == "" then 0 else 10 * Value(s[..|s| - 1]) + (s[|s| - 1] as int - '0' as int)
  }

  // The text is the number's own decimal form, with a minus sign in front exactly if it is negative.
  lemma {:induction false} DigitsDenote(n: nat)
    ensures Value(Digits(n)) == n
  {
    if n >= 10 {
      DigitsDenote(n / 10);
      assert Digits(n)[..|Digits(n)| - 1] == Digits(n / 10);
    } else {
      assert Digits(n)[..0] == "";
    }
  }

  lemma DecimalDenotes(n: int)
    ensures if n >= 0 then Value(Decimal(n)) == n else Decimal(n)[0] == '-' && Value(Decimal(n)[1..]) == -n
  {
    if n >= 0 {
      DigitsDenote(n);
    } else {
      DigitsDenote(-n);
      assert Decimal(n)[1..] == Digits(-n);
    }
  }

  lemma {:induction false} DigitsInjective(m: nat, n: nat)
    requires Digits(m) == Digits(n)
    ensures m == n
  {
    var s, t := Digits(m), Digits(n);
    assert s[|s| - 1] == ('0' as int + m % 10) as char;
    assert t[|t| - 1] == ('0' as int + n % 10) as char;
    assert m % 10 == n % 10;
    if m >= 10 && n >= 10 {
      assert Digits(m / 10) == s[..|s| - 1] == t[..|t| - 1] == Digits(n / 10);
      DigitsInjective(m / 10, n / 10);
    }
  }

  lemma SignIsNoDigit(n: int)
    ensures |Decimal(n)| > 0 && (Decimal(n)[0] == '-' <==> n < 0)
  {
    if n >= 0 {
      assert Digits(n)[0] in Digits(n);
    }
  }

  lemma DecimalInjective(m: int, n: int)
    requires Decimal(m) == Decimal(n)
    ensures m == n
  {
    if m < 0 && n < 0 {
      assert Decimal(m)[1..] == Digits(-m) && Decimal(n)[1..] == Digits(-n);
      DigitsInjective(-m, -n);
    } else if m >= 0 && n >= 0 {
      DigitsInjective(m, n);
    } else {
      SignIsNoDigit(m);
      SignIsNoDigit(n);
    }
  }

  lemma NoColon(n: int)
    ensures ':' !in Decimal(n)
  {
  }

  lemma LastColon(exchangeOrderId: string, tradeTimeMs: int)
    ensures var w := Format(exchangeOrderId, tradeTimeMs);
      && |exchangeOrderId| + 2 <= |w| && w[|exchangeOrderId|] == ':'
      && forall i | |exchangeOrderId| < i < |w| :: w[i] != ':'
  {
    NoColon(tradeTimeMs);
  }

  // An exchange order id may itself contain ":t" and digits: the last colon still separates.
  lemma FormatInjective(a: string, s: int, b: string, t: int)
    requires Format(a, s) == Format(b, t)
    ensures a == b && s == t
  {
    LastColon(a, s);
    LastColon(b, t);
    var w := Format(a, s);
    assert |a| == |b|;
    assert w[..|a|] == a && w[..|b|] == b;
    assert w[|a| + 2..] == Decimal(s) && w[|b| + 2..] == Decimal(t);
    DecimalInjective(s, t);
  }
}
