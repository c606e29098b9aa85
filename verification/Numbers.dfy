/** Decimal numerals. */
module Numbers {
  predicate IsDigit(c: char) {
    '0' <= c <= '9'
  }

  predicate AllDigits(s: string) {
    forall i :: 0 <= i < |s| ==> IsDigit(s[i])
  }

  predicate IsDigits(s: string) {
    s != "" && AllDigits(s)
  }

  /** The number some digits stand for. */
  function ParseNat(s: string): nat
    requires AllDigits(s)
  {
    if s == "" then 0
    else ParseNat(s[..|s| - 1]) * 10 + (s[|s| - 1] as int - '0' as int)
  }

  function Digit(n: nat): (c: char)
    requires n < 10
    ensures IsDigit(c)
  {
    (n + '0' as int) as char
  }

  /** The decimal numeral of a number, without leading zeros. */
  function Numeral(n: nat): (s: string)
    ensures IsDigits(s)
  {
    if n < 10 then [Digit(n)] else Numeral(n / 10) + [Digit(n % 10)]
  }

  function Zeros(k: nat): (s: string)
    ensures |s| == k && AllDigits(s)
  {
    seq(k, _ => '0')
  }

  lemma ParseOne(c: char)
    requires IsDigit(c)
    ensures ParseNat([c]) == c as int - '0' as int
  {
    assert [c][..0] == "";
  }

  lemma ParseMore(s: string, c: char)
    requires AllDigits(s) && IsDigit(c)
    ensures AllDigits(s + [c]) && ParseNat(s + [c]) == ParseNat(s) * 10 + (c as int - '0' as int)
  {
    assert (s + [c])[..|s|] == s;
  }

  lemma {:induction false} ParseNumeral(n: nat)
    ensures ParseNat(Numeral(n)) == n
  {
    if n < 10 {
      ParseOne(Digit(n));
    } else {
      ParseNumeral(n / 10);
      ParseMore(Numeral(n / 10), Digit(n % 10));
    }
  }

  lemma {:induction false} ParseZeros(k: nat)
    ensures ParseNat(Zeros(k)) == 0
  {
    if k > 0 {
      ParseZeros(k - 1);
      assert Zeros(k)[..k - 1] == Zeros(k - 1);
    }
  }

  /** Zeros in front of a numeral make no difference. */
  lemma {:induction false} ParsePadded(k: nat, n: nat)
    ensures AllDigits(Zeros(k) + Numeral(n)) && ParseNat(Zeros(k) + Numeral(n)) == n
  {
    if n < 10 {
      ParseZeros(k);
      ParseMore(Zeros(k), Digit(n));
    } else {
      ParsePadded(k, n / 10);
      ParseMore(Zeros(k) + Numeral(n / 10), Digit(n % 10));
      assert Zeros(k) + Numeral(n) == Zeros(k) + Numeral(n / 10) + [Digit(n % 10)];
    }
  }

  /** Any digits are the numeral of their number with zeros in front. */
  lemma {:induction false} ReadDigits(s: string)
    requires IsDigits(s)
    ensures var m := Numeral(ParseNat(s)); |m| <= |s| && s == Zeros(|s| - |m|) + m
  {
    var init, c := s[..|s| - 1], s[|s| - 1];
    var d := c as int - '0' as int;
    assert s == init + [c] && c == Digit(d);
    ParseMore(init, c);
    if init == "" {
      assert s == [c];
    } else {
      ReadDigits(init);
      var n := ParseNat(init);
      if n == 0 {
        assert init == Zeros(|init| - 1) + ['0'];
        assert Zeros(|s| - 1) == init;
      } else {
        assert (n * 10 + d) / 10 == n && (n * 10 + d) % 10 == d;
        assert Numeral(n * 10 + d) == Numeral(n) + [c];
        assert Zeros(|init| - |Numeral(n)|) + Numeral(n) + [c] == Zeros(|init| - |Numeral(n)|) + (Numeral(n) + [c]);
      }
    }
  }

  function TwoDigits(n: nat): (s: string)
    requires n < 100
    ensures |s| == 2 && AllDigits(s)
  {
    [Digit(n / 10), Digit(n % 10)]
  }

  lemma ParseTwo(n: nat)
    requires n < 100
    ensures ParseNat(TwoDigits(n)) == n
  {
    ParseOne(Digit(n / 10));
    ParseMore([Digit(n / 10)], Digit(n % 10));
    assert TwoDigits(n) == [Digit(n / 10)] + [Digit(n % 10)];
  }

  lemma ReadTwo(s: string)
    requires |s| == 2 && AllDigits(s)
    ensures ParseNat(s) < 100 && TwoDigits(ParseNat(s)) == s
  {
    ParseOne(s[0]);
    ParseMore([s[0]], s[1]);
    assert s == [s[0]] + [s[1]];
  }

  lemma FourDigits(n: nat)
    requires 1000 <= n <= 9999
    ensures |Numeral(n)| == 4
  {
    assert |Numeral(n / 1000)| == 1 && n / 10 / 10 == n / 100 && n / 10 / 10 / 10 == n / 1000;
    assert |Numeral(n / 100)| == 2 by { assert Numeral(n / 100) == Numeral(n / 1000) + [Digit(n / 100 % 10)]; }
    assert |Numeral(n / 10)| == 3 by { assert Numeral(n / 10) == Numeral(n / 100) + [Digit(n / 10 % 10)]; }
    assert Numeral(n) == Numeral(n / 10) + [Digit(n % 10)];
  }

  lemma FewDigits(n: nat)
    requires n < 1000
    ensures |Numeral(n)| < 4
  {
    if n >= 10 {
      assert Numeral(n) == Numeral(n / 10) + [Digit(n % 10)];
      if n / 10 >= 10 {
        assert Numeral(n / 10) == Numeral(n / 10 / 10) + [Digit(n / 10 % 10)];
        assert n / 10 / 10 < 10;
      }
    }
  }
}
