/**
 * Decimal rendering of integers, as Python's f-strings do it, and the
 * synthetic order identifiers built from it.
 */
module Format {

  /** The character of one decimal digit. */
  function DigitChar(d: nat): (c: char)
    requires d < 10
    ensures '0' <= c <= '9'
  {
    (48 + d) as char
  }

  /** Decimal digits of `n`, most significant first, without leading zeros. */
  function NatToString(n: nat): (s: string)
    ensures |s| >= 1
    ensures forall k :: 0 <= k < |s| ==> '0' <= s[k] <= '9'
    decreases n
  {
    if n < 10 then [DigitChar(n)] else NatToString(n / 10) + [DigitChar(n % 10)]
  }

  /** Python's decimal rendering of an int: a minus sign, then the digits of |x|. */
  function IntToString(x: int): (s: string)
    ensures |s| >= 1
    ensures s[0] == '-' <==> x < 0
  {
    if x < 0 then "-" + NatToString(-x) else NatToString(x)
  }

  /**
   * The order id of the i-th synthetic order of a product (line 45): the
   * letter O, the product id, a minus sign and i.
   */
  function OrderId(productId: int, i: nat): (s: string)
    ensures |s| == |IntToString(productId)| + |NatToString(i)| + 2 && s[0] == 'O'
    ensures s[1..|s| - |NatToString(i)| - 1] == IntToString(productId)
    ensures s[|s| - |NatToString(i)| - 1] == '-'
    ensures s[|s| - |NatToString(i)|..] == NatToString(i)
  {
    "O" + IntToString(productId) + "-" + NatToString(i)
  }

  lemma DigitCharInjective(d: nat, e: nat)
    requires d < 10 && e < 10
    requires DigitChar(d) == DigitChar(e)
    ensures d == e
  {
    assert DigitChar(d) as int == 48 + d;
    assert DigitChar(e) as int == 48 + e;
  }

  /** Different naturals have different decimal renderings. */
  lemma {:induction false} NatToStringInjective(m: nat, n: nat)
    requires NatToString(m) == NatToString(n)
    ensures m == n
    decreases m
  {
    var s := NatToString(m);
    if m < 10 && n < 10 {
      DigitCharInjective(m, n);
    } else if 10 <= m && 10 <= n {
      assert s[..|s| - 1] == NatToString(m / 10);
      assert s[..|s| - 1] == NatToString(n / 10);
      NatToStringInjective(m / 10, n / 10);
      DigitCharInjective(m % 10, n % 10);
    }
  }

  /** Different integers have different decimal renderings. */
  lemma IntToStringInjective(a: int, b: int)
    requires IntToString(a) == IntToString(b)
    ensures a == b
  {
    var s := IntToString(a);
    if a < 0 {
      assert s[1..] == NatToString(-a) == NatToString(-b);
      NatToStringInjective(-a, -b);
    } else {
      NatToStringInjective(a, b);
    }
  }

  /** Index of the last minus sign in `s`, or -1 when there is none. */
  function LastDash(s: string): (k: int)
    ensures -1 <= k < |s|
  {
    if s == [] then -1
    else if s[|s| - 1] == '-' then |s| - 1
    else LastDash(s[..|s| - 1])
  }

  lemma {:induction false} LastDashAfter(x: string, y: string)
    requires '-' !in y
    ensures LastDash(x + "-" + y) == |x|
    decreases |y|
  {
    if y != [] {
      var y0 := y[..|y| - 1];
      assert y[|y| - 1] in y;
      assert (x + "-" + y)[..|x + "-" + y| - 1] == x + "-" + y0;
      LastDashAfter(x, y0);
    }
  }

  /** A string `x + "-" + y` is split uniquely when y holds no minus sign. */
  lemma SplitAtLastDash(x: string, y: string, x': string, y': string)
    requires x + "-" + y == x' + "-" + y'
    requires '-' !in y && '-' !in y'
    ensures x == x' && y == y'
  {
    var s := x + "-" + y;
    LastDashAfter(x, y);
    LastDashAfter(x', y');
    assert x == s[..|x|] == x';
    assert y == s[|x| + 1..] == y';
  }

  /** Synthetic order ids name their product id and position uniquely. */
  lemma OrderIdInjective(a: int, i: nat, b: int, j: nat)
    requires OrderId(a, i) == OrderId(b, j)
    ensures a == b && i == j
  {
    var si, sj := NatToString(i), NatToString(j);
    assert '-' !in si by {
      forall k | 0 <= k < |si| ensures si[k] != '-' { }
    }
    assert '-' !in sj by {
      forall k | 0 <= k < |sj| ensures sj[k] != '-' { }
    }
    SplitAtLastDash("O" + IntToString(a), si, "O" + IntToString(b), sj);
    assert IntToString(a) == ("O" + IntToString(a))[1..] == ("O" + IntToString(b))[1..] == IntToString(b);
    IntToStringInjective(a, b);
    NatToStringInjective(i, j);
  }
}
