/** Numbers written in decimal. */
module Decimal {

  function Digits(n: nat): (d: string)
    ensures d != ""
  {
    (if n < 10 then "" else Digits(n / 10)) + ["0123456789"[n % 10]]
  }

  /** The number a text of digits stands for. */
  function Number(d: string): nat {
    if d == "" then 0
    else 10 * Number(d[..|d| - 1]) + (if '0' <= d[|d| - 1] <= '9' then (d[|d| - 1] - '0') as nat else 0)
  }

  lemma DigitValue(k: nat)
    requires k < 10
    ensures '0' <= "0123456789"[k] <= '9' && ("0123456789"[k] - '0') as nat == k
  {
  }

  lemma {:induction false} NumberOfDigits(n: nat)
    ensures Number(Digits(n)) == n
  {
    var front := if n < 10 then "" else Digits(n / 10);
    if n >= 10 {
      NumberOfDigits(n / 10);
    }
    DigitValue(n % 10);
    assert Digits(n)[..|Digits(n)| - 1] == front;
  }

  /** A larger number has no fewer digits. */
  lemma {:induction false} DigitsGrow(n: nat, m: nat)
    requires n <= m
    ensures |Digits(n)| <= |Digits(m)|
  {
    if n >= 10 {
      DigitsGrow(n / 10, m / 10);
    }
  }

  lemma {:induction false} DigitsAreFew(n: nat)
    requires n >= 1
    ensures |Digits(n)| <= n
  {
    if n >= 10 {
      DigitsAreFew(n / 10);
    }
  }

  lemma {:induction false} DigitsAreDigits(n: nat)
    ensures forall c | c in Digits(n) :: '0' <= c <= '9'
  {
    if n >= 10 {
      DigitsAreDigits(n / 10);
    }
    DigitValue(n % 10);
  }

  predicate AreDigits(d: string) { forall k | 0 <= k < |d| :: '0' <= d[k] <= '9' }

  lemma LastDigit(d: string)
    requires AreDigits(d) && d != ""
    ensures Number(d) == 10 * Number(d[..|d| - 1]) + (d[|d| - 1] - '0') as nat && (d[|d| - 1] - '0') as nat < 10
  {
  }

  /** Of two numbers written with as many digits, the smaller one has the smaller digit where they first differ. */
  lemma {:induction false} FirstDifference(a: string, b: string) returns (k: nat)
    requires AreDigits(a) && AreDigits(b) && |a| == |b| && Number(a) <= Number(b)
    ensures k <= |a| && a[..k] == b[..k] && (k < |a| ==> a[k] < b[k])
    ensures k == |a| <==> Number(a) == Number(b)
  {
    if a == "" {
      k := 0;
    } else {
      var n := |a| - 1;
      LastDigit(a);
      LastDigit(b);
      k := FirstDifference(a[..n], b[..n]);
      assert a[..n][..k] == a[..k] && b[..n][..k] == b[..k];
      if k == n && a[n] == b[n] {
        k := n + 1;
        assert a == a[..n] + [a[n]] && b == b[..n] + [b[n]];
      }
    }
  }
}
