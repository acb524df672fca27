/** The first 64 primes, from which the constants of SHA-256 are made. */
module Primes {

  function SmallPrime(t: nat): nat
    requires t < 64
  {
    if t == 0 then 2 else if t == 1 then 3 else if t == 2 then 5 else if t == 3 then 7 else if t == 4 then 11
    else if t == 5 then 13 else if t == 6 then 17 else if t == 7 then 19 else
    if t == 8 then 23 else if t == 9 then 29 else if t == 10 then 31 else if t == 11 then 37
    else if t == 12 then 41 else if t == 13 then 43 else if t == 14 then 47 else if t == 15 then 53 else
    if t == 16 then 59 else if t == 17 then 61 else if t == 18 then 67 else if t == 19 then 71
    else if t == 20 then 73 else if t == 21 then 79 else if t == 22 then 83 else if t == 23 then 89 else
    if t == 24 then 97 else if t == 25 then 101 else if t == 26 then 103 else if t == 27 then 107
    else if t == 28 then 109 else if t == 29 then 113 else if t == 30 then 127 else if t == 31 then 131 else
    if t == 32 then 137 else if t == 33 then 139 else if t == 34 then 149 else if t == 35 then 151
    else if t == 36 then 157 else if t == 37 then 163 else if t == 38 then 167 else if t == 39 then 173 else
    if t == 40 then 179 else if t == 41 then 181 else if t == 42 then 191 else if t == 43 then 193
    else if t == 44 then 197 else if t == 45 then 199 else if t == 46 then 211 else if t == 47 then 223 else
    if t == 48 then 227 else if t == 49 then 229 else if t == 50 then 233 else if t == 51 then 239
    else if t == 52 then 241 else if t == 53 then 251 else if t == 54 then 257 else if t == 55 then 263 else
    if t == 56 then 269 else if t == 57 then 271 else if t == 58 then 277 else if t == 59 then 281
    else if t == 60 then 283 else if t == 61 then 293 else if t == 62 then 307 else 311
  }

  predicate IsPrime(n: nat) { 2 <= n && forall d :: 2 <= d < n ==> n % d != 0 }

  /** Not a multiple of a prime up to 17, except that prime itself. */
  predicate Sieved(n: nat) {
    && (n % 2 != 0 || n == 2) && (n % 3 != 0 || n == 3) && (n % 5 != 0 || n == 5) && (n % 7 != 0 || n == 7)
    && (n % 11 != 0 || n == 11) && (n % 13 != 0 || n == 13) && (n % 17 != 0 || n == 17)
  }

  lemma Multiple(n: nat, k: nat, p: nat)
    requires 0 < p && n == p * k
    ensures n % p == 0
  {
    var q, r := n / p, n % p;
    Quotient(p, k, q, r);
  }

  lemma Quotient(p: nat, k: nat, q: nat, r: nat)
    requires p * k == p * q + r && r < p
    ensures r == 0
  {
    if q < k {
      AtLeastOnce(p, k, q);
    } else {
      NoLess(p, q, k);
    }
  }

  lemma NoLess(p: nat, a: nat, b: nat)
    requires b <= a
    ensures p * b <= p * a
  {
    var more: nat := a - b;
    assert p * a == p * b + p * more;
  }

  lemma AtLeastOnce(p: nat, a: nat, b: nat)
    requires b < a
    ensures p * b + p <= p * a
  {
    NoLess(p, a, b + 1);
    assert p * (b + 1) == p * b + p;
  }

  lemma Rebracket(d: nat, p: nat, f: nat)
    ensures d * (p * f) == p * (d * f)
  {
  }

  /** A factor up to 18 shows in the sieve. */
  lemma SmallFactorShows(n: nat, d: nat, e: nat)
    requires n == d * e && 2 <= e <= 18 && e < n
    ensures !Sieved(n)
  {
    var p := if e % 2 == 0 then 2 else if e % 3 == 0 then 3 else if e % 5 == 0 then 5 else e;
    var f := e / p;
    assert e == p * f && (p == 2 || p == 3 || p == 5 || p == 7 || p == 11 || p == 13 || p == 17);
    var k := d * f;
    Rebracket(d, p, f);
    assert n == p * k;
    Multiple(n, k, p);
  }

  lemma SieveIsExact(n: nat)
    requires 2 <= n < 361
    ensures IsPrime(n) <==> Sieved(n)
  {
    if Sieved(n) {
      forall d | 2 <= d < n ensures n % d != 0 {
        if n % d == 0 {
          var e := n / d;
          assert n == d * e;
          SmallFactor(d, e);
          if d <= 18 {
            SmallFactorShows(n, e, d);
          } else {
            SmallFactorShows(n, d, e);
          }
        }
      }
    }
  }

  lemma SmallFactor(d: nat, e: nat)
    requires 2 <= d < d * e < 361
    ensures 2 <= e < d * e && (d <= 18 || e <= 18)
  {
    assert 19 <= d ==> d * e >= 19 * e;
    assert e < 2 ==> d * e <= d;
    assert d * e >= 2 * e;
  }

  lemma EarlyEntriesAreSieved(t: nat)
    requires 0 <= t < 32
    ensures Sieved(SmallPrime(t))
  {
  }

  lemma LateEntriesAreSieved(t: nat)
    requires 32 <= t < 64
    ensures Sieved(SmallPrime(t))
  {
  }

  /** The odd numbers between two entries have a factor. */
  predicate HasOddFactor(n: nat) {
    || (3 < n && n == 3 * (n / 3)) || (5 < n && n == 5 * (n / 5)) || (7 < n && n == 7 * (n / 7))
    || (11 < n && n == 11 * (n / 11)) || (13 < n && n == 13 * (n / 13)) || (17 < n && n == 17 * (n / 17))
  }

  lemma Gaps0(t: nat, h: nat)
    requires 0 <= t < 8 && SmallPrime(t) < 2 * h + 1 < SmallPrime(t + 1)
    ensures HasOddFactor(2 * h + 1)
  {
  }

  lemma Gaps1(t: nat, h: nat)
    requires 8 <= t < 16 && SmallPrime(t) < 2 * h + 1 < SmallPrime(t + 1)
    ensures HasOddFactor(2 * h + 1)
  {
  }

  lemma Gaps2(t: nat, h: nat)
    requires 16 <= t < 24 && SmallPrime(t) < 2 * h + 1 < SmallPrime(t + 1)
    ensures HasOddFactor(2 * h + 1)
  {
  }

  lemma Gaps3(t: nat, h: nat)
    requires 24 <= t < 32 && SmallPrime(t) < 2 * h + 1 < SmallPrime(t + 1)
    ensures HasOddFactor(2 * h + 1)
  {
  }

  lemma Gaps4(t: nat, h: nat)
    requires 32 <= t < 40 && SmallPrime(t) < 2 * h + 1 < SmallPrime(t + 1)
    ensures HasOddFactor(2 * h + 1)
  {
  }

  lemma Gaps5(t: nat, h: nat)
    requires 40 <= t < 48 && SmallPrime(t) < 2 * h + 1 < SmallPrime(t + 1)
    ensures HasOddFactor(2 * h + 1)
  {
  }

  lemma Gaps6(t: nat, h: nat)
    requires 48 <= t < 56 && SmallPrime(t) < 2 * h + 1 < SmallPrime(t + 1)
    ensures HasOddFactor(2 * h + 1)
  {
  }

  lemma Gaps7(t: nat, h: nat)
    requires 56 <= t < 63 && SmallPrime(t) < 2 * h + 1 < SmallPrime(t + 1)
    ensures HasOddFactor(2 * h + 1)
  {
  }

  lemma OddGaps(t: nat, h: nat)
    requires t < 63 && SmallPrime(t) < 2 * h + 1 < SmallPrime(t + 1)
    ensures HasOddFactor(2 * h + 1)
  {
    hide SmallPrime, HasOddFactor;
    if t < 8 {
      Gaps0(t, h);
    } else if t < 16 {
      Gaps1(t, h);
    } else if t < 24 {
      Gaps2(t, h);
    } else if t < 32 {
      Gaps3(t, h);
    } else if t < 40 {
      Gaps4(t, h);
    } else if t < 48 {
      Gaps5(t, h);
    } else if t < 56 {
      Gaps6(t, h);
    } else {
      Gaps7(t, h);
    }
  }

  lemma OddFactorIsComposite(n: nat)
    requires HasOddFactor(n)
    ensures !IsPrime(n)
  {
    var p := if n == 3 * (n / 3) then 3 else if n == 5 * (n / 5) then 5 else if n == 7 * (n / 7) then 7
             else if n == 11 * (n / 11) then 11 else if n == 13 * (n / 13) then 13 else 17;
    assert p < n && n == p * (n / p);
    Multiple(n, n / p, p);
  }

  /** The table starts with the first prime, and each entry is the least prime after the one before. */
  lemma SmallPrimesAreConsecutive(t: nat)
    requires t < 64
    ensures SmallPrime(0) == 2 && IsPrime(SmallPrime(t))
    ensures t < 63 ==> SmallPrime(t) < SmallPrime(t + 1)
    ensures t < 63 ==> forall m :: SmallPrime(t) < m < SmallPrime(t + 1) ==> !IsPrime(m)
  {
    assert 2 <= SmallPrime(t) < 361 && (t < 63 ==> SmallPrime(t) < SmallPrime(t + 1));
    if t < 32 {
      EarlyEntriesAreSieved(t);
    } else {
      LateEntriesAreSieved(t);
    }
    SieveIsExact(SmallPrime(t));
    hide SmallPrime, HasOddFactor, Sieved;
    if t < 63 {
      forall m | SmallPrime(t) < m < SmallPrime(t + 1) ensures !IsPrime(m) {
        if m % 2 != 0 {
          OddGaps(t, m / 2);
          OddFactorIsComposite(m);
        }
      }
    }
  }
}
