// The private-network guard: parsing addresses into numbers, and matching them against CIDR blocks
// with unbounded two's-complement arithmetic.
module Cidr {
  import opened Providers

  // --- Unbounded bitwise arithmetic -------------------------------------------------------------------

  function Abs(x: int): nat {
    if x >= 0 then x else -x
  }

  /** `&` on two's-complement integers of unbounded width, bit by bit. */
  function BitAnd(x: int, y: int): int
    decreases Abs(x)
  {
    if x == 0 then 0
    else if x == -1 then y
    else 2 * BitAnd(x / 2, y / 2) + (x % 2) * (y % 2)
  }

  function BitNot(x: int): int {
    -x - 1
  }

  /** Clearing the low `h` bits leaves the multiple of 2^h below. */
  lemma {:induction false} AndHighMask(x: int, h: nat)
    ensures BitAnd(x, 0 - Pow2(h)) == x / Pow2(h) * Pow2(h)
    decreases h
  {
    if h == 0 {
      AndAllOnes(x);
    } else {
      assert (0 - Pow2(h)) / 2 == 0 - Pow2(h - 1) && (0 - Pow2(h)) % 2 == 0;
      if x != 0 && x != -1 {
        AndHighMask(x / 2, h - 1);
      }
      DivStep(x, Pow2(h - 1));
      if x == -1 {
        FloorOfMinusOne(Pow2(h));
      }
    }
  }

  lemma {:induction false} AndAllOnes(x: int)
    ensures BitAnd(x, -1) == x
    decreases Abs(x)
  {
    if x != 0 && x != -1 {
      AndAllOnes(x / 2);
    }
  }

  lemma FloorOfMinusOne(p: nat)
    requires p > 0
    ensures -1 / p == -1
  {
  }

  lemma DivStep(x: int, p: nat)
    requires p > 0
    ensures x / (2 * p) == x / 2 / p
  {
    var q := x / 2 / p;
    var r := x / 2 % p;
    assert x / 2 == p * q + r;
    assert x == 2 * p * q + (2 * r + x % 2);
    DivUnique(x, 2 * p, q, 2 * r + x % 2);
  }

  lemma ProductIsFar(d: int, k: int)
    requires d > 0
    ensures k >= 1 ==> d * k >= d
    ensures k <= -1 ==> d * k <= -d
  {
    if k >= 1 {
      assert d * k == d + d * (k - 1);
    } else if k <= -1 {
      assert d * k == -d + d * (k + 1);
    }
  }

  lemma DivUnique(x: int, d: int, q: int, r: int)
    requires d > 0 && x == d * q + r && 0 <= r < d
    ensures x / d == q && x % d == r
  {
    var k := x / d - q;
    assert d * k == d * (x / d) - d * q;
    ProductIsFar(d, k);
  }

  /** Keeping the low `n` bits. */
  lemma {:induction false} AndLowMask(x: nat, n: nat)
    requires x < Pow2(n)
    ensures BitAnd(x, Pow2(n) - 1) == x
    decreases x
  {
    if x != 0 {
      assert n > 0;
      assert (Pow2(n) - 1) / 2 == Pow2(n - 1) - 1 && (Pow2(n) - 1) % 2 == 1;
      AndLowMask(x / 2, n - 1);
    }
  }

  // --- Matching ------------------------------------------------------------------------------------------

  datatype Version = V4 | V6

  datatype ParsedIp = ParsedIp(version: Version, value: int)

  function TotalBits(version: Version): nat {
    if version == V4 then 32 else 128
  }

  /** A value that the parser can return, with a prefix that the configuration accepts. */
  predicate InRange(ip: ParsedIp) {
    0 <= ip.value < Pow2(TotalBits(ip.version))
  }

  function MaskOf(version: Version, prefix: nat): int
    requires prefix <= TotalBits(version)
  {
    var hostBits := TotalBits(version) - prefix;
    if hostBits == 0 then Pow2(TotalBits(version)) - 1 else BitNot(Pow2(hostBits) - 1)
  }

  predicate Matches(ip: ParsedIp, cidr: ParsedIp, prefix: nat)
    requires prefix <= TotalBits(cidr.version)
  {
    && ip.version == cidr.version
    && BitAnd(ip.value, MaskOf(ip.version, prefix)) == BitAnd(cidr.value, MaskOf(ip.version, prefix))
  }

  lemma MaskedValue(ip: ParsedIp, prefix: nat)
    requires InRange(ip) && prefix <= TotalBits(ip.version)
    ensures var p := Pow2(TotalBits(ip.version) - prefix);
      BitAnd(ip.value, MaskOf(ip.version, prefix)) == ip.value / p * p
  {
    var bits := TotalBits(ip.version);
    if prefix == bits {
      AndLowMask(ip.value, bits);
      assert Pow2(bits - prefix) == 1;
    } else {
      assert MaskOf(ip.version, prefix) == BitNot(Pow2(bits - prefix) - 1);
      AndHighMask(ip.value, bits - prefix);
    }
  }

  /** The mask test holds exactly when both addresses have the same quotient by 2^hostBits. */
  lemma MatchesIsSameQuotient(ip: ParsedIp, cidr: ParsedIp, prefix: nat)
    requires InRange(ip) && InRange(cidr) && prefix <= TotalBits(cidr.version)
    ensures Matches(ip, cidr, prefix) <==>
      && ip.version == cidr.version
      && ip.value / Pow2(TotalBits(cidr.version) - prefix) == cidr.value / Pow2(TotalBits(cidr.version) - prefix)
  {
    if ip.version == cidr.version {
      var p := Pow2(TotalBits(cidr.version) - prefix);
      MaskedValue(ip, prefix);
      MaskedValue(cidr, prefix);
      SameMultiple(ip.value / p, cidr.value / p, p);
    }
  }

  lemma SameMultiple(x: int, y: int, p: nat)
    requires p > 0
    ensures x * p == y * p <==> x == y
  {
    assert x * p - y * p == p * (x - y);
    ProductIsFar(p, x - y);
  }

  lemma {:induction false} Pow2Adds(a: nat, b: nat)
    ensures Pow2(a + b) == Pow2(a) * Pow2(b)
  {
    if a > 0 {
      Pow2Adds(a - 1, b);
      assert 2 * Pow2(a - 1) * Pow2(b) == Pow2(a) * Pow2(b);
    }
  }

  lemma DivDiv(x: int, p: nat, q: nat)
    requires p > 0 && q > 0
    ensures p * q > 0 && x / (p * q) == x / p / q
  {
    ProductIsFar(p, q);
    var a, k, r := x / p, x / p / q, x / p % q;
    assert x == p * a + x % p && a == q * k + r;
    assert p * a == p * (q * k) + p * r;
    assert p * (q * k) == p * q * k;
    assert p * (q - r) == p * q - p * r;
    ProductIsFar(p, q - r);
    ProductIsFar(p, r);
    DivUnique(x, p * q, k, p * r + x % p);
  }

  /** A shorter prefix admits a superset. */
  lemma ShorterPrefixAdmitsMore(ip: ParsedIp, cidr: ParsedIp, prefix: nat, shorter: nat)
    requires InRange(ip) && InRange(cidr) && shorter <= prefix <= TotalBits(cidr.version)
    requires Matches(ip, cidr, prefix)
    ensures Matches(ip, cidr, shorter)
  {
    MatchesIsSameQuotient(ip, cidr, prefix);
    MatchesIsSameQuotient(ip, cidr, shorter);
    var host := TotalBits(cidr.version) - prefix;
    Pow2Adds(host, prefix - shorter);
    DivDiv(ip.value, Pow2(host), Pow2(prefix - shorter));
    DivDiv(cidr.value, Pow2(host), Pow2(prefix - shorter));
  }

  /** The full prefix admits one address only; the empty one admits all of its version. */
  lemma ExtremePrefixes(ip: ParsedIp, cidr: ParsedIp)
    requires InRange(ip) && InRange(cidr) && ip.version == cidr.version
    ensures Matches(ip, cidr, TotalBits(cidr.version)) <==> ip == cidr
    ensures Matches(ip, cidr, 0)
  {
    var bits := TotalBits(cidr.version);
    MatchesIsSameQuotient(ip, cidr, bits);
    MatchesIsSameQuotient(ip, cidr, 0);
    DivUnique(ip.value, Pow2(bits), 0, ip.value);
    DivUnique(cidr.value, Pow2(bits), 0, cidr.value);
  }
}
