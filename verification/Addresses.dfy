// The guard end to end: numbers written as texts read back as those numbers, and the private networks admit
// exactly the addresses that their documents name.
module Addresses {
  import opened Tables
  import opened Providers
  import opened Cidr
  import opened IpText

  const DIGITS: string := "0123456789abcdef"

  function DecimalText(n: nat): string {
    if n < 10 then [DIGITS[n]] else DecimalText(n / 10) + [DIGITS[n % 10]]
  }

  function HexText(n: nat): string {
    if n < 16 then [DIGITS[n]] else HexText(n / 16) + [DIGITS[n % 16]]
  }

  lemma DigitsReadBack(d: nat)
    requires d < 16
    ensures IsHex(DIGITS[d]) && DigitOf(DIGITS[d]) == d && (d < 10 ==> IsDigit(DIGITS[d]))
  {
  }

  /** Capital letters count as their small ones, and nothing else is a digit. */
  lemma CapitalsReadBack(d: nat, c: char)
    requires d < 16
    ensures IsHex("0123456789ABCDEF"[d]) && DigitOf("0123456789ABCDEF"[d]) == d
    ensures IsHex(c) <==> c in DIGITS || c in "ABCDEF"
  {
  }

  /** Decimal texts read back. */
  lemma {:induction false} DecimalReadBack(n: nat)
    ensures DecimalValue(DecimalText(n)) == n && AllDigits(DecimalText(n))
  {
    DigitsReadBack(n % 10);
    var text := DecimalText(n);
    if n < 10 {
      assert text == [DIGITS[n]] && text[..0] == "";
    } else {
      DecimalReadBack(n / 10);
      assert text[..|text| - 1] == DecimalText(n / 10) && text[|text| - 1] == DIGITS[n % 10];
    }
  }

  lemma {:induction false} ParseHexAppends(text: string, c: char, sofar: nat)
    requires IsHex(c) && forall i :: 0 <= i < |text| ==> IsHex(text[i])
    ensures ParseHex(text + [c], sofar) == ParseHex(text, sofar) * 16 + DigitOf(c)
    decreases |text|
  {
    if text == "" {
      assert text + [c] == [c] && [c][1..] == "";
    } else {
      assert (text + [c])[1..] == text[1..] + [c];
      ParseHexAppends(text[1..], c, sofar * 16 + DigitOf(text[0]));
    }
  }

  /** Hexadecimal texts read back. */
  lemma {:induction false} HexReadBack(n: nat)
    ensures HexValue(HexText(n)) == n && forall i :: 0 <= i < |HexText(n)| ==> IsHex(HexText(n)[i])
  {
    DigitsReadBack(n % 16);
    if n < 16 {
      ParseHexAppends("", DIGITS[n], 0);
      assert HexText(n) == "" + [DIGITS[n]];
    } else {
      HexReadBack(n / 16);
      ParseHexAppends(HexText(n / 16), DIGITS[n % 16], 0);
    }
  }

  // --- IPv4 ----------------------------------------------------------------------------------------------------

  function Quad(a: nat, b: nat, c: nat, d: nat): string {
    Join([DecimalText(a), DecimalText(b), DecimalText(c), DecimalText(d)], '.')
  }

  /** An address and a network as the guard reads them from their texts. */
  function V4Of(text: string): ParsedIp {
    ParsedIp(V4, Ipv4ToBigInt(text))
  }

  lemma QuadReadsBack(a: nat, b: nat, c: nat, d: nat)
    requires a < 256 && b < 256 && c < 256 && d < 256
    ensures Ipv4ToBigInt(Quad(a, b, c, d)) == ValueOf(a, b, c, d)
    ensures InRange(V4Of(Quad(a, b, c, d)))
  {
    DecimalReadBack(a);
    DecimalReadBack(b);
    DecimalReadBack(c);
    DecimalReadBack(d);
    DottedQuadValue([DecimalText(a), DecimalText(b), DecimalText(c), DecimalText(d)]);
  }

  lemma Powers()
    ensures Pow2(16) == 65536 && Pow2(20) == 1048576 && Pow2(24) == 16777216
  {
    assert Pow2(4) == 16 && Pow2(8) == 256 && Pow2(12) == 4096;
    Pow2Adds(4, 16);
    Pow2Adds(8, 16);
  }

  /** The private networks of section 3 of RFC 1918, and loopback: 10/8, 172.16/12, 192.168/16 and 127/8. */
  lemma PrivateNetworks(a: nat, b: nat, c: nat, d: nat)
    requires a < 256 && b < 256 && c < 256 && d < 256
    ensures var ip := V4Of(Quad(a, b, c, d));
      && (Matches(ip, V4Of(Quad(10, 0, 0, 0)), 8) <==> a == 10)
      && (Matches(ip, V4Of(Quad(172, 16, 0, 0)), 12) <==> a == 172 && 16 <= b < 32)
      && (Matches(ip, V4Of(Quad(192, 168, 0, 0)), 16) <==> a == 192 && b == 168)
      && (Matches(ip, V4Of(Quad(127, 0, 0, 0)), 8) <==> a == 127)
  {
    InTen(a, b, c, d);
    InOneSevenTwo(a, b, c, d);
    InOneNineTwo(a, b, c, d);
    InLoopback(a, b, c, d);
  }

  lemma InTen(a: nat, b: nat, c: nat, d: nat)
    requires a < 256 && b < 256 && c < 256 && d < 256
    ensures Matches(V4Of(Quad(a, b, c, d)), V4Of(Quad(10, 0, 0, 0)), 8) <==> a == 10
  {
    Powers();
    Quotients(a, b, c, d);
    Quotients(10, 0, 0, 0);
    QuadReadsBack(a, b, c, d);
    QuadReadsBack(10, 0, 0, 0);
    SameBlock(V4Of(Quad(a, b, c, d)), V4Of(Quad(10, 0, 0, 0)), 8, 16777216, a, 10);
  }

  lemma InLoopback(a: nat, b: nat, c: nat, d: nat)
    requires a < 256 && b < 256 && c < 256 && d < 256
    ensures Matches(V4Of(Quad(a, b, c, d)), V4Of(Quad(127, 0, 0, 0)), 8) <==> a == 127
  {
    Powers();
    Quotients(a, b, c, d);
    Quotients(127, 0, 0, 0);
    QuadReadsBack(a, b, c, d);
    QuadReadsBack(127, 0, 0, 0);
    SameBlock(V4Of(Quad(a, b, c, d)), V4Of(Quad(127, 0, 0, 0)), 8, 16777216, a, 127);
  }

  lemma InOneSevenTwo(a: nat, b: nat, c: nat, d: nat)
    requires a < 256 && b < 256 && c < 256 && d < 256
    ensures Matches(V4Of(Quad(a, b, c, d)), V4Of(Quad(172, 16, 0, 0)), 12) <==> a == 172 && 16 <= b < 32
  {
    Powers();
    Quotients(a, b, c, d);
    Quotients(172, 16, 0, 0);
    QuadReadsBack(a, b, c, d);
    QuadReadsBack(172, 16, 0, 0);
    SameBlock(V4Of(Quad(a, b, c, d)), V4Of(Quad(172, 16, 0, 0)), 12, 1048576, a * 16 + b / 16, 2753);
    TwelveBits(a, b);
  }

  /** The first twelve bits are those of 172.16. */
  lemma TwelveBits(a: nat, b: nat)
    requires a < 256 && b < 256
    ensures a * 16 + b / 16 == 2753 <==> a == 172 && 16 <= b < 32
  {
  }

  lemma InOneNineTwo(a: nat, b: nat, c: nat, d: nat)
    requires a < 256 && b < 256 && c < 256 && d < 256
    ensures Matches(V4Of(Quad(a, b, c, d)), V4Of(Quad(192, 168, 0, 0)), 16) <==> a == 192 && b == 168
  {
    Powers();
    Quotients(a, b, c, d);
    Quotients(192, 168, 0, 0);
    QuadReadsBack(a, b, c, d);
    QuadReadsBack(192, 168, 0, 0);
    SameBlock(V4Of(Quad(a, b, c, d)), V4Of(Quad(192, 168, 0, 0)), 16, 65536, a * 256 + b, 192 * 256 + 168);
  }

  /** Blocks of `p` addresses, told by the quotients. */
  lemma SameBlock(ip: ParsedIp, network: ParsedIp, prefix: nat, p: nat, q: nat, n: nat)
    requires InRange(ip) && InRange(network) && ip.version == V4 && network.version == V4 && prefix <= 32
    requires p == Pow2(32 - prefix) && ip.value / p == q && network.value / p == n
    ensures Matches(ip, network, prefix) <==> q == n
  {
    MatchesIsSameQuotient(ip, network, prefix);
  }

  function ValueOf(a: nat, b: nat, c: nat, d: nat): nat {
    ((a * 256 + b) * 256 + c) * 256 + d
  }

  lemma Quotients(a: nat, b: nat, c: nat, d: nat)
    requires a < 256 && b < 256 && c < 256 && d < 256
    ensures var value := ValueOf(a, b, c, d);
      && value / 16777216 == a && value / 65536 == a * 256 + b && value / 1048576 == a * 16 + b / 16
  {
    var value := ValueOf(a, b, c, d);
    DivUnique(value, 16777216, a, (b * 256 + c) * 256 + d);
    DivUnique(value, 65536, a * 256 + b, c * 256 + d);
    DivUnique(value, 1048576, a * 16 + b / 16, ((b % 16) * 256 + c) * 256 + d);
  }

  // --- Which reading applies -----------------------------------------------------------------------------------------

  lemma MappedPrefixes(text: string)
    ensures IsMappedPrefix(text) <==> |text| == 7 && forall k :: 0 <= k < 7 ==> text[k] == "::ffff:"[k] || text[k] == "::FFFF:"[k]
  {
    if |text| == 7 {
      assert (forall k :: 0 <= k < 7 ==> text[k] == "::ffff:"[k] || text[k] == "::FFFF:"[k]) <==>
          text[0] == ':' && text[1] == ':' && text[6] == ':' && forall k :: 2 <= k < 6 ==> text[k] == 'f' || text[k] == 'F';
    }
  }

  /** An address without zone that is not a mapped one is read by the version the library tells, or not at all. */
  lemma ParsesByVersion(address: string, isIp: string -> nat)
    requires '%' !in address && (|address| < 7 || !IsMappedPrefix(address[..7]))
    ensures ParseIp(address, isIp) ==
      if isIp(address) == 4 then Some(V4Of(address)) else if isIp(address) == 6 then Some(V6Of(address)) else None
  {
    ParsesPlain(address);
  }

  // --- IPv6 ----------------------------------------------------------------------------------------------------------

  /** 65536 to the n-th. */
  function GroupPower(n: nat): (p: nat)
    ensures p > 0
  {
    if n == 0 then 1 else 65536 * GroupPower(n - 1)
  }

  /** Each group is one base-65536 digit of the value, the first the most significant. */
  lemma {:induction false} GroupsAreDigits(groups: seq<string>, k: nat)
    requires AreGroups(groups) && k < |groups|
    ensures Reduce(groups) / GroupPower(|groups| - 1 - k) % 65536 == HexValue(groups[k])
    decreases |groups|
  {
    var n := |groups| - 1;
    assert IsGroup(groups[n]);
    GroupValue(groups[n]);
    var rest := Reduce(groups[..n]);
    DivUnique(Reduce(groups), 65536, rest, HexValue(groups[n]));
    if k == n {
      assert Reduce(groups) / 1 == Reduce(groups);
      assert Reduce(groups) % 65536 == HexValue(groups[n]);
    } else {
      GroupsAreDigits(groups[..n], k);
      DivDiv(Reduce(groups), 65536, GroupPower(n - 1 - k));
    }
  }

  /** So the value of a full IPv6 text holds its groups, and its first group alone decides a prefix of 16 bits. */
  lemma FullFormReadsBack(groups: seq<string>, k: nat)
    requires AreGroups(groups) && |groups| == 8 && k < 8
    ensures Ipv6ToBigInt(FullForm(groups)) / GroupPower(7 - k) % 65536 == HexValue(groups[k])
  {
    FullGroups(groups);
    GroupsAreDigits(groups, k);
  }

  function V6Of(text: string): ParsedIp {
    ParsedIp(V6, Ipv6ToBigInt(text))
  }

  lemma FirstGroupDecides(groups: seq<string>, network: seq<string>)
    requires AreGroups(groups) && |groups| == 8 && AreGroups(network) && |network| == 8
    ensures Matches(V6Of(FullForm(groups)), V6Of(FullForm(network)), 16) <==> HexValue(groups[0]) == HexValue(network[0])
  {
    FullGroups(groups);
    FullGroups(network);
    ReduceBound(groups);
    ReduceBound(network);
    MatchesIsSameQuotient(V6Of(FullForm(groups)), V6Of(FullForm(network)), 16);
    FirstGroup(groups);
    FirstGroup(network);
  }

  lemma FirstGroup(groups: seq<string>)
    requires AreGroups(groups) && |groups| == 8
    ensures Reduce(groups) / Pow2(112) == HexValue(groups[0])
  {
    GroupsAreDigits(groups, 0);
    GroupPowers(7);
    ReduceBound(groups);
    Pow2Adds(112, 16);
    Powers();
    QuotientBelow(Reduce(groups), Pow2(112), 65536);
  }

  lemma {:induction false} GroupPowers(n: nat)
    ensures GroupPower(n) == Pow2(16 * n)
  {
    if n > 0 {
      GroupPowers(n - 1);
      Pow2Adds(16, 16 * (n - 1));
      Powers();
    }
  }

  lemma QuotientBelow(x: nat, p: nat, q: nat)
    requires p > 0 && x < p * q
    ensures x / p < q
  {
    if x / p >= q {
      assert p * (x / p) >= p * q by { ProductGrows(p, q, x / p); }
    }
  }

  lemma ProductGrows(p: nat, q: nat, r: nat)
    requires q <= r
    ensures p * q <= p * r
  {
    assert p * r == p * q + p * (r - q);
  }
}
