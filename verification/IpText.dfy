// Reading IP addresses: every legal "::" compression of eight groups (section 2.2 of RFC 4291) gives the
// same 128-bit value as the full form.
module IpText {
  import opened Tables
  import opened Providers
  import opened Cidr

  // --- Splitting and joining --------------------------------------------------------------------------

  /** The first place from `i` on where `sep` occurs. */
  function FindFrom(s: string, sep: string, i: nat): (at: Option<nat>)
    ensures at.Some? ==> i <= at.value && at.value + |sep| <= |s|
    decreases |s| - i
  {
    if i + |sep| > |s| then None
    else if s[i..i + |sep|] == sep then Some(i)
    else if i == |s| then None
    else FindFrom(s, sep, i + 1)
  }

  function Split(s: string, sep: string): (parts: seq<string>)
    requires sep != ""
    ensures parts != []
    decreases |s|
  {
    match FindFrom(s, sep, 0)
    case None => [s]
    case Some(i) => [s[..i]] + Split(s[i + |sep|..], sep)
  }

  function Join(parts: seq<string>, sep: char): string {
    if parts == [] then ""
    else if |parts| == 1 then parts[0]
    else parts[0] + [sep] + Join(parts[1..], sep)
  }

  function NonEmpty(parts: seq<string>): seq<string> {
    if parts == [] then []
    else (if parts[0] == "" then [] else [parts[0]]) + NonEmpty(parts[1..])
  }

  lemma {:induction false} FindsFirst(a: string, c: char, b: string, i: nat)
    requires c !in a && i <= |a|
    ensures FindFrom(a + [c] + b, [c], i) == Some(|a|)
    decreases |a| - i
  {
    var s := a + [c] + b;
    assert s[i..i + 1] == [s[i]];
    if i < |a| {
      assert s[i] == a[i];
      FindsFirst(a, c, b, i + 1);
    }
  }

  lemma {:induction false} FindsNone(a: string, c: char, i: nat)
    requires c !in a && i <= |a|
    ensures FindFrom(a, [c], i) == None
    decreases |a| - i
  {
    if i < |a| {
      assert a[i..i + 1] == [a[i]];
      FindsNone(a, c, i + 1);
    }
  }

  /** Splitting undoes joining. */
  lemma {:induction false} SplitJoin(parts: seq<string>, sep: char)
    requires parts != [] && forall k :: 0 <= k < |parts| ==> sep !in parts[k]
    ensures Split(Join(parts, sep), [sep]) == parts
    decreases |parts|
  {
    if |parts| == 1 {
      FindsNone(parts[0], sep, 0);
    } else {
      var rest := Join(parts[1..], sep);
      FindsFirst(parts[0], sep, rest, 0);
      assert (parts[0] + [sep] + rest)[|parts[0]| + 1..] == rest;
      assert (parts[0] + [sep] + rest)[..|parts[0]|] == parts[0];
      SplitJoin(parts[1..], sep);
    }
  }

  lemma {:induction false} NonEmptyKeeps(parts: seq<string>)
    requires forall k :: 0 <= k < |parts| ==> parts[k] != ""
    ensures NonEmpty(parts) == parts
    decreases |parts|
  {
    if parts != [] {
      NonEmptyKeeps(parts[1..]);
    }
  }

  // --- Numbers -------------------------------------------------------------------------------------------

  predicate IsDigit(c: char) {
    '0' <= c <= '9'
  }

  predicate IsHex(c: char) {
    IsDigit(c) || 'a' <= c <= 'f' || 'A' <= c <= 'F'
  }

  function DigitOf(c: char): (d: nat)
    requires IsHex(c)
    ensures d < 16
  {
    if IsDigit(c) then c as int - '0' as int
    else if 'a' <= c <= 'f' then c as int - 'a' as int + 10
    else c as int - 'A' as int + 10
  }

  /** `parseInt(text, 16)`: it stops at the first character that is not a digit. */
  function ParseHex(text: string, sofar: nat): nat {
    if text == "" || !IsHex(text[0]) then sofar else ParseHex(text[1..], sofar * 16 + DigitOf(text[0]))
  }

  function HexValue(group: string): nat {
    ParseHex(group, 0)
  }

  /** One group of an IPv6 text. */
  predicate IsGroup(group: string) {
    1 <= |group| <= 4 && forall i :: 0 <= i < |group| ==> IsHex(group[i])
  }

  lemma GroupValue(group: string)
    requires IsGroup(group)
    ensures HexValue(group) < 65536
  {
    GroupBound(group, 0);
    assert Pow2(4 * |group|) <= 65536 by {
      assert Pow2(4) == 16 && Pow2(8) == 256 && Pow2(12) == 4096 && Pow2(16) == 65536;
    }
  }

  lemma {:induction false} GroupBound(text: string, sofar: nat)
    requires forall i :: 0 <= i < |text| ==> IsHex(text[i])
    ensures ParseHex(text, sofar) < (sofar + 1) * Pow2(4 * |text|)
    decreases |text|
  {
    if text != "" {
      var next := sofar * 16 + DigitOf(text[0]);
      var p := Pow2(4 * (|text| - 1));
      GroupBound(text[1..], next);
      Pow2Adds(4, 4 * (|text| - 1));
      assert Pow2(4) == 16;
      ShiftedBound(sofar, DigitOf(text[0]), p);
    }
  }

  lemma ShiftedBound(sofar: nat, digit: nat, p: nat)
    requires digit < 16
    ensures (sofar * 16 + digit + 1) * p <= (sofar + 1) * (16 * p)
  {
    assert (sofar + 1) * (16 * p) == (sofar * 16 + 16) * p;
    assert (sofar * 16 + 16) * p == (sofar * 16 + digit + 1) * p + (15 - digit) * p;
  }

  // --- IPv6 ---------------------------------------------------------------------------------------------------

  /** Shift in one group after the other. */
  function Reduce(groups: seq<string>): nat {
    if groups == [] then 0
    else Reduce(groups[..|groups| - 1]) * 65536 + HexValue(groups[|groups| - 1])
  }

  function Zeros(n: int): (zeros: seq<string>)
    ensures |zeros| == if n > 0 then n else 0
    ensures forall k :: 0 <= k < |zeros| ==> zeros[k] == "0"
  {
    if n <= 0 then [] else Zeros(n - 1) + ["0"]
  }

  function GroupsOf(text: string): seq<string> {
    NonEmpty(Split(text, ":"))
  }

  function Ipv6Groups(address: string): seq<string> {
    var parts := Split(address, "::");
    var head := if parts[0] != "" then GroupsOf(parts[0]) else [];
    var tail := if |parts| > 1 then GroupsOf(parts[1]) else [];
    head + Zeros(8 - (|head| + |tail|)) + tail
  }

  function Ipv6ToBigInt(address: string): nat {
    Reduce(Ipv6Groups(address))
  }

  predicate AreGroups(groups: seq<string>) {
    forall k :: 0 <= k < |groups| ==> IsGroup(groups[k])
  }

  /** The full form of eight groups. */
  function FullForm(groups: seq<string>): string {
    Join(groups, ':')
  }

  /** The compressed form: groups i to j, all zero, are written as "::". */
  function Compressed(groups: seq<string>, i: nat, j: nat): string
    requires i <= j <= |groups|
  {
    Join(groups[..i], ':') + "::" + Join(groups[j..], ':')
  }

  predicate HasNoDouble(s: string) {
    forall k :: 0 <= k < |s| - 1 ==> !(s[k] == ':' && s[k + 1] == ':')
  }

  /** The text of groups is empty or begins and ends with a digit, and holds no "::". */
  lemma {:induction false} JoinShape(groups: seq<string>)
    requires AreGroups(groups)
    ensures var s := Join(groups, ':');
      && HasNoDouble(s)
      && (groups == [] <==> s == "")
      && (s != "" ==> s[0] != ':' && s[|s| - 1] != ':')
    decreases |groups|
  {
    if |groups| > 1 {
      assert IsGroup(groups[0]);
      JoinShape(groups[1..]);
    } else if |groups| == 1 {
      assert IsGroup(groups[0]);
    }
  }

  lemma {:induction false} NoDoubleColon(s: string, i: nat)
    requires HasNoDouble(s) && i <= |s|
    ensures FindFrom(s, "::", i) == None
    decreases |s| - i
  {
    if i + 2 <= |s| {
      assert s[i..i + 2][0] == s[i] && s[i..i + 2][1] == s[i + 1];
      NoDoubleColon(s, i + 1);
    }
  }

  lemma {:induction false} FindsDoubleColon(head: string, tail: string, i: nat)
    requires HasNoDouble(head) && (head != "" ==> head[|head| - 1] != ':') && i <= |head|
    ensures FindFrom(head + "::" + tail, "::", i) == Some(|head|)
    decreases |head| - i
  {
    var s := head + "::" + tail;
    assert s[i..i + 2] == [s[i], s[i + 1]];
    if i < |head| {
      assert s[i] == head[i] && (i + 1 < |head| ==> s[i + 1] == head[i + 1]);
      FindsDoubleColon(head, tail, i + 1);
    }
  }

  lemma NoColonInGroups(groups: seq<string>)
    requires AreGroups(groups)
    ensures forall k :: 0 <= k < |groups| ==> ':' !in groups[k] && groups[k] != ""
  {
    forall k | 0 <= k < |groups| ensures ':' !in groups[k] && groups[k] != "" {
      assert IsGroup(groups[k]);
    }
  }

  /** The groups are read back from their text. */
  lemma GroupsReadBack(groups: seq<string>)
    requires AreGroups(groups)
    ensures GroupsOf(Join(groups, ':')) == groups
  {
    if groups == [] {
      FindsNone("", ':', 0);
      assert Split("", ":") == [""];
      assert NonEmpty([""]) == [] + NonEmpty([""][1..]);
    } else {
      NoColonInGroups(groups);
      SplitJoin(groups, ':');
      NonEmptyKeeps(groups);
    }
  }

  lemma FullGroups(groups: seq<string>)
    requires AreGroups(groups) && |groups| == 8
    ensures Ipv6Groups(FullForm(groups)) == groups
  {
    JoinShape(groups);
    NoDoubleColon(FullForm(groups), 0);
    GroupsReadBack(groups);
  }

  lemma CompressedGroups(groups: seq<string>, i: nat, j: nat)
    requires AreGroups(groups) && |groups| == 8 && i <= j <= 8
    ensures Ipv6Groups(Compressed(groups, i, j)) == groups[..i] + Zeros(j - i) + groups[j..]
  {
    var head, tail := Join(groups[..i], ':'), Join(groups[j..], ':');
    var s := Compressed(groups, i, j);
    JoinShape(groups[..i]);
    JoinShape(groups[j..]);
    FindsDoubleColon(head, tail, 0);
    assert s[..|head|] == head && s[|head| + 2..] == tail;
    NoDoubleColon(tail, 0);
    assert Split(s, "::") == [head, tail];
    GroupsReadBack(groups[..i]);
    GroupsReadBack(groups[j..]);
  }

  /** The value depends on the groups' values only. */
  lemma {:induction false} ReduceByValue(a: seq<string>, b: seq<string>)
    requires |a| == |b| && forall k :: 0 <= k < |a| ==> HexValue(a[k]) == HexValue(b[k])
    ensures Reduce(a) == Reduce(b)
    decreases |a|
  {
    if a != [] {
      ReduceByValue(a[..|a| - 1], b[..|b| - 1]);
    }
  }

  lemma {:induction false} ReduceBound(groups: seq<string>)
    requires AreGroups(groups)
    ensures Reduce(groups) < Pow2(16 * |groups|)
    decreases |groups|
  {
    if groups != [] {
      var n := |groups|;
      assert IsGroup(groups[n - 1]);
      ReduceBound(groups[..n - 1]);
      GroupValue(groups[n - 1]);
      Pow2Adds(16, 16 * (n - 1));
      assert Pow2(16) == 65536 by { assert Pow2(4) == 16 && Pow2(8) == 256 && Pow2(12) == 4096; }
    }
  }

  /** Every legal compression of eight groups is read as the same 128-bit value as the full form. */
  lemma CompressionKeepsValue(groups: seq<string>, i: nat, j: nat)
    requires AreGroups(groups) && |groups| == 8 && i < j <= 8
    requires forall k :: i <= k < j ==> HexValue(groups[k]) == 0
    ensures Ipv6ToBigInt(Compressed(groups, i, j)) == Ipv6ToBigInt(FullForm(groups)) == Reduce(groups)
    ensures InRange(ParsedIp(V6, Ipv6ToBigInt(FullForm(groups))))
  {
    FullGroups(groups);
    CompressedGroups(groups, i, j);
    var short := groups[..i] + Zeros(j - i) + groups[j..];
    assert HexValue("0") == 0 by { assert ParseHex("0", 0) == ParseHex("0"[1..], 0); }
    forall k | 0 <= k < 8 ensures HexValue(short[k]) == HexValue(groups[k]) {
      if i <= k < j {
        assert short[k] == "0";
      } else {
        assert short[k] == groups[k];
      }
    }
    ReduceByValue(short, groups);
    ReduceBound(groups);
  }

  // --- IPv4 and mapped addresses ----------------------------------------------------------------------------

  function DecimalValue(text: string): nat {
    if text == "" then 0
    else DecimalValue(text[..|text| - 1]) * 10 + (if IsDigit(text[|text| - 1]) then DigitOf(text[|text| - 1]) else 0)
  }

  function ReduceOctets(octets: seq<string>): nat {
    if octets == [] then 0
    else ReduceOctets(octets[..|octets| - 1]) * 256 + DecimalValue(octets[|octets| - 1])
  }

  function Ipv4ToBigInt(address: string): nat {
    ReduceOctets(Split(address, "."))
  }

  predicate AllDigits(text: string) {
    text != "" && forall i :: 0 <= i < |text| ==> IsDigit(text[i])
  }

  /** Four octets in text and value. */
  predicate AreOctets(octets: seq<string>) {
    |octets| == 4 && forall k :: 0 <= k < 4 ==> AllDigits(octets[k]) && DecimalValue(octets[k]) < 256
  }

  lemma NoDotInOctets(octets: seq<string>)
    requires AreOctets(octets)
    ensures forall k :: 0 <= k < 4 ==> '.' !in octets[k]
  {
    forall k | 0 <= k < 4 ensures '.' !in octets[k] {
      assert AllDigits(octets[k]);
    }
  }

  /** A dotted quad is read as its base-256 value, within 32 bits. */
  lemma DottedQuadValue(octets: seq<string>)
    requires AreOctets(octets)
    ensures Ipv4ToBigInt(Join(octets, '.'))
         == DecimalValue(octets[0]) * 16777216 + DecimalValue(octets[1]) * 65536
            + DecimalValue(octets[2]) * 256 + DecimalValue(octets[3])
    ensures InRange(ParsedIp(V4, Ipv4ToBigInt(Join(octets, '.'))))
  {
    NoDotInOctets(octets);
    SplitJoin(octets, '.');
    ReduceFour(octets);
    AddressSpace();
  }

  lemma AddressSpace()
    ensures Pow2(32) == 256 * 16777216
  {
    Pow2Adds(16, 16);
    assert Pow2(16) == 65536 by { assert Pow2(4) == 16 && Pow2(8) == 256 && Pow2(12) == 4096; }
  }

  lemma ReduceFour(octets: seq<string>)
    requires |octets| == 4
    ensures ReduceOctets(octets)
         == DecimalValue(octets[0]) * 16777216 + DecimalValue(octets[1]) * 65536
            + DecimalValue(octets[2]) * 256 + DecimalValue(octets[3])
  {
    assert octets[..3][..2] == octets[..2] && octets[..2][..1] == octets[..1] && octets[..1][..0] == [];
    assert ReduceOctets(octets[..1]) == DecimalValue(octets[0]);
    assert ReduceOctets(octets[..2]) == ReduceOctets(octets[..1]) * 256 + DecimalValue(octets[1]);
    assert ReduceOctets(octets[..3]) == ReduceOctets(octets[..2]) * 256 + DecimalValue(octets[2]);
  }

  /** The texts that the mapped-address pattern accepts after its prefix. */
  predicate IsDottedDigits(text: string) {
    var parts := Split(text, ".");
    |parts| == 4 && forall k :: 0 <= k < 4 ==> AllDigits(parts[k])
  }

  predicate IsMappedPrefix(text: string) {
    && |text| == 7
    && text[0] == ':' && text[1] == ':' && text[6] == ':'
    && forall k :: 2 <= k < 6 ==> text[k] == 'f' || text[k] == 'F'
  }

  /** An IPv4-mapped IPv6 text stands for its IPv4 part. */
  function Candidate(text: string): string {
    if |text| >= 7 && IsMappedPrefix(text[..7]) && IsDottedDigits(text[7..]) then text[7..] else text
  }

  /** `isIp` is the library's classification: 4, 6, or neither. */
  function ParseIp(address: string, isIp: string -> nat): Option<ParsedIp> {
    var candidate := Candidate(Split(address, "%")[0]);
    if isIp(candidate) == 4 then Some(ParsedIp(V4, Ipv4ToBigInt(candidate)))
    else if isIp(candidate) == 6 then Some(ParsedIp(V6, Ipv6ToBigInt(candidate)))
    else None
  }

  lemma ParsesPlain(address: string)
    requires '%' !in address
    ensures Split(address, "%")[0] == address
  {
    FindsNone(address, '%', 0);
  }

  /** A zone suffix does not change what an address means. */
  lemma ZoneIsIgnored(address: string, zone: string, isIp: string -> nat)
    requires '%' !in address
    ensures ParseIp(address + "%" + zone, isIp) == ParseIp(address, isIp)
  {
    ParsesPlain(address);
    FindsFirst(address, '%', zone, 0);
    assert (address + "%" + zone)[..|address|] == address;
  }

  /** A mapped dotted quad means the quad itself. */
  lemma MappedMeansQuad(octets: seq<string>, prefix: string, isIp: string -> nat)
    requires AreOctets(octets) && IsMappedPrefix(prefix)
    ensures ParseIp(prefix + Join(octets, '.'), isIp) == ParseIp(Join(octets, '.'), isIp)
  {
    var quad := Join(octets, '.');
    NoDotInOctets(octets);
    SplitJoin(octets, '.');
    QuadCharacters(octets);
    assert '%' !in prefix + quad;
    ParsesPlain(prefix + quad);
    ParsesPlain(quad);
    assert (prefix + quad)[..7] == prefix && (prefix + quad)[7..] == quad;
    assert Candidate(quad) == quad;
  }

  lemma {:induction false} JoinCharacters(parts: seq<string>)
    requires forall k :: 0 <= k < |parts| ==> AllDigits(parts[k])
    ensures forall i :: 0 <= i < |Join(parts, '.')| ==> IsDigit(Join(parts, '.')[i]) || Join(parts, '.')[i] == '.'
    decreases |parts|
  {
    if |parts| > 1 {
      assert AllDigits(parts[0]);
      JoinCharacters(parts[1..]);
    }
  }

  lemma QuadCharacters(octets: seq<string>)
    requires AreOctets(octets)
    ensures '%' !in Join(octets, '.') && ':' !in Join(octets, '.')
  {
    JoinCharacters(octets);
  }
}
