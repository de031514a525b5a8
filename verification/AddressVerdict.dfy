/** Which addresses the managed MCP URL guard treats as private
    (apps/server/src/local-managed-mcp-url-guard.ts): the tests on octets and words, and
    the table of address prefixes they amount to. */
module AddressVerdict {
  import opened Numerals
  import opened Strings
  import opened Wrappers
  import opened AddressText
  import T = AddressTextTheorems

  // The code's tests

  predicate IsPrivateOctets(o: seq<nat>)
    requires |o| == 4
  {
    var a, b, c := o[0], o[1], o[2];
    || a == 0
    || a == 10
    || a == 127
    || (a == 100 && b >= 64 && b <= 127)
    || (a == 169 && b == 254)
    || (a == 172 && b >= 16 && b <= 31)
    || (a == 192 && b == 0 && (c == 0 || c == 2))
    || (a == 192 && b == 88 && c == 99)
    || (a == 192 && b == 168)
    || (a == 198 && (b == 18 || b == 19))
    || (a == 198 && b == 51 && c == 100)
    || (a == 203 && b == 0 && c == 113)
    || a >= 224
  }

  predicate IsPrivateIpv4(number: Reading, address: string) {
    var octets := ParseIpv4(number, address);
    octets.None? || IsPrivateOctets(octets.value)
  }

  /** embeddedIpv4: the octets are printed, to be parsed again by isPrivateIpv4. */
  function EmbeddedIpv4(words: seq<nat>, offset: nat): string
    requires offset + 1 < |words|
  {
    Join([Print(10, words[offset] / 256), Print(10, BitAnd(words[offset], 0xff)),
          Print(10, words[offset + 1] / 256), Print(10, BitAnd(words[offset + 1], 0xff))], '.')
  }

  predicate AllZero(words: seq<nat>) {
    forall i :: 0 <= i < |words| ==> words[i] == 0
  }

  predicate IsPrivateWords(number: Reading, words: seq<nat>)
    requires |words| == 8
  {
    var first, second, third, fifth, sixth := words[0], words[1], words[2], words[4], words[5];
    if AllZero(words[..7]) && (words[7] == 0 || words[7] == 1) then true
    else if AllZero(words[..5]) && sixth == 0xffff then IsPrivateIpv4(number, EmbeddedIpv4(words, 6))
    else if AllZero(words[..4]) && fifth == 0xffff && sixth == 0 then IsPrivateIpv4(number, EmbeddedIpv4(words, 6))
    else if AllZero(words[..6]) then true
    else if first == 0x0064 && second == 0xff9b && AllZero(words[2..6]) then
      IsPrivateIpv4(number, EmbeddedIpv4(words, 6))
    else if BitAnd(first, 0xfe00) == 0xfc00 || BitAnd(first, 0xffc0) == 0xfe80 || BitAnd(first, 0xffc0) == 0xfec0 then true
    else if BitAnd(first, 0xff00) == 0xff00 then true
    else if first == 0x0100 && AllZero(words[1..4]) then true
    else if first == 0x2001 && (second == 0x0db8 || (second == 0x0002 && third == 0)) then true
    else if first == 0x2001 && (BitAnd(second, 0xfff0) == 0x0010 || BitAnd(second, 0xfff0) == 0x0020) then true
    else first == 0x2002 && IsPrivateIpv4(number, EmbeddedIpv4(words, 1))
  }

  predicate IsPrivateIpv6(number: Reading, address: string) {
    var words := ParseIpv6Words(number, address);
    words.None? || IsPrivateWords(number, words.value)
  }

  /** isLocalManagedMcpPrivateAddress; `version` is what `isIP` says of the address. */
  predicate IsPrivateAddress(number: Reading, version: int, address: string) {
    if version == 4 then IsPrivateIpv4(number, address)
    else if version == 6 then IsPrivateIpv6(number, address)
    else true
  }

  // The table of prefixes

  /** A network: the leading `len` bits of an address written in digits. */
  datatype Cidr = Cidr(base: seq<nat>, len: nat)

  predicate InIpv4(value: nat, c: Cidr)
    requires c.len <= 32
  {
    value / Pow(2, 32 - c.len) == Value(256, c.base) / Pow(2, 32 - c.len)
  }

  predicate InIpv6(value: nat, c: Cidr)
    requires c.len <= 128
  {
    value / Pow(2, 128 - c.len) == Value(0x1_0000, c.base) / Pow(2, 128 - c.len)
  }

  /** The IPv4 networks the guard refuses. */
  predicate Refused4(value: nat) {
    || InIpv4(value, Cidr([0, 0, 0, 0], 8))
    || InIpv4(value, Cidr([10, 0, 0, 0], 8))
    || InIpv4(value, Cidr([100, 64, 0, 0], 10))
    || InIpv4(value, Cidr([127, 0, 0, 0], 8))
    || InIpv4(value, Cidr([169, 254, 0, 0], 16))
    || InIpv4(value, Cidr([172, 16, 0, 0], 12))
    || InIpv4(value, Cidr([192, 0, 0, 0], 24))
    || InIpv4(value, Cidr([192, 0, 2, 0], 24))
    || InIpv4(value, Cidr([192, 88, 99, 0], 24))
    || InIpv4(value, Cidr([192, 168, 0, 0], 16))
    || InIpv4(value, Cidr([198, 18, 0, 0], 15))
    || InIpv4(value, Cidr([198, 51, 100, 0], 24))
    || InIpv4(value, Cidr([203, 0, 113, 0], 24))
    || InIpv4(value, Cidr([224, 0, 0, 0], 3))
  }

  /** The IPv6 networks refused whole. */
  predicate Refused6(value: nat) {
    || InIpv6(value, Cidr([0, 0, 0, 0, 0, 0, 0, 0], 96))
    || InIpv6(value, Cidr([0xfc00, 0, 0, 0, 0, 0, 0, 0], 7))
    || InIpv6(value, Cidr([0xfe80, 0, 0, 0, 0, 0, 0, 0], 10))
    || InIpv6(value, Cidr([0xfec0, 0, 0, 0, 0, 0, 0, 0], 10))
    || InIpv6(value, Cidr([0xff00, 0, 0, 0, 0, 0, 0, 0], 8))
    || InIpv6(value, Cidr([0x0100, 0, 0, 0, 0, 0, 0, 0], 64))
    || InIpv6(value, Cidr([0x2001, 0x0db8, 0, 0, 0, 0, 0, 0], 32))
    || InIpv6(value, Cidr([0x2001, 0x0002, 0, 0, 0, 0, 0, 0], 48))
    || InIpv6(value, Cidr([0x2001, 0x0010, 0, 0, 0, 0, 0, 0], 28))
    || InIpv6(value, Cidr([0x2001, 0x0020, 0, 0, 0, 0, 0, 0], 28))
  }

  /** IPv4-mapped (section 2.5.5.2 of RFC 4291), IPv4-translated and NAT64 (section 2.1 of
      RFC 6052) addresses carry an IPv4 address in their last 32 bits. */
  predicate EmbedsLast(value: nat) {
    || InIpv6(value, Cidr([0, 0, 0, 0, 0, 0xffff, 0, 0], 96))
    || InIpv6(value, Cidr([0, 0, 0, 0, 0xffff, 0, 0, 0], 96))
    || InIpv6(value, Cidr([0x0064, 0xff9b, 0, 0, 0, 0, 0, 0], 96))
  }

  /** 6to4 addresses (section 2 of RFC 3056) carry one after their first 16 bits. */
  predicate Embeds6to4(value: nat) {
    InIpv6(value, Cidr([0x2002, 0, 0, 0, 0, 0, 0, 0], 16))
  }

  /** The verdict on a 128-bit address, whatever order the rules are tried in. */
  predicate Refused(value: nat) {
    || Refused6(value)
    || (EmbedsLast(value) && Refused4(value % 0x1_0000_0000))
    || (Embeds6to4(value) && Refused4(value / Pow(2, 80) % 0x1_0000_0000))
  }

  // IPv4

  /** Membership in a network, digit by digit. */
  lemma InIpv4Means(o: seq<nat>, c: Cidr, k: nat, m: nat)
    requires |o| == 4 && Below(o, 256) && |c.base| == 4 && Below(c.base, 256)
    requires k < 4 && 0 < m <= 8 && c.len == 8 * k + m
    ensures InIpv4(Value(256, o), c) <==> o[..k] == c.base[..k] && o[k] / Pow(2, 8 - m) == c.base[k] / Pow(2, 8 - m)
  {
    hide Value;
    Powers();
    LeadingBits(8, o, c.base, k, m, 32 - c.len);
  }

  lemma Powers()
    ensures Pow(2, 0) == 1 && Pow(2, 1) == 2 && Pow(2, 2) == 4 && Pow(2, 3) == 8 && Pow(2, 4) == 16
    ensures Pow(2, 5) == 32 && Pow(2, 6) == 64 && Pow(2, 7) == 128 && Pow(2, 8) == 256 && Pow(2, 9) == 512
    ensures Pow(2, 16) == 0x1_0000
  {
    assert Pow(2, 3) == 8;
    assert Pow(2, 6) == 64;
    assert Pow(2, 9) == 512;
    assert Pow(2, 12) == 4096;
    assert Pow(2, 15) == 0x8000;
  }

  lemma Ipv4Wide(o: seq<nat>)
    requires |o| == 4 && Below(o, 256)
    ensures InIpv4(Value(256, o), Cidr([0, 0, 0, 0], 8)) <==> o[0] == 0
    ensures InIpv4(Value(256, o), Cidr([10, 0, 0, 0], 8)) <==> o[0] == 10
    ensures InIpv4(Value(256, o), Cidr([127, 0, 0, 0], 8)) <==> o[0] == 127
    ensures InIpv4(Value(256, o), Cidr([224, 0, 0, 0], 3)) <==> o[0] >= 224
  {
    hide InIpv4, Value, Pow;
    Powers();
    InIpv4Means(o, Cidr([0, 0, 0, 0], 8), 0, 8);
    InIpv4Means(o, Cidr([10, 0, 0, 0], 8), 0, 8);
    InIpv4Means(o, Cidr([127, 0, 0, 0], 8), 0, 8);
    InIpv4Means(o, Cidr([224, 0, 0, 0], 3), 0, 3);
  }

  /** A network whose first octet is whole, cut inside the second. */
  lemma Ipv4Second(o: seq<nat>, a: nat, b: nat, m: nat)
    requires |o| == 4 && Below(o, 256) && a < 256 && b < 256 && 0 < m <= 8
    ensures InIpv4(Value(256, o), Cidr([a, b, 0, 0], 8 + m)) <==>
            o[0] == a && o[1] / Pow(2, 8 - m) == b / Pow(2, 8 - m)
  {
    hide InIpv4, Value, Pow;
    InIpv4Means(o, Cidr([a, b, 0, 0], 8 + m), 1, m);
    assert o[..1] == [o[0]] && [a, b, 0, 0][..1] == [a];
  }

  lemma Ipv4Third(o: seq<nat>, a: nat, b: nat, c: nat)
    requires |o| == 4 && Below(o, 256) && a < 256 && b < 256 && c < 256
    ensures InIpv4(Value(256, o), Cidr([a, b, c, 0], 24)) <==> o[0] == a && o[1] == b && o[2] == c
  {
    hide InIpv4, Value, Pow;
    Powers();
    InIpv4Means(o, Cidr([a, b, c, 0], 24), 2, 8);
    assert o[..2] == [o[0], o[1]] && [a, b, c, 0][..2] == [a, b];
  }

  lemma Ipv4Ranges(o: seq<nat>)
    requires |o| == 4 && Below(o, 256)
    ensures InIpv4(Value(256, o), Cidr([100, 64, 0, 0], 10)) <==> o[0] == 100 && 64 <= o[1] <= 127
    ensures InIpv4(Value(256, o), Cidr([169, 254, 0, 0], 16)) <==> o[0] == 169 && o[1] == 254
    ensures InIpv4(Value(256, o), Cidr([172, 16, 0, 0], 12)) <==> o[0] == 172 && 16 <= o[1] <= 31
    ensures InIpv4(Value(256, o), Cidr([192, 168, 0, 0], 16)) <==> o[0] == 192 && o[1] == 168
    ensures InIpv4(Value(256, o), Cidr([198, 18, 0, 0], 15)) <==> o[0] == 198 && 18 <= o[1] <= 19
  {
    hide InIpv4, Value, Pow;
    Powers();
    Ipv4Second(o, 100, 64, 2);
    Ipv4Second(o, 169, 254, 8);
    Ipv4Second(o, 172, 16, 4);
    Ipv4Second(o, 192, 168, 8);
    Ipv4Second(o, 198, 18, 7);
  }

  /** The octet tests accept exactly the union of fourteen networks. */
  lemma OctetsAreNetworks(o: seq<nat>)
    requires |o| == 4 && Below(o, 256)
    ensures IsPrivateOctets(o) <==> Refused4(Value(256, o))
  {
    hide InIpv4, Value, Pow, Below;
    Ipv4Wide(o);
    Ipv4Ranges(o);
    Ipv4Third(o, 192, 0, 0);
    Ipv4Third(o, 192, 0, 2);
    Ipv4Third(o, 192, 88, 99);
    Ipv4Third(o, 198, 51, 100);
    Ipv4Third(o, 203, 0, 113);
  }

  /** A text is refused as IPv4 exactly when it does not parse or its value lies in a
      refused network. */
  lemma Ipv4Verdict(number: Reading, address: string)
    ensures IsPrivateIpv4(number, address) <==>
            ParseIpv4(number, address).None? || Refused4(Value(256, ParseIpv4(number, address).value))
  {
    hide ParseIpv4, IsPrivateOctets, Refused4, Value;
    if ParseIpv4(number, address).Some? {
      OctetsAreNetworks(ParseIpv4(number, address).value);
    }
  }

  // IPv6

  lemma InIpv6Means(w: seq<nat>, c: Cidr, k: nat, m: nat)
    requires |w| == 8 && Below(w, 0x1_0000) && |c.base| == 8 && Below(c.base, 0x1_0000)
    requires k < 8 && 0 < m <= 16 && c.len == 16 * k + m
    ensures InIpv6(Value(0x1_0000, w), c) <==>
            w[..k] == c.base[..k] && w[k] / Pow(2, 16 - m) == c.base[k] / Pow(2, 16 - m)
  {
    hide Value;
    Powers();
    LeadingBits(16, w, c.base, k, m, 128 - c.len);
  }

  /** A network cut at a word boundary. */
  lemma InWholeWords(w: seq<nat>, c: Cidr, k: nat)
    requires |w| == 8 && Below(w, 0x1_0000) && |c.base| == 8 && Below(c.base, 0x1_0000)
    requires 0 < k <= 8 && c.len == 16 * k
    ensures InIpv6(Value(0x1_0000, w), c) <==> w[..k] == c.base[..k]
  {
    hide InIpv6, Value, Pow;
    Powers();
    InIpv6Means(w, c, k - 1, 16);
    assert w[..k] == w[..k - 1] + [w[k - 1]] && c.base[..k] == c.base[..k - 1] + [c.base[k - 1]];
    if w[..k] == c.base[..k] {
      assert w[..k - 1] == w[..k][..k - 1] && w[k - 1] == w[..k][k - 1];
      assert c.base[..k - 1] == c.base[..k][..k - 1] && c.base[k - 1] == c.base[..k][k - 1];
    }
  }

  /** Each mask test is the test of a prefix. */
  lemma MasksArePrefixes(w: seq<nat>)
    requires |w| == 8 && Below(w, 0x1_0000)
    ensures BitAnd(w[0], 0xfe00) == 0xfc00 <==> InIpv6(Value(0x1_0000, w), Cidr([0xfc00, 0, 0, 0, 0, 0, 0, 0], 7))
    ensures BitAnd(w[0], 0xffc0) == 0xfe80 <==> InIpv6(Value(0x1_0000, w), Cidr([0xfe80, 0, 0, 0, 0, 0, 0, 0], 10))
    ensures BitAnd(w[0], 0xffc0) == 0xfec0 <==> InIpv6(Value(0x1_0000, w), Cidr([0xfec0, 0, 0, 0, 0, 0, 0, 0], 10))
    ensures BitAnd(w[0], 0xff00) == 0xff00 <==> InIpv6(Value(0x1_0000, w), Cidr([0xff00, 0, 0, 0, 0, 0, 0, 0], 8))
    ensures w[0] == 0x2001 && BitAnd(w[1], 0xfff0) == 0x0010 <==>
            InIpv6(Value(0x1_0000, w), Cidr([0x2001, 0x0010, 0, 0, 0, 0, 0, 0], 28))
    ensures w[0] == 0x2001 && BitAnd(w[1], 0xfff0) == 0x0020 <==>
            InIpv6(Value(0x1_0000, w), Cidr([0x2001, 0x0020, 0, 0, 0, 0, 0, 0], 28))
  {
    hide InIpv6, Value, Pow, BitAnd;
    Powers();
    HighMask(w[0], 16, 9, 126);
    InIpv6Means(w, Cidr([0xfc00, 0, 0, 0, 0, 0, 0, 0], 7), 0, 7);
    HighMask(w[0], 16, 6, 1018);
    InIpv6Means(w, Cidr([0xfe80, 0, 0, 0, 0, 0, 0, 0], 10), 0, 10);
    HighMask(w[0], 16, 6, 1019);
    InIpv6Means(w, Cidr([0xfec0, 0, 0, 0, 0, 0, 0, 0], 10), 0, 10);
    HighMask(w[0], 16, 8, 255);
    InIpv6Means(w, Cidr([0xff00, 0, 0, 0, 0, 0, 0, 0], 8), 0, 8);
    HighMask(w[1], 16, 4, 1);
    HighMask(w[1], 16, 4, 2);
    SecondWord(w, 0x0010);
    SecondWord(w, 0x0020);
  }

  lemma SecondWord(w: seq<nat>, second: nat)
    requires |w| == 8 && Below(w, 0x1_0000) && second < 0x1_0000
    ensures InIpv6(Value(0x1_0000, w), Cidr([0x2001, second, 0, 0, 0, 0, 0, 0], 28)) <==>
            w[0] == 0x2001 && w[1] / 16 == second / 16
  {
    hide InIpv6, Value, Pow;
    Powers();
    InIpv6Means(w, Cidr([0x2001, second, 0, 0, 0, 0, 0, 0], 28), 1, 12);
    assert w[..1] == [w[0]];
  }

  /** The networks the code recognises by whole words. */
  lemma WordsArePrefixes(w: seq<nat>)
    requires |w| == 8 && Below(w, 0x1_0000)
    ensures AllZero(w[..6]) <==> InIpv6(Value(0x1_0000, w), Cidr([0, 0, 0, 0, 0, 0, 0, 0], 96))
    ensures AllZero(w[..5]) && w[5] == 0xffff <==> InIpv6(Value(0x1_0000, w), Cidr([0, 0, 0, 0, 0, 0xffff, 0, 0], 96))
    ensures AllZero(w[..4]) && w[4] == 0xffff && w[5] == 0 <==>
            InIpv6(Value(0x1_0000, w), Cidr([0, 0, 0, 0, 0xffff, 0, 0, 0], 96))
    ensures w[0] == 0x0064 && w[1] == 0xff9b && AllZero(w[2..6]) <==>
            InIpv6(Value(0x1_0000, w), Cidr([0x0064, 0xff9b, 0, 0, 0, 0, 0, 0], 96))
    ensures w[0] == 0x0100 && AllZero(w[1..4]) <==>
            InIpv6(Value(0x1_0000, w), Cidr([0x0100, 0, 0, 0, 0, 0, 0, 0], 64))
    ensures w[0] == 0x2001 && w[1] == 0x0db8 <==>
            InIpv6(Value(0x1_0000, w), Cidr([0x2001, 0x0db8, 0, 0, 0, 0, 0, 0], 32))
    ensures w[0] == 0x2001 && w[1] == 0x0002 && w[2] == 0 <==>
            InIpv6(Value(0x1_0000, w), Cidr([0x2001, 0x0002, 0, 0, 0, 0, 0, 0], 48))
    ensures w[0] == 0x2002 <==> Embeds6to4(Value(0x1_0000, w))
  {
    hide InIpv6, Value, Pow, Below;
    ZeroWords(w);
    SixWords(w, 0, 0, 0, 0, 0, 0);
    SixWords(w, 0, 0, 0, 0, 0, 0xffff);
    SixWords(w, 0, 0, 0, 0, 0xffff, 0);
    SixWords(w, 0x0064, 0xff9b, 0, 0, 0, 0);
    FewWords(w, 0x0100, 0, 0, 0);
    FewWords(w, 0x2001, 0x0db8, 0, 0);
    FewWords(w, 0x2001, 0x0002, 0, 0);
    FewWords(w, 0x2002, 0, 0, 0);
  }

  lemma ZeroWords(w: seq<nat>)
    requires |w| == 8
    ensures AllZero(w[..4]) <==> w[0] == w[1] == w[2] == w[3] == 0
    ensures AllZero(w[..5]) <==> w[0] == w[1] == w[2] == w[3] == w[4] == 0
    ensures AllZero(w[..6]) <==> w[0] == w[1] == w[2] == w[3] == w[4] == w[5] == 0
    ensures AllZero(w[..7]) <==> w[0] == w[1] == w[2] == w[3] == w[4] == w[5] == w[6] == 0
    ensures AllZero(w[2..6]) <==> w[2] == w[3] == w[4] == w[5] == 0
    ensures AllZero(w[1..4]) <==> w[1] == w[2] == w[3] == 0
  {
    assert w[..4] == [w[0], w[1], w[2], w[3]];
    assert w[..5] == [w[0], w[1], w[2], w[3], w[4]];
    assert w[..6] == [w[0], w[1], w[2], w[3], w[4], w[5]];
    assert w[..7] == [w[0], w[1], w[2], w[3], w[4], w[5], w[6]];
    assert w[2..6] == [w[2], w[3], w[4], w[5]];
    assert w[1..4] == [w[1], w[2], w[3]];
    assert AllZero([w[1], w[2], w[3]]) ==> w[3] == 0;
  }

  lemma SixWords(w: seq<nat>, a: nat, b: nat, c: nat, d: nat, e: nat, f: nat)
    requires |w| == 8 && Below(w, 0x1_0000) && a < 0x1_0000 && b < 0x1_0000 && c < 0x1_0000
    requires d < 0x1_0000 && e < 0x1_0000 && f < 0x1_0000
    ensures InIpv6(Value(0x1_0000, w), Cidr([a, b, c, d, e, f, 0, 0], 96)) <==>
            w[0] == a && w[1] == b && w[2] == c && w[3] == d && w[4] == e && w[5] == f
  {
    hide InIpv6, Value, Pow;
    var net := [a, b, c, d, e, f, 0, 0];
    InWholeWords(w, Cidr(net, 96), 6);
    assert w[..6] == [w[0], w[1], w[2], w[3], w[4], w[5]];
    assert net[..6] == [a, b, c, d, e, f];
  }

  lemma FewWords(w: seq<nat>, a: nat, b: nat, c: nat, d: nat)
    requires |w| == 8 && Below(w, 0x1_0000) && a < 0x1_0000 && b < 0x1_0000 && c < 0x1_0000 && d < 0x1_0000
    ensures InIpv6(Value(0x1_0000, w), Cidr([a, b, c, d, 0, 0, 0, 0], 16)) <==> w[0] == a
    ensures InIpv6(Value(0x1_0000, w), Cidr([a, b, c, d, 0, 0, 0, 0], 32)) <==> w[0] == a && w[1] == b
    ensures InIpv6(Value(0x1_0000, w), Cidr([a, b, c, d, 0, 0, 0, 0], 48)) <==> w[0] == a && w[1] == b && w[2] == c
    ensures InIpv6(Value(0x1_0000, w), Cidr([a, b, c, d, 0, 0, 0, 0], 64)) <==>
            w[0] == a && w[1] == b && w[2] == c && w[3] == d
  {
    hide InIpv6, Value, Pow;
    var net := [a, b, c, d, 0, 0, 0, 0];
    InWholeWords(w, Cidr(net, 16), 1);
    InWholeWords(w, Cidr(net, 32), 2);
    InWholeWords(w, Cidr(net, 48), 3);
    InWholeWords(w, Cidr(net, 64), 4);
    assert w[..1] == [w[0]] && net[..1] == [a];
    assert w[..2] == [w[0], w[1]] && net[..2] == [a, b];
    assert w[..3] == [w[0], w[1], w[2]] && net[..3] == [a, b, c];
    assert w[..4] == [w[0], w[1], w[2], w[3]] && net[..4] == [a, b, c, d];
  }

  /** Printing two words as a dotted quad and parsing it back gives the verdict on the 32
      bits they hold. */
  lemma EmbeddedVerdict(number: Reading, w: seq<nat>, offset: nat)
    requires ReadsDecimals(number) && |w| == 8 && Below(w, 0x1_0000) && offset <= 6
    ensures IsPrivateIpv4(number, EmbeddedIpv4(w, offset)) <==>
            Refused4(Value(0x1_0000, w) / Pow(2, 16 * (6 - offset)) % 0x1_0000_0000)
  {
    hide ReadsDecimals, ParseIpv4, Refused4, Print, Join, BitAnd, Value, Pow;
    var octets := WordOctets(w, offset);
    EmbeddedIsDotted(w, offset);
    T.DottedReads(number, octets);
    Ipv4Verdict(number, Dotted(octets));
    EmbeddedValue(w, offset);
  }

  lemma EmbeddedIsDotted(w: seq<nat>, offset: nat)
    requires |w| == 8 && Below(w, 0x1_0000) && offset <= 6
    ensures Below(WordOctets(w, offset), 256)
    ensures EmbeddedIpv4(w, offset) == Dotted(WordOctets(w, offset))
  {
    hide Pow, Print, Join, BitAnd;
    Powers();
    LowMask(w[offset], 8);
    LowMask(w[offset + 1], 8);
  }

  lemma EmbeddedValue(w: seq<nat>, offset: nat)
    requires |w| == 8 && Below(w, 0x1_0000) && offset <= 6
    ensures Value(0x1_0000, w) / Pow(2, 16 * (6 - offset)) % 0x1_0000_0000 == Value(256, WordOctets(w, offset))
  {
    hide Pow, Value;
    Powers();
    PowPow(16, 6 - offset);
    LeadingValue(0x1_0000, w, offset + 2);
    var two := [w[offset], w[offset + 1]];
    assert w[..offset + 2] == w[..offset] + two;
    ValueConcat(0x1_0000, w[..offset], two);
    TwoWords(w[offset], w[offset + 1]);
    Remainder(Value(0x1_0000, w[..offset + 2]), 0x1_0000_0000, Value(0x1_0000, w[..offset]), Value(0x1_0000, two));
  }

  lemma TwoWords(a: nat, b: nat)
    requires a < 0x1_0000 && b < 0x1_0000
    ensures Value(0x1_0000, [a, b]) == 0x1_0000 * a + b < 0x1_0000_0000
    ensures Value(256, [a / 256, a % 256, b / 256, b % 256]) == 0x1_0000 * a + b
    ensures Pow(0x1_0000, 2) == 0x1_0000_0000
  {
    assert Pow(0x1_0000, 1) == 0x1_0000;
    ValueConcat(0x1_0000, [a], [b]);
    OneDigit(0x1_0000, a);
    OneDigit(0x1_0000, b);
    assert [a] + [b] == [a, b];
    Octets(a);
    Octets(b);
    ValueConcat(256, [a / 256, a % 256], [b / 256, b % 256]);
    assert [a / 256, a % 256] + [b / 256, b % 256] == [a / 256, a % 256, b / 256, b % 256];
  }

  lemma Octets(a: nat)
    ensures Value(256, [a / 256, a % 256]) == a && Pow(256, 2) == 0x1_0000
  {
    assert Pow(256, 1) == 256;
    ValueConcat(256, [a / 256], [a % 256]);
    OneDigit(256, a / 256);
    OneDigit(256, a % 256);
    assert [a / 256] + [a % 256] == [a / 256, a % 256];
  }

  lemma FirstBelow(w: seq<nat>)
    requires |w| == 8 && Below(w, 0x1_0000)
    ensures w[0] < 0x1_0000
  {
  }

  lemma LastBits(w: seq<nat>)
    requires |w| == 8
    ensures Pow(2, 0) == 1 && Pow(2, 16 * (6 - 6)) == 1 && Value(0x1_0000, w) / 1 == Value(0x1_0000, w)
  {
  }

  /** The words that begin an embedding or a null prefix pass no mask test. */
  lemma NoMask(first: nat)
    requires first < 0x1_0000
    ensures first <= 0x2002 ==>
      BitAnd(first, 0xfe00) != 0xfc00 && BitAnd(first, 0xffc0) != 0xfe80 &&
      BitAnd(first, 0xffc0) != 0xfec0 && BitAnd(first, 0xff00) != 0xff00
  {
    hide BitAnd, Pow;
    Powers();
    HighMask(first, 16, 9, 126);
    HighMask(first, 16, 6, 1018);
    HighMask(first, 16, 6, 1019);
    HighMask(first, 16, 8, 255);
  }

  /** The rules on words, in the order the code tries them, refuse exactly the addresses
      whose 128-bit value the table refuses. */
  lemma WordsVerdict(number: Reading, w: seq<nat>)
    requires ReadsDecimals(number) && |w| == 8 && Below(w, 0x1_0000)
    ensures IsPrivateWords(number, w) <==> Refused(Value(0x1_0000, w))
  {
    hide ReadsDecimals, InIpv6, Refused4, Value, Pow, BitAnd, EmbeddedIpv4, IsPrivateIpv4, Embeds6to4, Below, AllZero;
    MasksArePrefixes(w);
    WordsArePrefixes(w);
    EmbeddedVerdict(number, w, 6);
    EmbeddedVerdict(number, w, 1);
    LastBits(w);
    assert w[0] < 0x1_0000 by {
      FirstBelow(w);
    }
    ZeroWords(w);
    NoMask(w[0]);
  }

  /** An address is refused as IPv6 exactly when it does not parse or has a value the table
      refuses: when, in lower case, it is no text form, or is one of words the table refuses,
      provided that decimal octets are all there is between the dots of its tail. */
  lemma Ipv6Verdict(number: Reading, address: string)
    requires ReadsDecimals(number)
    ensures IsPrivateIpv6(number, address) <==>
            forall words :: ParseIpv6Words(number, address) == Some(words) ==> Refused(Value(0x1_0000, words))
    ensures DecimalTail(Lower(address)) ==>
            (IsPrivateIpv6(number, address) <==>
             forall words :: Spells(Lower(address), words) ==> Refused(Value(0x1_0000, words)))
  {
    hide ReadsDecimals, IsPrivateWords, Refused, Value, Spells, ParseIpv6Words, DecimalTail;
    forall words ensures Spells(Lower(address), words) <==>
                         ParseIpv6Words(number, address) == Some(words) && DecimalTail(Lower(address))
    {
      T.ParsesExactlyForms(number, address, words);
    }
    if ParseIpv6Words(number, address).Some? {
      var words := ParseIpv6Words(number, address).value;
      T.EightWords(number, address);
      WordsVerdict(number, words);
    }
  }

  /** In whatever text form it is written, an address that embeds an IPv4 address (mapped,
      translated, NAT64 or 6to4) gets the verdict of that IPv4 address's own text. */
  lemma EmbeddedText(number: Reading, words: seq<nat>, elide: Option<Run>, dotted: bool)
    requires ReadsDecimals(number) && Writable(words, elide, dotted)
    ensures var refused := IsPrivateIpv6(number, Text(Form4291(words, elide, dotted)));
            && (EmbedsLast(Value(0x1_0000, words)) ==>
                 (refused <==> IsPrivateIpv4(number, Dotted(WordOctets(words, 6)))))
            && (Embeds6to4(Value(0x1_0000, words)) ==>
                 (refused <==> IsPrivateIpv4(number, Dotted(WordOctets(words, 1)))))
  {
    hide ReadsDecimals, ParseIpv6Words, Text, Form4291, IsPrivateIpv4, Value, InIpv6, Dotted, BitAnd, EmbeddedIpv4, Below;
    T.RoundTrip(number, words, elide, dotted);
    WordsArePrefixes(words);
    EmbeddedIsDotted(words, 6);
    EmbeddedIsDotted(words, 1);
    ZeroWords(words);
    assert words[0] < 0x1_0000 by {
      FirstBelow(words);
    }
    NoMask(words[0]);
  }

  // The exported function

  function OctetsOf(quad: seq<string>): seq<nat>
    requires IsDottedQuad(quad)
  {
    [ReadDecimal(quad[0]), ReadDecimal(quad[1]), ReadDecimal(quad[2]), ReadDecimal(quad[3])]
  }

  /** What `isIP` is relied on for: it takes nothing for an IPv4 address but four decimal
      octets, and nothing without a zone for an IPv6 address but a text form. */
  ghost predicate Classifies(isIP: string -> int) {
    && (forall a :: isIP(a) == 4 ==> exists quad :: IsDottedQuad(quad) && Join(quad, '.') == a)
    && (forall a :: isIP(a) == 6 && '%' !in a ==> exists words :: Spells(Lower(a), words))
  }

  lemma QuadVerdict(number: Reading, quad: seq<string>)
    requires ReadsDecimals(number) && IsDottedQuad(quad)
    ensures IsPrivateIpv4(number, Join(quad, '.')) <==> Refused4(Value(256, OctetsOf(quad)))
  {
    T.QuadReads(number, quad);
    hide ReadsDecimals, IsPrivateIpv4, ParseIpv4, Refused4, Value, Join, ReadDecimal;
    Ipv4Verdict(number, Join(quad, '.'));
  }

  lemma ZonedIsPrivate(number: Reading, address: string)
    requires '%' in address
    ensures IsPrivateIpv6(number, address)
  {
    var i :| 0 <= i < |address| && address[i] == '%';
    assert Lower(address)[i] == '%';
  }

  /** The guard refuses an address exactly when it is none, is zoned, or is four decimal
      octets or a text form whose value lies in a refused network. A tail that is not
      decimal never gets this far. */
  lemma GuardVerdict(number: Reading, isIP: string -> int, address: string)
    requires ReadsDecimals(number) && Classifies(isIP)
    ensures isIP(address) == 4 ==>
      exists quad :: IsDottedQuad(quad) && Join(quad, '.') == address &&
        (IsPrivateAddress(number, 4, address) <==> Refused4(Value(256, OctetsOf(quad))))
    ensures isIP(address) == 6 && '%' !in address ==>
      exists words :: Spells(Lower(address), words) &&
        (IsPrivateAddress(number, 6, address) <==> Refused(Value(0x1_0000, words)))
    ensures isIP(address) == 6 && '%' in address ==> IsPrivateAddress(number, 6, address)
    ensures isIP(address) != 4 && isIP(address) != 6 ==> IsPrivateAddress(number, isIP(address), address)
  {
    hide ReadsDecimals, IsPrivateIpv4, IsPrivateIpv6, Refused4, Refused, Value, Join, Spells, IsDottedQuad, OctetsOf, Lower,
         ParseIpv6Words, DecimalTail;
    if isIP(address) == 4 {
      var quad :| IsDottedQuad(quad) && Join(quad, '.') == address;
      QuadVerdict(number, quad);
    } else if isIP(address) == 6 && '%' in address {
      ZonedIsPrivate(number, address);
    } else if isIP(address) == 6 {
      var words :| Spells(Lower(address), words);
      T.ParsesExactlyForms(number, address, words);
      Ipv6Verdict(number, address);
    }
  }
}
