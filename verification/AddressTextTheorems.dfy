/** What parseIpv6Words reads: every text form of section 2.2 of RFC 4291, as the eight words
    it stands for, and beyond those only texts with something else than decimal octets
    between the dots of their tail. */
module AddressTextTheorems {
  import opened Numerals
  import opened Strings
  import opened Wrappers
  import opened AddressText

  // Groups

  lemma GroupFree(g: string, c: char)
    requires IsGroup(g) && !IsHexDigit(c)
    ensures c !in g
  {
  }

  lemma GroupsFree(groups: seq<string>, c: char)
    requires AreGroups(groups) && !IsHexDigit(c)
    ensures Free(groups, c)
  {
    forall i | 0 <= i < |groups| ensures c !in groups[i] {
      GroupFree(groups[i], c);
    }
  }

  /** Joined groups hold no pair of colons and do not end in a colon. */
  lemma {:induction false} JoinedGroups(groups: seq<string>)
    requires AreGroups(groups)
    ensures NoPair(Join(groups, ':'))
    ensures groups != [] ==> Join(groups, ':') != "" && Join(groups, ':')[0] != ':'
    ensures groups != [] ==> Join(groups, ':')[|Join(groups, ':')| - 1] != ':'
  {
    if groups != [] {
      GroupFree(groups[0], ':');
      if |groups| > 1 {
        JoinedGroups(groups[1..]);
      }
    }
  }

  lemma HalfOfGroups(groups: seq<string>)
    requires AreGroups(groups)
    ensures ParseHalf(Join(groups, ':')) == Some(GroupWords(groups))
  {
    if groups == [] {
      assert GroupWords(groups) == [];
    } else {
      JoinedGroups(groups);
      GroupsFree(groups, ':');
      SplitJoined(groups, ':');
    }
  }

  lemma GroupsOfHalf(half: string) returns (groups: seq<string>)
    requires ParseHalf(half).Some?
    ensures AreGroups(groups) && Join(groups, ':') == half && ParseHalf(half) == Some(GroupWords(groups))
  {
    if half == "" {
      groups := [];
      assert GroupWords(groups) == [];
    } else {
      groups := Split(half, ':');
      JoinSplit(half, ':');
    }
  }

  // Forms without a dotted quad

  predicate IsPlain(f: Form) {
    match f
    case Full(groups) => AreGroups(groups) && |groups| == 8
    case Elided(head, tail) => AreGroups(head) && AreGroups(tail) && |head| + |tail| <= 7
  }

  function PlainWords(f: Form): seq<nat>
    requires IsPlain(f)
  {
    match f
    case Full(groups) => GroupWords(groups)
    case Elided(head, tail) => GroupWords(head) + Zeros(8 - |head| - |tail|) + GroupWords(tail)
  }

  lemma FullParses(groups: seq<string>)
    requires AreGroups(groups) && |groups| == 8
    ensures ParseHalves(Join(groups, ':')) == Some(GroupWords(groups))
  {
    hide Join, AreGroups, SplitPairs, NoPair;
    JoinedGroups(groups);
    PairsWhole(Join(groups, ':'));
    HalfOfGroups(groups);
    assert ParseHalf("") == Some([]);
  }

  lemma HalvesParse(text: string, a: string, b: string, head: seq<nat>, tail: seq<nat>)
    requires SplitPairs(text) == [a, b] && ParseHalf(a) == Some(head) && ParseHalf(b) == Some(tail)
    requires |head| + |tail| <= 7
    ensures ParseHalves(text) == Some(head + Zeros(8 - |head| - |tail|) + tail)
  {
    hide SplitPairs, ParseHalf, Zeros;
  }

  lemma ElidedSplits(head: seq<string>, tail: seq<string>)
    requires AreGroups(head) && AreGroups(tail)
    ensures SplitPairs(Join(head, ':') + "::" + Join(tail, ':')) == [Join(head, ':'), Join(tail, ':')]
  {
    hide Join, AreGroups, SplitPairs, NoPair;
    JoinedGroups(head);
    JoinedGroups(tail);
    assert head == [] ==> Join(head, ':') == "" by {
      EmptyJoin();
    }
    PairsConcat(Join(head, ':'), Join(tail, ':'));
    PairsWhole(Join(tail, ':'));
  }

  lemma ElidedParses(head: seq<string>, tail: seq<string>)
    requires AreGroups(head) && AreGroups(tail) && |head| + |tail| <= 7
    ensures ParseHalves(Join(head, ':') + "::" + Join(tail, ':')) ==
            Some(GroupWords(head) + Zeros(8 - |head| - |tail|) + GroupWords(tail))
  {
    hide Join, AreGroups, SplitPairs, ParseHalf, ParseHalves, Zeros, GroupWords;
    ElidedSplits(head, tail);
    HalfOfGroups(head);
    HalfOfGroups(tail);
    HalvesParse(Join(head, ':') + "::" + Join(tail, ':'), Join(head, ':'), Join(tail, ':'), GroupWords(head), GroupWords(tail));
  }

  lemma EmptyJoin()
    ensures Join([], ':') == ""
  {
  }

  lemma PlainParses(f: Form)
    requires IsPlain(f)
    ensures ParseHalves(Text(f)) == Some(PlainWords(f))
  {
    hide ParseHalves, Join;
    match f
    case Full(groups) => FullParses(groups);
    case Elided(head, tail) => ElidedParses(head, tail);
  }

  lemma ParsesPlain(text: string) returns (f: Form)
    requires ParseHalves(text).Some?
    ensures IsPlain(f) && Text(f) == text && ParseHalves(text) == Some(PlainWords(f))
  {
    hide SplitPairs, ParseHalf, Join;
    var halves := SplitPairs(text);
    PairsRejoin(text);
    var head := GroupsOfHalf(halves[0]);
    if |halves| == 1 {
      f := Full(head);
    } else {
      var tail := GroupsOfHalf(halves[1]);
      f := Elided(head, tail);
    }
  }

  // Dotted quads

  function WithLast(f: Form, last: seq<string>): Form {
    match f
    case Full(_) => Full(last)
    case Elided(head, _) => Elided(head, last)
  }

  /** The text of a form before its last group, given the groups before that one. */
  function Before(f: Form, groups: seq<string>): string {
    match f
    case Full(_) => Lead(groups, ':')
    case Elided(head, _) => Join(head, ':') + "::" + Lead(groups, ':')
  }

  lemma TextEnds(f: Form, groups: seq<string>, last: string)
    ensures Text(WithLast(f, groups + [last])) == Before(f, groups) + last
  {
    JoinAppend(groups, last, ':');
  }

  lemma TextEndsInTwo(f: Form, groups: seq<string>, a: string, b: string)
    ensures Text(WithLast(f, groups + [a, b])) == Before(f, groups) + a + ":" + b
  {
    hide Text;
    TextEnds(f, groups + [a], b);
    LeadOne(f, groups, a);
    assert groups + [a] + [b] == groups + [a, b];
  }

  lemma LeadOne(f: Form, groups: seq<string>, a: string)
    ensures Before(f, groups + [a]) == Before(f, groups) + a + ":"
  {
    hide Join;
    JoinAppend(groups, a, ':');
  }

  /** The parts a text form is made of, with the empty ones around an elision. */
  function Fields(f: Form): seq<string> {
    match f
    case Full(groups) => groups
    case Elided(head, tail) => OrEmpty(head) + [""] + OrEmpty(tail)
  }

  function OrEmpty(groups: seq<string>): seq<string> {
    if groups == [] then [""] else groups
  }

  lemma SplitOrEmpty(groups: seq<string>)
    requires AreGroups(groups)
    ensures Split(Join(groups, ':'), ':') == OrEmpty(groups)
  {
    if groups != [] {
      GroupsFree(groups, ':');
      SplitJoined(groups, ':');
    }
  }

  lemma TextFields(f: Form)
    requires IsPlain(f)
    ensures Split(Text(f), ':') == Fields(f)
  {
    hide Join, Split, AreGroups, OrEmpty;
    match f
    case Full(groups) =>
      SplitOrEmpty(groups);
      PlainFull(f);
    case Elided(head, tail) =>
      SplitOrEmpty(head);
      SplitOrEmpty(tail);
      SplitElided(Join(head, ':'), Join(tail, ':'));
      assert Fields(f) == OrEmpty(head) + [""] + OrEmpty(tail);
  }

  lemma PlainFull(f: Form)
    requires IsPlain(f) && f.Full?
    ensures OrEmpty(f.groups) == f.groups
  {
  }

  lemma SplitElided(h: string, t: string)
    ensures Split(h + "::" + t, ':') == Split(h, ':') + [""] + Split(t, ':')
  {
    SplitEmpty();
    SplitConcat(h, "" + [':'] + t, ':');
    SplitConcat("", t, ':');
    hide Split;
    assert h + "::" + t == h + [':'] + ("" + [':'] + t);
    assert Split(h, ':') + ([""] + Split(t, ':')) == Split(h, ':') + [""] + Split(t, ':');
  }

  lemma SplitEmpty()
    ensures Split("", ':') == [""]
  {
  }

  lemma EndsInTwo(pre: string, a: string, b: string)
    requires IsGroup(a) && IsGroup(b)
    ensures Split(pre + ":" + a + ":" + b, ':') == Split(pre, ':') + [a, b]
  {
    hide Split;
    GroupFree(a, ':');
    GroupFree(b, ':');
    SplitWhole(a, ':');
    SplitWhole(b, ':');
    SplitConcat(pre, a + [':'] + b, ':');
    SplitConcat(a, b, ':');
    assert pre + ":" + a + ":" + b == pre + [':'] + (a + [':'] + b);
    assert Split(pre, ':') + ([a] + [b]) == Split(pre, ':') + [a, b];
  }

  lemma LastFields(f: Form, init: seq<string>, a: string, b: string)
    requires Fields(f) == init + [a, b] && init != [] && a != "" && b != ""
    ensures |Last(f)| >= 2 && Last(f) == Last(f)[..|Last(f)| - 2] + [a, b]
  {
    var fields, last := Fields(f), Last(f);
    assert fields[|fields| - 1] == b && fields[|fields| - 2] == a;
  }

  /** A plain form whose text ends in two given groups has them as its last groups. */
  lemma LastTwo(f: Form, pre: string, a: string, b: string) returns (groups: seq<string>)
    requires IsPlain(f) && Text(f) == pre + ":" + a + ":" + b
    requires IsGroup(a) && IsGroup(b)
    ensures f == WithLast(f, groups + [a, b]) && Before(f, groups) == pre + ":"
  {
    hide Split, Text, Fields, Before;
    EndsInTwo(pre, a, b);
    TextFields(f);
    LastFields(f, Split(pre, ':'), a, b);
    groups := Last(f)[..|Last(f)| - 2];
    TextEndsInTwo(f, groups, a, b);
    var s, t := Before(f, groups), pre + ":";
    assert s + a + ":" + b == s + (a + ":" + b);
    assert t + a + ":" + b == t + (a + ":" + b);
    SameEnd(s, t, a + ":" + b);
  }

  lemma SameEnd(s: string, t: string, end: string)
    requires s + end == t + end
    ensures s == t
  {
    assert |s| == |t|;
    assert s == (s + end)[..|s|] && t == (t + end)[..|t|];
  }

  lemma QuadWords(octets: seq<nat>)
    requires |octets| == 4 && Below(octets, 256)
    ensures AreGroups(QuadGroups(octets))
    ensures GroupWords(QuadGroups(octets)) == [256 * octets[0] + octets[1], 256 * octets[2] + octets[3]]
  {
    WordGroup(256 * octets[0] + octets[1]);
    WordGroup(256 * octets[2] + octets[3]);
  }

  lemma WordGroup(w: nat)
    requires w < 0x1_0000
    ensures IsGroup(Print(16, w)) && ReadHex(Print(16, w)) == w
  {
    assert Pow(16, 4) == 0x1_0000 by {
      assert Pow(16, 2) == 256;
    }
    PrintedLength(w, 4);
    ReadPrinted(w);
  }

  /** A quad holds a dot, a group does not. */
  lemma QuadHasDot(number: Reading, s: string)
    requires ParseIpv4(number, s).Some?
    ensures '.' in s && !IsGroup(s)
  {
    if '.' !in s {
      SplitWhole(s, '.');
    }
    if IsGroup(s) {
      GroupFree(s, '.');
    }
  }

  lemma LastColon(text: string, pre: string, quad: string)
    requires text == pre + quad && pre != "" && pre[|pre| - 1] == ':' && ':' !in quad
    ensures LastIndex(text, ':') == |pre| - 1
    ensures text[..|pre|] == pre && text[|pre|..] == quad
  {
    var i := LastIndex(text, ':');
    assert text[|pre| - 1] == ':';
    forall k | |pre| <= k < |text| ensures text[k] != ':' {
      assert text[k] == quad[k - |pre|];
    }
  }

  lemma PlainHasNone(f: Form, c: char)
    requires IsPlain(f) && c != ':' && !IsHexDigit(c)
    ensures c !in Text(f)
  {
    match f
    case Full(groups) =>
      GroupsFree(groups, c);
      JoinHas(groups, ':', c);
    case Elided(head, tail) =>
      GroupsFree(head, c);
      GroupsFree(tail, c);
      JoinHas(head, ':', c);
      JoinHas(tail, ':', c);
  }

  lemma PlainIsReadable(number: Reading, f: Form)
    requires IsPlain(f)
    ensures IsReadable(number, f) && ReadableWords(number, f) == PlainWords(f)
  {
    var last := Last(f);
    if last != [] && ReadsQuad(number, last[|last| - 1]) {
      QuadHasDot(number, last[|last| - 1]);
      assert false;
    }
  }

  lemma QuadForm(number: Reading, f: Form, groups: seq<string>, quad: string)
    requires ReadsQuad(number, quad)
    ensures var two := QuadGroups(ParseIpv4(number, quad).value);
            && IsPlain(WithLast(f, groups + two)) == IsReadable(number, WithLast(f, groups + [quad]))
            && (IsPlain(WithLast(f, groups + two)) ==>
                 PlainWords(WithLast(f, groups + two)) == ReadableWords(number, WithLast(f, groups + [quad])))
  {
    hide ParseIpv4, QuadGroups, AreGroups, GroupWords;
    var last := groups + [quad];
    assert last[..|last| - 1] == groups && last[|last| - 1] == quad;
    assert Spelled(number, last) == groups + QuadGroups(ParseIpv4(number, quad).value);
  }

  /** What the parser reads is a text form of the words it gives. */
  lemma ParsedIsRead(number: Reading, text: string, words: seq<nat>)
    requires '%' !in text
    requires Normalized(number, text).Some? && ParseHalves(Normalized(number, text).value) == Some(words)
    ensures ReadsAs(number, text, words)
  {
    hide ParseHalves, ParseIpv4, IsPlain, IsReadable, PlainWords, ReadableWords;
    var f := ParsesPlain(Normalized(number, text).value);
    if '.' !in text {
      PlainIsReadable(number, f);
      assert IsReadable(number, f) && Text(f) == text && ReadableWords(number, f) == words;
    } else {
      var i := LastIndex(text, ':');
      var pre, quad := text[..i], text[i + 1..];
      assert text == pre + ":" + quad;
      var octets := ParseIpv4(number, quad).value;
      QuadWords(octets);
      var two := QuadGroups(octets);
      assert text[..i + 1] == pre + ":";
      var groups := LastTwo(f, pre, two[0], two[1]);
      assert two == [two[0], two[1]];
      QuadForm(number, f, groups, quad);
      TextEnds(f, groups, quad);
      var g := WithLast(f, groups + [quad]);
      assert IsReadable(number, g) && Text(g) == text && ReadableWords(number, g) == words;
    }
  }

  lemma BeforeEndsInColon(number: Reading, f: Form, groups: seq<string>, quad: string)
    requires ReadsQuad(number, quad) && IsReadable(number, f) && f == WithLast(f, groups + [quad])
    ensures Before(f, groups) != "" && Before(f, groups)[|Before(f, groups)| - 1] == ':'
  {
    var last := groups + [quad];
    assert last[..|last| - 1] == groups && last[|last| - 1] == quad;
    assert |Spelled(number, last)| == |groups| + 2;
  }

  /** A text form parses to the words it stands for. */
  lemma ReadIsParsed(number: Reading, f: Form)
    requires IsReadable(number, f) && '%' !in Text(f)
    ensures Normalized(number, Text(f)).Some?
    ensures ParseHalves(Normalized(number, Text(f)).value) == Some(ReadableWords(number, f))
  {
    hide ParseHalves, ParseIpv4;
    var last := Last(f);
    if last != [] && ReadsQuad(number, last[|last| - 1]) {
      var groups, quad := last[..|last| - 1], last[|last| - 1];
      assert last == groups + [quad];
      assert f == WithLast(f, groups + [quad]);
      QuadIsParsed(number, f, groups, quad);
    } else {
      assert IsPlain(f);
      PlainIsReadable(number, f);
      PlainHasNone(f, '.');
      PlainParses(f);
    }
  }

  lemma QuadIsParsed(number: Reading, f: Form, groups: seq<string>, quad: string)
    requires ReadsQuad(number, quad) && IsReadable(number, f) && f == WithLast(f, groups + [quad])
    ensures Normalized(number, Text(f)).Some?
    ensures ParseHalves(Normalized(number, Text(f)).value) == Some(ReadableWords(number, f))
  {
    hide ParseHalves, ParseIpv4, IsReadable, ReadableWords, IsPlain, PlainWords, Before, Text;
    var two := QuadGroups(ParseIpv4(number, quad).value);
    TextEnds(f, groups, quad);
    BeforeEndsInColon(number, f, groups, quad);
    LastColon(Text(f), Before(f, groups), quad);
    QuadHasDot(number, quad);
    QuadForm(number, f, groups, quad);
    var g := WithLast(f, groups + two);
    assert two == [two[0], two[1]];
    TextEndsInTwo(f, groups, two[0], two[1]);
    PlainParses(g);
  }

  /** parseIpv6Words reads exactly the forms of the guard. */
  lemma ParsesExactlyRead(number: Reading, address: string, words: seq<nat>)
    ensures ParseIpv6Words(number, address) == Some(words) <==>
            '%' !in Lower(address) && ReadsAs(number, Lower(address), words)
  {
    hide ParseHalves, Normalized, IsReadable, ReadableWords;
    var text := Lower(address);
    if ParseIpv6Words(number, address) == Some(words) {
      ParsedIsRead(number, text, words);
    }
    if '%' !in text && ReadsAs(number, text, words) {
      var f :| IsReadable(number, f) && Text(f) == text && ReadableWords(number, f) == words;
      ReadIsParsed(number, f);
    }
  }

  // Text forms of RFC 4291

  function AsForm(f: TextForm): Form {
    if f.head.Some? then Elided(f.head.value, FormFields(f)) else Full(FormFields(f))
  }

  /** parseIpv4 reads a dotted quad of decimal octets as their values. */
  lemma QuadReads(number: Reading, quad: seq<string>)
    requires ReadsDecimals(number) && IsDottedQuad(quad)
    ensures ReadsQuad(number, Join(quad, '.'))
    ensures ParseIpv4(number, Join(quad, '.')) ==
            Some([ReadDecimal(quad[0]), ReadDecimal(quad[1]), ReadDecimal(quad[2]), ReadDecimal(quad[3])])
    ensures Split(Join(quad, '.'), '.') == quad
  {
    hide Join, Split, ReadDecimal;
    assert Free(quad, '.') && Free(quad, ':') && Free(quad, '%');
    SplitJoined(quad, '.');
    JoinHas(quad, '.', ':');
    JoinHas(quad, '.', '%');
  }

  lemma FormHasNoZone(f: TextForm)
    requires IsTextForm(f)
    ensures '%' !in FormText(f)
  {
    hide ReadDecimal, Join;
    GroupsFree(f.groups, '%');
    if f.head.Some? {
      GroupsFree(f.head.value, '%');
      JoinHas(f.head.value, ':', '%');
    }
    if f.quad.Some? {
      assert Free(f.quad.value, '%');
      JoinHas(f.quad.value, '.', '%');
    }
    JoinHas(FormFields(f), ':', '%');
  }

  lemma DottedFormReads(number: Reading, f: TextForm)
    requires ReadsDecimals(number) && IsTextForm(f) && f.quad.Some?
    ensures IsReadable(number, AsForm(f)) && ReadableWords(number, AsForm(f)) == FormWords(f)
  {
    hide ReadsDecimals, Join, Split, ReadDecimal, ParseIpv4, QuadGroups, ReadHex;
    var quad, fields := f.quad.value, FormFields(f);
    QuadReads(number, quad);
    var octets := ParseIpv4(number, Join(quad, '.')).value;
    QuadWords(octets);
    assert fields[..|fields| - 1] == f.groups && fields[|fields| - 1] == Join(quad, '.');
    assert Spelled(number, fields) == f.groups + QuadGroups(octets);
    assert GroupWords(Spelled(number, fields)) == GroupWords(f.groups) + DottedWords(quad);
  }

  lemma GroupedFormReads(number: Reading, f: TextForm)
    requires IsTextForm(f) && f.quad.None?
    ensures IsReadable(number, AsForm(f)) && ReadableWords(number, AsForm(f)) == FormWords(f)
    ensures '.' !in FormText(f)
  {
    hide Join, ReadDecimal, ReadHex, IsReadable, ReadableWords, IsGroup;
    assert FormFields(f) == f.groups;
    PlainIsReadable(number, AsForm(f));
    PlainHasNone(AsForm(f), '.');
    assert GroupWords(f.groups) + [] == GroupWords(f.groups);
  }

  /** What follows the last colon of a text form with a dotted quad is that quad. */
  lemma DottedFormEnds(number: Reading, f: TextForm)
    requires ReadsDecimals(number) && IsTextForm(f) && f.quad.Some?
    ensures FormText(f)[LastIndex(FormText(f), ':') + 1..] == Join(f.quad.value, '.')
  {
    hide ReadsDecimals, Join, ReadDecimal, ParseIpv4, IsReadable, ReadableWords, LastIndex, IsGroup;
    var g, quad := AsForm(f), Join(f.quad.value, '.');
    DottedFormReads(number, f);
    QuadReads(number, f.quad.value);
    TextEnds(g, f.groups, quad);
    BeforeEndsInColon(number, g, f.groups, quad);
    LastColon(Text(g), Before(g, f.groups), quad);
    assert FormText(f) == Text(g);
  }

  /** A text form is a form of the guard, and stands for the words the guard reads in it. */
  lemma TextFormReads(number: Reading, f: TextForm)
    requires ReadsDecimals(number) && IsTextForm(f)
    ensures IsReadable(number, AsForm(f)) && ReadableWords(number, AsForm(f)) == FormWords(f)
    ensures DecimalTail(FormText(f))
  {
    hide *;
    if f.quad.None? {
      GroupedFormReads(number, f);
      NoTail(FormText(f));
    } else {
      DottedFormReads(number, f);
      DecimalTailOf(number, f);
    }
  }

  lemma NoTail(text: string)
    requires '.' !in text
    ensures DecimalTail(text)
  {
  }

  lemma DecimalTailOf(number: Reading, f: TextForm)
    requires ReadsDecimals(number) && IsTextForm(f) && f.quad.Some?
    ensures DecimalTail(FormText(f))
  {
    DottedFormEnds(number, f);
    QuadReads(number, f.quad.value);
    assert IsDottedQuad(f.quad.value);
    hide ReadsDecimals, Join, Split, ReadDecimal, IsDecimalOctet, ParseIpv4, LastIndex, FormText;
  }

  lemma DecimalQuad(number: Reading, quad: string)
    requires ParseIpv4(number, quad).Some? && forall part <- Split(quad, '.') :: IsDecimalOctet(part)
    ensures IsDottedQuad(Split(quad, '.')) && Join(Split(quad, '.'), '.') == quad
  {
    JoinSplit(quad, '.');
  }

  lemma GroupsBefore(number: Reading, f: Form, groups: seq<string>, quad: string)
    requires ReadsQuad(number, quad) && IsReadable(number, f) && f == WithLast(f, groups + [quad])
    ensures AreGroups(groups) && (f.Elided? ==> AreGroups(f.head))
    ensures if f.Full? then |groups| == 6 else |f.head| + |groups| <= 5
  {
    hide ParseIpv4;
    var last := groups + [quad];
    assert last[..|last| - 1] == groups && last[|last| - 1] == quad;
    var two := QuadGroups(ParseIpv4(number, quad).value);
    assert Spelled(number, last) == groups + two;
    forall i | 0 <= i < |groups| ensures IsGroup(groups[i]) {
      assert (groups + two)[i] == groups[i];
    }
  }

  /** The form of the guard that ends in a dotted quad of decimal octets, as a text form. */
  lemma DottedIsForm(number: Reading, f: Form, groups: seq<string>, quad: string)
    requires ReadsDecimals(number) && IsReadable(number, f) && f == WithLast(f, groups + [quad])
    requires ReadsQuad(number, quad) && forall part <- Split(quad, '.') :: IsDecimalOctet(part)
    ensures Spells(Text(f), ReadableWords(number, f))
  {
    hide ReadsDecimals, Join, Split, ReadDecimal, ParseIpv4, IsReadable, ReadableWords, IsDottedQuad, FormWords, AreGroups;
    DecimalQuad(number, quad);
    GroupsBefore(number, f, groups, quad);
    var g := TextForm(if f.Elided? then Some(f.head) else None, groups, Some(Split(quad, '.')));
    assert FormFields(g) == groups + [quad] && AsForm(g) == f;
    DottedFormReads(number, g);
    assert FormText(g) == Text(f);
  }

  lemma ReadableEnds(number: Reading, f: Form, groups: seq<string>, quad: string)
    requires ReadsQuad(number, quad) && IsReadable(number, f) && f == WithLast(f, groups + [quad])
    ensures '.' in Text(f) && Text(f)[LastIndex(Text(f), ':') + 1..] == quad
  {
    hide ParseIpv4, IsReadable, LastIndex, Join;
    TextEnds(f, groups, quad);
    BeforeEndsInColon(number, f, groups, quad);
    LastColon(Text(f), Before(f, groups), quad);
    QuadHasDot(number, quad);
    hide Before, Text;
  }

  predicate EndsInQuad(number: Reading, f: Form) {
    Last(f) != [] && ReadsQuad(number, Last(f)[|Last(f)| - 1])
  }

  lemma UndottedIsPlain(number: Reading, f: Form)
    requires IsReadable(number, f) && !EndsInQuad(number, f)
    ensures IsPlain(f)
  {
    hide ReadsQuad, IsGroup;
  }

  lemma LastQuad(number: Reading, f: Form) returns (groups: seq<string>, quad: string)
    requires EndsInQuad(number, f)
    ensures ReadsQuad(number, quad) && f == WithLast(f, groups + [quad])
  {
    hide ReadsQuad;
    var last := Last(f);
    groups, quad := last[..|last| - 1], last[|last| - 1];
    assert last == groups + [quad];
  }

  /** What the guard reads in a form whose dotted tail is decimal is a text form. */
  lemma DecimalReadIsForm(number: Reading, f: Form)
    requires ReadsDecimals(number) && IsReadable(number, f) && DecimalTail(Text(f))
    ensures Spells(Text(f), ReadableWords(number, f))
  {
    hide ReadsDecimals, Split, LastIndex, ReadableWords, IsDecimalOctet, IsReadable, Spells, Text, ReadsQuad, EndsInQuad,
         IsPlain, PlainWords, WithLast;
    if EndsInQuad(number, f) {
      var groups, quad := LastQuad(number, f);
      ReadableEnds(number, f, groups, quad);
      DottedIsForm(number, f, groups, quad);
    } else {
      UndottedIsPlain(number, f);
      PlainIsReadable(number, f);
      PlainSpells(f);
    }
  }

  lemma PlainSpells(f: Form)
    requires IsPlain(f)
    ensures Spells(Text(f), PlainWords(f))
  {
    hide Join;
    var g := TextForm(if f.Elided? then Some(f.head) else None, Last(f), None);
    assert FormFields(g) == Last(f);
    assert GroupWords(g.groups) + [] == GroupWords(Last(f));
    assert IsTextForm(g) && FormText(g) == Text(f) && FormWords(g) == PlainWords(f);
  }

  /** The text forms of section 2.2 of RFC 4291 are exactly what parseIpv6Words parses with
      decimal octets, if anything, between the dots of its tail: such an address, in lower
      case, has no zone and stands for given words if and only if it parses to them. */
  lemma ParsesExactlyForms(number: Reading, address: string, words: seq<nat>)
    requires ReadsDecimals(number)
    ensures Spells(Lower(address), words) <==>
            ParseIpv6Words(number, address) == Some(words) && DecimalTail(Lower(address))
  {
    hide ReadsDecimals, ParseIpv6Words, IsReadable, ReadableWords, IsTextForm, FormWords, DecimalTail;
    var text := Lower(address);
    ParsesExactlyRead(number, address, words);
    if Spells(text, words) {
      var f :| IsTextForm(f) && FormText(f) == text && FormWords(f) == words;
      TextFormReads(number, f);
      FormHasNoZone(f);
      assert Text(AsForm(f)) == text;
    }
    if ParseIpv6Words(number, address) == Some(words) && DecimalTail(text) {
      var f :| IsReadable(number, f) && Text(f) == text && ReadableWords(number, f) == words;
      DecimalReadIsForm(number, f);
    }
  }

  lemma QuadAloneText(quad: string)
    ensures Text(Elided([], [quad])) == "::" + quad
  {
    assert Join([], ':') == "" && Join([quad], ':') == quad;
  }

  lemma QuadAloneWords(octets: seq<nat>)
    requires |octets| == 4 && Below(octets, 256)
    ensures var f := Elided([], QuadGroups(octets));
            IsPlain(f) &&
            PlainWords(f) == Zeros(6) + [256 * octets[0] + octets[1], 256 * octets[2] + octets[3]]
  {
    QuadWords(octets);
    hide QuadGroups, ReadHex, IsGroup;
    assert GroupWords([]) == [];
  }

  lemma NoneBefore(groups: seq<string>)
    ensures [] + groups == groups
  {
  }

  lemma QuadAloneReads(number: Reading, quad: string)
    requires ReadsQuad(number, quad)
    ensures var o, f := ParseIpv4(number, quad).value, Elided([], [quad]);
            IsReadable(number, f) &&
            ReadableWords(number, f) == Zeros(6) + [256 * o[0] + o[1], 256 * o[2] + o[3]]
  {
    hide ParseIpv4, QuadGroups, Spelled, IsPlain, PlainWords, IsReadable, ReadableWords, Zeros;
    var o := ParseIpv4(number, quad).value;
    QuadAloneWords(o);
    NoneBefore(QuadGroups(o));
    NoneBefore([quad]);
    QuadForm(number, Elided([], [quad]), [], quad);
  }

  /** A dotted tail after "::", as the guard reads it. */
  lemma QuadAlone(number: Reading, quad: string)
    requires ReadsQuad(number, quad)
    ensures var o := ParseIpv4(number, quad).value;
            ReadsAs(number, "::" + quad, Zeros(6) + [256 * o[0] + o[1], 256 * o[2] + o[3]])
  {
    hide ParseIpv4, Text, IsReadable, ReadableWords, Zeros;
    QuadAloneReads(number, quad);
    QuadAloneText(quad);
  }

  /** Any tail that parseIpv4 reads makes "::" before it an address; with a part that is no
      decimal octet it is no text form. */
  lemma AnyQuadParses(number: Reading, quad: string)
    requires ReadsDecimals(number) && ReadsQuad(number, quad) && Lower(quad) == quad
    requires exists part <- Split(quad, '.') :: !IsDecimalOctet(part)
    ensures var o := ParseIpv4(number, quad).value;
            ParseIpv6Words(number, "::" + quad) == Some(Zeros(6) + [256 * o[0] + o[1], 256 * o[2] + o[3]])
    ensures forall words :: !Spells("::" + quad, words)
  {
    hide ReadsDecimals, ParseIpv6Words, Spells, ParseIpv4, IsDecimalOctet, Split, Lower, LastIndex, ReadsAs;
    var text, o := "::" + quad, ParseIpv4(number, quad).value;
    QuadHasDot(number, quad);
    LastColon(text, "::", quad);
    LowerColons(quad);
    QuadAlone(number, quad);
    ParsesExactlyRead(number, text, Zeros(6) + [256 * o[0] + o[1], 256 * o[2] + o[3]]);
    assert !DecimalTail(text);
    forall words ensures !Spells(text, words) { ParsesExactlyForms(number, text, words); }
  }

  lemma LowerColons(s: string)
    requires Lower(s) == s
    ensures Lower("::" + s) == "::" + s
  {
    assert ("::" + s)[1..] == ":" + s && (":" + s)[1..] == s;
  }

  /** Such an input: JavaScript's `Number` reads hexadecimal too. */
  lemma HexOctetParses(number: Reading)
    requires ReadsDecimals(number) && number("0x7f") == Some(127)
    ensures var text := "::" + Join(["0x7f", "0", "0", "1"], '.');
            && ParseIpv6Words(number, text) == Some(Zeros(6) + [0x7f00, 1])
            && forall words :: !Spells(text, words)
  {
    hide ReadsDecimals, ParseIpv6Words, Spells, Split, Join, Print;
    var parts := ["0x7f", "0", "0", "1"];
    var quad := Join(parts, '.');
    assert Free(parts, '.') && Free(parts, ':') && Free(parts, '%');
    SplitJoined(parts, '.');
    JoinHas(parts, '.', ':');
    JoinHas(parts, '.', '%');
    OneDigit(number, "0", 0);
    OneDigit(number, "1", 1);
    assert parts[0] in Split(quad, '.') && parts[0][1] == 'x';
    forall c | 'A' <= c <= 'Z' ensures c !in quad { JoinHas(parts, '.', c); }
    LowersTo(quad);
    AnyQuadParses(number, quad);
  }

  lemma OneDigit(number: Reading, s: string, n: nat)
    requires ReadsDecimals(number) && n < 10 && s == [('0' as int + n) as char]
    ensures number(s) == Some(n)
  {
    assert s[..0] == "" && ReadDecimal(s) == n;
    assert IsDecimalOctet(s);
  }

  lemma LowersTo(s: string)
    requires forall c :: 'A' <= c <= 'Z' ==> c !in s
    ensures Lower(s) == s
  {
    forall i | 0 <= i < |s| ensures Lower(s)[i] == s[i] { assert s[i] in s; }
  }

  lemma GroupBelow(g: string)
    requires IsGroup(g)
    ensures ReadHex(g) < 0x1_0000
  {
    ReadBound(g);
    assert Pow(16, 1) == 16 && Pow(16, 2) == 256;
    assert Pow(16, 3) == 4096 && Pow(16, 4) == 0x1_0000;
  }

  lemma GroupsBelow(groups: seq<string>)
    requires AreGroups(groups)
    ensures Below(GroupWords(groups), 0x1_0000)
  {
    forall i | 0 <= i < |groups| ensures GroupWords(groups)[i] < 0x1_0000 {
      GroupBelow(groups[i]);
    }
  }

  /** Whatever parses, parses to eight 16-bit words. */
  lemma EightWords(number: Reading, address: string)
    requires ParseIpv6Words(number, address).Some?
    ensures |ParseIpv6Words(number, address).value| == 8
    ensures Below(ParseIpv6Words(number, address).value, 0x1_0000)
  {
    var f := ParsesPlain(Normalized(number, Lower(address)).value);
    match f
    case Full(groups) =>
      GroupsBelow(groups);
    case Elided(head, tail) =>
      GroupsBelow(head);
      GroupsBelow(tail);
      hide ParseIpv6Words, GroupWords, ReadHex;
  }

  // Writing, then reading

  ghost predicate Plainly(s: string) {
    forall i :: 0 <= i < |s| ==> IsHexDigit(s[i]) || s[i] == ':' || s[i] == '.'
  }

  lemma {:induction false} JoinPlainly(parts: seq<string>, sep: char)
    requires sep == ':' || sep == '.'
    requires forall i :: 0 <= i < |parts| ==> Plainly(parts[i])
    ensures Plainly(Join(parts, sep))
  {
    if |parts| > 1 {
      JoinPlainly(parts[1..], sep);
    }
  }

  lemma PlainlyLower(s: string)
    requires Plainly(s)
    ensures Lower(s) == s && '%' !in s
  {
  }

  /** A printed octet is a decimal octet. */
  lemma OctetPrints(n: nat)
    requires n < 256
    ensures IsDecimalOctet(Print(10, n)) && ReadDecimal(Print(10, n)) == n
  {
    DecimalPrints(n);
    if n >= 10 {
      assert n / 100 < 3;
      assert |Print(10, n)| == |Print(10, n / 10)| + 1;
      if n >= 100 { assert |Print(10, n / 10)| == |Print(10, n / 10 / 10)| + 1; }
    }
  }

  lemma {:induction false} DecimalPrints(n: nat)
    ensures AreDigits(Print(10, n)) && ReadDecimal(Print(10, n)) == n
  {
    DigitCode(n % 10);
    var s := Print(10, n);
    if n >= 10 {
      DecimalPrints(n / 10);
      assert s[..|s| - 1] == Print(10, n / 10);
    } else {
      assert s[..0] == "";
    }
  }

  lemma DottedReads(number: Reading, octets: seq<nat>)
    requires ReadsDecimals(number) && |octets| == 4 && Below(octets, 256)
    ensures ParseIpv4(number, Dotted(octets)) == Some(octets)
    ensures Plainly(Dotted(octets)) && ReadsQuad(number, Dotted(octets))
  {
    hide Print, Join;
    var parts := [Print(10, octets[0]), Print(10, octets[1]), Print(10, octets[2]), Print(10, octets[3])];
    SplitJoined(parts, '.');
    JoinPlainly(parts, '.');
    JoinHas(parts, '.', ':');
    PlainlyLower(Dotted(octets));
    forall i | 0 <= i < 4 ensures number(parts[i]) == Some(octets[i]) { OctetPrints(octets[i]); }
    assert octets == [octets[0], octets[1], octets[2], octets[3]];
  }

  lemma GroupsRead(words: seq<nat>)
    requires Below(words, 0x1_0000)
    ensures AreGroups(Groups(words)) && GroupWords(Groups(words)) == words
  {
    hide Print;
    forall i | 0 <= i < |words|
      ensures IsGroup(Groups(words)[i]) && ReadHex(Groups(words)[i]) == words[i]
    {
      WordGroup(words[i]);
    }
  }

  lemma WrittenReads(number: Reading, words: seq<nat>, dotted: bool)
    requires ReadsDecimals(number) && Below(words, 0x1_0000) && (dotted ==> |words| >= 2)
    ensures AreGroups(Spelled(number, Written(words, dotted)))
    ensures GroupWords(Spelled(number, Written(words, dotted))) == words
    ensures forall i :: 0 <= i < |Written(words, dotted)| ==> Plainly(Written(words, dotted)[i])
  {
    hide Print, ParseIpv4, Dotted, ReadHex;
    GroupsRead(words);
    var written := Written(words, dotted);
    if dotted {
      var n := |words| - 2;
      var octets := WordOctets(words, n);
      DottedReads(number, octets);
      assert written[..n] == Groups(words[..n]) && written[n] == Dotted(octets);
      assert Spelled(number, written) == Groups(words[..n]) + QuadGroups(octets);
      assert QuadGroups(octets) == [Print(16, words[n]), Print(16, words[n + 1])];
      assert Spelled(number, written) == Groups(words);
    } else if words != [] && ReadsQuad(number, written[|words| - 1]) {
      QuadHasDot(number, written[|words| - 1]);
      assert false;
    }
  }

  /** Round trip: every text form of section 2.2 of RFC 4291 of eight 16-bit words (all
      groups, any run of zero words as "::", the last two words dotted) parses back to
      those words. */
  lemma RoundTrip(number: Reading, words: seq<nat>, elide: Option<Run>, dotted: bool)
    requires ReadsDecimals(number) && Writable(words, elide, dotted)
    ensures ParseIpv6Words(number, Text(Form4291(words, elide, dotted))) == Some(words)
  {
    hide ParseIpv6Words, ReadsDecimals, Written, ReadsAs;
    var f := Form4291(words, elide, dotted);
    FormOfWords(number, words, elide, dotted);
    assert ReadsAs(number, Text(f), words) by {
      ReadsBy(number, f, words);
    }
    PlainlyLower(Text(f));
    ParsesExactlyRead(number, Text(f), words);
  }

  lemma ReadsBy(number: Reading, f: Form, words: seq<nat>)
    requires IsReadable(number, f) && ReadableWords(number, f) == words
    ensures ReadsAs(number, Text(f), words)
  {
  }

  lemma FormOfWords(number: Reading, words: seq<nat>, elide: Option<Run>, dotted: bool)
    requires ReadsDecimals(number) && Writable(words, elide, dotted)
    ensures var f := Form4291(words, elide, dotted);
            IsReadable(number, f) && ReadableWords(number, f) == words && Plainly(Text(f))
  {
    hide ReadsDecimals, Written, AreGroups, Spelled, Join, Print, ReadHex;
    match elide
    case None =>
      WrittenReads(number, words, dotted);
      JoinPlainly(Written(words, dotted), ':');
    case Some(run) =>
      var head, tail := words[..run.from], words[run.to..];
      GroupsRead(head);
      WrittenReads(number, tail, dotted);
      JoinPlainly(Groups(head), ':');
      JoinPlainly(Written(tail, dotted), ':');
      ElidedRun(words, run);
      hide Below;
  }

  lemma ElidedRun(words: seq<nat>, run: Run)
    requires run.from < run.to <= |words| && forall i :: run.from <= i < run.to ==> words[i] == 0
    ensures words == words[..run.from] + Zeros(run.to - run.from) + words[run.to..]
  {
  }

  // Letters

  /** The same letter in either case, or the same character. */
  predicate SameLetter(a: char, b: char) {
    a == b || ('A' <= a <= 'Z' && b as int == a as int + 32) || ('A' <= b <= 'Z' && a as int == b as int + 32)
  }

  /** Addresses are read without regard to case. */
  lemma CaseIgnored(number: Reading, a: string, b: string)
    requires |a| == |b| && forall i :: 0 <= i < |a| ==> SameLetter(a[i], b[i])
    ensures ParseIpv6Words(number, a) == ParseIpv6Words(number, b)
  {
    var s, t := Lower(a), Lower(b);
    forall i | 0 <= i < |s| ensures s[i] == t[i] {
      assert SameLetter(a[i], b[i]);
    }
    assert s == t;
    hide Normalized, ParseHalves, Lower;
  }
}
