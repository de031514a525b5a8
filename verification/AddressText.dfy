/** The text of IP addresses, as the managed MCP URL guard reads it
    (apps/server/src/local-managed-mcp-url-guard.ts). JavaScript's `Number` is a parameter:
    the theorems need no more of it than its value on decimal octets. */
module AddressText {
  import opened Numerals
  import opened Strings
  import opened Wrappers

  /** What `Number` gives for a string when that is an integer. */
  type Reading = string -> Option<int>

  predicate AreDigits(s: string) {
    forall i :: 0 <= i < |s| ==> '0' <= s[i] <= '9'
  }

  function ReadDecimal(s: string): nat
    requires AreDigits(s)
  {
    if s == [] then 0 else 10 * ReadDecimal(s[..|s| - 1]) + (s[|s| - 1] as int - '0' as int)
  }

  /** A decimal octet: one to three digits that spell a number below 256. */
  predicate IsDecimalOctet(s: string) {
    1 <= |s| <= 3 && AreDigits(s) && ReadDecimal(s) < 256
  }

  /** `Number` reads a decimal octet as its value. */
  ghost predicate ReadsDecimals(number: Reading) {
    forall s :: IsDecimalOctet(s) ==> number(s) == Some(ReadDecimal(s))
  }

  /** toLowerCase, on the letters an address may hold. */
  function LowerChar(c: char): char {
    if 'A' <= c <= 'Z' then c + 32 as char else c
  }

  function Lower(s: string): (t: string)
    ensures |t| == |s|
    ensures forall i :: 0 <= i < |s| ==> t[i] == LowerChar(s[i])
  {
    if s == [] then "" else [LowerChar(s[0])] + Lower(s[1..])
  }

  /** lastIndexOf; -1 when absent. */
  function LastIndex(s: string, c: char): (i: int)
    ensures -1 <= i < |s|
    ensures i >= 0 ==> s[i] == c
    ensures forall k :: i < k < |s| ==> s[k] != c
  {
    if s == [] then -1
    else if s[|s| - 1] == c then |s| - 1
    else LastIndex(s[..|s| - 1], c)
  }

  predicate IsOctet(o: Option<int>) {
    o.Some? && 0 <= o.value <= 255
  }

  /** parseIpv4 */
  function ParseIpv4(number: Reading, address: string): (r: Option<seq<nat>>)
    ensures r.Some? ==> |r.value| == 4 && Below(r.value, 256)
  {
    var parts := Split(address, '.');
    if |parts| != 4 then None
    else
      var o := seq(4, i requires 0 <= i < 4 => number(parts[i]));
      if IsOctet(o[0]) && IsOctet(o[1]) && IsOctet(o[2]) && IsOctet(o[3])
      then Some([o[0].value, o[1].value, o[2].value, o[3].value]) else None
  }

  /** The pattern of a group: one to four hexadecimal digits. */
  predicate IsGroup(s: string) {
    1 <= |s| <= 4 && forall i :: 0 <= i < |s| ==> IsHexDigit(s[i])
  }

  predicate AreGroups(parts: seq<string>) {
    forall i :: 0 <= i < |parts| ==> IsGroup(parts[i])
  }

  function GroupWords(parts: seq<string>): (words: seq<nat>)
    requires AreGroups(parts)
    ensures |words| == |parts|
    ensures forall i :: 0 <= i < |parts| ==> words[i] == ReadHex(parts[i])
  {
    seq(|parts|, i requires 0 <= i < |parts| => ReadHex(parts[i]))
  }

  function ParseHalf(half: string): Option<seq<nat>> {
    if half == "" then Some([])
    else
      var parts := Split(half, ':');
      if AreGroups(parts) then Some(GroupWords(parts)) else None
  }

  /** The two groups that stand for a dotted quad. */
  function QuadGroups(octets: seq<nat>): seq<string>
    requires |octets| == 4
  {
    [Print(16, 256 * octets[0] + octets[1]), Print(16, 256 * octets[2] + octets[3])]
  }

  /** The text with a dotted tail rewritten as two groups. */
  function Normalized(number: Reading, text: string): Option<string> {
    if '.' !in text then Some(text)
    else
      var lastColon := LastIndex(text, ':');
      if lastColon < 0 then None
      else
        var octets := ParseIpv4(number, text[lastColon + 1..]);
        if octets.None? then None
        else
          var groups := QuadGroups(octets.value);
          Some(text[..lastColon + 1] + groups[0] + ":" + groups[1])
  }

  function Zeros(n: nat): (z: seq<nat>)
    ensures |z| == n && forall i :: 0 <= i < n ==> z[i] == 0
  {
    seq(n, _ => 0)
  }

  function ParseHalves(text: string): (r: Option<seq<nat>>)
    ensures r.Some? ==> |r.value| == 8
  {
    var halves := SplitPairs(text);
    if |halves| > 2 then None
    else
      var head := ParseHalf(halves[0]);
      var tail := ParseHalf(if |halves| == 2 then halves[1] else "");
      if head.None? || tail.None? then None
      else if |halves| == 1 then
        if |head.value| == 8 then head else None
      else
        var omitted := 8 - |head.value| - |tail.value|;
        if omitted < 1 then None else Some(head.value + Zeros(omitted) + tail.value)
  }

  /** parseIpv6Words */
  function ParseIpv6Words(number: Reading, address: string): (r: Option<seq<nat>>)
    ensures r.Some? ==> |r.value| == 8
  {
    var text := Lower(address);
    if '%' in text then None
    else
      var normalized := Normalized(number, text);
      if normalized.None? then None else ParseHalves(normalized.value)
  }

  // The text forms of section 2.2 of RFC 4291

  /** Groups of hexadecimal digits, after an elided run of zeros and the groups before that
      if `head` is given, the last two words as the four octets of a dotted quad if `quad`
      is given. */
  datatype TextForm = TextForm(head: Option<seq<string>>, groups: seq<string>, quad: Option<seq<string>>)

  function FormFields(f: TextForm): seq<string> {
    f.groups + if f.quad.Some? then [Join(f.quad.value, '.')] else []
  }

  function FormText(f: TextForm): string {
    (if f.head.Some? then Join(f.head.value, ':') + "::" else "") + Join(FormFields(f), ':')
  }

  predicate IsDottedQuad(quad: seq<string>) {
    |quad| == 4 && forall i :: 0 <= i < 4 ==> IsDecimalOctet(quad[i])
  }

  predicate IsTextForm(f: TextForm) {
    var n := |f.groups| + if f.quad.Some? then 2 else 0;
    && AreGroups(f.groups)
    && (f.quad.Some? ==> IsDottedQuad(f.quad.value))
    && (if f.head.Some? then AreGroups(f.head.value) && |f.head.value| + n <= 7 else n == 8)
  }

  function DottedWords(quad: seq<string>): seq<nat>
    requires IsDottedQuad(quad)
  {
    [256 * ReadDecimal(quad[0]) + ReadDecimal(quad[1]), 256 * ReadDecimal(quad[2]) + ReadDecimal(quad[3])]
  }

  /** The eight words a text form stands for. */
  function FormWords(f: TextForm): seq<nat>
    requires IsTextForm(f)
  {
    var last := GroupWords(f.groups) + if f.quad.Some? then DottedWords(f.quad.value) else [];
    if f.head.Some? then GroupWords(f.head.value) + Zeros(8 - |f.head.value| - |last|) + last else last
  }

  ghost predicate Spells(text: string, words: seq<nat>) {
    exists f :: IsTextForm(f) && FormText(f) == text && FormWords(f) == words
  }

  /** Whatever follows the last colon of a text with a dot is decimal octets between dots. */
  ghost predicate DecimalTail(text: string) {
    '.' in text ==> forall part <- Split(text[LastIndex(text, ':') + 1..], '.') :: IsDecimalOctet(part)
  }

  // What the guard reads

  /** All groups, or groups around an elided run of zeros. The last group may be whatever
      parseIpv4 reads, which then spells two words. */
  datatype Form = Full(groups: seq<string>) | Elided(head: seq<string>, tail: seq<string>)

  function Text(f: Form): string {
    match f
    case Full(groups) => Join(groups, ':')
    case Elided(head, tail) => Join(head, ':') + "::" + Join(tail, ':')
  }

  function Last(f: Form): seq<string> {
    match f
    case Full(groups) => groups
    case Elided(_, tail) => tail
  }

  predicate ReadsQuad(number: Reading, s: string) {
    ':' !in s && '%' !in s && ParseIpv4(number, s).Some?
  }

  /** The groups with a dotted quad at the end written as two groups. */
  function Spelled(number: Reading, groups: seq<string>): seq<string> {
    if groups != [] && ReadsQuad(number, groups[|groups| - 1])
    then groups[..|groups| - 1] + QuadGroups(ParseIpv4(number, groups[|groups| - 1]).value)
    else groups
  }

  predicate IsReadable(number: Reading, f: Form) {
    var last := Spelled(number, Last(f));
    match f
    case Full(_) => AreGroups(last) && |last| == 8
    case Elided(head, _) => AreGroups(head) && AreGroups(last) && |head| + |last| <= 7
  }

  /** The eight words the guard reads in a form. */
  function ReadableWords(number: Reading, f: Form): seq<nat>
    requires IsReadable(number, f)
  {
    var last := GroupWords(Spelled(number, Last(f)));
    match f
    case Full(_) => last
    case Elided(head, _) => GroupWords(head) + Zeros(8 - |head| - |last|) + last
  }

  ghost predicate ReadsAs(number: Reading, text: string, words: seq<nat>) {
    exists f :: IsReadable(number, f) && Text(f) == text && ReadableWords(number, f) == words
  }

  // Writing addresses

  function Dotted(octets: seq<nat>): string
    requires |octets| == 4
  {
    Join([Print(10, octets[0]), Print(10, octets[1]), Print(10, octets[2]), Print(10, octets[3])], '.')
  }

  /** The four octets of two adjacent words. */
  function WordOctets(words: seq<nat>, offset: nat): seq<nat>
    requires offset + 1 < |words|
  {
    [words[offset] / 256, words[offset] % 256, words[offset + 1] / 256, words[offset + 1] % 256]
  }

  function Groups(words: seq<nat>): (groups: seq<string>)
    ensures |groups| == |words|
    ensures forall i :: 0 <= i < |words| ==> groups[i] == Print(16, words[i])
  {
    seq(|words|, i requires 0 <= i < |words| => Print(16, words[i]))
  }

  /** Words as groups, the last two as a dotted quad when asked for. */
  function Written(words: seq<nat>, dotted: bool): seq<string>
    requires dotted ==> |words| >= 2
  {
    if dotted then Groups(words[..|words| - 2]) + [Dotted(WordOctets(words, |words| - 2))] else Groups(words)
  }

  /** A run of words the writer elides. */
  datatype Run = Run(from: nat, to: nat)

  /** Each of the text forms of eight words: a non-empty run of zeros may be elided, and
      the last two words may be dotted. */
  predicate Writable(words: seq<nat>, elide: Option<Run>, dotted: bool) {
    && |words| == 8 && Below(words, 0x1_0000)
    && (elide.Some? ==>
         && elide.value.from < elide.value.to <= 8
         && (dotted ==> elide.value.to <= 6)
         && forall i :: elide.value.from <= i < elide.value.to ==> words[i] == 0)
  }

  function Form4291(words: seq<nat>, elide: Option<Run>, dotted: bool): Form
    requires Writable(words, elide, dotted)
  {
    match elide
    case None => Full(Written(words, dotted))
    case Some(run) => Elided(Groups(words[..run.from]), Written(words[run.to..], dotted))
  }
}
