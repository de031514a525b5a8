/** Time-ordered ids of seeded OpenCode messages (apps/server/src/opencode-db.ts). An id is
    a prefix, six bytes of `timestamp * 4096 + counter` in hexadecimal, and a random tail.
    The six bytes drop every bit above the 48th, so the order of two ids is the order of
    their instants only inside one 48-bit window. */
module AscendingIds {
  import opened Numerals
  import opened Strings
  import opened Wrappers

  const WINDOW := 0x1_0000_0000_0000

  // 2049 * INVERSE == 1 + 2^47 * CARRY: the inverse of 2049 modulo 2^47.
  const INVERSE := 0xffe003ff801
  const CARRY := 256

  /** The byte a shift right by `8 * places` bits leaves lowest; the shift rounds towards
      minus infinity, so negative values show their two's complement. */
  function ByteAt(now: int, places: nat): nat {
    now / Pow(256, places) % 256
  }

  function BytesOf(now: int): seq<nat> {
    seq(6, i requires 0 <= i < 6 => ByteAt(now, 5 - i))
  }

  function Hex(bytes: seq<nat>): (s: string)
    requires Below(bytes, 256)
    ensures |s| == 2 * |bytes|
  {
    if bytes == [] then "" else [Digit(bytes[0] / 16), Digit(bytes[0] % 16)] + Hex(bytes[1..])
  }

  datatype Kind = Msg | Prt

  function Prefix(kind: Kind): string {
    match kind
    case Msg => "msg_"
    case Prt => "prt_"
  }

  function IdOf(kind: Kind, timestamp: int, counter: int, tail: string): string {
    Prefix(kind) + Hex(BytesOf(timestamp * 0x1000 + counter)) + tail
  }

  /** ascendingId; `tail` is what randomBase62 returned. */
  method AscendingId(kind: Kind, timestamp: int, counter: int, tail: string) returns (id: string)
    ensures id == IdOf(kind, timestamp, counter, tail)
  {
    var now := timestamp * 0x1000 + counter;
    var bytes := new nat[6](_ => 0);
    for index := 0 to 6
      invariant forall k :: 0 <= k < index ==> bytes[k] == ByteAt(now, 5 - k)
    {
      bytes[index] := ByteAt(now, 5 - index);
    }
    assert bytes[..] == BytesOf(now);
    id := Prefix(kind) + Hex(bytes[..]) + tail;
  }

  datatype Role = User | Assistant

  /** A message row and its part row; `parent` is the parentID of an assistant message. */
  datatype Row = Row(messageId: string, partId: string, createdAt: int, parent: Option<string>)

  /** The random tail of the id of the i-th message, or of its part. */
  type Tails = (Kind, nat) -> string

  /** What `counter` holds when the id of the i-th message, or of its part, is made. */
  function Counter(kind: Kind, i: int): int {
    match kind
    case Msg => 2 * i + 1
    case Prt => 2 * i + 2
  }

  function SeededId(kind: Kind, startedAt: int, tails: Tails, i: nat): string {
    IdOf(kind, startedAt + i, Counter(kind, i), tails(kind, i))
  }

  /** `u` is the last user message before position `i`. */
  ghost predicate LastUser(roles: seq<Role>, i: nat, u: nat)
    requires i <= |roles|
  {
    u < i && roles[u] == User && forall k :: u < k < i ==> roles[k] != User
  }

  ghost predicate NoUser(roles: seq<Role>, i: nat)
    requires i <= |roles|
  {
    forall k :: 0 <= k < i ==> roles[k] != User
  }

  /** The parent of an assistant message: the last user message before it, or itself when
      there is none. */
  ghost predicate Parented(roles: seq<Role>, startedAt: int, tails: Tails, i: nat, parent: Option<string>)
    requires i < |roles|
  {
    if roles[i] == User then parent == None
    else
      || (NoUser(roles, i) && parent == Some(SeededId(Msg, startedAt, tails, i)))
      || (exists u :: LastUser(roles, i, u) && parent == Some(SeededId(Msg, startedAt, tails, u)))
  }

  /** What the i-th message inserts. */
  ghost predicate Seeded(roles: seq<Role>, startedAt: int, tails: Tails, i: nat, row: Row)
    requires i < |roles|
  {
    && row.messageId == SeededId(Msg, startedAt, tails, i)
    && row.partId == SeededId(Prt, startedAt, tails, i)
    && row.createdAt == startedAt + i
    && Parented(roles, startedAt, tails, i, row.parent)
  }

  /** The loop of seedOpencodeSessionMessages. */
  method Seed(roles: seq<Role>, startedAt: int, tails: Tails) returns (rows: seq<Row>)
    ensures |rows| == |roles|
    ensures forall i :: 0 <= i < |rows| ==> Seeded(roles, startedAt, tails, i, rows[i])
  {
    hide IdOf;
    var counter := 0;
    var lastUserId: Option<string> := None;
    rows := [];
    for index := 0 to |roles|
      invariant counter == 2 * index && |rows| == index
      invariant lastUserId == None ==> NoUser(roles, index)
      invariant lastUserId.Some? ==>
        exists u :: LastUser(roles, index, u) && lastUserId == Some(SeededId(Msg, startedAt, tails, u))
      invariant forall i :: 0 <= i < index ==> Seeded(roles, startedAt, tails, i, rows[i])
    {
      var createdAt := startedAt + index;
      counter := counter + 1;
      var messageId := AscendingId(Msg, createdAt, counter, tails(Msg, index));
      counter := counter + 1;
      var partId := AscendingId(Prt, createdAt, counter, tails(Prt, index));
      var parent := None;
      if roles[index] == Assistant {
        parent := Some(if lastUserId.Some? then lastUserId.value else messageId);
      }
      rows := rows + [Row(messageId, partId, createdAt, parent)];
      if roles[index] == User {
        lastUserId := Some(messageId);
        assert LastUser(roles, index + 1, index);
      } else if lastUserId.Some? {
        ghost var u :| LastUser(roles, index, u) && lastUserId == Some(SeededId(Msg, startedAt, tails, u));
        assert LastUser(roles, index + 1, u);
      }
    }
  }

  ghost predicate AllSeeded(roles: seq<Role>, startedAt: int, tails: Tails, rows: seq<Row>) {
    |rows| == |roles| && forall i :: 0 <= i < |rows| ==> Seeded(roles, startedAt, tails, i, rows[i])
  }

  /** The message an assistant message answers: the one before it if that is a user's; what the
      one before it answers if there was a user's message at all; else itself. */
  ghost predicate Answers(roles: seq<Role>, rows: seq<Row>, i: nat)
    requires i < |roles| == |rows|
  {
    rows[i].parent == (
      if i > 0 && roles[i - 1].User? then Some(rows[i - 1].messageId)
      else if NoUser(roles, i) then Some(rows[i].messageId)
      else rows[i - 1].parent)
  }

  /** What the inserted rows tell of the conversation: instants one apart from the start, ids
      that begin with what they are of, and each assistant message answers the nearest user
      message before it. */
  lemma ConversationOf(roles: seq<Role>, startedAt: int, tails: Tails, rows: seq<Row>, i: nat)
    requires AllSeeded(roles, startedAt, tails, rows) && i < |roles|
    ensures rows[0].createdAt == startedAt && (i > 0 ==> rows[i].createdAt == rows[i - 1].createdAt + 1)
    ensures "msg_" <= rows[i].messageId && "prt_" <= rows[i].partId
    ensures if roles[i].User? then rows[i].parent.None? else Answers(roles, rows, i)
  {
    assert Seeded(roles, startedAt, tails, i, rows[i]) && Seeded(roles, startedAt, tails, 0, rows[0]);
    if i > 0 { assert Seeded(roles, startedAt, tails, i - 1, rows[i - 1]); }
    hide AllSeeded;
    PrefixesOf(startedAt, tails, i);
    hide SeededId;
    if roles[i].Assistant? {
      if i > 0 && roles[i - 1].User? {
        assert LastUser(roles, i, i - 1);
        OneLastUser(roles, i);
      } else if i > 0 {
        NearestUser(roles, i);
      }
    }
  }

  /** An id is its prefix, twelve hexadecimal digits of its time part, and its tail. */
  lemma IdParts(kind: Kind, timestamp: int, counter: int, tail: string)
    ensures var id := IdOf(kind, timestamp, counter, tail);
      && |id| == 16 + |tail| && id[16..] == tail
      && id[..4] == (if kind.Msg? then "msg_" else "prt_")
      && id[4..16] == Hex(BytesOf(timestamp * 0x1000 + counter))
  {
    BytesSpell(timestamp * 0x1000 + counter);
    hide Hex, BytesOf;
  }

  lemma PrefixesOf(startedAt: int, tails: Tails, i: nat)
    ensures "msg_" <= SeededId(Msg, startedAt, tails, i) && "prt_" <= SeededId(Prt, startedAt, tails, i)
  {
    hide Hex, BytesOf;
  }

  lemma OneLastUser(roles: seq<Role>, i: nat)
    requires i <= |roles|
    ensures forall u: nat, v: nat :: LastUser(roles, i, u) && LastUser(roles, i, v) ==> u == v
    ensures forall u: nat :: LastUser(roles, i, u) ==> !NoUser(roles, i)
  {
  }

  /** Behind an assistant message the nearest user message is the same. */
  lemma NearestUser(roles: seq<Role>, i: nat)
    requires 0 < i < |roles| && roles[i - 1].Assistant?
    ensures NoUser(roles, i) <==> NoUser(roles, i - 1)
    ensures forall u: nat :: LastUser(roles, i, u) <==> LastUser(roles, i - 1, u)
    ensures forall u: nat, v: nat :: LastUser(roles, i, u) && LastUser(roles, i, v) ==> u == v
    ensures forall u: nat :: LastUser(roles, i, u) ==> !NoUser(roles, i)
  {
    OneLastUser(roles, i);
  }

  // What the six bytes keep of a value

  lemma {:induction false} SpelledSuffix(now: int, k: nat)
    requires k <= 6
    ensures Value(256, BytesOf(now)[k..]) == now % Pow(256, 6 - k)
    decreases 6 - k
  {
    if k < 6 {
      var rest := BytesOf(now)[k..];
      assert rest[1..] == BytesOf(now)[k + 1..];
      SpelledSuffix(now, k + 1);
      SplitDigit(now, 256, Pow(256, 5 - k));
    }
  }

  /** The bytes spell the value modulo 2^48. */
  lemma BytesSpell(now: int)
    ensures |BytesOf(now)| == 6 && Below(BytesOf(now), 256)
    ensures Value(256, BytesOf(now)) == now % WINDOW
  {
    SpelledSuffix(now, 0);
    assert BytesOf(now)[0..] == BytesOf(now);
    assert Pow(256, 6) == WINDOW by {
      assert Pow(256, 2) == 0x1_0000 && Pow(256, 4) == 0x1_0000_0000;
    }
  }

  /** Hexadecimal keeps the order: of two byte strings of one length, the one that spells
      the smaller number comes first whatever follows them. */
  lemma {:induction false} HexKeepsOrder(a: seq<nat>, b: seq<nat>, x: string, y: string)
    requires |a| == |b| && Below(a, 256) && Below(b, 256)
    requires Value(256, a) < Value(256, b)
    ensures Before(Hex(a) + x, Hex(b) + y)
  {
    hide Value, Before, Hex;
    ValueOrder(256, a, b);
    if a[0] == b[0] {
      HexKeepsOrder(a[1..], b[1..], x, y);
    }
    FirstByte(a[0], b[0], Hex(a[1..]) + x, Hex(b[1..]) + y);
    HexOpens(a, x);
    HexOpens(b, y);
  }

  lemma HexOpens(a: seq<nat>, x: string)
    requires a != [] && Below(a, 256)
    ensures Hex(a) + x == [Digit(a[0] / 16), Digit(a[0] % 16)] + (Hex(a[1..]) + x)
  {
  }

  lemma FirstByte(m: nat, n: nat, s: string, t: string)
    requires m < 256 && n < 256
    requires m < n || (m == n && Before(s, t))
    ensures Before([Digit(m / 16), Digit(m % 16)] + s, [Digit(n / 16), Digit(n % 16)] + t)
  {
    var u, v := [Digit(m / 16), Digit(m % 16)] + s, [Digit(n / 16), Digit(n % 16)] + t;
    assert u[1..] == [Digit(m % 16)] + s && v[1..] == [Digit(n % 16)] + t;
    assert u[1..][1..] == s && v[1..][1..] == t;
    DigitsAscend(m / 16, n / 16);
    DigitsAscend(m % 16, n % 16);
  }

  /** The 48 bits an id keeps of its instant. */
  function TimePart(timestamp: int, counter: int): nat {
    (timestamp * 0x1000 + counter) % WINDOW
  }

  /** A smaller time part comes first, whatever the random tails. */
  lemma IdsOrdered(kind: Kind, t1: int, c1: int, t2: int, c2: int, x: string, y: string)
    requires TimePart(t1, c1) < TimePart(t2, c2)
    ensures Before(IdOf(kind, t1, c1, x), IdOf(kind, t2, c2, y))
    ensures !Before(IdOf(kind, t2, c2, y), IdOf(kind, t1, c1, x))
  {
    var n1, n2 := t1 * 0x1000 + c1, t2 * 0x1000 + c2;
    BytesSpell(n1);
    BytesSpell(n2);
    var a, b := Hex(BytesOf(n1)) + x, Hex(BytesOf(n2)) + y;
    HexKeepsOrder(BytesOf(n1), BytesOf(n2), x, y);
    BeforePrefixed(Prefix(kind), a, b);
    assert IdOf(kind, t1, c1, x) == Prefix(kind) + a && IdOf(kind, t2, c2, y) == Prefix(kind) + b;
    BeforeAsymmetric(Prefix(kind) + a, Prefix(kind) + b);
  }

  // The ids of one seeding

  /** The value behind the id of the i-th message, or of its part. */
  function Instant(kind: Kind, startedAt: int, i: int): int {
    startedAt * 0x1000 + 4096 * i + Counter(kind, i)
  }

  lemma TimeParts(kind: Kind, startedAt: int, i: nat)
    ensures TimePart(startedAt + i, Counter(kind, i)) == Instant(kind, startedAt, i) % WINDOW
  {
  }

  /** The values of `n` seeded ids share their bits above the 48th. */
  predicate InOneWindow(kind: Kind, startedAt: int, n: nat) {
    n > 0 ==> Instant(kind, startedAt, 0) / WINDOW == Instant(kind, startedAt, n - 1) / WINDOW
  }

  ghost predicate IdsAscend(kind: Kind, startedAt: int, n: nat, tails: Tails) {
    forall i: nat, j: nat :: i < j < n ==>
      Before(SeededId(kind, startedAt, tails, i), SeededId(kind, startedAt, tails, j))
  }

  /** Inside one window the remainders grow with the values. */
  lemma Ascends(a: int, b: int)
    requires a < b && a / WINDOW == b / WINDOW
    ensures a % WINDOW < b % WINDOW
  {
  }

  /** A step shorter than a window that leaves it goes down. */
  lemma Descends(a: int, b: int)
    requires a < b < a + WINDOW && a / WINDOW != b / WINDOW
    ensures b % WINDOW < a % WINDOW
  {
  }

  lemma Monotone(a: int, b: int)
    requires a <= b
    ensures a / WINDOW <= b / WINDOW
  {
  }

  /** Between two values of different windows lies a step that changes window. */
  lemma {:induction false} SomeStepLeaves(base: int, n: nat) returns (i: nat)
    requires base / WINDOW != (base + 4098 * n) / WINDOW
    ensures i < n && (base + 4098 * i) / WINDOW != (base + 4098 * (i + 1)) / WINDOW
  {
    i := n - 1;
    if (base + 4098 * i) / WINDOW == (base + 4098 * n) / WINDOW {
      i := SomeStepLeaves(base, n - 1);
    }
  }

  lemma InWindow(kind: Kind, startedAt: int, n: nat, tails: Tails, i: nat, j: nat)
    requires InOneWindow(kind, startedAt, n) && i < j < n
    ensures Before(SeededId(kind, startedAt, tails, i), SeededId(kind, startedAt, tails, j))
  {
    Monotone(Instant(kind, startedAt, 0), Instant(kind, startedAt, i));
    Monotone(Instant(kind, startedAt, i), Instant(kind, startedAt, j));
    Monotone(Instant(kind, startedAt, j), Instant(kind, startedAt, n - 1));
    Ascends(Instant(kind, startedAt, i), Instant(kind, startedAt, j));
    TimeParts(kind, startedAt, i);
    TimeParts(kind, startedAt, j);
    IdsOrdered(kind, startedAt + i, Counter(kind, i), startedAt + j, Counter(kind, j), tails(kind, i), tails(kind, j));
  }

  lemma AcrossWindow(kind: Kind, startedAt: int, tails: Tails, i: nat)
    requires Instant(kind, startedAt, i) / WINDOW != Instant(kind, startedAt, i + 1) / WINDOW
    ensures !Before(SeededId(kind, startedAt, tails, i), SeededId(kind, startedAt, tails, i + 1))
  {
    var j := i + 1;
    Descends(Instant(kind, startedAt, i), Instant(kind, startedAt, j));
    TimeParts(kind, startedAt, i);
    TimeParts(kind, startedAt, j);
    IdsOrdered(kind, startedAt + j, Counter(kind, j), startedAt + i, Counter(kind, i), tails(kind, j), tails(kind, i));
  }

  /** The message ids of one seeding are strictly increasing strings exactly when their
      values stay in one 48-bit window, whatever the random tails; and so are its part ids. */
  lemma IdsAscendIff(kind: Kind, startedAt: int, n: nat, tails: Tails)
    ensures IdsAscend(kind, startedAt, n, tails) <==> InOneWindow(kind, startedAt, n)
  {
    hide IdOf, Before;
    if InOneWindow(kind, startedAt, n) {
      forall i: nat, j: nat | i < j < n
        ensures Before(SeededId(kind, startedAt, tails, i), SeededId(kind, startedAt, tails, j))
      {
        InWindow(kind, startedAt, n, tails, i, j);
      }
    } else {
      var i := SomeStepLeaves(Instant(kind, startedAt, 0), n - 1);
      AcrossWindow(kind, startedAt, tails, i);
    }
  }

  /** 4098 is twice an odd number, so its multiples come back to a window's start only
      every 2^47 steps. */
  lemma StepsReturn(d: int)
    ensures 4098 * d % WINDOW == 0 <==> d % 0x8000_0000_0000 == 0
  {
    var half := 0x8000_0000_0000;
    if 4098 * d % WINDOW == 0 {
      var q := 4098 * d / WINDOW;
      assert 2049 * d == half * q;
      assert 2049 * INVERSE == 1 + half * CARRY;
      assert d == half * (q * INVERSE - d * CARRY) by {
        assert d * (2049 * INVERSE) == half * q * INVERSE;
        assert d * (1 + half * CARRY) == d + half * (d * CARRY);
      }
      Remainder(d, half, q * INVERSE - d * CARRY, 0);
    } else if d % half == 0 {
      assert 4098 * d == WINDOW * (2049 * (d / half));
      Remainder(4098 * d, WINDOW, 2049 * (d / half), 0);
    }
  }

  ghost predicate TimePartsDistinct(kind: Kind, startedAt: int, n: nat) {
    forall i: nat, j: nat :: i < j < n ==>
      TimePart(startedAt + i, Counter(kind, i)) != TimePart(startedAt + j, Counter(kind, j))
  }

  lemma SameRemainder(a: int, b: int)
    ensures a % WINDOW == b % WINDOW <==> (b - a) % WINDOW == 0
  {
  }

  lemma SameTimePart(kind: Kind, startedAt: int, i: nat, j: nat)
    requires i <= j
    ensures TimePart(startedAt + i, Counter(kind, i)) == TimePart(startedAt + j, Counter(kind, j)) <==>
            (j - i) % 0x8000_0000_0000 == 0
  {
    TimeParts(kind, startedAt, i);
    TimeParts(kind, startedAt, j);
    SameRemainder(Instant(kind, startedAt, i), Instant(kind, startedAt, j));
    assert Instant(kind, startedAt, j) - Instant(kind, startedAt, i) == 4098 * (j - i);
    StepsReturn(j - i);
  }

  /** Across any number of wraps, the message ids of a seeding have pairwise distinct time
      parts exactly when at most 2^47 messages are seeded; and so have its part ids. */
  lemma TimePartsDistinctIff(kind: Kind, startedAt: int, n: nat)
    ensures TimePartsDistinct(kind, startedAt, n) <==> n <= 0x8000_0000_0000
  {
    if n <= 0x8000_0000_0000 {
      forall i: nat, j: nat | i < j < n
        ensures TimePart(startedAt + i, Counter(kind, i)) != TimePart(startedAt + j, Counter(kind, j))
      {
        SameTimePart(kind, startedAt, i, j);
      }
    } else {
      SameTimePart(kind, startedAt, 0, 0x8000_0000_0000);
    }
  }

  /** A message id never shares its time part with a part id of the same seeding. */
  lemma MessageAndPartDiffer(startedAt: int, i: nat, j: nat)
    ensures TimePart(startedAt + i, Counter(Msg, i)) != TimePart(startedAt + j, Counter(Prt, j))
  {
    TimeParts(Msg, startedAt, i);
    TimeParts(Prt, startedAt, j);
    SameRemainder(Instant(Msg, startedAt, i), Instant(Prt, startedAt, j));
  }
}
