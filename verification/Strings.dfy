/** JavaScript's string operations the models use: trim, split and join. */
module Strings {
  /** What `trim` strips: ECMAScript white space and line terminators. */
  predicate IsSpace(c: char) {
    c == ' ' || '\U{9}' <= c <= '\U{D}' || c == '\U{A0}' || c == '\U{1680}' || '\U{2000}' <= c <= '\U{200A}' ||
    c == '\U{2028}' || c == '\U{2029}' || c == '\U{202F}' || c == '\U{205F}' || c == '\U{3000}' || c == '\U{FEFF}'
  }

  function Trim(s: string): (t: string)
    ensures t != "" ==> !IsSpace(t[0]) && !IsSpace(t[|t| - 1])
    ensures |t| <= |s|
  {
    if s == "" then ""
    else if IsSpace(s[0]) then Trim(s[1..])
    else if IsSpace(s[|s| - 1]) then Trim(s[..|s| - 1])
    else s
  }

  function Split(s: string, sep: char): (parts: seq<string>)
    ensures parts != []
  {
    if s == [] then [""]
    else
      var rest := Split(s[1..], sep);
      if s[0] == sep then [""] + rest else [[s[0]] + rest[0]] + rest[1..]
  }

  function Join(parts: seq<string>, sep: char): string {
    if parts == [] then ""
    else if |parts| == 1 then parts[0]
    else parts[0] + [sep] + Join(parts[1..], sep)
  }

  /** `split("::")`: matches are taken from the left and do not overlap. */
  function SplitPairs(s: string): (parts: seq<string>)
    ensures parts != []
  {
    if s == [] then [""]
    else if |s| >= 2 && s[0] == ':' && s[1] == ':' then [""] + SplitPairs(s[2..])
    else
      var rest := SplitPairs(s[1..]);
      [[s[0]] + rest[0]] + rest[1..]
  }

  // Splitting and joining at one character

  lemma {:induction false} SplitConcat(a: string, b: string, sep: char)
    ensures Split(a + [sep] + b, sep) == Split(a, sep) + Split(b, sep)
  {
    var s := a + [sep] + b;
    if a == [] {
      assert s[1..] == b;
    } else {
      assert s[1..] == a[1..] + [sep] + b;
      SplitConcat(a[1..], b, sep);
    }
  }

  lemma {:induction false} SplitWhole(s: string, sep: char)
    requires sep !in s
    ensures Split(s, sep) == [s]
  {
    if s != [] {
      SplitWhole(s[1..], sep);
      assert [s[0]] + s[1..] == s;
    }
  }

  ghost predicate Free(parts: seq<string>, sep: char) {
    forall i :: 0 <= i < |parts| ==> sep !in parts[i]
  }

  lemma {:induction false} SplitJoined(parts: seq<string>, sep: char)
    requires parts != [] && Free(parts, sep)
    ensures Split(Join(parts, sep), sep) == parts
  {
    SplitWhole(parts[0], sep);
    if |parts| > 1 {
      SplitConcat(parts[0], Join(parts[1..], sep), sep);
      SplitJoined(parts[1..], sep);
    }
  }

  lemma {:induction false} JoinSplit(s: string, sep: char)
    ensures Join(Split(s, sep), sep) == s
    ensures Free(Split(s, sep), sep)
  {
    if s != [] {
      JoinSplit(s[1..], sep);
    }
  }

  /** Everything before the last part of a joined list, with the separator. */
  function Lead(parts: seq<string>, sep: char): string {
    if parts == [] then "" else Join(parts, sep) + [sep]
  }

  lemma {:induction false} JoinAppend(parts: seq<string>, last: string, sep: char)
    ensures Join(parts + [last], sep) == Lead(parts, sep) + last
  {
    if parts != [] {
      assert (parts + [last])[1..] == parts[1..] + [last];
      JoinAppend(parts[1..], last, sep);
    }
  }

  /** What stands before the first separator, and after it, is determined. */
  lemma HeadsAgree(a: string, b: string, x: string, y: string, sep: char)
    requires sep !in a && sep !in b && a + [sep] + x == b + [sep] + y
    ensures a == b && x == y
  {
    var s := a + [sep] + x;
    SplitConcat(a, x, sep);
    SplitConcat(b, y, sep);
    SplitWhole(a, sep);
    SplitWhole(b, sep);
    assert Split(s, sep)[0] == a && Split(s, sep)[0] == b;
    assert s[|a| + 1..] == x && s[|b| + 1..] == y;
  }

  // Splitting at "::"

  predicate NoPair(s: string) {
    forall i :: 0 <= i < |s| - 1 ==> s[i] != ':' || s[i + 1] != ':'
  }

  lemma NoPairTail(s: string)
    requires NoPair(s) && s != ""
    ensures NoPair(s[1..])
    ensures |s| >= 2 ==> s[0] != ':' || s[1] != ':'
  {
    var t := s[1..];
    forall i | 0 <= i < |t| - 1 ensures t[i] != ':' || t[i + 1] != ':' {
      assert t[i] == s[i + 1];
    }
    assert |s| >= 2 ==> s[0] != ':' || s[0 + 1] != ':';
  }

  lemma {:induction false} PairsWhole(s: string)
    requires NoPair(s)
    ensures SplitPairs(s) == [s]
  {
    hide NoPair;
    if s != [] {
      NoPairTail(s);
      PairsWhole(s[1..]);
      assert [s[0]] + s[1..] == s;
    }
  }

  lemma {:induction false} PairsConcat(a: string, b: string)
    requires NoPair(a) && (a != "" ==> a[|a| - 1] != ':')
    ensures SplitPairs(a + "::" + b) == [a] + SplitPairs(b)
  {
    hide NoPair;
    var s := a + "::" + b;
    if a == "" {
      assert s[2..] == b;
    } else {
      assert s[1..] == a[1..] + "::" + b;
      NoPairTail(a);
      PairsConcat(a[1..], b);
      assert [a[0]] + a[1..] == a;
    }
  }

  lemma {:induction false} PairsRejoin(s: string)
    ensures |SplitPairs(s)| == 1 ==> SplitPairs(s)[0] == s
    ensures |SplitPairs(s)| == 2 ==> s == SplitPairs(s)[0] + "::" + SplitPairs(s)[1]
  {
    if s != [] {
      if |s| >= 2 && s[0] == ':' && s[1] == ':' {
        PairsRejoin(s[2..]);
      } else {
        PairsRejoin(s[1..]);
      }
    }
  }

  lemma {:induction false} JoinHas(parts: seq<string>, sep: char, c: char)
    requires c != sep
    ensures c in Join(parts, sep) <==> exists i :: 0 <= i < |parts| && c in parts[i]
  {
    if |parts| > 1 {
      JoinHas(parts[1..], sep, c);
      assert c in Join(parts, sep) <==> c in parts[0] || c in Join(parts[1..], sep);
      assert forall i :: 0 <= i < |parts| - 1 ==> parts[1..][i] == parts[i + 1];
      if c in Join(parts[1..], sep) {
        var i :| 0 <= i < |parts| - 1 && c in parts[1..][i];
        assert c in parts[i + 1];
      }
    } else if |parts| == 1 && c in parts[0] {
      assert 0 < |parts| && c in parts[0];
    }
  }

  // Order

  /** Order of strings by their first difference. */
  predicate Before(a: string, b: string) {
    b != [] && (a == [] || a[0] < b[0] || (a[0] == b[0] && Before(a[1..], b[1..])))
  }

  lemma {:induction false} BeforePrefixed(p: string, a: string, b: string)
    ensures Before(p + a, p + b) == Before(a, b)
  {
    if p == [] {
      assert p + a == a && p + b == b;
    } else {
      assert (p + a)[1..] == p[1..] + a && (p + b)[1..] == p[1..] + b;
      BeforePrefixed(p[1..], a, b);
    }
  }

  lemma {:induction false} BeforeAsymmetric(a: string, b: string)
    requires Before(a, b)
    ensures !Before(b, a) && a != b
  {
    if a != [] && a[0] == b[0] {
      BeforeAsymmetric(a[1..], b[1..]);
    }
  }

  lemma {:induction false} BeforeTotal(a: string, b: string)
    ensures Before(a, b) || Before(b, a) || a == b
  {
    if a != [] && b != [] && a[0] == b[0] {
      BeforeTotal(a[1..], b[1..]);
      assert a == [a[0]] + a[1..] && b == [b[0]] + b[1..];
    }
  }

  lemma {:induction false} BeforeTransitive(a: string, b: string, c: string)
    requires Before(a, b) && Before(b, c)
    ensures Before(a, c)
  {
    if a != [] && b != [] && a[0] == b[0] == c[0] {
      BeforeTransitive(a[1..], b[1..], c[1..]);
    }
  }
}
