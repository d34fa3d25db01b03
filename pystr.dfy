/**
 * The Python `str` operations the dumpers are built from, on `string` (a sequence of
 * Unicode scalar values): `find`/`in`, `partition`, `rpartition`, `endswith`,
 * `rstrip(c)`, `strip()`, `splitlines()`, `sep.join(...)`, `replace(old, new, 1)`,
 * `isnumeric()` and `int(...)`.
 */
module PyStr {
  import opened Wrappers

  /** `sub` occurs in `s` starting at index `i`. */
  predicate OccursAt(s: string, sub: string, i: nat) {
    i + |sub| <= |s| && s[i..i + |sub|] == sub
  }

  /** The first occurrence of `sub` in `s` at or after index `k`. */
  function FindFrom(s: string, sub: string, k: nat): (r: Option<nat>)
    ensures r.Some? ==> k <= r.value && OccursAt(s, sub, r.value)
    ensures r.Some? ==> forall j: nat :: k <= j < r.value ==> !OccursAt(s, sub, j)
    ensures r.None? ==> forall j: nat :: k <= j ==> !OccursAt(s, sub, j)
    decreases |s| - k
  {
    if k + |sub| > |s| then None
    else if s[k..k + |sub|] == sub then Some(k)
    else FindFrom(s, sub, k + 1)
  }

  /** `s.find(sub)`, with None for -1. */
  function Find(s: string, sub: string): (r: Option<nat>)
    ensures r.Some? ==> OccursAt(s, sub, r.value) && forall j: nat :: j < r.value ==> !OccursAt(s, sub, j)
    ensures r.None? ==> forall j: nat :: !OccursAt(s, sub, j)
  {
    FindFrom(s, sub, 0)
  }

  /** `sub in s`. */
  predicate Contains(s: string, sub: string) {
    Find(s, sub).Some?
  }

  /** A one-character needle occurs exactly when the character does. */
  lemma ContainsChar(s: string, c: char)
    ensures Contains(s, [c]) <==> c in s
  {
    if c in s {
      var k :| 0 <= k < |s| && s[k] == c;
      assert s[k..k + 1] == [c];
      assert OccursAt(s, [c], k);
    }
    if Contains(s, [c]) {
      var i := Find(s, [c]).value;
      assert s[i..i + 1][0] == s[i];
    }
  }

  /** A needle holding a character that `s` lacks does not occur in `s`. */
  lemma NotContainsMissingChar(s: string, sub: string, c: char)
    requires c in sub && c !in s
    ensures !Contains(s, sub)
  {
    var k :| 0 <= k < |sub| && sub[k] == c;
    forall i: nat ensures !OccursAt(s, sub, i) {
      if i + |sub| <= |s| {
        assert s[i..i + |sub|][k] == s[i + k];
        assert s[i + k] in s;
      }
    }
  }

  /** `s.partition(sep)`: head, separator and tail around the first occurrence of `sep`. */
  function Partition(s: string, sep: string): (r: (string, string, string))
    requires |sep| > 0
    ensures r.0 + r.1 + r.2 == s
    ensures Contains(s, sep) ==> r.1 == sep && OccursAt(s, sep, |r.0|)
    ensures forall j: nat :: j < |r.0| ==> !OccursAt(s, sep, j)
    ensures !Contains(s, sep) ==> r == (s, "", "")
  {
    match Find(s, sep)
    case Some(i) =>
      assert s == s[..i] + sep + s[i + |sep|..] by {
        assert s[i..i + |sep|] == sep;
        assert s == s[..i] + s[i..i + |sep|] + s[i + |sep|..];
      }
      (s[..i], sep, s[i + |sep|..])
    case None => (s, "", "")
  }

  /** The first occurrence of a character is found at its first index. */
  lemma FindChar(s: string, c: char, k: nat)
    requires k < |s| && s[k] == c && c !in s[..k]
    ensures Find(s, [c]) == Some(k)
  {
    CharOccurs(s, k);
    forall j: nat | j < k ensures !OccursAt(s, [c], j) {
      assert s[j..j + 1][0] == s[..k][j];
    }
  }

  /** A character of `s` is a one-character occurrence at its index. */
  lemma CharOccurs(s: string, k: nat)
    requires k < |s|
    ensures OccursAt(s, [s[k]], k)
  {
    assert s[k..k + 1] == [s[k]];
  }

  /** For a one-character separator, the head never holds that character. */
  lemma PartitionCharHead(s: string, c: char)
    ensures c !in Partition(s, [c]).0
    ensures c in s ==> Partition(s, [c]).1 == [c]
  {
    var h := Partition(s, [c]).0;
    assert h <= s;
    if c in h {
      var k :| 0 <= k < |h| && h[k] == c;
      assert s[k..k + 1] == [c];
      assert OccursAt(s, [c], k);
    }
    ContainsChar(s, c);
  }

  /** The last occurrence of `sub` in `s` at or before index `k`. */
  function RFindFrom(s: string, sub: string, k: int): (r: Option<nat>)
    ensures r.Some? ==> r.value <= k && OccursAt(s, sub, r.value)
    ensures r.Some? ==> forall j: nat :: r.value < j <= k ==> !OccursAt(s, sub, j)
    ensures r.None? ==> forall j: nat :: j <= k ==> !OccursAt(s, sub, j)
    decreases k
  {
    if k < 0 then None
    else if OccursAt(s, sub, k) then Some(k)
    else RFindFrom(s, sub, k - 1)
  }

  /** `s.rfind(sub)`, with None for -1. */
  function RFind(s: string, sub: string): (r: Option<nat>)
    ensures r.Some? ==> OccursAt(s, sub, r.value) && forall j: nat :: r.value < j ==> !OccursAt(s, sub, j)
    ensures r.None? ==> forall j: nat :: !OccursAt(s, sub, j)
  {
    RFindFrom(s, sub, |s| - |sub|)
  }

  /** The text of `s` before its first `c`, or all of `s` when it has none. */
  function Before(s: string, c: char): (r: string)
    ensures r <= s
    ensures c !in r
    ensures c !in s ==> r == s
    ensures |r| < |s| ==> s[|r|] == c
    decreases |s|
  {
    if s == [] || s[0] == c then []
    else
      var tail := Before(s[1..], c);
      assert c !in s ==> c !in s[1..];
      [s[0]] + tail
  }

  /** `Before` is the head of `s.partition(c)`. */
  lemma {:induction false} BeforeIsPartition(s: string, c: char)
    ensures Before(s, c) == Partition(s, [c]).0
  {
    var r := Before(s, c);
    if c in s {
      var k := |r|;
      assert |r| == |s| ==> r == s;
      assert s[..k] == r;
      FindChar(s, c, k);
    } else {
      ContainsChar(s, c);
    }
  }

  /** Whatever follows the first `c` does not matter. */
  lemma {:induction false} BeforeOf(head: string, c: char, tail: string)
    requires c !in head
    ensures Before(head + [c] + tail, c) == head
    decreases |head|
  {
    if head != [] {
      BeforeOf(head[1..], c, tail);
      assert (head + [c] + tail)[1..] == head[1..] + [c] + tail;
    }
  }

  /** No proper prefix of `m` is also a suffix of it, so two occurrences of `m` never overlap. */
  predicate BorderFree(m: string) {
    forall k :: 0 < k < |m| ==> m[..k] != m[|m| - k..]
  }

  /** A string whose last character occurs nowhere else in it is border-free. */
  lemma LastCharUnique(m: string)
    requires m != [] && forall i :: 0 <= i < |m| - 1 ==> m[i] != m[|m| - 1]
    ensures BorderFree(m)
  {
    forall k | 0 < k < |m| ensures m[..k] != m[|m| - k..] {
      assert m[..k][k - 1] != m[|m| - k..][k - 1];
    }
  }

  /** A string whose first character occurs nowhere else in it is border-free. */
  lemma FirstCharUnique(m: string)
    requires m != [] && forall i :: 0 < i < |m| ==> m[i] != m[0]
    ensures BorderFree(m)
  {
    forall k | 0 < k < |m| ensures m[..k] != m[|m| - k..] {
      assert m[..k][0] != m[|m| - k..][0];
    }
  }

  /**
   * A border-free separator placed after a prefix that does not contain it is the
   * first occurrence, so `partition` splits exactly there.
   */
  lemma PartitionAtFirst(prefix: string, sep: string, rest: string)
    requires |sep| > 0 && BorderFree(sep) && !Contains(prefix, sep)
    ensures Partition(prefix + sep + rest, sep) == (prefix, sep, rest)
  {
    var s := prefix + sep + rest;
    assert s[|prefix|..|prefix| + |sep|] == sep;
    forall j: nat | j < |prefix| ensures !OccursAt(s, sep, j) {
      if j + |sep| <= |prefix| {
        assert s[j..j + |sep|] == prefix[j..j + |sep|];
        assert !OccursAt(prefix, sep, j);
      } else if j + |sep| <= |s| {
        var k := j + |sep| - |prefix|;
        assert 0 < k < |sep|;
        assert s[j..j + |sep|][|sep| - k..] == sep[..k];
        assert sep[..k] != sep[|sep| - k..];
      }
    }
    assert OccursAt(s, sep, |prefix|);
    var f := Find(s, sep);
    assert f.Some? && f.value <= |prefix|;
    assert f.value == |prefix|;
    var r := Partition(s, sep);
    assert |r.0| == |prefix|;
    assert s[..|prefix|] == prefix && r.0 == s[..|r.0|];
    assert r.2 == s[|prefix| + |sep|..];
  }

  /**
   * `s.replace(sep, repl, 1)` on a string whose first occurrence of the border-free `sep`
   * follows `prefix` replaces exactly that occurrence.
   */
  lemma ReplaceFirstAt(prefix: string, sep: string, rest: string, repl: string)
    requires |sep| > 0 && BorderFree(sep) && !Contains(prefix, sep)
    ensures ReplaceFirst(prefix + sep + rest, sep, repl) == prefix + repl + rest
  {
    var s := prefix + sep + rest;
    PartitionAtFirst(prefix, sep, rest);
    assert OccursAt(s, sep, |prefix|) by {
      assert s[|prefix|..|prefix| + |sep|] == sep;
    }
    assert Find(s, sep).value == |prefix|;
    assert s[..|prefix|] == prefix && s[|prefix| + |sep|..] == rest;
  }

  /** Splitting at the first `c` gives back the `c`-free head and the tail it was built from. */
  lemma PartitionAtChar(head: string, c: char, rest: string)
    requires c !in head
    ensures Partition(head + [c] + rest, [c]) == (head, [c], rest)
  {
    ContainsChar(head, c);
    PartitionAtFirst(head, [c], rest);
  }

  /** Without the separator character, `partition` gives the whole string and two empty parts. */
  lemma PartitionNoChar(s: string, c: char)
    requires c !in s
    ensures Partition(s, [c]) == (s, "", "")
  {
    ContainsChar(s, c);
  }

  /** A common prefix can be cancelled. */
  lemma CancelPrefix(a: string, x: string, y: string)
    requires a + x == a + y
    ensures x == y
  {
    assert x == (a + x)[|a|..];
  }

  /** `a + s + m + v` regrouped around the first character of `m`. */
  lemma Regroup(a: string, s: string, m: string, v: string)
    requires m != []
    ensures a + s + m + v == a + (s + [m[0]] + (m[1..] + v))
  {
    assert m == [m[0]] + m[1..];
  }

  /** Two strings that agree around their first `c` have equal heads and equal tails. */
  lemma SplitAtFirst(h1: string, c: char, t1: string, h2: string, t2: string)
    requires c !in h1 && c !in h2
    requires h1 + [c] + t1 == h2 + [c] + t2
    ensures h1 == h2 && t1 == t2
  {
    BeforeOf(h1, c, t1);
    BeforeOf(h2, c, t2);
    assert t1 == (h1 + [c] + t1)[|h1| + 1..];
    assert t2 == (h2 + [c] + t2)[|h2| + 1..];
  }

  /** `s.rpartition(sep)`: head, separator and tail around the last occurrence of `sep`. */
  function RPartition(s: string, sep: string): (r: (string, string, string))
    requires |sep| > 0
    ensures r.0 + r.1 + r.2 == s
    ensures RFind(s, sep).Some? ==> r.1 == sep && OccursAt(s, sep, |r.0|)
    ensures forall j: nat :: |r.0| < j ==> !OccursAt(s, sep, j)
    ensures RFind(s, sep).None? ==> r == ("", "", s)
  {
    match RFind(s, sep)
    case Some(i) =>
      assert s == s[..i] + sep + s[i + |sep|..] by {
        assert s[i..i + |sep|] == sep;
        assert s == s[..i] + s[i..i + |sep|] + s[i + |sep|..];
      }
      (s[..i], sep, s[i + |sep|..])
    case None => ("", "", s)
  }

  /** For a one-character separator, the tail never holds that character. */
  lemma RPartitionCharTail(s: string, c: char)
    ensures c !in RPartition(s, [c]).2
    ensures c in s ==> RPartition(s, [c]).1 == [c]
    ensures c !in s ==> RPartition(s, [c]) == ("", "", s)
  {
    var r := RPartition(s, [c]);
    forall k | 0 <= k < |r.2| ensures r.2[k] != c {
      var at := |r.0| + |r.1| + k;
      assert r.2[k] == s[at];
      CharOccurs(s, at);
    }
    if c in s {
      var k :| 0 <= k < |s| && s[k] == c;
      CharOccurs(s, k);
    }
  }

  /** Split at its last occurrence of `c`, a string gives back the head and the tail it was built from. */
  lemma RPartitionAtLast(head: string, c: char, tail: string)
    requires c !in tail
    ensures RPartition(head + [c] + tail, [c]) == (head, [c], tail)
  {
    var s := head + [c] + tail;
    var r := RPartition(s, [c]);
    RPartitionCharTail(s, c);
    assert s[|head|] == c;
    assert s == r.0 + [c] + r.2;
    assert forall k :: |r.0| < k < |s| ==> s[k] == r.2[k - |r.0| - 1];
    assert forall k :: |head| < k < |s| ==> s[k] == tail[k - |head| - 1];
    assert s[|r.0|] == c;
    assert |r.0| == |head|;
    assert s[..|head|] == head && s[..|r.0|] == r.0;
  }

  /** `s.endswith(suffix)`. */
  predicate EndsWith(s: string, suffix: string) {
    |suffix| <= |s| && s[|s| - |suffix|..] == suffix
  }

  /** `s.rstrip(c)`: `s` without its trailing run of `c`. */
  function RStripChar(s: string, c: char): (r: string)
    ensures r <= s
    ensures r == [] || r[|r| - 1] != c
    ensures forall k :: |r| <= k < |s| ==> s[k] == c
  {
    if s != [] && s[|s| - 1] == c then RStripChar(s[..|s| - 1], c) else s
  }

  /** `s.replace(target, repl, 1)`: the first occurrence of `target` replaced by `repl`. */
  function ReplaceFirst(s: string, target: string, repl: string): (r: string)
    ensures !Contains(s, target) ==> r == s
    ensures Contains(s, target) ==>
      var i := Find(s, target).value; r == s[..i] + repl + s[i + |target|..]
  {
    match Find(s, target)
    case Some(i) => s[..i] + repl + s[i + |target|..]
    case None => s
  }

  /** The characters Python's `str.isspace()` accepts, which `str.strip()` removes. */
  predicate IsSpace(c: char) {
    ('\t' <= c <= '\r') || ('\U{1C}' <= c <= ' ') || c == '\U{85}' || c == '\U{A0}'
    || c == '\U{1680}' || ('\U{2000}' <= c <= '\U{200A}') || c == '\U{2028}' || c == '\U{2029}'
    || c == '\U{202F}' || c == '\U{205F}' || c == '\U{3000}'
  }

  function StripLeft(s: string): (r: string)
    ensures |r| <= |s| && r == s[|s| - |r|..]
    ensures r == [] || !IsSpace(r[0])
  {
    if s != [] && IsSpace(s[0]) then StripLeft(s[1..]) else s
  }

  function StripRight(s: string): (r: string)
    ensures r <= s
    ensures r == [] || !IsSpace(r[|r| - 1])
  {
    if s != [] && IsSpace(s[|s| - 1]) then StripRight(s[..|s| - 1]) else s
  }

  /** `s.strip()`: `s` without leading and trailing whitespace; a contiguous piece of `s`. */
  function Strip(s: string): (r: string)
    ensures r == [] || (!IsSpace(r[0]) && !IsSpace(r[|r| - 1]))
    ensures forall c :: c in r ==> c in s
  {
    var right := StripRight(s);
    var r := StripLeft(right);
    assert forall c :: c in r ==> c in right;
    r
  }

  /** A leading space and a trailing tab are stripped from a piece that has no surrounding whitespace. */
  lemma StripPadded(s: string)
    requires s != [] && !IsSpace(s[0]) && !IsSpace(s[|s| - 1])
    ensures Strip(" " + s + "\t") == s
  {
    var padded := " " + s + "\t";
    var inner := " " + s;
    assert padded[|padded| - 1] == '\t' && padded[..|padded| - 1] == inner;
    assert StripRight(padded) == StripRight(inner);
    assert inner[|inner| - 1] == s[|s| - 1];
    assert StripRight(inner) == inner;
    assert inner[0] == ' ' && inner[1..] == s;
    assert StripLeft(inner) == StripLeft(s) == s;
  }

  /** A single leading space is stripped from a piece that has no surrounding whitespace. */
  lemma StripLeadingSpace(s: string)
    requires s != [] && !IsSpace(s[0]) && !IsSpace(s[|s| - 1])
    ensures Strip(" " + s) == s
  {
    var padded := " " + s;
    assert padded[|padded| - 1] == s[|s| - 1];
    assert StripRight(padded) == padded;
    assert padded[0] == ' ' && padded[1..] == s;
    assert StripLeft(padded) == StripLeft(s) == s;
  }

  /** The characters at which Python's `str.splitlines()` ends a line. */
  predicate IsLineBreak(c: char) {
    ('\n' <= c <= '\r') || ('\U{1C}' <= c <= '\U{1E}') || c == '\U{85}'
    || c == '\U{2028}' || c == '\U{2029}'
  }

  /** A string that `splitlines()` leaves whole. */
  predicate LineFree(s: string) {
    forall c :: c in s ==> !IsLineBreak(c)
  }

  /** Index of the first line break in `s`, or `|s|` when there is none. */
  function LineEnd(s: string): (i: nat)
    ensures i <= |s|
    ensures forall j :: 0 <= j < i ==> !IsLineBreak(s[j])
    ensures i < |s| ==> IsLineBreak(s[i])
  {
    if s == [] || IsLineBreak(s[0]) then 0 else 1 + LineEnd(s[1..])
  }

  /**
   * `s.splitlines()`: the lines of `s` without their terminators, where "\r\n" ends a
   * single line and a final terminator does not open an empty last line.
   */
  function SplitLines(s: string): (lines: seq<string>)
    ensures forall l :: l in lines ==> LineFree(l)
    ensures s == [] <==> lines == []
    decreases |s|
  {
    if s == [] then []
    else
      var i := LineEnd(s);
      if i == |s| then [s]
      else
        var next := if s[i] == '\r' && i + 1 < |s| && s[i + 1] == '\n' then i + 2 else i + 1;
        [s[..i]] + SplitLines(s[next..])
  }

  /** `sep.join(parts)`. */
  function Join(parts: seq<string>, sep: string): (r: string)
    ensures parts == [] ==> r == []
    ensures |parts| == 1 ==> r == parts[0]
    decreases |parts|
  {
    if parts == [] then []
    else if |parts| == 1 then parts[0]
    else parts[0] + sep + Join(parts[1..], sep)
  }

  /** A line ending in a line-free piece followed by "\n" splits right after that piece. */
  lemma SplitLinesCons(line: string, rest: string)
    requires LineFree(line)
    ensures SplitLines(line + "\n" + rest) == [line] + SplitLines(rest)
  {
    var s := line + "\n" + rest;
    assert s[|line|] == '\n';
    forall j | 0 <= j < |line| ensures !IsLineBreak(s[j]) {
      assert s[j] == line[j] && line[j] in line;
    }
    assert LineEnd(s) == |line|;
    assert s[|line| + 1..] == rest;
    assert s[..|line|] == line;
  }

  /** A non-empty line-free string is a single line. */
  lemma SplitLinesSingle(line: string)
    requires LineFree(line) && line != []
    ensures SplitLines(line) == [line]
  {
    forall j | 0 <= j < |line| ensures !IsLineBreak(line[j]) {
      assert line[j] in line;
    }
    assert LineEnd(line) == |line|;
  }

  predicate IsDigit(c: char) {
    '0' <= c <= '9'
  }

  /** `s.isnumeric()`, restricted to the ASCII digits. */
  predicate IsNumeric(s: string) {
    |s| > 0 && forall c :: c in s ==> IsDigit(c)
  }

  /** `int(s)` for a string of ASCII digits. */
  function DecimalValue(s: string): nat
    requires forall c :: c in s ==> IsDigit(c)
  {
    if s == [] then 0
    else
      var last := s[|s| - 1];
      assert last in s && IsDigit(last);
      assert forall c :: c in s[..|s| - 1] ==> c in s;
      10 * DecimalValue(s[..|s| - 1]) + (last as int - '0' as int)
  }
}
