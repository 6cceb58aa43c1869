/** The few Python `str` operations the core relies on: `lower`, `in` (substring
    search), `find`, `split` and `strip`, over `seq<char>`. */
module Strings {

  /** `c.lower()` restricted to ASCII: 'A'..'Z' map to 'a'..'z', all else is kept. */
  function LowerChar(c: char): char {
    if 'A' <= c <= 'Z' then (c as int + 32) as char else c
  }

  function Lower(s: string): (r: string)
    ensures |r| == |s|
    ensures forall i :: 0 <= i < |s| ==> r[i] == LowerChar(s[i])
  {
    seq(|s|, i requires 0 <= i < |s| => LowerChar(s[i]))
  }

  /** `needle` occurs in `hay` starting at position `i`. */
  predicate OccursAt(hay: string, needle: string, i: nat) {
    i + |needle| <= |hay| && hay[i..i + |needle|] == needle
  }

  /** Python's `needle in hay` for strings. */
  predicate Contains(hay: string, needle: string) {
    exists i :: 0 <= i <= |hay| - |needle| && OccursAt(hay, needle, i)
  }

  /** The first position at or after `k` holding `c`, or `|s|` if there is none:
      Python's `s.find(c, k)` with -1 reported as `|s|`. */
  function IndexFrom(s: string, c: char, k: nat): (j: nat)
    requires k <= |s|
    ensures k <= j <= |s|
    ensures forall i :: k <= i < j ==> s[i] != c
    ensures j < |s| ==> s[j] == c
    decreases |s| - k
  {
    if k == |s| || s[k] == c then k else IndexFrom(s, c, k + 1)
  }

  /** Python's `s.split(c)`: the pieces between occurrences of `c`; never empty. */
  function Split(s: string, c: char): (parts: seq<string>)
    ensures |parts| >= 1
    decreases |s|
  {
    var j := IndexFrom(s, c, 0);
    if j == |s| then [s] else [s[..j]] + Split(s[j + 1..], c)
  }

  /** Python's `chr(c).join(parts)`. */
  function Join(parts: seq<string>, c: char): string
    requires |parts| >= 1
  {
    if |parts| == 1 then parts[0] else parts[0] + [c] + Join(parts[1..], c)
  }

  /** Python's `s.lstrip(c)`: drop every leading `c`. */
  function TrimStart(s: string, c: char): (r: string)
    ensures |r| <= |s| && r == s[|s| - |r|..]
    ensures forall i :: 0 <= i < |s| - |r| ==> s[i] == c
    ensures r == [] || r[0] != c
  {
    if s != [] && s[0] == c then TrimStart(s[1..], c) else s
  }

  /** Python's `s.rstrip(c)`: drop every trailing `c`. */
  function TrimEnd(s: string, c: char): (r: string)
    ensures |r| <= |s| && r == s[..|r|]
    ensures forall i :: |r| <= i < |s| ==> s[i] == c
    ensures r == [] || r[|r| - 1] != c
  {
    if s != [] && s[|s| - 1] == c then TrimEnd(s[..|s| - 1], c) else s
  }

  /** Python's `s.strip(c)`. */
  function Strip(s: string, c: char): string {
    TrimEnd(TrimStart(s, c), c)
  }

  /** Trimming stops at once before a character other than `c`. */
  lemma TrimStops(s: string, c: char)
    ensures s != [] && s[0] != c ==> TrimStart(s, c) == s
    ensures s != [] && s[|s| - 1] != c ==> TrimEnd(s, c) == s
  {
  }

  /** A leading `c` is dropped and trimming goes on. */
  lemma TrimStartDrops(s: string, c: char)
    requires s != [] && s[0] == c
    ensures TrimStart(s, c) == TrimStart(s[1..], c)
  {
  }

  /** Stripping `c` from `c` followed by a string that neither starts nor
      ends with `c` leaves that string. */
  lemma StripOneLeading(q: string, c: char)
    requires q != [] && q[0] != c && q[|q| - 1] != c
    ensures Strip([c] + q, c) == q
  {
    assert ([c] + q)[1..] == q;
    TrimStartDrops([c] + q, c);
    TrimStops(q, c);
  }

  /** `IndexFrom` finds the FIRST occurrence: any `j` with the same two
      properties is the one it returns. */
  lemma IndexFromUnique(s: string, c: char, k: nat, j: nat)
    requires k <= j <= |s|
    requires forall i :: k <= i < j ==> s[i] != c
    requires j < |s| ==> s[j] == c
    ensures IndexFrom(s, c, k) == j
  {
  }

  /** The first piece of `split` is `name` exactly when `name` is free of the
      separator and either is the whole string or is followed by the separator. */
  lemma FirstPiece(s: string, c: char, name: string)
    ensures Split(s, c)[0] == name <==> c !in name && (s == name || name + [c] <= s)
  {
    var j := IndexFrom(s, c, 0);
    assert Split(s, c)[0] == s[..j];
    if c !in name && name + [c] <= s {
      assert forall i :: 0 <= i < |name| ==> s[i] == name[i];
      IndexFromUnique(s, c, 0, |name|);
      assert s[..|name|] == name;
    }
    if Split(s, c)[0] == name && j < |s| {
      assert s[..j + 1] == name + [c];
    }
  }

  /** `split` yields a second piece exactly when the separator occurs, and the
      pieces after the first are those of the rest of the string. */
  lemma SplitTail(s: string, c: char)
    ensures |Split(s, c)| >= 2 <==> c in s
    ensures c in s ==> Split(s, c)[1..] == Split(s[IndexFrom(s, c, 0) + 1..], c)
  {
    var j := IndexFrom(s, c, 0);
    SplitStep(s, c);
    if c in s {
      var i :| 0 <= i < |s| && s[i] == c;
      assert j <= i < |s|;
    } else {
      assert j == |s|;
    }
  }

  /** A string free of the separator splits into itself alone. */
  lemma SplitNone(s: string, c: char)
    requires c !in s
    ensures Split(s, c) == [s]
  {
    IndexFromUnique(s, c, 0, |s|);
  }

  /** A separator-free piece followed by the separator splits off first. */
  lemma SplitCons(a: string, c: char, rest: string)
    requires c !in a
    ensures Split(a + [c] + rest, c) == [a] + Split(rest, c)
  {
    var s := a + [c] + rest;
    IndexFromUnique(s, c, 0, |a|);
    assert s[..|a|] == a;
    assert s[|a| + 1..] == rest;
  }

  /** One step of `split`: the piece before the first separator, then the
      split of what follows it; a string without the separator is one piece. */
  lemma SplitStep(s: string, c: char)
    ensures var j := IndexFrom(s, c, 0);
            && c !in s[..j]
            && (j == |s| ==> Split(s, c) == [s])
            && (j < |s| ==> Split(s, c) == [s[..j]] + Split(s[j + 1..], c) && s == s[..j] + [c] + s[j + 1..])
  {
    var j := IndexFrom(s, c, 0);
    var head := s[..j];
    assert c !in head by {
      forall i | 0 <= i < |head| ensures head[i] != c {
        assert head[i] == s[i];
      }
    }
    if j < |s| {
      assert s == head + [c] + s[j + 1..];
    }
  }

  /** Two separator-free pieces joined by the separator split into both. */
  lemma SplitPair(init: string, c: char, last: string)
    requires c !in init && c !in last
    ensures Split(init + [c] + last, c) == [init, last]
  {
    SplitNone(last, c);
    SplitCons(init, c, last);
  }

  /** Regrouping pieces around two separators: associativity of `+`, stated
      once as a solver aid for `SplitSnoc`; it models nothing on its own. */
  lemma Regroup(head: string, c: char, tail: string, last: string)
    ensures head + [c] + tail + [c] + last == head + [c] + (tail + [c] + last)
  {
  }

  /** A separator-free last piece after the separator splits off last. */
  lemma {:induction false} SplitSnoc(init: string, c: char, last: string)
    requires c !in last
    ensures Split(init + [c] + last, c) == Split(init, c) + [last]
    decreases |init|
  {
    var j := IndexFrom(init, c, 0);
    SplitStep(init, c);
    if j == |init| {
      SplitPair(init, c, last);
    } else {
      var head, tail := init[..j], init[j + 1..];
      SplitSnoc(tail, c, last);
      Regroup(head, c, tail, last);
      SplitSnocStep(head, tail, c, last);
    }
  }

  /** The inductive step of `SplitSnoc`: a first piece in front of both sides. */
  lemma SplitSnocStep(head: string, tail: string, c: char, last: string)
    requires c !in head
    requires Split(tail + [c] + last, c) == Split(tail, c) + [last]
    ensures Split(head + [c] + (tail + [c] + last), c) == Split(head + [c] + tail, c) + [last]
  {
    SplitCons(head, c, tail + [c] + last);
    SplitCons(head, c, tail);
  }

  /** `split` undoes `join` when no piece contains the separator. */
  lemma {:induction false} SplitJoin(parts: seq<string>, c: char)
    requires |parts| >= 1
    requires forall k :: 0 <= k < |parts| ==> c !in parts[k]
    ensures Split(Join(parts, c), c) == parts
    decreases |parts|
  {
    if |parts| == 1 {
      SplitNone(parts[0], c);
    } else {
      SplitJoin(parts[1..], c);
      SplitCons(parts[0], c, Join(parts[1..], c));
      assert parts == [parts[0]] + parts[1..];
    }
  }

  /** `join` undoes `split`. */
  lemma {:induction false} JoinSplit(s: string, c: char)
    ensures Join(Split(s, c), c) == s
    decreases |s|
  {
    var j := IndexFrom(s, c, 0);
    SplitStep(s, c);
    if j < |s| {
      var head, rest := s[..j], s[j + 1..];
      JoinSplit(rest, c);
      var parts := [head] + Split(rest, c);
      assert parts[0] == head && parts[1..] == Split(rest, c);
      assert Join(parts, c) == head + [c] + Join(Split(rest, c), c);
    }
  }
}
