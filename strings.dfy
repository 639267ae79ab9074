/**
 * The few JavaScript string and array primitives the core relies on:
 * `startsWith`, `indexOf`, `split` with a string separator, `join`,
 * `toLowerCase` (ASCII letters only) and `Array.prototype.indexOf`.
 */
module Strings {
  import opened Wrappers

  /** `s.startsWith(prefix)` */
  predicate StartsWith(s: string, prefix: string) {
    |prefix| <= |s| && s[..|prefix|] == prefix
  }

  /** `sub` occurs in `s` starting at index `i` */
  predicate OccursAt(s: string, sub: string, i: nat) {
    i + |sub| <= |s| && s[i..i + |sub|] == sub
  }

  /** `s.indexOf(sub, from)`, with `None` standing for -1 */
  function IndexFrom(s: string, sub: string, from: nat): (r: Option<nat>)
    decreases |s| - from
    ensures r.Some? ==> from <= r.value && OccursAt(s, sub, r.value)
    ensures r.Some? ==> forall j :: from <= j < r.value ==> !OccursAt(s, sub, j)
    ensures r.None? ==> forall j :: from <= j ==> !OccursAt(s, sub, j)
  {
    if from + |sub| > |s| then None
    else if s[from..from + |sub|] == sub then Some(from)
    else IndexFrom(s, sub, from + 1)
  }

  /** `s.indexOf(sub)` */
  function IndexOf(s: string, sub: string): Option<nat> {
    IndexFrom(s, sub, 0)
  }

  /** `s.split(sep)` for a non-empty separator: the pieces between the
      successive non-overlapping occurrences of `sep`, scanning left to right. */
  function Split(s: string, sep: string): (parts: seq<string>)
    requires sep != []
    ensures |parts| >= 1
    decreases |s|
  {
    match IndexOf(s, sep)
    case None => [s]
    case Some(k) => [s[..k]] + Split(s[k + |sep|..], sep)
  }

  /** `parts.join(sep)` */
  function Join(parts: seq<string>, sep: string): string {
    if |parts| == 0 then ""
    else if |parts| == 1 then parts[0]
    else parts[0] + sep + Join(parts[1..], sep)
  }

  lemma JoinCons(p: string, rest: seq<string>, sep: string)
    requires |rest| >= 1
    ensures Join([p] + rest, sep) == p + sep + Join(rest, sep)
  {
    assert ([p] + rest)[1..] == rest;
  }

  /** Joining the pieces of a split with the same separator gives back the string. */
  lemma {:induction false} JoinSplit(s: string, sep: string)
    requires sep != []
    ensures Join(Split(s, sep), sep) == s
    decreases |s|
  {
    var found := IndexOf(s, sep);
    if found.Some? {
      var k := found.value;
      var rest := s[k + |sep|..];
      assert Split(s, sep) == [s[..k]] + Split(rest, sep);
      JoinSplit(rest, sep);
      JoinCons(s[..k], Split(rest, sep), sep);
      SplitAround(s, sep, k);
    }
  }

  /** A string is the text before an occurrence, the occurrence, and the text after it. */
  lemma SplitAround(s: string, sub: string, k: nat)
    requires OccursAt(s, sub, k)
    ensures s == s[..k] + sub + s[k + |sub|..]
  {
    assert s == s[..k] + s[k..k + |sub|] + s[k + |sub|..];
  }

  /** An occurrence with none before it (from `from` on) is the one `IndexFrom` finds. */
  lemma {:induction false} IndexFromFinds(s: string, sub: string, from: nat, k: nat)
    requires from <= k && OccursAt(s, sub, k)
    requires forall j :: from <= j < k ==> !OccursAt(s, sub, j)
    ensures IndexFrom(s, sub, from) == Some(k)
    decreases k - from
  {
    if from < k {
      assert !OccursAt(s, sub, from);
      IndexFromFinds(s, sub, from + 1, k);
    }
  }

  /** No piece of a split contains the separator. */
  lemma {:induction false} SplitPiecesAreFree(s: string, sep: string)
    requires sep != []
    ensures forall i :: 0 <= i < |Split(s, sep)| ==> IndexOf(Split(s, sep)[i], sep).None?
    decreases |s|
  {
    match IndexOf(s, sep)
    case None =>
    case Some(k) =>
      var rest := s[k + |sep|..];
      SplitPiecesAreFree(rest, sep);
      var head := s[..k];
      forall j | 0 <= j ensures !OccursAt(head, sep, j) {
        if OccursAt(head, sep, j) {
          assert s[j..j + |sep|] == head[j..j + |sep|];
          assert OccursAt(s, sep, j);
          assert false;
        }
      }
      assert IndexOf(head, sep).None?;
      assert Split(s, sep) == [head] + Split(rest, sep);
  }

  /** A string that starts with the separator splits into an empty piece
      followed by the pieces of the remainder. */
  lemma SplitAtLeadingSeparator(s: string, sep: string)
    requires sep != [] && StartsWith(s, sep)
    ensures Split(s, sep) == [""] + Split(s[|sep|..], sep)
  {
    assert s[0..|sep|] == sep;
    assert IndexOf(s, sep) == Some(0);
  }

  /** A string without the separator is its own only piece. */
  lemma SplitWithoutSeparator(s: string, sep: string)
    requires sep != [] && IndexOf(s, sep).None?
    ensures Split(s, sep) == [s]
  {
  }

  /** With a one-character separator, the string is one piece exactly when
      the character does not occur in it. */
  lemma SplitCharSingle(s: string, c: char)
    ensures |Split(s, [c])| == 1 <==> c !in s
  {
    if c in s {
      var i :| 0 <= i < |s| && s[i] == c;
      assert s[i..i + 1] == [c];
      assert OccursAt(s, [c], i);
      var k := IndexOf(s, [c]).value;
      assert |Split(s, [c])| == 1 + |Split(s[k + 1..], [c])|;
    } else {
      forall j | 0 <= j ensures !OccursAt(s, [c], j) {
        if j + 1 <= |s| {
          assert s[j..j + 1] == [s[j]];
        }
      }
      assert IndexOf(s, [c]).None?;
    }
  }

  /** With a one-character separator absent from both sides, `a c b` splits into `[a, b]`. */
  lemma SplitCharTwo(a: string, c: char, b: string)
    requires c !in a && c !in b
    ensures Split(a + [c] + b, [c]) == [a, b]
  {
    var s := a + [c] + b;
    assert s[|a|..|a| + 1] == [c];
    forall j | 0 <= j < |a| ensures !OccursAt(s, [c], j) {
      assert s[j..j + 1] == [a[j]];
    }
    IndexFromFinds(s, [c], 0, |a|);
    assert s[..|a|] == a;
    assert s[|a| + 1..] == b;
    SplitCharSingle(b, c);
    forall j | 0 <= j ensures !OccursAt(b, [c], j) {
      if j + 1 <= |b| {
        assert b[j..j + 1] == [b[j]];
      }
    }
    assert IndexOf(b, [c]).None?;
  }

  /** With a one-character separator occurring twice, there are at least three pieces. */
  lemma SplitCharMany(s: string, c: char, i: nat, j: nat)
    requires i < j < |s| && s[i] == c && s[j] == c
    ensures |Split(s, [c])| >= 3
  {
    assert s[i..i + 1] == [c];
    assert OccursAt(s, [c], i);
    var k := IndexOf(s, [c]).value;
    assert k <= i;
    var rest := s[k + 1..];
    assert Split(s, [c]) == [s[..k]] + Split(rest, [c]);
    assert rest[j - k - 1] == c;
    SplitCharSingle(rest, c);
  }

  /** `c.toLowerCase()` for ASCII letters; other characters are unchanged. */
  function LowerChar(c: char): char {
    if 'A' <= c <= 'Z' then (c as int + 32) as char else c
  }

  /** `s.toLowerCase()`, ASCII letters only */
  function Lower(s: string): (r: string)
    ensures |r| == |s|
    ensures forall i :: 0 <= i < |s| ==> r[i] == LowerChar(s[i])
  {
    seq(|s|, i requires 0 <= i < |s| => LowerChar(s[i]))
  }

  /** The string holds an upper-case ASCII letter. */
  predicate HasUpper(s: string) {
    exists i :: 0 <= i < |s| && 'A' <= s[i] <= 'Z'
  }

  /** A lowered string never holds an upper-case letter, so it never equals one that does. */
  lemma LowerNeverEqualsUpper(s: string, t: string)
    requires HasUpper(t)
    ensures Lower(s) != t
  {
    var i :| 0 <= i < |t| && 'A' <= t[i] <= 'Z';
    if |s| == |t| {
      assert !('A' <= Lower(s)[i] <= 'Z');
    }
  }

  /** `xs.indexOf(x)` on an array: the first index holding `x`, or -1. */
  function ArrayIndexOf<T(==)>(xs: seq<T>, x: T): (r: int)
    ensures -1 <= r < |xs|
    ensures r == -1 <==> x !in xs
    ensures r >= 0 ==> xs[r] == x && x !in xs[..r]
  {
    if |xs| == 0 then -1
    else if xs[0] == x then 0
    else
      var r := ArrayIndexOf(xs[1..], x);
      assert xs == [xs[0]] + xs[1..];
      if r == -1 then -1 else r + 1
  }
}
