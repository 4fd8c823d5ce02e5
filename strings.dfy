/**
 * The few pieces of Python's `str` that the charm relies on, for a one-character
 * separator: `s.split(sep)`, `sep.join(parts)`, `s.rsplit(sep, maxsplit=1)[0]`,
 * and the list comprehension `[prefix + x for x in xs]`.
 */
module Strings {
  import opened Wrappers

  /** The position of the first `c` in `s`, if there is one (`s.find(c)`). */
  function IndexOf(s: string, c: char): (r: Option<nat>)
    ensures r.None? <==> c !in s
    ensures r.Some? ==> r.value < |s| && s[r.value] == c && c !in s[..r.value]
  {
    if |s| == 0 then None
    else if s[0] == c then Some(0)
    else
      match IndexOf(s[1..], c)
      case None => None
      case Some(i) =>
        assert s[1..][..i] == s[1..i + 1];
        Some(i + 1)
  }

  /** The position of the last `c` in `s`, if there is one (`s.rfind(c)`). */
  function LastIndexOf(s: string, c: char): (r: Option<nat>)
    ensures r.None? <==> c !in s
    ensures r.Some? ==> r.value < |s| && s[r.value] == c && c !in s[r.value + 1..]
  {
    if |s| == 0 then None
    else if s[|s| - 1] == c then Some(|s| - 1)
    else
      match LastIndexOf(s[..|s| - 1], c)
      case None => None
      case Some(i) =>
        assert s[i + 1..] == s[..|s| - 1][i + 1..] + [s[|s| - 1]];
        Some(i)
  }

  /** The first separator after a separator-free head is found right after the head. */
  lemma IndexOfConcat(a: string, c: char, b: string)
    requires c !in a
    ensures IndexOf(a + [c] + b, c) == Some(|a|)
  {
    var s := a + [c] + b;
    assert s[..|a|] == a;
    assert s[|a|] == c;
  }

  /** `s.partition(c)` when `c` occurs: the text before and after its first occurrence. */
  function SplitOnce(s: string, c: char): (r: Option<(string, string)>)
    ensures r.None? <==> c !in s
    ensures r.Some? ==> s == r.value.0 + [c] + r.value.1 && c !in r.value.0
  {
    match IndexOf(s, c)
    case None => None
    case Some(i) =>
      assert s == s[..i] + [c] + s[i + 1..];
      Some((s[..i], s[i + 1..]))
  }

  /** Partitioning at the separator that ends a separator-free head gives the head and the tail. */
  lemma SplitOnceConcat(a: string, c: char, b: string)
    requires c !in a
    ensures SplitOnce(a + [c] + b, c) == Some((a, b))
  {
    var s := a + [c] + b;
    IndexOfConcat(a, c, b);
    assert s[..|a|] == a;
    assert s[|a| + 1..] == b;
  }

  /** `s.split(c)`: the pieces between the occurrences of `c`; `"".split(c)` is `[""]`. */
  function Split(s: string, c: char): (r: seq<string>)
    ensures |r| >= 1
    ensures forall i :: 0 <= i < |r| ==> c !in r[i]
    decreases |s|
  {
    match IndexOf(s, c)
    case None => [s]
    case Some(i) => [s[..i]] + Split(s[i + 1..], c)
  }

  /** `c.join(parts)`. */
  function Join(parts: seq<string>, c: char): string
  {
    if |parts| == 0 then ""
    else if |parts| == 1 then parts[0]
    else parts[0] + [c] + Join(parts[1..], c)
  }

  /** A string without the separator is one piece. */
  lemma SplitNoSeparator(s: string, c: char)
    requires c !in s
    ensures Split(s, c) == [s]
  {
  }

  /** Splitting stops at the first separator: a separator-free head is the first piece. */
  lemma {:induction false} SplitConcat(a: string, c: char, b: string)
    requires c !in a
    ensures Split(a + [c] + b, c) == [a] + Split(b, c)
  {
    var s := a + [c] + b;
    IndexOfConcat(a, c, b);
    assert s[..|a|] == a;
    assert s[|a| + 1..] == b;
  }

  /** A string has a second piece exactly when it contains the separator. */
  lemma SplitHasTwoPieces(s: string, c: char)
    ensures |Split(s, c)| >= 2 <==> c in s
  {
    match IndexOf(s, c)
    case None =>
    case Some(i) =>
  }

  /** Joining the pieces of a split gives the string back. */
  lemma {:induction false} JoinSplit(s: string, c: char)
    ensures Join(Split(s, c), c) == s
    decreases |s|
  {
    match IndexOf(s, c)
    case None =>
    case Some(i) =>
      var rest := Split(s[i + 1..], c);
      JoinSplit(s[i + 1..], c);
      assert Split(s, c) == [s[..i]] + rest;
      assert ([s[..i]] + rest)[1..] == rest;
      assert s == s[..i] + [c] + s[i + 1..];
  }

  /** `s.rsplit(c, maxsplit=1)[0]`: everything before the last `c`, or all of `s` without one. */
  function BeforeLast(s: string, c: char): (r: string)
    ensures c !in s ==> r == s
    ensures c in s ==> exists rest :: s == r + [c] + rest && c !in rest
  {
    match LastIndexOf(s, c)
    case None => s
    case Some(i) =>
      assert s == s[..i] + [c] + s[i + 1..];
      s[..i]
  }

  /** `[prefix + x for x in xs]`. */
  function Prefixed(prefix: string, xs: seq<string>): (r: seq<string>)
    ensures |r| == |xs|
    ensures forall i :: 0 <= i < |xs| ==> r[i] == prefix + xs[i]
  {
    if |xs| == 0 then [] else [prefix + xs[0]] + Prefixed(prefix, xs[1..])
  }
}
