/** The few JavaScript string and array built-ins the loader runner relies on:
    `Array.prototype.join`, `String.prototype.split` with a one-character separator,
    `Array.prototype.slice` with its negative-index rules, `startsWith` and `endsWith`. */
module JsStrings {

  /** `parts.join(sep)`: the parts in order, one separator between neighbours. */
  function Join(parts: seq<string>, sep: char): string
  {
    if |parts| == 0 then ""
    else if |parts| == 1 then parts[0]
    else parts[0] + [sep] + Join(parts[1..], sep)
  }

  /** Position of the first `c` in `s`, or -1 (`String.prototype.indexOf`). */
  function IndexOf(s: string, c: char): (k: int)
    ensures -1 <= k < |s|
    ensures k == -1 <==> c !in s
    ensures k >= 0 ==> s[k] == c && c !in s[..k]
  {
    if |s| == 0 then -1
    else if s[0] == c then 0
    else
      var k := IndexOf(s[1..], c);
      if k == -1 then -1
      else
        assert s[..k + 1] == [s[0]] + s[1..][..k];
        k + 1
  }

  /** `s.split(sep)`: the maximal separator-free pieces, empty pieces included. */
  function Split(s: string, sep: char): (parts: seq<string>)
    ensures |parts| >= 1
    ensures forall i :: 0 <= i < |parts| ==> sep !in parts[i]
    ensures Join(parts, sep) == s
    decreases |s|
  {
    var k := IndexOf(s, sep);
    if k < 0 then [s]
    else
      var rest := Split(s[k + 1..], sep);
      assert s == s[..k] + [sep] + s[k + 1..];
      [s[..k]] + rest
  }

  lemma IndexOfAfterPrefix(a: string, c: char, b: string)
    requires c !in a
    ensures IndexOf(a + [c] + b, c) == |a|
  {
    var s := a + [c] + b;
    var k := IndexOf(s, c);
    assert s[|a|] == c;
  }

  /** Splitting a join of separator-free pieces gives the pieces back. */
  lemma {:induction false} SplitJoin(parts: seq<string>, sep: char)
    requires |parts| >= 1
    requires forall i :: 0 <= i < |parts| ==> sep !in parts[i]
    ensures Split(Join(parts, sep), sep) == parts
  {
    if |parts| == 1 {
      assert IndexOf(parts[0], sep) == -1;
    } else {
      var head, rest := parts[0], parts[1..];
      var tail := Join(rest, sep);
      var s := head + [sep] + tail;
      assert Join(parts, sep) == s;
      IndexOfAfterPrefix(head, sep, tail);
      assert s[..|head|] == head;
      assert s[|head| + 1..] == tail;
      assert Split(s, sep) == [head] + Split(tail, sep);
      SplitJoin(rest, sep);
      assert parts == [head] + rest;
    }
  }

  /** Joining two non-empty lists puts one separator between their joins. */
  lemma {:induction false} JoinAppend(a: seq<string>, b: seq<string>, sep: char)
    requires |a| >= 1 && |b| >= 1
    ensures Join(a + b, sep) == Join(a, sep) + [sep] + Join(b, sep)
  {
    if |a| == 1 {
      assert (a + b)[1..] == b;
    } else {
      assert (a + b)[1..] == a[1..] + b;
      JoinAppend(a[1..], b, sep);
    }
  }

  /** How `slice` reads a start or end position: negative counts from the end, clamped to [0, n]. */
  function SliceBound(i: int, n: nat): (k: nat)
    ensures k <= n
    ensures 0 <= i <= n ==> k == i
    ensures i > n ==> k == n
    ensures i < 0 ==> k == if n + i < 0 then 0 else n + i
  {
    if i < 0 then (if n + i < 0 then 0 else n + i)
    else if i > n then n
    else i
  }

  /** `xs.slice(start)`. */
  function SliceFrom<T>(xs: seq<T>, start: int): seq<T>
  {
    xs[SliceBound(start, |xs|)..]
  }

  /** `xs.slice(0, i)` and `xs.slice(i)` cut `xs` at one place, whatever the integer `i`. */
  lemma SliceSplits<T>(xs: seq<T>, i: int)
    ensures SliceTo(xs, i) + SliceFrom(xs, i) == xs
    ensures |SliceTo(xs, i)| == SliceBound(i, |xs|)
  {
    assert xs[..SliceBound(i, |xs|)] + xs[SliceBound(i, |xs|)..] == xs;
  }

  /** `xs.slice(0, end)`. */
  function SliceTo<T>(xs: seq<T>, end: int): seq<T>
  {
    xs[..SliceBound(end, |xs|)]
  }

  predicate StartsWith(s: string, prefix: string)
  {
    |prefix| <= |s| && s[..|prefix|] == prefix
  }

  predicate EndsWith(s: string, suffix: string)
  {
    |suffix| <= |s| && s[|s| - |suffix|..] == suffix
  }
}
