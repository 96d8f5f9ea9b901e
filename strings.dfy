/** The JavaScript string and array operations the core uses: `indexOf`,
    `lastIndexOf`, `split(sep)[1]`, `slice` and `join`. */
module Strings {

  predicate OccursAt(s: string, p: string, i: int) {
    0 <= i && i + |p| <= |s| && s[i..i + |p|] == p
  }

  /** `s.indexOf(p, k)`: the first position at or after `k` where `p`
      occurs, or -1. */
  function IndexOfFrom(s: string, p: string, k: nat): (r: int)
    decreases |s| - k
    ensures r == -1 || (k <= r && OccursAt(s, p, r))
    ensures r == -1 ==> forall i :: k <= i ==> !OccursAt(s, p, i)
    ensures r >= 0 ==> forall i :: k <= i < r ==> !OccursAt(s, p, i)
  {
    if k + |p| > |s| then -1
    else if s[k..k + |p|] == p then k
    else IndexOfFrom(s, p, k + 1)
  }

  function IndexOf(s: string, p: string): (r: int)
    ensures r == -1 <==> forall i :: !OccursAt(s, p, i)
    ensures r >= 0 ==> OccursAt(s, p, r) && forall i :: 0 <= i < r ==> !OccursAt(s, p, i)
  {
    IndexOfFrom(s, p, 0)
  }

  /** `s.lastIndexOf(c)` for a one-character argument. */
  function LastIndexOf(s: string, c: char): (r: int)
    ensures -1 <= r < |s|
    ensures r >= 0 ==> s[r] == c
    ensures forall i :: r < i < |s| ==> s[i] != c
  {
    if |s| == 0 then -1
    else if s[|s| - 1] == c then |s| - 1
    else LastIndexOf(s[..|s| - 1], c)
  }

  /** `s.split(sep)[1]` when `sep` (non-empty) occurs in `s`: the text
      between the first occurrence and the next one, or the end. */
  function SecondField(s: string, sep: string): (r: string)
    requires sep != [] && IndexOf(s, sep) >= 0
    ensures r <= s[IndexOf(s, sep) + |sep|..]
    ensures forall j :: !OccursAt(r, sep, j)
    ensures var rest := s[IndexOf(s, sep) + |sep|..];
            r == rest || OccursAt(rest, sep, |r|)
  {
    var i := IndexOf(s, sep);
    var rest := s[i + |sep|..];
    var j := IndexOf(rest, sep);
    if j < 0 then rest
    else
      NoOccurrenceInPrefix(rest, sep, j);
      rest[..j]
  }

  lemma NoOccurrenceInPrefix(s: string, p: string, j: nat)
    requires |p| > 0 && j <= |s|
    requires forall i :: 0 <= i < j ==> !OccursAt(s, p, i)
    ensures forall i :: !OccursAt(s[..j], p, i)
  {
    forall i | OccursAt(s[..j], p, i)
      ensures false
    {
      assert s[..j][i..i + |p|] == s[i..i + |p|];
      assert OccursAt(s, p, i);
    }
  }

  /** A `slice` index: negative counts from the end, then clamped to the
      length. */
  function SliceIndex(len: nat, i: int): (r: nat)
    ensures r <= len
  {
    if i < 0 then (if len + i < 0 then 0 else len + i)
    else if i > len then len else i
  }

  /** `s.slice(start, end)` for strings and arrays. */
  function Slice<T>(s: seq<T>, start: int, end: int): (r: seq<T>)
    ensures 0 <= start <= end <= |s| ==> r == s[start..end]
    ensures 0 <= start <= |s| <= end ==> r == s[start..]
  {
    var from := SliceIndex(|s|, start);
    var to := SliceIndex(|s|, end);
    if from >= to then [] else s[from..to]
  }

  /** `xs.join(sep)`. */
  function Join(sep: string, xs: seq<string>): string
  {
    if |xs| == 0 then ""
    else if |xs| == 1 then xs[0]
    else xs[0] + sep + Join(sep, xs[1..])
  }

  /** Joining two non-empty lists puts exactly one separator between their
      joins. */
  lemma {:induction false} JoinAppend(sep: string, xs: seq<string>, ys: seq<string>)
    requires |xs| > 0 && |ys| > 0
    ensures Join(sep, xs + ys) == Join(sep, xs) + sep + Join(sep, ys)
  {
    if |xs| == 1 {
      assert (xs + ys)[1..] == ys;
    } else {
      assert (xs + ys)[1..] == xs[1..] + ys;
      JoinAppend(sep, xs[1..], ys);
    }
  }

  /** Appending one element to a list appends the separator and that
      element to its join (and nothing else when the list was empty). */
  lemma JoinSnoc(sep: string, xs: seq<string>, y: string)
    ensures Join(sep, xs + [y]) == if xs == [] then y else Join(sep, xs) + sep + y
  {
    if xs == [] {
      assert xs + [y] == [y];
    } else {
      JoinAppend(sep, xs, [y]);
    }
  }
}
