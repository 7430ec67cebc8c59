/** The JavaScript string primitives the link parser relies on:
    `includes`, `startsWith`, `split` with a non-empty separator, and the
    `filter(segment => segment.length > 0)` step. */
module Strings {
  import opened Wrappers

  /** `pat` occurs in `s` starting at position `i`. */
  predicate OccursAt(s: string, pat: string, i: int) {
    0 <= i && i + |pat| <= |s| && s[i..i + |pat|] == pat
  }

  /** The first position at or after `from` where `pat` occurs (JavaScript
      `indexOf(pat, from)`), or `None` when it occurs nowhere from there on. */
  function IndexFrom(s: string, pat: string, from: nat): (r: Option<nat>)
    requires |pat| > 0
    ensures r.Some? ==> from <= r.value && OccursAt(s, pat, r.value)
    ensures r.Some? ==> forall j :: from <= j < r.value ==> !OccursAt(s, pat, j)
    ensures r.None? ==> forall j :: from <= j ==> !OccursAt(s, pat, j)
    decreases |s| - from
  {
    if from + |pat| > |s| then None
    else if s[from..from + |pat|] == pat then Some(from)
    else IndexFrom(s, pat, from + 1)
  }

  /** The first position where `pat` occurs in `s`. */
  function IndexOf(s: string, pat: string): (r: Option<nat>)
    requires |pat| > 0
    ensures r.Some? ==> OccursAt(s, pat, r.value)
    ensures r.Some? ==> forall j :: 0 <= j < r.value ==> !OccursAt(s, pat, j)
    ensures r.None? ==> forall j :: !OccursAt(s, pat, j)
  {
    IndexFrom(s, pat, 0)
  }

  /** JavaScript `s.includes(pat)`. */
  predicate Contains(s: string, pat: string)
    requires |pat| > 0
  {
    IndexOf(s, pat).Some?
  }

  /** JavaScript `s.startsWith(c)` for a one-character argument. */
  predicate StartsWith(s: string, c: char) {
    |s| > 0 && s[0] == c
  }

  /** The pieces joined back with the separator between each two. */
  function Join(parts: seq<string>, sep: string): string
    decreases |parts|
  {
    if |parts| == 0 then ""
    else if |parts| == 1 then parts[0]
    else parts[0] + sep + Join(parts[1..], sep)
  }

  /** JavaScript `s.split(sep)` for a non-empty separator: the text before the
      first occurrence, then the split of what follows it. A string without
      the separator, the empty string included, is a single piece. */
  function Split(s: string, sep: string): (parts: seq<string>)
    requires |sep| > 0
    ensures |parts| >= 1
    ensures Contains(s, sep) <==> |parts| > 1
    decreases |s|
  {
    match IndexOf(s, sep)
    case None => [s]
    case Some(i) => [s[..i]] + Split(s[i + |sep|..], sep)
  }

  /** The split at the first occurrence of the separator. */
  lemma SplitAt(s: string, sep: string, i: nat)
    requires |sep| > 0
    requires IndexOf(s, sep) == Some(i)
    ensures Split(s, sep) == [s[..i]] + Split(s[i + |sep|..], sep)
  {
  }

  /** A string without the separator is a single piece. */
  lemma SplitNone(s: string, sep: string)
    requires |sep| > 0
    requires !Contains(s, sep)
    ensures Split(s, sep) == [s]
  {
  }

  /** Joining the pieces back with the separator gives the string that was
      split: `join` undoes `split`. */
  lemma {:induction false} JoinSplit(s: string, sep: string)
    requires |sep| > 0
    ensures Join(Split(s, sep), sep) == s
    decreases |s|
  {
    match IndexOf(s, sep)
    case None =>
    case Some(i) =>
      var rest := s[i + |sep|..];
      SplitAt(s, sep, i);
      JoinSplit(rest, sep);
      assert Split(s, sep)[1..] == Split(rest, sep);
      assert s == s[..i] + sep + rest;
  }

  /** No piece of a split contains the separator. */
  lemma {:induction false} SplitPiecesFree(s: string, sep: string)
    requires |sep| > 0
    ensures forall k :: 0 <= k < |Split(s, sep)| ==> !Contains(Split(s, sep)[k], sep)
    decreases |s|
  {
    match IndexOf(s, sep)
    case None =>
    case Some(i) =>
      var rest := s[i + |sep|..];
      SplitAt(s, sep, i);
      HeadFree(s, sep, i);
      SplitPiecesFree(rest, sep);
      assert forall k :: 1 <= k < |Split(s, sep)| ==> Split(s, sep)[k] == Split(rest, sep)[k - 1];
  }

  /** No occurrence of `sep` in the text before its first occurrence. */
  lemma HeadFree(s: string, sep: string, i: nat)
    requires |sep| > 0
    requires IndexOf(s, sep) == Some(i)
    ensures !Contains(s[..i], sep)
  {
    forall j | 0 <= j
      ensures !OccursAt(s[..i], sep, j)
    {
      if j + |sep| <= i {
        assert s[..i][j..j + |sep|] == s[j..j + |sep|];
        assert !OccursAt(s, sep, j);
      }
    }
  }

  /** The pieces of `s` that are not empty, in order
      (`filter(segment => segment.length > 0)`). */
  function NonEmpty(parts: seq<string>): (r: seq<string>)
    ensures forall i :: 0 <= i < |r| ==> |r[i]| > 0
    ensures |r| <= |parts|
    decreases |parts|
  {
    if |parts| == 0 then []
    else if |parts[0]| > 0 then [parts[0]] + NonEmpty(parts[1..])
    else NonEmpty(parts[1..])
  }

  /** Filtering distributes over concatenation: the kept pieces of a longer
      list are those of its first part followed by those of the rest, in
      order. */
  lemma {:induction false} NonEmptyAppend(a: seq<string>, b: seq<string>)
    ensures NonEmpty(a + b) == NonEmpty(a) + NonEmpty(b)
    decreases |a|
  {
    if |a| == 0 {
      assert a + b == b;
    } else {
      assert (a + b)[0] == a[0];
      assert (a + b)[1..] == a[1..] + b;
      NonEmptyAppend(a[1..], b);
    }
  }

  /** A single piece is kept exactly when it is non-empty. */
  lemma NonEmptyOne(p: string)
    ensures NonEmpty([p]) == if |p| > 0 then [p] else []
  {
    assert [p][1..] == [];
  }

  /** Joining one more piece puts one separator before it. */
  lemma {:induction false} JoinSnoc(parts: seq<string>, sep: string, last: string)
    requires |parts| > 0
    ensures Join(parts + [last], sep) == Join(parts, sep) + sep + last
    decreases |parts|
  {
    var all := parts + [last];
    assert all[0] == parts[0];
    assert all[1..] == parts[1..] + [last];
    if |parts| > 1 {
      JoinSnoc(parts[1..], sep, last);
    } else {
      assert all[1..] == [last];
    }
  }

  /** `c` does not occur in `s`. */
  predicate Free(s: string, c: char) {
    forall i :: 0 <= i < |s| ==> s[i] != c
  }

  /** A string without the character `c` contains no pattern that starts
      with `c`. */
  lemma FreeNotContains(s: string, pat: string)
    requires |pat| > 0 && Free(s, pat[0])
    ensures !Contains(s, pat)
  {
  }

  /** A string that does not contain the one-character pattern `[c]` is free
      of `c`. */
  lemma NotContainsFree(s: string, c: char)
    requires !Contains(s, [c])
    ensures Free(s, c)
  {
    forall i | 0 <= i < |s|
      ensures s[i] != c
    {
      assert !OccursAt(s, [c], i);
      assert s[i..i + 1] == [s[i]];
    }
  }

  /** An occurrence with none before it is the first one. */
  lemma IndexOfAt(s: string, pat: string, k: nat)
    requires |pat| > 0
    requires OccursAt(s, pat, k)
    requires forall j :: 0 <= j < k ==> !OccursAt(s, pat, j)
    ensures IndexOf(s, pat) == Some(k)
  {
  }

  /** Splitting on a one-character separator undoes joining with it, as long
      as no piece contains the separator: `join` and `split` are inverse. */
  lemma {:induction false} SplitJoin(parts: seq<string>, c: char)
    requires |parts| >= 1
    requires forall i :: 0 <= i < |parts| ==> Free(parts[i], c)
    ensures Split(Join(parts, [c]), [c]) == parts
    decreases |parts|
  {
    if |parts| == 1 {
      FreeNotContains(parts[0], [c]);
      SplitNone(parts[0], [c]);
    } else {
      var s := Join(parts, [c]);
      var head := parts[0];
      var rest := Join(parts[1..], [c]);
      assert s == head + [c] + rest;
      assert s[|head|..|head| + 1] == [c];
      forall j | 0 <= j < |head|
        ensures !OccursAt(s, [c], j)
      {
        assert s[j..j + 1] == [head[j]];
      }
      IndexOfAt(s, [c], |head|);
      SplitAt(s, [c], |head|);
      assert s[..|head|] == head;
      assert s[|head| + 1..] == rest;
      SplitJoin(parts[1..], c);
      assert parts == [head] + parts[1..];
    }
  }

  /** Filtering a list whose pieces are all non-empty keeps it whole, and an
      empty piece in front is dropped. */
  lemma {:induction false} NonEmptyOfNonEmpty(parts: seq<string>)
    requires forall i :: 0 <= i < |parts| ==> |parts[i]| > 0
    ensures NonEmpty(parts) == parts
    ensures NonEmpty([""] + parts) == parts
    decreases |parts|
  {
    assert ([""] + parts)[1..] == parts;
    if |parts| > 0 {
      NonEmptyOfNonEmpty(parts[1..]);
      assert parts == [parts[0]] + parts[1..];
    }
  }
}
