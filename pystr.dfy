/** The three Python string operations the backend relies on: `sep in s`,
    `s.split(sep)` and `sep.join(parts)`, with the facts about them that the
    track-id parser and the artist list need. */
module PyStr {
  import opened Common

  /** `sep` occurs in `s` starting at index `i`. */
  predicate OccursAt(s: string, sep: string, i: int) {
    0 <= i && i + |sep| <= |s| && s[i..i + |sep|] == sep
  }

  /** Python's `sep in s`. */
  predicate Contains(s: string, sep: string) {
    exists i :: 0 <= i <= |s| && OccursAt(s, sep, i)
  }

  /** Python's `s.find(sep)`: the leftmost occurrence, if any. */
  function FindFirst(s: string, sep: string): (r: Option<nat>)
    ensures r.Some? ==> OccursAt(s, sep, r.value)
    ensures r.Some? ==> forall j :: 0 <= j < r.value ==> !OccursAt(s, sep, j)
    ensures r.None? ==> !Contains(s, sep)
    decreases |s|
  {
    if |s| < |sep| then None
    else if s[..|sep|] == sep then Some(0)
    else
      match FindFirst(s[1..], sep)
      case None =>
        assert forall j :: 1 <= j <= |s| && OccursAt(s, sep, j) ==> OccursAt(s[1..], sep, j - 1);
        None
      case Some(i) =>
        assert forall j :: 1 <= j < i + 1 && OccursAt(s, sep, j) ==> OccursAt(s[1..], sep, j - 1);
        assert s[1..][i..i + |sep|] == s[i + 1..i + 1 + |sep|];
        Some(i + 1)
  }

  /** Python's `s.split(sep)` for a non-empty separator: cut at every
      occurrence found scanning from the left. */
  function Split(s: string, sep: string): (parts: seq<string>)
    requires sep != []
    ensures |parts| >= 1
    decreases |s|
  {
    match FindFirst(s, sep)
    case None => [s]
    case Some(i) => [s[..i]] + Split(s[i + |sep|..], sep)
  }

  /** The last piece of a split, Python's `s.split(sep)[-1]`. */
  function LastPiece(s: string, sep: string): string
    requires sep != []
  {
    var parts := Split(s, sep);
    parts[|parts| - 1]
  }

  /** Python's `sep.join(parts)`. */
  function Join(parts: seq<string>, sep: string): string {
    if |parts| == 0 then ""
    else if |parts| == 1 then parts[0]
    else parts[0] + sep + Join(parts[1..], sep)
  }

  /** A string none of whose proper prefixes is also a suffix: two occurrences
      of it can never overlap. */
  predicate BorderFree(sep: string) {
    forall k :: 0 < k < |sep| ==> sep[k..] != sep[..|sep| - k]
  }

  // ---------------------------------------------------------------------------
  // Occurrences

  lemma OccursAtChar(s: string, sep: string, i: int, k: int)
    ensures OccursAt(s, sep, i) && 0 <= k < |sep| ==> s[i + k] == sep[k]
  {
    if OccursAt(s, sep, i) && 0 <= k < |sep| {
      assert s[i..i + |sep|][k] == s[i + k];
    }
  }

  /** An occurrence in `a + b` that lies inside `a` or inside `b` is one of
      theirs, and theirs are occurrences in `a + b`. */
  lemma OccursInConcat(a: string, b: string, sep: string, i: int)
    ensures i + |sep| <= |a| ==> (OccursAt(a + b, sep, i) <==> OccursAt(a, sep, i))
    ensures |a| <= i ==> (OccursAt(a + b, sep, i) <==> OccursAt(b, sep, i - |a|))
  {
    if 0 <= i && i + |sep| <= |a| {
      assert (a + b)[i..i + |sep|] == a[i..i + |sep|];
    }
    if |a| <= i && i + |sep| <= |a| + |b| {
      assert (a + b)[i..i + |sep|] == b[i - |a|..i - |a| + |sep|];
    }
  }

  /** An occurrence of `x + y` holds an occurrence of `y` after `x`. */
  lemma OccursWithin(s: string, x: string, y: string, i: int)
    requires OccursAt(s, x + y, i)
    ensures OccursAt(s, y, i + |x|)
  {
    assert s[i + |x|..i + |x| + |y|] == s[i..i + |x| + |y|][|x|..];
  }

  /** A string without `sep` has no slice with `sep`. */
  lemma SliceLacks(s: string, lo: nat, hi: nat, sep: string)
    requires lo <= hi <= |s| && !Contains(s, sep)
    ensures !Contains(s[lo..hi], sep)
  {
    assert s == s[..lo] + s[lo..];
    assert s[lo..] == s[lo..hi] + s[hi..];
    forall j | 0 <= j <= hi - lo
      ensures !OccursAt(s[lo..hi], sep, j)
    {
      OccursInConcat(s[..lo], s[lo..], sep, lo + j);
      OccursInConcat(s[lo..hi], s[hi..], sep, j);
    }
  }

  /** Gluing two strings that lack `sep` with a character that `sep` does not
      use cannot create an occurrence of `sep`. */
  lemma NoOccurrenceAcrossGlue(a: string, c: char, b: string, sep: string)
    requires !Contains(a, sep) && !Contains(b, sep)
    requires forall k :: 0 <= k < |sep| ==> sep[k] != c
    ensures !Contains(a + [c] + b, sep)
  {
    var s := a + [c] + b;
    assert s == a + ([c] + b) == (a + [c]) + b;
    forall i | 0 <= i <= |s|
      ensures !OccursAt(s, sep, i)
    {
      if i + |sep| <= |a| {
        OccursInConcat(a, [c] + b, sep, i);
      } else if i > |a| {
        OccursInConcat(a + [c], b, sep, i);
      } else {
        OccursAtChar(s, sep, i, |a| - i);
      }
    }
  }

  /** A prefix that ends before the leftmost occurrence has no occurrence. */
  lemma PrefixBeforeFirst(s: string, sep: string, i: nat)
    requires sep != [] && i <= |s|
    requires forall j :: 0 <= j < i ==> !OccursAt(s, sep, j)
    ensures !Contains(s[..i], sep)
  {
    assert s[..i] + s[i..] == s;
    forall j | 0 <= j <= i
      ensures !OccursAt(s[..i], sep, j)
    {
      OccursInConcat(s[..i], s[i..], sep, j);
    }
  }

  /** `FindFirst` is determined by where the leftmost occurrence is. */
  lemma FindFirstAt(s: string, sep: string, i: nat)
    requires OccursAt(s, sep, i)
    requires forall j :: 0 <= j < i ==> !OccursAt(s, sep, j)
    ensures FindFirst(s, sep) == Some(i)
  {
    assert Contains(s, sep);
  }

  /** The text before a prefix-free separator. */
  lemma FindFirstPrefixed(sep: string, rest: string)
    ensures FindFirst(sep + rest, sep) == Some(0)
  {
    assert (sep + rest)[..|sep|] == sep;
  }

  // ---------------------------------------------------------------------------
  // Splitting

  /** A string without the separator splits into itself. */
  lemma SplitWithout(s: string, sep: string)
    requires sep != [] && !Contains(s, sep)
    ensures Split(s, sep) == [s]
  {
  }

  /** The first piece of a split never contains the separator. */
  lemma FirstPieceLacksSeparator(s: string, sep: string)
    requires sep != []
    ensures !Contains(Split(s, sep)[0], sep)
  {
    match FindFirst(s, sep)
    case None =>
    case Some(i) => PrefixBeforeFirst(s, sep, i);
  }

  /** The last piece of a split never contains the separator and, when the
      string contains the separator, is the text right after an occurrence of
      it: `s == head + sep + last`. */
  lemma {:induction false} LastPieceAfterSeparator(s: string, sep: string)
    requires sep != []
    ensures !Contains(LastPiece(s, sep), sep)
    ensures Contains(s, sep) ==>
      |LastPiece(s, sep)| + |sep| <= |s| &&
      s[|s| - |LastPiece(s, sep)| - |sep|..] == sep + LastPiece(s, sep)
    decreases |s|
  {
    match FindFirst(s, sep)
    case None =>
    case Some(i) =>
      var rest := s[i + |sep|..];
      LastPieceAfterSeparator(rest, sep);
      LastPieceOfRest(s, sep, i);
      var last := LastPiece(rest, sep);
      assert LastPiece(s, sep) == last;
      if Contains(rest, sep) {
        SuffixOfRest(s, i + |sep|, |last| + |sep|);
      } else {
        SplitWithout(rest, sep);
        assert last == rest;
        assert OccursAt(s, sep, i);
        assert |s| - |last| - |sep| == i;
        assert s[i..] == s[i..i + |sep|] + rest;
      }
  }

  /** Past the leftmost occurrence, the last piece is the rest's last piece. */
  lemma LastPieceOfRest(s: string, sep: string, i: nat)
    requires sep != [] && FindFirst(s, sep) == Some(i)
    ensures LastPiece(s, sep) == LastPiece(s[i + |sep|..], sep)
  {
    var parts := Split(s, sep);
    var later := Split(s[i + |sep|..], sep);
    assert parts == [s[..i]] + later;
    assert parts[|parts| - 1] == later[|later| - 1];
  }

  /** A suffix of a suffix is a suffix. */
  lemma SuffixOfRest(s: string, start: nat, m: nat)
    requires start <= |s| && m <= |s| - start
    ensures s[|s| - m..] == s[start..][|s[start..]| - m..]
  {
  }

  /** The first piece of a split is the text before the leftmost occurrence
      of the separator, or the whole string when there is none. */
  lemma FirstPieceIsPrefix(s: string, sep: string)
    requires sep != []
    ensures Split(s, sep)[0] <= s
    ensures Split(s, sep)[0] == s || OccursAt(s, sep, |Split(s, sep)[0]|)
  {
  }

  /** A split of `sep + rest` starts with an empty piece. */
  lemma SplitPrefixed(sep: string, rest: string)
    requires sep != []
    ensures Split(sep + rest, sep) == [""] + Split(rest, sep)
  {
    FindFirstPrefixed(sep, rest);
    assert (sep + rest)[|sep|..] == rest;
  }

  // ---------------------------------------------------------------------------
  // Joining

  /** Joining with a separator then splitting on it gives the parts back, when
      no part contains the separator and two copies of it cannot overlap. */
  lemma {:induction false} SplitJoin(parts: seq<string>, sep: string)
    requires sep != [] && BorderFree(sep) && |parts| >= 1
    requires forall k :: 0 <= k < |parts| ==> !Contains(parts[k], sep)
    ensures Split(Join(parts, sep), sep) == parts
    decreases |parts|
  {
    if |parts| == 1 {
      SplitWithout(parts[0], sep);
    } else {
      var p := parts[0];
      var tail := Join(parts[1..], sep);
      var s := p + sep + tail;
      assert Join(parts, sep) == s;
      assert OccursAt(s, sep, |p|) by {
        assert s[|p|..|p| + |sep|] == sep;
      }
      forall j | 0 <= j < |p|
        ensures !OccursAt(s, sep, j)
      {
        if j + |sep| <= |p| {
          assert s == p + (sep + tail);
          OccursInConcat(p, sep + tail, sep, j);
        } else {
          // an occurrence at j would overlap the one at |p| along a border
          var k := |p| - j;
          assert sep[k..] != sep[..|sep| - k];
          var m :| 0 <= m < |sep| - k && sep[k..][m] != sep[..|sep| - k][m];
          OccursAtChar(s, sep, j, k + m);
          OccursAtChar(s, sep, |p|, m);
        }
      }
      FindFirstAt(s, sep, |p|);
      assert s[..|p|] == p;
      assert s[|p| + |sep|..] == tail;
      SplitJoin(parts[1..], sep);
      assert Split(s, sep) == [p] + Split(tail, sep);
    }
  }
}
