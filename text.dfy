/** The string operations the catalog uses, with Python's `str` semantics. */
module Text {
  import opened Wrappers

  /** `p` occurs in `s` starting at index `i`. */
  predicate OccursAt(s: string, p: string, i: nat) {
    i + |p| <= |s| && s[i..i + |p|] == p
  }

  /** Dropping the first character shifts every occurrence one place to the left. */
  lemma OccursShift(s: string, p: string, j: nat)
    requires |s| > 0
    ensures OccursAt(s[1..], p, j) <==> OccursAt(s, p, j + 1)
  {
    if j + |p| <= |s[1..]| {
      assert s[1..][j..j + |p|] == s[j + 1..j + 1 + |p|];
    }
  }

  /** `s.find(p)`: the index of the first occurrence of `p` in `s`; `p in s` is `Find(s, p).Some?`. */
  function Find(s: string, p: string): (r: Option<nat>)
    ensures r.Some? ==> OccursAt(s, p, r.value)
    ensures r.Some? ==> forall j :: 0 <= j < r.value ==> !OccursAt(s, p, j)
    ensures r.None? ==> forall j :: 0 <= j <= |s| ==> !OccursAt(s, p, j)
    decreases |s|
  {
    if |s| < |p| then None
    else if s[..|p|] == p then
      assert s[0..0 + |p|] == s[..|p|];
      Some(0)
    else
      assert s[0..0 + |p|] == s[..|p|];
      var r := Find(s[1..], p);
      match r
      case None =>
        assert forall j :: 1 <= j <= |s| ==> !OccursAt(s, p, j) by {
          forall j | 1 <= j <= |s| ensures !OccursAt(s, p, j) {
            OccursShift(s, p, j - 1);
          }
        }
        None
      case Some(i) =>
        OccursShift(s, p, i);
        assert forall j :: 1 <= j < i + 1 ==> !OccursAt(s, p, j) by {
          forall j | 1 <= j < i + 1 ensures !OccursAt(s, p, j) {
            OccursShift(s, p, j - 1);
          }
        }
        Some(i + 1)
  }

  /** The first character of `p` occurs nowhere else in `p`, so two occurrences of `p` never overlap. */
  predicate HeadOnce(p: string) {
    |p| > 0 && forall k :: 0 < k < |p| ==> p[k] != p[0]
  }

  /** Where two occurrences overlap, `p` repeats its first character at the offset between them. */
  lemma OverlapHead(s: string, p: string, i: nat, j: nat)
    requires OccursAt(s, p, i) && OccursAt(s, p, j) && i < j < i + |p|
    ensures p[j - i] == p[0]
  {
    assert s[j] == s[j..j + |p|][0];
    assert s[j] == s[i..i + |p|][j - i];
  }

  /** Two occurrences of a `HeadOnce` string never overlap. */
  lemma NoOverlap(s: string, p: string, i: nat, j: nat)
    requires HeadOnce(p) && OccursAt(s, p, i) && OccursAt(s, p, j) && i < j
    ensures i + |p| <= j
  {
    if j < i + |p| {
      OverlapHead(s, p, i, j);
    }
  }

  /** An occurrence of `p` in `x + p + y` that starts inside `x` lies wholly inside `x`. */
  lemma EarlyInPrefix(x: string, p: string, y: string, i: nat)
    requires HeadOnce(p) && i < |x| && OccursAt(x + p + y, p, i)
    ensures i + |p| <= |x| && OccursAt(x, p, i)
  {
    var s := x + p + y;
    assert OccursAt(s, p, |x|) by { assert s[|x|..|x| + |p|] == p; }
    NoOverlap(s, p, i, |x|);
    assert s[i..i + |p|] == x[i..i + |p|];
  }

  /** When `x` does not contain `p`, the first occurrence of `p` in `x + p + y` is the one right after `x`. */
  lemma FindAfterPrefix(x: string, p: string, y: string)
    requires HeadOnce(p) && Find(x, p).None?
    ensures Find(x + p + y, p) == Some(|x|)
  {
    var s := x + p + y;
    assert OccursAt(s, p, |x|) by { assert s[|x|..|x| + |p|] == p; }
    var i := Find(s, p).value;
    if i < |x| {
      EarlyInPrefix(x, p, y, i);
    }
  }

  /** `s.replace(p, "")`: every occurrence of `p` found scanning from the left is deleted. */
  function RemoveAll(s: string, p: string): (r: string)
    requires |p| > 0
    ensures Find(s, p).None? ==> r == s
    ensures Find(s, p).Some? ==> |r| <= |s| - |p|
    decreases |s|
  {
    match Find(s, p)
    case None => s
    case Some(i) => s[..i] + RemoveAll(s[i + |p|..], p)
  }

  /** Deleting the first occurrence keeps the text before it and goes on after it. */
  lemma RemoveAllSplice(x: string, p: string, y: string)
    requires HeadOnce(p) && Find(x, p).None?
    ensures RemoveAll(x + p + y, p) == x + RemoveAll(y, p)
  {
    FindAfterPrefix(x, p, y);
    var s := x + p + y;
    assert s[..|x|] == x && s[|x| + |p|..] == y;
  }

  /** Deleting `p` and then `q` from `x + p + y + q + z` leaves `x + y + z` when no other occurrence is met. */
  lemma RemoveBoth(x: string, p: string, y: string, q: string, z: string)
    requires HeadOnce(p) && HeadOnce(q)
    requires Find(x, p).None? && Find(y + q + z, p).None?
    requires Find(x + y, q).None? && Find(z, q).None?
    ensures RemoveAll(RemoveAll(x + p + y + q + z, p), q) == x + y + z
  {
    Regroup(x, p, y, q, z);
    RemoveAllSplice(x, p, y + q + z);
    RemoveAllSplice(x + y, q, z);
  }

  /** The groupings of `x + p + y + q + z` that `RemoveBoth` goes through. */
  lemma Regroup(x: string, p: string, y: string, q: string, z: string)
    ensures x + p + y + q + z == x + p + (y + q + z)
    ensures x + (y + q + z) == (x + y) + q + z
    ensures (x + y) + z == x + y + z
  {
  }

  /** `s.split(sep)[-1]`: the text after the last occurrence of `sep` met scanning from the left. */
  function LastPiece(s: string, sep: string): string
    requires |sep| > 0
    decreases |s|
  {
    match Find(s, sep)
    case None => s
    case Some(i) => LastPiece(s[i + |sep|..], sep)
  }

  /** One step of `LastPiece`: past the first occurrence, the rest decides. */
  lemma LastPieceStep(s: string, sep: string, i: nat)
    requires |sep| > 0 && Find(s, sep) == Some(i)
    ensures LastPiece(s, sep) == LastPiece(s[i + |sep|..], sep)
  {
    assert i + |sep| <= |s| by {
      assert OccursAt(s, sep, i);
    }
  }

  /** The last piece is a suffix of `s` that holds no `sep`; without `sep`, it is all of `s`. */
  lemma {:induction false} LastPieceSuffix(s: string, sep: string)
    requires |sep| > 0
    ensures var r := LastPiece(s, sep); |r| <= |s| && r == s[|s| - |r|..] && Find(r, sep).None?
    ensures Find(s, sep).None? ==> LastPiece(s, sep) == s
    decreases |s|
  {
    match Find(s, sep)
    case None =>
    case Some(i) =>
      var t := s[i + |sep|..];
      LastPieceStep(s, sep, i);
      LastPieceSuffix(t, sep);
      var r := LastPiece(t, sep);
      assert t[|t| - |r|..] == s[|s| - |r|..];
  }

  /** Whatever stands before an occurrence of `sep` has no bearing on the last piece. */
  lemma {:induction false} LastPieceAfter(x: string, sep: string, y: string)
    requires HeadOnce(sep) && Find(y, sep).None?
    ensures LastPiece(x + sep + y, sep) == y
    decreases |x|
  {
    var s := x + sep + y;
    assert OccursAt(s, sep, |x|) by { assert s[|x|..|x| + |sep|] == sep; }
    var i := Find(s, sep).value;
    LastPieceStep(s, sep, i);
    if i == |x| {
      assert s[i + |sep|..] == y;
    } else {
      EarlyInPrefix(x, sep, y, i);
      var x' := x[i + |sep|..];
      assert s[i + |sep|..] == x' + sep + y;
      LastPieceAfter(x', sep, y);
    }
  }

  /**
   * The characters for which Python's `str.isspace()` holds and which `str.strip()` removes:
   * the ASCII blanks and controls U+0009..U+000D and U+001C..U+001F, and the Unicode spaces
   * U+0085, U+00A0, U+1680, U+2000..U+200A, U+2028, U+2029, U+202F, U+205F and U+3000.
   */
  const Whitespace: set<char> := {
    ' ', '\t', '\n', '\U{000B}', '\U{000C}', '\r',
    '\U{001C}', '\U{001D}', '\U{001E}', '\U{001F}',
    '\U{0085}', '\U{00A0}', '\U{1680}',
    '\U{2000}', '\U{2001}', '\U{2002}', '\U{2003}', '\U{2004}', '\U{2005}',
    '\U{2006}', '\U{2007}', '\U{2008}', '\U{2009}', '\U{200A}',
    '\U{2028}', '\U{2029}', '\U{202F}', '\U{205F}', '\U{3000}'
  }

  /** Python's `str.isspace()` for one character. */
  predicate IsSpace(c: char) {
    c in Whitespace
  }

  /** The index of the first character at or after `i` that is not whitespace, or `|s|` when there is none. */
  function SkipSpace(s: string, i: nat): (j: nat)
    requires i <= |s|
    ensures i <= j <= |s|
    ensures forall k :: i <= k < j ==> IsSpace(s[k])
    ensures j < |s| ==> !IsSpace(s[j])
    decreases |s| - i
  {
    if i < |s| && IsSpace(s[i]) then SkipSpace(s, i + 1) else i
  }

  /** The index just past the last character before `j`, and not before `i`, that is not whitespace; `i` when there is none. */
  function SkipSpaceBack(s: string, i: nat, j: nat): (e: nat)
    requires i <= j <= |s|
    ensures i <= e <= j
    ensures forall k :: e <= k < j ==> IsSpace(s[k])
    ensures e > i ==> !IsSpace(s[e - 1])
    decreases j - i
  {
    if i < j && IsSpace(s[j - 1]) then SkipSpaceBack(s, i, j - 1) else j
  }

  /** The number of whitespace characters `s.strip()` removes from the front of `s`. */
  function Leading(s: string): nat {
    SkipSpace(s, 0)
  }

  /** `s.strip()`: what is left of `s` when whitespace is removed from both ends, and only whitespace is removed. */
  function Strip(s: string): (r: string)
    ensures r == [] || (!IsSpace(r[0]) && !IsSpace(r[|r| - 1]))
    ensures Leading(s) + |r| <= |s| && r == s[Leading(s)..Leading(s) + |r|]
    ensures forall k :: 0 <= k < Leading(s) ==> IsSpace(s[k])
    ensures forall k :: Leading(s) + |r| <= k < |s| ==> IsSpace(s[k])
  {
    var i := SkipSpace(s, 0);
    var e := SkipSpaceBack(s, i, |s|);
    assert i < e ==> s[i..e][0] == s[i] && s[i..e][e - i - 1] == s[e - 1];
    s[i..e]
  }

  /** `s.split(c)` for a one-character separator. */
  function Split(s: string, c: char): (parts: seq<string>)
    ensures |parts| >= 1
    ensures forall i :: 0 <= i < |parts| ==> c !in parts[i]
    decreases |s|
  {
    if s == [] then [""]
    else
      var rest := Split(s[1..], c);
      if s[0] == c then [""] + rest
      else [[s[0]] + rest[0]] + rest[1..]
  }

  /** `c.join(parts)`. */
  function Join(parts: seq<string>, c: char): (s: string)
    decreases |parts|
  {
    if parts == [] then ""
    else if |parts| == 1 then parts[0]
    else parts[0] + [c] + Join(parts[1..], c)
  }

  /** Joining the pieces of a split gives the string back. */
  lemma {:induction false} JoinSplit(s: string, c: char)
    ensures Join(Split(s, c), c) == s
    decreases |s|
  {
    if s != [] {
      var rest := Split(s[1..], c);
      JoinSplit(s[1..], c);
      if s[0] == c {
        assert ([""] + rest)[1..] == rest;
      } else {
        var parts := [[s[0]] + rest[0]] + rest[1..];
        if |rest| > 1 {
          assert parts[1..] == rest[1..];
        }
      }
    }
  }

  /** Splitting the join of separator-free pieces gives the pieces back. */
  lemma {:induction false} SplitJoin(parts: seq<string>, c: char)
    requires |parts| >= 1
    requires forall i :: 0 <= i < |parts| ==> c !in parts[i]
    ensures Split(Join(parts, c), c) == parts
    decreases |parts|
  {
    if |parts| == 1 {
      SplitFree(parts[0], c);
    } else {
      SplitJoin(parts[1..], c);
      SplitPiece(parts[0], c, Join(parts[1..], c));
      assert [parts[0]] + parts[1..] == parts;
    }
  }

  /** A string without the separator splits into itself. */
  lemma {:induction false} SplitFree(s: string, c: char)
    requires c !in s
    ensures Split(s, c) == [s]
    decreases |s|
  {
    if s != [] {
      SplitFree(s[1..], c);
      assert [s[0]] + s[1..] == s;
    }
  }

  /** The text before the first separator is the first piece. */
  lemma {:induction false} SplitPiece(x: string, c: char, y: string)
    requires c !in x
    ensures Split(x + [c] + y, c) == [x] + Split(y, c)
    decreases |x|
  {
    var s := x + [c] + y;
    if x == [] {
      assert s[0] == c && s[1..] == y;
    } else {
      assert s[1..] == x[1..] + [c] + y;
      SplitPiece(x[1..], c, y);
      assert [x[0]] + x[1..] == x;
    }
  }
}
