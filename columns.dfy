/**
 * Boolean masks over aligned columns, as pandas and numpy use them:
 * `s[m]` keeps the entries where the mask is true (Select), `m.any()` (Any),
 * `m1 * m2` on two boolean arrays (And), and the masked assignment
 * `f[f] = values`, which writes `values` in order into the true positions
 * of `f` (Scatter, and the in-place ScatterMasked).
 */
module Columns {

  /** Number of true entries of a mask. */
  function Count(m: seq<bool>): (n: nat)
    ensures n <= |m|
  {
    if |m| == 0 then 0 else Count(m[..|m| - 1]) + (if m[|m| - 1] then 1 else 0)
  }

  /** `m.any()`. */
  predicate Any(m: seq<bool>) {
    exists i :: 0 <= i < |m| && m[i]
  }

  /** Elementwise conjunction of two aligned masks. */
  function And(m1: seq<bool>, m2: seq<bool>): (m: seq<bool>)
    requires |m1| == |m2|
    ensures |m| == |m1|
    ensures forall i :: 0 <= i < |m| ==> (m[i] <==> m1[i] && m2[i])
  {
    seq(|m1|, i requires 0 <= i < |m1| => m1[i] && m2[i])
  }

  /** `s[m]`: the entries of `s` at the true positions of `m`, in order. */
  function Select<T>(s: seq<T>, m: seq<bool>): (r: seq<T>)
    requires |s| == |m|
    ensures |r| == Count(m)
  {
    if |s| == 0 then []
    else Select(s[..|s| - 1], m[..|m| - 1]) + (if m[|m| - 1] then [s[|s| - 1]] else [])
  }

  /** `f[f] = v`: the true positions of `m` receive `v` in order, every other position stays false. */
  function Scatter(m: seq<bool>, v: seq<bool>): (r: seq<bool>)
    requires |v| == Count(m)
    ensures |r| == |m|
  {
    if |m| == 0 then []
    else if m[|m| - 1] then Scatter(m[..|m| - 1], v[..|v| - 1]) + [v[|v| - 1]]
    else Scatter(m[..|m| - 1], v) + [false]
  }

  /** `j` is the last true position of `m`. */
  ghost predicate IsLastTrue(m: seq<bool>, j: int) {
    0 <= j < |m| && m[j] && forall l :: j < l < |m| ==> !m[l]
  }

  /** `k` is the true position of `m` immediately before position `j`. */
  ghost predicate IsPrevTrue(m: seq<bool>, j: int, k: int) {
    0 <= k < j <= |m| && m[k] && forall l :: k < l < j ==> !m[l]
  }

  lemma {:induction false} CountAppend(a: seq<bool>, b: seq<bool>)
    ensures Count(a + b) == Count(a) + Count(b)
  {
    if |b| == 0 {
      assert a + b == a;
    } else {
      assert (a + b)[..|a + b| - 1] == a + b[..|b| - 1];
      CountAppend(a, b[..|b| - 1]);
    }
  }

  lemma CountSplit(m: seq<bool>, i: nat)
    requires i <= |m|
    ensures Count(m) == Count(m[..i]) + Count(m[i..])
  {
    assert m == m[..i] + m[i..];
    CountAppend(m[..i], m[i..]);
  }

  /** A mask with no true entry counts zero, and a mask counting zero has no true entry. */
  lemma {:induction false} CountZeroIffNone(m: seq<bool>)
    ensures Count(m) == 0 <==> !Any(m)
  {
    if |m| > 0 {
      CountZeroIffNone(m[..|m| - 1]);
      if Any(m[..|m| - 1]) {
        var i :| 0 <= i < |m| - 1 && m[..|m| - 1][i];
        assert m[i];
      }
      if Any(m) && !m[|m| - 1] {
        var i :| 0 <= i < |m| && m[i];
        assert m[..|m| - 1][i];
      }
    }
  }

  /** Counting the position of a true entry: a mask with a true entry at `j` counts one more than `m[..j]`. */
  lemma CountPastTrue(m: seq<bool>, j: int)
    requires 0 <= j < |m| && m[j]
    ensures Count(m[..j + 1]) == Count(m[..j]) + 1
  {
    assert m[..j + 1][..j] == m[..j];
  }

  /** Two true positions make a count of at least two. */
  lemma PairCountsTwo(m: seq<bool>, k: int, j: int)
    requires 0 <= k < j < |m| && m[k] && m[j]
    ensures Count(m) >= 2
  {
    CountSplit(m, j);
    assert m[..j][k];
    CountZeroIffNone(m[..j]);
    assert m[j..][0];
    CountZeroIffNone(m[j..]);
  }

  /** A count of at least two comes from two true positions. */
  lemma {:induction false} TwoCountsPair(m: seq<bool>)
    requires Count(m) >= 2
    ensures exists k, j :: 0 <= k < j < |m| && m[k] && m[j]
  {
    var n := |m| - 1;
    var p := m[..n];
    if m[n] {
      CountZeroIffNone(p);
      var k :| 0 <= k < |p| && p[k];
      assert m[k] && m[n];
    } else {
      TwoCountsPair(p);
      var k, j :| 0 <= k < j < |p| && p[k] && p[j];
      assert m[k] && m[j];
    }
  }

  /** A mask holds at least two true entries exactly when two of its positions are true. */
  lemma CountAtLeastTwo(m: seq<bool>)
    ensures Count(m) >= 2 <==> exists k, j :: 0 <= k < j < |m| && m[k] && m[j]
  {
    if exists k, j :: 0 <= k < j < |m| && m[k] && m[j] {
      var k, j :| 0 <= k < j < |m| && m[k] && m[j];
      PairCountsTwo(m, k, j);
    }
    if Count(m) >= 2 {
      TwoCountsPair(m);
    }
  }

  lemma {:induction false} CountNoneTrue(m: seq<bool>)
    requires forall l :: 0 <= l < |m| ==> !m[l]
    ensures Count(m) == 0
  {
    if |m| > 0 {
      CountNoneTrue(m[..|m| - 1]);
    }
  }

  /** The last true position of a mask is at rank `Count(m) - 1`. */
  lemma CountAtLastTrue(m: seq<bool>, j: int)
    requires IsLastTrue(m, j)
    ensures Count(m) == Count(m[..j]) + 1
  {
    CountSplit(m, j);
    assert m[j..] == [true] + m[j + 1..];
    CountAppend([true], m[j + 1..]);
    assert [true][..0] == [];
    CountNoneTrue(m[j + 1..]);
  }

  /** The true position immediately before `j` is ranked one below `j`. */
  lemma CountAtPrevTrue(m: seq<bool>, j: int, k: int)
    requires IsPrevTrue(m, j, k)
    ensures Count(m[..j]) == Count(m[..k]) + 1
  {
    CountSplit(m[..j], k);
    assert m[..j][..k] == m[..k];
    assert m[..j][k..] == [true] + m[k + 1..j];
    CountAppend([true], m[k + 1..j]);
    assert [true][..0] == [];
    CountNoneTrue(m[k + 1..j]);
  }

  /** The entry of `s` at a true position `i` of `m` lands at index `Count(m[..i])` of `s[m]`. */
  lemma {:induction false} SelectAt<T>(s: seq<T>, m: seq<bool>, i: int)
    requires |s| == |m| && 0 <= i < |m| && m[i]
    ensures Count(m[..i]) < Count(m)
    ensures Select(s, m)[Count(m[..i])] == s[i]
  {
    var n := |m| - 1;
    if i == n {
      assert m[..i] == m[..n];
    } else {
      assert m[..n][..i] == m[..i];
      SelectAt(s[..n], m[..n], i);
    }
  }

  /** `x` is in `s[m]` exactly when `x` sits at some true position of `m`. */
  lemma {:induction false} SelectMember<T>(s: seq<T>, m: seq<bool>, x: T)
    requires |s| == |m|
    ensures x in Select(s, m) <==> exists k :: 0 <= k < |m| && m[k] && s[k] == x
  {
    if exists k :: 0 <= k < |m| && m[k] && s[k] == x {
      var k :| 0 <= k < |m| && m[k] && s[k] == x;
      SelectAt(s, m, k);
    }
    if x in Select(s, m) {
      var n := |m| - 1;
      if x in Select(s[..n], m[..n]) {
        SelectMember(s[..n], m[..n], x);
        var k :| 0 <= k < n && m[..n][k] && s[..n][k] == x;
        assert m[k] && s[k] == x;
      } else {
        assert m[n] && s[n] == x;
      }
    }
  }

  /** The last two entries of `s[m]` come from the last two true positions of `m`. */
  lemma SelectLastTwo<T>(s: seq<T>, m: seq<bool>, j: int, k: int)
    requires |s| == |m| && IsLastTrue(m, j) && IsPrevTrue(m, j, k)
    ensures |Select(s, m)| >= 2
    ensures Select(s, m)[|Select(s, m)| - 1] == s[j]
    ensures Select(s, m)[|Select(s, m)| - 2] == s[k]
  {
    CountAtLastTrue(m, j);
    CountAtPrevTrue(m, j, k);
    SelectAt(s, m, j);
    SelectAt(s, m, k);
  }

  /** When `j` is the only true position of `m`, `s[m]` is `[s[j]]`. */
  lemma SelectOnlyTrue<T>(s: seq<T>, m: seq<bool>, j: int)
    requires |s| == |m| && IsLastTrue(m, j) && forall l :: 0 <= l < j ==> !m[l]
    ensures Select(s, m) == [s[j]]
  {
    CountAtLastTrue(m, j);
    CountNoneTrue(m[..j]);
    SelectAt(s, m, j);
  }

  /** A position that is true after `f[f] = v` was true before: the assignment only refines. */
  lemma {:induction false} ScatterRefines(m: seq<bool>, v: seq<bool>, i: int)
    requires |v| == Count(m) && 0 <= i < |m|
    ensures Scatter(m, v)[i] ==> m[i]
  {
    var n := |m| - 1;
    if i < n {
      if m[n] {
        ScatterRefines(m[..n], v[..|v| - 1], i);
      } else {
        ScatterRefines(m[..n], v, i);
      }
    }
  }

  /** At a true position `i` of `m`, `f[f] = v` writes the `Count(m[..i])`-th value of `v`. */
  lemma {:induction false} ScatterAt(m: seq<bool>, v: seq<bool>, i: int)
    requires |v| == Count(m) && 0 <= i < |m| && m[i]
    ensures Count(m[..i]) < |v|
    ensures Scatter(m, v)[i] == v[Count(m[..i])]
  {
    var n := |m| - 1;
    if i == n {
      assert m[..i] == m[..n];
    } else {
      assert m[..n][..i] == m[..i];
      if m[n] {
        ScatterAt(m[..n], v[..|v| - 1], i);
      } else {
        ScatterAt(m[..n], v, i);
      }
    }
  }

  /** Reading back the masked positions after `f[f] = v` gives exactly `v`. */
  lemma {:induction false} SelectScatter(m: seq<bool>, v: seq<bool>)
    requires |v| == Count(m)
    ensures |Scatter(m, v)| == |m| && Select(Scatter(m, v), m) == v
  {
    var r := Scatter(m, v);
    if |m| > 0 {
      var n := |m| - 1;
      if m[n] {
        SelectScatter(m[..n], v[..|v| - 1]);
        assert r[..n] == Scatter(m[..n], v[..|v| - 1]);
        assert v == v[..|v| - 1] + [v[|v| - 1]];
      } else {
        SelectScatter(m[..n], v);
        assert r[..n] == Scatter(m[..n], v);
      }
    }
  }

  /** A prefix one position longer counts that position, and never more than the whole mask. */
  lemma CountPrefixStep(m: seq<bool>, i: int)
    requires 0 <= i < |m|
    ensures Count(m[..i + 1]) == Count(m[..i]) + (if m[i] then 1 else 0)
    ensures Count(m[..i + 1]) <= Count(m)
  {
    CountSplit(m, i + 1);
    assert m[..i + 1][..i] == m[..i];
  }

  /** One more position of the mask: how `Scatter` grows along a prefix of the mask. */
  lemma ScatterStep(m: seq<bool>, v: seq<bool>, i: int)
    requires 0 <= i < |m| && Count(m[..i]) + (if m[i] then 1 else 0) <= |v|
    ensures Count(m[..i + 1]) == Count(m[..i]) + (if m[i] then 1 else 0)
    ensures Scatter(m[..i + 1], v[..Count(m[..i + 1])])
      == Scatter(m[..i], v[..Count(m[..i])]) + [if m[i] then v[Count(m[..i])] else false]
  {
    var k := Count(m[..i]);
    assert m[..i + 1][..i] == m[..i];
    if m[i] {
      assert v[..k + 1][..k] == v[..k];
    }
  }

  /**
   * The in-place masked assignment `f[f] = v` on a boolean array: the mask is
   * read before any position is written, and only true positions are written.
   */
  method ScatterMasked(f: array<bool>, v: seq<bool>)
    requires |v| == Count(f[..])
    modifies f
    ensures f[..] == Scatter(old(f[..]), v)
  {
    ghost var m := f[..];
    var i, k := 0, 0;
    while i < f.Length
      invariant 0 <= i <= f.Length
      invariant k == Count(m[..i]) && k <= |v|
      invariant f[..i] == Scatter(m[..i], v[..k])
      invariant forall l :: i <= l < f.Length ==> f[l] == m[l]
    {
      CountPrefixStep(m, i);
      ScatterStep(m, v, i);
      ghost var done := f[..i];
      if f[i] {
        f[i] := v[k];
        k := k + 1;
      }
      assert f[..i + 1] == done + [f[i]];
      i := i + 1;
    }
    assert m[..i] == m;
    assert v[..k] == v;
    assert f[..] == f[..i];
  }
}
