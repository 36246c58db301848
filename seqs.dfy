/** Generic facts about sequences: `Array.prototype.filter` and the "keeps the order of what it
    keeps" relation between a sequence and a sequence it was filtered from. */
module Seqs {
  import opened Wrappers

  /** `s.findIndex(p)`, as an option: the first position whose element satisfies `p`. */
  function FirstIndex<T>(s: seq<T>, p: T -> bool): (k: Option<nat>)
    ensures k.Some? ==> k.value < |s| && p(s[k.value])
    ensures k.Some? ==> forall j :: 0 <= j < k.value ==> !p(s[j])
    ensures k.None? <==> forall j :: 0 <= j < |s| ==> !p(s[j])
  {
    if s == [] then None
    else if p(s[0]) then Some(0)
    else match FirstIndex(s[1..], p)
      case None => None
      case Some(k) => Some(k + 1)
  }

  /** The first position satisfying `p` is the one `FirstIndex` finds. */
  lemma FirstIndexAt<T>(s: seq<T>, p: T -> bool, k: nat)
    requires k < |s| && p(s[k])
    requires forall j :: 0 <= j < k ==> !p(s[j])
    ensures FirstIndex(s, p) == Some(k)
  {
    var f := FirstIndex(s, p);
    assert f.Some?;
    assert !(f.value < k) && !(k < f.value);
  }

  /** `s.filter(keep)`: the elements of `s` that satisfy `keep`, left to right. */
  function Filter<T>(s: seq<T>, keep: T -> bool): (r: seq<T>)
    ensures |r| <= |s|
    ensures forall i :: 0 <= i < |r| ==> r[i] in s && keep(r[i])
    ensures forall i :: 0 <= i < |s| && keep(s[i]) ==> s[i] in r
  {
    if s == [] then []
    else
      assert s == [s[0]] + s[1..];
      if keep(s[0]) then [s[0]] + Filter(s[1..], keep) else Filter(s[1..], keep)
  }

  lemma {:induction false} FilterConcat<T>(a: seq<T>, b: seq<T>, keep: T -> bool)
    ensures Filter(a + b, keep) == Filter(a, keep) + Filter(b, keep)
  {
    if a == [] {
      assert a + b == b;
    } else {
      assert (a + b)[0] == a[0];
      assert (a + b)[1..] == a[1..] + b;
      FilterConcat(a[1..], b, keep);
    }
  }

  lemma FilterDropsOne<T>(x: T, keep: T -> bool)
    requires !keep(x)
    ensures Filter([x], keep) == []
  {
    assert [x][1..] == [];
  }

  /** `Filter` keeps every occurrence of an element that passes and none of one that fails. */
  lemma {:induction false} FilterMultiset<T>(s: seq<T>, keep: T -> bool)
    ensures forall x :: multiset(Filter(s, keep))[x] == if keep(x) then multiset(s)[x] else 0
  {
    if s != [] {
      FilterMultiset(s[1..], keep);
      assert s == [s[0]] + s[1..];
      assert multiset(s) == multiset([s[0]]) + multiset(s[1..]);
    }
  }

  /** Filtering a sequence all of whose elements pass gives the sequence back. */
  lemma {:induction false} FilterKeepsAll<T>(s: seq<T>, keep: T -> bool)
    requires forall i :: 0 <= i < |s| ==> keep(s[i])
    ensures Filter(s, keep) == s
  {
    if s != [] {
      FilterKeepsAll(s[1..], keep);
    }
  }

  /** `idx` lists, in strictly increasing order, positions of `s` whose elements spell `r`. */
  ghost predicate Embeds<T>(r: seq<T>, s: seq<T>, idx: seq<nat>) {
    && |idx| == |r|
    && (forall i :: 0 <= i < |idx| ==> idx[i] < |s| && r[i] == s[idx[i]])
    && (forall i, j :: 0 <= i < j < |idx| ==> idx[i] < idx[j])
  }

  /** `r` is obtained from `s` by deleting elements, without reordering the rest. */
  ghost predicate IsSubsequence<T>(r: seq<T>, s: seq<T>) {
    exists idx :: Embeds(r, s, idx)
  }

  function Shifted(idx: seq<nat>): (r: seq<nat>)
    ensures |r| == |idx|
    ensures forall i :: 0 <= i < |r| ==> r[i] == idx[i] + 1
  {
    seq(|idx|, i requires 0 <= i < |idx| => idx[i] + 1)
  }

  lemma ShiftedEmbeds<T>(r: seq<T>, s: seq<T>, idx: seq<nat>)
    requires s != [] && Embeds(r, s[1..], idx)
    ensures Embeds(r, s, Shifted(idx))
    ensures Embeds([s[0]] + r, s, [0] + Shifted(idx))
  {
    var sh := Shifted(idx);
    forall i | 0 <= i < |sh| ensures sh[i] < |s| && r[i] == s[sh[i]] {
      assert s[1..][idx[i]] == s[idx[i] + 1];
    }
    var r', sh' := [s[0]] + r, [0] + sh;
    forall i | 0 <= i < |sh'| ensures sh'[i] < |s| && r'[i] == s[sh'[i]] {
      if i > 0 {
        assert r'[i] == r[i - 1] && sh'[i] == sh[i - 1];
      }
    }
    forall i, j | 0 <= i < j < |sh'| ensures sh'[i] < sh'[j] {
      if i > 0 {
        assert sh'[i] == sh[i - 1] && sh'[j] == sh[j - 1];
      }
    }
  }

  /** The positions of `s` that `Filter(s, keep)` keeps. */
  ghost function KeptPositions<T>(s: seq<T>, keep: T -> bool): (idx: seq<nat>)
    ensures Embeds(Filter(s, keep), s, idx)
  {
    if s == [] then []
    else
      var rest := KeptPositions(s[1..], keep);
      ShiftedEmbeds(Filter(s[1..], keep), s, rest);
      if keep(s[0]) then [0] + Shifted(rest) else Shifted(rest)
  }

  lemma FilterIsSubsequence<T>(s: seq<T>, keep: T -> bool)
    ensures IsSubsequence(Filter(s, keep), s)
  {
    var idx := KeptPositions(s, keep);
    assert Embeds(Filter(s, keep), s, idx);
  }

  /** No element occurs twice. */
  predicate Distinct<T(==)>(s: seq<T>) {
    forall i, j :: 0 <= i < j < |s| ==> s[i] != s[j]
  }

  lemma SubsequenceOfDistinct<T>(r: seq<T>, s: seq<T>)
    requires IsSubsequence(r, s) && Distinct(s)
    ensures Distinct(r)
  {
    var idx :| Embeds(r, s, idx);
    forall i, j | 0 <= i < j < |r| ensures r[i] != r[j] {
      assert idx[i] < idx[j];
    }
  }

  /** Deleting one position keeps the order of the rest. */
  lemma DeletionIsSubsequence<T>(s: seq<T>, k: nat)
    requires k < |s|
    ensures IsSubsequence(s[..k] + s[k + 1..], s)
  {
    var r := s[..k] + s[k + 1..];
    var idx := seq(|s| - 1, i requires 0 <= i < |s| - 1 => if i < k then i else i + 1);
    assert Embeds(r, s, idx);
  }
}
