/** Facts about sequences and finite sets that several parts of the model share. */
module Seqs {

  datatype Option<+T> = None | Some(value: T)

  ghost predicate NoDup<T>(s: seq<T>) {
    forall i, j :: 0 <= i < j < |s| ==> s[i] != s[j]
  }

  lemma HeadAndTail<T>(s: seq<T>)
    requires NoDup(s) && s != []
    ensures NoDup(s[1..]) && s[0] !in s[1..]
    ensures forall x :: x in s <==> x == s[0] || x in s[1..]
  {
    assert s == [s[0]] + s[1..];
  }

  ghost function Members<T>(s: seq<T>): set<T> {
    set x | x in s
  }

  /** Cutting a duplicate-free sequence separates its elements. */
  lemma CutMembers<T>(s: seq<T>, k: nat)
    requires NoDup(s) && k <= |s|
    ensures NoDup(s[k..]) && Members(s) == Members(s[..k]) + Members(s[k..]) && Members(s[..k]) !! Members(s[k..])
  {
    assert s == s[..k] + s[k..];
  }

  /** The head of a sequence joins the one before it. */
  lemma HeadMoves<T>(a: seq<T>, s: seq<T>)
    requires s != []
    ensures a + s == (a + [s[0]]) + s[1..]
  {
  }

  /** Appending commutes with a longer beginning. */
  lemma Assoc<T>(a: seq<T>, b: seq<T>, c: seq<T>)
    ensures (a + b) + c == a + (b + c)
  {
  }

  /** `s` without the element at `k`. */
  ghost function Without<T>(s: seq<T>, k: nat): seq<T>
    requires k < |s|
  {
    s[..k] + s[k + 1..]
  }

  lemma WithoutMembers<T>(s: seq<T>, k: nat)
    requires k < |s| && NoDup(s)
    ensures s[k] !in Without(s, k) && NoDup(Without(s, k))
    ensures forall x :: x in s <==> x == s[k] || x in Without(s, k)
  {
    var r := Without(s, k);
    assert forall i :: 0 <= i < |s| && i != k ==> s[i] == r[if i < k then i else i - 1];
    assert forall i :: 0 <= i < |r| ==> r[i] == s[if i < k then i else i + 1];
  }

  lemma WithoutCounts<T>(s: seq<T>, k: nat)
    requires k < |s|
    ensures multiset(s) == multiset(Without(s, k)) + multiset{s[k]}
  {
    assert s == s[..k] + [s[k]] + s[k + 1..];
  }

  lemma SplitStep<T>(s: seq<T>, k: nat)
    requires 0 < k <= |s|
    ensures s[..k] == [s[0]] + s[1..][..k - 1] && s[k..] == s[1..][k - 1..]
  {
  }

  /** The elements of `s` that satisfy `p`, in order. */
  ghost function Filter<T>(s: seq<T>, p: T -> bool): seq<T> {
    if s == [] then [] else
    (if p(s[0]) then [s[0]] else []) + Filter(s[1..], p)
  }

  /** The elements of `s` that do not satisfy `p`, in order. */
  ghost function FilterOut<T>(s: seq<T>, p: T -> bool): (r: seq<T>)
    ensures forall x :: x in r ==> x in s && !p(x)
    ensures forall x :: x in s && !p(x) ==> x in r
  {
    if s == [] then [] else
    (if p(s[0]) then [] else [s[0]]) + FilterOut(s[1..], p)
  }

  lemma {:induction false} FilterAppend<T>(s: seq<T>, x: T, p: T -> bool)
    ensures Filter(s + [x], p) == Filter(s, p) + if p(x) then [x] else []
  {
    if s == [] {
      assert s + [x] == [x];
    } else {
      assert (s + [x])[1..] == s[1..] + [x];
      FilterAppend(s[1..], x, p);
      Assoc(if p(s[0]) then [s[0]] else [], Filter(s[1..], p), if p(x) then [x] else []);
    }
  }

  /** Taking out an element that fails `p`, or the first that satisfies it. */
  lemma {:induction false} FilterWithout<T>(s: seq<T>, k: nat, p: T -> bool)
    requires k < |s| && (p(s[k]) ==> forall i :: 0 <= i < k ==> !p(s[i]))
    ensures Filter(s, p) == (if p(s[k]) then [s[k]] else []) + Filter(Without(s, k), p)
  {
    if k == 0 {
      assert Without(s, 0) == s[1..];
    } else {
      assert Without(s, k) == [s[0]] + Without(s[1..], k - 1);
      assert Without(s, k)[1..] == Without(s[1..], k - 1);
      FilterWithout(s[1..], k - 1, p);
    }
  }

  /** When the elements that satisfy `p` are a prefix, filtering splits the sequence after it. */
  lemma {:induction false} FilterSplit<T>(s: seq<T>, p: T -> bool, k: nat)
    requires k <= |s|
    requires forall i :: 0 <= i < k ==> p(s[i])
    requires forall i :: k <= i < |s| ==> !p(s[i])
    ensures Filter(s, p) == s[..k] && FilterOut(s, p) == s[k..]
  {
    if s != [] {
      if k == 0 {
        FilterSplit(s[1..], p, 0);
        assert s[0..] == s == [s[0]] + s[1..];
      } else {
        FilterSplit(s[1..], p, k - 1);
        SplitStep(s, k);
      }
    }
  }

  /** The position of `x` in `s`. */
  ghost function IndexOf<T>(s: seq<T>, x: T): (k: nat)
    requires x in s
    ensures k < |s| && s[k] == x
    ensures forall i :: 0 <= i < k ==> s[i] != x
  {
    if s[0] == x then 0 else 1 + IndexOf(s[1..], x)
  }

  lemma SubsetCardinality<T>(a: set<T>, b: set<T>)
    requires a <= b
    ensures |a| <= |b|
  {
    if a != {} {
      var x :| x in a;
      SubsetCardinality(a - {x}, b - {x});
    }
  }
}
