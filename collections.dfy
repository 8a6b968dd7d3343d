/**
 * The array searches the handlers use (`findIndex`, `find`, `some`,
 * `filter`, `splice(i, 1)`) as functions over sequences.
 */
module Collections {
  import opened Types

  /** `xs.findIndex(p)`: the first index satisfying p, or None for -1. */
  function FindIndex<T>(xs: seq<T>, p: T -> bool): (r: Option<nat>)
    ensures r.Some? ==> r.value < |xs| && p(xs[r.value]) && forall j :: 0 <= j < r.value ==> !p(xs[j])
    ensures r.None? <==> forall j :: 0 <= j < |xs| ==> !p(xs[j])
  {
    if |xs| == 0 then None
    else if p(xs[0]) then Some(0)
    else
      match FindIndex(xs[1..], p)
      case None => None
      case Some(i) => Some(i + 1)
  }

  /** `xs.find(p)`: the element at `FindIndex`. */
  function Find<T>(xs: seq<T>, p: T -> bool): (r: Option<T>)
    ensures r.Some? <==> FindIndex(xs, p).Some?
    ensures r.Some? ==> r.value == xs[FindIndex(xs, p).value] && p(r.value)
  {
    match FindIndex(xs, p)
    case None => None
    case Some(i) => Some(xs[i])
  }

  /** `xs.filter(p)`. */
  function Filter<T>(xs: seq<T>, p: T -> bool): (r: seq<T>)
    ensures |r| <= |xs|
    ensures forall i :: 0 <= i < |r| ==> p(r[i])
    ensures forall x :: x in xs && p(x) ==> x in r
    ensures forall x :: x in r ==> x in xs
  {
    if |xs| == 0 then []
    else if p(xs[0]) then [xs[0]] + Filter(xs[1..], p)
    else Filter(xs[1..], p)
  }

  /** Filtering with a predicate every element meets keeps the sequence. */
  lemma {:induction false} FilterAll<T>(xs: seq<T>, p: T -> bool)
    requires forall i :: 0 <= i < |xs| ==> p(xs[i])
    ensures Filter(xs, p) == xs
  {
    if |xs| > 0 {
      FilterAll(xs[1..], p);
    }
  }

  /**
   * Filtering out the one element that fails p is splicing it out: what the
   * list views rely on when they mirror a table delete with a filter.
   */
  lemma {:induction false} FilterDropsOne<T>(xs: seq<T>, p: T -> bool, k: nat)
    requires k < |xs| && !p(xs[k])
    requires forall j :: 0 <= j < |xs| && j != k ==> p(xs[j])
    ensures Filter(xs, p) == RemoveAt(xs, k)
  {
    if k == 0 {
      FilterAll(xs[1..], p);
      assert RemoveAt(xs, 0) == xs[1..];
    } else {
      var tail := xs[1..];
      forall j | 0 <= j < |tail| && j != k - 1
        ensures p(tail[j])
      {
        assert tail[j] == xs[j + 1];
      }
      FilterDropsOne(tail, p, k - 1);
      assert Filter(xs, p) == [xs[0]] + Filter(tail, p);
      assert RemoveAt(xs, k) == [xs[0]] + RemoveAt(tail, k - 1);
    }
  }

  /** `xs.splice(i, 1)`: the sequence without position i. */
  function RemoveAt<T>(xs: seq<T>, i: nat): (r: seq<T>)
    requires i < |xs|
    ensures |r| == |xs| - 1
    ensures forall j :: 0 <= j < i ==> r[j] == xs[j]
    ensures forall j :: i <= j < |r| ==> r[j] == xs[j + 1]
  {
    xs[..i] + xs[i + 1..]
  }

  /** `xs.some(p)`. */
  predicate Any<T>(xs: seq<T>, p: T -> bool)
  {
    exists i :: 0 <= i < |xs| && p(xs[i])
  }

  lemma AnyIffFound<T>(xs: seq<T>, p: T -> bool)
    ensures Any(xs, p) <==> FindIndex(xs, p).Some?
  {
  }

  /** Appending one element after a concatenation appends it to the second part. */
  lemma AppendSnoc<T>(a: seq<T>, b: seq<T>, x: T)
    ensures (a + b) + [x] == a + (b + [x])
  {
  }

  /** Insertion-ordered de-duplication: what a `Set` filled in list order iterates over. */
  function Dedup<T(==,!new)>(xs: seq<T>): (r: seq<T>)
    ensures forall x :: x in r <==> x in xs
    ensures forall i, j :: 0 <= i < j < |r| ==> r[i] != r[j]
    ensures |r| <= |xs|
  {
    if |xs| == 0 then []
    else
      var d := Dedup(xs[..|xs| - 1]);
      if xs[|xs| - 1] in d then d else d + [xs[|xs| - 1]]
  }

  /** Adding one more element to the set. */
  lemma DedupSnoc<T(!new)>(xs: seq<T>, x: T)
    ensures Dedup(xs + [x]) == if x in Dedup(xs) then Dedup(xs) else Dedup(xs) + [x]
  {
    assert (xs + [x])[..|xs|] == xs;
  }

  /** Adding the next element of `held` to a deduplicated prefix. */
  lemma DedupPrefixSnoc<T(!new)>(base: seq<T>, held: seq<T>, j: nat)
    requires j < |held|
    ensures var d := Dedup(base + held[..j]);
      Dedup(base + held[..j + 1]) == if held[j] in d then d else d + [held[j]]
  {
    assert base + held[..j + 1] == (base + held[..j]) + [held[j]];
    DedupSnoc(base + held[..j], held[j]);
  }

  /** The sequence without the elements equal to `x`, order kept (`filter(y => y !== x)`). */
  function Remove<T(==,!new)>(xs: seq<T>, x: T): (r: seq<T>)
    ensures x !in r
    ensures forall y :: y in r <==> y in xs && y != x
    ensures |r| <= |xs|
  {
    if |xs| == 0 then []
    else if xs[0] == x then Remove(xs[1..], x)
    else [xs[0]] + Remove(xs[1..], x)
  }

  /** Removing an element that does not occur changes nothing. */
  lemma {:induction false} RemoveAbsent<T(!new)>(xs: seq<T>, x: T)
    requires x !in xs
    ensures Remove(xs, x) == xs
  {
    if |xs| > 0 {
      assert xs[0] != x;
      assert x !in xs[1..];
      RemoveAbsent(xs[1..], x);
      assert xs == [xs[0]] + xs[1..];
    }
  }

  /** An index argument of `slice`: a negative one counts from the end, and both are clamped to [0, n]. */
  function SliceIndex(k: int, n: nat): (r: nat)
    ensures r <= n
    ensures 0 <= k <= n ==> r == k
  {
    if k < 0 then (if n + k < 0 then 0 else n + k) else if k > n then n else k
  }

  /** `xs.slice(start, end)`. */
  function Slice<T>(xs: seq<T>, start: int, end: int): (r: seq<T>)
    ensures |r| <= |xs|
    ensures SliceIndex(start, |xs|) <= SliceIndex(end, |xs|) ==> r == xs[SliceIndex(start, |xs|)..SliceIndex(end, |xs|)]
    ensures SliceIndex(start, |xs|) >= SliceIndex(end, |xs|) ==> r == []
  {
    var s, e := SliceIndex(start, |xs|), SliceIndex(end, |xs|);
    if s < e then xs[s..e] else []
  }
}
