/**
 * The gain-smoothing median filter: a kernel of 7, the signal padded with zeros at
 * both ends, each output sample the middle element of its sorted window. This is the
 * behaviour of SciPy's `signal.medfilt(g, kernel_size=7)` on a one-dimensional input.
 */
module MedianFilter {
  const KernelSize: nat := 7
  /** Samples on each side of the centre of a window. */
  const HalfKernel: nat := 3

  predicate Sorted(s: seq<real>) {
    forall i, j :: 0 <= i < j < |s| ==> s[i] <= s[j]
  }

  /** An element no larger than the head of a sorted sequence extends it sorted. */
  lemma SortedCons(a: real, t: seq<real>)
    requires Sorted(t) && (t != [] ==> a <= t[0])
    ensures Sorted([a] + t)
  {
    var r := [a] + t;
    forall i, j | 0 <= i < j < |r|
      ensures r[i] <= r[j]
    {
      if i > 0 {
        assert r[i] == t[i - 1] && r[j] == t[j - 1];
      } else {
        assert r[j] == t[j - 1];
      }
    }
  }

  /** `x` inserted into sorted `s` at its place. */
  function Insert(x: real, s: seq<real>): (r: seq<real>)
    requires Sorted(s)
    ensures Sorted(r)
    ensures multiset(r) == multiset(s) + multiset{x}
    ensures |r| == |s| + 1
    ensures r[0] == x || (s != [] && r[0] == s[0])
  {
    if s == [] then [x]
    else if x <= s[0] then SortedCons(x, s); [x] + s
    else
      var tail := s[1..];
      assert Sorted(tail);
      var rest := Insert(x, tail);
      assert s == [s[0]] + tail;
      assert tail != [] ==> s[0] <= tail[0];
      SortedCons(s[0], rest);
      [s[0]] + rest
  }

  /** Insertion sort: an ascending permutation of `s`. */
  function SortSeq(s: seq<real>): (r: seq<real>)
    ensures Sorted(r)
    ensures multiset(r) == multiset(s)
  {
    if s == [] then []
    else
      assert s == [s[0]] + s[1..];
      Insert(s[0], SortSeq(s[1..]))
  }

  /** The signal extended with zeros on both sides. */
  function Padded(g: seq<real>, i: int): real {
    if 0 <= i < |g| then g[i] else 0.0
  }

  /** The kernel window centred on sample `i`. */
  function Window(g: seq<real>, i: int): (w: seq<real>)
    ensures |w| == KernelSize
  {
    seq(KernelSize, j => Padded(g, i - HalfKernel + j))
  }

  /** The middle element of the sorted window. */
  function Median(w: seq<real>): real
    requires |w| == KernelSize
  {
    var sorted := SortSeq(w);
    assert |sorted| == |w| by {
      assert |multiset(sorted)| == |multiset(w)|;
    }
    sorted[HalfKernel]
  }

  function MedFilt(g: seq<real>): (r: seq<real>)
    ensures |r| == |g|
  {
    seq(|g|, i => Median(Window(g, i)))
  }

  predicate InUnit(s: seq<real>) {
    forall i :: 0 <= i < |s| ==> 0.0 <= s[i] <= 1.0
  }

  /** The median of a window is one of its elements, so it is within the window's bounds. */
  lemma MedianWithinWindow(w: seq<real>, lo: real, hi: real)
    requires |w| == KernelSize
    requires forall i :: 0 <= i < |w| ==> lo <= w[i] <= hi
    ensures lo <= Median(w) <= hi
  {
    var sorted := SortSeq(w);
    assert |multiset(sorted)| == |multiset(w)|;
    var m := sorted[HalfKernel];
    assert m in multiset(sorted);
    assert m in w;
  }

  /** Smoothing gains that lie in [0, 1] yields gains in [0, 1]. */
  lemma MedFiltKeepsUnit(g: seq<real>)
    requires InUnit(g)
    ensures InUnit(MedFilt(g))
  {
    var r := MedFilt(g);
    forall i | 0 <= i < |r|
      ensures 0.0 <= r[i] <= 1.0
    {
      var w := Window(g, i);
      forall j | 0 <= j < |w|
        ensures 0.0 <= w[j] <= 1.0
      {
        assert w[j] == Padded(g, i - HalfKernel + j);
      }
      MedianWithinWindow(w, 0.0, 1.0);
    }
  }
}
