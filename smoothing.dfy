/** The value column produced by Signal.smooth: repeated passes of in-place
    neighbour averaging. */
module Smoothing {

  /** The values after the steps j = 2 .. i-1 of one pass. Step j overwrites value
      j-1 with the mean of value j-2 (already overwritten earlier in the same pass)
      and value j (not yet touched). */
  function PassUpTo(v: seq<real>, i: nat): (p: seq<real>)
    requires i <= |v|
    ensures |p| == |v|
    decreases i
  {
    if i <= 2 then v
    else
      var p := PassUpTo(v, i - 1);
      p[i - 2 := (p[i - 3] + p[i - 1]) / 2.0]
  }

  /** One iteration of smooth: the steps j = 2 .. n-1 over n values. */
  function SmoothPass(v: seq<real>): (r: seq<real>)
    ensures |r| == |v|
  {
    PassUpTo(v, |v|)
  }

  /** The values after `n` iterations of smooth. */
  function Smoothed(v: seq<real>, n: nat): (r: seq<real>)
    ensures |r| == |v|
  {
    if n == 0 then v else SmoothPass(Smoothed(v, n - 1))
  }

  /** After the steps j < i of a pass: value 0 is untouched, every value k in
      1 .. i-2 is the mean of the new value k-1 and the old value k+1, and the
      values from i-1 on are untouched. */
  lemma {:induction false} PassUpToShape(v: seq<real>, i: nat)
    requires 2 <= i <= |v|
    ensures PassUpTo(v, i)[0] == v[0]
    ensures forall k :: 1 <= k <= i - 2 ==>
              PassUpTo(v, i)[k] == (PassUpTo(v, i)[k - 1] + v[k + 1]) / 2.0
    ensures forall k :: i - 1 <= k < |v| ==> PassUpTo(v, i)[k] == v[k]
  {
    if i > 2 {
      PassUpToShape(v, i - 1);
    }
  }

  /** One pass keeps both end values and sets every inner value k to the mean of the
      new left neighbour and the old right neighbour. */
  lemma SmoothPassShape(v: seq<real>)
    requires |v| >= 2
    ensures SmoothPass(v)[0] == v[0]
    ensures SmoothPass(v)[|v| - 1] == v[|v| - 1]
    ensures forall k :: 1 <= k <= |v| - 2 ==>
              SmoothPass(v)[k] == (SmoothPass(v)[k - 1] + v[k + 1]) / 2.0
  {
    PassUpToShape(v, |v|);
  }

  /** Fewer than three values leave nothing to smooth, whatever the number of iterations. */
  lemma {:induction false} ShortSignalUnchanged(v: seq<real>, n: nat)
    requires |v| < 3
    ensures Smoothed(v, n) == v
  {
    if n > 0 {
      ShortSignalUnchanged(v, n - 1);
    }
  }

  /** The first and the last value never change. */
  lemma {:induction false} SmoothedKeepsEnds(v: seq<real>, n: nat)
    requires |v| >= 2
    ensures Smoothed(v, n)[0] == v[0]
    ensures Smoothed(v, n)[|v| - 1] == v[|v| - 1]
  {
    if n > 0 {
      SmoothedKeepsEnds(v, n - 1);
      SmoothPassShape(Smoothed(v, n - 1));
    }
  }

  /** A constant signal is a fixed point of smoothing. */
  lemma {:induction false} ConstantIsFixed(v: seq<real>, c: real, n: nat)
    requires forall k :: 0 <= k < |v| ==> v[k] == c
    ensures Smoothed(v, n) == v
  {
    if n > 0 {
      ConstantIsFixed(v, c, n - 1);
      if |v| >= 2 {
        var r := SmoothPass(v);
        SmoothPassShape(v);
        var k := 1;
        while k < |v|
          invariant 1 <= k <= |v|
          invariant forall j :: 0 <= j < k ==> r[j] == c
        {
          if k < |v| - 1 {
            assert r[k] == (r[k - 1] + v[k + 1]) / 2.0;
          }
          k := k + 1;
        }
        assert r == v;
      }
    }
  }
}
