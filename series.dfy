/**
 * The array summaries the pages take from numpy and Python's builtins:
 * `max` / `np.max`, `np.argmax` and `np.linspace`.
 */
module Series {
  import opened Arith

  /** The largest element of a non-empty series (`max`, `np.max`). */
  function Max(s: seq<real>): (m: real)
    requires |s| > 0
    ensures m in s
    ensures forall j :: 0 <= j < |s| ==> s[j] <= m
  {
    if |s| == 1 then s[0]
    else
      var m := Max(s[..|s| - 1]);
      if s[|s| - 1] > m then s[|s| - 1] else m
  }

  /** `np.argmax`: the FIRST index at which the series attains its maximum. */
  function FirstArgMax(s: seq<real>): (k: nat)
    requires |s| > 0
    ensures k < |s|
    ensures forall j :: 0 <= j < |s| ==> s[j] <= s[k]
    ensures forall j :: 0 <= j < k ==> s[j] < s[k]
  {
    if |s| == 1 then 0
    else
      var k := FirstArgMax(s[..|s| - 1]);
      if s[|s| - 1] > s[k] then |s| - 1 else k
  }

  /** The value at the first argmax is the maximum, and the first argmax is
      the only index that attains it before any later one. */
  lemma {:induction false} ArgMaxAttainsMax(s: seq<real>)
    requires |s| > 0
    ensures s[FirstArgMax(s)] == Max(s)
    ensures forall j :: 0 <= j < |s| && s[j] == Max(s) ==> FirstArgMax(s) <= j
  {
  }

  /** A series that never increases peaks at index 0. */
  lemma {:induction false} NonIncreasingPeaksFirst(s: seq<real>)
    requires |s| > 0
    requires forall j :: 0 < j < |s| ==> s[j] <= s[j - 1]
    ensures FirstArgMax(s) == 0
  {
    var k := FirstArgMax(s);
    if k > 0 {
      var j := k;
      while j > 0
        invariant 0 <= j <= k
        invariant s[j] >= s[k]
      {
        j := j - 1;
      }
      assert false;
    }
  }

  /** `np.linspace(start, stop, num)`: `num` evenly spaced points, the first
      `start` and (for two or more points) the last `stop`. */
  function Linspace(start: real, stop: real, num: nat): (t: seq<real>)
    ensures |t| == num
    ensures num >= 1 ==> t[0] == start
    ensures num >= 2 ==> t[num - 1] == stop
    ensures num >= 2 ==> forall i :: 0 <= i < num - 1 ==> t[i + 1] - t[i] == (stop - start) / (num as real - 1.0)
  {
    if num == 1 then [start]
    else
      var step := (stop - start) / (num as real - 1.0);
      var t := seq(num, i requires 0 <= i < num => start + i as real * step);
      assert num >= 2 ==> t[num - 1] == start + (num as real - 1.0) * step == stop;
      t
  }

  /** Every point of an increasing grid lies between its endpoints. */
  lemma LinspaceWithin(start: real, stop: real, num: nat, i: nat)
    requires start <= stop
    requires i < num
    ensures start <= Linspace(start, stop, num)[i] <= stop
  {
    var t := Linspace(start, stop, num);
    if num >= 2 {
      var step := (stop - start) / (num as real - 1.0);
      assert t[i] == start + i as real * step;
      PartOfSpan(stop - start, i as real, num as real - 1.0);
      assert start <= t[i] <= stop;
    }
  }
}
