/**
 * Joint angles of the recorded-data tracker: the chain that turns absolute
 * segment angles into relative joint angles, and the per-joint heuristic that
 * corrects a jump across the 0/2*Pi boundary against the previous tick.
 */
module Angles {
  import opened Optional

  type Positive = r: real | r > 0.0 witness 1.0

  /** The circle constant. Only its positivity is used by the model. */
  const Pi: Positive

  /**
   * Comparisons of an angle in degrees (x * 180 / Pi) with a constant, written
   * without the division: they hold exactly when the degree values compare so.
   */
  predicate DegAbove(x: real, d: real)
  {
    x * 180.0 > d * Pi
  }

  predicate DegBelow(x: real, d: real)
  {
    x * 180.0 < d * Pi
  }

  function Min(a: nat, b: nat): (m: nat)
    ensures m <= a && m <= b && (m == a || m == b)
  {
    if a <= b then a else b
  }

  // ---------------------------------------------------------------------------
  // The angle chain

  /** Consecutive differences: entry n is s[n + 1] - s[n]. */
  function Diffs(s: seq<real>): (d: seq<real>)
    requires |s| > 0
  {
    seq(|s| - 1, n requires 0 <= n < |s| - 1 => s[n + 1] - s[n])
  }

  /**
   * The first absolute angle is kept; every later one becomes its difference
   * from the angle before it. The source raises on an empty list, which its
   * callers never pass.
   */
  function JointAngles(raw: seq<real>): (r: seq<real>)
    requires |raw| > 0
    ensures |r| == |raw| && r[0] == raw[0]
    ensures forall i :: 1 <= i < |raw| ==> r[i] == raw[i] - raw[i - 1]
  {
    [raw[0]] + Diffs(raw)
  }

  /**
   * The inverse of the chain: running sums starting from `base`; entry i is
   * base + j[0] + ... + j[i].
   */
  function Accumulate(base: real, j: seq<real>): (r: seq<real>)
    ensures |r| == |j|
    decreases j
  {
    if j == [] then [] else [base + j[0]] + Accumulate(base + j[0], j[1..])
  }

  /** Absolute segment angles recovered from joint angles. */
  function Absolute(j: seq<real>): (r: seq<real>)
    ensures |r| == |j|
  {
    Accumulate(0.0, j)
  }

  lemma {:induction false} AccumulateDiffs(base: real, s: seq<real>)
    requires |s| > 0
    ensures Accumulate(base, [s[0] - base] + Diffs(s)) == s
    decreases s
  {
    var j := [s[0] - base] + Diffs(s);
    assert j[0] == s[0] - base;
    assert j[1..] == Diffs(s);
    if |s| > 1 {
      var t := s[1..];
      assert Diffs(s) == [t[0] - s[0]] + Diffs(t);
      AccumulateDiffs(s[0], t);
    }
  }

  /** Summing the joint angles along the chain gives back the absolute angles. */
  lemma AbsoluteOfJointAngles(raw: seq<real>)
    requires |raw| > 0
    ensures Absolute(JointAngles(raw)) == raw
  {
    assert JointAngles(raw) == [raw[0] - 0.0] + Diffs(raw);
    AccumulateDiffs(0.0, raw);
  }

  lemma {:induction false} AccumulateStep(base: real, j: seq<real>, i: nat)
    requires i < |j|
    ensures Accumulate(base, j)[i] == (if i == 0 then base else Accumulate(base, j)[i - 1]) + j[i]
    decreases i
  {
    if i > 0 {
      AccumulateStep(base + j[0], j[1..], i - 1);
    }
  }

  /** Differencing running sums gives back the joint angles. */
  lemma JointAnglesOfAbsolute(j: seq<real>)
    requires |j| > 0
    ensures JointAngles(Absolute(j)) == j
  {
    var a := Absolute(j);
    forall i | 0 <= i < |j|
      ensures JointAngles(a)[i] == j[i]
    {
      AccumulateStep(0.0, j, i);
    }
  }

  /** The two-segment case: the forearm angle is taken relative to the upper arm. */
  lemma JointAnglesOfTwo(a: real, b: real)
    ensures JointAngles([a, b]) == [a, b - a]
  {
    assert Diffs([a, b]) == [b - a];
  }

  // ---------------------------------------------------------------------------
  // The wrap-around corrector

  /** The first branch's guard: more than 200 degrees now, under 90 last tick. */
  predicate WrapsDown(a: real, last: real)
  {
    DegAbove(a, 200.0) && DegBelow(last, 90.0)
  }

  /** The guard that adds a full turn: under -200 degrees now, positive last tick. */
  predicate WrapsUp(a: real, last: real)
  {
    DegBelow(a, -200.0) && DegAbove(last, 0.0)
  }

  /**
   * One joint's correction with every branch the source writes, including the
   * second one (more than 200 degrees now, negative last tick), which the first
   * branch already covers.
   */
  function CorrectJoint(a: real, last: real): (r: real)
    ensures WrapsDown(a, last) ==> r == 2.0 * Pi - a
    ensures WrapsUp(a, last) ==> r == 2.0 * Pi + a
    ensures !WrapsDown(a, last) && !WrapsUp(a, last) ==> r == a
  {
    if DegAbove(a, 200.0) && DegBelow(last, 90.0) then 2.0 * Pi - a
    else if DegAbove(a, 200.0) && DegBelow(last, 0.0) then 2.0 * Pi - a
    else if DegBelow(a, -200.0) && DegAbove(last, 0.0) then 2.0 * Pi + a
    else a
  }

  /** The second branch never decides anything: its guard implies the first's. */
  lemma SecondBranchUnreachable(a: real, last: real)
    requires DegAbove(a, 200.0) && DegBelow(last, 0.0)
    ensures WrapsDown(a, last)
  {
  }

  /**
   * A correction that fires puts the joint below 160 degrees; one that does not
   * fire leaves the angle as it is.
   */
  lemma CorrectionLandsBelow160(a: real, last: real)
    ensures (WrapsDown(a, last) || WrapsUp(a, last)) ==> DegBelow(CorrectJoint(a, last), 160.0)
    ensures !(WrapsDown(a, last) || WrapsUp(a, last)) ==> CorrectJoint(a, last) == a
  {
  }

  /** 210 degrees after 10 degrees is reflected; 150 degrees after 10 degrees is kept. */
  lemma CorrectJointExamples()
    ensures CorrectJoint(210.0 * Pi / 180.0, 10.0 * Pi / 180.0) == 2.0 * Pi - 210.0 * Pi / 180.0
    ensures CorrectJoint(150.0 * Pi / 180.0, 10.0 * Pi / 180.0) == 150.0 * Pi / 180.0
  {
  }

  /**
   * The corrected angle list: unchanged when there is no previous tick, and
   * otherwise one corrected entry per pair of the two lists zipped together.
   */
  function Unwrapped(angles: seq<real>, last: Option<seq<real>>): (r: seq<real>)
  {
    match last
    case None => angles
    case Some(l) =>
      seq(Min(|angles|, |l|), i requires 0 <= i < Min(|angles|, |l|) => CorrectJoint(angles[i], l[i]))
  }

  /** The zipped correction loop of one tracker tick. */
  method Unwrap(angles: seq<real>, last: Option<seq<real>>) returns (corrected: seq<real>)
    ensures corrected == Unwrapped(angles, last)
    ensures last == None ==> corrected == angles
    ensures last.Some? ==> |corrected| == Min(|angles|, |last.value|)
    ensures last.Some? ==> forall i :: 0 <= i < |corrected| ==>
      corrected[i] == CorrectJoint(angles[i], last.value[i])
  {
    if last == None {
      return angles;
    }
    var l := last.value;
    var n := Min(|angles|, |l|);
    corrected := [];
    var i := 0;
    while i < n
      invariant 0 <= i <= n
      invariant |corrected| == i
      invariant forall k :: 0 <= k < i ==> corrected[k] == CorrectJoint(angles[k], l[k])
    {
      var a, b := angles[i], l[i];
      if DegAbove(a, 200.0) && DegBelow(b, 90.0) {
        corrected := corrected + [2.0 * Pi - a];
      } else if DegAbove(a, 200.0) && DegBelow(b, 0.0) {
        corrected := corrected + [2.0 * Pi - a];
      } else if DegBelow(a, -200.0) && DegAbove(b, 0.0) {
        corrected := corrected + [2.0 * Pi + a];
      } else {
        corrected := corrected + [a];
      }
      i := i + 1;
    }
  }
}
