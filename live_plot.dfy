/**
 * The fixed-length sample buffers of the old live plotter. An `Acc` keeps one
 * buffer per accelerometer axis. Each reading shifts every buffer one place to
 * the left (numpy's roll, which returns a copy) and writes the reading's
 * component into the last slot, so a buffer always holds the most recent
 * samples in arrival order.
 */
module LivePlot {

  /** Buffer length: int(EXHIBITION_TIME / CLOCK) = int(20 / 0.01) samples. */
  const Samples: nat := 2000

  /** One accelerometer reading, taken from the device by a call that is not modelled. */
  datatype Reading = Reading(x: real, y: real, z: real)

  /** A buffer after one reading: everything moves one place left and the reading goes last. */
  function Shifted(s: seq<real>, v: real): (r: seq<real>)
    requires |s| > 0
  {
    s[1..] + [v]
  }

  /** A buffer after a run of readings, oldest first. */
  function ShiftedAll(s: seq<real>, vs: seq<real>): (r: seq<real>)
    requires |s| > 0
    ensures |r| == |s|
    decreases vs
  {
    if vs == [] then s else ShiftedAll(Shifted(s, vs[0]), vs[1..])
  }

  /** One shift keeps the length, moves entry i + 1 to i and puts the reading last. */
  lemma ShiftedShape(s: seq<real>, v: real)
    requires |s| > 0
    ensures |Shifted(s, v)| == |s|
    ensures forall i :: 0 <= i < |s| - 1 ==> Shifted(s, v)[i] == s[i + 1]
    ensures Shifted(s, v)[|s| - 1] == v
  {
  }

  /**
   * The buffer is the trailing window of the whole stream: after any run of
   * readings it holds the last |s| values of the initial contents followed by
   * the readings.
   */
  lemma {:induction false} ShiftedAllIsTrailingWindow(s: seq<real>, vs: seq<real>)
    requires |s| > 0
    ensures ShiftedAll(s, vs) == (s + vs)[|vs|..]
    decreases vs
  {
    if vs != [] {
      var s' := Shifted(s, vs[0]);
      ShiftedAllIsTrailingWindow(s', vs[1..]);
      assert s' + vs[1..] == (s + vs)[1..];
    }
  }

  /** Once as many readings as slots have arrived, the buffer is exactly the latest readings. */
  lemma BufferHoldsLatestReadings(s: seq<real>, vs: seq<real>)
    requires |s| > 0 && |vs| >= |s|
    ensures ShiftedAll(s, vs) == vs[|vs| - |s|..]
  {
    ShiftedAllIsTrailingWindow(s, vs);
    assert (s + vs)[|vs|..] == vs[|vs| - |s|..];
  }

  /** A shift leaves a buffer as it was exactly when every slot already holds the reading. */
  lemma {:induction false} ShiftedFixedPoint(s: seq<real>, v: real)
    requires |s| > 0
    ensures Shifted(s, v) == s <==> forall i :: 0 <= i < |s| ==> s[i] == v
  {
    if forall i :: 0 <= i < |s| ==> s[i] == v {
      forall i | 0 <= i < |s|
        ensures Shifted(s, v)[i] == s[i]
      {
        if i < |s| - 1 {
          assert s[i + 1] == v;
        }
      }
    }
    if Shifted(s, v) == s {
      forall i | 0 <= i < |s|
        ensures s[i] == v
      {
        ShiftedFixedPointAt(s, v, i);
      }
    }
  }

  lemma {:induction false} ShiftedFixedPointAt(s: seq<real>, v: real, i: nat)
    requires |s| > 0 && Shifted(s, v) == s && i < |s|
    ensures s[i] == v
    decreases |s| - i
  {
    if i < |s| - 1 {
      ShiftedFixedPointAt(s, v, i + 1);
      assert Shifted(s, v)[i] == s[i + 1];
    } else {
      assert Shifted(s, v)[i] == v;
    }
  }

  /** A copy of the buffer rolled one place left, with the reading written into its last slot. */
  method ShiftIn(a: array<real>, v: real) returns (b: array<real>)
    requires a.Length > 0
    ensures fresh(b) && b[..] == Shifted(a[..], v)
  {
    var n := a.Length;
    b := new real[n](i requires 0 <= i < n reads a => a[if i + 1 < n then i + 1 else 0]);
    b[n - 1] := v;
    assert forall i :: 0 <= i < n - 1 ==> b[i] == a[i + 1];
  }

  /**
   * The helper as written: it rolls into a fresh array bound to its own
   * parameter, writes that array's last slot and returns nothing, so the
   * caller's array is never changed. On an empty array the write raises.
   */
  method UpdateArray(a: array<real>, value: real) returns (raised: bool)
    ensures raised == (a.Length == 0)
    ensures a[..] == old(a[..])
  {
    if a.Length == 0 {
      return true;
    }
    var local := ShiftIn(a, value);
    raised := false;
  }

  /**
   * A caller of the helper loses the reading: on a zero buffer of two slots,
   * the helper leaves [0.0, 0.0], where the intended shift gives [0.0, 1.0].
   */
  method UpdateArrayLosesReading() returns (asWritten: seq<real>, intended: seq<real>)
    ensures asWritten == [0.0, 0.0] && intended == [0.0, 1.0]
    ensures asWritten != intended
  {
    var a := new real[2](_ => 0.0);
    var raised := UpdateArray(a, 1.0);
    asWritten := a[..];
    var b := ShiftIn(a, 1.0);
    intended := b[..];
    assert intended == [0.0, 0.0][1..] + [1.0];
  }

  class Acc {
    var x: array<real>
    var y: array<real>
    var z: array<real>

    ghost predicate Valid()
      reads this
    {
      x.Length == Samples && y.Length == Samples && z.Length == Samples
    }

    /** Three all-zero buffers of the common length. */
    constructor ()
      ensures Valid() && fresh(x) && fresh(y) && fresh(z)
      ensures forall i :: 0 <= i < Samples ==> x[i] == 0.0 && y[i] == 0.0 && z[i] == 0.0
    {
      x := new real[Samples](_ => 0.0);
      y := new real[Samples](_ => 0.0);
      z := new real[Samples](_ => 0.0);
    }

    /** Each buffer takes the matching component of the same reading. */
    method Update(r: Reading)
      requires Valid()
      modifies this
      ensures Valid() && fresh(x) && fresh(y) && fresh(z)
      ensures x[..] == Shifted(old(x[..]), r.x)
      ensures y[..] == Shifted(old(y[..]), r.y)
      ensures z[..] == Shifted(old(z[..]), r.z)
    {
      x := ShiftIn(x, r.x);
      y := ShiftIn(y, r.y);
      z := ShiftIn(z, r.z);
    }
  }
}
