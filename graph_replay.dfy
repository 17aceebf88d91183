/**
 * The offline graph script: a loop over the rows of two recorded magnetometer
 * logs. Its global `get_state_fn` starts as the first-state maker. After the
 * first state it switches to the steady maker, and at the same moment the
 * state class's derivative attributes switch from the default zero lambdas to
 * the differencing functions. Each row's state is built against the oldest
 * state of the trailing window, then the window (compared inclusively) is
 * pruned and both it and the full list receive the new state.
 */
module GraphReplay {
  import opened Optional
  import opened Angles
  import opened Kinematics
  import opened Window

  /** The trailing window, in seconds. */
  const Timespan: real := 0.5

  /** The default zero lambdas return two zeros, whatever the number of segments. */
  const DefaultJoints: nat := 2

  /** The function the global `get_state_fn` names. */
  datatype StateFn = FirstStateFn | SteadyStateFn

  /** A later row's segment vector and magnetometer angle, from trigonometry that is not modelled. */
  datatype SegmentPose = SegmentPose(vector: Vec3, theta: real)

  /** The first segment's fixed direction. */
  const FirstVector := Vec3(0.0, -1.0, 0.0)

  function RowVectors(later: seq<SegmentPose>): (vs: seq<Vec3>)
    ensures |vs| == 1 + |later| && vs[0] == FirstVector
    ensures forall i :: 0 <= i < |later| ==> vs[i + 1] == later[i].vector
  {
    [FirstVector] + seq(|later|, i requires 0 <= i < |later| => later[i].vector)
  }

  function RowAngles(later: seq<SegmentPose>): (angles: seq<real>)
    ensures |angles| == 1 + |later| && angles[0] == Pi / 2.0
    ensures forall i :: 0 <= i < |later| ==> angles[i + 1] == later[i].theta
  {
    [Pi / 2.0] + seq(|later|, i requires 0 <= i < |later| => later[i].theta)
  }

  /** The loop of `get_state_main` that appends one vector and one angle per later row. */
  method AssembleRow(later: seq<SegmentPose>) returns (vs: seq<Vec3>, angles: seq<real>)
    ensures vs == RowVectors(later) && angles == RowAngles(later)
  {
    vs, angles := [FirstVector], [Pi / 2.0];
    var k := 0;
    while k < |later|
      invariant 0 <= k <= |later|
      invariant vs == RowVectors(later[..k]) && angles == RowAngles(later[..k])
    {
      assert later[..k + 1] == later[..k] + [later[k]];
      vs := vs + [later[k].vector];
      angles := angles + [later[k].theta];
      k := k + 1;
    }
    assert later[..k] == later;
  }

  /** Entry i of the states was built from row i: its time, vectors and angles are the row's. */
  predicate Built(all: seq<ArticulationState>, rows: seq<Row>)
  {
    && |all| == |rows|
    && forall i :: 0 <= i < |rows| ==>
         && all[i].updTime == rows[i].time
         && all[i].vectors == RowVectors(rows[i].later)
         && all[i].angles == RowAngles(rows[i].later)
  }

  lemma BuiltExtend(all: seq<ArticulationState>, s: ArticulationState, rows: seq<Row>, k: nat)
    requires k < |rows| && Built(all, rows[..k])
    requires s.updTime == rows[k].time
    requires s.vectors == RowVectors(rows[k].later) && s.angles == RowAngles(rows[k].later)
    ensures Built(all + [s], rows[..k + 1])
  {
    assert rows[..k + 1] == rows[..k] + [rows[k]];
  }

  /**
   * Every state already built comes from an earlier row, so with row times
   * strictly increasing it is older than row k.
   */
  lemma OlderThanRow(window: seq<ArticulationState>, all: seq<ArticulationState>, rows: seq<Row>, k: nat)
    requires k < |rows| && Built(all, rows[..k])
    requires forall i, j :: 0 <= i < j < |rows| ==> rows[i].time < rows[j].time
    requires forall e :: e in window ==> e in all
    ensures forall e :: e in window ==> e.updTime < rows[k].time
  {
    forall e | e in window
      ensures e.updTime < rows[k].time
    {
      var i :| 0 <= i < |all| && all[i] == e;
      assert rows[..k][i] == rows[i];
    }
  }

  /** One zipped row of the two logs: the first log's time and the later segments' poses. */
  datatype Row = Row(time: real, later: seq<SegmentPose>)

  class Replay {
    var getStateFn: StateFn
    /** The state class's speed and acceleration attributes. */
    var derivatives: DerivMode
    var lastStates: seq<ArticulationState>
    var allStates: seq<ArticulationState>

    ghost predicate Valid()
      reads this
    {
      && (getStateFn == FirstStateFn <==> derivatives == ZeroLambdas)
      && (getStateFn == FirstStateFn <==> lastStates == [])
      && (getStateFn == FirstStateFn <==> allStates == [])
      && (lastStates != [] ==> Last(lastStates) == Last(allStates))
      && (forall e :: e in lastStates ==> e in allStates)
    }

    constructor ()
      ensures Valid()
      ensures getStateFn == FirstStateFn && derivatives == ZeroLambdas
      ensures lastStates == [] && allStates == []
    {
      getStateFn := FirstStateFn;
      derivatives := ZeroLambdas;
      lastStates := [];
      allStates := [];
    }

    /**
     * The first-state maker: a state with the current derivative attributes and
     * no reference, then the switch to differencing and to the steady maker.
     * Once the switch has happened, the differencing functions find no
     * reference and the call raises (None here), leaving the switch as it is.
     */
    method GetFirstState(vs: seq<Vec3>, angles: seq<real>, t: real) returns (s: Option<ArticulationState>)
      modifies this`derivatives, this`getStateFn
      ensures old(derivatives) == ZeroLambdas ==> s == Some(StateOf(vs, angles, t, Zero(DefaultJoints)))
      ensures old(derivatives) == Differencing ==> s == None && getStateFn == old(getStateFn)
      ensures derivatives == Differencing
      ensures old(derivatives) == ZeroLambdas ==> getStateFn == SteadyStateFn
    {
      if derivatives == Differencing {
        return None;
      }
      var state := MakeState(vs, angles, t, Zero(DefaultJoints));
      derivatives := Differencing;
      getStateFn := SteadyStateFn;
      s := Some(state);
    }

    /** The steady maker: a state against the oldest entry of the window. */
    method GetState(vs: seq<Vec3>, angles: seq<real>, t: real) returns (s: ArticulationState)
      requires lastStates != []
      requires derivatives == Differencing ==> t != lastStates[0].updTime
      ensures derivatives == ZeroLambdas ==> s == StateOf(vs, angles, t, Zero(DefaultJoints))
      ensures derivatives == Differencing ==> s == StateOf(vs, angles, t, Differences(lastStates[0]))
    {
      var rule := if derivatives == ZeroLambdas then Zero(DefaultJoints) else Differences(lastStates[0]);
      s := MakeState(vs, angles, t, rule);
    }

    /**
     * The state of one row: the fixed first vector and the angle Pi/2, then one
     * vector and one angle per later row, passed to whichever maker
     * `get_state_fn` names.
     */
    method GetStateMain(row: Row) returns (s: Option<ArticulationState>)
      requires getStateFn == SteadyStateFn ==> lastStates != []
      requires getStateFn == SteadyStateFn && derivatives == Differencing ==>
        row.time != lastStates[0].updTime
      modifies this`derivatives, this`getStateFn
      ensures var vs, angles := RowVectors(row.later), RowAngles(row.later);
        && (old(getStateFn) == FirstStateFn && old(derivatives) == ZeroLambdas ==>
              s == Some(StateOf(vs, angles, row.time, Zero(DefaultJoints))) && getStateFn == SteadyStateFn
              && derivatives == Differencing)
        && (old(getStateFn) == SteadyStateFn && old(derivatives) == Differencing ==>
              s == Some(StateOf(vs, angles, row.time, Differences(lastStates[0])))
              && getStateFn == SteadyStateFn && derivatives == Differencing)
    {
      var vs, angles := AssembleRow(row.later);
      if getStateFn == FirstStateFn {
        s := GetFirstState(vs, angles, row.time);
      } else {
        var state := GetState(vs, angles, row.time);
        s := Some(state);
      }
    }

    /** The state a row produces, given the script's current mode and window. */
    ghost function RowState(row: Row): (s: ArticulationState)
      reads this
      requires Valid()
      requires getStateFn == SteadyStateFn ==> row.time != lastStates[0].updTime
    {
      var rule := if getStateFn == FirstStateFn then Zero(DefaultJoints) else Differences(lastStates[0]);
      StateOf(RowVectors(row.later), RowAngles(row.later), row.time, rule)
    }

    /**
     * One pass of the script's loop: the state is built first (against the
     * window as it stands), then the window is pruned inclusively and gets the
     * state, and the full list grows by exactly that state.
     */
    method ProcessRow(row: Row)
      requires Valid()
      requires getStateFn == SteadyStateFn ==> row.time != lastStates[0].updTime
      modifies this
      ensures Valid()
      ensures allStates == old(allStates) + [old(RowState(row))]
      ensures Last(allStates).updTime == row.time
      ensures Last(allStates).vectors == RowVectors(row.later) && Last(allStates).angles == RowAngles(row.later)
      ensures old(getStateFn) == FirstStateFn ==>
        Last(allStates).speeds == Zeros(DefaultJoints) && Last(allStates).accs == Zeros(DefaultJoints)
      ensures lastStates == Pushed(old(lastStates), old(RowState(row)), Timespan, Inclusive)
      ensures getStateFn == SteadyStateFn && derivatives == Differencing
    {
      ghost var next := RowState(row);
      var s := GetStateMain(row);
      var state := s.value;
      assert state == next;
      var kept := RetainWithin(lastStates, state.updTime, Timespan, Inclusive);
      lastStates := kept + [state];
      allStates := allStates + [state];
      PushedFrom(old(lastStates), state, Timespan, Inclusive);
    }

    /**
     * The script over all zipped rows, with times strictly increasing: every
     * row adds exactly one state to the full list, the window stays in time
     * order, and the last state built is the newest entry of the window.
     */
    method Run(rows: seq<Row>)
      requires Valid() && getStateFn == FirstStateFn
      requires forall i, j :: 0 <= i < j < |rows| ==> rows[i].time < rows[j].time
      modifies this
      ensures Valid()
      ensures |allStates| == |rows|
      ensures Built(allStates, rows)
      ensures |rows| > 0 ==> allStates[0].speeds == Zeros(DefaultJoints) && allStates[0].accs == Zeros(DefaultJoints)
      ensures NonDecreasing(lastStates)
    {
      var k := 0;
      while k < |rows|
        invariant 0 <= k <= |rows|
        invariant Valid()
        invariant |allStates| == k
        invariant k == 0 ==> getStateFn == FirstStateFn
        invariant Built(allStates, rows[..k])
        invariant k > 0 ==> allStates[0].speeds == Zeros(DefaultJoints) && allStates[0].accs == Zeros(DefaultJoints)
        invariant NonDecreasing(lastStates)
      {
        ghost var before := lastStates;
        ghost var built := allStates;
        OlderThanRow(lastStates, allStates, rows, k);
        if lastStates != [] {
          assert lastStates[0] in lastStates;
        }
        ProcessRow(rows[k]);
        assert allStates == built + [Last(allStates)];
        BuiltExtend(built, Last(allStates), rows, k);
        PushedOrdered(before, Last(allStates), Timespan, Inclusive);
        k := k + 1;
      }
      assert rows[..k] == rows;
    }
  }
}
