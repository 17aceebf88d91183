/**
 * The recorded-data tracker: one update per spreadsheet row. The first update
 * runs `start`, which records the start time and switches `update` to the
 * stepping method for good. Each step chains and corrects the joint angles and
 * builds a state against the oldest retained state. It then pushes the state
 * onto the trailing window and, when recording, onto the permanent log.
 */
module RecordedTracker {
  import opened Optional
  import opened Angles
  import opened Kinematics
  import opened Window

  /** The method the tracker's `update` attribute names. */
  datatype UpdateMode = Starting | Stepping

  /** The method the tracker's `get_state` attribute names. */
  datatype StateMode = FirstState | SteadyState

  /** One data source's row after the trigonometry: its segment vector and its raw angle. */
  datatype Pose = Pose(vector: Vec3, angle: real)

  function Vectors(poses: seq<Pose>): (vs: seq<Vec3>)
    ensures |vs| == |poses| && forall i :: 0 <= i < |poses| ==> vs[i] == poses[i].vector
  {
    seq(|poses|, i requires 0 <= i < |poses| => poses[i].vector)
  }

  function RawAngles(poses: seq<Pose>): (raw: seq<real>)
    ensures |raw| == |poses| && forall i :: 0 <= i < |poses| ==> raw[i] == poses[i].angle
  {
    seq(|poses|, i requires 0 <= i < |poses| => poses[i].angle)
  }

  /** The loop over the data sources that collects each one's vector and raw angle, in order. */
  method CollectPoses(poses: seq<Pose>) returns (vs: seq<Vec3>, raw: seq<real>)
    ensures vs == Vectors(poses) && raw == RawAngles(poses)
  {
    vs, raw := [], [];
    var k := 0;
    while k < |poses|
      invariant 0 <= k <= |poses|
      invariant vs == Vectors(poses[..k]) && raw == RawAngles(poses[..k])
    {
      assert poses[..k + 1] == poses[..k] + [poses[k]];
      vs := vs + [poses[k].vector];
      raw := raw + [poses[k].angle];
      k := k + 1;
    }
    assert poses[..k] == poses;
  }

  class RecordedData {
    /** The number of data sources (one per segment). */
    const sourceCount: nat
    /** The window, in seconds, of the history used for differencing. */
    const calculationTime: real
    /** Whether every state is also appended to the permanent log. */
    const record: bool

    var vectors: seq<Vec3>
    var update: UpdateMode
    var startTime: Option<real>
    var states: seq<ArticulationState>
    var latestStates: seq<ArticulationState>
    var getState: StateMode
    /** The state class's speed and acceleration attributes, owned here by one tracker. */
    var derivatives: DerivMode
    var row: nat
    var lastAngles: Option<seq<real>>

    ghost predicate Valid()
      reads this
    {
      && (update == Starting ==> getState == FirstState)
      && (update == Stepping <==> startTime.Some?)
      && (getState == FirstState <==> derivatives == ZeroLambdas)
      && (getState == FirstState <==> latestStates == [])
      && (getState == FirstState <==> lastAngles == None)
      && (getState == FirstState <==> row == 0)
      && (getState == FirstState ==> vectors == [])
      && (getState == SteadyState ==> sourceCount > 0)
      && (record ==> |states| == row)
      && (!record ==> states == [])
      && (forall s :: s in latestStates ==> Shaped(s, sourceCount))
      && (forall s :: s in states ==> Shaped(s, sourceCount))
      && (latestStates != [] ==> vectors == Last(latestStates).vectors)
      && (latestStates != [] && record ==> states != [] && Last(states) == Last(latestStates))
      && (lastAngles.Some? ==> latestStates != [] && lastAngles.value == Last(latestStates).angles)
    }

    constructor (sourceCount: nat, calculationTime: real, record: bool)
      ensures Valid()
      ensures this.sourceCount == sourceCount && this.calculationTime == calculationTime
      ensures this.record == record
      ensures update == Starting && getState == FirstState && derivatives == ZeroLambdas
      ensures vectors == [] && states == [] && latestStates == []
      ensures row == 0 && lastAngles == None && startTime == None
    {
      this.sourceCount := sourceCount;
      this.calculationTime := calculationTime;
      this.record := record;
      vectors := [];
      update := Starting;
      startTime := None;
      states := [];
      latestStates := [];
      getState := FirstState;
      row := 0;
      derivatives := ZeroLambdas;
      lastAngles := None;
    }

    /** The newest state. */
    function State(): (s: ArticulationState)
      reads this
      requires latestStates != []
      ensures s in latestStates && s == latestStates[|latestStates| - 1]
    {
      Last(latestStates)
    }

    /**
     * The state the next update builds from these poses at time t: the chained
     * and corrected angles, with zero derivatives before the first state and
     * differences against the oldest retained state afterwards.
     */
    ghost function NextState(poses: seq<Pose>, t: real): (s: ArticulationState)
      reads this
      requires Valid() && |poses| == sourceCount > 0
      requires getState == SteadyState ==> t != latestStates[0].updTime
    {
      var angles := Unwrapped(JointAngles(RawAngles(poses)), lastAngles);
      var rule := if getState == FirstState then Zero(sourceCount) else Differences(latestStates[0]);
      StateOf(Vectors(poses), angles, t, rule)
    }

    method RecordState(s: ArticulationState)
      modifies this`states
      ensures states == old(states) + (if record then [s] else [])
    {
      if record {
        states := states + [s];
      }
    }

    /** Log the state if recording, prune the window against it, then append it. */
    method UpdateStates(s: ArticulationState)
      modifies this`vectors, this`states, this`latestStates
      ensures vectors == s.vectors
      ensures states == old(states) + (if record then [s] else [])
      ensures latestStates == Pushed(old(latestStates), s, calculationTime, Strict)
    {
      vectors := s.vectors;
      RecordState(s);
      var kept := RetainWithin(latestStates, s.updTime, calculationTime, Strict);
      latestStates := kept + [s];
    }

    /** Build the zero-derivative first state, push it, and switch to differencing for good. */
    method GetFirstState(vs: seq<Vec3>, angles: seq<real>, t: real)
      requires derivatives == ZeroLambdas
      modifies this`vectors, this`states, this`latestStates, this`derivatives, this`getState
      ensures var s := StateOf(vs, angles, t, Zero(sourceCount));
        && vectors == vs
        && states == old(states) + (if record then [s] else [])
        && latestStates == Pushed(old(latestStates), s, calculationTime, Strict)
      ensures derivatives == Differencing && getState == SteadyState
    {
      var s := MakeState(vs, angles, t, Zero(sourceCount));
      UpdateStates(s);
      derivatives := Differencing;
      getState := SteadyState;
    }

    /** Build a state against the oldest retained one, then push it. */
    method GetSteadyState(vs: seq<Vec3>, angles: seq<real>, t: real)
      requires latestStates != []
      requires derivatives == Differencing ==> t != latestStates[0].updTime
      modifies this`vectors, this`states, this`latestStates, this`derivatives
      ensures var rule := if old(derivatives) == ZeroLambdas then Zero(sourceCount)
                          else Differences(old(latestStates)[0]);
        var s := StateOf(vs, angles, t, rule);
        && vectors == vs
        && states == old(states) + (if record then [s] else [])
        && latestStates == Pushed(old(latestStates), s, calculationTime, Strict)
      ensures derivatives == Differencing
    {
      var rule := if derivatives == ZeroLambdas then Zero(sourceCount) else Differences(latestStates[0]);
      var s := MakeState(vs, angles, t, rule);
      UpdateStates(s);
      derivatives := Differencing;
    }

    /** The chained angles of this row, corrected against the last tick's angles. */
    method CorrectedAngles(raw: seq<real>) returns (angles: seq<real>)
      requires Valid() && |raw| == sourceCount > 0
      ensures angles == Unwrapped(JointAngles(raw), lastAngles)
      ensures |angles| == sourceCount
    {
      angles := JointAngles(raw);
      if lastAngles.Some? {
        assert Last(latestStates) in latestStates;
      }
      angles := Unwrap(angles, lastAngles);
    }

    /**
     * One step for the current row: vectors and raw angles from every source,
     * the angle chain, the wrap-around correction against the last tick, then
     * the state. The corrected angles become the last angles, and the row
     * advances by one. With no data source the chain raises and nothing changes.
     */
    method Step(poses: seq<Pose>, t: real) returns (ok: bool)
      requires Valid() && |poses| == sourceCount && update == Stepping
      requires getState == SteadyState ==> t != latestStates[0].updTime
      modifies this
      ensures ok == (sourceCount > 0)
      ensures !ok ==> unchanged(this)
      ensures ok ==> Valid() && latestStates != []
      ensures ok ==> State() == old(NextState(poses, t))
      ensures ok ==> latestStates == Pushed(old(latestStates), State(), calculationTime, Strict)
      ensures ok ==> states == old(states) + (if record then [State()] else [])
      ensures ok ==> lastAngles == Some(State().angles) && vectors == Vectors(poses)
      ensures ok ==> row == old(row) + 1 && getState == SteadyState && derivatives == Differencing
      ensures update == old(update) && startTime == old(startTime)
    {
      var vs, raw := CollectPoses(poses);
      if |raw| == 0 {
        vectors := vs;
        return false;
      }
      ghost var next := NextState(poses, t);
      var angles := CorrectedAngles(raw);
      ghost var rule := if getState == FirstState then Zero(sourceCount) else Differences(latestStates[0]);
      assert next == StateOf(vs, angles, t, rule);
      if rule.Differences? {
        assert Shaped(rule.reference, sourceCount);
      }
      StateOfShaped(vs, angles, t, rule, sourceCount);
      vectors := vs;
      lastAngles := Some(angles);
      if getState == FirstState {
        GetFirstState(vs, angles, t);
      } else {
        GetSteadyState(vs, angles, t);
      }
      row := row + 1;
      ok := true;
      PushKeepsValid(old(latestStates), old(states), old(row), next);
    }

    /** A push of a well-shaped state after a valid tracker state leaves the tracker valid. */
    lemma PushKeepsValid(latest0: seq<ArticulationState>, states0: seq<ArticulationState>, row0: nat,
                         next: ArticulationState)
      requires forall e :: e in latest0 ==> Shaped(e, sourceCount)
      requires forall e :: e in states0 ==> Shaped(e, sourceCount)
      requires record ==> |states0| == row0
      requires !record ==> states0 == []
      requires Shaped(next, sourceCount) && sourceCount > 0
      requires latestStates == Pushed(latest0, next, calculationTime, Strict)
      requires states == states0 + (if record then [next] else [])
      requires row == row0 + 1 && vectors == next.vectors && lastAngles == Some(next.angles)
      requires update == Stepping && startTime.Some?
      requires getState == SteadyState && derivatives == Differencing
      ensures Valid()
    {
      PushedKeepsShape(latest0, next, calculationTime, Strict, sourceCount);
    }

    /** The first update: record the start time, switch `update` to stepping, and step. */
    method Start(poses: seq<Pose>, t: real) returns (ok: bool)
      requires Valid() && |poses| == sourceCount
      requires getState == SteadyState ==> t != latestStates[0].updTime
      modifies this
      ensures ok == (sourceCount > 0)
      ensures !ok ==> unchanged(this)
      ensures ok ==> Valid() && latestStates != []
      ensures ok ==> State() == old(NextState(poses, t))
      ensures ok ==> latestStates == Pushed(old(latestStates), State(), calculationTime, Strict)
      ensures ok ==> states == old(states) + (if record then [State()] else [])
      ensures ok ==> lastAngles == Some(State().angles) && vectors == Vectors(poses)
      ensures ok ==> row == old(row) + 1 && getState == SteadyState && derivatives == Differencing
      ensures ok ==> update == Stepping && startTime == Some(t)
    {
      if sourceCount == 0 {
        return false;
      }
      startTime := Some(t);
      update := Stepping;
      ok := Step(poses, t);
    }

    /**
     * One update per row: `start` on the first call and the stepping method on
     * every later one. A successful update pushes exactly the next state,
     * exposes it as the current state, grows the log by one exactly when
     * recording, and advances the row by one.
     */
    method Update(poses: seq<Pose>, t: real) returns (ok: bool)
      requires Valid() && |poses| == sourceCount
      requires getState == SteadyState ==> t != latestStates[0].updTime
      modifies this
      ensures ok == (sourceCount > 0)
      ensures !ok ==> unchanged(this)
      ensures ok ==> Valid() && latestStates != []
      ensures ok ==> State() == old(NextState(poses, t))
      ensures ok ==> latestStates == Pushed(old(latestStates), State(), calculationTime, Strict)
      ensures ok ==> states == old(states) + (if record then [State()] else [])
      ensures ok ==> lastAngles == Some(State().angles) && vectors == Vectors(poses)
      ensures ok ==> row == old(row) + 1 && update == Stepping && getState == SteadyState
      ensures ok && old(update) == Starting ==> startTime == Some(t)
      ensures old(update) == Stepping ==> startTime == old(startTime)
    {
      match update
      case Starting =>
        ok := Start(poses, t);
      case Stepping =>
        ok := Step(poses, t);
    }
  }
}
