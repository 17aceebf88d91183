/**
 * The per-tick articulation state and its finite-difference derivatives:
 * angular speeds against a reference state, and accelerations computed from
 * the speeds just derived.
 */
module Kinematics {
  import opened Angles

  /** A segment direction in the shared frame; produced by trigonometry that is not modelled. */
  datatype Vec3 = Vec3(x: real, y: real, z: real)

  /** One tick's snapshot. It is never changed once built. */
  datatype ArticulationState = ArticulationState(
    vectors: seq<Vec3>,
    angles: seq<real>,
    updTime: real,
    speeds: seq<real>,
    accs: seq<real>)

  /**
   * What the state class's speed and acceleration attributes compute at the
   * moment: the initial lambdas that ignore the reference and return `count`
   * zeros, or the differencing functions.
   */
  datatype DerivMode = ZeroLambdas | Differencing

  /** The derivative rule applied to one new state, together with what it needs. */
  datatype Derivation = Zero(count: nat) | Differences(reference: ArticulationState)

  function Zeros(n: nat): (z: seq<real>)
    ensures |z| == n && forall i :: 0 <= i < n ==> z[i] == 0.0
  {
    seq(n, _ => 0.0)
  }

  /** The difference quotients of two lists zipped together (the shorter one decides the length). */
  function Quotients(xs: seq<real>, ys: seq<real>, dt: real): (q: seq<real>)
    requires dt != 0.0
  {
    seq(Min(|xs|, |ys|), i requires 0 <= i < Min(|xs|, |ys|) => (xs[i] - ys[i]) / dt)
  }

  /** The zip-and-append loop shared by the speed and the acceleration functions. */
  method DifferenceQuotients(xs: seq<real>, ys: seq<real>, dt: real) returns (q: seq<real>)
    requires dt != 0.0
    ensures q == Quotients(xs, ys, dt)
  {
    q := [];
    var n := Min(|xs|, |ys|);
    var i := 0;
    while i < n
      invariant 0 <= i <= n
      invariant q == Quotients(xs[..i], ys[..i], dt)
    {
      q := q + [(xs[i] - ys[i]) / dt];
      i := i + 1;
    }
    assert xs[..n] == xs[..Min(|xs|, |ys|)];
  }

  /** Angular speeds of a new state (angles at time t) against a reference state. */
  method GetSpeeds(angles: seq<real>, t: real, reference: ArticulationState) returns (speeds: seq<real>)
    requires t != reference.updTime
    ensures speeds == Quotients(angles, reference.angles, t - reference.updTime)
    ensures |speeds| == Min(|angles|, |reference.angles|)
    ensures forall i :: 0 <= i < |speeds| ==>
      reference.angles[i] + speeds[i] * (t - reference.updTime) == angles[i]
  {
    speeds := DifferenceQuotients(angles, reference.angles, t - reference.updTime);
    QuotientsInvert(angles, reference.angles, t - reference.updTime);
  }

  /** Angular accelerations from the speeds just derived and the reference's speeds. */
  method GetAccs(speeds: seq<real>, t: real, reference: ArticulationState) returns (accs: seq<real>)
    requires t != reference.updTime
    ensures accs == Quotients(speeds, reference.speeds, t - reference.updTime)
    ensures |accs| == Min(|speeds|, |reference.speeds|)
    ensures forall i :: 0 <= i < |accs| ==>
      reference.speeds[i] + accs[i] * (t - reference.updTime) == speeds[i]
  {
    accs := DifferenceQuotients(speeds, reference.speeds, t - reference.updTime);
    QuotientsInvert(speeds, reference.speeds, t - reference.updTime);
  }

  /** Each quotient, multiplied back by the time step and added to the old value, gives the new value. */
  lemma QuotientsInvert(xs: seq<real>, ys: seq<real>, dt: real)
    requires dt != 0.0
    ensures |Quotients(xs, ys, dt)| == Min(|xs|, |ys|)
    ensures forall i :: 0 <= i < Min(|xs|, |ys|) ==> ys[i] + Quotients(xs, ys, dt)[i] * dt == xs[i]
  {
    forall i | 0 <= i < Min(|xs|, |ys|)
      ensures ys[i] + Quotients(xs, ys, dt)[i] * dt == xs[i]
    {
      DivMulCancel(xs[i] - ys[i], dt);
    }
  }

  lemma DivMulCancel(d: real, dt: real)
    requires dt != 0.0
    ensures (d / dt) * dt == d
  {
  }

  /** The state built from vectors, angles and a time under a derivative rule. */
  function StateOf(vectors: seq<Vec3>, angles: seq<real>, t: real, rule: Derivation): (s: ArticulationState)
    requires rule.Differences? ==> t != rule.reference.updTime
    ensures s.vectors == vectors && s.angles == angles && s.updTime == t
  {
    match rule
    case Zero(n) => ArticulationState(vectors, angles, t, Zeros(n), Zeros(n))
    case Differences(r) =>
      var speeds := Quotients(angles, r.angles, t - r.updTime);
      ArticulationState(vectors, angles, t, speeds, Quotients(speeds, r.speeds, t - r.updTime))
  }

  /**
   * The constructor of a state: vectors, angles and time are stored, then the
   * speeds are derived, then the accelerations from those speeds.
   */
  method MakeState(vectors: seq<Vec3>, angles: seq<real>, t: real, rule: Derivation)
    returns (s: ArticulationState)
    requires rule.Differences? ==> t != rule.reference.updTime
    ensures s == StateOf(vectors, angles, t, rule)
    ensures s.vectors == vectors && s.angles == angles && s.updTime == t
    ensures rule.Zero? ==> s.speeds == Zeros(rule.count) && s.accs == Zeros(rule.count)
    ensures rule.Differences? ==>
      var r := rule.reference;
      s.speeds == Quotients(angles, r.angles, t - r.updTime) &&
      s.accs == Quotients(s.speeds, r.speeds, t - r.updTime)
  {
    match rule
    case Zero(n) =>
      s := ArticulationState(vectors, angles, t, Zeros(n), Zeros(n));
    case Differences(r) =>
      var speeds := GetSpeeds(angles, t, r);
      var accs := GetAccs(speeds, t, r);
      s := ArticulationState(vectors, angles, t, speeds, accs);
  }

  /**
   * Against a first state (whose speeds are zero) the acceleration is the new
   * speed divided once more by the time step: the bootstrapping artefact of the
   * second tick.
   */
  lemma SecondTickAcceleration(angles: seq<real>, t: real, r: ArticulationState)
    requires t != r.updTime
    requires r.speeds == Zeros(|r.angles|)
    ensures var sp := Quotients(angles, r.angles, t - r.updTime);
      forall i :: 0 <= i < |Quotients(sp, r.speeds, t - r.updTime)| ==>
        Quotients(sp, r.speeds, t - r.updTime)[i] == sp[i] / (t - r.updTime)
  {
  }

  /** Every list of a state has one entry per joint. */
  predicate Shaped(s: ArticulationState, n: nat)
  {
    |s.vectors| == n && |s.angles| == n && |s.speeds| == n && |s.accs| == n
  }

  /**
   * A state built from one vector and one angle per joint, against a rule that
   * fits the same joint count, has one speed and one acceleration per joint.
   */
  lemma StateOfShaped(vectors: seq<Vec3>, angles: seq<real>, t: real, rule: Derivation, n: nat)
    requires rule.Differences? ==> t != rule.reference.updTime
    requires |vectors| == n && |angles| == n
    requires rule.Zero? ==> rule.count == n
    requires rule.Differences? ==> Shaped(rule.reference, n)
    ensures Shaped(StateOf(vectors, angles, t, rule), n)
  {
  }

  /** Angles [1.0, 2.0] at time 0 and [1.2, 2.4] at time 0.2 give speeds [1.0, 2.0]. */
  lemma SpeedsExample()
    ensures Quotients([1.2, 2.4], [1.0, 2.0], 0.2 - 0.0) == [1.0, 2.0]
  {
    var q := Quotients([1.2, 2.4], [1.0, 2.0], 0.2);
    assert q[0] == 1.0 && q[1] == 2.0;
  }
}
