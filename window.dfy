/**
 * The trailing-window history. Before a new state is appended, the history is
 * cut to start at its first entry that lies inside the window around the new
 * state's time. The recorded-data tracker compares strictly, the offline graph
 * script inclusively. If no entry lies inside, nothing is dropped.
 */
module Window {
  import opened Kinematics

  /** Whether the age comparison with the window is `<` or `<=`. */
  datatype Bound = Strict | Inclusive

  predicate Inside(t: real, e: ArticulationState, window: real, bound: Bound)
  {
    match bound
    case Strict => t - e.updTime < window
    case Inclusive => t - e.updTime <= window
  }

  /** Index of the first entry inside the window, or |h| when there is none. */
  function FirstInside(h: seq<ArticulationState>, t: real, window: real, bound: Bound): (k: nat)
    ensures k <= |h|
    ensures forall j :: 0 <= j < k ==> !Inside(t, h[j], window, bound)
    ensures k < |h| ==> Inside(t, h[k], window, bound)
  {
    if h == [] then 0
    else if Inside(t, h[0], window, bound) then 0
    else 1 + FirstInside(h[1..], t, window, bound)
  }

  /** The newest entry of a history. */
  function Last<T>(s: seq<T>): (e: T)
    requires |s| > 0
  {
    s[|s| - 1]
  }

  /** The history as the scan-and-slice loop leaves it. */
  function Retained(h: seq<ArticulationState>, t: real, window: real, bound: Bound): (r: seq<ArticulationState>)
  {
    var k := FirstInside(h, t, window, bound);
    if k < |h| then h[k..] else h
  }

  /** The history after a new state is pushed. */
  function Pushed(h: seq<ArticulationState>, s: ArticulationState, window: real, bound: Bound): (p: seq<ArticulationState>)
    ensures |p| > 0 && Last(p) == s
  {
    Retained(h, s.updTime, window, bound) + [s]
  }

  /** The scan of the history: the first entry inside the window ends it and the slice starts there. */
  method RetainWithin(h: seq<ArticulationState>, t: real, window: real, bound: Bound)
    returns (kept: seq<ArticulationState>)
    ensures kept == Retained(h, t, window, bound)
  {
    kept := h;
    var n := 0;
    while n < |h|
      invariant 0 <= n <= |h|
      invariant forall j :: 0 <= j < n ==> !Inside(t, h[j], window, bound)
    {
      var inside := match bound
        case Strict => t - h[n].updTime < window
        case Inclusive => t - h[n].updTime <= window;
      if inside {
        kept := h[n..];
        assert FirstInside(h, t, window, bound) == n by {
          FirstInsideIs(h, t, window, bound, n);
        }
        return;
      }
      n := n + 1;
    }
    assert FirstInside(h, t, window, bound) == |h| by {
      FirstInsideIs(h, t, window, bound, |h|);
    }
  }

  /** The index is pinned down by: nothing before it is inside, and it is inside or the end. */
  lemma FirstInsideIs(h: seq<ArticulationState>, t: real, window: real, bound: Bound, n: nat)
    requires n <= |h|
    requires forall j :: 0 <= j < n ==> !Inside(t, h[j], window, bound)
    requires n < |h| ==> Inside(t, h[n], window, bound)
    ensures FirstInside(h, t, window, bound) == n
  {
  }

  /**
   * What the prune keeps: a suffix of the history, every dropped entry lies
   * outside the window, and the kept part begins inside the window unless no
   * entry qualifies, in which case everything is kept.
   */
  lemma RetainedIsSuffix(h: seq<ArticulationState>, t: real, window: real, bound: Bound)
    ensures var r := Retained(h, t, window, bound);
      |r| <= |h| && r == h[|h| - |r|..]
    ensures var r := Retained(h, t, window, bound);
      forall j :: 0 <= j < |h| - |r| ==> !Inside(t, h[j], window, bound)
    ensures (exists j :: 0 <= j < |h| && Inside(t, h[j], window, bound)) ==>
      Inside(t, Retained(h, t, window, bound)[0], window, bound)
    ensures (forall j :: 0 <= j < |h| ==> !Inside(t, h[j], window, bound)) ==>
      Retained(h, t, window, bound) == h
  {
    var k := FirstInside(h, t, window, bound);
    if exists j :: 0 <= j < |h| && Inside(t, h[j], window, bound) {
      var j :| 0 <= j < |h| && Inside(t, h[j], window, bound);
      assert k <= j;
    }
  }

  /** Every entry after a push is the new state or an entry of the old history. */
  lemma PushedFrom(h: seq<ArticulationState>, s: ArticulationState, window: real, bound: Bound)
    ensures forall e :: e in Pushed(h, s, window, bound) ==> e == s || e in h
  {
    RetainedIsSuffix(h, s.updTime, window, bound);
    var r := Retained(h, s.updTime, window, bound);
    forall e | e in r
      ensures e in h
    {
      var i :| 0 <= i < |r| && r[i] == e;
      assert h[|h| - |r| + i] == e;
    }
  }

  /** Pushing a state of n joints onto a history of n-joint states keeps every entry of n joints. */
  lemma PushedKeepsShape(h: seq<ArticulationState>, s: ArticulationState, window: real, bound: Bound, n: nat)
    requires forall e :: e in h ==> Shaped(e, n)
    requires Shaped(s, n)
    ensures forall e :: e in Pushed(h, s, window, bound) ==> Shaped(e, n)
  {
    PushedFrom(h, s, window, bound);
  }

  predicate NonDecreasing(h: seq<ArticulationState>)
  {
    forall i, j :: 0 <= i < j < |h| ==> h[i].updTime <= h[j].updTime
  }

  /**
   * On a history in time order, once some entry lies inside the window every
   * entry kept does: the window invariant of the history.
   */
  lemma RetainedAllInside(h: seq<ArticulationState>, t: real, window: real, bound: Bound)
    requires NonDecreasing(h)
    requires exists j :: 0 <= j < |h| && Inside(t, h[j], window, bound)
    ensures forall e :: e in Retained(h, t, window, bound) ==> Inside(t, e, window, bound)
  {
    var k := FirstInside(h, t, window, bound);
    var j :| 0 <= j < |h| && Inside(t, h[j], window, bound);
    assert k <= j;
    var r := h[k..];
    assert Retained(h, t, window, bound) == r;
    forall e | e in r
      ensures Inside(t, e, window, bound)
    {
      var i :| 0 <= i < |r| && r[i] == e;
      assert h[k + i] == e;
      if i > 0 {
        assert h[k].updTime <= h[k + i].updTime;
      }
      InsideNewer(t, h[k], e, window, bound);
    }
  }

  /** An entry no older than one inside the window is inside it too. */
  lemma InsideNewer(t: real, a: ArticulationState, b: ArticulationState, window: real, bound: Bound)
    requires Inside(t, a, window, bound) && a.updTime <= b.updTime
    ensures Inside(t, b, window, bound)
  {
  }

  /** Pushing a state no older than the history keeps it in time order, with the new state last. */
  lemma PushedOrdered(h: seq<ArticulationState>, s: ArticulationState, window: real, bound: Bound)
    requires NonDecreasing(h)
    requires forall e :: e in h ==> e.updTime <= s.updTime
    ensures var p := Pushed(h, s, window, bound);
      NonDecreasing(p) && |p| >= 1 && p[|p| - 1] == s
  {
    var r := Retained(h, s.updTime, window, bound);
    var k := FirstInside(h, s.updTime, window, bound);
    var d := if k < |h| then k else 0;
    assert r == h[d..];
    SuffixOrdered(h, d);
    forall e | e in r
      ensures e.updTime <= s.updTime
    {
      var i :| 0 <= i < |r| && r[i] == e;
      assert h[d + i] == e;
    }
    AppendOrdered(r, s);
  }

  lemma SuffixOrdered(h: seq<ArticulationState>, d: nat)
    requires NonDecreasing(h) && d <= |h|
    ensures NonDecreasing(h[d..])
  {
    var r := h[d..];
    forall i, j | 0 <= i < j < |r|
      ensures r[i].updTime <= r[j].updTime
    {
      assert r[i] == h[d + i] && r[j] == h[d + j];
    }
  }

  lemma AppendOrdered(r: seq<ArticulationState>, s: ArticulationState)
    requires NonDecreasing(r)
    requires forall e :: e in r ==> e.updTime <= s.updTime
    ensures NonDecreasing(r + [s])
  {
    var p := r + [s];
    forall i, j | 0 <= i < j < |p|
      ensures p[i].updTime <= p[j].updTime
    {
      assert p[i] == r[i];
      if j == |r| {
        assert r[i] in r;
      }
    }
  }

  /**
   * After a push onto a history in time order, with a positive window, every
   * entry lies inside the window around the newest one, unless the whole old
   * history had fallen out of it (then it is kept in full).
   */
  lemma PushedAllInside(h: seq<ArticulationState>, s: ArticulationState, window: real, bound: Bound)
    requires NonDecreasing(h)
    requires window > 0.0
    requires h == [] || exists j :: 0 <= j < |h| && Inside(s.updTime, h[j], window, bound)
    ensures forall e :: e in Pushed(h, s, window, bound) ==> Inside(s.updTime, e, window, bound)
  {
    if h != [] {
      RetainedAllInside(h, s.updTime, window, bound);
    }
    var p := Pushed(h, s, window, bound);
    var r := Retained(h, s.updTime, window, bound);
    assert p == r + [s];
    forall e | e in p
      ensures Inside(s.updTime, e, window, bound)
    {
      if e != s {
        assert e in r;
      }
    }
  }

  /**
   * With a window of 0.5 and states pushed at times 0, 0.2, 0.4 and 0.6, the push
   * at 0.6 evicts the state at 0 and keeps those at 0.2, 0.4 and 0.6.
   */
  lemma EvictionExample(s0: ArticulationState, s2: ArticulationState, s4: ArticulationState, s6: ArticulationState)
    requires s0.updTime == 0.0 && s2.updTime == 0.2 && s4.updTime == 0.4 && s6.updTime == 0.6
    ensures Pushed(Pushed(Pushed(Pushed([], s0, 0.5, Strict), s2, 0.5, Strict), s4, 0.5, Strict), s6, 0.5, Strict)
      == [s2, s4, s6]
  {
    assert Pushed([], s0, 0.5, Strict) == [s0];
    assert FirstInside([s0], 0.2, 0.5, Strict) == 0;
    assert Pushed([s0], s2, 0.5, Strict) == [s0, s2];
    assert FirstInside([s0, s2], 0.4, 0.5, Strict) == 0;
    assert Pushed([s0, s2], s4, 0.5, Strict) == [s0, s2, s4];
    assert [s0, s2, s4][1..] == [s2, s4];
    assert FirstInside([s0, s2, s4], 0.6, 0.5, Strict) == 1;
    assert Pushed([s0, s2, s4], s6, 0.5, Strict) == [s2, s4, s6];
  }
}
