/**
  The scene transition as an explicit state machine.

  A hotspot click starts a fade-out and schedules three chained timers: after 350 ms the
  scene index is swapped, 50 ms later the overlay starts to fade back, and 350 ms after
  that the transition is over. Each pending timer is a phase; firing it moves to the next.
  Wall-clock time is not modelled, only the order in which the timers fire.
 */
module Transition {

  datatype Phase =
    | Idle
    | FadingOut(target: int)  // the 350 ms timer is pending; it carries the clicked target
    | Switched                // the 50 ms settle timer is pending
    | FadingIn                // the final 350 ms timer is pending

  /** The part of the viewer state the transition reads and writes. */
  datatype Nav = Nav(index: int, phase: Phase)

  datatype Event = Click(target: int) | Timer

  /** The `isTransitioning` flag the viewer keeps alongside the phase. */
  predicate Transitioning(p: Phase)
  {
    !p.Idle?
  }

  /** The overlay is opaque from the click until the settle timer fires. */
  predicate OverlayOpaque(p: Phase)
  {
    p.FadingOut? || p.Switched?
  }

  /** How many timers are still to fire. */
  function Pending(p: Phase): nat
  {
    match p
    case Idle => 0
    case FadingOut(_) => 3
    case Switched => 2
    case FadingIn => 1
  }

  /** A hotspot click: ignored outside multi-scene mode and while a transition runs;
      otherwise the fade-out starts. A click never changes the scene index itself. */
  function ClickHotspot(n: Nav, scenesMode: bool, target: int): (r: Nav)
    ensures r == n <==> !scenesMode || Transitioning(n.phase)
    ensures r != n ==> r == Nav(n.index, FadingOut(target))
  {
    if !scenesMode || Transitioning(n.phase) then n else Nav(n.index, FadingOut(target))
  }

  /** The pending timer fires. Only the first one touches the scene index, and it
      stores the clicked target unclamped; only the last one ends the transition. */
  function Fire(n: Nav): (r: Nav)
    requires Transitioning(n.phase)
    ensures Pending(r.phase) == Pending(n.phase) - 1
    ensures r.index == if n.phase.FadingOut? then n.phase.target else n.index
    ensures Transitioning(r.phase) <==> !n.phase.FadingIn?
  {
    match n.phase
    case FadingOut(t) => Nav(t, Switched)
    case Switched => Nav(n.index, FadingIn)
    case FadingIn => Nav(n.index, Idle)
  }

  /** One event; a timer event with no transition under way has nothing to fire. */
  function Step(n: Nav, scenesMode: bool, e: Event): Nav
  {
    match e
    case Click(t) => ClickHotspot(n, scenesMode, t)
    case Timer => if Transitioning(n.phase) then Fire(n) else n
  }

  function Run(n: Nav, scenesMode: bool, es: seq<Event>): Nav
    decreases |es|
  {
    if es == [] then n else Run(Step(n, scenesMode, es[0]), scenesMode, es[1..])
  }

  /** The number of timer events in `es`. */
  function Timers(es: seq<Event>): nat
    decreases |es|
  {
    if es == [] then 0 else (if es[0].Timer? then 1 else 0) + Timers(es[1..])
  }

  /** `k` timers firing in a row. */
  function FireN(n: Nav, k: nat): Nav
    requires k <= Pending(n.phase)
    decreases k
  {
    if k == 0 then n else FireN(Fire(n), k - 1)
  }

  lemma {:induction false} TimersAppend(a: seq<Event>, b: seq<Event>)
    decreases |a|
    ensures Timers(a + b) == Timers(a) + Timers(b)
  {
    if a == [] {
      assert a + b == b;
    } else {
      assert (a + b)[0] == a[0];
      assert (a + b)[1..] == a[1..] + b;
      TimersAppend(a[1..], b);
    }
  }

  lemma {:induction false} RunAppend(n: Nav, scenesMode: bool, a: seq<Event>, b: seq<Event>)
    decreases |a|
    ensures Run(n, scenesMode, a + b) == Run(Run(n, scenesMode, a), scenesMode, b)
  {
    if a == [] {
      assert a + b == b;
    } else {
      assert (a + b)[0] == a[0];
      assert (a + b)[1..] == a[1..] + b;
      RunAppend(Step(n, scenesMode, a[0]), scenesMode, a[1..], b);
    }
  }

  /** At most one transition in flight: while timers are pending, clicks are dropped
      and only the timers move the machine. */
  lemma {:induction false} BusyIgnoresClicks(n: Nav, scenesMode: bool, es: seq<Event>)
    requires Timers(es) < Pending(n.phase)
    decreases |es|
    ensures Run(n, scenesMode, es) == FireN(n, Timers(es))
  {
    if es != [] {
      if es[0].Timer? {
        BusyIgnoresClicks(Fire(n), scenesMode, es[1..]);
      } else {
        BusyIgnoresClicks(n, scenesMode, es[1..]);
      }
    }
  }

  /** From the click accepted with target `t`, through any events that hold fewer than
      three timers: the flag stays raised, and the index is the old one until the first
      timer and `t` from then on. */
  lemma InFlight(i: int, t: int, scenesMode: bool, es: seq<Event>)
    requires Timers(es) < 3
    ensures var r := Run(Nav(i, FadingOut(t)), scenesMode, es);
      Transitioning(r.phase) && r.index == (if Timers(es) == 0 then i else t)
  {
    BusyIgnoresClicks(Nav(i, FadingOut(t)), scenesMode, es);
    var k := Timers(es);
    if k == 1 {
      assert FireN(Nav(i, FadingOut(t)), 1) == FireN(Nav(t, Switched), 0);
    } else if k == 2 {
      assert FireN(Nav(i, FadingOut(t)), 2) == FireN(Nav(t, FadingIn), 0);
    }
  }

  /** A transition started from rest in multi-scene mode ends at rest on the clicked
      target once its third timer fires, whatever clicks arrive in between. */
  lemma TransitionCompletes(n: Nav, t: int, es: seq<Event>)
    requires n.phase.Idle?
    requires Timers(es) == 2
    ensures Run(n, true, [Click(t)] + es + [Timer]) == Nav(t, Idle)
  {
    RunAppend(n, true, [Click(t)], es + [Timer]);
    assert [Click(t)] + es + [Timer] == [Click(t)] + (es + [Timer]);
    assert Run(n, true, [Click(t)]) == Nav(n.index, FadingOut(t));
    RunAppend(Nav(n.index, FadingOut(t)), true, es, [Timer]);
    InFlight(n.index, t, true, es);
    BusyIgnoresClicks(Nav(n.index, FadingOut(t)), true, es);
  }

  /** One uninterrupted visit: a click on a hotspot leading to `t`, then its three timers. */
  function Visit(t: int): seq<Event>
  {
    [Click(t), Timer, Timer, Timer]
  }

  /** An uninterrupted visit from rest ends at rest on its target. */
  lemma VisitFromRest(n: Nav, t: int)
    requires n.phase.Idle?
    ensures Run(n, true, Visit(t)) == Nav(t, Idle)
  {
    var es := Visit(t);
    assert Run(Nav(t, FadingIn), true, es[3..]) == Nav(t, Idle);
    assert Run(Nav(t, Switched), true, es[2..]) == Nav(t, Idle);
    assert Run(Nav(n.index, FadingOut(t)), true, es[1..]) == Nav(t, Idle);
  }

  /** `k` round trips over a cycle of two scenes: to `a` and back to `b`. */
  function RoundTrips(a: int, b: int, k: nat): seq<Event>
  {
    if k == 0 then [] else RoundTrips(a, b, k - 1) + Visit(a) + Visit(b)
  }

  /** Going around a cycle any number of times leaves the machine at rest on the last
      target, with nothing left over from earlier trips. */
  lemma {:induction false} RoundTripsEndAtRest(n: Nav, a: int, b: int, k: nat)
    requires n.phase.Idle?
    ensures Run(n, true, RoundTrips(a, b, k)) == if k == 0 then n else Nav(b, Idle)
  {
    if k > 0 {
      RoundTripsEndAtRest(n, a, b, k - 1);
      var before := Run(n, true, RoundTrips(a, b, k - 1));
      RunAppend(n, true, RoundTrips(a, b, k - 1) + Visit(a), Visit(b));
      RunAppend(n, true, RoundTrips(a, b, k - 1), Visit(a));
      VisitFromRest(before, a);
      VisitFromRest(Nav(a, Idle), b);
    }
  }

  /** Uninterrupted visits to the targets `ts`, one after the other. */
  function Visits(ts: seq<int>): seq<Event>
    decreases |ts|
  {
    if ts == [] then [] else Visits(ts[..|ts| - 1]) + Visit(ts[|ts| - 1])
  }

  /** Any walk over the scene graph, cycles of any length included, repeated any number
      of times, leaves the machine at rest on the last target. */
  lemma {:induction false} VisitsEndAtRest(n: Nav, ts: seq<int>)
    requires n.phase.Idle? && ts != []
    decreases |ts|
    ensures Run(n, true, Visits(ts)) == Nav(ts[|ts| - 1], Idle)
  {
    var init, last := ts[..|ts| - 1], ts[|ts| - 1];
    RunAppend(n, true, Visits(init), Visit(last));
    if init == [] {
      assert Visits(init) == [];
      VisitFromRest(n, last);
    } else {
      VisitsEndAtRest(n, init);
      VisitFromRest(Nav(init[|init| - 1], Idle), last);
    }
  }
}
