/**
 * The `debounce(func, delay)` helper of src/component/SearchBar.tsx: every call clears the
 * pending timer and schedules `func` with the new arguments after `delay`. Time is a
 * sequence of discrete events: a call, or the passing of `dt` milliseconds.
 */
module Debounce {
  import opened Wrappers

  /** The debounced search waits half a second. */
  const SearchDelay: nat := 500

  /** The `timer` variable: nothing pending, or `func(args)` due in `remaining` ms. */
  datatype Timer<A> = Idle | Scheduled(args: A, remaining: nat)

  datatype Event<A> = Call(args: A) | Elapse(dt: nat)

  /** One event; the second component is the call of `func` it triggers, if any. */
  function Step<A>(delay: nat, timer: Timer<A>, e: Event<A>): (r: (Timer<A>, Option<A>))
    ensures e.Call? ==> r == (Scheduled(e.args, delay), None)
    ensures e.Elapse? && timer.Scheduled? && e.dt >= timer.remaining ==> r == (Idle, Some(timer.args))
    ensures r.1.Some? <==> e.Elapse? && timer.Scheduled? && e.dt >= timer.remaining
  {
    match e
    case Call(args) => (Scheduled(args, delay), None)
    case Elapse(dt) =>
      match timer
      case Idle => (Idle, None)
      case Scheduled(args, remaining) =>
        if dt >= remaining then (Idle, Some(args)) else (Scheduled(args, remaining - dt), None)
  }

  /** A run of events: the final timer and the arguments `func` was called with, in order. */
  function Run<A>(delay: nat, timer: Timer<A>, events: seq<Event<A>>): (r: (Timer<A>, seq<A>))
    decreases |events|
  {
    if events == [] then (timer, [])
    else
      var step := Step(delay, timer, events[0]);
      var rest := Run(delay, step.0, events[1..]);
      (rest.0, Fired(step.1) + rest.1)
  }

  function Fired<A>(call: Option<A>): seq<A> {
    if call.Some? then [call.value] else []
  }

  lemma {:induction false} RunConcat<A>(delay: nat, timer: Timer<A>, a: seq<Event<A>>, b: seq<Event<A>>)
    ensures Run(delay, timer, a + b) ==
      (Run(delay, Run(delay, timer, a).0, b).0, Run(delay, timer, a).1 + Run(delay, Run(delay, timer, a).0, b).1)
    decreases |a|
  {
    if a == [] {
      assert a + b == b;
      var none: seq<A> := [];
      assert none + Run(delay, timer, b).1 == Run(delay, timer, b).1;
    } else {
      var step := Step(delay, timer, a[0]);
      assert (a + b)[0] == a[0];
      assert (a + b)[1..] == a[1..] + b;
      RunConcat(delay, step.0, a[1..], b);
      var mid := Run(delay, step.0, a[1..]);
      var tail := Run(delay, mid.0, b);
      assert Run(delay, timer, a + b) == (tail.0, Fired(step.1) + (mid.1 + tail.1));
      assert Run(delay, timer, a) == (mid.0, Fired(step.1) + mid.1);
      assert Fired(step.1) + (mid.1 + tail.1) == (Fired(step.1) + mid.1) + tail.1;
    }
  }

  /** Calls at the given arguments, separated by the given pauses. */
  function Burst<A>(calls: seq<A>, gaps: seq<nat>): seq<Event<A>>
    requires |calls| == |gaps| + 1
    decreases |gaps|
  {
    if gaps == [] then [Call(calls[0])]
    else [Call(calls[0]), Elapse(gaps[0])] + Burst(calls[1..], gaps[1..])
  }

  /** After a burst whose pauses are all shorter than the delay, nothing has run and the last call is pending. */
  lemma {:induction false} BurstSchedulesLast<A>(delay: nat, timer: Timer<A>, calls: seq<A>, gaps: seq<nat>)
    requires |calls| == |gaps| + 1
    requires forall i :: 0 <= i < |gaps| ==> gaps[i] < delay
    ensures Run(delay, timer, Burst(calls, gaps)) == (Scheduled(calls[|calls| - 1], delay), [])
    decreases |gaps|
  {
    if gaps != [] {
      var scheduled := Scheduled(calls[0], delay - gaps[0]);
      var head: seq<Event<A>> := [Call(calls[0]), Elapse(gaps[0])];
      assert Run(delay, timer, head) == (scheduled, []) by {
        var pause: seq<Event<A>> := [Elapse(gaps[0])];
        assert head[1..] == pause;
        assert pause[1..] == [];
        var none: seq<A> := [];
        assert none + none == none;
        assert Run(delay, Scheduled(calls[0], delay), pause) == (scheduled, []);
      }
      assert Burst(calls, gaps) == head + Burst(calls[1..], gaps[1..]);
      RunConcat(delay, timer, head, Burst(calls[1..], gaps[1..]));
      BurstSchedulesLast(delay, scheduled, calls[1..], gaps[1..]);
      var none: seq<A> := [];
      assert none + none == none;
    } else {
      var call: seq<Event<A>> := [Call(calls[0])];
      assert call[1..] == [];
      var none: seq<A> := [];
      assert none + none == none;
    }
  }

  /**
   * Last call wins: of calls spaced less than the delay apart, followed by a pause of the
   * delay, only the last runs, exactly once, with its own arguments.
   */
  lemma LastCallWins<A>(delay: nat, timer: Timer<A>, calls: seq<A>, gaps: seq<nat>)
    requires |calls| == |gaps| + 1
    requires forall i :: 0 <= i < |gaps| ==> gaps[i] < delay
    ensures Run(delay, timer, Burst(calls, gaps) + [Elapse(delay)]) == (Idle, [calls[|calls| - 1]])
  {
    BurstSchedulesLast(delay, timer, calls, gaps);
    RunConcat(delay, timer, Burst(calls, gaps), [Elapse(delay)]);
    var pending: Timer<A> := Scheduled(calls[|calls| - 1], delay);
    var pause: seq<Event<A>> := [Elapse(delay)];
    assert pause[1..] == [];
    assert [calls[|calls| - 1]] + [] == [calls[|calls| - 1]];
    assert [] + [calls[|calls| - 1]] == [calls[|calls| - 1]];
    assert Run(delay, pending, pause) == (Idle, [calls[|calls| - 1]]);
  }

  /** A pause shorter than what remains does not run anything and keeps the same arguments. */
  lemma ShortPauseKeepsWaiting<A>(delay: nat, args: A, remaining: nat, dt: nat)
    requires dt < remaining
    ensures Step(delay, Scheduled(args, remaining), Elapse(dt)) == (Scheduled(args, remaining - dt), None)
  {
  }

  /** The debounced function returned by `debounce`, with its `timer` closure variable. */
  class Debouncer<A> {
    var timer: Timer<A>
    const delay: nat

    constructor (delay: nat)
      ensures timer == Idle && this.delay == delay
    {
      timer := Idle;
      this.delay := delay;
    }

    /** `clearTimeout(timer); timer = setTimeout(() => func(...args), delay)` */
    method Invoke(args: A)
      modifies this`timer
      ensures timer == Scheduled(args, delay)
      ensures (timer, None) == Step(delay, old(timer), Call(args))
    {
      timer := Scheduled(args, delay);
    }

    /** `dt` ms pass; `fired` is the call of `func` the timer makes, if it comes due. */
    method Advance(dt: nat) returns (fired: Option<A>)
      modifies this`timer
      ensures (timer, fired) == Step(delay, old(timer), Elapse(dt))
    {
      if timer.Scheduled? {
        if dt >= timer.remaining {
          fired := Some(timer.args);
          timer := Idle;
        } else {
          fired := None;
          timer := Scheduled(timer.args, timer.remaining - dt);
        }
      } else {
        fired := None;
      }
    }
  }
}
