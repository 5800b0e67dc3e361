/** From steps to runs: every run of an implementation is a behaviour of the barrier specification. */
module Refinement {
  import opened FairRuns
  import opened BarrierSpec

  /** The abstract states that a run goes through. */
  ghost function Trace<S, L, A>(step: (S, L) -> S, abs: S -> Abstract<A>, s: S, schedule: seq<L>): (t: seq<Abstract<A>>)
    ensures |t| == |schedule| + 1
    decreases |schedule|
  {
    [abs(s)] + if schedule == [] then [] else Trace(step, abs, step(s, schedule[0]), schedule[1..])
  }

  function Movers<L, A>(who: L -> A, schedule: seq<L>): seq<A> {
    seq(|schedule|, k requires 0 <= k < |schedule| => who(schedule[k]))
  }

  lemma {:induction false} TraceEnds<S, L, A>(step: (S, L) -> S, abs: S -> Abstract<A>, s: S, schedule: seq<L>)
    ensures Trace(step, abs, s, schedule)[0] == abs(s)
    ensures Trace(step, abs, s, schedule)[|schedule|] == abs(Run(step, s, schedule))
    decreases |schedule|
  {
    if schedule != [] {
      TraceEnds(step, abs, step(s, schedule[0]), schedule[1..]);
    }
  }

  lemma {:induction false} TraceSteps<S(!new), L(!new), A>(
    step: (S, L) -> S, who: L -> A, inv: S -> bool, abs: S -> Abstract<A>, s: S, schedule: seq<L>, k: nat)
    requires inv(s) && k < |schedule|
    requires forall t: S, l: L {:trigger step(t, l)} ::
      inv(t) ==> inv(step(t, l)) && Next(abs(t), abs(step(t, l)), who(l))
    ensures var trace := Trace(step, abs, s, schedule); Next(trace[k], trace[k + 1], who(schedule[k]))
    decreases |schedule|
  {
    var t, rest := step(s, schedule[0]), schedule[1..];
    TraceEnds(step, abs, t, rest);
    if k > 0 {
      TraceSteps(step, who, inv, abs, t, rest, k - 1);
    }
  }

  /** An initial state that abstracts to an initial state, and steps that abstract to steps, make behaviours. */
  lemma RunRefines<S(!new), L(!new), A>(
    step: (S, L) -> S, who: L -> A, inv: S -> bool, abs: S -> Abstract<A>, s: S, schedule: seq<L>)
    requires inv(s) && Init(abs(s))
    requires forall t: S, l: L {:trigger step(t, l)} ::
      inv(t) ==> inv(step(t, l)) && Next(abs(t), abs(step(t, l)), who(l))
    ensures inv(Run(step, s, schedule)) && Safe(abs(Run(step, s, schedule)))
    ensures Behaviour(Trace(step, abs, s, schedule), Movers(who, schedule))
    ensures Trace(step, abs, s, schedule)[|schedule|] == abs(Run(step, s, schedule))
  {
    var trace, movers := Trace(step, abs, s, schedule), Movers(who, schedule);
    TraceEnds(step, abs, s, schedule);
    forall k | 0 <= k < |movers| ensures Next(trace[k], trace[k + 1], movers[k]) {
      TraceSteps(step, who, inv, abs, s, schedule, k);
    }
    BehaviourSafe(trace, movers, |movers|);
    RunKeeps(step, inv, s, schedule);
  }
}
