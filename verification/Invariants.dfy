/** Everything above holds together in every reachable state. */
module Invariants {
  import opened Domain
  import opened RateLimiter
  import opened Protocol
  import opened Frames
  import opened Conservation
  import opened References
  import opened Handlers
  import opened Presence
  import opened Completion
  import opened Announcements
  import opened Provenance

  ghost predicate Safe(s: State) {
    && Conserved(s) && Referenced(s) && HandlersInv(s) && PresenceInv(s)
    && CompletionInv(s) && AnnouncedInv(s) && ProvenanceInv(s)
    && Refines(s.lim)
  }

  lemma InitIsSafe(start: int)
    ensures Safe(Init(start))
  {
  }

  lemma MoveKeepsLimiter(limit: int, s: State, m: MoveStep)
    requires Refines(s.lim) && CanMove(s, m)
    ensures Refines(AfterMove(limit, s, m).lim)
  {
    match m {
      case SLogUsage(_, id) => LogRefines(s.lim, id);
      case SScheduleCheck(_) =>
      case SJobCheck(_) =>
      case SDefer(_) =>
      case SEmitFetch(_) =>
      case SConnectorRead(_) =>
      case SConnectorFetch(_, _) =>
    }
  }

  lemma StepKeepsLimiter(limit: int, s: State, step: Step)
    requires Refines(s.lim) && Enabled(s, step)
    ensures Refines(Next(limit, s, step).lim)
  {
    match step {
      case Tick(d) => AdvanceRefines(s.lim, d);
      case Creating(c) => CreateLeavesLimiter(s, c);
      case Moving(m) => MoveKeepsLimiter(limit, s, m);
      case Caching(_) =>
      case Handling(h) => HandleFrame(s, h);
    }
  }

  lemma StepKeepsSafe(limit: int, s: State, step: Step)
    requires Safe(s) && Enabled(s, step)
    ensures Safe(Next(limit, s, step))
  {
    StepConserves(limit, s, step);
    StepKeepsReferences(limit, s, step);
    StepKeepsHandlers(limit, s, step);
    StepKeepsPresence(limit, s, step);
    StepKeepsCompletion(limit, s, step);
    StepKeepsAnnounced(limit, s, step);
    StepKeepsProvenance(limit, s, step);
    StepKeepsLimiter(limit, s, step);
  }

  lemma {:induction false} RunKeepsSafe(limit: int, s: State, steps: seq<Step>)
    requires Safe(s) && Run(limit, s, steps).Some?
    ensures Safe(Run(limit, s, steps).value)
  {
    if steps != [] {
      var before := steps[..|steps| - 1];
      RunKeepsSafe(limit, s, before);
      StepKeepsSafe(limit, Run(limit, s, before).value, steps[|steps| - 1]);
    }
  }

  lemma ReachableIsSafe(limit: int, s: State)
    requires Reachable(limit, s)
    ensures Safe(s)
  {
    var start, steps :| Run(limit, Init(start), steps) == Some(s);
    InitIsSafe(start);
    RunKeepsSafe(limit, Init(start), steps);
  }

  lemma RunKeepsBalance(limit: int, s: State, steps: seq<Step>)
    requires Safe(s) && Run(limit, s, steps).Some?
    ensures Conserved(Run(limit, s, steps).value) && Referenced(Run(limit, s, steps).value)
  {
    RunKeepsSafe(limit, s, steps);
  }

  lemma RunKeepsTables(limit: int, start: int, steps: seq<Step>)
    requires Run(limit, Init(start), steps).Some?
    ensures var s := Run(limit, Init(start), steps).value; Conserved(s) && Referenced(s) && HandlersInv(s)
  {
    InitIsSafe(start);
    RunKeepsSafe(limit, Init(start), steps);
  }

  /** The parts of `Safe` that most results need, without the rest. */
  lemma ReachableTables(limit: int, s: State)
    requires Reachable(limit, s)
    ensures Conserved(s) && Referenced(s) && HandlersInv(s)
  {
    ReachableIsSafe(limit, s);
  }

  lemma ReachableLimiter(limit: int, s: State)
    requires Reachable(limit, s)
    ensures Refines(s.lim)
  {
    ReachableIsSafe(limit, s);
  }
}
