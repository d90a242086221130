/** The limiter inside the whole system: every run of the services is a run of the gate. */
module Traffic {
  import opened Domain
  import opened RateLimiter
  import WB = WindowBound
  import opened Protocol
  import opened Frames
  import opened Invariants

  /** Requests that passed the check and are not yet in the usage log. */
  function InFlight(s: State): nat {
    |s.pipe.approved| + |s.pipe.trafficInbox|
  }

  function Project(s: State): WB.Gate {
    WB.Gate(s.lim, InFlight(s))
  }

  /** A run in which never more than `bound` requests are in flight. */
  ghost predicate Within(limit: int, bound: nat, start: int, steps: seq<Step>) {
    forall k :: 0 <= k <= |steps| ==>
      Run(limit, Init(start), steps[..k]).Some? && InFlight(Run(limit, Init(start), steps[..k]).value) <= bound
  }

  function GateStepOf(limit: int, s: State, step: Step): WB.GateStep {
    match step
    case Tick(d) => WB.Tick(d)
    case Moving(SScheduleCheck(_)) => if Limited(limit, s.lim) then WB.Other else WB.Approve
    case Moving(SJobCheck(_)) => if Limited(limit, s.lim) then WB.Other else WB.Approve
    case Moving(SLogUsage(_, id)) => WB.LogOne(id)
    case _ => WB.Other
  }

  lemma JudgeProjects(limit: int, s: State, t: Token)
    ensures Judge(limit, s, t).lim == s.lim
    ensures InFlight(Judge(limit, s, t)) == InFlight(s) + if Limited(limit, s.lim) then 0 else 1
  {
  }

  lemma EmitFetchProjects(s: State, t: Token)
    requires t in s.pipe.approved
    ensures Project(EmitFetch(s, t)) == Project(s)
  {
  }

  lemma LogUsageProjects(s: State, t: Token, id: Uuid)
    requires t in s.pipe.trafficInbox
    ensures InFlight(s) > 0 && Project(LogUsage(s, t, id)) == WB.Gate(Log(s.lim, id), InFlight(s) - 1)
  {
  }

  /** A check at the scheduler or at the worker. */
  lemma CheckProjects(limit: int, bound: nat, s: State, m: MoveStep)
    requires CanMove(s, m) && (m.SScheduleCheck? || m.SJobCheck?) && InFlight(AfterMove(limit, s, m)) <= bound
    ensures WB.Can(limit, bound, Project(s), GateStepOf(limit, s, Moving(m)))
    ensures Project(AfterMove(limit, s, m)) == WB.Next(Project(s), GateStepOf(limit, s, Moving(m)))
  {
    if m.SScheduleCheck? {
      JudgeProjects(limit, s.(pipe := s.pipe.(scheduleInbox := s.pipe.scheduleInbox - multiset{m.t})), m.t);
    } else {
      JudgeProjects(limit, s.(pipe := s.pipe.(delayed := RemoveAt(s.pipe.delayed, m.i))), s.pipe.delayed[m.i].token);
    }
  }

  /** Moves that neither approve nor log. */
  lemma QuietProjects(limit: int, s: State, m: MoveStep)
    requires CanMove(s, m) && !m.SScheduleCheck? && !m.SJobCheck? && !m.SLogUsage?
    ensures Project(AfterMove(limit, s, m)) == Project(s)
  {
    match m {
      case SDefer(t) => assert AfterMove(limit, s, m) == Defer(s, t);
      case SEmitFetch(t) => EmitFetchProjects(s, t); assert AfterMove(limit, s, m) == EmitFetch(s, t);
      case SConnectorRead(t) => assert AfterMove(limit, s, m) == ConnectorRead(s, t);
      case SConnectorFetch(t, data) => assert AfterMove(limit, s, m) == ConnectorFetch(s, t, data);
    }
  }

  /** A usage is logged. */
  lemma LogProjects(limit: int, bound: nat, s: State, m: MoveStep)
    requires CanMove(s, m) && m.SLogUsage?
    ensures WB.Can(limit, bound, Project(s), GateStepOf(limit, s, Moving(m)))
    ensures Project(AfterMove(limit, s, m)) == WB.Next(Project(s), GateStepOf(limit, s, Moving(m)))
  {
    assert AfterMove(limit, s, m) == LogUsage(s, m.t, m.usageId);
    LogUsageProjects(s, m.t, m.usageId);
  }

  lemma MoveProjects(limit: int, bound: nat, s: State, m: MoveStep)
    requires CanMove(s, m) && InFlight(AfterMove(limit, s, m)) <= bound
    ensures WB.Can(limit, bound, Project(s), GateStepOf(limit, s, Moving(m)))
    ensures Project(AfterMove(limit, s, m)) == WB.Next(Project(s), GateStepOf(limit, s, Moving(m)))
  {
    if m.SScheduleCheck? || m.SJobCheck? {
      CheckProjects(limit, bound, s, m);
    } else if m.SLogUsage? {
      LogProjects(limit, bound, s, m);
    } else {
      QuietProjects(limit, s, m);
    }
  }

  lemma CreateKeepsInFlight(s: State, c: CreateStep)
    requires CanCreate(s, c)
    ensures Project(AfterCreate(s, c)) == Project(s)
  {
    match c {
      case SCreateStart(_, _, _) =>
      case SCreateRead(_, _) =>
      case SCreateDecide(_) =>
      case SCreateSaveRows(_) =>
      case SCreateEmit(_) =>
    }
  }

  lemma StepProjects(limit: int, bound: nat, s: State, step: Step)
    requires Enabled(s, step) && InFlight(Next(limit, s, step)) <= bound
    ensures WB.Can(limit, bound, Project(s), GateStepOf(limit, s, step))
    ensures Project(Next(limit, s, step)) == WB.Next(Project(s), GateStepOf(limit, s, step))
  {
    match step {
      case Tick(_) =>
      case Creating(c) => CreateKeepsInFlight(s, c);
      case Moving(m) => MoveProjects(limit, bound, s, m);
      case Caching(_) =>
      case Handling(h) => HandleFrame(s, h);
    }
  }

  lemma {:induction false} RunProjects(limit: int, bound: nat, start: int, steps: seq<Step>)
      returns (gsteps: seq<WB.GateStep>)
    requires Within(limit, bound, start, steps)
    ensures Run(limit, Init(start), steps).Some?
    ensures WB.After(limit, bound, WB.Open(start), gsteps) == Some(Project(Run(limit, Init(start), steps).value))
  {
    assert steps[..|steps|] == steps;
    if steps == [] {
      gsteps := [];
    } else {
      var n := |steps| - 1;
      forall k | 0 <= k <= n ensures steps[..n][..k] == steps[..k] {
      }
      var before := RunProjects(limit, bound, start, steps[..n]);
      var s := Run(limit, Init(start), steps[..n]).value;
      StepProjects(limit, bound, s, steps[n]);
      WB.Extend(limit, bound, WB.Open(start), before, GateStepOf(limit, s, steps[n]));
      gsteps := before + [GateStepOf(limit, s, steps[n])];
    }
  }

  // ----- the usages, read off the steps of the run -----

  /** The time after a run of `steps` from time `start`. */
  function ClockAfter(start: int, steps: seq<Step>): int {
    if steps == [] then start
    else
      var step := steps[|steps| - 1];
      ClockAfter(start, steps[..|steps| - 1]) + if step.Tick? then step.d else 0
  }

  /** One usage for each FETCH that the traffic controller handles in the run, at the time when it does. */
  function UsagesIn(start: int, steps: seq<Step>): seq<Usage> {
    if steps == [] then []
    else
      var before, step := steps[..|steps| - 1], steps[|steps| - 1];
      UsagesIn(start, before) + if step.Moving? && step.move.SLogUsage?
                                then [Usage(step.move.usageId, ClockAfter(start, before))] else []
  }

  lemma StepLogs(limit: int, s: State, step: Step)
    requires Enabled(s, step)
    ensures var l' := Next(limit, s, step).lim;
            && l'.clock == s.lim.clock + (if step.Tick? then step.d else 0)
            && l'.history == s.lim.history + if step.Moving? && step.move.SLogUsage?
                                             then [Usage(step.move.usageId, s.lim.clock)] else []
  {
    StepProjects(limit, InFlight(Next(limit, s, step)), s, step);
  }

  /** The clock and the usages that the limiter works with are those of the run. */
  lemma {:induction false} UsagesAreSteps(limit: int, start: int, steps: seq<Step>)
    requires Run(limit, Init(start), steps).Some?
    ensures var l := Run(limit, Init(start), steps).value.lim;
            l.clock == ClockAfter(start, steps) && l.history == UsagesIn(start, steps)
  {
    if steps != [] {
      var n := |steps| - 1;
      UsagesAreSteps(limit, start, steps[..n]);
      StepLogs(limit, Run(limit, Init(start), steps[..n]).value, steps[n]);
    }
  }

  /** The window bound over whole runs: if never more than `bound` requests are approved but not yet
      logged, then no window of one day, wherever it ends, holds more than limit + bound - 1 usages. */
  lemma UsageBounded(limit: int, bound: nat, start: int, steps: seq<Step>, t: int)
    requires limit >= 1 && bound >= 1 && Within(limit, bound, start, steps)
    ensures Run(limit, Init(start), steps).Some?
    ensures CountIn(Run(limit, Init(start), steps).value.lim.history, t - 24 * 60 * 60 * 1000, t) <= limit + bound - 1
    ensures CountIn(UsagesIn(start, steps), t - 24 * 60 * 60 * 1000, t) <= limit + bound - 1
  {
    var gsteps := RunProjects(limit, bound, start, steps);
    UsagesAreSteps(limit, start, steps);
    WB.EveryWindowBounded(limit, bound, start, gsteps, t);
  }

  /** In every reachable state the key that Redis shows is exactly the history's last window, counted from
      the last usage, and gone once a window has passed; it never under-counts the true sliding window. */
  lemma LimiterRefinesHistory(limit: int, s: State)
    requires Reachable(limit, s)
    ensures var h, day := s.lim.history, 24 * 60 * 60 * 1000;
            && Alive(s.lim.store, s.lim.clock).entries
               == (if h != [] && s.lim.clock < LastLog(h) + day then LoggedAfter(h, LastLog(h) - day) else map[])
            && CountIn(h, s.lim.clock - day, s.lim.clock) <= UsageCount(s.lim)
            && (!Limited(limit, s.lim) ==> CountIn(h, s.lim.clock - day, s.lim.clock) < limit)
  {
    ReachableLimiter(limit, s);
    NeverUnderCounts(s.lim);
  }
}
