/** The gate leaves nothing out: every run of it is the projection of a run of the services. */
module Realization {
  import opened Domain
  import opened RateLimiter
  import WB = WindowBound
  import opened Cache
  import opened Planner
  import opened Protocol
  import opened Frames
  import opened Atomic
  import opened Order
  import opened Traffic

  // ----- fresh uuids -----

  lemma {:induction false} LongestName(pool: set<Uuid>) returns (n: nat)
    ensures forall id :: id in pool ==> |id| <= n
  {
    if pool == {} {
      n := 0;
    } else {
      var id :| id in pool;
      var rest := LongestName(pool - {id});
      n := if rest < |id| then |id| else rest;
    }
  }

  /** There is always another uuid. */
  lemma FreshUuid(pool: set<Uuid>) returns (id: Uuid)
    ensures id !in pool && id != ""
  {
    var n := LongestName(pool);
    id := WB.Name(n + 1);
  }

  // ----- extending a bounded run -----

  /** From `s`, `steps` can be taken with never more than `bound` requests in flight. */
  ghost predicate StaysWithin(limit: int, bound: nat, s: State, steps: seq<Step>) {
    forall k :: 0 <= k <= |steps| ==> WithinAt(limit, bound, s, steps, k)
  }

  ghost predicate WithinAt(limit: int, bound: nat, s: State, steps: seq<Step>, k: nat)
    requires k <= |steps|
  {
    Run(limit, s, steps[..k]).Some? && InFlight(Run(limit, s, steps[..k]).value) <= bound
  }

  lemma WithinMore(limit: int, bound: nat, start: int, a: seq<Step>, b: seq<Step>)
    requires Within(limit, bound, start, a) && Run(limit, Init(start), a).Some?
    requires StaysWithin(limit, bound, Run(limit, Init(start), a).value, b)
    ensures Within(limit, bound, start, a + b)
  {
    forall k | 0 <= k <= |a + b|
      ensures Run(limit, Init(start), (a + b)[..k]).Some?
      ensures InFlight(Run(limit, Init(start), (a + b)[..k]).value) <= bound
    {
      if k <= |a| {
        assert (a + b)[..k] == a[..k];
      } else {
        assert (a + b)[..k] == a + b[..k - |a|];
        assert WithinAt(limit, bound, Run(limit, Init(start), a).value, b, k - |a|);
        RunConcat(limit, Init(start), a, b[..k - |a|]);
      }
    }
  }

  lemma EndsWithin(limit: int, bound: nat, s: State, steps: seq<Step>)
    requires StaysWithin(limit, bound, s, steps)
    ensures Run(limit, s, steps).Some? && InFlight(Run(limit, s, steps).value) <= bound
  {
    assert WithinAt(limit, bound, s, steps, |steps|);
    assert steps[..|steps|] == steps;
  }

  lemma LastStaysWithin(limit: int, bound: nat, s: State, steps: seq<Step>)
    requires steps != [] && StaysWithin(limit, bound, s, steps[..|steps| - 1])
    requires Run(limit, s, steps).Some? && InFlight(Run(limit, s, steps).value) <= bound
    ensures StaysWithin(limit, bound, s, steps)
  {
    var n := |steps| - 1;
    forall k | 0 <= k <= |steps| ensures WithinAt(limit, bound, s, steps, k) {
      if k <= n {
        assert WithinAt(limit, bound, s, steps[..n], k);
        assert steps[..n][..k] == steps[..k];
      } else {
        assert steps[..k] == steps;
      }
    }
  }

  lemma CreatingProjects(limit: int, s: State, step: Step)
    requires Enabled(s, step) && step.Creating?
    ensures Project(Next(limit, s, step)) == Project(s)
  {
    CreateKeepsInFlight(s, step.create);
  }

  lemma {:induction false} CreationsStayWithin(limit: int, bound: nat, s: State, steps: seq<Step>)
    requires Run(limit, s, steps).Some? && InFlight(s) <= bound
    requires forall k :: 0 <= k < |steps| ==> steps[k].Creating?
    ensures Project(Run(limit, s, steps).value) == Project(s) && StaysWithin(limit, bound, s, steps)
  {
    if steps == [] {
      assert steps[..0] == [];
    } else {
      var n := |steps| - 1;
      CreationsStayWithin(limit, bound, s, steps[..n]);
      CreatingProjects(limit, Run(limit, s, steps[..n]).value, steps[n]);
      LastStaysWithin(limit, bound, s, steps);
    }
  }

  lemma StepStaysWithin(limit: int, bound: nat, s: State, step: Step)
    requires Enabled(s, step) && InFlight(s) <= bound && InFlight(Next(limit, s, step)) <= bound
    ensures StaysWithin(limit, bound, s, [step]) && Run(limit, s, [step]) == Some(Next(limit, s, step))
  {
    RunOne(limit, s, step);
    assert [step][..0] == [] && [step][..1] == [step];
  }

  // ----- one gate step at a time -----

  /** A run of the services that stands for the gate `g`, with nothing cached and no creation under way. */
  ghost predicate StandsFor(limit: int, bound: nat, start: int, steps: seq<Step>, g: WB.Gate) {
    && Within(limit, bound, start, steps)
    && Run(limit, Init(start), steps).Some?
    && var s := Run(limit, Init(start), steps).value;
       Project(s) == g && InFlight(s) <= bound && s.cache.docs == [] && s.qm.creators == map[]
  }

  lemma StandsForMore(limit: int, bound: nat, start: int, steps: seq<Step>, g: WB.Gate, more: seq<Step>, g': WB.Gate)
    requires StandsFor(limit, bound, start, steps, g)
    requires var s := Run(limit, Init(start), steps).value;
             && StaysWithin(limit, bound, s, more) && Run(limit, s, more).Some?
             && Project(Run(limit, s, more).value) == g' && Run(limit, s, more).value.cache.docs == []
             && Run(limit, s, more).value.qm.creators == map[]
    ensures StandsFor(limit, bound, start, steps + more, g')
  {
    WithinMore(limit, bound, start, steps, more);
    EndsWithin(limit, bound, Run(limit, Init(start), steps).value, more);
    RunConcat(limit, Init(start), steps, more);
  }

  /** One move, and the gate step it projects to. */
  lemma MoveStandsFor(limit: int, bound: nat, start: int, steps: seq<Step>, g: WB.Gate, m: MoveStep)
    requires StandsFor(limit, bound, start, steps, g)
    requires var s := Run(limit, Init(start), steps).value; CanMove(s, m) && InFlight(AfterMove(limit, s, m)) <= bound
    ensures var s := Run(limit, Init(start), steps).value;
            StandsFor(limit, bound, start, steps + [Moving(m)], WB.Next(g, GateStepOf(limit, s, Moving(m))))
    ensures Run(limit, Init(start), steps + [Moving(m)])
            == Some(AfterMove(limit, Run(limit, Init(start), steps).value, m))
  {
    var s := Run(limit, Init(start), steps).value;
    StepStaysWithin(limit, bound, s, Moving(m));
    MoveProjects(limit, bound, s, m);
    MoveLeavesTables(limit, s, m);
    StandsForMore(limit, bound, start, steps, g, [Moving(m)], WB.Next(g, GateStepOf(limit, s, Moving(m))));
    RunThen(limit, Init(start), steps, Moving(m));
  }

  /** A new query for one path puts its token into the scheduler's inbox. */
  lemma AskOne(limit: int, bound: nat, start: int, steps: seq<Step>, g: WB.Gate) returns (steps': seq<Step>, t: Token)
    requires StandsFor(limit, bound, start, steps, g)
    ensures StandsFor(limit, bound, start, steps', g)
    ensures t in Run(limit, Init(start), steps').value.pipe.scheduleInbox
  {
    var s := Run(limit, Init(start), steps).value;
    var q := FreshUuid(s.qm.owner.Keys);
    var id := FreshUuid(s.qm.owner.Keys + {q});
    var keys := [SubKey(id, "p")];
    t := Token(id, "p", q);
    var more := CreateSteps(s, q, keys, None);
    CreateIsRun(limit, s, q, keys, None);
    CreationsStayWithin(limit, bound, s, more);
    OnePlanned(s, q, id);
    StandsForMore(limit, bound, start, steps, g, more, g);
    RunConcat(limit, Init(start), steps, more);
    steps' := steps + more;
  }

  lemma OnePlanned(s: State, q: Uuid, id: Uuid)
    requires s.cache.docs == []
    ensures var s' := Created(s, q, [SubKey(id, "p")], None);
            && Token(id, "p", q) in s'.pipe.scheduleInbox
            && s'.cache == s.cache && s'.qm.creators == s.qm.creators
  {
    var keys := [SubKey(id, "p")];
    var dto := SubDto(id, "p", Null, q);
    assert AnswersNow(q, keys, []) == [dto];
    assert !AllTruthy([dto]) by { assert !Truthy([dto][0].result); }
    assert [dto][..0] == [];
    assert Plan([dto]) == [Token(id, "p", q)];
  }

  lemma RealizeApprove(limit: int, bound: nat, start: int, steps: seq<Step>, g: WB.Gate) returns (steps': seq<Step>)
    requires StandsFor(limit, bound, start, steps, g) && WB.Can(limit, bound, g, WB.Approve)
    ensures StandsFor(limit, bound, start, steps', WB.Next(g, WB.Approve))
  {
    var before, t := AskOne(limit, bound, start, steps, g);
    var s := Run(limit, Init(start), before).value;
    JudgeProjects(limit, s.(pipe := s.pipe.(scheduleInbox := s.pipe.scheduleInbox - multiset{t})), t);
    MoveStandsFor(limit, bound, start, before, g, SScheduleCheck(t));
    steps' := before + [Moving(SScheduleCheck(t))];
  }

  /** A request in flight can be brought to the traffic controller. */
  lemma BringToLog(limit: int, bound: nat, start: int, steps: seq<Step>, g: WB.Gate)
      returns (steps': seq<Step>, t: Token)
    requires StandsFor(limit, bound, start, steps, g) && g.inFlight > 0
    ensures StandsFor(limit, bound, start, steps', g)
    ensures t in Run(limit, Init(start), steps').value.pipe.trafficInbox
  {
    var s := Run(limit, Init(start), steps).value;
    if |s.pipe.trafficInbox| > 0 {
      t :| t in s.pipe.trafficInbox;
      steps' := steps;
    } else {
      t :| t in s.pipe.approved;
      EmitFetchProjects(s, t);
      MoveStandsFor(limit, bound, start, steps, g, SEmitFetch(t));
      steps' := steps + [Moving(SEmitFetch(t))];
    }
  }

  lemma RealizeLog(limit: int, bound: nat, start: int, steps: seq<Step>, g: WB.Gate, id: Uuid)
      returns (steps': seq<Step>)
    requires StandsFor(limit, bound, start, steps, g) && WB.Can(limit, bound, g, WB.LogOne(id))
    ensures StandsFor(limit, bound, start, steps', WB.Next(g, WB.LogOne(id)))
  {
    var before, t := BringToLog(limit, bound, start, steps, g);
    var s := Run(limit, Init(start), before).value;
    LogUsageProjects(s, t, id);
    MoveStandsFor(limit, bound, start, before, g, SLogUsage(t, id));
    steps' := before + [Moving(SLogUsage(t, id))];
  }

  lemma RealizeTick(limit: int, bound: nat, start: int, steps: seq<Step>, g: WB.Gate, d: nat)
      returns (steps': seq<Step>)
    requires StandsFor(limit, bound, start, steps, g)
    ensures StandsFor(limit, bound, start, steps', WB.Next(g, WB.Tick(d)))
  {
    var s := Run(limit, Init(start), steps).value;
    StepStaysWithin(limit, bound, s, Tick(d));
    StandsForMore(limit, bound, start, steps, g, [Tick(d)], WB.Next(g, WB.Tick(d)));
    steps' := steps + [Tick(d)];
  }

  lemma RealizeStep(limit: int, bound: nat, start: int, steps: seq<Step>, g: WB.Gate, gstep: WB.GateStep)
      returns (steps': seq<Step>)
    requires StandsFor(limit, bound, start, steps, g) && WB.Can(limit, bound, g, gstep)
    ensures StandsFor(limit, bound, start, steps', WB.Next(g, gstep))
  {
    match gstep {
      case Tick(d) => steps' := RealizeTick(limit, bound, start, steps, g, d);
      case Approve => steps' := RealizeApprove(limit, bound, start, steps, g);
      case LogOne(id) => steps' := RealizeLog(limit, bound, start, steps, g, id);
      case Other => steps' := steps;
    }
  }

  lemma NothingYet(limit: int, bound: nat, start: int)
    ensures StandsFor(limit, bound, start, [], WB.Open(start))
  {
    var none: seq<Step> := [];
    assert Run(limit, Init(start), none) == Some(Init(start));
    assert none[..0] == [];
  }

  // ----- the results -----

  /** Every gate run within `bound` is realised by a run of the services within `bound`. */
  lemma {:induction false} GateRunsAreReal(limit: int, bound: nat, start: int, gsteps: seq<WB.GateStep>)
      returns (steps: seq<Step>)
    requires WB.After(limit, bound, WB.Open(start), gsteps).Some?
    ensures Within(limit, bound, start, steps) && Run(limit, Init(start), steps).Some?
    ensures Project(Run(limit, Init(start), steps).value) == WB.After(limit, bound, WB.Open(start), gsteps).value
    ensures StandsFor(limit, bound, start, steps, WB.After(limit, bound, WB.Open(start), gsteps).value)
  {
    if gsteps == [] {
      steps := [];
      NothingYet(limit, bound, start);
    } else {
      var n := |gsteps| - 1;
      steps := GateRunsAreReal(limit, bound, start, gsteps[..n]);
      var g := WB.After(limit, bound, WB.Open(start), gsteps[..n]).value;
      steps := RealizeStep(limit, bound, start, steps, g, gsteps[n]);
    }
  }

  /** The bound on usages is sharp for the services: for every limit and every number of requests in flight,
      some run logs `limit + bound - 1` usages in one window. */
  lemma UsageBoundAttained(limit: int, bound: nat, start: int) returns (steps: seq<Step>)
    requires limit >= 1 && bound >= 1
    ensures Within(limit, bound, start, steps) && Run(limit, Init(start), steps).Some?
    ensures var h := Run(limit, Init(start), steps).value.lim.history;
            CountIn(h, start - 24 * 60 * 60 * 1000, start) == limit + bound - 1
  {
    var gsteps := WB.BoundAttained(limit, bound, start);
    steps := GateRunsAreReal(limit, bound, start, gsteps);
  }
}
