/** How long the requeue loop can go on: with a limit of one, the bound on deferrals is attained. */
module Congestion {
  import opened Domain
  import opened RateLimiter
  import WB = WindowBound
  import opened Cache
  import opened Planner
  import opened Protocol
  import opened Atomic
  import opened Order
  import opened Sharpness
  import opened RetryQueue
  import Drain

  /** A run from `s0` that emits nothing, with `jobs` jobs deferred at its end. */
  ghost predicate Line(s0: State, s: State, jobs: nat, deferrals: nat) {
    && Leads(1, IN_ORDER, s0, s) && s.pipe.emitted == s0.pipe.emitted && Refines(s.lim)
    && |s.pipe.delayed| == jobs && s.retries.deferrals == deferrals
  }

  /** Every job is due. */
  ghost predicate AllDue(s: State) {
    forall i :: 0 <= i < |s.pipe.delayed| ==> s.pipe.delayed[i].due <= s.lim.clock
  }

  lemma LineOn(s0: State, s: State, s': State, jobs: nat, deferrals: nat, jobs': nat, deferrals': nat)
    requires Line(s0, s, jobs, deferrals) && Line(s, s', jobs', deferrals')
    ensures Line(s0, s', jobs', deferrals')
  {
    LeadsOn(1, IN_ORDER, s0, s, s');
  }

  // ----- one usage is enough to limit -----

  lemma LoggedIsLimited(l: Limiter, id: Uuid)
    requires Refines(l) && FreshUsage(l, id)
    ensures Refines(Log(l, id)) && Limited(1, Log(l, id))
  {
    LogRefines(l, id);
  }

  lemma LogOne(s: State, t: Token) returns (s': State)
    requires t in s.pipe.trafficInbox && Refines(s.lim)
    ensures Line(s, s', |s.pipe.delayed|, s.retries.deferrals)
    ensures Limited(1, s'.lim) && s'.lim.clock == s.lim.clock
    ensures s'.pipe.delayed == s.pipe.delayed && s'.pipe.scheduleInbox == s.pipe.scheduleInbox
  {
    var id := Drain.AnotherUsage(s.lim.history);
    LoggedIsLimited(s.lim, id);
    StepLeads(1, IN_ORDER, s, Moving(SLogUsage(t, id)));
    s' := LogUsage(s, t, id);
  }

  // ----- the worker: one job is served, and all others are deferred again -----

  lemma ServeFirst(s: State) returns (s': State)
    requires s.pipe.delayed != [] && AllDue(s) && Refines(s.lim) && !Limited(1, s.lim)
    ensures Line(s, s', |s.pipe.delayed| - 1, s.retries.deferrals)
    ensures AllDue(s') && Limited(1, s'.lim)
  {
    ProcessLeads(1, IN_ORDER, s, 0);
    var s1 := Processed(1, s, 0);
    s' := LogOne(s1, s.pipe.delayed[0].token);
    LeadsOn(1, IN_ORDER, s, s1, s');
  }

  /** The first `k` jobs have been deferred, behind the others. */
  ghost predicate DeferredSome(s: State, s': State, k: nat) {
    var n := |s.pipe.delayed|;
    && k <= n && Line(s, s', n, s.retries.deferrals + k) && s'.lim == s.lim
    && (forall i :: 0 <= i < n - k ==> s'.pipe.delayed[i].due <= s.lim.clock)
    && (forall i :: n - k <= i < n ==> s'.pipe.delayed[i].due == s.lim.clock + WINDOW)
  }

  lemma DeferOne(s: State, k: nat, s1: State) returns (s': State)
    requires Limited(1, s.lim) && DeferredSome(s, s1, k) && k < |s.pipe.delayed|
    ensures DeferredSome(s, s', k + 1)
  {
    ProcessLeads(1, IN_ORDER, s1, 0);
    s' := Processed(1, s1, 0);
    LeadsOn(1, IN_ORDER, s, s1, s');
  }

  lemma {:induction false} DeferMany(s: State, k: nat) returns (s': State)
    requires AllDue(s) && Refines(s.lim) && Limited(1, s.lim) && k <= |s.pipe.delayed|
    ensures DeferredSome(s, s', k)
  {
    if k == 0 {
      s' := s;
      LeadsNowhere(1, IN_ORDER, s);
    } else {
      var s1 := DeferMany(s, k - 1);
      s' := DeferOne(s, k - 1, s1);
    }
  }

  /** A window later the next job can be served. */
  lemma NextWindow(s: State) returns (s': State)
    requires Refines(s.lim) && forall i :: 0 <= i < |s.pipe.delayed| ==> s.pipe.delayed[i].due <= s.lim.clock + WINDOW
    ensures Line(s, s', |s.pipe.delayed|, s.retries.deferrals) && AllDue(s') && !Limited(1, s'.lim)
  {
    LaterIsFree(1, s.lim);
    AdvanceRefines(s.lim, WINDOW);
    StepLeads(1, IN_ORDER, s, Tick(WINDOW));
    s' := s.(lim := Advance(s.lim, WINDOW));
  }

  lemma ServeRound(s: State) returns (s': State)
    requires s.pipe.delayed != [] && AllDue(s) && Refines(s.lim) && !Limited(1, s.lim)
    ensures var n := |s.pipe.delayed| - 1;
            Line(s, s', n, s.retries.deferrals + n) && AllDue(s') && !Limited(1, s'.lim)
  {
    var n := |s.pipe.delayed| - 1;
    var s1 := ServeFirst(s);
    var s2 := DeferMany(s1, n);
    LineOn(s, s1, s2, n, s.retries.deferrals, n, s.retries.deferrals + n);
    s' := NextWindow(s2);
    LineOn(s, s2, s', n, s.retries.deferrals + n, n, s.retries.deferrals + n);
  }

  lemma {:induction false} ServeAll(s: State) returns (s': State)
    requires AllDue(s) && Refines(s.lim) && !Limited(1, s.lim)
    ensures Line(s, s', 0, s.retries.deferrals + Triangle(|s.pipe.delayed|))
    decreases |s.pipe.delayed|
  {
    if s.pipe.delayed == [] {
      s' := s;
      LeadsNowhere(1, IN_ORDER, s);
    } else {
      var n := |s.pipe.delayed| - 1;
      var s1 := ServeRound(s);
      s' := ServeAll(s1);
      LineOn(s, s1, s', n, s.retries.deferrals + n, 0, s.retries.deferrals + n + Triangle(n));
    }
  }

  // ----- the scheduler: all tokens arrive at once -----

  function Arriving(n: nat): seq<SubKey> {
    seq(n, i requires 0 <= i < n => SubKey(WB.Name(i), WB.Name(i)))
  }

  lemma ArrivingDiffer(n: nat)
    ensures var keys := Arriving(n);
            && (forall i, j :: 0 <= i < j < n ==> keys[i].id != keys[j].id && keys[i].path != keys[j].path)
            && (forall i :: 0 <= i < n ==> keys[i].id != "q")
  {
    var keys := Arriving(n);
    forall i, j | 0 <= i < j < n ensures keys[i].id != keys[j].id && keys[i].path != keys[j].path {
      assert |keys[i].id| < |keys[j].id|;
    }
    forall i | 0 <= i < n ensures keys[i].id != "q" {
      assert i == 1 ==> keys[i].id[0] == 'u';
    }
  }

  lemma {:induction false} AllPlanned(ds: seq<SubDto>)
    requires forall i :: 0 <= i < |ds| ==> !Truthy(ds[i].result)
    requires forall i, j :: 0 <= i < j < |ds| ==> ds[i].path != ds[j].path
    ensures |Plan(ds)| == |ds|
  {
    if ds != [] {
      var n := |ds| - 1;
      AllPlanned(ds[..n]);
      PlanHasPath(ds[..n], ds[n].path);
    }
  }

  /** A query for `n` paths has sent `n` tokens to the scheduler. */
  lemma Arrive(n: nat) returns (s: State, plan: seq<Token>)
    requires n >= 1
    ensures Leads(1, IN_ORDER, Init(0), s) && s.lim == Init(0).lim && s.pipe.delayed == []
    ensures s.retries == Retries(map[], 0)
    ensures |plan| == n && s.pipe.emitted == s.pipe.scheduleInbox == multiset(plan)
  {
    var keys := Arriving(n);
    ArrivingDiffer(n);
    CreateLeads(1, IN_ORDER, Init(0), "q", keys, None);
    s := Created(Init(0), "q", keys, None);
    var ds := AnswersNow("q", keys, []);
    assert !Truthy(ds[0].result);
    AllPlanned(ds);
    plan := Plan(ds);
  }

  /** After the first, `k` more tokens have been deferred. */
  ghost predicate TurnedAway(s: State, s': State, plan: seq<Token>, k: nat) {
    && k <= |plan| && Line(s, s', k, s.retries.deferrals + k) && s'.lim == s.lim
    && (forall i :: 0 <= i < k ==> s'.pipe.delayed[i].due == s.lim.clock + WINDOW)
    && s'.pipe.scheduleInbox == multiset(plan[k..])
  }

  lemma TakeNext(plan: seq<Token>, k: nat)
    requires k < |plan|
    ensures plan[k] in multiset(plan[k..]) && multiset(plan[k..]) - multiset{plan[k]} == multiset(plan[k + 1..])
  {
    assert plan[k..] == [plan[k]] + plan[k + 1..];
  }

  lemma TurnOneAway(s: State, plan: seq<Token>, k: nat, s1: State) returns (s': State)
    requires Limited(1, s.lim) && TurnedAway(s, s1, plan, k) && k < |plan|
    ensures TurnedAway(s, s', plan, k + 1)
  {
    TakeNext(plan, k);
    ScheduleLeads(1, IN_ORDER, s1, plan[k]);
    s' := Scheduled(1, s1, plan[k]);
    LeadsOn(1, IN_ORDER, s, s1, s');
  }

  lemma {:induction false} TurnAway(s: State, plan: seq<Token>, k: nat) returns (s': State)
    requires Refines(s.lim) && Limited(1, s.lim) && s.pipe.delayed == [] && s.pipe.scheduleInbox == multiset(plan)
    requires k <= |plan|
    ensures TurnedAway(s, s', plan, k)
  {
    if k == 0 {
      s' := s;
      LeadsNowhere(1, IN_ORDER, s);
      assert plan[0..] == plan;
    } else {
      var s1 := TurnAway(s, plan, k - 1);
      s' := TurnOneAway(s, plan, k - 1, s1);
    }
  }

  /** The first token is served and limits all others. */
  lemma ScheduleRound(s: State, plan: seq<Token>) returns (s': State)
    requires plan != [] && s.pipe.scheduleInbox == multiset(plan) && s.pipe.delayed == []
    requires Refines(s.lim) && !Limited(1, s.lim)
    ensures var n := |plan| - 1;
            Line(s, s', n, s.retries.deferrals + n) && AllDue(s') && !Limited(1, s'.lim)
  {
    var n := |plan| - 1;
    assert plan == [plan[0]] + plan[1..];
    ScheduleLeads(1, IN_ORDER, s, plan[0]);
    var s1 := Scheduled(1, s, plan[0]);
    var s2 := LogOne(s1, plan[0]);
    LeadsOn(1, IN_ORDER, s, s1, s2);
    var s3 := TurnAway(s2, plan[1..], n);
    LineOn(s, s2, s3, 0, s.retries.deferrals, n, s.retries.deferrals + n);
    s' := NextWindow(s3);
    LineOn(s, s3, s', n, s.retries.deferrals + n, n, s.retries.deferrals + n);
  }

  /** The bound on deferrals is sharp: with a limit of one, for every number of tokens some run defers
      exactly that often. */
  lemma DeferralsAttained(tokens: nat) returns (s: State)
    ensures Leads(1, IN_ORDER, Init(0), s)
    ensures |s.pipe.emitted| == tokens && s.retries.deferrals == MostDeferrals(1, tokens)
  {
    if tokens == 0 {
      s := Init(0);
      LeadsNowhere(1, IN_ORDER, s);
    } else {
      var s0, plan := Arrive(tokens);
      var s1 := ScheduleRound(s0, plan);
      s := ServeAll(s1);
      LineOn(s0, s1, s, tokens - 1, tokens - 1, 0, tokens - 1 + Triangle(tokens - 1));
      LeadsOn(1, IN_ORDER, Init(0), s0, s);
      TriangleIs(tokens);
    }
  }
}
