/** In which order the query manager takes up results. Runs are unrestricted unless a discipline is named. */
module Order {
  import opened Domain
  import opened Cache
  import opened Planner
  import opened Protocol
  import opened RateLimiter
  import opened Atomic

  /** A result handler begins only after the cache manager is done with its RECEIVE. */
  ghost predicate CacheFirst(s: State, step: Step) {
    step.Handling? && step.handle.SHandlerStart? ==> step.handle.m in s.cache.done
  }

  /** A result handler begins only when no other result of its query is being handled. */
  ghost predicate OneAtATime(s: State, step: Step) {
    step.Handling? && step.handle.SHandlerStart? ==>
      forall i :: 0 <= i < |s.qm.handlers| ==>
        s.qm.handlers[i].msg.token.queryId != step.handle.m.token.queryId
  }

  ghost predicate InOrder(s: State, step: Step) {
    CacheFirst(s, step) && OneAtATime(s, step)
  }

  datatype Discipline = Discipline(cacheFirst: bool, oneAtATime: bool)

  const IN_ORDER := Discipline(true, true)
  const CACHE_FIRST := Discipline(true, false)
  const ONE_AT_A_TIME := Discipline(false, true)

  ghost predicate Obeys(d: Discipline, s: State, step: Step) {
    (d.cacheFirst ==> CacheFirst(s, step)) && (d.oneAtATime ==> OneAtATime(s, step))
  }

  ghost predicate RunObeys(limit: int, d: Discipline, s: State, steps: seq<Step>) {
    forall k :: 0 <= k < |steps| ==>
      Run(limit, s, steps[..k]).Some? && Obeys(d, Run(limit, s, steps[..k]).value, steps[k])
  }

  ghost predicate RunInOrder(limit: int, s: State, steps: seq<Step>) {
    RunObeys(limit, IN_ORDER, s, steps)
  }

  /** `s'` follows from `s` by some run that obeys `d`. */
  ghost predicate Leads(limit: int, d: Discipline, s: State, s': State) {
    exists steps :: Run(limit, s, steps) == Some(s') && RunObeys(limit, d, s, steps)
  }

  // ----- putting runs together -----

  lemma {:induction false} PrefixRuns(limit: int, s: State, steps: seq<Step>, k: nat)
    requires Run(limit, s, steps).Some? && k <= |steps|
    ensures Run(limit, s, steps[..k]).Some?
  {
    if k < |steps| {
      PrefixRuns(limit, s, steps[..|steps| - 1], k);
      assert steps[..|steps| - 1][..k] == steps[..k];
    } else {
      assert steps[..k] == steps;
    }
  }

  lemma ObeysBefore(limit: int, d: Discipline, s: State, steps: seq<Step>)
    requires RunObeys(limit, d, s, steps) && steps != []
    ensures var n := |steps| - 1;
            && RunObeys(limit, d, s, steps[..n]) && Run(limit, s, steps[..n]).Some?
            && Obeys(d, Run(limit, s, steps[..n]).value, steps[n])
  {
    var n := |steps| - 1;
    forall k | 0 <= k < n
      ensures Run(limit, s, steps[..n][..k]).Some?
      ensures Obeys(d, Run(limit, s, steps[..n][..k]).value, steps[..n][k])
    {
      assert steps[..n][..k] == steps[..k];
    }
  }

  lemma ObeysConcat(limit: int, d: Discipline, s: State, a: seq<Step>, b: seq<Step>)
    requires Run(limit, s, a).Some? && RunObeys(limit, d, s, a)
    requires RunObeys(limit, d, Run(limit, s, a).value, b)
    ensures RunObeys(limit, d, s, a + b)
  {
    forall k | 0 <= k < |a + b|
      ensures Run(limit, s, (a + b)[..k]).Some? && Obeys(d, Run(limit, s, (a + b)[..k]).value, (a + b)[k])
    {
      if k < |a| {
        assert (a + b)[..k] == a[..k];
      } else {
        assert (a + b)[..k] == a + b[..k - |a|];
        RunConcat(limit, s, a, b[..k - |a|]);
      }
    }
  }

  lemma LeadsOn(limit: int, d: Discipline, s: State, s': State, s'': State)
    requires Leads(limit, d, s, s') && Leads(limit, d, s', s'')
    ensures Leads(limit, d, s, s'')
  {
    var a :| Run(limit, s, a) == Some(s') && RunObeys(limit, d, s, a);
    var b :| Run(limit, s', b) == Some(s'') && RunObeys(limit, d, s', b);
    RunConcat(limit, s, a, b);
    ObeysConcat(limit, d, s, a, b);
  }

  lemma LeadsNowhere(limit: int, d: Discipline, s: State)
    ensures Leads(limit, d, s, s)
  {
    assert Run(limit, s, []) == Some(s) && RunObeys(limit, d, s, []);
  }

  lemma StepLeads(limit: int, d: Discipline, s: State, step: Step)
    requires Enabled(s, step) && Obeys(d, s, step)
    ensures Leads(limit, d, s, Next(limit, s, step))
  {
    RunOne(limit, s, step);
    assert [step][..0] == [];
    assert RunObeys(limit, d, s, [step]);
  }

  predicate Begins(step: Step) {
    step.Handling? && step.handle.SHandlerStart?
  }

  /** Steps that begin no result handler obey every discipline. */
  lemma QuietObeys(limit: int, d: Discipline, s: State, steps: seq<Step>)
    requires Run(limit, s, steps).Some? && forall k :: 0 <= k < |steps| ==> !Begins(steps[k])
    ensures RunObeys(limit, d, s, steps)
  {
    forall k | 0 <= k < |steps|
      ensures Run(limit, s, steps[..k]).Some? && Obeys(d, Run(limit, s, steps[..k]).value, steps[k])
    {
      PrefixRuns(limit, s, steps, k);
    }
  }

  // ----- whole handlers -----

  lemma CreateLeads(limit: int, d: Discipline, s: State, q: Uuid, keys: seq<SubKey>, url: Option<string>)
    requires CanCreateStart(s, q, keys) && q !in s.qm.creators
    ensures Leads(limit, d, s, Created(s, q, keys, url))
  {
    CreateIsRun(limit, s, q, keys, url);
    QuietObeys(limit, d, s, CreateSteps(s, q, keys, url));
  }

  /** Steps that begin one result handler, at the start, obey whatever its beginning obeys. */
  lemma BeginObeys(limit: int, d: Discipline, s: State, m: Received, steps: seq<Step>)
    requires Run(limit, s, steps).Some? && steps != [] && steps[0] == Handling(SHandlerStart(m))
             && Obeys(d, s, steps[0])
    requires forall k :: 1 <= k < |steps| ==> !Begins(steps[k])
    ensures RunObeys(limit, d, s, steps)
  {
    forall k | 0 <= k < |steps|
      ensures Run(limit, s, steps[..k]).Some? && Obeys(d, Run(limit, s, steps[..k]).value, steps[k])
    {
      PrefixRuns(limit, s, steps, k);
      if k == 0 {
        assert steps[..0] == [];
      }
    }
  }

  lemma HandleObeys(limit: int, d: Discipline, s: State, m: Received)
    requires m in s.qm.inbox && Finds(s.qm, m) && Obeys(d, s, Handling(SHandlerStart(m)))
    ensures RunObeys(limit, d, s, HandleSteps(s, m))
  {
    HandleIsRun(limit, s, m);
    BeginObeys(limit, d, s, m, HandleSteps(s, m));
  }

  lemma HandleLeads(limit: int, d: Discipline, s: State, m: Received)
    requires m in s.qm.inbox && Finds(s.qm, m) && Obeys(d, s, Handling(SHandlerStart(m)))
    ensures Leads(limit, d, s, Handled(s, m))
  {
    HandleIsRun(limit, s, m);
    HandleObeys(limit, d, s, m);
  }

  lemma ScheduleLeads(limit: int, d: Discipline, s: State, t: Token)
    requires CanScheduleCheck(s, t)
    ensures Leads(limit, d, s, Scheduled(limit, s, t))
  {
    ScheduleIsRun(limit, s, t);
    QuietObeys(limit, d, s, [Moving(SScheduleCheck(t)), ActStep(Limited(limit, s.lim), t)]);
  }

  lemma ProcessLeads(limit: int, d: Discipline, s: State, i: nat)
    requires CanJobCheck(s, i)
    ensures Leads(limit, d, s, Processed(limit, s, i))
  {
    ProcessIsRun(limit, s, i);
    QuietObeys(limit, d, s, [Moving(SJobCheck(i)), ActStep(Limited(limit, s.lim), s.pipe.delayed[i].token)]);
  }

  lemma ConnectLeads(limit: int, d: Discipline, s: State, t: Token, data: Json)
    requires t in s.pipe.connectorInbox
    ensures Leads(limit, d, s, Connected(s, t, data))
  {
    ConnectIsRun(limit, s, t, data);
    QuietObeys(limit, d, s, ConnectSteps(s, t, data));
  }

  lemma WriteLeads(limit: int, d: Discipline, s: State, m: Received)
    requires m in s.cache.inbox
    ensures Leads(limit, d, s, Written(s, m))
  {
    WriteIsRun(limit, s, m);
    QuietObeys(limit, d, s, WriteSteps(s, m));
  }

  /** A token approved, fetched and answered, with its usage not yet logged. */
  function Delivered(s: State, t: Token, data: Json): State {
    var m := Received(t, data);
    s.(pipe := s.pipe.(
         scheduleInbox := s.pipe.scheduleInbox - multiset{t},
         fetched := s.pipe.fetched + multiset{t},
         trafficInbox := s.pipe.trafficInbox + multiset{t},
         received := s.pipe.received + [m]),
       cache := s.cache.(inbox := s.cache.inbox + multiset{m}),
       qm := s.qm.(inbox := s.qm.inbox + multiset{m}),
       audit := s.audit.(calls := s.audit.calls + [Call(t.path, data)]))
  }

  lemma DeliveredLeads(limit: int, d: Discipline, s: State, t: Token, data: Json)
    requires t in s.pipe.scheduleInbox && !Limited(limit, s.lim) && !Truthy(Read(s.cache.docs, t.path))
    ensures Leads(limit, d, s, Delivered(s, t, data))
  {
    ScheduleLeads(limit, d, s, t);
    var s1 := Scheduled(limit, s, t);
    ConnectLeads(limit, d, s1, t, data);
    assert s.pipe.connectorInbox + multiset{t} - multiset{t} == s.pipe.connectorInbox;
    assert Connected(s1, t, data) == Delivered(s, t, data);
    LeadsOn(limit, d, s, s1, Delivered(s, t, data));
  }

  // ----- what upstream answers -----

  /** What upstream answers to a call for each path: anything but a falsy value. */
  ghost predicate Truthful(up: Path -> Json) {
    forall p :: Truthy(up(p))
  }

  lemma NeverFalsy(up: Path -> Json)
    ensures Truthful(up) <==> forall p :: up(p) !in {Null, Bool(false), Num(0), Str("")}
  {
    forall p ensures Truthy(up(p)) <==> up(p) !in {Null, Bool(false), Num(0), Str("")} {
      TruthyValues(up(p));
    }
  }

  /** Upstream answers every call with the same object. */
  const UP: Path -> Json := (path: Path) => Composite("{}")

  /** Upstream made all answers since `s`. */
  ghost predicate AnsweredBy(up: Path -> Json, s: State, s': State) {
    && s.audit.calls <= s'.audit.calls
    && forall i :: |s.audit.calls| <= i < |s'.audit.calls| ==> s'.audit.calls[i].value == up(s'.audit.calls[i].path)
  }

  lemma UpIsTruthful()
    ensures Truthful(UP)
  {
  }

  lemma AnsweredByOn(up: Path -> Json, s: State, s': State, s'': State)
    requires AnsweredBy(up, s, s') && AnsweredBy(up, s', s'')
    ensures AnsweredBy(up, s, s'')
  {
  }

  lemma TruthfullyAnswered(up: Path -> Json, s: State, s': State)
    requires Truthful(up) && AnsweredBy(up, s, s') && TruthyUpstream(s)
    ensures TruthyUpstream(s')
  {
    forall i | 0 <= i < |s'.audit.calls| ensures Truthy(s'.audit.calls[i].value) {
      if i < |s.audit.calls| {
        assert s'.audit.calls[i] == s.audit.calls[i];
      }
    }
  }

  lemma FetchedTruthfully(s: State, s': State)
    requires AnsweredBy(UP, s, s')
    ensures TruthyUpstream(s) ==> TruthyUpstream(s')
  {
    if TruthyUpstream(s) {
      TruthfullyAnswered(UP, s, s');
    }
  }

  // ----- from the start -----

  lemma LeadsReaches(limit: int, d: Discipline, start: int, s: State)
    requires Leads(limit, d, Init(start), s)
    ensures Reachable(limit, s)
  {
    var steps :| Run(limit, Init(start), steps) == Some(s) && RunObeys(limit, d, Init(start), steps);
  }

  // ----- runs of uninterrupted handlers -----

  datatype Whole =
    | WTick(d: nat)
    | WCreate(q: Uuid, keys: seq<SubKey>, url: Option<string>)
    | WSchedule(t: Token)
    | WProcess(i: nat)
    | WLog(t: Token, usageId: Uuid)
    | WConnect(t: Token, data: Json)
    | WWrite(m: Received)
    | WHandle(m: Received)

  ghost predicate CanWhole(s: State, w: Whole) {
    match w
    case WTick(_) => true
    case WCreate(q, keys, _) => CanCreateStart(s, q, keys) && q !in s.qm.creators
    case WSchedule(t) => CanScheduleCheck(s, t)
    case WProcess(i) => CanJobCheck(s, i)
    case WLog(t, id) => CanMove(s, SLogUsage(t, id))
    case WConnect(t, _) => t in s.pipe.connectorInbox
    case WWrite(m) => m in s.cache.inbox
    case WHandle(m) => m in s.qm.inbox && Finds(s.qm, m)
  }

  function WholeSteps(limit: int, s: State, w: Whole): seq<Step>
    requires CanWhole(s, w)
  {
    match w
    case WTick(d) => [Tick(d)]
    case WCreate(q, keys, url) => CreateSteps(s, q, keys, url)
    case WSchedule(t) => [Moving(SScheduleCheck(t)), ActStep(Limited(limit, s.lim), t)]
    case WProcess(i) => [Moving(SJobCheck(i)), ActStep(Limited(limit, s.lim), s.pipe.delayed[i].token)]
    case WLog(t, id) => [Moving(SLogUsage(t, id))]
    case WConnect(t, data) => ConnectSteps(s, t, data)
    case WWrite(m) => WriteSteps(s, m)
    case WHandle(m) => HandleSteps(s, m)
  }

  function AfterWhole(limit: int, s: State, w: Whole): State
    requires CanWhole(s, w)
  {
    match w
    case WTick(d) => Next(limit, s, Tick(d))
    case WCreate(q, keys, url) => Created(s, q, keys, url)
    case WSchedule(t) => Scheduled(limit, s, t)
    case WProcess(i) => Processed(limit, s, i)
    case WLog(t, id) => LogUsage(s, t, id)
    case WConnect(t, data) => Connected(s, t, data)
    case WWrite(m) => Written(s, m)
    case WHandle(m) => Handled(s, m)
  }

  lemma WholeIsRun(limit: int, s: State, w: Whole)
    requires CanWhole(s, w)
    ensures Run(limit, s, WholeSteps(limit, s, w)) == Some(AfterWhole(limit, s, w))
  {
    match w {
      case WTick(d) => RunOne(limit, s, Tick(d));
      case WCreate(q, keys, url) => CreateIsRun(limit, s, q, keys, url);
      case WSchedule(t) => ScheduleIsRun(limit, s, t);
      case WProcess(i) => ProcessIsRun(limit, s, i);
      case WLog(t, id) => RunOne(limit, s, Moving(SLogUsage(t, id)));
      case WConnect(t, data) => ConnectIsRun(limit, s, t, data);
      case WWrite(m) => WriteIsRun(limit, s, m);
      case WHandle(m) => HandleIsRun(limit, s, m);
    }
  }

  lemma OnlyHandlingBegins(limit: int, s: State, w: Whole, k: nat)
    requires CanWhole(s, w) && !w.WHandle? && k < |WholeSteps(limit, s, w)|
    ensures !Begins(WholeSteps(limit, s, w)[k])
  {
  }

  lemma WholeLeavesNoHandler(limit: int, s: State, w: Whole)
    requires CanWhole(s, w)
    ensures AfterWhole(limit, s, w).qm.handlers == s.qm.handlers
  {
    match w {
      case WTick(_) =>
      case WCreate(_, _, _) =>
      case WSchedule(_) =>
      case WProcess(_) =>
      case WLog(_, _) =>
      case WConnect(_, _) =>
      case WWrite(_) =>
      case WHandle(_) =>
    }
  }

  /** The smaller steps of a run of whole handlers, each begun when the one before has ended; none if some
      handler cannot begin, or if a result handler would begin before the cache manager is done. */
  ghost function Unfold(limit: int, s: State, ws: seq<Whole>): Option<(seq<Step>, State)> {
    if ws == [] then Some(([], s))
    else
      var before := Unfold(limit, s, ws[..|ws| - 1]);
      var w := ws[|ws| - 1];
      if before.Some? && CanWhole(before.value.1, w) && (w.WHandle? ==> w.m in before.value.1.cache.done)
      then Some((before.value.0 + WholeSteps(limit, before.value.1, w), AfterWhole(limit, before.value.1, w)))
      else None
  }

  lemma WholeObeys(limit: int, s: State, w: Whole)
    requires CanWhole(s, w) && s.qm.handlers == [] && (w.WHandle? ==> w.m in s.cache.done)
    ensures RunInOrder(limit, s, WholeSteps(limit, s, w))
  {
    WholeIsRun(limit, s, w);
    if w.WHandle? {
      HandleObeys(limit, IN_ORDER, s, w.m);
    } else {
      forall k | 0 <= k < |WholeSteps(limit, s, w)| ensures !Begins(WholeSteps(limit, s, w)[k]) {
        OnlyHandlingBegins(limit, s, w, k);
      }
      QuietObeys(limit, IN_ORDER, s, WholeSteps(limit, s, w));
    }
  }

  /** Uninterrupted handlers, with the cache manager first, make runs that are in order. */
  lemma {:induction false} WholeRunsAreInOrder(limit: int, start: int, ws: seq<Whole>)
    requires Unfold(limit, Init(start), ws).Some?
    ensures var (steps, s) := Unfold(limit, Init(start), ws).value;
            && Run(limit, Init(start), steps) == Some(s)
            && RunInOrder(limit, Init(start), steps)
            && s.qm.handlers == []
  {
    if ws != [] {
      var n := |ws| - 1;
      WholeRunsAreInOrder(limit, start, ws[..n]);
      var (steps, s) := Unfold(limit, Init(start), ws[..n]).value;
      WholeIsRun(limit, s, ws[n]);
      WholeObeys(limit, s, ws[n]);
      WholeLeavesNoHandler(limit, s, ws[n]);
      RunConcat(limit, Init(start), steps, WholeSteps(limit, s, ws[n]));
      ObeysConcat(limit, IN_ORDER, Init(start), steps, WholeSteps(limit, s, ws[n]));
    }
  }
}
