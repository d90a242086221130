/** Nothing is stuck for want of a next step: from every reachable state the whole pipeline can drain, in
    order, if the limit is positive and upstream answers. */
module Drain {
  import opened Domain
  import opened RateLimiter
  import opened Cache
  import opened Planner
  import opened Protocol
  import opened Frames
  import opened Conservation
  import opened References
  import opened Handlers
  import opened Invariants
  import opened Atomic
  import opened Order
  import opened Fates
  import opened Stuck

  lemma LeadsStayReachable(limit: int, d: Discipline, s: State, s': State)
    requires Reachable(limit, s) && Leads(limit, d, s, s')
    ensures Reachable(limit, s')
  {
    var start, a :| Run(limit, Init(start), a) == Some(s);
    var b :| Run(limit, s, b) == Some(s') && RunObeys(limit, d, s, b);
    RunConcat(limit, Init(start), a, b);
  }

  // ----- reads that are still to be made -----

  function Unread(seen: seq<Option<Json>>): nat {
    if seen == [] then 0
    else Unread(seen[..|seen| - 1]) + if seen[|seen| - 1].None? then 1 else 0
  }

  lemma {:induction false} UnreadAfter(seen: seq<Option<Json>>, k: nat, value: Json)
    requires k < |seen| && seen[k].None?
    ensures Unread(seen[k := Some(value)]) == Unread(seen) - 1
  {
    var n := |seen| - 1;
    if k < n {
      UnreadAfter(seen[..n], k, value);
      assert seen[k := Some(value)][..n] == seen[..n][k := Some(value)];
    } else {
      assert seen[k := Some(value)][..n] == seen[..n];
    }
  }

  /** The first answer that is missing, if one is. */
  lemma NextUnread(seen: seq<Option<Json>>) returns (k: nat)
    requires !AllRead(seen)
    ensures k < |seen| && seen[k] == None
  {
    k :| 0 <= k < |seen| && !seen[k].Some?;
  }

  // ----- creations -----

  function CreatorWork(c: Creator): nat {
    match c.phase
    case Looking => 3 + Unread(c.seen)
    case QuerySaved => 2
    case RowsSaved => 1
  }

  /** One step brings a creation closer to its answer, and touches no other creation. */
  ghost predicate CreationAdvances(s: State, s': State, q: Uuid)
    requires q in s.qm.creators
  {
    && s'.audit.calls == s.audit.calls
    && (s'.qm.creators.Keys == s.qm.creators.Keys - {q}
        || (s'.qm.creators.Keys == s.qm.creators.Keys
            && CreatorWork(s'.qm.creators[q]) < CreatorWork(s.qm.creators[q])))
  }

  lemma LookOn(s: State, q: Uuid) returns (c: CreateStep)
    requires q in s.qm.creators && s.qm.creators[q].phase == Looking
             && |s.qm.creators[q].seen| == |s.qm.creators[q].keys|
    ensures CanCreate(s, c) && CreationAdvances(s, AfterCreate(s, c), q)
  {
    var x := s.qm.creators[q];
    if AllRead(x.seen) {
      c := SCreateDecide(q);
    } else {
      var k := NextUnread(x.seen);
      c := SCreateRead(q, k);
      UnreadAfter(x.seen, k, Read(s.cache.docs, x.keys[k].path));
    }
  }

  lemma StoreOn(s: State, q: Uuid) returns (c: CreateStep)
    requires q in s.qm.creators && s.qm.creators[q].phase != Looking && q in s.qm.queries
    ensures CanCreate(s, c) && CreationAdvances(s, AfterCreate(s, c), q)
  {
    c := if s.qm.creators[q].phase == QuerySaved then SCreateSaveRows(q) else SCreateEmit(q);
  }

  lemma CreateOn(s: State, q: Uuid) returns (c: CreateStep)
    requires CreatorsFit(s.qm.creators, s.qm.queries, s.qm.rows) && q in s.qm.creators
    ensures CanCreate(s, c) && CreationAdvances(s, AfterCreate(s, c), q)
  {
    assert CreatorFits(q, s.qm.creators[q], s.qm.queries, s.qm.rows);
    if s.qm.creators[q].phase == Looking {
      c := LookOn(s, q);
    } else {
      c := StoreOn(s, q);
    }
  }

  lemma ReachableCreators(limit: int, s: State)
    requires Reachable(limit, s)
    ensures CreatorsFit(s.qm.creators, s.qm.queries, s.qm.rows)
  {
    ReachableTables(limit, s);
  }

  lemma {:induction false} FinishCreation(limit: int, s: State, q: Uuid) returns (s': State)
    requires Reachable(limit, s) && q in s.qm.creators
    ensures Leads(limit, IN_ORDER, s, s') && s'.qm.creators.Keys == s.qm.creators.Keys - {q}
    ensures s'.audit.calls == s.audit.calls
    decreases CreatorWork(s.qm.creators[q])
  {
    ReachableCreators(limit, s);
    var c := CreateOn(s, q);
    StepLeads(limit, IN_ORDER, s, Creating(c));
    s' := AfterCreate(s, c);
    if q in s'.qm.creators {
      LeadsStayReachable(limit, IN_ORDER, s, s');
      var s1 := s';
      s' := FinishCreation(limit, s1, q);
      LeadsOn(limit, IN_ORDER, s, s1, s');
    }
  }

  lemma {:induction false} FinishCreations(limit: int, s: State) returns (s': State)
    requires Reachable(limit, s)
    ensures Leads(limit, IN_ORDER, s, s') && s'.qm.creators == map[] && s'.audit.calls == s.audit.calls
    decreases s.qm.creators.Keys
  {
    if s.qm.creators == map[] {
      s' := s;
      LeadsNowhere(limit, IN_ORDER, s);
    } else {
      var q :| q in s.qm.creators;
      var s1 := FinishCreation(limit, s, q);
      LeadsStayReachable(limit, IN_ORDER, s, s1);
      s' := FinishCreations(limit, s1);
      LeadsOn(limit, IN_ORDER, s, s1, s');
    }
  }

  // ----- handlers at work -----

  function HandlerWork(h: Handler): nat {
    match h.phase
    case SubFound => 0
    case Reading(_, _, _, seen) => 3 + Unread(seen)
    case StatusSaved(_, _) => 2
    case ResultSaved(_, _) => 1
  }

  /** What handlers leave alone. */
  ghost predicate SameElsewhere(s: State, s': State) {
    && s'.pipe == s.pipe && s'.cache == s.cache && s'.audit == s.audit && s'.lim == s.lim
    && s'.qm.creators == s.qm.creators && s'.qm.inbox == s.qm.inbox
  }

  lemma LoadFirst(limit: int, s: State) returns (s': State)
    requires Reachable(limit, s) && s.qm.handlers != [] && s.qm.handlers[0].phase == SubFound
    ensures Leads(limit, IN_ORDER, s, s') && SameElsewhere(s, s') && |s'.qm.handlers| == |s.qm.handlers|
    ensures s'.qm.handlers[0].phase != SubFound
  {
    ReachableTables(limit, s);
    HandlerNames(s, 0);
    StepLeads(limit, IN_ORDER, s, Handling(SHandlerLoad(0)));
    s' := HandlerLoad(s, 0);
  }

  lemma ReadFirst(s: State) returns (h: HandleStep)
    requires s.qm.handlers != [] && s.qm.handlers[0].phase.Reading?
    requires |s.qm.handlers[0].phase.seen| == |s.qm.handlers[0].phase.keys|
    ensures CanHandle(s, h) && SameElsewhere(s, AfterHandle(s, h)) && !h.SHandlerStart?
    ensures |AfterHandle(s, h).qm.handlers| == |s.qm.handlers|
    ensures AfterHandle(s, h).qm.handlers[0].phase != SubFound
    ensures HandlerWork(AfterHandle(s, h).qm.handlers[0]) < HandlerWork(s.qm.handlers[0])
  {
    var p := s.qm.handlers[0].phase;
    if AllRead(p.seen) {
      h := SHandlerSaveStatus(0);
      assert AfterHandle(s, h) == HandlerSaveStatus(s, 0);
    } else {
      var k := NextUnread(p.seen);
      h := SHandlerRead(0, k);
      UnreadAfter(p.seen, k, Read(s.cache.docs, p.keys[k].path));
      assert AfterHandle(s, h) == HandlerRead(s, 0, k);
    }
  }

  lemma SaveFirst(s: State) returns (h: HandleStep)
    requires s.qm.handlers != [] && s.qm.handlers[0].phase.StatusSaved?
    ensures CanHandle(s, h) && SameElsewhere(s, AfterHandle(s, h)) && !h.SHandlerStart?
    ensures |AfterHandle(s, h).qm.handlers| == |s.qm.handlers|
    ensures AfterHandle(s, h).qm.handlers[0].phase != SubFound
    ensures HandlerWork(AfterHandle(s, h).qm.handlers[0]) < HandlerWork(s.qm.handlers[0])
  {
    h := SHandlerSaveResult(0);
    assert AfterHandle(s, h) == HandlerSaveResult(s, 0);
  }

  lemma ReachableHandlers(limit: int, s: State)
    requires Reachable(limit, s) && s.qm.handlers != []
    ensures HandlerFits(s.qm.handlers[0], s.qm.queries, s.qm.rows)
  {
    ReachableTables(limit, s);
  }

  lemma {:induction false} FinishFirst(limit: int, s: State) returns (s': State)
    requires Reachable(limit, s) && s.qm.handlers != [] && s.qm.handlers[0].phase != SubFound
    ensures Leads(limit, IN_ORDER, s, s') && SameElsewhere(s, s') && |s'.qm.handlers| == |s.qm.handlers| - 1
    decreases HandlerWork(s.qm.handlers[0])
  {
    if s.qm.handlers[0].phase.ResultSaved? {
      StepLeads(limit, IN_ORDER, s, Handling(SHandlerNotify(0)));
      s' := HandlerNotify(s, 0);
    } else {
      ReachableHandlers(limit, s);
      var h: HandleStep;
      if s.qm.handlers[0].phase.Reading? {
        h := ReadFirst(s);
      } else {
        h := SaveFirst(s);
      }
      StepLeads(limit, IN_ORDER, s, Handling(h));
      var s1 := AfterHandle(s, h);
      LeadsStayReachable(limit, IN_ORDER, s, s1);
      s' := FinishFirst(limit, s1);
      LeadsOn(limit, IN_ORDER, s, s1, s');
    }
  }

  lemma FinishOne(limit: int, s: State) returns (s': State)
    requires Reachable(limit, s) && s.qm.handlers != []
    ensures Leads(limit, IN_ORDER, s, s') && SameElsewhere(s, s') && |s'.qm.handlers| == |s.qm.handlers| - 1
  {
    if s.qm.handlers[0].phase == SubFound {
      var s1 := LoadFirst(limit, s);
      LeadsStayReachable(limit, IN_ORDER, s, s1);
      s' := FinishFirst(limit, s1);
      LeadsOn(limit, IN_ORDER, s, s1, s');
    } else {
      s' := FinishFirst(limit, s);
    }
  }

  lemma {:induction false} FinishHandlers(limit: int, s: State) returns (s': State)
    requires Reachable(limit, s)
    ensures Leads(limit, IN_ORDER, s, s') && SameElsewhere(s, s') && s'.qm.handlers == []
    decreases |s.qm.handlers|
  {
    if s.qm.handlers == [] {
      s' := s;
      LeadsNowhere(limit, IN_ORDER, s);
    } else {
      var s1 := FinishOne(limit, s);
      LeadsStayReachable(limit, IN_ORDER, s, s1);
      s' := FinishHandlers(limit, s1);
      LeadsOn(limit, IN_ORDER, s, s1, s');
    }
  }

  // ----- the cache manager -----

  lemma {:induction false} FinishWrites(limit: int, s: State) returns (s': State)
    ensures Leads(limit, IN_ORDER, s, s') && s' == s.(cache := s'.cache)
    ensures s'.cache.writes == [] && s'.cache.inbox == s.cache.inbox
    decreases |s.cache.writes|
  {
    if s.cache.writes == [] {
      s' := s;
      LeadsNowhere(limit, IN_ORDER, s);
    } else {
      StepLeads(limit, IN_ORDER, s, Caching(SCacheSave(0)));
      var s1 := CacheSave(s, 0);
      s' := FinishWrites(limit, s1);
      LeadsOn(limit, IN_ORDER, s, s1, s');
    }
  }

  lemma {:induction false} WriteInbox(limit: int, s: State) returns (s': State)
    requires s.cache.writes == []
    ensures Leads(limit, IN_ORDER, s, s') && s' == s.(cache := s'.cache)
    ensures s'.cache.writes == [] && s'.cache.inbox == NO_RESULTS
    decreases |s.cache.inbox|
  {
    if s.cache.inbox == NO_RESULTS {
      s' := s;
      LeadsNowhere(limit, IN_ORDER, s);
    } else {
      var m :| m in s.cache.inbox;
      WriteLeads(limit, IN_ORDER, s, m);
      var s1 := Written(s, m);
      s' := WriteInbox(limit, s1);
      LeadsOn(limit, IN_ORDER, s, s1, s');
    }
  }

  // ----- results that wait -----

  /** Creations, handlers and the cache manager are idle. */
  ghost predicate Idle(s: State) {
    s.qm.creators == map[] && s.qm.handlers == [] && s.cache.inbox == NO_RESULTS && s.cache.writes == []
  }

  /** With the cache manager idle, it is done with whatever waits at the query manager. */
  lemma WaitingIsDone(limit: int, s: State, m: Received)
    requires Reachable(limit, s) && Idle(s) && m in s.qm.inbox
    ensures m in s.cache.done && Finds(s.qm, m)
  {
    ReachableTables(limit, s);
    InboxNames(s, m);
    assert WriteMsgs(s.cache.writes) == [];
    assert m in multiset(s.pipe.received);
  }

  lemma HandledLeavesElsewhere(s: State, m: Received)
    requires Finds(s.qm, m)
    ensures var s' := Atomic.Handled(s, m);
            && s'.pipe == s.pipe && s'.cache == s.cache && s'.audit == s.audit && s'.lim == s.lim
            && s'.qm.creators == s.qm.creators && s'.qm.handlers == s.qm.handlers
            && s'.qm.inbox == s.qm.inbox - multiset{m}
  {
  }

  lemma {:induction false} HandleInbox(limit: int, s: State) returns (s': State)
    requires Reachable(limit, s) && Idle(s)
    ensures Leads(limit, IN_ORDER, s, s') && Idle(s') && s'.qm.inbox == NO_RESULTS
    ensures s'.pipe == s.pipe && s'.lim == s.lim && s'.audit == s.audit
    decreases |s.qm.inbox|
  {
    if s.qm.inbox == NO_RESULTS {
      s' := s;
      LeadsNowhere(limit, IN_ORDER, s);
    } else {
      var m :| m in s.qm.inbox;
      WaitingIsDone(limit, s, m);
      HandleLeads(limit, IN_ORDER, s, m);
      var s1 := Atomic.Handled(s, m);
      HandledLeavesElsewhere(s, m);
      LeadsStayReachable(limit, IN_ORDER, s, s1);
      s' := HandleInbox(limit, s1);
      LeadsOn(limit, IN_ORDER, s, s1, s');
    }
  }

  /** Nothing is left but what is in the pipe. */
  ghost predicate Calm(s: State) {
    Idle(s) && s.qm.inbox == NO_RESULTS
  }

  lemma CalmDown(limit: int, s: State) returns (s': State)
    requires Reachable(limit, s) && s.qm.creators == map[] && s.qm.handlers == []
    ensures Leads(limit, IN_ORDER, s, s') && Calm(s') && s'.pipe == s.pipe && s'.lim == s.lim && s'.audit == s.audit
  {
    var s1 := FinishWrites(limit, s);
    var s2 := WriteInbox(limit, s1);
    LeadsOn(limit, IN_ORDER, s, s1, s2);
    LeadsStayReachable(limit, IN_ORDER, s, s2);
    s' := HandleInbox(limit, s2);
    LeadsOn(limit, IN_ORDER, s, s2, s');
  }

  lemma Settle(limit: int, s: State) returns (s': State)
    requires Reachable(limit, s)
    ensures Leads(limit, IN_ORDER, s, s') && Calm(s') && s'.audit.calls == s.audit.calls
  {
    var s1 := FinishCreations(limit, s);
    LeadsStayReachable(limit, IN_ORDER, s, s1);
    var s2 := FinishHandlers(limit, s1);
    LeadsOn(limit, IN_ORDER, s, s1, s2);
    LeadsStayReachable(limit, IN_ORDER, s, s2);
    s' := CalmDown(limit, s2);
    LeadsOn(limit, IN_ORDER, s, s2, s');
  }

  // ----- the pipe -----

  /** How much is left to do for the tokens in the pipe. */
  function PipeWork(p: Pipe): nat {
    6 * |p.denied| + 5 * |p.scheduleInbox| + 5 * |p.delayed| + 4 * |p.approved|
    + |p.trafficInbox| + 2 * |p.connectorInbox| + |p.fetching|
  }

  lemma TakeOne<T>(m: multiset<T>, x: T)
    requires x in m
    ensures |m - multiset{x}| == |m| - 1
  {
  }

  lemma ReachableLimit(limit: int, s: State)
    requires limit >= 1 && Reachable(limit, s)
    ensures forall d: nat :: d >= WINDOW ==> !Limited(limit, Advance(s.lim, d))
  {
    ReachableLimiter(limit, s);
    forall d: nat | d >= WINDOW ensures !Limited(limit, Advance(s.lim, d)) {
      AdvanceRefines(s.lim, d);
      CountIsLastWindow(Advance(s.lim, d));
    }
  }

  ghost predicate Progress(limit: int, up: Path -> Json, s: State, s': State) {
    && Leads(limit, IN_ORDER, s, s') && Calm(s') && PipeWork(s'.pipe) < PipeWork(s.pipe)
    && AnsweredBy(up, s, s')
  }

  lemma LogProgress(limit: int, up: Path -> Json, s: State, t: Token) returns (s': State)
    requires Calm(s) && t in s.pipe.trafficInbox
    ensures Progress(limit, up, s, s')
  {
    var id := AnotherUsage(s.lim.history);
    StepLeads(limit, IN_ORDER, s, Moving(SLogUsage(t, id)));
    s' := LogUsage(s, t, id);
    TakeOne(s.pipe.trafficInbox, t);
  }

  lemma {:induction false} AnotherUsage(h: seq<Usage>) returns (id: Uuid)
    ensures forall i :: 0 <= i < |h| ==> |h[i].id| < |id|
  {
    if h == [] {
      id := "u";
    } else {
      var n := |h| - 1;
      var before := AnotherUsage(h[..n]);
      id := before + h[n].id + "u";
      forall i | 0 <= i < |h| ensures |h[i].id| < |id| {
        if i < n {
          assert h[..n][i] == h[i];
        }
      }
    }
  }

  lemma EmitProgress(limit: int, up: Path -> Json, s: State, t: Token) returns (s': State)
    requires Calm(s) && t in s.pipe.approved
    ensures Progress(limit, up, s, s')
  {
    StepLeads(limit, IN_ORDER, s, Moving(SEmitFetch(t)));
    s' := EmitFetch(s, t);
    TakeOne(s.pipe.approved, t);
  }

  lemma DeferProgress(limit: int, up: Path -> Json, s: State, t: Token) returns (s': State)
    requires Calm(s) && t in s.pipe.denied
    ensures Progress(limit, up, s, s')
  {
    StepLeads(limit, IN_ORDER, s, Moving(SDefer(t)));
    s' := Defer(s, t);
    TakeOne(s.pipe.denied, t);
  }

  lemma ReadProgress(limit: int, up: Path -> Json, s: State, t: Token) returns (s': State)
    requires Calm(s) && t in s.pipe.connectorInbox
    ensures Progress(limit, up, s, s')
  {
    StepLeads(limit, IN_ORDER, s, Moving(SConnectorRead(t)));
    s' := ConnectorRead(s, t);
    TakeOne(s.pipe.connectorInbox, t);
  }

  lemma FetchProgress(limit: int, up: Path -> Json, s: State, t: Token) returns (s': State)
    requires Reachable(limit, s) && Calm(s) && t in s.pipe.fetching
    ensures Progress(limit, up, s, s')
  {
    StepLeads(limit, IN_ORDER, s, Moving(SConnectorFetch(t, up(t.path))));
    var s1 := ConnectorFetch(s, t, up(t.path));
    LeadsStayReachable(limit, IN_ORDER, s, s1);
    s' := CalmDown(limit, s1);
    LeadsOn(limit, IN_ORDER, s, s1, s');
    TakeOne(s.pipe.fetching, t);
  }

  /** After a window of waiting, a token at the scheduler is approved. */
  lemma ScheduleProgress(limit: int, up: Path -> Json, s: State, t: Token) returns (s': State)
    requires limit >= 1 && Reachable(limit, s) && Calm(s) && t in s.pipe.scheduleInbox
    ensures Progress(limit, up, s, s')
  {
    ReachableLimit(limit, s);
    StepLeads(limit, IN_ORDER, s, Tick(WINDOW));
    var s1 := Next(limit, s, Tick(WINDOW));
    StepLeads(limit, IN_ORDER, s1, Moving(SScheduleCheck(t)));
    s' := ScheduleCheck(limit, s1, t);
    LeadsOn(limit, IN_ORDER, s, s1, s');
    TakeOne(s.pipe.scheduleInbox, t);
  }

  /** And so is a deferred job, once it is due. */
  lemma JobProgress(limit: int, up: Path -> Json, s: State) returns (s': State)
    requires limit >= 1 && Reachable(limit, s) && Calm(s) && s.pipe.delayed != []
    ensures Progress(limit, up, s, s')
  {
    ReachableLimit(limit, s);
    var wait := s.pipe.delayed[0].due - s.lim.clock;
    var d: nat := if wait < WINDOW then WINDOW else wait;
    StepLeads(limit, IN_ORDER, s, Tick(d));
    var s1 := Next(limit, s, Tick(d));
    StepLeads(limit, IN_ORDER, s1, Moving(SJobCheck(0)));
    s' := JobCheck(limit, s1, 0);
    LeadsOn(limit, IN_ORDER, s, s1, s');
  }

  lemma MakeProgress(limit: int, up: Path -> Json, s: State) returns (s': State)
    requires limit >= 1 && Reachable(limit, s) && Calm(s) && PipeWork(s.pipe) > 0
    ensures Progress(limit, up, s, s')
  {
    var p := s.pipe;
    if t :| t in p.trafficInbox {
      s' := LogProgress(limit, up, s, t);
    } else if t :| t in p.fetching {
      s' := FetchProgress(limit, up, s, t);
    } else if t :| t in p.connectorInbox {
      s' := ReadProgress(limit, up, s, t);
    } else if t :| t in p.approved {
      s' := EmitProgress(limit, up, s, t);
    } else if t :| t in p.denied {
      s' := DeferProgress(limit, up, s, t);
    } else if t :| t in p.scheduleInbox {
      s' := ScheduleProgress(limit, up, s, t);
    } else {
      assert |p.trafficInbox| == |p.fetching| == |p.connectorInbox| == 0;
      assert |p.approved| == |p.denied| == |p.scheduleInbox| == 0;
      s' := JobProgress(limit, up, s);
    }
  }

  lemma {:induction false} DrainPipe(limit: int, up: Path -> Json, s: State) returns (s': State)
    requires limit >= 1 && Reachable(limit, s) && Calm(s)
    ensures Leads(limit, IN_ORDER, s, s') && Calm(s') && PipeWork(s'.pipe) == 0
    ensures AnsweredBy(up, s, s')
    decreases PipeWork(s.pipe)
  {
    if PipeWork(s.pipe) == 0 {
      s' := s;
      LeadsNowhere(limit, IN_ORDER, s);
    } else {
      var s1 := MakeProgress(limit, up, s);
      LeadsStayReachable(limit, IN_ORDER, s, s1);
      s' := DrainPipe(limit, up, s1);
      LeadsOn(limit, IN_ORDER, s, s1, s');
      AnsweredByOn(up, s, s1, s');
    }
  }

  // ----- the results -----

  /** With nothing on its way, every token was dropped on a cache hit or handled to the end. */
  lemma DrainedTokens(limit: int, s: State, t: Token)
    requires Reachable(limit, s) && Calm(s) && PipeWork(s.pipe) == 0 && t in s.pipe.emitted
    ensures t in s.pipe.dropped || exists m :: m in s.qm.done && m.token == t
  {
    ReachableTables(limit, s);
    var place := Somewhere(s, t);
  }

  /** From every reachable state, and whatever upstream answers to each path, some continuation, in order, answers
      every creation and leaves every token dropped or handled, and every query at rest. */
  lemma CanDrain(limit: int, up: Path -> Json, s: State) returns (s': State)
    requires limit >= 1 && Reachable(limit, s)
    ensures Leads(limit, IN_ORDER, s, s') && s'.qm.creators == map[]
    ensures forall t :: t in s'.pipe.emitted ==> t in s'.pipe.dropped || exists m :: m in s'.qm.done && m.token == t
    ensures forall q :: AtRest(s', q)
    ensures AnsweredBy(up, s, s')
  {
    var s1 := Settle(limit, s);
    LeadsStayReachable(limit, IN_ORDER, s, s1);
    s' := DrainPipe(limit, up, s1);
    LeadsOn(limit, IN_ORDER, s, s1, s');
    LeadsStayReachable(limit, IN_ORDER, s, s');
    forall t | t in s'.pipe.emitted
      ensures t in s'.pipe.dropped || exists m :: m in s'.qm.done && m.token == t
    {
      DrainedTokens(limit, s', t);
    }
  }

  /** Every in-order run can go on, in order, whatever upstream answers to each path but a falsy value, until each
      query is COMPLETED, or PENDING with its last token dropped on a connector cache hit: nothing else keeps a
      query from completing. */
  lemma CanComplete(limit: int, up: Path -> Json, start: int, steps: seq<Step>) returns (more: seq<Step>)
    requires limit >= 1 && Run(limit, Init(start), steps).Some? && RunInOrder(limit, Init(start), steps)
    requires TruthyUpstream(Run(limit, Init(start), steps).value)
    requires forall p :: up(p) !in {Null, Bool(false), Num(0), Str("")}
    ensures RunInOrder(limit, Init(start), steps + more) && Run(limit, Init(start), steps + more).Some?
    ensures AnsweredBy(up, Run(limit, Init(start), steps).value, Run(limit, Init(start), steps + more).value)
    ensures var s' := Run(limit, Init(start), steps + more).value;
            forall q :: q in s'.audit.created ==>
              && q in s'.qm.queries
              && (s'.qm.queries[q].status == COMPLETED || (q in s'.lastRetired && s'.lastRetired[q] == ByConnector))
  {
    var s := Run(limit, Init(start), steps).value;
    var s' := CanDrain(limit, up, s);
    NeverFalsy(up);
    TruthfullyAnswered(up, s, s');
    more :| Run(limit, s, more) == Some(s') && RunObeys(limit, IN_ORDER, s, more);
    RunConcat(limit, Init(start), steps, more);
    ObeysConcat(limit, IN_ORDER, Init(start), steps, more);
    forall q | q in s'.audit.created
      ensures q in s'.qm.queries
      ensures s'.qm.queries[q].status == COMPLETED || (q in s'.lastRetired && s'.lastRetired[q] == ByConnector)
    {
      QueryIsStored(limit, start, steps + more, q);
      if s'.qm.queries[q].status == PENDING {
        PendingAtRestWasDropped(limit, start, steps + more, q);
      }
    }
  }
}
