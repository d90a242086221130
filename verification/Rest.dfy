/** A query at rest stays at rest: once every token of it has retired, no continuation changes what is
    stored for it, in whatever order results are taken up. */
module Rest {
  import opened Domain
  import opened Planner
  import opened Protocol
  import opened Order
  import opened Frames
  import opened Conservation
  import opened References
  import opened Handlers
  import opened Announcements
  import opened Invariants
  import opened Fates
  import opened Stuck

  /** Query `q` and its rows are stored alike in both. */
  ghost predicate SameFor(qm: QuerySide, qm': QuerySide, q: Uuid) {
    && q in qm.queries && q in qm'.queries && qm'.queries[q] == qm.queries[q]
    && forall i :: 0 <= i < |qm.queries[q].subs| ==>
         var id := qm.queries[q].subs[i];
         id in qm.rows && id in qm'.rows && qm'.rows[id] == qm.rows[id]
  }

  lemma SamePolls(qm: QuerySide, qm': QuerySide, q: Uuid)
    requires SameFor(qm, qm', q)
    ensures Poll(qm', q) == Poll(qm, q)
  {
  }

  lemma SameForOn(a: QuerySide, b: QuerySide, c: QuerySide, q: Uuid)
    requires SameFor(a, b, q) && SameFor(b, c, q)
    ensures SameFor(a, c, q)
  {
  }

  // ----- nothing begins for a query at rest -----

  /** A result that waits at the query manager belongs to a query that is not at rest. */
  lemma NoResultWaits(s: State, m: Received, q: Uuid)
    requires Conserved(s) && Referenced(s) && AtRest(s, q) && m in s.qm.inbox
    ensures m.token.queryId != q
  {
    InboxNames(s, m);
    if m.token.queryId == q {
      assert At(s, m.token, AtQueryManager);
      if m.token in s.pipe.dropped {
        OnlyOnePlace(s, m.token, AtQueryManager, Dropped);
      } else {
        assert At(s, m.token, Fates.Place.Handled);
        OnlyOnePlace(s, m.token, AtQueryManager, Fates.Place.Handled);
      }
    }
  }

  /** What `AtRest` depends on, and how it may change. */
  lemma RestStays(s: State, s': State, q: Uuid)
    requires AtRest(s, q)
    requires forall t :: t in s'.pipe.emitted && t.queryId == q ==> t in s.pipe.emitted
    requires forall t :: t in s.pipe.dropped ==> t in s'.pipe.dropped
    requires forall m :: m in s.qm.done ==> m in s'.qm.done
    requires forall i :: 0 <= i < |s'.qm.handlers| ==> s'.qm.handlers[i].msg.token.queryId != q
    ensures AtRest(s', q)
  {
  }

  // ----- creation -----

  lemma EmitsForOthers(s: State, p: Uuid, q: Uuid)
    requires Referenced(s) && CanCreateEmit(s, p) && p != q
    ensures forall t :: t in CreateEmit(s, p).pipe.emitted && t.queryId == q ==> t in s.pipe.emitted
  {
    var plan := Plan(Answers(p, s.qm.creators[p].keys, s.qm.creators[p].seen));
    forall t | t in CreateEmit(s, p).pipe.emitted && t.queryId == q ensures t in s.pipe.emitted {
      if t in plan {
        PlanNames(s, p, t);
      }
    }
  }

  lemma CreateEmitsForOthers(s: State, c: CreateStep, q: Uuid)
    requires Referenced(s) && CanCreate(s, c) && q !in s.qm.creators
    ensures forall t :: t in AfterCreate(s, c).pipe.emitted && t.queryId == q ==> t in s.pipe.emitted
  {
    match c {
      case SCreateStart(p, keys, url) => assert AfterCreate(s, c) == CreateStart(s, p, keys, url);
      case SCreateRead(p, k) => assert AfterCreate(s, c) == CreateRead(s, p, k);
      case SCreateDecide(p) => assert AfterCreate(s, c) == CreateDecide(s, p);
      case SCreateSaveRows(p) => assert AfterCreate(s, c) == CreateSaveRows(s, p);
      case SCreateEmit(p) => EmitsForOthers(s, p, q);
    }
  }

  lemma SaveRowsForOthers(s: State, p: Uuid, q: Uuid)
    requires Referenced(s) && CanCreateSaveRows(s, p) && q in s.qm.queries && p != q
    ensures SameFor(s.qm, CreateSaveRows(s, p).qm, q)
  {
    SaveRowsEffect(s, p);
  }

  lemma DecideForOthers(s: State, p: Uuid, q: Uuid)
    requires Referenced(s) && CanCreateDecide(s, p) && q in s.qm.queries && p != q
    ensures SameFor(s.qm, CreateDecide(s, p).qm, q)
  {
    SameForItself(s, q);
  }

  lemma CreateLeavesOthers(s: State, c: CreateStep, q: Uuid)
    requires Referenced(s) && CanCreate(s, c) && q in s.qm.queries && q !in s.qm.creators
    ensures SameFor(s.qm, AfterCreate(s, c).qm, q)
  {
    match c {
      case SCreateStart(p, keys, url) =>
        SameForItself(s, q);
        SameTablesSameFor(s.qm, CreateStart(s, p, keys, url).qm, q);
      case SCreateRead(p, k) => SameForItself(s, q); SameTablesSameFor(s.qm, CreateRead(s, p, k).qm, q);
      case SCreateDecide(p) => DecideForOthers(s, p, q);
      case SCreateSaveRows(p) => SaveRowsForOthers(s, p, q);
      case SCreateEmit(p) => SameForItself(s, q); SameTablesSameFor(s.qm, CreateEmit(s, p).qm, q);
    }
  }

  lemma CreateKeepsRest(s: State, c: CreateStep, q: Uuid)
    requires Referenced(s) && CanCreate(s, c) && q in s.qm.queries && q !in s.qm.creators && AtRest(s, q)
    ensures AtRest(AfterCreate(s, c), q) && SameFor(s.qm, AfterCreate(s, c).qm, q)
  {
    CreateEmitsForOthers(s, c, q);
    CreateLeavesOthers(s, c, q);
    CreateFrame(s, c);
    CreateLeavesCache(s, c);
    RestStays(s, AfterCreate(s, c), q);
  }

  // ----- the pipe -----

  lemma MoveKeepsDropped(limit: int, s: State, m: MoveStep)
    requires CanMove(s, m)
    ensures forall t :: t in s.pipe.dropped ==> t in AfterMove(limit, s, m).pipe.dropped
  {
    if !m.SConnectorRead? {
      MoveFrameOrder(limit, s, m);
    }
  }

  lemma MoveKeepsRest(limit: int, s: State, m: MoveStep, q: Uuid)
    requires Referenced(s) && CanMove(s, m) && q in s.qm.queries && AtRest(s, q)
    ensures AtRest(AfterMove(limit, s, m), q) && SameFor(s.qm, AfterMove(limit, s, m).qm, q)
  {
    MoveKeepsDropped(limit, s, m);
    MoveEmitsNothing(limit, s, m);
    MoveLeavesTables(limit, s, m);
    RestStays(s, AfterMove(limit, s, m), q);
  }

  // ----- results of other queries -----

  /** A handler of another query writes neither `q` nor a row of it. */
  lemma HandlerLeavesOthers(s: State, i: nat, q: Uuid)
    requires Conserved(s) && Referenced(s) && i < |s.qm.handlers| && q in s.qm.queries
    requires s.qm.handlers[i].msg.token.queryId != q
    ensures CanHandlerSaveStatus(s, i) ==> SameFor(s.qm, HandlerSaveStatus(s, i).qm, q)
    ensures CanHandlerSaveResult(s, i) ==> SameFor(s.qm, HandlerSaveResult(s, i).qm, q)
  {
    HandlerNames(s, i);
  }

  lemma SameTablesSameFor(qm: QuerySide, qm': QuerySide, q: Uuid)
    requires SameFor(qm, qm, q) && qm'.queries == qm.queries && qm'.rows == qm.rows
    ensures SameFor(qm, qm', q)
  {
  }

  lemma SameForItself(s: State, q: Uuid)
    requires Referenced(s) && q in s.qm.queries
    ensures SameFor(s.qm, s.qm, q) && q in s.qm.owner
  {
  }

  lemma HandleLeavesOthers(s: State, h: HandleStep, q: Uuid)
    requires Conserved(s) && Referenced(s) && CanHandle(s, h) && q in s.qm.queries && AtRest(s, q)
    ensures SameFor(s.qm, AfterHandle(s, h).qm, q)
  {
    if h.SHandlerSaveStatus? || h.SHandlerSaveResult? {
      HandlerLeavesOthers(s, h.i, q);
    } else {
      HandleLeavesTables(s, h);
      SameForItself(s, q);
      SameTablesSameFor(s.qm, AfterHandle(s, h).qm, q);
    }
  }

  ghost predicate OthersOnly(handlers: seq<Handler>, q: Uuid) {
    forall k :: 0 <= k < |handlers| ==> handlers[k].msg.token.queryId != q
  }

  lemma RemovedForOthers(handlers: seq<Handler>, i: nat, q: Uuid)
    requires i < |handlers| && OthersOnly(handlers, q)
    ensures OthersOnly(RemoveAt(handlers, i), q)
  {
  }

  lemma PhaseForOthers(handlers: seq<Handler>, i: nat, p: HandlerPhase, q: Uuid)
    requires i < |handlers| && OthersOnly(handlers, q)
    ensures OthersOnly(handlers[i := Handler(handlers[i].msg, p)], q)
  {
  }

  lemma HandleBeginsForOthers(s: State, h: HandleStep, q: Uuid)
    requires CanHandle(s, h) && OthersOnly(s.qm.handlers, q)
    requires h.SHandlerStart? ==> h.m.token.queryId != q
    ensures OthersOnly(AfterHandle(s, h).qm.handlers, q)
  {
    match h {
      case SHandlerStart(m) => assert AfterHandle(s, h) == HandlerStart(s, m);
      case SHandlerLoad(i) =>
        RemovedForOthers(s.qm.handlers, i, q);
        PhaseForOthers(s.qm.handlers, i, LoadedPhase(s, i), q);
      case SHandlerRead(i, k) => PhaseForOthers(s.qm.handlers, i, HandlerRead(s, i, k).qm.handlers[i].phase, q);
      case SHandlerSaveStatus(i) => PhaseForOthers(s.qm.handlers, i, HandlerSaveStatus(s, i).qm.handlers[i].phase, q);
      case SHandlerSaveResult(i) => PhaseForOthers(s.qm.handlers, i, HandlerSaveResult(s, i).qm.handlers[i].phase, q);
      case SHandlerNotify(i) => RemovedForOthers(s.qm.handlers, i, q);
    }
  }

  /** What a handler knows once it has loaded its query, if it finds it. */
  function LoadedPhase(s: State, i: nat): HandlerPhase
    requires i < |s.qm.handlers|
  {
    var q := s.qm.handlers[i].msg.token.queryId;
    if q in s.qm.queries then
      var row := s.qm.queries[q];
      Reading(row.status, row.callbackUrl, Keys(row.subs, s.qm.rows), NoReads(|row.subs|))
    else SubFound
  }

  lemma HandleKeepsDone(s: State, h: HandleStep)
    requires CanHandle(s, h)
    ensures forall m :: m in s.qm.done ==> m in AfterHandle(s, h).qm.done
  {
    match h {
      case SHandlerStart(m) => assert AfterHandle(s, h) == HandlerStart(s, m);
      case SHandlerLoad(i) => assert AfterHandle(s, h) == HandlerLoad(s, i);
      case SHandlerRead(i, k) => assert AfterHandle(s, h) == HandlerRead(s, i, k);
      case SHandlerSaveStatus(i) => assert AfterHandle(s, h) == HandlerSaveStatus(s, i);
      case SHandlerSaveResult(i) => assert AfterHandle(s, h) == HandlerSaveResult(s, i);
      case SHandlerNotify(i) => assert AfterHandle(s, h) == HandlerNotify(s, i);
    }
  }

  lemma HandleKeepsRest(s: State, h: HandleStep, q: Uuid)
    requires Conserved(s) && Referenced(s) && CanHandle(s, h) && q in s.qm.queries && AtRest(s, q)
    ensures AtRest(AfterHandle(s, h), q) && SameFor(s.qm, AfterHandle(s, h).qm, q)
  {
    if h.SHandlerStart? {
      NoResultWaits(s, h.m, q);
    }
    HandleLeavesOthers(s, h, q);
    HandleBeginsForOthers(s, h, q);
    HandleKeepsDone(s, h);
    HandleFrame(s, h);
    RestStays(s, AfterHandle(s, h), q);
  }

  // ----- whole continuations -----

  lemma StepKeepsRest(limit: int, s: State, step: Step, q: Uuid)
    requires Conserved(s) && Referenced(s) && Enabled(s, step)
    requires q in s.qm.queries && q !in s.qm.creators && q in s.qm.owner && AtRest(s, q)
    ensures var s' := Next(limit, s, step);
            AtRest(s', q) && SameFor(s.qm, s'.qm, q) && q !in s'.qm.creators
  {
    match step {
      case Tick(d) => RestStays(s, Next(limit, s, step), q);
      case Creating(c) => CreateKeepsRest(s, c, q); CreateFrame(s, c);
      case Moving(m) => MoveKeepsRest(limit, s, m, q); MoveLeavesTables(limit, s, m);
      case Caching(w) => WriteFrame(s, w); RestStays(s, AfterWrite(s, w), q);
      case Handling(h) => HandleKeepsRest(s, h, q); HandleFrame(s, h);
    }
  }

  lemma {:induction false} RunKeepsRest(limit: int, s: State, steps: seq<Step>, q: Uuid)
    requires Safe(s) && q in s.qm.queries && q !in s.qm.creators && AtRest(s, q) && Run(limit, s, steps).Some?
    ensures var s' := Run(limit, s, steps).value;
            AtRest(s', q) && SameFor(s.qm, s'.qm, q) && q !in s'.qm.creators
  {
    if steps == [] {
      SameForItself(s, q);
    } else {
      var before := steps[..|steps| - 1];
      RunKeepsRest(limit, s, before, q);
      RunKeepsBalance(limit, s, before);
      var s1 := Run(limit, s, before).value;
      SameForItself(s1, q);
      StepKeepsRest(limit, s1, steps[|steps| - 1], q);
      SameForOn(s.qm, s1.qm, Run(limit, s, steps).value.qm, q);
    }
  }

  /** At rest for good: in every continuation, of whatever order, the query stays at rest, and its status,
      its rows and the answer to a poll stay what they are. */
  lemma RestIsFinal(limit: int, s: State, q: Uuid, steps: seq<Step>)
    requires Reachable(limit, s) && q in s.audit.created && AtRest(s, q) && Run(limit, s, steps).Some?
    ensures var s' := Run(limit, s, steps).value;
            && AtRest(s', q)
            && q in s.qm.queries && q in s'.qm.queries && s'.qm.queries[q] == s.qm.queries[q]
            && Poll(s'.qm, q) == Poll(s.qm, q)
  {
    ReachableIsSafe(limit, s);
    CreatedIsStored(s, q);
    RunKeepsRest(limit, s, steps, q);
    SamePolls(s.qm, Run(limit, s, steps).value.qm, q);
  }

  /** In order, what is at rest and PENDING was last retired by a cache hit at the connector, and stays
      PENDING in every continuation. */
  lemma PendingAtRestIsStuck(limit: int, start: int, steps: seq<Step>, q: Uuid, more: seq<Step>)
    requires Run(limit, Init(start), steps).Some? && RunInOrder(limit, Init(start), steps)
    requires TruthyUpstream(Run(limit, Init(start), steps).value)
    requires var s := Run(limit, Init(start), steps).value;
             q in s.audit.created && AtRest(s, q) && q in s.qm.queries && s.qm.queries[q].status == PENDING
    requires Run(limit, Run(limit, Init(start), steps).value, more).Some?
    ensures var s := Run(limit, Init(start), steps).value;
            q in s.lastRetired && s.lastRetired[q] == ByConnector
    ensures var s' := Run(limit, Run(limit, Init(start), steps).value, more).value;
            q in s'.qm.queries && s'.qm.queries[q].status == PENDING
  {
    PendingAtRestWasDropped(limit, start, steps, q);
    RestIsFinal(limit, Run(limit, Init(start), steps).value, q, more);
  }
}
