/** Which status a callback body carries. It is the one the handler loaded, before its own update. */
module CallbackStatus {
  import opened Domain
  import opened Planner
  import opened Protocol
  import opened Order
  import opened Frames
  import opened Conservation
  import opened References
  import opened Handlers
  import opened Announcements
  import opened Invariants
  import opened Notifications
  import opened Rows
  import opened Upstream
  import opened Stuck

  ghost predicate Posted(callbacks: seq<Callback>, q: Uuid) {
    exists j :: 0 <= j < |callbacks| && callbacks[j].body.id == q
  }

  /** Callback `i` says COMPLETED exactly if one of its query was posted before. */
  ghost predicate LaterSaysCompleted(callbacks: seq<Callback>, i: nat)
    requires i < |callbacks|
  {
    callbacks[i].body.status == COMPLETED <==> Posted(callbacks[..i], callbacks[i].body.id)
  }

  ghost predicate PostsFit(queries: map<Uuid, QueryRow>, callbacks: seq<Callback>) {
    && (forall i :: 0 <= i < |callbacks| ==>
          callbacks[i].body.id in queries && queries[callbacks[i].body.id].status == COMPLETED)
    && (forall i :: 0 <= i < |callbacks| ==> LaterSaysCompleted(callbacks, i))
  }

  /** One result at a time: what a handler loaded or saved is still what is stored, and what it is about to
      post fits what was posted. */
  ghost predicate HandlerCurrent(h: Handler, queries: map<Uuid, QueryRow>, callbacks: seq<Callback>) {
    var q := h.msg.token.queryId;
    match h.phase
    case SubFound => true
    case Reading(oldStatus, _, _, _) => q in queries && queries[q].status == oldStatus
    case StatusSaved(_, completed) =>
      q in queries && queries[q].status == StatusOf(completed) && BodyFits(h, callbacks)
    case ResultSaved(_, completed) =>
      q in queries && queries[q].status == StatusOf(completed) && BodyFits(h, callbacks)
  }

  ghost predicate BodyFits(h: Handler, callbacks: seq<Callback>)
    requires h.phase.StatusSaved? || h.phase.ResultSaved?
  {
    h.phase.completed && Notifies(true, h.phase.body.callbackUrl) ==>
      (h.phase.body.status == COMPLETED <==> Posted(callbacks, h.msg.token.queryId))
  }

  ghost predicate StatusInv(queries: map<Uuid, QueryRow>, callbacks: seq<Callback>, handlers: seq<Handler>) {
    && PostsFit(queries, callbacks)
    && forall i :: 0 <= i < |handlers| ==> HandlerCurrent(handlers[i], queries, callbacks)
  }

  ghost predicate StatusHolds(qm: QuerySide) {
    StatusInv(qm.queries, qm.callbacks, qm.handlers)
  }

  // ----- writes of one handler, seen from the others -----

  lemma PhaseKeepsCurrent(queries: map<Uuid, QueryRow>, callbacks: seq<Callback>, handlers: seq<Handler>, i: nat,
                          p: HandlerPhase)
    requires StatusInv(queries, callbacks, handlers) && i < |handlers|
    requires HandlerCurrent(Handler(handlers[i].msg, p), queries, callbacks)
    ensures StatusInv(queries, callbacks, handlers[i := Handler(handlers[i].msg, p)])
  {
  }

  /** Statuses of queries that are stored may change only for `q`, where nothing else is under way. */
  lemma StatusKeepsCurrent(queries: map<Uuid, QueryRow>, queries': map<Uuid, QueryRow>, callbacks: seq<Callback>,
                           handlers: seq<Handler>, i: nat, p: HandlerPhase)
    requires StatusInv(queries, callbacks, handlers) && i < |handlers| && OnePerQuery(handlers)
    requires queries'.Keys == queries.Keys
    requires forall q :: q in queries && q != handlers[i].msg.token.queryId ==> queries'[q].status == queries[q].status
    requires var q := handlers[i].msg.token.queryId;
             q in queries && queries[q].status == COMPLETED ==> queries'[q].status == COMPLETED
    requires HandlerCurrent(Handler(handlers[i].msg, p), queries', callbacks)
    ensures StatusInv(queries', callbacks, handlers[i := Handler(handlers[i].msg, p)])
  {
    var hs := handlers[i := Handler(handlers[i].msg, p)];
    forall k | 0 <= k < |hs| ensures HandlerCurrent(hs[k], queries', callbacks) {
      if k < i {
        assert HandlerCurrent(handlers[k], queries, callbacks);
      } else if i < k {
        assert HandlerCurrent(handlers[k], queries, callbacks);
      }
    }
  }

  lemma StableQueriesKeepCurrent(queries: map<Uuid, QueryRow>, queries': map<Uuid, QueryRow>, callbacks: seq<Callback>,
                                 handlers: seq<Handler>)
    requires StatusInv(queries, callbacks, handlers)
    requires forall q :: q in queries ==> q in queries' && queries'[q].status == queries[q].status
    ensures StatusInv(queries', callbacks, handlers)
  {
    forall i | 0 <= i < |handlers| ensures HandlerCurrent(handlers[i], queries', callbacks) {
      assert HandlerCurrent(handlers[i], queries, callbacks);
    }
  }

  // ----- the steps of a handler -----

  /** A handler that is reading for a COMPLETED query finds it already posted. */
  lemma CompletedIsPosted(s: State, i: nat)
    requires NotifiedInv(s) && OnePerQuery(s.qm.handlers) && CanHandlerSaveStatus(s, i)
    requires var q := s.qm.handlers[i].msg.token.queryId;
             q in s.qm.queries && s.qm.queries[q].status == COMPLETED && Notifies(true, s.qm.queries[q].callbackUrl)
    ensures Posted(s.qm.callbacks, s.qm.handlers[i].msg.token.queryId)
  {
    var q := s.qm.handlers[i].msg.token.queryId;
    assert Told(s.qm.callbacks, s.qm.handlers, q);
    if k :| 0 <= k < |s.qm.handlers| && AboutToTell(s.qm.handlers[k], q) {
      if k < i {
      } else if i < k {
      }
    }
  }

  lemma SavedBodyFits(s: State, i: nat)
    requires NotifiedInv(s) && OnePerQuery(s.qm.handlers) && CanHandlerSaveStatus(s, i)
    requires StatusHolds(s.qm)
    requires HandlerFits(s.qm.handlers[i], s.qm.queries, s.qm.rows)
    ensures BodyFits(HandlerSaveStatus(s, i).qm.handlers[i], s.qm.callbacks)
  {
    var h := s.qm.handlers[i];
    var q := h.msg.token.queryId;
    assert HandlerCurrent(h, s.qm.queries, s.qm.callbacks);
    if Notifies(true, s.qm.queries[q].callbackUrl) && s.qm.queries[q].status == COMPLETED {
      CompletedIsPosted(s, i);
    }
  }

  lemma SaveStatusKeepsStatus(s: State, i: nat)
    requires NotifiedInv(s) && Sound(s, i) && CompletedFirm(s) && OnePerQuery(s.qm.handlers)
             && CanHandlerSaveStatus(s, i)
    requires StatusHolds(s.qm)
    ensures StatusHolds(HandlerSaveStatus(s, i).qm)
  {
    var q := s.qm.handlers[i].msg.token.queryId;
    var s' := HandlerSaveStatus(s, i);
    SavedBodyFits(s, i);
    if s.qm.queries[q].status == COMPLETED {
      SaveStatusKeepsCompleted(s, i, q);
    }
    StatusKeepsCurrent(s.qm.queries, s'.qm.queries, s.qm.callbacks, s.qm.handlers, i, s'.qm.handlers[i].phase);
  }

  lemma LoadKeepsStatus(s: State, i: nat)
    requires CanHandlerLoad(s, i) && s.qm.handlers[i].msg.token.queryId in s.qm.queries
    requires StatusHolds(s.qm)
    ensures StatusHolds(HandlerLoad(s, i).qm)
  {
    PhaseKeepsCurrent(s.qm.queries, s.qm.callbacks, s.qm.handlers, i, HandlerLoad(s, i).qm.handlers[i].phase);
  }

  lemma ReadKeepsStatus(s: State, i: nat, k: nat)
    requires CanHandlerRead(s, i, k) && StatusHolds(s.qm)
    ensures StatusHolds(HandlerRead(s, i, k).qm)
  {
    assert HandlerCurrent(s.qm.handlers[i], s.qm.queries, s.qm.callbacks);
    PhaseKeepsCurrent(s.qm.queries, s.qm.callbacks, s.qm.handlers, i, HandlerRead(s, i, k).qm.handlers[i].phase);
  }

  lemma SaveResultKeepsStatus(s: State, i: nat)
    requires CanHandlerSaveResult(s, i) && StatusHolds(s.qm)
    ensures StatusHolds(HandlerSaveResult(s, i).qm)
  {
    assert HandlerCurrent(s.qm.handlers[i], s.qm.queries, s.qm.callbacks);
    PhaseKeepsCurrent(s.qm.queries, s.qm.callbacks, s.qm.handlers, i, HandlerSaveResult(s, i).qm.handlers[i].phase);
  }

  // ----- posting -----

  lemma PostFits(queries: map<Uuid, QueryRow>, callbacks: seq<Callback>, c: Callback)
    requires PostsFit(queries, callbacks) && c.body.id in queries && queries[c.body.id].status == COMPLETED
    requires c.body.status == COMPLETED <==> Posted(callbacks, c.body.id)
    ensures PostsFit(queries, callbacks + [c])
  {
    var cs := callbacks + [c];
    forall i | 0 <= i < |cs| ensures LaterSaysCompleted(cs, i) {
      if i < |callbacks| {
        assert LaterSaysCompleted(callbacks, i);
        assert cs[..i] == callbacks[..i];
      } else {
        assert cs[..i] == callbacks;
      }
    }
  }

  /** A post for one query changes nothing for the handler of another. */
  lemma PostKeepsOthers(h: Handler, queries: map<Uuid, QueryRow>, callbacks: seq<Callback>, c: Callback)
    requires HandlerCurrent(h, queries, callbacks) && c.body.id != h.msg.token.queryId
    ensures HandlerCurrent(h, queries, callbacks + [c])
  {
    var q := h.msg.token.queryId;
    if j :| 0 <= j < |callbacks| && callbacks[j].body.id == q {
      assert (callbacks + [c])[j].body.id == q;
    }
    if j :| 0 <= j < |callbacks + [c]| && (callbacks + [c])[j].body.id == q {
      assert callbacks[j].body.id == q;
    }
  }

  lemma RemovedStayCurrent(queries: map<Uuid, QueryRow>, callbacks: seq<Callback>, handlers: seq<Handler>, i: nat)
    requires StatusInv(queries, callbacks, handlers) && i < |handlers|
    ensures StatusInv(queries, callbacks, RemoveAt(handlers, i))
  {
    var hs := RemoveAt(handlers, i);
    forall k | 0 <= k < |hs| ensures HandlerCurrent(hs[k], queries, callbacks) {
      assert hs[k] in handlers;
    }
  }

  lemma RemovedAreOthers(handlers: seq<Handler>, i: nat, k: nat)
    requires OnePerQuery(handlers) && i < |handlers| && k < |RemoveAt(handlers, i)|
    ensures RemoveAt(handlers, i)[k].msg.token.queryId != handlers[i].msg.token.queryId
  {
    if k < i {
      assert RemoveAt(handlers, i)[k] == handlers[k];
    } else {
      assert RemoveAt(handlers, i)[k] == handlers[k + 1];
    }
  }

  lemma NotifyKeepsStatus(s: State, i: nat)
    requires CanHandlerNotify(s, i) && OnePerQuery(s.qm.handlers)
             && HandlerFits(s.qm.handlers[i], s.qm.queries, s.qm.rows)
    requires StatusHolds(s.qm)
    ensures StatusHolds(HandlerNotify(s, i).qm)
  {
    var h := s.qm.handlers[i];
    var hs := RemoveAt(s.qm.handlers, i);
    assert HandlerCurrent(h, s.qm.queries, s.qm.callbacks);
    RemovedStayCurrent(s.qm.queries, s.qm.callbacks, s.qm.handlers, i);
    if Notifies(h.phase.completed, h.phase.body.callbackUrl) {
      var c := Callback(h.phase.body.callbackUrl.value, h.phase.body, h.msg.token);
      PostFits(s.qm.queries, s.qm.callbacks, c);
      forall k | 0 <= k < |hs| ensures HandlerCurrent(hs[k], s.qm.queries, s.qm.callbacks + [c]) {
        RemovedAreOthers(s.qm.handlers, i, k);
        PostKeepsOthers(hs[k], s.qm.queries, s.qm.callbacks, c);
      }
    }
  }

  lemma StartKeepsStatus(s: State, m: Received)
    requires m in s.qm.inbox && StatusHolds(s.qm)
    ensures StatusHolds(HandlerStart(s, m).qm)
  {
    var hs := HandlerStart(s, m).qm.handlers;
    forall k | 0 <= k < |hs| ensures HandlerCurrent(hs[k], s.qm.queries, s.qm.callbacks) {
      if k < |s.qm.handlers| {
        assert hs[k] == s.qm.handlers[k];
      }
    }
  }

  lemma HandleKeepsStatus(s: State, h: HandleStep)
    requires Ready(s) && OrderInv(s) && NotifiedInv(s) && CanHandle(s, h) && TruthyUpstream(s)
    requires StatusHolds(s.qm)
    ensures StatusHolds(AfterHandle(s, h).qm)
  {
    match h {
      case SHandlerStart(m) =>
        StartKeepsStatus(s, m);
        assert AfterHandle(s, h) == HandlerStart(s, m);
      case SHandlerLoad(i) =>
        HandlerNames(s, i);
        LoadKeepsStatus(s, i);
        assert AfterHandle(s, h) == HandlerLoad(s, i);
      case SHandlerRead(i, k) =>
        ReadKeepsStatus(s, i, k);
        assert AfterHandle(s, h) == HandlerRead(s, i, k);
      case SHandlerSaveStatus(i) =>
        HandlerIsSound(s, i);
        SaveStatusKeepsStatus(s, i);
        assert AfterHandle(s, h) == HandlerSaveStatus(s, i);
      case SHandlerSaveResult(i) =>
        SaveResultKeepsStatus(s, i);
        assert AfterHandle(s, h) == HandlerSaveResult(s, i);
      case SHandlerNotify(i) =>
        NotifyKeepsStatus(s, i);
        assert AfterHandle(s, h) == HandlerNotify(s, i);
    }
  }

  // ----- creation and runs -----

  lemma CreateKeepsStatuses(s: State, c: CreateStep)
    requires CreatorsFit(s.qm.creators, s.qm.queries, s.qm.rows) && CanCreate(s, c)
    ensures var queries' := AfterCreate(s, c).qm.queries;
            forall q :: q in s.qm.queries ==> q in queries' && queries'[q].status == s.qm.queries[q].status
  {
    match c {
      case SCreateStart(q, keys, url) => assert AfterCreate(s, c) == CreateStart(s, q, keys, url);
      case SCreateRead(q, k) => assert AfterCreate(s, c) == CreateRead(s, q, k);
      case SCreateDecide(q) => assert CreatorFits(q, s.qm.creators[q], s.qm.queries, s.qm.rows);
      case SCreateSaveRows(q) => assert AfterCreate(s, c) == CreateSaveRows(s, q);
      case SCreateEmit(q) => assert AfterCreate(s, c) == CreateEmit(s, q);
    }
  }

  lemma StepKeepsStatus(limit: int, s: State, step: Step)
    requires Ready(s) && OrderInv(s) && NotifiedInv(s) && Enabled(s, step) && TruthyUpstream(s)
    requires StatusHolds(s.qm)
    ensures StatusHolds(Next(limit, s, step).qm)
  {
    match step {
      case Tick(_) =>
      case Creating(c) =>
        CreateKeepsStatuses(s, c);
        CreateFrame(s, c);
        StableQueriesKeepCurrent(s.qm.queries, AfterCreate(s, c).qm.queries, s.qm.callbacks, s.qm.handlers);
      case Moving(m) => MoveLeavesTables(limit, s, m);
      case Caching(w) => WriteFrame(s, w);
      case Handling(h) => HandleKeepsStatus(s, h);
    }
  }

  lemma {:induction false} RunKeepsStatus(limit: int, start: int, steps: seq<Step>)
    requires Run(limit, Init(start), steps).Some? && RunInOrder(limit, Init(start), steps)
    requires TruthyUpstream(Run(limit, Init(start), steps).value)
    ensures StatusHolds(Run(limit, Init(start), steps).value.qm)
  {
    if steps != [] {
      var n := |steps| - 1;
      InOrderBefore(limit, Init(start), steps);
      var s := Run(limit, Init(start), steps[..n]).value;
      StepWasTruthy(limit, s, steps[n]);
      RunKeepsStatus(limit, start, steps[..n]);
      RunKeepsOrder(limit, start, steps[..n]);
      RunKeepsNotified(limit, start, steps[..n]);
      StepKeepsStatus(limit, s, steps[n]);
    }
  }

  /** In order, the first callback of a query always says PENDING, and every later one COMPLETED. */
  lemma FirstPendingThenCompleted(limit: int, start: int, steps: seq<Step>, i: nat)
    requires Run(limit, Init(start), steps).Some? && RunInOrder(limit, Init(start), steps)
    requires TruthyUpstream(Run(limit, Init(start), steps).value)
    requires i < |Run(limit, Init(start), steps).value.qm.callbacks|
    ensures var callbacks := Run(limit, Init(start), steps).value.qm.callbacks;
            callbacks[i].body.status == COMPLETED
            <==> exists j :: 0 <= j < i && callbacks[j].body.id == callbacks[i].body.id
  {
    RunKeepsStatus(limit, start, steps);
    var callbacks := Run(limit, Init(start), steps).value.qm.callbacks;
    assert LaterSaysCompleted(callbacks, i);
    if j :| 0 <= j < i && callbacks[j].body.id == callbacks[i].body.id {
      assert callbacks[..i][j] == callbacks[j];
    }
  }
}
