/** What a stored status of COMPLETED promises, however handlers and deliveries interleave. */
module Completion {
  import opened Domain
  import opened Cache
  import opened Protocol
  import opened Frames
  import opened Conservation
  import opened References
  import opened Handlers
  import opened Presence

  ghost predicate Answered(received: seq<Received>, path: Path) {
    exists i :: 0 <= i < |received| && received[i].token.path == path && Truthy(received[i].result)
  }

  ghost predicate Backed(docs: seq<Doc>, received: seq<Received>, path: Path) {
    Cached(docs, path) || Answered(received, path)
  }

  ghost predicate CompletedBacked(queries: map<Uuid, QueryRow>, rows: map<Uuid, SubRow>, docs: seq<Doc>,
                                  received: seq<Received>) {
    forall q, i ::
      q in queries && queries[q].status == COMPLETED && 0 <= i < |queries[q].subs| && queries[q].subs[i] in rows ==>
        Backed(docs, received, rows[queries[q].subs[i]].path)
  }

  /** A truthy RECEIVE for `path` that the cache manager has not finished with. */
  ghost predicate PendingAtCache(c: CacheSide, path: Path) {
    || (exists m :: m in c.inbox && m.token.path == path && Truthy(m.result))
    || (exists i :: 0 <= i < |c.writes| && c.writes[i].msg.token.path == path && Truthy(c.writes[i].msg.result))
  }

  lemma AnsweredIsPendingOrCached(s: State, path: Path)
    requires Conserved(s) && PresenceInv(s) && Answered(s.pipe.received, path)
    ensures Cached(s.cache.docs, path) || PendingAtCache(s.cache, path)
  {
    var i :| 0 <= i < |s.pipe.received| && s.pipe.received[i].token.path == path && Truthy(s.pipe.received[i].result);
    var m := s.pipe.received[i];
    assert m in multiset(s.pipe.received);
    if m in s.cache.done {
    } else if m !in s.cache.inbox {
      assert m in multiset(WriteMsgs(s.cache.writes));
      var k :| 0 <= k < |WriteMsgs(s.cache.writes)| && WriteMsgs(s.cache.writes)[k] == m;
      assert s.cache.writes[k].msg == m;
    }
  }

  // ----- preservation -----

  lemma BackedStable(docs: seq<Doc>, received: seq<Received>, docs': seq<Doc>, received': seq<Received>, path: Path)
    requires Grows(docs, docs') && received <= received' && Backed(docs, received, path)
    ensures Backed(docs', received', path)
  {
    if Answered(received, path) {
      var i :| 0 <= i < |received| && received[i].token.path == path && Truthy(received[i].result);
      assert received'[i] == received[i];
    }
  }

  /** All results in the body means all paths of the query are backed. */
  lemma AllTruthyIsBacked(s: State, i: nat, k: nat)
    requires Conserved(s) && Referenced(s) && HandlersInv(s) && PresenceInv(s) && CanHandlerSaveStatus(s, i)
    requires var h := s.qm.handlers[i]; AllTruthy(Latest(h.msg, h.phase.keys, h.phase.seen)) && k < |h.phase.keys|
    ensures Backed(s.cache.docs, s.pipe.received, s.qm.handlers[i].phase.keys[k].path)
  {
    var h := s.qm.handlers[i];
    HandlerNames(s, i);
    HandlerIsReceived(s, i);
    assert HandlerFits(h, s.qm.queries, s.qm.rows);
    assert SeenPresent(s.cache.docs, h.phase.keys, h.phase.seen);
    assert Truthy(Latest(h.msg, h.phase.keys, h.phase.seen)[k].result);
    if h.phase.keys[k].id == h.msg.token.id {
      var n :| 0 <= n < |s.pipe.received| && s.pipe.received[n] == h.msg;
      assert Answered(s.pipe.received, h.msg.token.path);
    }
  }

  lemma SaveStatusKeepsBacked(s: State, i: nat)
    requires Conserved(s) && Referenced(s) && HandlersInv(s) && PresenceInv(s) && CanHandlerSaveStatus(s, i)
    requires CompletedBacked(s.qm.queries, s.qm.rows, s.cache.docs, s.pipe.received)
    ensures CompletedBacked(HandlerSaveStatus(s, i).qm.queries, s.qm.rows, s.cache.docs, s.pipe.received)
  {
    var h := s.qm.handlers[i];
    var q0 := h.msg.token.queryId;
    var queries' := HandlerSaveStatus(s, i).qm.queries;
    assert HandlerFits(h, s.qm.queries, s.qm.rows);
    forall q, k |
      && q in queries' && queries'[q].status == COMPLETED
      && 0 <= k < |queries'[q].subs| && queries'[q].subs[k] in s.qm.rows
      ensures Backed(s.cache.docs, s.pipe.received, s.qm.rows[queries'[q].subs[k]].path)
    {
      if q == q0 {
        AllTruthyIsBacked(s, i, k);
      }
    }
  }

  lemma TablesKeepBacked(creators: map<Uuid, Creator>, queries: map<Uuid, QueryRow>, rows: map<Uuid, SubRow>,
                         queries': map<Uuid, QueryRow>, rows': map<Uuid, SubRow>,
                         docs: seq<Doc>, received: seq<Received>)
    requires CompletedBacked(queries, rows, docs, received) && Joined(queries, rows) && RowsStable(rows, rows')
    requires forall q :: q in queries' && queries'[q].status == COMPLETED ==>
               q in queries && queries[q].status == COMPLETED && queries'[q].subs == queries[q].subs
    ensures CompletedBacked(queries', rows', docs, received)
  {
  }

  lemma CreateKeepsBacked(s: State, c: CreateStep)
    requires Referenced(s) && CanCreate(s, c)
    requires CompletedBacked(s.qm.queries, s.qm.rows, s.cache.docs, s.pipe.received)
    ensures CompletedBacked(AfterCreate(s, c).qm.queries, AfterCreate(s, c).qm.rows, s.cache.docs, s.pipe.received)
  {
    var s' := AfterCreate(s, c);
    CreateIsStable(s, c);
    CreateCompletesNothing(s, c);
    TablesKeepBacked(s.qm.creators, s.qm.queries, s.qm.rows, s'.qm.queries, s'.qm.rows, s.cache.docs, s.pipe.received);
  }

  lemma CreateLeavesPending(s: State, c: CreateStep, q: Uuid)
    requires CreatorsFit(s.qm.creators, s.qm.queries, s.qm.rows) && CanCreate(s, c)
    requires q in AfterCreate(s, c).qm.queries && AfterCreate(s, c).qm.queries[q].status == COMPLETED
    ensures q in s.qm.queries && s.qm.queries[q].status == COMPLETED
    ensures AfterCreate(s, c).qm.queries[q].subs == s.qm.queries[q].subs
  {
    match c {
      case SCreateStart(p, keys, url) => assert AfterCreate(s, c) == CreateStart(s, p, keys, url);
      case SCreateRead(p, k) => assert AfterCreate(s, c) == CreateRead(s, p, k);
      case SCreateDecide(p) => assert AfterCreate(s, c) == CreateDecide(s, p);
      case SCreateSaveRows(p) =>
        assert CreatorFits(p, s.qm.creators[p], s.qm.queries, s.qm.rows);
        assert AfterCreate(s, c) == CreateSaveRows(s, p);
      case SCreateEmit(p) => assert AfterCreate(s, c) == CreateEmit(s, p);
    }
  }

  lemma CreateCompletesNothing(s: State, c: CreateStep)
    requires Referenced(s) && CanCreate(s, c)
    ensures var queries' := AfterCreate(s, c).qm.queries;
            forall q :: q in queries' && queries'[q].status == COMPLETED ==>
              q in s.qm.queries && s.qm.queries[q].status == COMPLETED && queries'[q].subs == s.qm.queries[q].subs
  {
    var queries' := AfterCreate(s, c).qm.queries;
    forall q | q in queries' && queries'[q].status == COMPLETED
      ensures q in s.qm.queries && s.qm.queries[q].status == COMPLETED && queries'[q].subs == s.qm.queries[q].subs
    {
      CreateLeavesPending(s, c, q);
    }
  }

  lemma HandleKeepsBacked(s: State, h: HandleStep)
    requires Conserved(s) && Referenced(s) && HandlersInv(s) && PresenceInv(s) && CanHandle(s, h)
    requires CompletedBacked(s.qm.queries, s.qm.rows, s.cache.docs, s.pipe.received)
    ensures CompletedBacked(AfterHandle(s, h).qm.queries, AfterHandle(s, h).qm.rows, s.cache.docs, s.pipe.received)
  {
    match h {
      case SHandlerStart(_) =>
      case SHandlerLoad(_) =>
      case SHandlerRead(_, _) =>
      case SHandlerSaveStatus(i) => SaveStatusKeepsBacked(s, i);
      case SHandlerSaveResult(i) =>
        HandleIsStable(s, h);
        TablesKeepBacked(s.qm.creators, s.qm.queries, s.qm.rows, s.qm.queries, AfterHandle(s, h).qm.rows, s.cache.docs,
                         s.pipe.received);
      case SHandlerNotify(_) =>
    }
  }

  lemma StoresKeepBacked(queries: map<Uuid, QueryRow>, rows: map<Uuid, SubRow>,
                         docs: seq<Doc>, received: seq<Received>, docs': seq<Doc>, received': seq<Received>)
    requires CompletedBacked(queries, rows, docs, received) && Grows(docs, docs') && received <= received'
    ensures CompletedBacked(queries, rows, docs', received')
  {
    forall q, i |
      q in queries && queries[q].status == COMPLETED && 0 <= i < |queries[q].subs| && queries[q].subs[i] in rows
      ensures Backed(docs', received', rows[queries[q].subs[i]].path)
    {
      BackedStable(docs, received, docs', received', rows[queries[q].subs[i]].path);
    }
  }

  ghost predicate CompletionInv(s: State) {
    CompletedBacked(s.qm.queries, s.qm.rows, s.cache.docs, s.pipe.received)
  }

  lemma StepKeepsCompletion(limit: int, s: State, step: Step)
    requires Conserved(s) && Referenced(s) && HandlersInv(s) && PresenceInv(s) && CompletionInv(s) && Enabled(s, step)
    ensures CompletionInv(Next(limit, s, step))
  {
    var s' := Next(limit, s, step);
    match step {
      case Tick(_) =>
      case Creating(c) => CreateKeepsBacked(s, c); CreateLeavesCache(s, c);
      case Moving(m) => MoveLeavesTables(limit, s, m); MoveReceives(limit, s, m);
                        StoresKeepBacked(s.qm.queries, s.qm.rows, s.cache.docs, s.pipe.received, s'.cache.docs,
                                         s'.pipe.received);
      case Caching(_) => StepGrows(limit, s, step);
                         StoresKeepBacked(s.qm.queries, s.qm.rows, s.cache.docs, s.pipe.received, s'.cache.docs,
                                          s.pipe.received);
      case Handling(h) => HandleKeepsBacked(s, h); HandleFrame(s, h);
    }
  }

  lemma MoveReceives(limit: int, s: State, m: MoveStep)
    requires CanMove(s, m)
    ensures s.pipe.received <= AfterMove(limit, s, m).pipe.received
    ensures s.audit.calls <= AfterMove(limit, s, m).audit.calls
  {
    if !m.SConnectorFetch? {
      MoveFrame(limit, s, m);
    }
  }

  /** A query stored as COMPLETED has every path in the cache, or on its way there with a truthy result. */
  lemma CompletedIsSound(s: State, q: Uuid, i: nat)
    requires Conserved(s) && Referenced(s) && PresenceInv(s) && CompletionInv(s)
    requires q in s.qm.queries && s.qm.queries[q].status == COMPLETED && i < |s.qm.queries[q].subs|
    ensures s.qm.queries[q].subs[i] in s.qm.rows
    ensures var path := s.qm.rows[s.qm.queries[q].subs[i]].path;
            Cached(s.cache.docs, path) || PendingAtCache(s.cache, path)
  {
    var path := s.qm.rows[s.qm.queries[q].subs[i]].path;
    if !Cached(s.cache.docs, path) {
      AnsweredIsPendingOrCached(s, path);
    }
  }
}
