/** When a stored query can come to rest without being COMPLETED. The runs considered here are those in
    which the query manager begins a RECEIVE only after the cache manager is done with it, and handles one
    result of a query at a time, as it does when every handler is one uninterrupted step. */
module Stuck {
  import opened Domain
  import opened RateLimiter
  import opened Cache
  import opened Planner
  import opened Protocol
  import opened Order
  import opened Frames
  import opened Conservation
  import opened References
  import opened Handlers
  import opened Presence
  import opened Completion
  import opened Announcements
  import opened Invariants
  import opened Rows
  import opened Upstream

  // ----- the invariants -----

  ghost predicate OnePerQuery(handlers: seq<Handler>) {
    forall i, j :: 0 <= i < j < |handlers| ==> handlers[i].msg.token.queryId != handlers[j].msg.token.queryId
  }

  ghost predicate OneFor(handlers: seq<Handler>, q: Uuid) {
    forall i, j :: 0 <= i < j < |handlers| ==> handlers[i].msg.token.queryId != q || handlers[j].msg.token.queryId != q
  }

  /** The token has left the pipeline: dropped by the connector, or taken up by a result handler. */
  ghost predicate Begun(dropped: multiset<Token>, handlers: seq<Handler>, done: multiset<Received>, t: Token) {
    || t in dropped
    || (exists i :: 0 <= i < |handlers| && handlers[i].msg.token == t)
    || (exists m :: m in done && m.token == t)
  }

  ghost predicate BegunPresent(s: State) {
    forall t :: Begun(s.pipe.dropped, s.qm.handlers, s.qm.done, t) ==>
      Cached(s.cache.docs, t.path) && t.queryId in s.lastRetired
  }

  /** Some token of the query is still before its retirement. */
  ghost predicate Underway(s: State, q: Uuid) {
    exists t :: t in s.pipe.emitted && t.queryId == q && !Begun(s.pipe.dropped, s.qm.handlers, s.qm.done, t)
  }

  ghost predicate AllCached(docs: seq<Doc>, queries: map<Uuid, QueryRow>, rows: map<Uuid, SubRow>, q: Uuid) {
    q in queries && forall i :: 0 <= i < |queries[q].subs| && queries[q].subs[i] in rows ==>
      Cached(docs, rows[queries[q].subs[i]].path)
  }

  ghost predicate SawOnlyHits(h: Handler) {
    h.phase.Reading? ==> forall k :: 0 <= k < |h.phase.seen| && h.phase.seen[k].Some? ==> Truthy(h.phase.seen[k].value)
  }

  ghost predicate OnlyHitsFor(handlers: seq<Handler>, q: Uuid) {
    forall i :: 0 <= i < |handlers| && handlers[i].msg.token.queryId == q ==> SawOnlyHits(handlers[i])
  }

  ghost predicate Deciding(handlers: seq<Handler>, q: Uuid) {
    exists i ::
      0 <= i < |handlers| && handlers[i].msg.token.queryId == q
      && (handlers[i].phase.SubFound? || handlers[i].phase.Reading?)
  }

  /** COMPLETED lasts: all paths are cached, and whoever is reading for the query sees only hits. */
  ghost predicate Firm(s: State, q: Uuid) {
    AllCached(s.cache.docs, s.qm.queries, s.qm.rows, q) && OnlyHitsFor(s.qm.handlers, q)
  }

  ghost predicate CompletedFirm(s: State) {
    forall q :: q in s.qm.queries && s.qm.queries[q].status == COMPLETED ==> Firm(s, q)
  }

  /** If a handler was the last to retire a token of `q`, then either more is to come, or the query is
      COMPLETED or about to be. */
  ghost predicate Rested(s: State, q: Uuid) {
    q in s.lastRetired && s.lastRetired[q].ByHandler? ==>
      || Underway(s, q)
      || (Firm(s, q) && (Deciding(s.qm.handlers, q) || s.qm.queries[q].status == COMPLETED))
  }

  ghost predicate OrderInv(s: State) {
    && OnePerQuery(s.qm.handlers)
    && BegunPresent(s)
    && CompletedFirm(s)
    && (forall q :: q in s.audit.created ==> Rested(s, q))
    && (forall q :: q in s.lastRetired ==> q in s.audit.created)
  }

  ghost predicate Ready(s: State) {
    Conserved(s) && Referenced(s) && HandlersInv(s) && PresenceInv(s) && AnnouncedInv(s)
  }

  /** What the queries' rows, plans and initial results say, which result handling does not change. */
  ghost predicate Plain(s: State) {
    && Joined(s.qm.queries, s.qm.rows)
    && CreatedMatch(s.audit.created, s.qm.creators, s.qm.queries, s.qm.rows)
    && PlansEmitted(s.audit.created, s.pipe.emitted)
    && CreatedPresent(s.cache.docs, s.audit.created)
  }

  // ----- everything begun means everything cached -----

  lemma NothingUnderwayMeansCached(s: State, q: Uuid)
    requires Plain(s) && BegunPresent(s) && q in s.audit.created && !Underway(s, q)
    ensures AllCached(s.cache.docs, s.qm.queries, s.qm.rows, q)
  {
    var ds := s.audit.created[q];
    assert Matches(ds, q, s.qm.queries, s.qm.rows);
    forall i | 0 <= i < |s.qm.queries[q].subs| && s.qm.queries[q].subs[i] in s.qm.rows
      ensures Cached(s.cache.docs, s.qm.rows[s.qm.queries[q].subs[i]].path)
    {
      if !Truthy(ds[i].result) {
        var k := FirstMissingExists(ds, i);
        MissingIsEmitted(s.audit.created, s.pipe.emitted, q, k);
        assert Begun(s.pipe.dropped, s.qm.handlers, s.qm.done, TokenOf(ds[k]));
      }
    }
  }

  // ----- stability -----

  lemma FirmStable(s: State, s': State, q: Uuid)
    requires Firm(s, q) && Joined(s.qm.queries, s.qm.rows)
    requires Grows(s.cache.docs, s'.cache.docs) && RowsStable(s.qm.rows, s'.qm.rows)
    requires q in s'.qm.queries && s'.qm.queries[q].subs == s.qm.queries[q].subs && OnlyHitsFor(s'.qm.handlers, q)
    ensures Firm(s', q)
  {
  }

  lemma UnderwayStable(s: State, s': State, q: Uuid)
    requires Underway(s, q)
    requires forall t :: t in s.pipe.emitted && t.queryId == q ==> t in s'.pipe.emitted
    requires forall t: Token :: t.queryId == q && Begun(s'.pipe.dropped, s'.qm.handlers, s'.qm.done, t) ==>
               Begun(s.pipe.dropped, s.qm.handlers, s.qm.done, t)
    ensures Underway(s', q)
  {
  }

  /** Steps that touch neither handlers nor retirements nor statuses keep the invariants. */
  lemma QuietStep(s: State, s': State)
    requires OrderInv(s) && Joined(s.qm.queries, s.qm.rows)
    requires Grows(s.cache.docs, s'.cache.docs) && RowsStable(s.qm.rows, s'.qm.rows)
    requires s'.qm.handlers == s.qm.handlers && s'.qm.done == s.qm.done && s'.pipe.dropped == s.pipe.dropped
    requires s'.lastRetired == s.lastRetired
    requires forall t :: t in s.pipe.emitted ==> t in s'.pipe.emitted
    requires forall q :: q in s.audit.created ==> q in s'.audit.created
    requires forall q :: q in s'.audit.created ==> q in s.audit.created || q !in s.lastRetired
    requires forall q :: q in s'.qm.queries && s'.qm.queries[q].status == COMPLETED ==>
               q in s.qm.queries && s.qm.queries[q].status == COMPLETED && s'.qm.queries[q].subs == s.qm.queries[q].subs
    requires forall q :: q in s.audit.created ==>
               q in s.qm.queries && q in s'.qm.queries && s'.qm.queries[q] == s.qm.queries[q]
    ensures OrderInv(s')
  {
    forall q | q in s'.qm.queries && s'.qm.queries[q].status == COMPLETED ensures Firm(s', q) {
      FirmStable(s, s', q);
    }
    forall q | q in s'.audit.created ensures Rested(s', q) {
      if q in s.lastRetired && s.lastRetired[q].ByHandler? {
        assert Rested(s, q);
        if Underway(s, q) {
          UnderwayStable(s, s', q);
        } else {
          FirmStable(s, s', q);
        }
      }
    }
  }

  // ----- the connector drops a token -----

  lemma DropKeepsRested(s: State, t: Token, q: Uuid)
    requires Rested(s, q) && Truthy(Read(s.cache.docs, t.path))
    ensures Rested(ConnectorRead(s, t), q)
  {
    var s' := ConnectorRead(s, t);
    if q != t.queryId && Underway(s, q) {
      UnderwayStable(s, s', q);
    }
  }

  lemma DropKeepsBegun(s: State, t: Token)
    requires BegunPresent(s) && Truthy(Read(s.cache.docs, t.path))
    ensures BegunPresent(ConnectorRead(s, t))
  {
    ReadMeansPresent(s.cache.docs, t.path);
  }

  lemma DropKeepsFirm(s: State, t: Token)
    requires CompletedFirm(s)
    ensures CompletedFirm(ConnectorRead(s, t))
  {
    forall q | q in s.qm.queries && s.qm.queries[q].status == COMPLETED ensures Firm(ConnectorRead(s, t), q) {
      assert Firm(s, q);
    }
  }

  lemma DropKeepsOrder(s: State, t: Token)
    requires OrderInv(s) && t.queryId in s.audit.created && Truthy(Read(s.cache.docs, t.path))
    ensures OrderInv(ConnectorRead(s, t))
  {
    DropKeepsBegun(s, t);
    DropKeepsFirm(s, t);
    forall q | q in s.audit.created ensures Rested(ConnectorRead(s, t), q) {
      DropKeepsRested(s, t, q);
    }
  }

  lemma MoveFrameOrder(limit: int, s: State, m: MoveStep)
    requires CanMove(s, m) && (m.SConnectorRead? ==> !Truthy(Read(s.cache.docs, m.t.path)))
    ensures AfterMove(limit, s, m).pipe.dropped == s.pipe.dropped
    ensures AfterMove(limit, s, m).lastRetired == s.lastRetired
  {
    match m {
      case SScheduleCheck(t) => assert AfterMove(limit, s, m) == ScheduleCheck(limit, s, t);
      case SJobCheck(i) => assert AfterMove(limit, s, m) == JobCheck(limit, s, i);
      case SDefer(t) => assert AfterMove(limit, s, m) == Defer(s, t);
      case SEmitFetch(t) => assert AfterMove(limit, s, m) == EmitFetch(s, t);
      case SLogUsage(t, id) => assert AfterMove(limit, s, m) == LogUsage(s, t, id);
      case SConnectorRead(t) => assert AfterMove(limit, s, m) == ConnectorRead(s, t);
      case SConnectorFetch(t, data) => assert AfterMove(limit, s, m) == ConnectorFetch(s, t, data);
    }
  }

  /** A token at the connector belongs to a query that is announced. */
  lemma ConnectorTokenAnnounced(s: State, t: Token)
    requires Conserved(s) && AnnouncedInv(s) && t in s.pipe.connectorInbox
    ensures t.queryId in s.audit.created
  {
    assert t in s.pipe.emitted;
  }

  lemma QuietMoveKeepsOrder(limit: int, s: State, m: MoveStep)
    requires CanMove(s, m) && (m.SConnectorRead? ==> !Truthy(Read(s.cache.docs, m.t.path)))
    requires OrderInv(s) && Joined(s.qm.queries, s.qm.rows)
    requires CreatedMatch(s.audit.created, s.qm.creators, s.qm.queries, s.qm.rows)
    ensures OrderInv(AfterMove(limit, s, m))
  {
    MoveFrameOrder(limit, s, m);
    MoveLeavesTables(limit, s, m);
    MoveEmitsNothing(limit, s, m);
    QuietStep(s, AfterMove(limit, s, m));
  }

  lemma MoveKeepsOrder(limit: int, s: State, m: MoveStep)
    requires Ready(s) && OrderInv(s) && CanMove(s, m)
    ensures OrderInv(AfterMove(limit, s, m))
  {
    if m.SConnectorRead? && Truthy(Read(s.cache.docs, m.t.path)) {
      ConnectorTokenAnnounced(s, m.t);
      DropKeepsOrder(s, m.t);
    } else {
      QuietMoveKeepsOrder(limit, s, m);
    }
  }

  // ----- creation -----

  lemma CreateLeavesAnnounced(s: State, c: CreateStep, q: Uuid)
    requires CreatorsFit(s.qm.creators, s.qm.queries, s.qm.rows) && CanCreate(s, c)
    requires q in s.qm.queries && q !in s.qm.creators
    ensures q in AfterCreate(s, c).qm.queries && AfterCreate(s, c).qm.queries[q] == s.qm.queries[q]
    ensures q in s.audit.created ==> q in AfterCreate(s, c).audit.created
  {
    match c {
      case SCreateStart(p, keys, url) => assert AfterCreate(s, c) == CreateStart(s, p, keys, url);
      case SCreateRead(p, k) => assert AfterCreate(s, c) == CreateRead(s, p, k);
      case SCreateDecide(p) => assert AfterCreate(s, c) == CreateDecide(s, p);
      case SCreateSaveRows(p) => assert AfterCreate(s, c) == CreateSaveRows(s, p);
      case SCreateEmit(p) => assert AfterCreate(s, c) == CreateEmit(s, p);
    }
  }

  lemma CreateAnnouncesOwn(s: State, c: CreateStep, q: Uuid)
    requires CanCreate(s, c) && q in AfterCreate(s, c).audit.created
    ensures q in s.audit.created || q in s.qm.creators
  {
    match c {
      case SCreateStart(p, keys, url) => assert AfterCreate(s, c) == CreateStart(s, p, keys, url);
      case SCreateRead(p, k) => assert AfterCreate(s, c) == CreateRead(s, p, k);
      case SCreateDecide(p) => assert AfterCreate(s, c) == CreateDecide(s, p);
      case SCreateSaveRows(p) => assert AfterCreate(s, c) == CreateSaveRows(s, p);
      case SCreateEmit(p) => assert AfterCreate(s, c) == CreateEmit(s, p);
    }
  }

  lemma MatchedIsStored(created: map<Uuid, seq<SubDto>>, creators: map<Uuid, Creator>, queries: map<Uuid, QueryRow>,
                        rows: map<Uuid, SubRow>, q: Uuid)
    requires CreatedMatch(created, creators, queries, rows) && q in created
    ensures q in queries && q !in creators
  {
    assert Matches(created[q], q, queries, rows);
  }

  lemma CreateAnnounces(s: State, c: CreateStep)
    requires CreatedMatch(s.audit.created, s.qm.creators, s.qm.queries, s.qm.rows) && CanCreate(s, c)
    requires forall q :: q in s.lastRetired ==> q in s.audit.created
    requires CreatorsFit(s.qm.creators, s.qm.queries, s.qm.rows)
    ensures var s' := AfterCreate(s, c);
            && (forall q :: q in s.audit.created ==>
                q in s'.audit.created && q in s'.qm.queries && s'.qm.queries[q] == s.qm.queries[q])
            && (forall q :: q in s'.audit.created ==> q in s.audit.created || q !in s.lastRetired)
  {
    var s' := AfterCreate(s, c);
    forall q | q in s.audit.created
      ensures q in s'.audit.created && q in s'.qm.queries && s'.qm.queries[q] == s.qm.queries[q]
    {
      MatchedIsStored(s.audit.created, s.qm.creators, s.qm.queries, s.qm.rows, q);
      CreateLeavesAnnounced(s, c, q);
    }
    forall q | q in s'.audit.created ensures q in s.audit.created || q !in s.lastRetired {
      CreateAnnouncesOwn(s, c, q);
    }
  }

  lemma CreateEmitsOnly(s: State, c: CreateStep)
    requires CanCreate(s, c)
    ensures forall t :: t in s.pipe.emitted ==> t in AfterCreate(s, c).pipe.emitted
  {
    match c {
      case SCreateStart(q, keys, url) => assert AfterCreate(s, c) == CreateStart(s, q, keys, url);
      case SCreateRead(q, k) => assert AfterCreate(s, c) == CreateRead(s, q, k);
      case SCreateDecide(q) => assert AfterCreate(s, c) == CreateDecide(s, q);
      case SCreateSaveRows(q) => assert AfterCreate(s, c) == CreateSaveRows(s, q);
      case SCreateEmit(q) => assert AfterCreate(s, c) == CreateEmit(s, q);
    }
  }

  lemma CreateKeepsOrder(s: State, c: CreateStep)
    requires Referenced(s) && OrderInv(s) && CanCreate(s, c)
    requires CreatedMatch(s.audit.created, s.qm.creators, s.qm.queries, s.qm.rows)
    ensures OrderInv(AfterCreate(s, c))
  {
    CreateAnnounces(s, c);
    CreateEmitsOnly(s, c);
    CreateFrame(s, c);
    CreateLeavesCache(s, c);
    CreateLeavesLimiter(s, c);
    CreateIsStable(s, c);
    CreateCompletesNothing(s, c);
    QuietStep(s, AfterCreate(s, c));
  }

  // ----- a result handler begins -----

  lemma StartBegins(s: State, m: Received, t: Token)
    requires m.token.id in s.qm.rows
    ensures var s' := HandlerStart(s, m);
            Begun(s'.pipe.dropped, s'.qm.handlers, s'.qm.done, t)
            <==> Begun(s.pipe.dropped, s.qm.handlers, s.qm.done, t) || t == m.token
  {
    var hs := s.qm.handlers;
    var hs' := HandlerStart(s, m).qm.handlers;
    assert hs'[|hs|].msg.token == m.token;
    if i :| 0 <= i < |hs| && hs[i].msg.token == t {
      assert hs'[i].msg.token == t;
    }
  }

  lemma StartKeepsBegun(s: State, m: Received)
    requires BegunPresent(s) && m.token.id in s.qm.rows && Cached(s.cache.docs, m.token.path)
    ensures BegunPresent(HandlerStart(s, m))
  {
    var s' := HandlerStart(s, m);
    forall t | Begun(s'.pipe.dropped, s'.qm.handlers, s'.qm.done, t)
      ensures Cached(s'.cache.docs, t.path) && t.queryId in s'.lastRetired
    {
      StartBegins(s, m, t);
    }
  }

  /** Nobody else handles a result of the query that begins. */
  lemma StartOnlyHits(s: State, m: Received)
    requires m.token.id in s.qm.rows
    requires forall i :: 0 <= i < |s.qm.handlers| ==> s.qm.handlers[i].msg.token.queryId != m.token.queryId
    ensures OnlyHitsFor(HandlerStart(s, m).qm.handlers, m.token.queryId)
    ensures Deciding(HandlerStart(s, m).qm.handlers, m.token.queryId)
  {
    DecidingAt(HandlerStart(s, m).qm.handlers, |s.qm.handlers|);
  }

  lemma StartIsPlain(s: State, m: Received)
    requires Plain(s)
    ensures Plain(HandlerStart(s, m))
  {
  }

  /** For the query whose result arrives: more is to come, or everything is cached. */
  lemma StartRestsOwn(s: State, m: Received)
    requires Plain(s) && m.token.id in s.qm.rows && m.token.queryId in s.audit.created
             && BegunPresent(HandlerStart(s, m))
    requires forall i :: 0 <= i < |s.qm.handlers| ==> s.qm.handlers[i].msg.token.queryId != m.token.queryId
    ensures Rested(HandlerStart(s, m), m.token.queryId)
  {
    var s' := HandlerStart(s, m);
    StartOnlyHits(s, m);
    if !Underway(s', m.token.queryId) {
      StartIsPlain(s, m);
      NothingUnderwayMeansCached(s', m.token.queryId);
    }
  }

  lemma StartRestsOthers(s: State, m: Received, q: Uuid)
    requires Rested(s, q) && m.token.id in s.qm.rows && q != m.token.queryId
    ensures Rested(HandlerStart(s, m), q)
  {
    var s' := HandlerStart(s, m);
    if q in s.lastRetired && s.lastRetired[q].ByHandler? {
      if Underway(s, q) {
        forall t: Token | t.queryId == q && Begun(s'.pipe.dropped, s'.qm.handlers, s'.qm.done, t)
          ensures Begun(s.pipe.dropped, s.qm.handlers, s.qm.done, t)
        {
          StartBegins(s, m, t);
        }
        UnderwayStable(s, s', q);
      } else if Deciding(s.qm.handlers, q) {
        StartKeepsDeciding(s, m, q);
      }
    }
  }

  lemma StartKeepsDeciding(s: State, m: Received, q: Uuid)
    requires Deciding(s.qm.handlers, q) && m.token.id in s.qm.rows
    ensures Deciding(HandlerStart(s, m).qm.handlers, q)
  {
    var i :| 0 <= i < |s.qm.handlers| && s.qm.handlers[i].msg.token.queryId == q
             && (s.qm.handlers[i].phase.SubFound? || s.qm.handlers[i].phase.Reading?);
    assert HandlerStart(s, m).qm.handlers[i] == s.qm.handlers[i];
  }

  lemma StartKeepsFirm(s: State, m: Received)
    requires CompletedFirm(s) && m.token.id in s.qm.rows
    ensures CompletedFirm(HandlerStart(s, m))
  {
    forall q | q in s.qm.queries && s.qm.queries[q].status == COMPLETED ensures Firm(HandlerStart(s, m), q) {
      assert Firm(s, q);
    }
  }

  lemma StartKeepsRested(s: State, m: Received)
    requires Plain(s) && m.token.id in s.qm.rows && m.token.queryId in s.audit.created
             && BegunPresent(HandlerStart(s, m))
    requires InOrder(s, Handling(SHandlerStart(m)))
    requires forall q :: q in s.audit.created ==> Rested(s, q)
    ensures forall q :: q in s.audit.created ==> Rested(HandlerStart(s, m), q)
  {
    forall q | q in s.audit.created ensures Rested(HandlerStart(s, m), q) {
      if q == m.token.queryId {
        StartRestsOwn(s, m);
      } else {
        StartRestsOthers(s, m, q);
      }
    }
  }

  lemma StartKeepsOne(s: State, m: Received)
    requires OnePerQuery(s.qm.handlers) && InOrder(s, Handling(SHandlerStart(m))) && m.token.id in s.qm.rows
    ensures OnePerQuery(HandlerStart(s, m).qm.handlers)
  {
  }

  lemma StartKeepsOrder(s: State, m: Received)
    requires Plain(s) && OrderInv(s) && DonePresent(s.cache.docs, s.cache.done)
    requires InOrder(s, Handling(SHandlerStart(m))) && Truthy(m.result)
    requires m.token.id in s.qm.rows && m.token.queryId in s.audit.created
    ensures OrderInv(HandlerStart(s, m))
  {
    StartKeepsBegun(s, m);
    StartKeepsFirm(s, m);
    StartKeepsOne(s, m);
    StartKeepsRested(s, m);
  }

  // ----- a result handler goes on -----

  lemma SetPhaseBegins(s: State, i: nat, p: HandlerPhase, t: Token)
    requires i < |s.qm.handlers|
    ensures Begun(s.pipe.dropped, SetPhase(s, i, p).qm.handlers, s.qm.done, t)
            <==> Begun(s.pipe.dropped, s.qm.handlers, s.qm.done, t)
  {
    var hs := s.qm.handlers;
    var hs' := SetPhase(s, i, p).qm.handlers;
    if k :| 0 <= k < |hs| && hs[k].msg.token == t {
      assert hs'[k].msg.token == t;
    }
  }

  lemma DecidingAt(handlers: seq<Handler>, i: nat)
    requires i < |handlers| && (handlers[i].phase.SubFound? || handlers[i].phase.Reading?)
    ensures Deciding(handlers, handlers[i].msg.token.queryId)
  {
  }

  lemma SetPhaseKeepsDeciding(s: State, i: nat, p: HandlerPhase, q: Uuid)
    requires i < |s.qm.handlers| && Deciding(s.qm.handlers, q)
    requires p.SubFound? || p.Reading? || q != s.qm.handlers[i].msg.token.queryId
    ensures Deciding(SetPhase(s, i, p).qm.handlers, q)
  {
    var k :| 0 <= k < |s.qm.handlers| && s.qm.handlers[k].msg.token.queryId == q
             && (s.qm.handlers[k].phase.SubFound? || s.qm.handlers[k].phase.Reading?);
    DecidingAt(SetPhase(s, i, p).qm.handlers, k);
  }

  /** A handler of one query moves to its next phase, and writes at most its own query and row. */
  ghost predicate Advances(s: State, s': State, i: nat, p: HandlerPhase) {
    && i < |s.qm.handlers|
    && s'.qm.handlers == s.qm.handlers[i := Handler(s.qm.handlers[i].msg, p)]
    && s'.qm.done == s.qm.done && s'.pipe == s.pipe && s'.cache == s.cache && s'.audit == s.audit
    && s'.lastRetired == s.lastRetired
    && RowsStable(s.qm.rows, s'.qm.rows)
    && s'.qm.queries.Keys == s.qm.queries.Keys
    && (forall q :: q in s.qm.queries ==> s'.qm.queries[q].subs == s.qm.queries[q].subs)
    && (forall q :: q in s.qm.queries && q != s.qm.handlers[i].msg.token.queryId ==>
        s'.qm.queries[q] == s.qm.queries[q])
  }

  lemma AdvanceKeepsBegun(s: State, s': State, i: nat, p: HandlerPhase)
    requires Advances(s, s', i, p) && BegunPresent(s)
    ensures BegunPresent(s')
  {
    forall t | Begun(s'.pipe.dropped, s'.qm.handlers, s'.qm.done, t)
      ensures Cached(s'.cache.docs, t.path) && t.queryId in s'.lastRetired
    {
      SetPhaseBegins(s, i, p, t);
    }
  }

  lemma AdvanceKeepsUnderway(s: State, s': State, i: nat, p: HandlerPhase, q: Uuid)
    requires Advances(s, s', i, p) && Underway(s, q)
    ensures Underway(s', q)
  {
    forall t: Token | t.queryId == q && Begun(s'.pipe.dropped, s'.qm.handlers, s'.qm.done, t)
      ensures Begun(s.pipe.dropped, s.qm.handlers, s.qm.done, t)
    {
      SetPhaseBegins(s, i, p, t);
    }
    UnderwayStable(s, s', q);
  }

  lemma AdvanceKeepsFirm(s: State, s': State, i: nat, p: HandlerPhase, q: Uuid)
    requires Advances(s, s', i, p) && Firm(s, q) && Joined(s.qm.queries, s.qm.rows)
    requires q == s.qm.handlers[i].msg.token.queryId ==> SawOnlyHits(Handler(s.qm.handlers[i].msg, p))
    ensures Firm(s', q)
  {
    FirmStable(s, s', q);
  }

  lemma AdvanceKeepsOthers(s: State, s': State, i: nat, p: HandlerPhase, q: Uuid)
    requires Advances(s, s', i, p) && Rested(s, q) && Joined(s.qm.queries, s.qm.rows)
    requires q in s.qm.queries && q != s.qm.handlers[i].msg.token.queryId
    ensures Rested(s', q)
  {
    if q in s.lastRetired && s.lastRetired[q].ByHandler? {
      if Underway(s, q) {
        AdvanceKeepsUnderway(s, s', i, p, q);
      } else {
        AdvanceKeepsFirm(s, s', i, p, q);
        if Deciding(s.qm.handlers, q) {
          SetPhaseKeepsDeciding(s, i, p, q);
        }
      }
    }
  }

  predicate IsCompleted(queries: map<Uuid, QueryRow>, q: Uuid) {
    q in queries && queries[q].status == COMPLETED
  }

  /** The handler's own query: still under way, or else it stays firm and gets decided. */
  lemma AdvanceRestsOwn(s: State, s': State, i: nat, p: HandlerPhase)
    requires Advances(s, s', i, p) && Joined(s.qm.queries, s.qm.rows) && Rested(s, s.qm.handlers[i].msg.token.queryId)
    requires var q := s.qm.handlers[i].msg.token.queryId;
             Firm(s, q) ==> SawOnlyHits(Handler(s.qm.handlers[i].msg, p))
                            && (Deciding(s.qm.handlers, q) || s.qm.queries[q].status == COMPLETED
                                ==> p.SubFound? || p.Reading? || IsCompleted(s'.qm.queries, q))
    ensures Rested(s', s.qm.handlers[i].msg.token.queryId)
  {
    var q := s.qm.handlers[i].msg.token.queryId;
    if q in s.lastRetired && s.lastRetired[q].ByHandler? {
      if Underway(s, q) {
        AdvanceKeepsUnderway(s, s', i, p, q);
      } else {
        AdvanceKeepsFirm(s, s', i, p, q);
        if p.SubFound? || p.Reading? {
          DecidingAt(s'.qm.handlers, i);
        }
      }
    }
  }

  lemma AdvanceKeepsOrder(s: State, s': State, i: nat, p: HandlerPhase)
    requires Advances(s, s', i, p) && OrderInv(s) && Joined(s.qm.queries, s.qm.rows)
    requires forall q :: q in s.audit.created ==> q in s.qm.queries
    requires var q0 := s.qm.handlers[i].msg.token.queryId;
             && (q0 in s'.qm.queries && s'.qm.queries[q0].status == COMPLETED ==> Firm(s', q0))
             && Rested(s', q0)
    ensures OrderInv(s')
  {
    var q0 := s.qm.handlers[i].msg.token.queryId;
    AdvanceKeepsBegun(s, s', i, p);
    forall q | q in s'.qm.queries && s'.qm.queries[q].status == COMPLETED ensures Firm(s', q) {
      if q != q0 {
        AdvanceKeepsFirm(s, s', i, p, q);
      }
    }
    forall q | q in s'.audit.created ensures Rested(s', q) {
      if q != q0 {
        AdvanceKeepsOthers(s, s', i, p, q);
      }
    }
  }

  /** What the steps of a handler need to know about it. */
  ghost predicate Sound(s: State, i: nat) {
    && i < |s.qm.handlers|
    && Joined(s.qm.queries, s.qm.rows)
    && (forall q :: q in s.audit.created ==> q in s.qm.queries)
    && HandlerFits(s.qm.handlers[i], s.qm.queries, s.qm.rows)
    && Names(s.qm.handlers[i].msg.token, s.qm.creators, s.qm.queries, s.qm.rows)
    && s.qm.handlers[i].msg.token.queryId in s.audit.created
    && Truthy(s.qm.handlers[i].msg.result)
  }

  lemma HandlerIsSound(s: State, i: nat)
    requires Conserved(s) && Referenced(s) && HandlersInv(s) && AnnouncedInv(s) && TruthyUpstream(s)
             && i < |s.qm.handlers|
    ensures Sound(s, i)
  {
    HandlerNames(s, i);
    HandlerIsReceived(s, i);
    MessageIsTruthy(s, s.qm.handlers[i].msg);
  }

  lemma LoadKeepsOrder(s: State, i: nat)
    requires Sound(s, i) && OrderInv(s) && CanHandlerLoad(s, i)
    ensures OrderInv(HandlerLoad(s, i))
  {
    var q := s.qm.handlers[i].msg.token.queryId;
    var row := s.qm.queries[q];
    var p := Reading(row.status, row.callbackUrl, Keys(row.subs, s.qm.rows), NoReads(|row.subs|));
    var s' := HandlerLoad(s, i);
    assert Advances(s, s', i, p);
    AdvanceRestsOwn(s, s', i, p);
    if row.status == COMPLETED {
      AdvanceKeepsFirm(s, s', i, p, q);
    }
    AdvanceKeepsOrder(s, s', i, p);
  }

  /** While all paths of its query are cached, a handler reads only hits. */
  lemma FirmReadHits(s: State, i: nat, k: nat)
    requires Sound(s, i) && Collection(s.cache.docs) && CanHandlerRead(s, i, k)
             && Firm(s, s.qm.handlers[i].msg.token.queryId)
    ensures Truthy(Read(s.cache.docs, s.qm.handlers[i].phase.keys[k].path))
  {
    var h := s.qm.handlers[i];
    var q := h.msg.token.queryId;
    assert h.phase.keys[k].path == s.qm.rows[s.qm.queries[q].subs[k]].path;
    ReadRefinesLookup(s.cache.docs, h.phase.keys[k].path);
  }

  lemma ReadKeepsOrder(s: State, i: nat, k: nat)
    requires Sound(s, i) && Collection(s.cache.docs) && OrderInv(s) && CanHandlerRead(s, i, k)
    ensures OrderInv(HandlerRead(s, i, k))
  {
    var q := s.qm.handlers[i].msg.token.queryId;
    var s' := HandlerRead(s, i, k);
    var p := s'.qm.handlers[i].phase;
    assert Advances(s, s', i, p);
    if Firm(s, q) {
      FirmReadHits(s, i, k);
      assert SawOnlyHits(s.qm.handlers[i]);
    }
    AdvanceRestsOwn(s, s', i, p);
    if s.qm.queries[q].status == COMPLETED {
      AdvanceKeepsFirm(s, s', i, p, q);
    }
    AdvanceKeepsOrder(s, s', i, p);
  }

  /** Only hits and a truthy arrival make the query COMPLETED. */
  lemma OnlyHitsComplete(s: State, i: nat)
    requires CanHandlerSaveStatus(s, i) && Truthy(s.qm.handlers[i].msg.result) && SawOnlyHits(s.qm.handlers[i])
    requires |s.qm.handlers[i].phase.keys| == |s.qm.handlers[i].phase.seen|
    ensures var h := s.qm.handlers[i]; AllTruthy(Latest(h.msg, h.phase.keys, h.phase.seen))
  {
  }

  /** COMPLETED is written only when all paths are cached. */
  lemma CompleteMeansCached(s: State, i: nat)
    requires Sound(s, i) && CanHandlerSaveStatus(s, i) && HandlersSaw(s.cache.docs, s.qm.handlers)
    requires Cached(s.cache.docs, s.qm.handlers[i].msg.token.path)
    requires var h := s.qm.handlers[i]; AllTruthy(Latest(h.msg, h.phase.keys, h.phase.seen))
    ensures AllCached(s.cache.docs, s.qm.queries, s.qm.rows, s.qm.handlers[i].msg.token.queryId)
  {
    var h := s.qm.handlers[i];
    var q := h.msg.token.queryId;
    assert SeenPresent(s.cache.docs, h.phase.keys, h.phase.seen);
    forall k | 0 <= k < |s.qm.queries[q].subs| && s.qm.queries[q].subs[k] in s.qm.rows
      ensures Cached(s.cache.docs, s.qm.rows[s.qm.queries[q].subs[k]].path)
    {
      assert Truthy(Latest(h.msg, h.phase.keys, h.phase.seen)[k].result);
    }
  }

  /** Once the status is saved, nobody reads for the query any more. */
  lemma NobodyReads(handlers: seq<Handler>, i: nat, p: HandlerPhase)
    requires i < |handlers| && OneFor(handlers, handlers[i].msg.token.queryId) && !p.Reading?
    ensures OnlyHitsFor(handlers[i := Handler(handlers[i].msg, p)], handlers[i].msg.token.queryId)
  {
    var hs := handlers[i := Handler(handlers[i].msg, p)];
    forall k | 0 <= k < |hs| && hs[k].msg.token.queryId == handlers[i].msg.token.queryId ensures SawOnlyHits(hs[k]) {
      if k < i {
      } else if i < k {
      }
    }
  }

  /** So a query that a handler completes stays so. */
  lemma SavedIsFirm(s: State, i: nat)
    requires Sound(s, i) && CanHandlerSaveStatus(s, i) && HandlersSaw(s.cache.docs, s.qm.handlers)
    requires Cached(s.cache.docs, s.qm.handlers[i].msg.token.path)
    requires OneFor(s.qm.handlers, s.qm.handlers[i].msg.token.queryId)
    requires IsCompleted(HandlerSaveStatus(s, i).qm.queries, s.qm.handlers[i].msg.token.queryId)
    ensures Firm(HandlerSaveStatus(s, i), s.qm.handlers[i].msg.token.queryId)
  {
    CompleteMeansCached(s, i);
    NobodyReads(s.qm.handlers, i, HandlerSaveStatus(s, i).qm.handlers[i].phase);
  }

  lemma SaveStatusKeepsOrder(s: State, i: nat)
    requires Sound(s, i) && OrderInv(s) && CanHandlerSaveStatus(s, i) && HandlersSaw(s.cache.docs, s.qm.handlers)
    ensures OrderInv(HandlerSaveStatus(s, i))
  {
    var h := s.qm.handlers[i];
    var q := h.msg.token.queryId;
    var s' := HandlerSaveStatus(s, i);
    var p := s'.qm.handlers[i].phase;
    assert Advances(s, s', i, p);
    if Firm(s, q) {
      assert SawOnlyHits(h);
      OnlyHitsComplete(s, i);
    }
    AdvanceRestsOwn(s, s', i, p);
    if s'.qm.queries[q].status == COMPLETED {
      assert Begun(s.pipe.dropped, s.qm.handlers, s.qm.done, h.msg.token);
      SavedIsFirm(s, i);
    }
    AdvanceKeepsOrder(s, s', i, p);
  }

  lemma SaveResultKeepsOrder(s: State, i: nat)
    requires Sound(s, i) && OrderInv(s) && CanHandlerSaveResult(s, i)
    ensures OrderInv(HandlerSaveResult(s, i))
  {
    var q := s.qm.handlers[i].msg.token.queryId;
    var s' := HandlerSaveResult(s, i);
    var p := s'.qm.handlers[i].phase;
    assert Advances(s, s', i, p);
    NotDeciding(s, i);
    AdvanceRestsOwn(s, s', i, p);
    if s'.qm.queries[q].status == COMPLETED {
      AdvanceKeepsFirm(s, s', i, p, q);
    }
    AdvanceKeepsOrder(s, s', i, p);
  }

  lemma NotDeciding(s: State, i: nat)
    requires OnePerQuery(s.qm.handlers) && i < |s.qm.handlers|
    requires !s.qm.handlers[i].phase.SubFound? && !s.qm.handlers[i].phase.Reading?
    ensures !Deciding(s.qm.handlers, s.qm.handlers[i].msg.token.queryId)
  {
    forall k | 0 <= k < |s.qm.handlers| && s.qm.handlers[k].msg.token.queryId == s.qm.handlers[i].msg.token.queryId
      ensures k == i
    {
      if k < i {
      } else if i < k {
      }
    }
  }

  // ----- a result handler ends -----

  lemma NotifyBegins(s: State, i: nat, t: Token)
    requires CanHandlerNotify(s, i)
    ensures var s' := HandlerNotify(s, i);
            Begun(s'.pipe.dropped, s'.qm.handlers, s'.qm.done, t) ==> Begun(s.pipe.dropped, s.qm.handlers, s.qm.done, t)
  {
    var s' := HandlerNotify(s, i);
    if k :| 0 <= k < |s'.qm.handlers| && s'.qm.handlers[k].msg.token == t {
      assert s'.qm.handlers[k] in s.qm.handlers;
    } else if m :| m in s'.qm.done && m.token == t {
      assert m in s.qm.done || m == s.qm.handlers[i].msg;
    }
  }

  lemma NotifyKeepsHits(s: State, i: nat, q: Uuid)
    requires i < |s.qm.handlers| && OnlyHitsFor(s.qm.handlers, q)
    ensures OnlyHitsFor(RemoveAt(s.qm.handlers, i), q)
  {
    var hs := RemoveAt(s.qm.handlers, i);
    forall k | 0 <= k < |hs| && hs[k].msg.token.queryId == q ensures SawOnlyHits(hs[k]) {
      assert hs[k] in s.qm.handlers;
    }
  }

  lemma NotifyKeepsDeciding(s: State, i: nat, q: Uuid)
    requires CanHandlerNotify(s, i) && Deciding(s.qm.handlers, q)
    ensures Deciding(RemoveAt(s.qm.handlers, i), q)
  {
    var k :| 0 <= k < |s.qm.handlers| && s.qm.handlers[k].msg.token.queryId == q
             && (s.qm.handlers[k].phase.SubFound? || s.qm.handlers[k].phase.Reading?);
    RemoveAtKeeps(s.qm.handlers, i, s.qm.handlers[k]);
    var n :| 0 <= n < |RemoveAt(s.qm.handlers, i)| && RemoveAt(s.qm.handlers, i)[n] == s.qm.handlers[k];
    DecidingAt(RemoveAt(s.qm.handlers, i), n);
  }

  lemma NotifyKeepsRested(s: State, i: nat, q: Uuid)
    requires Rested(s, q) && CanHandlerNotify(s, i)
    ensures Rested(HandlerNotify(s, i), q)
  {
    var s' := HandlerNotify(s, i);
    if q in s.lastRetired && s.lastRetired[q].ByHandler? {
      if Underway(s, q) {
        forall t: Token | t.queryId == q && Begun(s'.pipe.dropped, s'.qm.handlers, s'.qm.done, t)
          ensures Begun(s.pipe.dropped, s.qm.handlers, s.qm.done, t)
        {
          NotifyBegins(s, i, t);
        }
        UnderwayStable(s, s', q);
      } else {
        NotifyKeepsHits(s, i, q);
        if Deciding(s.qm.handlers, q) {
          NotifyKeepsDeciding(s, i, q);
        }
      }
    }
  }

  lemma NotifyKeepsBegun(s: State, i: nat)
    requires BegunPresent(s) && CanHandlerNotify(s, i)
    ensures BegunPresent(HandlerNotify(s, i))
  {
    var s' := HandlerNotify(s, i);
    forall t | Begun(s'.pipe.dropped, s'.qm.handlers, s'.qm.done, t)
      ensures Cached(s'.cache.docs, t.path) && t.queryId in s'.lastRetired
    {
      NotifyBegins(s, i, t);
    }
  }

  lemma NotifyKeepsFirm(s: State, i: nat)
    requires CompletedFirm(s) && CanHandlerNotify(s, i)
    ensures CompletedFirm(HandlerNotify(s, i))
  {
    forall q | q in s.qm.queries && s.qm.queries[q].status == COMPLETED ensures Firm(HandlerNotify(s, i), q) {
      assert Firm(s, q);
      NotifyKeepsHits(s, i, q);
    }
  }

  lemma NotifyKeepsOrder(s: State, i: nat)
    requires OrderInv(s) && CanHandlerNotify(s, i)
    ensures OrderInv(HandlerNotify(s, i))
  {
    NotifyKeepsBegun(s, i);
    NotifyKeepsFirm(s, i);
    forall q | q in s.audit.created ensures Rested(HandlerNotify(s, i), q) {
      NotifyKeepsRested(s, i, q);
    }
  }

  lemma ArrivalIsSound(s: State, m: Received)
    requires Conserved(s) && Referenced(s) && AnnouncedInv(s) && TruthyUpstream(s) && m in s.qm.inbox
    ensures m.token.id in s.qm.rows && m.token.queryId in s.audit.created && Truthy(m.result)
  {
    InboxNames(s, m);
    MessageIsTruthy(s, m);
  }

  lemma HandleKeepsOrder(s: State, h: HandleStep)
    requires Ready(s) && OrderInv(s) && CanHandle(s, h) && InOrder(s, Handling(h)) && TruthyUpstream(s)
    ensures OrderInv(AfterHandle(s, h))
  {
    match h {
      case SHandlerStart(m) => ArrivalIsSound(s, m); StartKeepsOrder(s, m);
      case SHandlerLoad(i) => HandlerIsSound(s, i); LoadKeepsOrder(s, i);
      case SHandlerRead(i, k) => HandlerIsSound(s, i); ReadKeepsOrder(s, i, k);
      case SHandlerSaveStatus(i) => HandlerIsSound(s, i); SaveStatusKeepsOrder(s, i);
      case SHandlerSaveResult(i) => HandlerIsSound(s, i); SaveResultKeepsOrder(s, i);
      case SHandlerNotify(i) => NotifyKeepsOrder(s, i);
    }
  }

  lemma TickKeepsOrder(s: State, d: nat)
    requires Plain(s) && OrderInv(s)
    ensures OrderInv(s.(lim := Advance(s.lim, d)))
  {
    QuietStep(s, s.(lim := Advance(s.lim, d)));
  }

  lemma CacheMovesOn(s: State, cache: CacheSide)
    requires Plain(s) && OrderInv(s) && Grows(s.cache.docs, cache.docs)
    ensures OrderInv(s.(cache := cache))
  {
    QuietStep(s, s.(cache := cache));
  }

  lemma StepKeepsOrder(limit: int, s: State, step: Step)
    requires Ready(s) && OrderInv(s) && Enabled(s, step) && InOrder(s, step) && TruthyUpstream(s)
    ensures OrderInv(Next(limit, s, step))
  {
    match step {
      case Tick(d) => TickKeepsOrder(s, d);
      case Creating(c) => CreateKeepsOrder(s, c);
      case Moving(m) => MoveKeepsOrder(limit, s, m);
      case Caching(w) => StepGrows(limit, s, step); WriteFrame(s, w); CacheMovesOn(s, AfterWrite(s, w).cache);
      case Handling(h) => HandleKeepsOrder(s, h);
    }
  }

  lemma InOrderBefore(limit: int, s: State, steps: seq<Step>)
    requires RunInOrder(limit, s, steps) && steps != []
    ensures var n := |steps| - 1;
            && RunInOrder(limit, s, steps[..n]) && Run(limit, s, steps[..n]).Some?
            && InOrder(Run(limit, s, steps[..n]).value, steps[n])
  {
    ObeysBefore(limit, IN_ORDER, s, steps);
  }

  lemma RunIsReady(limit: int, start: int, steps: seq<Step>)
    requires Run(limit, Init(start), steps).Some?
    ensures Ready(Run(limit, Init(start), steps).value)
  {
    InitIsSafe(start);
    RunKeepsSafe(limit, Init(start), steps);
  }

  lemma {:induction false} RunKeepsOrder(limit: int, start: int, steps: seq<Step>)
    requires Run(limit, Init(start), steps).Some? && RunInOrder(limit, Init(start), steps)
    requires TruthyUpstream(Run(limit, Init(start), steps).value)
    ensures OrderInv(Run(limit, Init(start), steps).value) && Ready(Run(limit, Init(start), steps).value)
  {
    RunIsReady(limit, start, steps);
    if steps != [] {
      var n := |steps| - 1;
      InOrderBefore(limit, Init(start), steps);
      var s := Run(limit, Init(start), steps[..n]).value;
      StepWasTruthy(limit, s, steps[n]);
      RunKeepsOrder(limit, start, steps[..n]);
      StepKeepsOrder(limit, s, steps[n]);
    }
  }

  // ----- the results -----

  /** Every token of the query has retired and no handler of it is at work. */
  ghost predicate AtRest(s: State, q: Uuid) {
    && (forall t :: t in s.pipe.emitted && t.queryId == q ==>
        t in s.pipe.dropped || exists m :: m in s.qm.done && m.token == t)
    && (forall i :: 0 <= i < |s.qm.handlers| ==> s.qm.handlers[i].msg.token.queryId != q)
  }

  /** No silently stuck query: a stored, announced query at rest that is not COMPLETED had its last token
      retired by the connector's cache-hit branch. */
  lemma PendingAtRestWasDropped(limit: int, start: int, steps: seq<Step>, q: Uuid)
    requires Run(limit, Init(start), steps).Some? && RunInOrder(limit, Init(start), steps)
    requires TruthyUpstream(Run(limit, Init(start), steps).value)
    requires var s := Run(limit, Init(start), steps).value;
             q in s.audit.created && AtRest(s, q) && q in s.qm.queries && s.qm.queries[q].status == PENDING
    ensures var s := Run(limit, Init(start), steps).value;
            q in s.lastRetired && s.lastRetired[q] == ByConnector
  {
    RunKeepsOrder(limit, start, steps);
    RestedAtRest(Run(limit, Init(start), steps).value, q);
  }

  lemma RestedAtRest(s: State, q: Uuid)
    requires AnnouncedInv(s) && BegunPresent(s) && q in s.audit.created && AtRest(s, q) && Rested(s, q)
    requires q in s.qm.queries && s.qm.queries[q].status == PENDING
    ensures q in s.lastRetired && s.lastRetired[q] == ByConnector
  {
    RetiredKnown(s, q);
  }

  lemma RetiredKnown(s: State, q: Uuid)
    requires AnnouncedInv(s) && BegunPresent(s) && q in s.audit.created && AtRest(s, q)
    ensures q in s.lastRetired && !Underway(s, q)
  {
    var ds := s.audit.created[q];
    var i :| 0 <= i < |ds| && !Truthy(ds[i].result);
    var k := FirstMissingExists(ds, i);
    MissingIsEmitted(s.audit.created, s.pipe.emitted, q, k);
    assert Matches(ds, q, s.qm.queries, s.qm.rows);
    assert Begun(s.pipe.dropped, s.qm.handlers, s.qm.done, TokenOf(ds[k]));
  }

  /** A COMPLETED query never reverts. */
  lemma CompletedNeverReverts(limit: int, start: int, steps: seq<Step>, step: Step, q: Uuid)
    requires Run(limit, Init(start), steps).Some? && RunInOrder(limit, Init(start), steps)
    requires var s := Run(limit, Init(start), steps).value;
             && TruthyUpstream(s) && Enabled(s, step)
             && q in s.qm.queries && s.qm.queries[q].status == COMPLETED
    ensures var s' := Next(limit, Run(limit, Init(start), steps).value, step);
            q in s'.qm.queries && s'.qm.queries[q].status == COMPLETED
  {
    RunKeepsOrder(limit, start, steps);
    var s := Run(limit, Init(start), steps).value;
    if step.Handling? && step.handle.SHandlerSaveStatus? {
      HandlerIsSound(s, step.handle.i);
      SaveStatusKeepsCompleted(s, step.handle.i, q);
    } else {
      StepKeepsCompleted(limit, s, step, q);
    }
  }

  lemma StepKeepsCompleted(limit: int, s: State, step: Step, q: Uuid)
    requires CreatorsFit(s.qm.creators, s.qm.queries, s.qm.rows) && Enabled(s, step)
    requires !(step.Handling? && step.handle.SHandlerSaveStatus?)
    requires q in s.qm.queries && s.qm.queries[q].status == COMPLETED
    ensures q in Next(limit, s, step).qm.queries && Next(limit, s, step).qm.queries[q].status == COMPLETED
  {
    match step {
      case Tick(_) =>
      case Creating(c) => CreateKeepsCompleted(s, c, q);
      case Moving(m) => MoveLeavesTables(limit, s, m);
      case Caching(_) =>
      case Handling(h) => HandleKeepsCompleted(s, h, q);
    }
  }

  lemma CreateKeepsCompleted(s: State, c: CreateStep, q: Uuid)
    requires CreatorsFit(s.qm.creators, s.qm.queries, s.qm.rows) && CanCreate(s, c)
    requires q in s.qm.queries && s.qm.queries[q].status == COMPLETED
    ensures q in AfterCreate(s, c).qm.queries && AfterCreate(s, c).qm.queries[q].status == COMPLETED
  {
    match c {
      case SCreateStart(_, _, _) =>
      case SCreateRead(_, _) =>
      case SCreateDecide(p) => assert CreatorFits(p, s.qm.creators[p], s.qm.queries, s.qm.rows);
      case SCreateSaveRows(_) =>
      case SCreateEmit(_) =>
    }
  }

  lemma SaveStatusKeepsCompleted(s: State, i: nat, q: Uuid)
    requires Sound(s, i) && CompletedFirm(s) && CanHandlerSaveStatus(s, i)
    requires q in s.qm.queries && s.qm.queries[q].status == COMPLETED
    ensures q in HandlerSaveStatus(s, i).qm.queries && HandlerSaveStatus(s, i).qm.queries[q].status == COMPLETED
  {
    if s.qm.handlers[i].msg.token.queryId == q {
      assert Firm(s, q);
      OnlyHitsComplete(s, i);
    }
  }

  lemma HandleKeepsCompleted(s: State, h: HandleStep, q: Uuid)
    requires CanHandle(s, h) && !h.SHandlerSaveStatus?
    requires q in s.qm.queries && s.qm.queries[q].status == COMPLETED
    ensures q in AfterHandle(s, h).qm.queries && AfterHandle(s, h).qm.queries[q].status == COMPLETED
  {
    match h {
      case SHandlerStart(_) =>
      case SHandlerLoad(_) =>
      case SHandlerRead(_, _) =>
      case SHandlerSaveResult(_) =>
      case SHandlerNotify(_) =>
    }
  }

  // ----- queries whose tokens all come through -----

  ghost predicate DropsKnown(dropped: multiset<Token>, lastRetired: map<Uuid, Retirement>) {
    forall q :: q in lastRetired && lastRetired[q].ByConnector? ==> exists t :: t in dropped && t.queryId == q
  }

  lemma DropIsKnown(s: State, t: Token)
    requires DropsKnown(s.pipe.dropped, s.lastRetired)
    ensures DropsKnown(ConnectorRead(s, t).pipe.dropped, ConnectorRead(s, t).lastRetired)
  {
    var s' := ConnectorRead(s, t);
    forall q | q in s'.lastRetired && s'.lastRetired[q].ByConnector?
      ensures exists u :: u in s'.pipe.dropped && u.queryId == q
    {
      if q == t.queryId && Truthy(Read(s.cache.docs, t.path)) {
        assert t in s'.pipe.dropped;
      } else {
        var u :| u in s.pipe.dropped && u.queryId == q;
        assert u in s'.pipe.dropped;
      }
    }
  }

  lemma MoveKeepsDropsKnown(limit: int, s: State, m: MoveStep)
    requires DropsKnown(s.pipe.dropped, s.lastRetired) && CanMove(s, m)
    ensures DropsKnown(AfterMove(limit, s, m).pipe.dropped, AfterMove(limit, s, m).lastRetired)
  {
    if m.SConnectorRead? {
      DropIsKnown(s, m.t);
    } else {
      MoveFrameOrder(limit, s, m);
    }
  }

  /** Handlers retire tokens only in their own name. */
  lemma HandleRetires(s: State, h: HandleStep, q: Uuid)
    requires CanHandle(s, h) && q in AfterHandle(s, h).lastRetired && AfterHandle(s, h).lastRetired[q].ByConnector?
    ensures q in s.lastRetired && s.lastRetired[q].ByConnector?
  {
    match h {
      case SHandlerStart(m) => assert AfterHandle(s, h) == HandlerStart(s, m);
      case SHandlerLoad(i) => assert AfterHandle(s, h) == HandlerLoad(s, i);
      case SHandlerRead(i, k) => assert AfterHandle(s, h) == HandlerRead(s, i, k);
      case SHandlerSaveStatus(i) => assert AfterHandle(s, h) == HandlerSaveStatus(s, i);
      case SHandlerSaveResult(i) => assert AfterHandle(s, h) == HandlerSaveResult(s, i);
      case SHandlerNotify(i) => assert AfterHandle(s, h) == HandlerNotify(s, i);
    }
  }

  lemma HandleKeepsDropsKnown(s: State, h: HandleStep)
    requires DropsKnown(s.pipe.dropped, s.lastRetired) && CanHandle(s, h)
    ensures DropsKnown(AfterHandle(s, h).pipe.dropped, AfterHandle(s, h).lastRetired)
  {
    HandleFrame(s, h);
    forall q | q in AfterHandle(s, h).lastRetired && AfterHandle(s, h).lastRetired[q].ByConnector?
      ensures exists t :: t in s.pipe.dropped && t.queryId == q
    {
      HandleRetires(s, h, q);
    }
  }

  lemma {:induction false} RunKeepsDropsKnown(limit: int, start: int, steps: seq<Step>)
    requires Run(limit, Init(start), steps).Some?
    ensures var s := Run(limit, Init(start), steps).value; DropsKnown(s.pipe.dropped, s.lastRetired)
  {
    if steps != [] {
      var n := |steps| - 1;
      RunKeepsDropsKnown(limit, start, steps[..n]);
      var s := Run(limit, Init(start), steps[..n]).value;
      match steps[n] {
        case Tick(_) =>
        case Creating(c) => CreateLeavesLimiter(s, c); CreateLeavesCache(s, c);
        case Moving(m) => MoveKeepsDropsKnown(limit, s, m);
        case Caching(w) => WriteFrame(s, w);
        case Handling(h) => HandleKeepsDropsKnown(s, h);
      }
    }
  }

  lemma QueryIsStored(limit: int, start: int, steps: seq<Step>, q: Uuid)
    requires Run(limit, Init(start), steps).Some? && q in Run(limit, Init(start), steps).value.audit.created
    ensures q in Run(limit, Init(start), steps).value.qm.queries
  {
    RunIsReady(limit, start, steps);
    var s := Run(limit, Init(start), steps).value;
    assert Matches(s.audit.created[q], q, s.qm.queries, s.qm.rows);
  }

  /** A query none of whose tokens met a cache hit at the connector is COMPLETED once all its results have
      been handled. */
  lemma CompletesUnlessDropped(limit: int, start: int, steps: seq<Step>, q: Uuid)
    requires Run(limit, Init(start), steps).Some? && RunInOrder(limit, Init(start), steps)
    requires TruthyUpstream(Run(limit, Init(start), steps).value)
    requires var s := Run(limit, Init(start), steps).value;
             q in s.audit.created && AtRest(s, q) && forall t :: t in s.pipe.dropped ==> t.queryId != q
    ensures var s := Run(limit, Init(start), steps).value;
            && q in s.qm.queries && s.qm.queries[q].status == COMPLETED
            && Poll(s.qm, q).id == q && Poll(s.qm, q).status == COMPLETED
  {
    QueryIsStored(limit, start, steps, q);
    if Run(limit, Init(start), steps).value.qm.queries[q].status == PENDING {
      RunKeepsDropsKnown(limit, start, steps);
      PendingAtRestWasDropped(limit, start, steps, q);
    }
  }
}
