/** When COMPLETED lasts: the queries that never revert, discipline by discipline. */
module Steady {
  import opened Domain
  import opened Cache
  import opened Planner
  import opened Protocol
  import opened Order
  import opened Frames
  import opened Conservation
  import opened References
  import opened Handlers
  import opened Presence
  import opened Completion
  import opened Announcements
  import opened Invariants
  import opened Sharpness
  import opened Stuck
  import Completers
  import Stranding
  import Upstream

  // ----- a query with one token -----

  /** Two tokens of a query with one missing path are the same. */
  lemma OnlyToken(ds: seq<SubDto>, t: Token, u: Token)
    requires |MissingPaths(ds)| <= 1 && t in Plan(ds) && u in Plan(ds)
    ensures t == u
  {
    PlanCovers(ds);
  }

  lemma SomeonePast(limit: int, s: State, q: Uuid) returns (t: Token)
    requires Reachable(limit, s) && IsCompleted(s.qm.queries, q)
    ensures t.queryId == q && Completers.PastSave(s.qm.done, s.qm.handlers, t)
  {
    var start, steps :| Run(limit, Init(start), steps) == Some(s);
    Completers.RunKeepsCompleters(limit, start, steps);
    t :| t in Completers.CompletedBy(limit, Init(start), steps) && t.queryId == q;
  }

  /** Whoever could still save a status for `q` would be the one that completed it. */
  lemma NobodyElseSaves(limit: int, s: State, q: Uuid, ds: seq<SubDto>, i: nat)
    requires Reachable(limit, s) && CreatedWith(s, q, ds) && !AllTruthy(ds) && |MissingPaths(ds)| <= 1
    requires IsCompleted(s.qm.queries, q) && CanHandlerSaveStatus(s, i)
    ensures s.qm.handlers[i].msg.token.queryId != q
  {
    var t := SomeonePast(limit, s, q);
    var u := s.qm.handlers[i].msg.token;
    ReachableTables(limit, s);
    Completers.UndecidedIsNotPast(s, i);
    if u.queryId == q {
      HandlerNames(s, i);
      Stranding.PastSaveIsReceived(s, t);
      Stranding.TokensOfQuery(limit, s, q, ds);
      OnlyToken(ds, t, u);
    }
  }

  lemma OthersSaveElsewhere(s: State, i: nat, q: Uuid)
    requires CanHandlerSaveStatus(s, i) && s.qm.handlers[i].msg.token.queryId != q && IsCompleted(s.qm.queries, q)
    ensures IsCompleted(HandlerSaveStatus(s, i).qm.queries, q)
  {
  }

  predicate SavesStatus(step: Step) {
    step.Handling? && step.handle.SHandlerSaveStatus?
  }

  lemma LoneStaysCompleted(limit: int, s: State, step: Step, q: Uuid, ds: seq<SubDto>)
    requires Reachable(limit, s) && CreatedWith(s, q, ds) && !AllTruthy(ds) && |MissingPaths(ds)| <= 1
    requires IsCompleted(s.qm.queries, q) && Enabled(s, step)
    ensures IsCompleted(Next(limit, s, step).qm.queries, q)
  {
    if SavesStatus(step) {
      NobodyElseSaves(limit, s, q, ds, step.handle.i);
      OthersSaveElsewhere(s, step.handle.i, q);
    } else {
      ReachableTables(limit, s);
      StepKeepsCompleted(limit, s, step, q);
    }
  }

  /** A query that misses one path has one result handler, and so never reverts, in whatever order. */
  lemma {:induction false} LoneNeverReverts(limit: int, s: State, steps: seq<Step>, q: Uuid, ds: seq<SubDto>)
    requires Reachable(limit, s) && CreatedWith(s, q, ds) && !AllTruthy(ds) && |MissingPaths(ds)| <= 1
    requires IsCompleted(s.qm.queries, q) && Run(limit, s, steps).Some?
    ensures IsCompleted(Run(limit, s, steps).value.qm.queries, q)
  {
    if steps != [] {
      var n := |steps| - 1;
      LoneNeverReverts(limit, s, steps[..n], q, ds);
      RunReaches(limit, s, steps[..n]);
      RunKeepsCreatedWith(limit, s, steps[..n], q, ds);
      LoneStaysCompleted(limit, Run(limit, s, steps[..n]).value, steps[n], q, ds);
    }
  }

  // ----- one result at a time -----

  /** Each path that is missing is named by more than one row. */
  ghost predicate Doubled(ds: seq<SubDto>) {
    forall i :: 0 <= i < |ds| && !Truthy(ds[i].result) ==> HasTwin(ds, i)
  }

  ghost predicate HasTwin(ds: seq<SubDto>, i: nat)
    requires i < |ds|
  {
    exists j :: 0 <= j < |ds| && j != i && ds[j].path == ds[i].path
  }

  /** With the cache manager first, the path of a result that is being handled is cached. */
  ghost predicate OwnCached(docs: seq<Doc>, handlers: seq<Handler>, q: Uuid) {
    forall i :: 0 <= i < |handlers| && handlers[i].msg.token.queryId == q ==> Cached(docs, handlers[i].msg.token.path)
  }

  /** What keeps a COMPLETED query so while results are taken up one at a time. */
  ghost predicate Keeps(d: Discipline, s: State, q: Uuid) {
    && OneFor(s.qm.handlers, q)
    && (d.cacheFirst ==> OwnCached(s.cache.docs, s.qm.handlers, q))
    && (IsCompleted(s.qm.queries, q) ==> Firm(s, q))
  }

  /** What a step may assume about the query. */
  ghost predicate Known(s: State, q: Uuid, ds: seq<SubDto>) {
    && Conserved(s) && Referenced(s) && HandlersInv(s) && PresenceInv(s) && AnnouncedInv(s)
    && CreatedWith(s, q, ds) && !AllTruthy(ds)
  }

  lemma KnownIsStored(s: State, q: Uuid, ds: seq<SubDto>)
    requires Known(s, q, ds)
    ensures q in s.qm.queries && Matches(ds, q, s.qm.queries, s.qm.rows)
  {
    CreatedIsStored(s, q);
  }

  /** Steps that leave the query and the handlers alone. */
  lemma QuietKeeps(d: Discipline, s: State, s': State, q: Uuid)
    requires Keeps(d, s, q) && Joined(s.qm.queries, s.qm.rows) && q in s.qm.queries
    requires Grows(s.cache.docs, s'.cache.docs) && RowsStable(s.qm.rows, s'.qm.rows)
    requires s'.qm.handlers == s.qm.handlers && q in s'.qm.queries && s'.qm.queries[q] == s.qm.queries[q]
    ensures Keeps(d, s', q)
    ensures IsCompleted(s.qm.queries, q) ==> IsCompleted(s'.qm.queries, q)
  {
    if IsCompleted(s.qm.queries, q) {
      FirmStable(s, s', q);
    }
  }

  lemma CreateKeeps(d: Discipline, s: State, c: CreateStep, q: Uuid)
    requires Keeps(d, s, q) && Referenced(s) && CanCreate(s, c) && q in s.qm.queries && q !in s.qm.creators
    ensures Keeps(d, AfterCreate(s, c), q)
    ensures IsCompleted(s.qm.queries, q) ==> IsCompleted(AfterCreate(s, c).qm.queries, q)
  {
    CreateLeavesAnnounced(s, c, q);
    CreateIsStable(s, c);
    CreateFrame(s, c);
    CreateLeavesCache(s, c);
    QuietKeeps(d, s, AfterCreate(s, c), q);
  }

  lemma StartKeeps(d: Discipline, s: State, m: Received, q: Uuid)
    requires Keeps(d, s, q) && d.oneAtATime && Obeys(d, s, Handling(SHandlerStart(m)))
    requires m.token.id in s.qm.rows && DonePresent(s.cache.docs, s.cache.done) && Truthy(m.result)
    ensures Keeps(d, HandlerStart(s, m), q)
  {
  }

  /** A handler moves on to another phase. */
  lemma AdvanceKeeps(d: Discipline, s: State, s': State, i: nat, p: HandlerPhase, q: Uuid)
    requires Keeps(d, s, q) && Advances(s, s', i, p) && Joined(s.qm.queries, s.qm.rows) && q in s.qm.queries
    requires s'.qm.queries[q].status == s.qm.queries[q].status
    requires IsCompleted(s.qm.queries, q) && q == s.qm.handlers[i].msg.token.queryId ==>
               SawOnlyHits(Handler(s.qm.handlers[i].msg, p))
    ensures Keeps(d, s', q)
  {
    if IsCompleted(s.qm.queries, q) {
      AdvanceKeepsFirm(s, s', i, p, q);
    }
  }

  lemma LoadKeeps(d: Discipline, s: State, i: nat, q: Uuid)
    requires Keeps(d, s, q) && CanHandlerLoad(s, i) && Joined(s.qm.queries, s.qm.rows) && q in s.qm.queries
    requires s.qm.handlers[i].msg.token.queryId in s.qm.queries
    ensures Keeps(d, HandlerLoad(s, i), q)
  {
    var p := HandlerLoad(s, i).qm.handlers[i].phase;
    assert Advances(s, HandlerLoad(s, i), i, p);
    AdvanceKeeps(d, s, HandlerLoad(s, i), i, p, q);
  }

  lemma ReadKeeps(d: Discipline, s: State, i: nat, k: nat, q: Uuid)
    requires Keeps(d, s, q) && CanHandlerRead(s, i, k) && q in s.qm.queries
    requires Sound(s, i) && Collection(s.cache.docs)
    ensures Keeps(d, HandlerRead(s, i, k), q)
  {
    var p := HandlerRead(s, i, k).qm.handlers[i].phase;
    assert Advances(s, HandlerRead(s, i, k), i, p);
    if IsCompleted(s.qm.queries, q) && q == s.qm.handlers[i].msg.token.queryId {
      FirmReadHits(s, i, k);
      assert SawOnlyHits(s.qm.handlers[i]);
    }
    AdvanceKeeps(d, s, HandlerRead(s, i, k), i, p, q);
  }

  lemma SaveResultKeeps(d: Discipline, s: State, i: nat, q: Uuid)
    requires Keeps(d, s, q) && CanHandlerSaveResult(s, i) && Joined(s.qm.queries, s.qm.rows) && q in s.qm.queries
    ensures Keeps(d, HandlerSaveResult(s, i), q)
  {
    var p := HandlerSaveResult(s, i).qm.handlers[i].phase;
    assert Advances(s, HandlerSaveResult(s, i), i, p);
    AdvanceKeeps(d, s, HandlerSaveResult(s, i), i, p, q);
  }

  lemma NotifyKeeps(d: Discipline, s: State, i: nat, q: Uuid)
    requires Keeps(d, s, q) && CanHandlerNotify(s, i)
    ensures Keeps(d, HandlerNotify(s, i), q)
  {
    var hs, hs' := s.qm.handlers, RemoveAt(s.qm.handlers, i);
    forall k | 0 <= k < |hs'| ensures hs'[k] == hs[if k < i then k else k + 1] {
    }
    if IsCompleted(s.qm.queries, q) {
      NotifyKeepsHits(s, i, q);
    }
  }

  // ----- the status is saved -----

  /** The other row of the path was read too. */
  lemma TwinWasCached(s: State, i: nat, q: Uuid, ds: seq<SubDto>)
    requires Known(s, q, ds) && Doubled(ds) && CanHandlerSaveStatus(s, i) && s.qm.handlers[i].msg.token.queryId == q
    requires s.qm.handlers[i].msg.token in Plan(ds)
    requires var h := s.qm.handlers[i]; AllTruthy(Latest(h.msg, h.phase.keys, h.phase.seen))
    ensures Cached(s.cache.docs, s.qm.handlers[i].msg.token.path)
  {
    var h := s.qm.handlers[i];
    KnownIsStored(s, q, ds);
    PlanIsMissing(ds, h.msg.token);
    var k :| 0 <= k < |ds| && h.msg.token == TokenOf(ds[k]) && FirstMissing(ds, k);
    assert HasTwin(ds, k);
    var j :| 0 <= j < |ds| && j != k && ds[j].path == ds[k].path;
    ReadTwin(s, h, ds, k, j);
  }

  lemma ReadTwin(s: State, h: Handler, ds: seq<SubDto>, k: nat, j: nat)
    requires j < |ds| && k < |ds| && j != k && h.msg.token == TokenOf(ds[k]) && ds[j].path == ds[k].path
    requires Matches(ds, h.msg.token.queryId, s.qm.queries, s.qm.rows) && Joined(s.qm.queries, s.qm.rows)
    requires h.phase.Reading? && HandlerFits(h, s.qm.queries, s.qm.rows)
    requires SeenPresent(s.cache.docs, h.phase.keys, h.phase.seen)
    requires AllRead(h.phase.seen) && AllTruthy(Latest(h.msg, h.phase.keys, h.phase.seen))
    ensures Cached(s.cache.docs, h.msg.token.path)
  {
    var subs := s.qm.queries[h.msg.token.queryId].subs;
    assert subs[j] != subs[k] by {
      if j < k {
      } else {
        assert k < j;
      }
    }
    assert h.phase.keys[j] == SubKey(ds[j].id, ds[j].path);
    assert Truthy(Latest(h.msg, h.phase.keys, h.phase.seen)[j].result);
  }

  /** In either case the result that completes a query has its own path cached. */
  lemma OwnWasCached(d: Discipline, s: State, i: nat, q: Uuid, ds: seq<SubDto>)
    requires Known(s, q, ds) && Keeps(d, s, q) && (d.cacheFirst || Doubled(ds))
    requires CanHandlerSaveStatus(s, i) && s.qm.handlers[i].msg.token.queryId == q
    requires var h := s.qm.handlers[i]; AllTruthy(Latest(h.msg, h.phase.keys, h.phase.seen))
    ensures Cached(s.cache.docs, s.qm.handlers[i].msg.token.path)
  {
    if !d.cacheFirst {
      HandlerNames(s, i);
      PlannedIsEmitted(s.audit.created, s.pipe.emitted, q, s.qm.handlers[i].msg.token);
      TwinWasCached(s, i, q, ds);
    }
  }

  lemma SaveCompletes(s: State, i: nat)
    requires Sound(s, i) && CanHandlerSaveStatus(s, i)
    requires Firm(s, s.qm.handlers[i].msg.token.queryId)
    ensures IsCompleted(HandlerSaveStatus(s, i).qm.queries, s.qm.handlers[i].msg.token.queryId)
  {
    assert SawOnlyHits(s.qm.handlers[i]);
    OnlyHitsComplete(s, i);
  }

  lemma SaveKeepsPlaces(d: Discipline, s: State, i: nat, q: Uuid)
    requires Keeps(d, s, q) && CanHandlerSaveStatus(s, i)
    requires IsCompleted(HandlerSaveStatus(s, i).qm.queries, q) ==> Firm(HandlerSaveStatus(s, i), q)
    ensures Keeps(d, HandlerSaveStatus(s, i), q)
  {
  }

  lemma SaveOwnKeeps(d: Discipline, s: State, i: nat, q: Uuid, ds: seq<SubDto>)
    requires Known(s, q, ds) && Keeps(d, s, q) && (d.cacheFirst || Doubled(ds))
    requires Sound(s, i) && CanHandlerSaveStatus(s, i) && s.qm.handlers[i].msg.token.queryId == q
    ensures Keeps(d, HandlerSaveStatus(s, i), q)
    ensures IsCompleted(s.qm.queries, q) ==> IsCompleted(HandlerSaveStatus(s, i).qm.queries, q)
  {
    var s' := HandlerSaveStatus(s, i);
    if IsCompleted(s.qm.queries, q) {
      SaveCompletes(s, i);
    }
    if IsCompleted(s'.qm.queries, q) {
      OwnWasCached(d, s, i, q, ds);
      SavedIsFirm(s, i);
    }
    SaveKeepsPlaces(d, s, i, q);
  }

  lemma SaveOtherKeeps(d: Discipline, s: State, i: nat, q: Uuid)
    requires Keeps(d, s, q) && Joined(s.qm.queries, s.qm.rows) && q in s.qm.queries
    requires CanHandlerSaveStatus(s, i) && s.qm.handlers[i].msg.token.queryId != q
    ensures Keeps(d, HandlerSaveStatus(s, i), q)
    ensures IsCompleted(s.qm.queries, q) ==> IsCompleted(HandlerSaveStatus(s, i).qm.queries, q)
  {
    var s' := HandlerSaveStatus(s, i);
    var p := s'.qm.handlers[i].phase;
    assert Advances(s, s', i, p);
    AdvanceKeeps(d, s, s', i, p, q);
  }

  // ----- runs -----

  lemma HandleKeeps(d: Discipline, s: State, h: HandleStep, q: Uuid, ds: seq<SubDto>)
    requires Known(s, q, ds) && Keeps(d, s, q) && d.oneAtATime && (d.cacheFirst || Doubled(ds)) && TruthyUpstream(s)
    requires CanHandle(s, h) && Obeys(d, s, Handling(h))
    ensures Keeps(d, AfterHandle(s, h), q)
    ensures IsCompleted(s.qm.queries, q) ==> IsCompleted(AfterHandle(s, h).qm.queries, q)
  {
    KnownIsStored(s, q, ds);
    match h {
      case SHandlerStart(m) => ArrivalIsSound(s, m); StartKeeps(d, s, m, q);
      case SHandlerLoad(i) => HandlerIsSound(s, i); LoadKeeps(d, s, i, q);
      case SHandlerRead(i, k) => HandlerIsSound(s, i); ReadKeeps(d, s, i, k, q);
      case SHandlerSaveStatus(i) =>
        HandlerIsSound(s, i);
        if s.qm.handlers[i].msg.token.queryId == q {
          SaveOwnKeeps(d, s, i, q, ds);
        } else {
          SaveOtherKeeps(d, s, i, q);
        }
      case SHandlerSaveResult(i) => SaveResultKeeps(d, s, i, q);
      case SHandlerNotify(i) => NotifyKeeps(d, s, i, q);
    }
  }

  lemma StepKeeps(limit: int, d: Discipline, s: State, step: Step, q: Uuid, ds: seq<SubDto>)
    requires Known(s, q, ds) && Keeps(d, s, q) && d.oneAtATime && (d.cacheFirst || Doubled(ds)) && TruthyUpstream(s)
    requires Enabled(s, step) && Obeys(d, s, step)
    ensures Keeps(d, Next(limit, s, step), q)
    ensures IsCompleted(s.qm.queries, q) ==> IsCompleted(Next(limit, s, step).qm.queries, q)
  {
    KnownIsStored(s, q, ds);
    match step {
      case Tick(_) => QuietKeeps(d, s, Next(limit, s, step), q);
      case Creating(c) => CreateKeeps(d, s, c, q);
      case Moving(m) => MoveLeavesTables(limit, s, m); QuietKeeps(d, s, Next(limit, s, step), q);
      case Caching(w) => StepGrows(limit, s, step); WriteFrame(s, w); QuietKeeps(d, s, Next(limit, s, step), q);
      case Handling(h) => HandleKeeps(d, s, h, q, ds);
    }
  }

  lemma ReachableIsKnown(limit: int, s: State, q: Uuid, ds: seq<SubDto>)
    requires Reachable(limit, s) && CreatedWith(s, q, ds) && !AllTruthy(ds)
    ensures Known(s, q, ds)
  {
    ReachableIsSafe(limit, s);
  }

  /** One result at a time, with truthy answers: COMPLETED lasts if the cache manager is first, or if each
      missing path has two rows. */
  lemma {:induction false} RunKeeps(limit: int, d: Discipline, s: State, steps: seq<Step>, q: Uuid, ds: seq<SubDto>)
    requires Reachable(limit, s) && CreatedWith(s, q, ds) && !AllTruthy(ds) && Keeps(d, s, q)
    requires d.oneAtATime && (d.cacheFirst || Doubled(ds))
    requires Run(limit, s, steps).Some? && RunObeys(limit, d, s, steps) && TruthyUpstream(Run(limit, s, steps).value)
    ensures Keeps(d, Run(limit, s, steps).value, q)
    ensures IsCompleted(s.qm.queries, q) ==> IsCompleted(Run(limit, s, steps).value.qm.queries, q)
  {
    if steps != [] {
      var n := |steps| - 1;
      ObeysBefore(limit, d, s, steps);
      var s1 := Run(limit, s, steps[..n]).value;
      Upstream.StepWasTruthy(limit, s1, steps[n]);
      RunKeeps(limit, d, s, steps[..n], q, ds);
      RunReaches(limit, s, steps[..n]);
      RunKeepsCreatedWith(limit, s, steps[..n], q, ds);
      ReachableIsKnown(limit, s1, q, ds);
      StepKeeps(limit, d, s1, steps[n], q, ds);
    }
  }
}
