/** Which queries can go back from COMPLETED to PENDING: for a new query, read off its creation, the order in
    which results are taken up, and whether upstream answers are truthy. */
module Reverting {
  import opened Domain
  import opened RateLimiter
  import opened Cache
  import opened Planner
  import opened Protocol
  import opened References
  import opened Presence
  import opened Invariants
  import opened Atomic
  import opened Order
  import opened Sharpness
  import opened Stranding
  import opened Steady
  import Drain
  import Stuck
  import Upstream

  // ----- how many paths are missing -----

  /** Rows `i` and `j` miss different paths. */
  ghost predicate MissDifferent(ds: seq<SubDto>, i: int, j: int) {
    && 0 <= i < |ds| && 0 <= j < |ds| && !Truthy(ds[i].result) && !Truthy(ds[j].result) && ds[i].path != ds[j].path
  }

  lemma TwoMissing(ds: seq<SubDto>)
    ensures |MissingPaths(ds)| >= 2 <==> exists i, j :: MissDifferent(ds, i, j)
  {
    PlanCovers(ds);
    if |MissingPaths(ds)| >= 2 {
      PlanIsMissing(ds, Plan(ds)[0]);
      PlanIsMissing(ds, Plan(ds)[1]);
      var i: nat :| i < |ds| && Plan(ds)[0] == TokenOf(ds[i]) && FirstMissing(ds, i);
      var j: nat :| j < |ds| && Plan(ds)[1] == TokenOf(ds[j]) && FirstMissing(ds, j);
      assert MissDifferent(ds, i, j);
    }
    if i, j :| MissDifferent(ds, i, j) {
      TwoPaths(MissingPaths(ds), ds[i].path, ds[j].path);
    }
  }

  lemma TwoPaths(ps: set<Path>, p: Path, r: Path)
    requires p in ps && r in ps && p != r
    ensures |ps| >= 2
  {
    SubsetSize({p, r}, ps);
  }

  /** Two different paths are missing, and one of them is named by a single row. */
  ghost predicate Precarious(ds: seq<SubDto>) {
    exists i, j :: MissDifferent(ds, i, j) && !HasTwin(ds, i)
  }

  lemma NotPrecarious(ds: seq<SubDto>)
    requires !Precarious(ds) && |MissingPaths(ds)| >= 2
    ensures Doubled(ds)
  {
    TwoMissing(ds);
    var a, b :| MissDifferent(ds, a, b);
    forall i | 0 <= i < |ds| && !Truthy(ds[i].result) ensures HasTwin(ds, i) {
      assert MissDifferent(ds, i, a) || MissDifferent(ds, i, b);
    }
  }

  lemma PrecariousMissesTwo(ds: seq<SubDto>)
    requires Precarious(ds)
    ensures |MissingPaths(ds)| >= 2
  {
    TwoMissing(ds);
  }

  // ----- going back -----

  ghost predicate IsPending(queries: map<Uuid, QueryRow>, q: Uuid) {
    q in queries && queries[q].status == PENDING
  }

  /** A run from `s` takes `q` to COMPLETED at `s1`, and back to PENDING at `s2`. */
  ghost predicate Reverts(limit: int, d: Discipline, s: State, q: Uuid, s1: State, s2: State) {
    && Leads(limit, d, s, s1) && Leads(limit, d, s1, s2)
    && Stuck.IsCompleted(s1.qm.queries, q) && IsPending(s2.qm.queries, q)
  }

  ghost predicate CanRevert(limit: int, d: Discipline, s: State, q: Uuid) {
    exists s1, s2 :: Reverts(limit, d, s, q, s1, s2)
  }

  /** The same, with no falsy upstream answer up to then. */
  ghost predicate CanRevertTruthfully(limit: int, d: Discipline, s: State, q: Uuid) {
    exists s1, s2 :: Reverts(limit, d, s, q, s1, s2) && TruthyUpstream(s2)
  }

  ghost predicate Stricter(d: Discipline, d': Discipline) {
    (d'.cacheFirst ==> d.cacheFirst) && (d'.oneAtATime ==> d.oneAtATime)
  }

  lemma Relax(limit: int, d: Discipline, d': Discipline, s: State, s': State)
    requires Stricter(d, d') && Leads(limit, d, s, s')
    ensures Leads(limit, d', s, s')
  {
    var steps :| Run(limit, s, steps) == Some(s') && RunObeys(limit, d, s, steps);
    forall k | 0 <= k < |steps| ensures Obeys(d', Run(limit, s, steps[..k]).value, steps[k]) {
      assert Obeys(d, Run(limit, s, steps[..k]).value, steps[k]);
    }
    assert RunObeys(limit, d', s, steps);
  }

  // ----- what a handler of the query finds -----

  /** The query is stored with the rows of `keys`. */
  ghost predicate Holds(qm: QuerySide, q: Uuid, keys: seq<SubKey>) {
    && q in qm.queries && qm.queries[q].subs == Ids(keys)
    && forall i :: 0 <= i < |keys| ==> keys[i].id in qm.rows && qm.rows[keys[i].id].path == keys[i].path
  }

  ghost predicate NobodyFor(handlers: seq<Handler>, q: Uuid) {
    forall i :: 0 <= i < |handlers| ==> handlers[i].msg.token.queryId != q
  }

  lemma HeldKeys(qm: QuerySide, q: Uuid, keys: seq<SubKey>)
    requires Holds(qm, q, keys)
    ensures Keys(qm.queries[q].subs, qm.rows) == keys
  {
  }

  /** A result of the query, with a row in its name. */
  ghost predicate ResultOf(m: Received, q: Uuid, keys: seq<SubKey>) {
    m.token.queryId == q && exists i :: 0 <= i < |keys| && keys[i].id == m.token.id
  }

  lemma HandledHolds(s: State, m: Received, q: Uuid, keys: seq<SubKey>)
    requires Holds(s.qm, q, keys) && Finds(s.qm, m) && m.token.queryId == q
    ensures Holds(Handled(s, m).qm, q, keys)
    ensures Handled(s, m).qm.queries[q].status == StatusOf(AllTruthy(LatestNow(m, keys, s.cache.docs)))
  {
    HeldKeys(s.qm, q, keys);
  }

  /** An uninterrupted result handler of the query. */
  lemma HandleResult(limit: int, d: Discipline, s: State, m: Received, q: Uuid, keys: seq<SubKey>) returns (s': State)
    requires Holds(s.qm, q, keys) && ResultOf(m, q, keys) && m in s.qm.inbox
    requires Obeys(d, s, Handling(SHandlerStart(m)))
    ensures Leads(limit, d, s, s') && Holds(s'.qm, q, keys)
    ensures s'.pipe == s.pipe && s'.cache == s.cache && s'.audit == s.audit && s'.qm.handlers == s.qm.handlers
    ensures s'.qm.inbox == s.qm.inbox - multiset{m}
    ensures s'.qm.queries[q].status == StatusOf(AllTruthy(LatestNow(m, keys, s.cache.docs)))
  {
    HandleLeads(limit, d, s, m);
    HandledHolds(s, m, q, keys);
    s' := Handled(s, m);
  }

  lemma Completes(m: Received, keys: seq<SubKey>, docs: seq<Doc>)
    requires Truthy(m.result) && Collection(docs)
    requires forall i :: 0 <= i < |keys| ==> keys[i].id == m.token.id || Cached(docs, keys[i].path)
    ensures AllTruthy(LatestNow(m, keys, docs))
  {
    var ds := LatestNow(m, keys, docs);
    forall i | 0 <= i < |ds| ensures Truthy(ds[i].result) {
      ReadRefinesLookup(docs, keys[i].path);
    }
  }

  lemma FallsShort(m: Received, keys: seq<SubKey>, docs: seq<Doc>, i: nat)
    requires i < |keys| && Collection(docs)
    requires if keys[i].id == m.token.id then !Truthy(m.result) else !Cached(docs, keys[i].path)
    ensures !AllTruthy(LatestNow(m, keys, docs))
  {
    ReadRefinesLookup(docs, keys[i].path);
    assert !Truthy(LatestNow(m, keys, docs)[i].result);
  }

  // ----- the query, from its creation on -----

  /** The tokens of the query, in some order. */
  ghost predicate Ordering(ts: seq<Token>, q: Uuid, keys: seq<SubKey>, docs: seq<Doc>) {
    Distinct(ts) && forall t :: t in ts <==> t in Plan(AnswersNow(q, keys, docs))
  }

  lemma PlanIsOrdering(q: Uuid, keys: seq<SubKey>, docs: seq<Doc>)
    ensures Ordering(Plan(AnswersNow(q, keys, docs)), q, keys, docs)
  {
    PlanIsOfQuery(q, keys, docs);
  }

  lemma OrderedTokens(ts: seq<Token>, q: Uuid, keys: seq<SubKey>, docs: seq<Doc>)
    requires Ordering(ts, q, keys, docs) && Collection(docs)
    ensures forall t :: t in ts ==> t.queryId == q && !Truthy(Read(docs, t.path)) && !Cached(docs, t.path)
    ensures forall t :: t in ts ==> exists i :: 0 <= i < |keys| && keys[i] == SubKey(t.id, t.path)
    ensures forall i, j :: 0 <= i < j < |ts| ==> ts[i].path != ts[j].path
  {
    var ds := AnswersNow(q, keys, docs);
    PlanIsOfQuery(q, keys, docs);
    PlanCovers(ds);
    forall t | t in ts
      ensures !Cached(docs, t.path) && exists i :: 0 <= i < |keys| && keys[i] == SubKey(t.id, t.path)
    {
      ReadRefinesLookup(docs, t.path);
      PlanIsMissing(ds, t);
      var i :| 0 <= i < |ds| && t == TokenOf(ds[i]) && FirstMissing(ds, i);
      assert keys[i] == SubKey(t.id, t.path);
    }
    forall i, j | 0 <= i < j < |ts| ensures ts[i].path != ts[j].path {
      assert ts[i] in Plan(ds) && ts[j] in Plan(ds);
    }
  }

  /** What is not cached for the query is planned. */
  lemma UncachedIsOrdered(ts: seq<Token>, q: Uuid, keys: seq<SubKey>, docs: seq<Doc>, i: nat)
    requires Ordering(ts, q, keys, docs) && i < |keys| && !Cached(docs, keys[i].path) && Collection(docs)
    ensures HasPath(ts, keys[i].path)
  {
    var ds := AnswersNow(q, keys, docs);
    ReadRefinesLookup(docs, keys[i].path);
    assert ds[i].path == keys[i].path && !Truthy(ds[i].result);
    PlanHasPath(ds, keys[i].path);
    var k :| 0 <= k < |Plan(ds)| && Plan(ds)[k].path == keys[i].path;
    assert Plan(ds)[k] in ts;
  }

  /** All answers wait at the query manager; at the cache manager only the last one does. */
  ghost predicate AllButLast(s: State, q: Uuid, keys: seq<SubKey>, ts: seq<Token>) {
    && ts != [] && Collection(s.cache.docs) && Holds(s.qm, q, keys) && NobodyFor(s.qm.handlers, q) && Distinct(ts)
    && (forall t :: t in ts ==> Answer(UP, t) in s.qm.inbox && ResultOf(Answer(UP, t), q, keys))
    && (forall j :: 0 <= j < |ts| - 1 ==> Answer(UP, ts[j]) in s.cache.done)
    && Answer(UP, ts[|ts| - 1]) in s.cache.inbox
    && (forall i :: 0 <= i < |keys| ==> (Cached(s.cache.docs, keys[i].path) <==> keys[i].path != ts[|ts| - 1].path))
  }

  /** Of the query's paths, exactly the last one is not cached. */
  lemma OnlyLastMissing(q: Uuid, keys: seq<SubKey>, ts: seq<Token>, docs: seq<Doc>, c: CacheSide, i: nat)
    requires Ordering(ts, q, keys, docs) && ts != [] && i < |keys| && Collection(docs)
    requires Grows(docs, c.docs) && AddsOnly(docs, c.docs, ts[..|ts| - 1]) && Done(UP, c, ts, |ts| - 1)
    ensures Cached(c.docs, keys[i].path) <==> keys[i].path != ts[|ts| - 1].path
  {
    var n := |ts| - 1;
    OrderedTokens(ts, q, keys, docs);
    if keys[i].path == ts[n].path {
      forall j | 0 <= j < n ensures ts[..n][j].path != keys[i].path {
        assert ts[..n][j] == ts[j];
      }
    } else if !Cached(docs, keys[i].path) {
      UncachedIsOrdered(ts, q, keys, docs, i);
      var j :| 0 <= j < |ts| && ts[j].path == keys[i].path;
      assert j < n;
    }
  }

  /** The query has been stored, and its tokens wait at a free scheduler. */
  ghost predicate Launched(limit: int, s: State, q: Uuid, keys: seq<SubKey>, ts: seq<Token>) {
    && !Limited(limit, s.lim) && Collection(s.cache.docs) && Holds(s.qm, q, keys) && NobodyFor(s.qm.handlers, q)
    && Ordering(ts, q, keys, s.cache.docs) && forall t :: t in ts ==> t in s.pipe.scheduleInbox
  }

  lemma LaunchedWait(limit: int, s: State, q: Uuid, keys: seq<SubKey>, ts: seq<Token>)
    requires Launched(limit, s, q, keys, ts)
    ensures AllWaiting(s, ts)
  {
    OrderedTokens(ts, q, keys, s.cache.docs);
  }

  lemma AnswersAreResults(s: State, q: Uuid, keys: seq<SubKey>, ts: seq<Token>)
    requires Ordering(ts, q, keys, s.cache.docs) && Collection(s.cache.docs)
    ensures forall t :: t in ts ==> ResultOf(Answer(UP, t), q, keys)
  {
    OrderedTokens(ts, q, keys, s.cache.docs);
    forall t | t in ts ensures ResultOf(Answer(UP, t), q, keys) {
      var i :| 0 <= i < |keys| && keys[i] == SubKey(t.id, t.path);
      assert keys[i].id == Answer(UP, t).token.id;
    }
  }

  /** Every token is fetched, and every answer but the last is written. */
  lemma FetchAndWrite(limit: int, s: State, q: Uuid, keys: seq<SubKey>, ts: seq<Token>) returns (s': State)
    requires Launched(limit, s, q, keys, ts) && ts != []
    ensures Leads(limit, IN_ORDER, s, s') && AllButLast(s', q, keys, ts)
    ensures TruthyUpstream(s) ==> TruthyUpstream(s')
  {
    var n := |ts| - 1;
    LaunchedWait(limit, s, q, keys, ts);
    AnswersAreResults(s, q, keys, ts);
    FetchAll(limit, UP, s, ts, |ts|);
    var s1 :| FetchedSome(limit, UP, s, s1, ts, |ts|);
    FetchedTruthfully(s, s1);
    UpIsTruthful();
    WriteAll(limit, UP, s1, ts, n);
    s' :| WrittenSome(limit, UP, s1, s', ts, n);
    LeadsOn(limit, IN_ORDER, s, s1, s');
    forall i | 0 <= i < |keys| ensures Cached(s'.cache.docs, keys[i].path) <==> keys[i].path != ts[n].path {
      OnlyLastMissing(q, keys, ts, s.cache.docs, s'.cache, i);
    }
    WrittenAllButLast(s1, s', q, keys, ts);
  }

  lemma WrittenAllButLast(s: State, s': State, q: Uuid, keys: seq<SubKey>, ts: seq<Token>)
    requires ts != [] && Distinct(ts) && Holds(s.qm, q, keys) && NobodyFor(s.qm.handlers, q)
    requires s' == s.(cache := s'.cache) && Collection(s'.cache.docs)
    requires Pending(UP, s'.cache.inbox, ts, |ts| - 1) && Done(UP, s'.cache, ts, |ts| - 1)
    requires forall j :: 0 <= j < |ts| ==> Answer(UP, ts[j]) in s.qm.inbox
    requires forall t :: t in ts ==> ResultOf(Answer(UP, t), q, keys)
    requires forall i :: 0 <= i < |keys| ==>
               (Cached(s'.cache.docs, keys[i].path) <==> keys[i].path != ts[|ts| - 1].path)
    ensures AllButLast(s', q, keys, ts)
  {
  }

  lemma StoredIsLaunched(limit: int, s: State, q: Uuid, keys: seq<SubKey>, url: Option<string>) returns (s': State)
    requires limit >= 1 && Reachable(limit, s) && CanCreateStart(s, q, keys) && q !in s.qm.creators
    requires !AllTruthy(AnswersNow(q, keys, s.cache.docs))
    ensures Leads(limit, IN_ORDER, Created(s, q, keys, url), s')
    ensures s'.cache == s.cache && s'.audit.calls == s.audit.calls
    ensures Launched(limit, s', q, keys, Plan(AnswersNow(q, keys, s.cache.docs)))
  {
    var s1 := Created(s, q, keys, url);
    ReachableCache(limit, s);
    StoredFacts(s, q, keys, url);
    NothingPostedYet(limit, s, q);
    LaterIsFree(limit, s.lim);
    PlanIsOrdering(q, keys, s.cache.docs);
    StepLeads(limit, IN_ORDER, s1, Tick(WINDOW));
    s' := Next(limit, s1, Tick(WINDOW));
  }

  // ----- one at a time: the only row of a path comes first -----

  /** The result that is the only one for its path completes the query; the next one does not find it. */
  lemma LastThenAnother(limit: int, s: State, q: Uuid, keys: seq<SubKey>, ts: seq<Token>) returns (s1: State, s2: State)
    requires AllButLast(s, q, keys, ts) && |ts| >= 2
    requires forall i :: 0 <= i < |keys| && keys[i].path == ts[|ts| - 1].path ==> keys[i].id == ts[|ts| - 1].id
    requires exists i :: 0 <= i < |keys| && keys[i] == SubKey(ts[|ts| - 1].id, ts[|ts| - 1].path)
    requires ts[0].id != ts[|ts| - 1].id
    ensures Reverts(limit, ONE_AT_A_TIME, s, q, s1, s2) && s2.audit == s.audit
  {
    var z, a := Answer(UP, ts[|ts| - 1]), Answer(UP, ts[0]);
    assert z.token in ts && a.token in ts && a != z;
    Completes(z, keys, s.cache.docs);
    s1 := HandleResult(limit, ONE_AT_A_TIME, s, z, q, keys);
    var i :| 0 <= i < |keys| && keys[i] == SubKey(z.token.id, z.token.path);
    FallsShort(a, keys, s.cache.docs, i);
    s2 := HandleResult(limit, ONE_AT_A_TIME, s1, a, q, keys);
  }

  /** The plan, with the token of one row moved to its end. */
  lemma MovedToEnd(ts: seq<Token>, t: Token) returns (ts': seq<Token>)
    requires Distinct(ts) && t in ts
    ensures Distinct(ts') && ts' != [] && ts'[|ts'| - 1] == t && |ts'| == |ts| && forall u :: u in ts' <==> u in ts
  {
    var k :| 0 <= k < |ts| && ts[k] == t;
    ts' := RemoveAt(ts, k) + [t];
    forall u | u in ts ensures u in ts' {
      if u != t {
        RemoveAtKeeps(ts, k, u);
      }
    }
    forall i, j | 0 <= i < j < |ts'| ensures ts'[i] != ts'[j] {
      assert ts'[i] == ts[if i < k then i else i + 1];
    }
  }

  lemma PrecariousOrder(q: Uuid, keys: seq<SubKey>, docs: seq<Doc>) returns (ts: seq<Token>)
    requires Precarious(AnswersNow(q, keys, docs)) && Collection(docs)
    ensures Ordering(ts, q, keys, docs) && |ts| >= 2
    ensures forall i :: 0 <= i < |keys| && keys[i].path == ts[|ts| - 1].path ==> keys[i].id == ts[|ts| - 1].id
  {
    var ds := AnswersNow(q, keys, docs);
    var i, j :| MissDifferent(ds, i, j) && !HasTwin(ds, i);
    PrecariousMissesTwo(ds);
    PlanCovers(ds);
    PlanIsOrdering(q, keys, docs);
    assert FirstMissing(ds, i);
    MissingIsPlanned(ds, i);
    ts := MovedToEnd(Plan(ds), TokenOf(ds[i]));
    forall k | 0 <= k < |keys| && keys[k].path == ts[|ts| - 1].path ensures keys[k].id == ts[|ts| - 1].id {
      assert ds[k].path == ds[i].path;
      assert k == i;
    }
  }

  lemma IdsDiffer(s: State, q: Uuid, keys: seq<SubKey>, docs: seq<Doc>, ts: seq<Token>)
    requires Ordering(ts, q, keys, docs) && Collection(docs) && CanCreateStart(s, q, keys) && |ts| >= 2
    ensures ts[0].id != ts[|ts| - 1].id
  {
    OrderedTokens(ts, q, keys, docs);
    assert ts[0] in ts && ts[|ts| - 1] in ts;
    var i :| 0 <= i < |keys| && keys[i] == SubKey(ts[0].id, ts[0].path);
    var j :| 0 <= j < |keys| && keys[j] == SubKey(ts[|ts| - 1].id, ts[|ts| - 1].path);
  }

  /** One result at a time, a precarious query can revert. */
  lemma PrecariousReverts(limit: int, s: State, q: Uuid, keys: seq<SubKey>, url: Option<string>)
    requires limit >= 1 && Reachable(limit, s) && CanCreateStart(s, q, keys) && q !in s.qm.creators
    requires TruthyUpstream(s) && Precarious(AnswersNow(q, keys, s.cache.docs))
    ensures CanRevertTruthfully(limit, ONE_AT_A_TIME, Created(s, q, keys, url), q)
  {
    var i0, j0 :| MissDifferent(AnswersNow(q, keys, s.cache.docs), i0, j0);
    ReachableCache(limit, s);
    var s0 := StoredIsLaunched(limit, s, q, keys, url);
    var ts := PrecariousOrder(q, keys, s.cache.docs);
    OrderedTokens(ts, q, keys, s.cache.docs);
    IdsDiffer(s, q, keys, s.cache.docs, ts);
    var s1 := FetchAndWrite(limit, s0, q, keys, ts);
    assert ts[|ts| - 1] in ts;
    var s2, s3 := LastThenAnother(limit, s1, q, keys, ts);
    LeadsOn(limit, IN_ORDER, Created(s, q, keys, url), s0, s1);
    Relax(limit, IN_ORDER, ONE_AT_A_TIME, Created(s, q, keys, url), s1);
    LeadsOn(limit, ONE_AT_A_TIME, Created(s, q, keys, url), s1, s2);
    assert Reverts(limit, ONE_AT_A_TIME, Created(s, q, keys, url), q, s2, s3);
  }

  // ----- handlers interleaved: one reads early and decides late -----

  /** The first handler has read the cache, and has not decided yet. */
  lemma BeginAndRead(limit: int, d: Discipline, s: State, m: Received, q: Uuid, keys: seq<SubKey>) returns (s': State)
    requires Holds(s.qm, q, keys) && ResultOf(m, q, keys) && m in s.qm.inbox
    requires Obeys(d, s, Handling(SHandlerStart(m)))
    ensures Leads(limit, d, s, s') && s'.cache == s.cache && s'.audit == s.audit && Holds(s'.qm, q, keys)
    ensures s'.qm.inbox == s.qm.inbox - multiset{m}
    ensures |s'.qm.handlers| == |s.qm.handlers| + 1
    ensures EarlyReader(s'.qm.handlers[|s.qm.handlers|], m, keys, s.cache.docs)
  {
    var row := s.qm.queries[q];
    var s1 := s.(qm := s.qm.(inbox := s.qm.inbox - multiset{m}),
                 lastRetired := s.lastRetired[q := ByHandler(m.token)]);
    HeldKeys(s.qm, q, keys);
    HandleBegins(limit, s, m);
    HandlerReadsRun(limit, s1, m, row.status, row.callbackUrl, keys, |keys|);
    s' := WithHandler(s1, m, Reading(row.status, row.callbackUrl, keys, SeenUpTo(keys, s.cache.docs, |keys|)));
    var begin := [Handling(SHandlerStart(m)), Handling(SHandlerLoad(|s.qm.handlers|))];
    var looks := HandlerReads(|s.qm.handlers|, |keys|);
    RunConcat(limit, s, begin, looks);
    BeginObeys(limit, d, s, m, begin + looks);
  }

  ghost predicate EarlyReader(h: Handler, m: Received, keys: seq<SubKey>, docs: seq<Doc>) {
    h.msg == m && h.phase.Reading? && h.phase.keys == keys && h.phase.seen == SeenUpTo(keys, docs, |keys|)
  }

  lemma DecideLate(limit: int, d: Discipline, s: State, i: nat, m: Received, q: Uuid, keys: seq<SubKey>, docs: seq<Doc>)
      returns (s': State)
    requires i < |s.qm.handlers| && EarlyReader(s.qm.handlers[i], m, keys, docs) && m.token.queryId == q
    requires q in s.qm.queries && !AllTruthy(LatestNow(m, keys, docs))
    ensures Leads(limit, d, s, s') && IsPending(s'.qm.queries, q) && s'.audit == s.audit
  {
    LatestIsNow(m, keys, docs);
    StepLeads(limit, d, s, Handling(SHandlerSaveStatus(i)));
    s' := HandlerSaveStatus(s, i);
  }

  lemma LastIsWritten(limit: int, d: Discipline, s: State, keys: seq<SubKey>, z: Token) returns (s': State)
    requires Answer(UP, z) in s.cache.inbox && Collection(s.cache.docs)
    requires forall i :: 0 <= i < |keys| ==> Cached(s.cache.docs, keys[i].path) || keys[i].path == z.path
    ensures Leads(limit, d, s, s') && s' == s.(cache := s'.cache)
    ensures Answer(UP, z) in s'.cache.done && Collection(s'.cache.docs)
    ensures forall i :: 0 <= i < |keys| ==> Cached(s'.cache.docs, keys[i].path)
  {
    WriteLeads(limit, d, s, Answer(UP, z));
    s' := Written(s, Answer(UP, z));
    UpdateCaches(s.cache.docs, z.path, UP(z.path));
  }

  lemma ReadEarlyDecideLate(limit: int, s: State, q: Uuid, keys: seq<SubKey>, ts: seq<Token>)
      returns (s1: State, s2: State)
    requires AllButLast(s, q, keys, ts) && |ts| >= 2
    requires exists i :: 0 <= i < |keys| && keys[i] == SubKey(ts[|ts| - 1].id, ts[|ts| - 1].path)
    requires ts[0].id != ts[|ts| - 1].id
    ensures Reverts(limit, CACHE_FIRST, s, q, s1, s2) && s2.audit == s.audit
  {
    var z, a := Answer(UP, ts[|ts| - 1]), Answer(UP, ts[0]);
    assert z.token in ts && a.token in ts && a != z;
    var n := |s.qm.handlers|;
    var sa := BeginAndRead(limit, CACHE_FIRST, s, a, q, keys);
    var sb := LastIsWritten(limit, CACHE_FIRST, sa, keys, z.token);
    LeadsOn(limit, CACHE_FIRST, s, sa, sb);
    Completes(z, keys, sb.cache.docs);
    s1 := HandleResult(limit, CACHE_FIRST, sb, z, q, keys);
    LeadsOn(limit, CACHE_FIRST, s, sb, s1);
    var i :| 0 <= i < |keys| && keys[i] == SubKey(z.token.id, z.token.path);
    FallsShort(a, keys, s.cache.docs, i);
    s2 := DecideLate(limit, CACHE_FIRST, s1, n, a, q, keys, s.cache.docs);
  }

  /** With handlers of one query interleaved, a query with two missing paths can revert. */
  lemma InterleavedReverts(limit: int, d: Discipline, s: State, q: Uuid, keys: seq<SubKey>, url: Option<string>)
    requires limit >= 1 && Reachable(limit, s) && CanCreateStart(s, q, keys) && q !in s.qm.creators
    requires TruthyUpstream(s) && |MissingPaths(AnswersNow(q, keys, s.cache.docs))| >= 2 && !d.oneAtATime
    ensures CanRevertTruthfully(limit, d, Created(s, q, keys, url), q)
  {
    var s1 := Created(s, q, keys, url);
    var ds := AnswersNow(q, keys, s.cache.docs);
    var ts := Plan(ds);
    TwoMissing(ds);
    PlanCovers(ds);
    ReachableCache(limit, s);
    PlanIsOrdering(q, keys, s.cache.docs);
    OrderedTokens(ts, q, keys, s.cache.docs);
    IdsDiffer(s, q, keys, s.cache.docs, ts);
    var s2 := StoredIsLaunched(limit, s, q, keys, url);
    var s3 := FetchAndWrite(limit, s2, q, keys, ts);
    assert ts[|ts| - 1] in ts;
    var s4, s5 := ReadEarlyDecideLate(limit, s3, q, keys, ts);
    LeadsOn(limit, IN_ORDER, s1, s2, s3);
    RevertsFrom(limit, d, s1, s3, q, s4, s5);
  }

  lemma RevertsFrom(limit: int, d: Discipline, s: State, s': State, q: Uuid, s1: State, s2: State)
    requires Leads(limit, IN_ORDER, s, s') && Reverts(limit, CACHE_FIRST, s', q, s1, s2) && !d.oneAtATime
    ensures Reverts(limit, d, s, q, s1, s2)
  {
    Relax(limit, IN_ORDER, d, s, s');
    Relax(limit, CACHE_FIRST, d, s', s1);
    Relax(limit, CACHE_FIRST, d, s1, s2);
    LeadsOn(limit, d, s, s', s1);
  }

  // ----- a falsy answer: even in order -----

  /** A rival has fetched and written every path; the last token of the query is answered falsily. */
  ghost predicate AllCachedLastFalsy(s: State, q: Uuid, keys: seq<SubKey>, a: Token, z: Token) {
    && Collection(s.cache.docs) && Holds(s.qm, q, keys) && NobodyFor(s.qm.handlers, q)
    && Answer(UP, a) in s.qm.inbox && Answer(UP, a) in s.cache.done && ResultOf(Answer(UP, a), q, keys)
    && Received(z, Null) in s.qm.inbox && Received(z, Null) in s.cache.done && ResultOf(Received(z, Null), q, keys)
    && forall i :: 0 <= i < |keys| ==> Cached(s.cache.docs, keys[i].path)
  }

  lemma FalsyUndoes(limit: int, s: State, q: Uuid, keys: seq<SubKey>, a: Token, z: Token)
      returns (s1: State, s2: State)
    requires AllCachedLastFalsy(s, q, keys, a, z)
    ensures Reverts(limit, IN_ORDER, s, q, s1, s2)
  {
    var m, mz := Answer(UP, a), Received(z, Null);
    Completes(m, keys, s.cache.docs);
    s1 := HandleResult(limit, IN_ORDER, s, m, q, keys);
    var i :| 0 <= i < |keys| && keys[i].id == z.id;
    FallsShort(mz, keys, s.cache.docs, i);
    s2 := HandleResult(limit, IN_ORDER, s1, mz, q, keys);
  }

  /** All but the last token of `ts` are fetched, and the last one is answered falsily. */
  lemma FetchLastFalsy(limit: int, s: State, ts: seq<Token>) returns (s': State)
    requires ts != [] && Distinct(ts) && !Limited(limit, s.lim) && AllWaiting(s, ts)
    ensures var n := |ts| - 1;
            && Leads(limit, IN_ORDER, s, s') && s'.qm == s.qm.(inbox := s'.qm.inbox)
            && s'.cache.docs == s.cache.docs
            && (forall j :: 0 <= j < n ==> Answer(UP, ts[j]) in s'.cache.inbox && Answer(UP, ts[j]) in s'.qm.inbox)
            && Received(ts[n], Null) in s'.cache.done && Received(ts[n], Null) in s'.qm.inbox
  {
    var n := |ts| - 1;
    var mz := Received(ts[n], Null);
    FetchAll(limit, UP, s, ts, n);
    var s1 :| FetchedSome(limit, UP, s, s1, ts, n);
    FetchedTruthfully(s, s1);
    DeliveredLeads(limit, IN_ORDER, s1, ts[n], Null);
    var s2 := Delivered(s1, ts[n], Null);
    WriteLeads(limit, IN_ORDER, s2, mz);
    s' := Written(s2, mz);
    LeadsOn(limit, IN_ORDER, s, s1, s2);
    LeadsOn(limit, IN_ORDER, s, s2, s');
  }

  /** The first `k` answers are written. */
  lemma WritePrefix(limit: int, s: State, ts: seq<Token>, k: nat) returns (s': State)
    requires k <= |ts| && Distinct(ts) && Collection(s.cache.docs)
    requires forall j :: 0 <= j < k ==> Answer(UP, ts[j]) in s.cache.inbox
    ensures Leads(limit, IN_ORDER, s, s') && s' == s.(cache := s'.cache) && Collection(s'.cache.docs)
    ensures Grows(s.cache.docs, s'.cache.docs) && s.cache.done <= s'.cache.done && Done(UP, s'.cache, ts, k)
  {
    assert forall i, j :: 0 <= i < j < k ==> ts[..k][i] == ts[i] && ts[..k][j] == ts[j];
    UpIsTruthful();
    WriteAll(limit, UP, s, ts[..k], k);
    s' :| WrittenSome(limit, UP, s, s', ts[..k], k);
    forall j | 0 <= j < k ensures Answer(UP, ts[j]) in s'.cache.done && Cached(s'.cache.docs, ts[j].path) {
      assert ts[..k][j] == ts[j];
    }
  }

  /** Both the rivals and the query's own tokens are under way, the query's last one coming last. */
  lemma RivalsAndOwn(limit: int, s: State, q: Uuid, keys: seq<SubKey>, rivals: seq<Token>, plan: seq<Token>)
      returns (s': State)
    requires Rivalled(limit, s, rivals, plan) && Ordering(plan, q, keys, s.cache.docs) && |plan| >= 2
    requires Collection(s.cache.docs) && Holds(s.qm, q, keys) && NobodyFor(s.qm.handlers, q)
    ensures Leads(limit, IN_ORDER, s, s') && AllCachedLastFalsy(s', q, keys, plan[0], plan[|plan| - 1])
  {
    var ts := rivals + plan;
    var a, z := plan[0], plan[|plan| - 1];
    assert ts[|rivals|] == a && ts[|ts| - 1] == z && a in plan && z in plan;
    OrderedTokens(plan, q, keys, s.cache.docs);
    var s1 := FetchLastFalsy(limit, s, ts);
    s' := WritePrefix(limit, s1, ts, |ts| - 1);
    LeadsOn(limit, IN_ORDER, s, s1, s');
    RivalsCacheAll(q, keys, rivals, plan, |ts| - 1, s.cache.docs, s'.cache);
    AnswersAreResults(s, q, keys, plan);
    var i :| 0 <= i < |keys| && keys[i] == SubKey(z.id, z.path);
    assert keys[i].id == Received(z, Null).token.id;
  }

  /** Once the rivals' answers are written, every path of the query is cached. */
  lemma RivalsCacheAll(q: Uuid, keys: seq<SubKey>, rivals: seq<Token>, plan: seq<Token>, k: nat, docs: seq<Doc>,
                       c: CacheSide)
    requires Ordering(plan, q, keys, docs) && |rivals| <= k <= |rivals + plan|
    requires Collection(docs) && Grows(docs, c.docs)
    requires forall t :: t in plan ==> HasPath(rivals, t.path)
    requires Done(UP, c, rivals + plan, k)
    ensures forall i :: 0 <= i < |keys| ==> Cached(c.docs, keys[i].path)
  {
    forall i | 0 <= i < |keys| ensures Cached(c.docs, keys[i].path) {
      if !Cached(docs, keys[i].path) {
        UncachedIsOrdered(plan, q, keys, docs, i);
        var n :| 0 <= n < |plan| && plan[n].path == keys[i].path;
        assert plan[n] in plan;
        var j :| 0 <= j < |rivals| && rivals[j].path == keys[i].path;
        assert (rivals + plan)[j] == rivals[j];
      }
    }
  }

  /** With a falsy answer, a query with two missing paths can revert under every discipline. */
  lemma FalsyReverts(limit: int, d: Discipline, s: State, q: Uuid, keys: seq<SubKey>, url: Option<string>)
    requires limit >= 1 && Reachable(limit, s) && CanCreateStart(s, q, keys) && q !in s.qm.creators
    requires |MissingPaths(AnswersNow(q, keys, s.cache.docs))| >= 2
    ensures CanRevert(limit, d, Created(s, q, keys, url), q)
  {
    var s1 := Created(s, q, keys, url);
    var ds := AnswersNow(q, keys, s.cache.docs);
    var plan := Plan(ds);
    TwoMissing(ds);
    PlanCovers(ds);
    PlanIsOrdering(q, keys, s.cache.docs);
    ReachableCache(limit, s);
    NothingPostedYet(limit, s, q);
    StoredFacts(s, q, keys, url);
    CreatedLeads(limit, s, q, keys, url);
    var s2, rivals := RivalWaits(limit, s1, q, keys);
    var s3 := RivalsAndOwn(limit, s2, q, keys, rivals, plan);
    var s4, s5 := FalsyUndoes(limit, s3, q, keys, plan[0], plan[|plan| - 1]);
    LeadsOn(limit, IN_ORDER, s1, s2, s3);
    LeadsOn(limit, IN_ORDER, s1, s3, s4);
    Relax(limit, IN_ORDER, d, s1, s4);
    Relax(limit, IN_ORDER, d, s4, s5);
    assert Reverts(limit, d, s1, q, s4, s5);
  }

  // ----- and who cannot -----

  /** A query that was never stored, or that misses one path, does not revert. */
  lemma LoneCannot(limit: int, d: Discipline, s: State, q: Uuid, ds: seq<SubDto>)
    requires Reachable(limit, s) && CreatedWith(s, q, ds) && |MissingPaths(ds)| <= 1
    ensures !CanRevert(limit, d, s, q)
  {
    forall s1, s2 ensures !Reverts(limit, d, s, q, s1, s2) {
      if Reverts(limit, d, s, q, s1, s2) {
        Drain.LeadsStayReachable(limit, d, s, s1);
        LeadsKeepCreatedWith(limit, d, s, s1, q, ds);
        if AllTruthy(ds) {
          NeverStored(limit, s1, q, ds);
        } else {
          var steps :| Run(limit, s1, steps) == Some(s2) && RunObeys(limit, d, s1, steps);
          LoneNeverReverts(limit, s1, steps, q, ds);
        }
      }
    }
  }

  /** Nor does one, taken up one result at a time, that is not precarious. */
  lemma SteadyCannot(limit: int, d: Discipline, s: State, q: Uuid, ds: seq<SubDto>)
    requires Reachable(limit, s) && CreatedWith(s, q, ds) && !AllTruthy(ds) && Keeps(d, s, q)
    requires d.oneAtATime && (d.cacheFirst || Doubled(ds))
    ensures !CanRevertTruthfully(limit, d, s, q)
  {
    forall s1, s2 ensures !(Reverts(limit, d, s, q, s1, s2) && TruthyUpstream(s2)) {
      if Reverts(limit, d, s, q, s1, s2) && TruthyUpstream(s2) {
        var a :| Run(limit, s, a) == Some(s1) && RunObeys(limit, d, s, a);
        var b :| Run(limit, s1, b) == Some(s2) && RunObeys(limit, d, s1, b);
        TruthyBefore(limit, s1, b);
        RunKeeps(limit, d, s, a, q, ds);
        Drain.LeadsStayReachable(limit, d, s, s1);
        RunKeepsCreatedWith(limit, s, a, q, ds);
        RunKeeps(limit, d, s1, b, q, ds);
      }
    }
  }

  lemma {:induction false} TruthyBefore(limit: int, s: State, steps: seq<Step>)
    requires Run(limit, s, steps).Some? && TruthyUpstream(Run(limit, s, steps).value)
    ensures TruthyUpstream(s)
  {
    if steps != [] {
      var n := |steps| - 1;
      Upstream.StepWasTruthy(limit, Run(limit, s, steps[..n]).value, steps[n]);
      TruthyBefore(limit, s, steps[..n]);
    }
  }

  lemma CreatedKeeps(limit: int, d: Discipline, s: State, q: Uuid, keys: seq<SubKey>, url: Option<string>)
    requires Reachable(limit, s) && CanCreateStart(s, q, keys) && !AllTruthy(AnswersNow(q, keys, s.cache.docs))
    ensures Keeps(d, Created(s, q, keys, url), q)
  {
    NothingPostedYet(limit, s, q);
  }

  // ----- the results -----

  /** If upstream may answer falsily: a new query can revert if and only if it misses two different paths,
      whatever the discipline. */
  lemma RevertsIffTwoMissing(limit: int, d: Discipline, s: State, q: Uuid, keys: seq<SubKey>, url: Option<string>)
    requires limit >= 1 && Reachable(limit, s) && CanCreateStart(s, q, keys) && q !in s.qm.creators
    ensures CanRevert(limit, d, Created(s, q, keys, url), q)
            <==> |MissingPaths(AnswersNow(q, keys, s.cache.docs))| >= 2
  {
    if |MissingPaths(AnswersNow(q, keys, s.cache.docs))| >= 2 {
      FalsyReverts(limit, d, s, q, keys, url);
    } else {
      CreatedLeads(limit, s, q, keys, url);
      LoneCannot(limit, d, Created(s, q, keys, url), q, AnswersNow(q, keys, s.cache.docs));
    }
  }

  /** Which new queries can revert while all upstream answers are truthy. */
  ghost predicate AtRisk(d: Discipline, ds: seq<SubDto>) {
    if d.oneAtATime then !d.cacheFirst && Precarious(ds) else |MissingPaths(ds)| >= 2
  }

  /** If upstream answers truthily: with handlers of one query interleaved, exactly the queries that miss
      two different paths can revert; one result at a time, those of them with a missing path that a single
      row names; and in order, none. */
  lemma TruthfulRevertsIff(limit: int, d: Discipline, s: State, q: Uuid, keys: seq<SubKey>, url: Option<string>)
    requires limit >= 1 && Reachable(limit, s) && TruthyUpstream(s) && CanCreateStart(s, q, keys)
             && q !in s.qm.creators
    ensures CanRevertTruthfully(limit, d, Created(s, q, keys, url), q)
            <==> AtRisk(d, AnswersNow(q, keys, s.cache.docs))
  {
    var ds := AnswersNow(q, keys, s.cache.docs);
    if AtRisk(d, ds) {
      if d.oneAtATime {
        assert d == ONE_AT_A_TIME;
        PrecariousReverts(limit, s, q, keys, url);
      } else {
        InterleavedReverts(limit, d, s, q, keys, url);
      }
    } else {
      NotAtRisk(limit, d, s, q, keys, url);
    }
  }

  lemma NotAtRisk(limit: int, d: Discipline, s: State, q: Uuid, keys: seq<SubKey>, url: Option<string>)
    requires Reachable(limit, s) && CanCreateStart(s, q, keys) && q !in s.qm.creators
    requires !AtRisk(d, AnswersNow(q, keys, s.cache.docs))
    ensures !CanRevertTruthfully(limit, d, Created(s, q, keys, url), q)
  {
    var ds := AnswersNow(q, keys, s.cache.docs);
    var s1 := Created(s, q, keys, url);
    CreatedLeads(limit, s, q, keys, url);
    if |MissingPaths(ds)| <= 1 {
      LoneCannot(limit, d, s1, q, ds);
    } else {
      TwoMissing(ds);
      CreatedKeeps(limit, d, s, q, keys, url);
      if !d.cacheFirst {
        NotPrecarious(ds);
      }
      SteadyCannot(limit, d, s1, q, ds);
    }
  }
}
