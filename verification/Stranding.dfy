/** No stored query is safe: whatever is missing when a query is created, the query can come to rest PENDING,
    in order and with every upstream answer truthy. A rival query for the same paths is all it takes. */
module Stranding {
  import opened Domain
  import opened RateLimiter
  import opened Cache
  import opened Planner
  import opened Protocol
  import opened Conservation
  import opened References
  import opened Handlers
  import opened Presence
  import opened Announcements
  import opened Invariants
  import opened Atomic
  import opened Order
  import opened Sharpness
  import opened Upstream
  import Completers
  import Drain
  import Fates
  import Realization
  import Rest
  import Stuck

  // ----- a rival: another query for the same paths -----

  /** The same paths, under ids that are in use nowhere. */
  ghost predicate Renamed(keys: seq<SubKey>, keys': seq<SubKey>, pool: set<Uuid>) {
    && |keys'| == |keys|
    && (forall i :: 0 <= i < |keys| ==> keys'[i].path == keys[i].path && keys'[i].id !in pool)
    && (forall i, j :: 0 <= i < j < |keys| ==> keys'[i].id != keys'[j].id)
  }

  lemma {:induction false} Rename(keys: seq<SubKey>, pool: set<Uuid>) returns (keys': seq<SubKey>)
    ensures Renamed(keys, keys', pool)
  {
    if keys == [] {
      keys' := [];
    } else {
      var n := |keys| - 1;
      var before := Rename(keys[..n], pool);
      var id := Realization.FreshUuid(pool + set i | 0 <= i < n :: before[i].id);
      keys' := before + [SubKey(id, keys[n].path)];
    }
  }

  lemma RivalCanStart(s: State, q: Uuid, keys: seq<SubKey>) returns (q': Uuid, keys': seq<SubKey>)
    requires Owned(s.qm.owner, s.qm.creators, s.qm.queries, s.qm.rows)
    ensures CanCreateStart(s, q', keys') && q' !in s.qm.creators
    ensures Renamed(keys, keys', s.qm.owner.Keys)
  {
    q' := Realization.FreshUuid(s.qm.owner.Keys);
    keys' := Rename(keys, s.qm.owner.Keys + {q'});
  }

  /** Whatever `q` misses, its rival misses too. */
  lemma RivalPlans(q: Uuid, keys: seq<SubKey>, q': Uuid, keys': seq<SubKey>, docs: seq<Doc>, t: Token)
    requires |keys'| == |keys| && forall i :: 0 <= i < |keys| ==> keys'[i].path == keys[i].path
    requires t in Plan(AnswersNow(q, keys, docs))
    ensures HasPath(Plan(AnswersNow(q', keys', docs)), t.path)
  {
    var ds, ds' := AnswersNow(q, keys, docs), AnswersNow(q', keys', docs);
    PlanIsMissing(ds, t);
    var i :| 0 <= i < |ds| && t == TokenOf(ds[i]) && FirstMissing(ds, i);
    assert ds'[i].path == t.path && !Truthy(ds'[i].result);
    PlanHasPath(ds', t.path);
  }

  lemma RivalMisses(q: Uuid, keys: seq<SubKey>, q': Uuid, keys': seq<SubKey>, docs: seq<Doc>)
    requires |keys'| == |keys| && forall i :: 0 <= i < |keys| ==> keys'[i].path == keys[i].path
    requires !AllTruthy(AnswersNow(q, keys, docs))
    ensures !AllTruthy(AnswersNow(q', keys', docs))
  {
    var ds, ds' := AnswersNow(q, keys, docs), AnswersNow(q', keys', docs);
    var i :| 0 <= i < |ds| && !Truthy(ds[i].result);
    assert !Truthy(ds'[i].result);
  }

  /** The rival's creation touches nothing that is stored. */
  ghost predicate Beside(s: State, s': State) {
    && s'.cache == s.cache && s'.audit.calls == s.audit.calls
    && s'.qm.handlers == s.qm.handlers && s'.qm.inbox == s.qm.inbox
    && (forall t :: t in s.pipe.scheduleInbox ==> t in s'.pipe.scheduleInbox)
    && (forall q :: q in s.qm.queries ==> q in s'.qm.queries && s'.qm.queries[q] == s.qm.queries[q])
    && (forall id :: id in s.qm.rows ==> id in s'.qm.rows && s'.qm.rows[id] == s.qm.rows[id])
  }

  lemma CreatedBeside(s: State, q: Uuid, keys: seq<SubKey>, url: Option<string>)
    requires Owned(s.qm.owner, s.qm.creators, s.qm.queries, s.qm.rows)
    requires CanCreateStart(s, q, keys) && !AllTruthy(AnswersNow(q, keys, s.cache.docs))
    ensures Beside(s, Created(s, q, keys, url))
  {
    var ds := AnswersNow(q, keys, s.cache.docs);
    forall id | id in s.qm.rows
      ensures id in InsertRows(s.qm.rows, ds) && InsertRows(s.qm.rows, ds)[id] == s.qm.rows[id]
    {
      InsertedElsewhere(s.qm.rows, ds, id);
    }
  }

  ghost predicate AllFrom(ts: seq<Token>, owner: map<Uuid, Uuid>) {
    forall t :: t in ts ==> t.queryId in owner
  }

  ghost predicate NoneFrom(ts: seq<Token>, owner: map<Uuid, Uuid>) {
    forall t :: t in ts ==> t.queryId !in owner
  }

  lemma JoinedDistinct(rivals: seq<Token>, plan: seq<Token>, owner: map<Uuid, Uuid>)
    requires Distinct(rivals) && Distinct(plan) && NoneFrom(rivals, owner) && AllFrom(plan, owner)
    ensures Distinct(rivals + plan)
  {
    var ts := rivals + plan;
    forall i, j | 0 <= i < j < |ts| ensures ts[i] != ts[j] {
      if i < |rivals| <= j {
        assert ts[i] in rivals && ts[j] in plan;
      }
    }
  }

  /** The rivals of `plan`: tokens for the same paths, all waiting at a scheduler that is free. */
  ghost predicate Rivalled(limit: int, s: State, rivals: seq<Token>, plan: seq<Token>) {
    && !Limited(limit, s.lim) && Distinct(rivals + plan) && AllWaiting(s, rivals + plan)
    && forall t :: t in plan ==> HasPath(rivals, t.path)
  }

  lemma RivalAsks(limit: int, s: State, q: Uuid, keys: seq<SubKey>) returns (s': State, rivals: seq<Token>)
    requires Reachable(limit, s) && q in s.qm.owner && !AllTruthy(AnswersNow(q, keys, s.cache.docs))
    requires forall t :: t in Plan(AnswersNow(q, keys, s.cache.docs)) ==> t in s.pipe.scheduleInbox
    ensures Leads(limit, IN_ORDER, s, s') && Beside(s, s') && s'.lim == s.lim
    ensures var plan := Plan(AnswersNow(q, keys, s.cache.docs));
            && Distinct(rivals + plan) && AllWaiting(s', rivals + plan)
            && forall t :: t in plan ==> HasPath(rivals, t.path)
  {
    ReachableTables(limit, s);
    var q', keys' := RivalCanStart(s, q, keys);
    CreateLeads(limit, IN_ORDER, s, q', keys', None);
    s' := Created(s, q', keys', None);
    RivalMisses(q, keys, q', keys', s.cache.docs);
    CreatedBeside(s, q', keys', None);
    StoredFacts(s, q', keys', None);
    var plan := Plan(AnswersNow(q, keys, s.cache.docs));
    rivals := Plan(AnswersNow(q', keys', s.cache.docs));
    PlanIsOfQuery(q, keys, s.cache.docs);
    PlanIsOfQuery(q', keys', s.cache.docs);
    JoinedDistinct(rivals, plan, s.qm.owner);
    forall t | t in plan ensures HasPath(rivals, t.path) {
      RivalPlans(q, keys, q', keys', s.cache.docs, t);
    }
    BothWait(s', rivals, plan);
  }

  lemma BothWait(s: State, rivals: seq<Token>, plan: seq<Token>)
    requires forall t :: t in rivals ==> t in s.pipe.scheduleInbox && !Truthy(Read(s.cache.docs, t.path))
    requires forall t :: t in plan ==> t in s.pipe.scheduleInbox && !Truthy(Read(s.cache.docs, t.path))
    ensures AllWaiting(s, rivals + plan)
  {
    var ts := rivals + plan;
    forall j | 0 <= j < |ts| ensures ts[j] in s.pipe.scheduleInbox && !Truthy(Read(s.cache.docs, ts[j].path)) {
      assert ts[j] in rivals || ts[j] in plan;
    }
  }

  /** And a window later the scheduler is free. */
  lemma RivalWaits(limit: int, s: State, q: Uuid, keys: seq<SubKey>) returns (s': State, rivals: seq<Token>)
    requires limit >= 1 && Reachable(limit, s) && q in s.qm.owner && !AllTruthy(AnswersNow(q, keys, s.cache.docs))
    requires forall t :: t in Plan(AnswersNow(q, keys, s.cache.docs)) ==> t in s.pipe.scheduleInbox
    ensures Leads(limit, IN_ORDER, s, s') && Beside(s, s')
    ensures Rivalled(limit, s', rivals, Plan(AnswersNow(q, keys, s.cache.docs)))
  {
    var s1;
    s1, rivals := RivalAsks(limit, s, q, keys);
    ReachableCache(limit, s);
    LaterIsFree(limit, s.lim);
    StepLeads(limit, IN_ORDER, s1, Tick(WINDOW));
    s' := Next(limit, s1, Tick(WINDOW));
    LeadsOn(limit, IN_ORDER, s, s1, s');
  }

  // ----- the rival goes first -----

  /** Everything the tokens ask for is cached, and they still wait at the scheduler. */
  ghost predicate Overtaken(s: State, plan: seq<Token>) {
    forall t :: t in plan ==> t in s.pipe.scheduleInbox && Cached(s.cache.docs, t.path)
  }

  lemma PathIsDone(c: CacheSide, ts: seq<Token>, k: nat, path: Path)
    requires k <= |ts| && Done(UP, c, ts, k) && HasPath(ts[..k], path)
    ensures Cached(c.docs, path)
  {
    var j :| 0 <= j < k && ts[..k][j].path == path;
    assert ts[j].path == path;
  }

  /** The rivals have been fetched, and the others still wait. */
  lemma RivalIsFetched(limit: int, s: State, rivals: seq<Token>, plan: seq<Token>) returns (s': State)
    requires Rivalled(limit, s, rivals, plan)
    ensures Leads(limit, IN_ORDER, s, s') && s'.cache.docs == s.cache.docs
    ensures forall t :: t in plan ==> t in s'.pipe.scheduleInbox
    ensures forall j :: 0 <= j < |rivals| ==> Answer(UP, rivals[j]) in s'.cache.inbox
    ensures TruthyUpstream(s) ==> TruthyUpstream(s')
  {
    var ts, k := rivals + plan, |rivals|;
    FetchAll(limit, UP, s, ts, k);
    s' :| FetchedSome(limit, UP, s, s', ts, k);
    FetchedTruthfully(s, s');
    forall t | t in plan ensures t in s'.pipe.scheduleInbox {
      var j :| 0 <= j < |plan| && plan[j] == t;
      assert ts[k + j] == t;
    }
    forall j | 0 <= j < |rivals| ensures Answer(UP, rivals[j]) in s'.cache.inbox {
      assert ts[j] == rivals[j];
    }
  }

  lemma RivalIsWritten(limit: int, s: State, rivals: seq<Token>, plan: seq<Token>) returns (s': State)
    requires Distinct(rivals) && Collection(s.cache.docs) && forall t :: t in plan ==> HasPath(rivals, t.path)
    requires forall j :: 0 <= j < |rivals| ==> Answer(UP, rivals[j]) in s.cache.inbox
    requires forall t :: t in plan ==> t in s.pipe.scheduleInbox
    ensures Leads(limit, IN_ORDER, s, s') && Overtaken(s', plan) && s'.audit == s.audit
  {
    var k := |rivals|;
    UpIsTruthful();
    WriteAll(limit, UP, s, rivals, k);
    s' :| WrittenSome(limit, UP, s, s', rivals, k);
    assert rivals[..k] == rivals;
    forall t | t in plan ensures t in s'.pipe.scheduleInbox && Cached(s'.cache.docs, t.path) {
      PathIsDone(s'.cache, rivals, k, t.path);
    }
  }

  lemma RivalGoesFirst(limit: int, s: State, rivals: seq<Token>, plan: seq<Token>) returns (s': State)
    requires Rivalled(limit, s, rivals, plan) && Collection(s.cache.docs)
    ensures Leads(limit, IN_ORDER, s, s') && Overtaken(s', plan)
    ensures TruthyUpstream(s) ==> TruthyUpstream(s')
  {
    var s1 := RivalIsFetched(limit, s, rivals, plan);
    assert forall i, j :: 0 <= i < j < |rivals| ==> (rivals + plan)[i] == rivals[i] && (rivals + plan)[j] == rivals[j];
    s' := RivalIsWritten(limit, s1, rivals, plan);
    LeadsOn(limit, IN_ORDER, s, s1, s');
  }

  // ----- what is overtaken is dropped -----

  lemma WaitingIsNotStarted(s: State, t: Token)
    requires Conserved(s) && Referenced(s) && t in s.pipe.scheduleInbox
    ensures Started(s.pipe, t) == 0
  {
    assert s.pipe.emitted[t] == 1;
  }

  /** In every continuation, no token that was overtaken is answered. */
  lemma NeverAnswered(limit: int, s: State, plan: seq<Token>, steps: seq<Step>, t: Token)
    requires Reachable(limit, s) && Overtaken(s, plan) && t in plan && Run(limit, s, steps).Some?
    ensures t !in multiset(ReceivedTokens(Run(limit, s, steps).value.pipe.received))
  {
    ReachableTables(limit, s);
    WaitingIsNotStarted(s, t);
    CachedMeansNoMoreTraffic(limit, s, steps, t.path, t);
  }

  lemma PastSaveIsReceived(s: State, t: Token)
    requires Conserved(s) && Completers.PastSave(s.qm.done, s.qm.handlers, t)
    ensures t in s.pipe.emitted && t in multiset(ReceivedTokens(s.pipe.received))
  {
    if m :| m in s.qm.done && m.token == t {
      assert m in multiset(s.pipe.received);
      ReceivedIsEmitted(s, m);
      Fates.TokenWasReceived(s, m);
    } else {
      var i :| 0 <= i < |s.qm.handlers| && s.qm.handlers[i].msg.token == t;
      HandlerIsReceived(s, i);
      ReceivedIsEmitted(s, s.qm.handlers[i].msg);
      Fates.TokenWasReceived(s, s.qm.handlers[i].msg);
    }
  }

  /** COMPLETED takes an answer to a token of the query. */
  lemma CompletedWasAnswered(limit: int, s: State, q: Uuid) returns (t: Token)
    requires Reachable(limit, s) && q in s.qm.queries && s.qm.queries[q].status == COMPLETED
    ensures t in s.pipe.emitted && t.queryId == q && t in multiset(ReceivedTokens(s.pipe.received))
  {
    var start, steps :| Run(limit, Init(start), steps) == Some(s);
    Completers.RunKeepsCompleters(limit, start, steps);
    ReachableTables(limit, s);
    t :| t in Completers.CompletedBy(limit, Init(start), steps) && t.queryId == q;
    PastSaveIsReceived(s, t);
  }

  lemma TokensOfQuery(limit: int, s: State, q: Uuid, ds: seq<SubDto>)
    requires Reachable(limit, s) && CreatedWith(s, q, ds) && !AllTruthy(ds)
    ensures q in s.qm.queries && forall t :: t in s.pipe.emitted && t.queryId == q ==> t in Plan(ds)
  {
    ReachableIsSafe(limit, s);
    CreatedIsStored(s, q);
    forall t | t in s.pipe.emitted && t.queryId == q ensures t in Plan(ds) {
      PlannedIsEmitted(s.audit.created, s.pipe.emitted, q, t);
    }
  }

  /** A POST takes one, too. */
  lemma PostWasAnswered(limit: int, s: State, i: nat)
    requires Reachable(limit, s) && i < |s.qm.callbacks|
    ensures var c := s.qm.callbacks[i];
            && c.trigger in s.pipe.emitted && c.trigger.queryId == c.body.id
            && c.trigger in multiset(ReceivedTokens(s.pipe.received))
  {
    ReachableTables(limit, s);
    var c := s.qm.callbacks[i];
    assert CallbackFits(c, s.qm.queries, s.qm.rows);
    var m :| m in s.qm.done && m.token == c.trigger;
    PastSaveIsReceived(s, c.trigger);
  }

  /** PENDING, and nothing was ever posted for it. */
  ghost predicate Silent(qm: QuerySide, q: Uuid) {
    && q in qm.queries && qm.queries[q].status == PENDING
    && forall i :: 0 <= i < |qm.callbacks| ==> qm.callbacks[i].body.id != q
  }

  /** Once all tokens of a query are overtaken, it is PENDING and silent in every continuation. */
  lemma OvertakenStaysPending(limit: int, s: State, q: Uuid, ds: seq<SubDto>, steps: seq<Step>)
    requires Reachable(limit, s) && CreatedWith(s, q, ds) && !AllTruthy(ds) && Overtaken(s, Plan(ds))
    requires Run(limit, s, steps).Some?
    ensures var s' := Run(limit, s, steps).value;
            Silent(s'.qm, q)
  {
    var s' := Run(limit, s, steps).value;
    RunReaches(limit, s, steps);
    RunKeepsCreatedWith(limit, s, steps, q, ds);
    TokensOfQuery(limit, s', q, ds);
    if s'.qm.queries[q].status == COMPLETED {
      var t := CompletedWasAnswered(limit, s', q);
      NeverAnswered(limit, s, Plan(ds), steps, t);
    }
    forall i | 0 <= i < |s'.qm.callbacks| ensures s'.qm.callbacks[i].body.id != q {
      PostWasAnswered(limit, s', i);
      if s'.qm.callbacks[i].body.id == q {
        NeverAnswered(limit, s, Plan(ds), steps, s'.qm.callbacks[i].trigger);
      }
    }
  }

  // ----- the results -----

  /** `s'` follows from `s` in order, and there `q` is stored and at rest, PENDING for good, and never posted. */
  ghost predicate Strands(limit: int, s: State, q: Uuid, s': State) {
    && Leads(limit, IN_ORDER, s, s') && Stuck.AtRest(s', q)
    && forall more :: Run(limit, s', more).Some? ==> Silent(Run(limit, s', more).value.qm, q)
  }

  lemma StrandedIsStored(limit: int, s: State, q: Uuid, s': State)
    requires Strands(limit, s, q, s')
    ensures q in s'.qm.queries
  {
    assert Run(limit, s', []).Some? && Silent(Run(limit, s', []).value.qm, q);
  }

  lemma CreatedLeads(limit: int, s: State, q: Uuid, keys: seq<SubKey>, url: Option<string>)
    requires Reachable(limit, s) && CanCreateStart(s, q, keys) && q !in s.qm.creators
    ensures Reachable(limit, Created(s, q, keys, url))
    ensures CreatedWith(Created(s, q, keys, url), q, AnswersNow(q, keys, s.cache.docs))
  {
    CreateLeads(limit, IN_ORDER, s, q, keys, url);
    Drain.LeadsStayReachable(limit, IN_ORDER, s, Created(s, q, keys, url));
    CreatedStartsWith(limit, s, q, keys, url);
  }

  lemma LeadsKeepCreatedWith(limit: int, d: Discipline, s: State, s': State, q: Uuid, ds: seq<SubDto>)
    requires Leads(limit, d, s, s') && CreatedWith(s, q, ds)
    ensures CreatedWith(s', q, ds)
  {
    var steps :| Run(limit, s, steps) == Some(s') && RunObeys(limit, d, s, steps);
    RunKeepsCreatedWith(limit, s, steps, q, ds);
  }

  /** A stored query, whose tokens wait at the scheduler, is overtaken. */
  lemma CanBeOvertaken(limit: int, s: State, q: Uuid, keys: seq<SubKey>) returns (s': State)
    requires limit >= 1 && Reachable(limit, s) && q in s.qm.owner && !AllTruthy(AnswersNow(q, keys, s.cache.docs))
    requires forall t :: t in Plan(AnswersNow(q, keys, s.cache.docs)) ==> t in s.pipe.scheduleInbox
    ensures Leads(limit, IN_ORDER, s, s') && Overtaken(s', Plan(AnswersNow(q, keys, s.cache.docs)))
    ensures TruthyUpstream(s) ==> TruthyUpstream(s')
  {
    var s1, rivals := RivalWaits(limit, s, q, keys);
    ReachableCache(limit, s);
    s' := RivalGoesFirst(limit, s1, rivals, Plan(AnswersNow(q, keys, s.cache.docs)));
    LeadsOn(limit, IN_ORDER, s, s1, s');
  }

  lemma OvertakenStrands(limit: int, s: State, q: Uuid, ds: seq<SubDto>) returns (s': State)
    requires limit >= 1 && Reachable(limit, s) && CreatedWith(s, q, ds) && !AllTruthy(ds) && Overtaken(s, Plan(ds))
    ensures Strands(limit, s, q, s')
    ensures TruthyUpstream(s) ==> TruthyUpstream(s')
  {
    s' := Drain.CanDrain(limit, UP, s);
    FetchedTruthfully(s, s');
    var steps :| Run(limit, s, steps) == Some(s') && RunObeys(limit, IN_ORDER, s, steps);
    forall more | Run(limit, s', more).Some? ensures Silent(Run(limit, s', more).value.qm, q) {
      RunConcat(limit, s, steps, more);
      OvertakenStaysPending(limit, s, q, ds, steps + more);
    }
  }

  /** Whatever else is going on, a query that is stored when it is created can be left at rest and PENDING,
      in order, and without any falsy answer. */
  lemma CanStrand(limit: int, s: State, q: Uuid, keys: seq<SubKey>, url: Option<string>) returns (s': State)
    requires limit >= 1 && Reachable(limit, s) && CanCreateStart(s, q, keys) && q !in s.qm.creators
    requires !AllTruthy(AnswersNow(q, keys, s.cache.docs))
    ensures Strands(limit, Created(s, q, keys, url), q, s')
    ensures TruthyUpstream(s) ==> TruthyUpstream(s')
  {
    var s1 := Created(s, q, keys, url);
    var ds := AnswersNow(q, keys, s.cache.docs);
    CreatedLeads(limit, s, q, keys, url);
    StoredFacts(s, q, keys, url);
    var s2 := CanBeOvertaken(limit, s1, q, keys);
    Drain.LeadsStayReachable(limit, IN_ORDER, s1, s2);
    LeadsKeepCreatedWith(limit, IN_ORDER, s1, s2, q, ds);
    s' := OvertakenStrands(limit, s2, q, ds);
    LeadsOn(limit, IN_ORDER, s1, s2, s');
  }

  lemma NeverStored(limit: int, s: State, q: Uuid, ds: seq<SubDto>)
    requires Reachable(limit, s) && CreatedWith(s, q, ds) && AllTruthy(ds)
    ensures q !in s.qm.queries
  {
    ReachableIsSafe(limit, s);
  }

  lemma SomethingMissing(q: Uuid, keys: seq<SubKey>, docs: seq<Doc>)
    requires Collection(docs)
    ensures !AllTruthy(AnswersNow(q, keys, docs)) <==> exists k :: 0 <= k < |keys| && !Cached(docs, keys[k].path)
  {
    var ds := AnswersNow(q, keys, docs);
    forall k | 0 <= k < |keys| ensures Truthy(ds[k].result) <==> Cached(docs, keys[k].path) {
      ReadRefinesLookup(docs, keys[k].path);
    }
  }

  /** A new query can be left at rest, PENDING for good and never announced, if and only if one of its paths
      is not cached when it is created. */
  lemma StrandsIffSomethingMissing(limit: int, s: State, q: Uuid, keys: seq<SubKey>, url: Option<string>)
    requires limit >= 1 && Reachable(limit, s) && CanCreateStart(s, q, keys) && q !in s.qm.creators
    ensures (exists s' :: Strands(limit, Created(s, q, keys, url), q, s'))
            <==> exists k :: 0 <= k < |keys| && !Cached(s.cache.docs, keys[k].path)
  {
    var s1 := Created(s, q, keys, url);
    var ds := AnswersNow(q, keys, s.cache.docs);
    ReachableCache(limit, s);
    SomethingMissing(q, keys, s.cache.docs);
    if AllTruthy(ds) {
      forall s' | Strands(limit, s1, q, s') ensures false {
        StrandedIsStored(limit, s1, q, s');
        CreatedLeads(limit, s, q, keys, url);
        LeadsKeepCreatedWith(limit, IN_ORDER, s1, s', q, ds);
        Drain.LeadsStayReachable(limit, IN_ORDER, s1, s');
        NeverStored(limit, s', q, ds);
      }
    } else {
      var s' := CanStrand(limit, s, q, keys, url);
    }
  }
}
