/** COMPLETED without a result: which queries can come to rest COMPLETED although a stored row has none. */
module Gaps {
  import opened Domain
  import opened RateLimiter
  import opened Cache
  import opened Planner
  import opened Protocol
  import opened Conservation
  import opened References
  import opened Presence
  import opened Announcements
  import opened Invariants
  import opened Atomic
  import opened Order
  import opened Sharpness
  import opened Stranding
  import opened Steady
  import opened Reverting
  import opened Rows
  import Drain
  import Fates
  import Rest
  import Stuck

  // ----- what a client polls -----

  /** COMPLETED, with a result missing. */
  ghost predicate LacksOne(answer: Response) {
    answer.status == COMPLETED && exists k :: 0 <= k < |answer.subqueries| && !Truthy(answer.subqueries[k].result)
  }

  /** `s'` follows from `s`, with truthy answers, and there `q` is at rest and polls COMPLETED with a result
      missing, in every continuation. */
  ghost predicate LeavesGap(limit: int, d: Discipline, s: State, q: Uuid, s': State) {
    && Leads(limit, d, s, s') && TruthyUpstream(s') && Stuck.AtRest(s', q)
    && forall more :: Run(limit, s', more).Some? ==> LacksOne(Poll(Run(limit, s', more).value.qm, q))
  }

  ghost predicate TwoRowsMissing(ds: seq<SubDto>) {
    exists i, j :: 0 <= i < j < |ds| && !Truthy(ds[i].result) && !Truthy(ds[j].result)
  }

  /** Row `k` of the query has no result. */
  ghost predicate RowLacks(qm: QuerySide, q: Uuid, k: nat) {
    && q in qm.queries && k < |qm.queries[q].subs| && qm.queries[q].subs[k] in qm.rows
    && !Truthy(qm.rows[qm.queries[q].subs[k]].result)
  }

  lemma GapStays(limit: int, d: Discipline, s: State, q: Uuid, s': State, k: nat)
    requires Reachable(limit, s') && q in s'.audit.created && Stuck.AtRest(s', q)
    requires Leads(limit, d, s, s') && TruthyUpstream(s')
    requires Stuck.IsCompleted(s'.qm.queries, q) && RowLacks(s'.qm, q, k)
    ensures LeavesGap(limit, d, s, q, s')
  {
    forall more | Run(limit, s', more).Some? ensures LacksOne(Poll(Run(limit, s', more).value.qm, q)) {
      Rest.RestIsFinal(limit, s', q, more);
      assert !Truthy(Poll(s'.qm, q).subqueries[k].result);
    }
  }

  lemma GapIsRow(limit: int, d: Discipline, s: State, q: Uuid, s': State) returns (k: nat)
    requires LeavesGap(limit, d, s, q, s') && Referenced(s') && q in s'.qm.queries
    ensures Stuck.IsCompleted(s'.qm.queries, q) && RowLacks(s'.qm, q, k)
  {
    assert Run(limit, s', []) == Some(s') && LacksOne(Poll(Run(limit, s', []).value.qm, q));
    k :| k < |Poll(s'.qm, q).subqueries| && !Truthy(Poll(s'.qm, q).subqueries[k].result);
  }

  // ----- one row missing: its result has come -----

  /** A token is not both dropped and answered. */
  lemma DroppedIsNotAnswered(s: State, t: Token)
    requires Conserved(s) && Referenced(s) && t in s.pipe.dropped
    ensures t !in multiset(ReceivedTokens(s.pipe.received)) && t in s.pipe.emitted
  {
    assert s.pipe.fetched[t] <= s.pipe.emitted[t];
    assert t in s.pipe.emitted;
    assert s.pipe.emitted[t] == 1;
  }

  /** At rest, a row is excused only by a dropped token or by an earlier row. */
  lemma RestIsNotOutstanding(s: State, ds: seq<SubDto>, k: nat, place: Fates.Place)
    requires Conserved(s) && Referenced(s) && k < |ds| && Stuck.AtRest(s, TokenOf(ds[k]).queryId)
    ensures !Excused(s, ds, k, Outstanding(place))
  {
    var t := TokenOf(ds[k]);
    if Excused(s, ds, k, Outstanding(place)) {
      if t in s.pipe.dropped {
        Fates.OnlyOnePlace(s, t, place, Fates.Dropped);
      } else {
        assert Fates.At(s, t, Fates.Place.Handled);
        Fates.OnlyOnePlace(s, t, place, Fates.Place.Handled);
      }
    }
  }

  lemma MissingFromDuplicate(ds: seq<SubDto>, k: nat)
    requires k < |ds| && !Truthy(ds[k].result) && !FirstMissing(ds, k)
    ensures TwoRowsMissing(ds)
  {
    var j :| 0 <= j < k && ds[j].path == ds[k].path && !Truthy(ds[j].result);
  }

  lemma OneRowOnePath(ds: seq<SubDto>)
    requires !TwoRowsMissing(ds)
    ensures |MissingPaths(ds)| <= 1
  {
    TwoMissing(ds);
    forall i, j ensures !MissDifferent(ds, i, j) {
      if i < j {
      } else if j < i {
      }
    }
  }

  /** With one row missing, at rest and COMPLETED, no token was dropped. */
  lemma LoneIsNotDropped(limit: int, s: State, q: Uuid, ds: seq<SubDto>, t: Token)
    requires Reachable(limit, s) && CreatedWith(s, q, ds) && !AllTruthy(ds) && |MissingPaths(ds)| <= 1
    requires Stuck.IsCompleted(s.qm.queries, q) && t.queryId == q
    ensures t !in s.pipe.dropped
  {
    ReachableTables(limit, s);
    var u := SomeonePast(limit, s, q);
    PastSaveIsReceived(s, u);
    if t in s.pipe.dropped {
      DroppedIsNotAnswered(s, t);
      TokensOfQuery(limit, s, q, ds);
      OnlyToken(ds, t, u);
    }
  }

  lemma NotOutstanding(limit: int, s: State, ds: seq<SubDto>, k: nat, place: Fates.Place)
    requires Reachable(limit, s) && k < |ds| && Stuck.AtRest(s, TokenOf(ds[k]).queryId)
    ensures !Excused(s, ds, k, Outstanding(place))
  {
    ReachableTables(limit, s);
    RestIsNotOutstanding(s, ds, k, place);
  }

  lemma NotDropped(s: State, ds: seq<SubDto>, k: nat)
    requires k < |ds| && TokenOf(ds[k]) !in s.pipe.dropped
    ensures !Excused(s, ds, k, DroppedOnHit)
  {
  }

  lemma NotDuplicate(s: State, ds: seq<SubDto>, k: nat)
    requires k < |ds| && !TwoRowsMissing(ds)
    ensures !Excused(s, ds, k, LaterDuplicate)
  {
    if !Truthy(ds[k].result) && !FirstMissing(ds, k) {
      MissingFromDuplicate(ds, k);
    }
  }

  lemma LoneIsNotExcused(limit: int, s: State, q: Uuid, ds: seq<SubDto>, k: nat, e: Excuse)
    requires Reachable(limit, s) && CreatedWith(s, q, ds) && !AllTruthy(ds) && !TwoRowsMissing(ds)
    requires Stuck.AtRest(s, q) && Stuck.IsCompleted(s.qm.queries, q) && k < |ds| && ds[k].queryId == q
    ensures !Excused(s, ds, k, e)
  {
    if e.Outstanding? {
      NotOutstanding(limit, s, ds, k, e.place);
    } else if e.DroppedOnHit? {
      OneRowOnePath(ds);
      LoneIsNotDropped(limit, s, q, ds, TokenOf(ds[k]));
      NotDropped(s, ds, k);
    } else {
      NotDuplicate(s, ds, k);
    }
  }

  lemma LoneHasResult(limit: int, s: State, q: Uuid, ds: seq<SubDto>, k: nat)
    requires Reachable(limit, s) && TruthyUpstream(s) && CreatedWith(s, q, ds) && !AllTruthy(ds)
    requires !TwoRowsMissing(ds) && Stuck.AtRest(s, q) && Stuck.IsCompleted(s.qm.queries, q)
    ensures !RowLacks(s.qm, q, k)
  {
    ReachableAnnounced(limit, s, q, ds);
    if k < |ds| {
      RowClassified(limit, s, q, k);
      forall e ensures !Excused(s, ds, k, e) {
        LoneIsNotExcused(limit, s, q, ds, k, e);
      }
    }
  }

  lemma ReachableAnnounced(limit: int, s: State, q: Uuid, ds: seq<SubDto>)
    requires Reachable(limit, s) && CreatedWith(s, q, ds) && !AllTruthy(ds)
    ensures Conserved(s) && Referenced(s) && q in s.qm.queries && Matches(ds, q, s.qm.queries, s.qm.rows)
  {
    ReachableIsSafe(limit, s);
    CreatedIsStored(s, q);
  }

  lemma NoGap(limit: int, d: Discipline, s: State, q: Uuid, ds: seq<SubDto>)
    requires Reachable(limit, s) && CreatedWith(s, q, ds) && !TwoRowsMissing(ds)
    ensures !exists s' :: LeavesGap(limit, d, s, q, s')
  {
    forall s' ensures !LeavesGap(limit, d, s, q, s') {
      if LeavesGap(limit, d, s, q, s') {
        Drain.LeadsStayReachable(limit, d, s, s');
        LeadsKeepCreatedWith(limit, d, s, s', q, ds);
        ReachableTables(limit, s');
        if AllTruthy(ds) {
          NeverStored(limit, s', q, ds);
          UnknownPollsPending(limit, d, s, q, s');
        } else {
          ReachableAnnounced(limit, s', q, ds);
          var k := GapIsRow(limit, d, s, q, s');
          LoneHasResult(limit, s', q, ds, k);
        }
      }
    }
  }

  lemma UnknownPollsPending(limit: int, d: Discipline, s: State, q: Uuid, s': State)
    requires q !in s'.qm.queries
    ensures !LeavesGap(limit, d, s, q, s')
  {
    assert Run(limit, s', []) == Some(s') && !LacksOne(Poll(s'.qm, q));
  }

  // ----- what a finished query polls -----

  /** In order, once all results of a query have been handled, and none of its tokens met a cache hit: the poll
      says COMPLETED and shows every result, but for the later rows of a path that was missing. */
  lemma FinishedPollShowsResults(limit: int, start: int, steps: seq<Step>, q: Uuid)
    requires Run(limit, Init(start), steps).Some? && RunInOrder(limit, Init(start), steps)
    requires TruthyUpstream(Run(limit, Init(start), steps).value)
    requires var s := Run(limit, Init(start), steps).value;
             q in s.audit.created && Stuck.AtRest(s, q) && forall t :: t in s.pipe.dropped ==> t.queryId != q
    ensures var s := Run(limit, Init(start), steps).value;
            var answer, ds := Poll(s.qm, q), s.audit.created[q];
            && answer.id == q && answer.status == COMPLETED && |answer.subqueries| == |ds|
            && forall i :: 0 <= i < |ds| ==>
                 && answer.subqueries[i].id == ds[i].id && answer.subqueries[i].path == ds[i].path
                 && (!Truthy(answer.subqueries[i].result) <==> !Truthy(ds[i].result) && !FirstMissing(ds, i))
  {
    var s := Run(limit, Init(start), steps).value;
    Stuck.CompletesUnlessDropped(limit, start, steps, q);
    RunMatches(limit, start, steps, q);
    var ds := s.audit.created[q];
    forall i | 0 <= i < |ds|
      ensures !Truthy(Poll(s.qm, q).subqueries[i].result) <==> !Truthy(ds[i].result) && !FirstMissing(ds, i)
    {
      RowClassified(limit, s, q, i);
      OnlyDuplicatesExcused(limit, s, q, ds, i);
    }
  }

  lemma RunMatches(limit: int, start: int, steps: seq<Step>, q: Uuid)
    requires Run(limit, Init(start), steps).Some? && q in Run(limit, Init(start), steps).value.audit.created
    ensures var s := Run(limit, Init(start), steps).value;
            Reachable(limit, s) && Matches(s.audit.created[q], q, s.qm.queries, s.qm.rows)
  {
    ReachableIsSafe(limit, Run(limit, Init(start), steps).value);
  }

  lemma OnlyDuplicatesExcused(limit: int, s: State, q: Uuid, ds: seq<SubDto>, i: nat)
    requires Reachable(limit, s) && Stuck.AtRest(s, q) && i < |ds| && ds[i].queryId == q
    requires forall t :: t in s.pipe.dropped ==> t.queryId != q
    ensures (exists e :: Excused(s, ds, i, e)) <==> !Truthy(ds[i].result) && !FirstMissing(ds, i)
  {
    forall e: Excuse | e != LaterDuplicate ensures !Excused(s, ds, i, e) {
      if e.Outstanding? {
        NotOutstanding(limit, s, ds, i, e.place);
      } else {
        NotDropped(s, ds, i);
      }
    }
    assert Excused(s, ds, i, LaterDuplicate) <==> !Truthy(ds[i].result) && !FirstMissing(ds, i);
  }

  // ----- two rows missing: one of them can stay without a result -----

  /** A query that has been completed in order is left at rest and COMPLETED. */
  lemma CompletedComesToRest(limit: int, s: State, q: Uuid, ds: seq<SubDto>, s1: State) returns (s': State)
    requires limit >= 1 && Reachable(limit, s) && CreatedWith(s, q, ds) && !AllTruthy(ds) && Keeps(IN_ORDER, s, q)
    requires Leads(limit, IN_ORDER, s, s1) && TruthyUpstream(s1) && Stuck.IsCompleted(s1.qm.queries, q)
    ensures Leads(limit, IN_ORDER, s1, s') && Leads(limit, IN_ORDER, s, s') && TruthyUpstream(s')
    ensures Reachable(limit, s') && Stuck.AtRest(s', q) && Stuck.IsCompleted(s'.qm.queries, q)
  {
    var a :| Run(limit, s, a) == Some(s1) && RunObeys(limit, IN_ORDER, s, a);
    RunKeeps(limit, IN_ORDER, s, a, q, ds);
    Drain.LeadsStayReachable(limit, IN_ORDER, s, s1);
    RunKeepsCreatedWith(limit, s, a, q, ds);
    s' := Drain.CanDrain(limit, UP, s1);
    FetchedTruthfully(s1, s');
    var b :| Run(limit, s1, b) == Some(s') && RunObeys(limit, IN_ORDER, s1, b);
    RunKeeps(limit, IN_ORDER, s1, b, q, ds);
    LeadsOn(limit, IN_ORDER, s, s1, s');
    Drain.LeadsStayReachable(limit, IN_ORDER, s, s');
  }

  /** The later row of a missing path never gets a result. */
  lemma DuplicateLacks(limit: int, s: State, q: Uuid, ds: seq<SubDto>, k: nat)
    requires Reachable(limit, s) && TruthyUpstream(s) && CreatedWith(s, q, ds) && !AllTruthy(ds)
    requires k < |ds| && !Truthy(ds[k].result) && !FirstMissing(ds, k)
    ensures RowLacks(s.qm, q, k)
  {
    RowClassified(limit, s, q, k);
    assert Excused(s, ds, k, LaterDuplicate);
  }

  /** Nor does a row whose token was overtaken, once it is at rest. */
  lemma OvertakenLacks(limit: int, s: State, steps: seq<Step>, q: Uuid, ds: seq<SubDto>, k: nat)
    requires Reachable(limit, s) && Run(limit, s, steps).Some? && CreatedWith(s, q, ds) && !AllTruthy(ds)
    requires k < |ds| && FirstMissing(ds, k) && TokenOf(ds[k]).queryId == q && Overtaken(s, [TokenOf(ds[k])])
    requires var s' := Run(limit, s, steps).value; TruthyUpstream(s') && Stuck.AtRest(s', q)
    ensures RowLacks(Run(limit, s, steps).value.qm, q, k)
  {
    var s' := Run(limit, s, steps).value;
    var t := TokenOf(ds[k]);
    RunReaches(limit, s, steps);
    RunKeepsCreatedWith(limit, s, steps, q, ds);
    NeverAnswered(limit, s, [t], steps, t);
    RestedUnanswered(limit, s', q, ds, k);
    RowClassified(limit, s', q, k);
    assert Excused(s', ds, k, DroppedOnHit);
  }

  lemma RestedUnanswered(limit: int, s: State, q: Uuid, ds: seq<SubDto>, k: nat)
    requires Reachable(limit, s) && CreatedWith(s, q, ds) && !AllTruthy(ds) && k < |ds| && FirstMissing(ds, k)
    requires TokenOf(ds[k]).queryId == q && Stuck.AtRest(s, q)
    requires TokenOf(ds[k]) !in multiset(ReceivedTokens(s.pipe.received))
    ensures TokenOf(ds[k]) in s.pipe.dropped
  {
    ReachableIsSafe(limit, s);
    MissingIsEmitted(s.audit.created, s.pipe.emitted, q, k);
    if m :| m in s.qm.done && m.token == TokenOf(ds[k]) {
      assert m in multiset(s.pipe.received);
      Fates.TokenWasReceived(s, m);
    }
  }

  /** In order, the query is completed by the last of its results. */
  lemma CanBeCompleted(limit: int, s: State, q: Uuid, keys: seq<SubKey>, ts: seq<Token>) returns (s': State)
    requires Launched(limit, s, q, keys, ts) && ts != []
    ensures Leads(limit, IN_ORDER, s, s') && Stuck.IsCompleted(s'.qm.queries, q)
    ensures TruthyUpstream(s) ==> TruthyUpstream(s')
  {
    var z := ts[|ts| - 1];
    var s1 := FetchAndWrite(limit, s, q, keys, ts);
    assert z in ts;
    var s2 := LastIsWritten(limit, IN_ORDER, s1, keys, z);
    LeadsOn(limit, IN_ORDER, s, s1, s2);
    Completes(Answer(UP, z), keys, s2.cache.docs);
    s' := HandleResult(limit, IN_ORDER, s2, Answer(UP, z), q, keys);
    LeadsOn(limit, IN_ORDER, s, s2, s');
  }

  /** Two rows for one missing path. */
  lemma DuplicateLeavesGap(limit: int, s: State, q: Uuid, keys: seq<SubKey>, url: Option<string>, k: nat)
      returns (s': State)
    requires limit >= 1 && Reachable(limit, s) && TruthyUpstream(s) && CanCreateStart(s, q, keys)
             && q !in s.qm.creators
    requires var ds := AnswersNow(q, keys, s.cache.docs);
             k < |ds| && !Truthy(ds[k].result) && !FirstMissing(ds, k)
    ensures LeavesGap(limit, IN_ORDER, Created(s, q, keys, url), q, s')
  {
    var ds := AnswersNow(q, keys, s.cache.docs);
    var s1 := Created(s, q, keys, url);
    PlanHasPath(ds, ds[k].path);
    CreatedLeads(limit, s, q, keys, url);
    CreatedKeeps(limit, IN_ORDER, s, q, keys, url);
    var s2 := StoredIsLaunched(limit, s, q, keys, url);
    var s3 := CanBeCompleted(limit, s2, q, keys, Plan(ds));
    LeadsOn(limit, IN_ORDER, s1, s2, s3);
    s' := CompletedComesToRest(limit, s1, q, ds, s3);
    LeadsKeepCreatedWith(limit, IN_ORDER, s1, s', q, ds);
    DuplicateLacks(limit, s', q, ds, k);
    GapStays(limit, IN_ORDER, s1, q, s', k);
  }

  // ----- two different paths missing: a rival fetches one of them -----

  /** The rivals and the query's first token are fetched and written; the other tokens still wait. */
  lemma RivalsAndFirst(limit: int, s: State, q: Uuid, keys: seq<SubKey>, rivals: seq<Token>, plan: seq<Token>)
      returns (s': State)
    requires Rivalled(limit, s, rivals, plan) && Ordering(plan, q, keys, s.cache.docs) && |plan| >= 2
    requires Collection(s.cache.docs)
    ensures Leads(limit, IN_ORDER, s, s') && s'.qm == s.qm.(inbox := s'.qm.inbox) && Collection(s'.cache.docs)
    ensures Answer(UP, plan[0]) in s'.qm.inbox && Answer(UP, plan[0]) in s'.cache.done
    ensures forall i :: 0 <= i < |keys| ==> Cached(s'.cache.docs, keys[i].path)
    ensures Overtaken(s', [plan[1]]) && (TruthyUpstream(s) ==> TruthyUpstream(s'))
  {
    var s1 := FetchToFirst(limit, s, rivals, plan);
    var ts, k := rivals + plan, |rivals| + 1;
    s' := WritePrefix(limit, s1, ts, k);
    LeadsOn(limit, IN_ORDER, s, s1, s');
    RivalsCacheAll(q, keys, rivals, plan, k, s.cache.docs, s'.cache);
    assert ts[|rivals|] == plan[0];
    SecondIsCached(q, keys, plan, s.cache.docs, s'.cache.docs);
  }

  lemma SecondIsCached(q: Uuid, keys: seq<SubKey>, plan: seq<Token>, docs: seq<Doc>, docs': seq<Doc>)
    requires Ordering(plan, q, keys, docs) && |plan| >= 2 && Collection(docs)
    requires forall i :: 0 <= i < |keys| ==> Cached(docs', keys[i].path)
    ensures Cached(docs', plan[1].path)
  {
    OrderedTokens(plan, q, keys, docs);
    assert plan[1] in plan;
  }

  lemma FetchToFirst(limit: int, s: State, rivals: seq<Token>, plan: seq<Token>) returns (s': State)
    requires Rivalled(limit, s, rivals, plan) && |plan| >= 2
    ensures Leads(limit, IN_ORDER, s, s') && s'.qm == s.qm.(inbox := s'.qm.inbox) && s'.cache.docs == s.cache.docs
    ensures forall j :: 0 <= j < |rivals| + 1 ==> Answer(UP, (rivals + plan)[j]) in s'.cache.inbox
    ensures Answer(UP, plan[0]) in s'.qm.inbox && plan[1] in s'.pipe.scheduleInbox
    ensures TruthyUpstream(s) ==> TruthyUpstream(s')
  {
    var ts, k := rivals + plan, |rivals| + 1;
    FetchAll(limit, UP, s, ts, k);
    s' :| FetchedSome(limit, UP, s, s', ts, k);
    FetchedTruthfully(s, s');
    assert ts[|rivals|] == plan[0] && ts[k] == plan[1];
  }

  /** The first token completes the query, the second is overtaken. */
  lemma FirstCompletes(limit: int, s: State, q: Uuid, keys: seq<SubKey>, rivals: seq<Token>, plan: seq<Token>)
      returns (s': State)
    requires Rivalled(limit, s, rivals, plan) && Ordering(plan, q, keys, s.cache.docs) && |plan| >= 2
    requires Collection(s.cache.docs) && Holds(s.qm, q, keys) && NobodyFor(s.qm.handlers, q)
    ensures Leads(limit, IN_ORDER, s, s') && Stuck.IsCompleted(s'.qm.queries, q) && Overtaken(s', [plan[1]])
    ensures TruthyUpstream(s) ==> TruthyUpstream(s')
  {
    var s1 := RivalsAndFirst(limit, s, q, keys, rivals, plan);
    AnswersAreResults(s, q, keys, plan);
    assert plan[0] in plan;
    Completes(Answer(UP, plan[0]), keys, s1.cache.docs);
    s' := HandleResult(limit, IN_ORDER, s1, Answer(UP, plan[0]), q, keys);
    LeadsOn(limit, IN_ORDER, s, s1, s');
  }

  lemma DifferentLeaveGap(limit: int, s: State, q: Uuid, keys: seq<SubKey>, url: Option<string>) returns (s': State)
    requires limit >= 1 && Reachable(limit, s) && TruthyUpstream(s) && CanCreateStart(s, q, keys)
             && q !in s.qm.creators
    requires |MissingPaths(AnswersNow(q, keys, s.cache.docs))| >= 2
    ensures LeavesGap(limit, IN_ORDER, Created(s, q, keys, url), q, s')
  {
    var ds := AnswersNow(q, keys, s.cache.docs);
    var plan := Plan(ds);
    var s1 := Created(s, q, keys, url);
    TwoMissing(ds);
    PlanCovers(ds);
    CreatedLeads(limit, s, q, keys, url);
    CreatedKeeps(limit, IN_ORDER, s, q, keys, url);
    var s2 := FirstCompletesNew(limit, s, q, keys, url);
    s' := CompletedComesToRest(limit, s1, q, ds, s2);
    LeadsKeepCreatedWith(limit, IN_ORDER, s1, s', q, ds);
    var k := SecondLacks(limit, s1, q, keys, s.cache.docs, s2, s');
    GapStays(limit, IN_ORDER, s1, q, s', k);
  }

  lemma FirstCompletesNew(limit: int, s: State, q: Uuid, keys: seq<SubKey>, url: Option<string>) returns (s': State)
    requires limit >= 1 && Reachable(limit, s) && TruthyUpstream(s) && CanCreateStart(s, q, keys)
             && q !in s.qm.creators
    requires !AllTruthy(AnswersNow(q, keys, s.cache.docs)) && |Plan(AnswersNow(q, keys, s.cache.docs))| >= 2
    ensures Leads(limit, IN_ORDER, Created(s, q, keys, url), s') && TruthyUpstream(s')
    ensures Stuck.IsCompleted(s'.qm.queries, q) && Overtaken(s', [Plan(AnswersNow(q, keys, s.cache.docs))[1]])
  {
    var s1 := Created(s, q, keys, url);
    PlanIsOrdering(q, keys, s.cache.docs);
    ReachableCache(limit, s);
    NothingPostedYet(limit, s, q);
    StoredFacts(s, q, keys, url);
    CreatedLeads(limit, s, q, keys, url);
    var s2, rivals := RivalWaits(limit, s1, q, keys);
    s' := FirstCompletes(limit, s2, q, keys, rivals, Plan(AnswersNow(q, keys, s.cache.docs)));
    LeadsOn(limit, IN_ORDER, s1, s2, s');
  }

  lemma SecondLacks(limit: int, s: State, q: Uuid, keys: seq<SubKey>, docs: seq<Doc>, s1: State, s': State)
      returns (k: nat)
    requires Reachable(limit, s) && Leads(limit, IN_ORDER, s, s1) && Leads(limit, IN_ORDER, s1, s')
    requires var ds := AnswersNow(q, keys, docs);
             CreatedWith(s, q, ds) && !AllTruthy(ds) && |Plan(ds)| >= 2 && Overtaken(s1, [Plan(ds)[1]])
    requires TruthyUpstream(s') && Stuck.AtRest(s', q)
    ensures RowLacks(s'.qm, q, k)
  {
    var ds := AnswersNow(q, keys, docs);
    PlanIsMissing(ds, Plan(ds)[1]);
    k :| k < |ds| && Plan(ds)[1] == TokenOf(ds[k]) && FirstMissing(ds, k);
    var steps :| Run(limit, s1, steps) == Some(s') && RunObeys(limit, IN_ORDER, s1, steps);
    Drain.LeadsStayReachable(limit, IN_ORDER, s, s1);
    LeadsKeepCreatedWith(limit, IN_ORDER, s, s1, q, ds);
    OvertakenLacks(limit, s1, steps, q, ds, k);
  }

  // ----- the result -----

  lemma GapRelaxes(limit: int, d: Discipline, s: State, q: Uuid, s': State)
    requires LeavesGap(limit, IN_ORDER, s, q, s')
    ensures LeavesGap(limit, d, s, q, s')
  {
    Relax(limit, IN_ORDER, d, s, s');
  }

  lemma TwoRowsLeaveGap(limit: int, s: State, q: Uuid, keys: seq<SubKey>, url: Option<string>) returns (s': State)
    requires limit >= 1 && Reachable(limit, s) && TruthyUpstream(s) && CanCreateStart(s, q, keys)
             && q !in s.qm.creators
    requires TwoRowsMissing(AnswersNow(q, keys, s.cache.docs))
    ensures LeavesGap(limit, IN_ORDER, Created(s, q, keys, url), q, s')
  {
    var ds := AnswersNow(q, keys, s.cache.docs);
    var i, j :| 0 <= i < j < |ds| && !Truthy(ds[i].result) && !Truthy(ds[j].result);
    if ds[i].path == ds[j].path {
      s' := DuplicateLeavesGap(limit, s, q, keys, url, j);
    } else {
      assert MissDifferent(ds, i, j);
      TwoMissing(ds);
      s' := DifferentLeaveGap(limit, s, q, keys, url);
    }
  }

  /** Under every discipline, with truthy answers: a new query can come to rest COMPLETED with a stored row
      that has no result, and keeps it so, if and only if two of its rows miss a result when it is created. */
  lemma GapIffTwoRowsMissing(limit: int, d: Discipline, s: State, q: Uuid, keys: seq<SubKey>, url: Option<string>)
    requires limit >= 1 && Reachable(limit, s) && TruthyUpstream(s) && CanCreateStart(s, q, keys)
             && q !in s.qm.creators
    ensures (exists s' :: LeavesGap(limit, d, Created(s, q, keys, url), q, s'))
            <==> TwoRowsMissing(AnswersNow(q, keys, s.cache.docs))
  {
    var s1 := Created(s, q, keys, url);
    var ds := AnswersNow(q, keys, s.cache.docs);
    if TwoRowsMissing(ds) {
      var s' := TwoRowsLeaveGap(limit, s, q, keys, url);
      GapRelaxes(limit, d, s1, q, s');
    } else {
      CreatedLeads(limit, s, q, keys, url);
      NoGap(limit, d, s1, q, ds);
    }
  }
}
