/** How often a callback can fire: the bound by the missing paths is attained for every query, even in order. */
module Sharpness {
  import opened Domain
  import opened RateLimiter
  import opened Cache
  import opened Planner
  import opened Protocol
  import opened Frames
  import opened References
  import opened Handlers
  import opened Presence
  import opened Announcements
  import opened Invariants
  import opened Callbacks
  import opened Atomic
  import opened Order

  function Answer(up: Path -> Json, t: Token): Received {
    Received(t, up(t.path))
  }

  // ----- one window later, nothing is limited -----

  lemma LaterIsFree(limit: int, l: Limiter)
    requires limit >= 1 && Refines(l)
    ensures !Limited(limit, Advance(l, WINDOW))
  {
    AdvanceRefines(l, WINDOW);
    CountIsLastWindow(Advance(l, WINDOW));
  }

  // ----- every planned token is fetched and answered -----

  /** `k` of the planned tokens are answered, the others wait at the scheduler. */
  ghost predicate FetchedSome(limit: int, up: Path -> Json, s0: State, s: State, plan: seq<Token>, k: nat) {
    && k <= |plan| && Leads(limit, IN_ORDER, s0, s)
    && s.lim == s0.lim && s.cache == s0.cache.(inbox := s.cache.inbox) && s.qm == s0.qm.(inbox := s.qm.inbox)
    && AnsweredBy(up, s0, s)
    && (forall j :: k <= j < |plan| ==> plan[j] in s.pipe.scheduleInbox)
    && (forall j :: 0 <= j < k ==> Answer(up, plan[j]) in s.cache.inbox && Answer(up, plan[j]) in s.qm.inbox)
  }

  lemma OthersStay(inbox: multiset<Token>, plan: seq<Token>, k: nat)
    requires Distinct(plan) && k < |plan| && forall j :: k <= j < |plan| ==> plan[j] in inbox
    ensures forall j :: k + 1 <= j < |plan| ==> plan[j] in inbox - multiset{plan[k]}
  {
    forall j | k + 1 <= j < |plan| ensures plan[j] in inbox - multiset{plan[k]} {
      assert plan[j] != plan[k];
    }
  }

  lemma OneMoreAnswered(up: Path -> Json, inbox: multiset<Received>, plan: seq<Token>, k: nat)
    requires k < |plan| && forall j :: 0 <= j < k ==> Answer(up, plan[j]) in inbox
    ensures forall j :: 0 <= j < k + 1 ==> Answer(up, plan[j]) in inbox + multiset{Answer(up, plan[k])}
  {
  }

  lemma FetchOne(limit: int, up: Path -> Json, s0: State, s: State, plan: seq<Token>, k: nat)
    requires FetchedSome(limit, up, s0, s, plan, k) && k < |plan| && Distinct(plan)
    requires !Limited(limit, s0.lim) && !Truthy(Read(s0.cache.docs, plan[k].path))
    ensures FetchedSome(limit, up, s0, Delivered(s, plan[k], up(plan[k].path)), plan, k + 1)
  {
    DeliveredLeads(limit, IN_ORDER, s, plan[k], up(plan[k].path));
    LeadsOn(limit, IN_ORDER, s0, s, Delivered(s, plan[k], up(plan[k].path)));
    OthersStay(s.pipe.scheduleInbox, plan, k);
    OneMoreAnswered(up, s.cache.inbox, plan, k);
    OneMoreAnswered(up, s.qm.inbox, plan, k);
  }

  ghost predicate FetchedUpTo(limit: int, up: Path -> Json, s0: State, plan: seq<Token>, k: nat) {
    exists s :: FetchedSome(limit, up, s0, s, plan, k)
  }

  /** All planned tokens wait at the scheduler, and none of their paths is cached. */
  ghost predicate AllWaiting(s: State, plan: seq<Token>) {
    forall j :: 0 <= j < |plan| ==> plan[j] in s.pipe.scheduleInbox && !Truthy(Read(s.cache.docs, plan[j].path))
  }

  lemma FetchNone(limit: int, up: Path -> Json, s0: State, plan: seq<Token>)
    requires AllWaiting(s0, plan)
    ensures FetchedUpTo(limit, up, s0, plan, 0)
  {
    LeadsNowhere(limit, IN_ORDER, s0);
    assert FetchedSome(limit, up, s0, s0, plan, 0);
  }

  lemma FetchNext(limit: int, up: Path -> Json, s0: State, plan: seq<Token>, k: nat)
    requires FetchedUpTo(limit, up, s0, plan, k) && k < |plan| && Distinct(plan)
    requires !Limited(limit, s0.lim) && AllWaiting(s0, plan)
    ensures FetchedUpTo(limit, up, s0, plan, k + 1)
  {
    var s :| FetchedSome(limit, up, s0, s, plan, k);
    FetchOne(limit, up, s0, s, plan, k);
  }

  lemma {:induction false} FetchAll(limit: int, up: Path -> Json, s0: State, plan: seq<Token>, k: nat)
    requires k <= |plan| && Distinct(plan) && !Limited(limit, s0.lim) && AllWaiting(s0, plan)
    ensures FetchedUpTo(limit, up, s0, plan, k)
  {
    if k == 0 {
      FetchNone(limit, up, s0, plan);
    } else {
      FetchAll(limit, up, s0, plan, k - 1);
      FetchNext(limit, up, s0, plan, k - 1);
    }
  }

  // ----- then every answer is written to the cache -----

  ghost predicate WrittenSome(limit: int, up: Path -> Json, s0: State, s: State, plan: seq<Token>, k: nat) {
    && k <= |plan| && Leads(limit, IN_ORDER, s0, s)
    && s == s0.(cache := s.cache) && Collection(s.cache.docs) && Grows(s0.cache.docs, s.cache.docs)
    && Pending(up, s.cache.inbox, plan, k) && Done(up, s.cache, plan, k)
    && s0.cache.done <= s.cache.done && AddsOnly(s0.cache.docs, s.cache.docs, plan[..k])
  }

  /** No path is cached that was not, but those of `ts`. */
  ghost predicate AddsOnly(docs: seq<Doc>, docs': seq<Doc>, ts: seq<Token>) {
    forall p :: Cached(docs', p) ==> Cached(docs, p) || HasPath(ts, p)
  }

  lemma UpdateAddsOnly(docs: seq<Doc>, path: Path, value: Json, p: Path)
    requires Cached(Update(docs, path, value), p)
    ensures Cached(docs, p) || p == path
  {
    var docs' := Update(docs, path, value);
    var i :| 0 <= i < |docs'| && docs'[i].path == p;
    if p != path {
      assert docs[i] == docs'[i];
    }
  }

  lemma OneMoreAdded(up: Path -> Json, docs: seq<Doc>, docs': seq<Doc>, plan: seq<Token>, k: nat)
    requires k < |plan| && AddsOnly(docs, docs', plan[..k])
    ensures AddsOnly(docs, Update(docs', plan[k].path, up(plan[k].path)), plan[..k + 1])
  {
    forall p | Cached(Update(docs', plan[k].path, up(plan[k].path)), p)
      ensures Cached(docs, p) || HasPath(plan[..k + 1], p)
    {
      UpdateAddsOnly(docs', plan[k].path, up(plan[k].path), p);
      if p == plan[k].path {
        assert plan[..k + 1][k].path == p;
      } else if HasPath(plan[..k], p) {
        var i :| 0 <= i < k && plan[..k][i].path == p;
        assert plan[..k + 1][i].path == p;
      }
    }
  }

  ghost predicate Pending(up: Path -> Json, inbox: multiset<Received>, plan: seq<Token>, k: nat) {
    forall j :: k <= j < |plan| ==> Answer(up, plan[j]) in inbox
  }

  ghost predicate Done(up: Path -> Json, c: CacheSide, plan: seq<Token>, k: nat)
    requires k <= |plan|
  {
    forall j :: 0 <= j < k ==> Answer(up, plan[j]) in c.done && Cached(c.docs, plan[j].path)
  }

  lemma OneMoreDone(up: Path -> Json, c: CacheSide, plan: seq<Token>, k: nat, c': CacheSide)
    requires k < |plan| && Done(up, c, plan, k) && Grows(c.docs, c'.docs)
    requires c'.done == c.done + multiset{Answer(up, plan[k])} && Cached(c'.docs, plan[k].path)
    ensures Done(up, c', plan, k + 1)
  {
    forall j | 0 <= j < k + 1 ensures Answer(up, plan[j]) in c'.done && Cached(c'.docs, plan[j].path) {
      if j < k {
        assert Answer(up, plan[j]) in c.done && Cached(c.docs, plan[j].path);
      }
    }
  }

  lemma UpdateCaches(docs: seq<Doc>, path: Path, value: Json)
    requires Collection(docs) && Truthy(value)
    ensures Collection(Update(docs, path, value)) && Grows(docs, Update(docs, path, value))
            && Cached(Update(docs, path, value), path)
  {
    SaveRefinesUpdate(docs, Find(docs, path), path, value);
    SaveKeepsPresence(docs, Find(docs, path), path, value);
  }

  lemma OtherAnswersStay(up: Path -> Json, inbox: multiset<Received>, plan: seq<Token>, k: nat)
    requires Distinct(plan) && k < |plan| && Pending(up, inbox, plan, k)
    ensures Pending(up, inbox - multiset{Answer(up, plan[k])}, plan, k + 1)
  {
    forall j | k + 1 <= j < |plan| ensures Answer(up, plan[j]) in inbox - multiset{Answer(up, plan[k])} {
      assert plan[j] != plan[k];
    }
  }

  lemma WriteOne(limit: int, up: Path -> Json, s0: State, s: State, plan: seq<Token>, k: nat)
    requires Truthful(up) && WrittenSome(limit, up, s0, s, plan, k) && k < |plan| && Distinct(plan)
    ensures WrittenSome(limit, up, s0, Written(s, Answer(up, plan[k])), plan, k + 1)
  {
    var m := Answer(up, plan[k]);
    WriteLeads(limit, IN_ORDER, s, m);
    LeadsOn(limit, IN_ORDER, s0, s, Written(s, m));
    UpdateCaches(s.cache.docs, plan[k].path, up(plan[k].path));
    OneMoreDone(up, s.cache, plan, k, Written(s, m).cache);
    OneMoreAdded(up, s0.cache.docs, s.cache.docs, plan, k);
    OtherAnswersStay(up, s.cache.inbox, plan, k);
  }

  ghost predicate WrittenUpTo(limit: int, up: Path -> Json, s0: State, plan: seq<Token>, k: nat) {
    exists s :: WrittenSome(limit, up, s0, s, plan, k)
  }

  lemma WriteNone(limit: int, up: Path -> Json, s0: State, plan: seq<Token>)
    requires Collection(s0.cache.docs) && forall j :: 0 <= j < |plan| ==> Answer(up, plan[j]) in s0.cache.inbox
    ensures WrittenUpTo(limit, up, s0, plan, 0)
  {
    LeadsNowhere(limit, IN_ORDER, s0);
    assert WrittenSome(limit, up, s0, s0, plan, 0);
  }

  lemma WriteNext(limit: int, up: Path -> Json, s0: State, plan: seq<Token>, k: nat)
    requires Truthful(up) && WrittenUpTo(limit, up, s0, plan, k) && k < |plan| && Distinct(plan)
    ensures WrittenUpTo(limit, up, s0, plan, k + 1)
  {
    var s :| WrittenSome(limit, up, s0, s, plan, k);
    WriteOne(limit, up, s0, s, plan, k);
  }

  lemma {:induction false} WriteAll(limit: int, up: Path -> Json, s0: State, plan: seq<Token>, k: nat)
    requires Truthful(up) && k <= |plan| && Distinct(plan) && Collection(s0.cache.docs)
    requires forall j :: 0 <= j < |plan| ==> Answer(up, plan[j]) in s0.cache.inbox
    ensures WrittenUpTo(limit, up, s0, plan, k)
  {
    if k == 0 {
      WriteNone(limit, up, s0, plan);
    } else {
      WriteAll(limit, up, s0, plan, k - 1);
      WriteNext(limit, up, s0, plan, k - 1);
    }
  }

  // ----- and then every answer is handled -----

  /** The query as it is stored, with all its paths cached and nobody working for it. */
  ghost predicate Ready(qm: QuerySide, docs: seq<Doc>, q: Uuid, keys: seq<SubKey>, url: string) {
    && url != "" && q in qm.queries && qm.queries[q].subs == Ids(keys) && qm.queries[q].callbackUrl == Some(url)
    && (forall i :: 0 <= i < |keys| ==> keys[i].id in qm.rows && qm.rows[keys[i].id].path == keys[i].path)
    && (forall i :: 0 <= i < |keys| ==> Cached(docs, keys[i].path))
    && Collection(docs)
    && (forall i :: 0 <= i < |qm.handlers| ==> qm.handlers[i].msg.token.queryId != q)
  }

  ghost predicate HandledSome(limit: int, up: Path -> Json, s0: State, s: State, q: Uuid, keys: seq<SubKey>,
                              url: string, plan: seq<Token>, k: nat) {
    && k <= |plan| && Leads(limit, IN_ORDER, s0, s)
    && s.cache == s0.cache && s.audit == s0.audit && s.qm.rows.Keys == s0.qm.rows.Keys
    && Ready(s.qm, s.cache.docs, q, keys, url)
    && (forall j :: k <= j < |plan| ==> Answer(up, plan[j]) in s.qm.inbox)
    && |TriggersFor(s.qm.callbacks, q)| == |TriggersFor(s0.qm.callbacks, q)| + k
  }

  lemma ReadyKeys(qm: QuerySide, docs: seq<Doc>, q: Uuid, keys: seq<SubKey>, url: string)
    requires Ready(qm, docs, q, keys, url)
    ensures Keys(qm.queries[q].subs, qm.rows) == keys
  {
  }

  lemma ReadyCompletes(m: Received, keys: seq<SubKey>, docs: seq<Doc>)
    requires Truthy(m.result) && Collection(docs) && forall i :: 0 <= i < |keys| ==> Cached(docs, keys[i].path)
    ensures AllTruthy(LatestNow(m, keys, docs))
  {
    var ds := LatestNow(m, keys, docs);
    forall i | 0 <= i < |ds| ensures Truthy(ds[i].result) {
      ReadRefinesLookup(docs, keys[i].path);
    }
  }

  lemma OneMoreTrigger(callbacks: seq<Callback>, c: Callback, q: Uuid)
    requires c.body.id == q
    ensures TriggersFor(callbacks + [c], q) == TriggersFor(callbacks, q) + [c.trigger]
  {
    assert (callbacks + [c])[..|callbacks|] == callbacks;
  }

  lemma HandledStaysReady(s: State, m: Received, q: Uuid, keys: seq<SubKey>, url: string)
    requires Ready(s.qm, s.cache.docs, q, keys, url) && Finds(s.qm, m)
    ensures Ready(Handled(s, m).qm, s.cache.docs, q, keys, url)
  {
  }

  lemma HandledPosts(s: State, m: Received, q: Uuid, keys: seq<SubKey>, url: string)
    requires Ready(s.qm, s.cache.docs, q, keys, url) && Finds(s.qm, m) && m.token.queryId == q && Truthy(m.result)
    ensures |TriggersFor(Handled(s, m).qm.callbacks, q)| == |TriggersFor(s.qm.callbacks, q)| + 1
  {
    var row := s.qm.queries[q];
    ReadyKeys(s.qm, s.cache.docs, q, keys, url);
    ReadyCompletes(m, keys, s.cache.docs);
    var ds := LatestNow(m, keys, s.cache.docs);
    OneMoreTrigger(s.qm.callbacks, Callback(url, Response(q, ds, row.callbackUrl, row.status), m.token), q);
  }

  /** The tokens of the plan name stored rows, under the query's id. */
  ghost predicate PlanNamed(plan: seq<Token>, q: Uuid, rows: map<Uuid, SubRow>) {
    forall j :: 0 <= j < |plan| ==> plan[j].queryId == q && plan[j].id in rows
  }

  ghost predicate AllWritten(up: Path -> Json, s: State, plan: seq<Token>) {
    forall j :: 0 <= j < |plan| ==> Answer(up, plan[j]) in s.qm.inbox && Answer(up, plan[j]) in s.cache.done
  }

  ghost predicate HandledUpTo(limit: int, up: Path -> Json, s0: State, q: Uuid, keys: seq<SubKey>, url: string,
                              plan: seq<Token>, k: nat) {
    exists s :: HandledSome(limit, up, s0, s, q, keys, url, plan, k)
  }

  /** Every answer to the query is written, and none of them handled yet. */
  ghost predicate Handleable(up: Path -> Json, s: State, q: Uuid, keys: seq<SubKey>, url: string, plan: seq<Token>) {
    && Distinct(plan) && PlanNamed(plan, q, s.qm.rows) && AllWritten(up, s, plan)
    && Ready(s.qm, s.cache.docs, q, keys, url)
  }

  lemma HandleNone(limit: int, up: Path -> Json, s0: State, q: Uuid, keys: seq<SubKey>, url: string, plan: seq<Token>)
    requires Handleable(up, s0, q, keys, url, plan)
    ensures HandledUpTo(limit, up, s0, q, keys, url, plan, 0)
  {
    LeadsNowhere(limit, IN_ORDER, s0);
    assert HandledSome(limit, up, s0, s0, q, keys, url, plan, 0);
  }

  lemma HandleOne(limit: int, up: Path -> Json, s0: State, s: State, q: Uuid, keys: seq<SubKey>, url: string,
                  plan: seq<Token>, k: nat)
    requires Truthful(up) && Handleable(up, s0, q, keys, url, plan)
    requires 1 <= k <= |plan| && HandledSome(limit, up, s0, s, q, keys, url, plan, k - 1)
    ensures HandledSome(limit, up, s0, Handled(s, Answer(up, plan[k - 1])), q, keys, url, plan, k)
  {
    var m := Answer(up, plan[k - 1]);
    HandleLeads(limit, IN_ORDER, s, m);
    LeadsOn(limit, IN_ORDER, s0, s, Handled(s, m));
    HandledStaysReady(s, m, q, keys, url);
    HandledPosts(s, m, q, keys, url);
  }

  lemma HandleNext(limit: int, up: Path -> Json, s0: State, q: Uuid, keys: seq<SubKey>, url: string,
                   plan: seq<Token>, k: nat)
    requires Truthful(up) && Handleable(up, s0, q, keys, url, plan)
    requires 1 <= k <= |plan| && HandledUpTo(limit, up, s0, q, keys, url, plan, k - 1)
    ensures HandledUpTo(limit, up, s0, q, keys, url, plan, k)
  {
    var s :| HandledSome(limit, up, s0, s, q, keys, url, plan, k - 1);
    HandleOne(limit, up, s0, s, q, keys, url, plan, k);
  }

  lemma {:induction false} HandleAll(limit: int, up: Path -> Json, s0: State, q: Uuid, keys: seq<SubKey>, url: string,
                                     plan: seq<Token>, k: nat)
    requires Truthful(up) && Handleable(up, s0, q, keys, url, plan) && k <= |plan|
    ensures HandledUpTo(limit, up, s0, q, keys, url, plan, k)
  {
    if k == 0 {
      HandleNone(limit, up, s0, q, keys, url, plan);
    } else {
      HandleAll(limit, up, s0, q, keys, url, plan, k - 1);
      HandleNext(limit, up, s0, q, keys, url, plan, k);
    }
  }

  // ----- the query, from its creation on -----

  lemma PlanIsOfQuery(q: Uuid, keys: seq<SubKey>, docs: seq<Doc>)
    ensures Distinct(Plan(AnswersNow(q, keys, docs)))
    ensures forall t :: t in Plan(AnswersNow(q, keys, docs)) ==>
              t.queryId == q && !Truthy(Read(docs, t.path)) && exists i :: 0 <= i < |keys| && keys[i].id == t.id
  {
    var ds := AnswersNow(q, keys, docs);
    PlanDistinct(ds);
    forall t | t in Plan(ds)
      ensures t.queryId == q && !Truthy(Read(docs, t.path)) && exists i :: 0 <= i < |keys| && keys[i].id == t.id
    {
      PlanIsMissing(ds, t);
      var i :| 0 <= i < |ds| && t == TokenOf(ds[i]) && FirstMissing(ds, i);
      assert keys[i].id == t.id;
    }
  }

  lemma PlanIsNamed(q: Uuid, keys: seq<SubKey>, docs: seq<Doc>, rows: map<Uuid, SubRow>)
    requires forall i :: 0 <= i < |keys| ==> keys[i].id in rows
    ensures PlanNamed(Plan(AnswersNow(q, keys, docs)), q, rows)
  {
    PlanIsOfQuery(q, keys, docs);
  }

  /** A path of the query was cached when it was created, or is planned. */
  lemma CachedOrPlanned(q: Uuid, keys: seq<SubKey>, docs: seq<Doc>, docs': seq<Doc>, i: nat)
    requires i < |keys| && Collection(docs) && Grows(docs, docs')
    requires forall j :: 0 <= j < |Plan(AnswersNow(q, keys, docs))| ==>
               Cached(docs', Plan(AnswersNow(q, keys, docs))[j].path)
    ensures Cached(docs', keys[i].path)
  {
    var ds := AnswersNow(q, keys, docs);
    if Truthy(ds[i].result) {
      ReadMeansPresent(docs, keys[i].path);
    } else {
      assert ds[i].path == keys[i].path;
      PlanHasPath(ds, keys[i].path);
    }
  }

  /** What a creation that stores its query leaves behind. */
  lemma StoredFacts(s: State, q: Uuid, keys: seq<SubKey>, url: Option<string>)
    requires CanCreateStart(s, q, keys) && !AllTruthy(AnswersNow(q, keys, s.cache.docs))
    ensures var s1 := Created(s, q, keys, url);
            && q in s1.qm.queries && s1.qm.queries[q] == QueryRow(url, PENDING, Ids(keys))
            && (forall i :: 0 <= i < |keys| ==> keys[i].id in s1.qm.rows && s1.qm.rows[keys[i].id].path == keys[i].path)
            && (forall t :: t in Plan(AnswersNow(q, keys, s.cache.docs)) ==> t in s1.pipe.scheduleInbox)
  {
    var ds := AnswersNow(q, keys, s.cache.docs);
    assert forall i :: 0 <= i < |ds| ==> ds[i].id == keys[i].id;
    InsertRowsEffect(s.qm.rows, ds);
    forall t | t in Plan(ds) ensures t in Created(s, q, keys, url).pipe.scheduleInbox {
      assert t in multiset(Plan(ds));
    }
  }

  /** Nothing was posted for a query that has not begun, and nobody works for it. */
  lemma NothingPostedYet(limit: int, s: State, q: Uuid)
    requires Reachable(limit, s) && q !in s.qm.owner
    ensures TriggersFor(s.qm.callbacks, q) == []
    ensures forall i :: 0 <= i < |s.qm.handlers| ==> s.qm.handlers[i].msg.token.queryId != q
  {
    ReachableTables(limit, s);
    forall i | 0 <= i < |s.qm.handlers| ensures s.qm.handlers[i].msg.token.queryId != q {
      HandlerNames(s, i);
    }
    forall i | 0 <= i < |s.qm.callbacks| ensures s.qm.callbacks[i].body.id != q {
      assert CallbackFits(s.qm.callbacks[i], s.qm.queries, s.qm.rows);
    }
    NoTriggers(s.qm.callbacks, q);
  }

  lemma {:induction false} NoTriggers(callbacks: seq<Callback>, q: Uuid)
    requires forall i :: 0 <= i < |callbacks| ==> callbacks[i].body.id != q
    ensures TriggersFor(callbacks, q) == []
  {
    if callbacks != [] {
      NoTriggers(callbacks[..|callbacks| - 1], q);
    }
  }

  lemma ReachableCache(limit: int, s: State)
    requires Reachable(limit, s)
    ensures Refines(s.lim) && Collection(s.cache.docs)
  {
    ReachableIsSafe(limit, s);
  }

  /** From a state in which the query is stored and nothing is limited, to the last of its callbacks. */
  lemma PostAll(limit: int, up: Path -> Json, s0: State, q: Uuid, keys: seq<SubKey>, url: string, docs: seq<Doc>)
      returns (s: State)
    requires Truthful(up)
    requires !Limited(limit, s0.lim) && s0.cache.docs == docs && Collection(docs)
    requires url != "" && q in s0.qm.queries && s0.qm.queries[q] == QueryRow(Some(url), PENDING, Ids(keys))
    requires forall i :: 0 <= i < |keys| ==> keys[i].id in s0.qm.rows && s0.qm.rows[keys[i].id].path == keys[i].path
    requires forall i :: 0 <= i < |s0.qm.handlers| ==> s0.qm.handlers[i].msg.token.queryId != q
    requires forall t :: t in Plan(AnswersNow(q, keys, docs)) ==> t in s0.pipe.scheduleInbox
    ensures Leads(limit, IN_ORDER, s0, s) && AnsweredBy(up, s0, s)
    ensures |TriggersFor(s.qm.callbacks, q)| == |TriggersFor(s0.qm.callbacks, q)| + |Plan(AnswersNow(q, keys, docs))|
  {
    var plan := Plan(AnswersNow(q, keys, docs));
    PlanIsOfQuery(q, keys, docs);
    PlanIsNamed(q, keys, docs, s0.qm.rows);
    FetchAll(limit, up, s0, plan, |plan|);
    var s1 :| FetchedSome(limit, up, s0, s1, plan, |plan|);
    WriteAll(limit, up, s1, plan, |plan|);
    var s2 :| WrittenSome(limit, up, s1, s2, plan, |plan|);
    forall i | 0 <= i < |keys| ensures Cached(s2.cache.docs, keys[i].path) {
      CachedOrPlanned(q, keys, docs, s2.cache.docs, i);
    }
    HandleAll(limit, up, s2, q, keys, url, plan, |plan|);
    s :| HandledSome(limit, up, s2, s, q, keys, url, plan, |plan|);
    LeadsOn(limit, IN_ORDER, s0, s1, s2);
    LeadsOn(limit, IN_ORDER, s0, s2, s);
  }

  /** The bound on callbacks is attained: whatever else is going on, and whatever upstream answers to each path
      but a falsy value, a new query's callback can fire once per missing path, even in order. */
  lemma CallbacksAttained(limit: int, up: Path -> Json, s: State, q: Uuid, keys: seq<SubKey>, url: string)
      returns (s': State)
    requires limit >= 1 && Reachable(limit, s) && CanCreateStart(s, q, keys) && q !in s.qm.creators && url != ""
    requires forall p :: up(p) !in {Null, Bool(false), Num(0), Str("")}
    ensures Leads(limit, IN_ORDER, Created(s, q, keys, Some(url)), s') && AnsweredBy(up, s, s')
    ensures |TriggersFor(s'.qm.callbacks, q)| == |MissingPaths(AnswersNow(q, keys, s.cache.docs))|
  {
    var ds := AnswersNow(q, keys, s.cache.docs);
    var s1 := Created(s, q, keys, Some(url));
    NeverFalsy(up);
    NothingPostedYet(limit, s, q);
    PlanCovers(ds);
    if AllTruthy(ds) {
      s' := s1;
      LeadsNowhere(limit, IN_ORDER, s1);
      assert MissingPaths(ds) == {};
    } else {
      ReachableCache(limit, s);
      StoredFacts(s, q, keys, Some(url));
      LaterIsFree(limit, s.lim);
      StepLeads(limit, IN_ORDER, s1, Tick(WINDOW));
      var s2 := Next(limit, s1, Tick(WINDOW));
      s' := PostAll(limit, up, s2, q, keys, url, s.cache.docs);
      LeadsOn(limit, IN_ORDER, s1, s2, s');
    }
  }

  // ----- when more than one callback is possible -----

  /** What a query was created with never changes, nor whether it was stored at all. */
  ghost predicate CreatedWith(s: State, q: Uuid, ds: seq<SubDto>) {
    && q in s.qm.owner && q !in s.qm.creators
    && (if AllTruthy(ds) then q !in s.audit.created else q in s.audit.created && s.audit.created[q] == ds)
  }

  lemma CreateKeepsCreatedWith(s: State, c: CreateStep, q: Uuid, ds: seq<SubDto>)
    requires CanCreate(s, c) && CreatedWith(s, q, ds)
    ensures CreatedWith(AfterCreate(s, c), q, ds)
  {
    match c {
      case SCreateStart(p, keys, url) => assert AfterCreate(s, c) == CreateStart(s, p, keys, url);
      case SCreateRead(p, k) => assert AfterCreate(s, c) == CreateRead(s, p, k);
      case SCreateDecide(p) => assert AfterCreate(s, c) == CreateDecide(s, p);
      case SCreateSaveRows(p) => assert AfterCreate(s, c) == CreateSaveRows(s, p);
      case SCreateEmit(p) => assert AfterCreate(s, c) == CreateEmit(s, p);
    }
  }

  lemma StepKeepsCreatedWith(limit: int, s: State, step: Step, q: Uuid, ds: seq<SubDto>)
    requires Enabled(s, step) && CreatedWith(s, q, ds)
    ensures CreatedWith(Next(limit, s, step), q, ds)
  {
    match step {
      case Tick(_) =>
      case Creating(c) => CreateKeepsCreatedWith(s, c, q, ds);
      case Moving(m) => MoveLeavesTables(limit, s, m); MoveEmitsNothing(limit, s, m);
      case Caching(w) => WriteFrame(s, w);
      case Handling(h) => HandleFrame(s, h);
    }
  }

  lemma {:induction false} RunKeepsCreatedWith(limit: int, s: State, steps: seq<Step>, q: Uuid, ds: seq<SubDto>)
    requires CreatedWith(s, q, ds) && Run(limit, s, steps).Some?
    ensures CreatedWith(Run(limit, s, steps).value, q, ds)
  {
    if steps != [] {
      var before := steps[..|steps| - 1];
      RunKeepsCreatedWith(limit, s, before, q, ds);
      StepKeepsCreatedWith(limit, Run(limit, s, before).value, steps[|steps| - 1], q, ds);
    }
  }

  lemma CreatedStartsWith(limit: int, s: State, q: Uuid, keys: seq<SubKey>, url: Option<string>)
    requires Reachable(limit, s) && CanCreateStart(s, q, keys) && q !in s.qm.creators
    ensures CreatedWith(Created(s, q, keys, url), q, AnswersNow(q, keys, s.cache.docs))
  {
    ReachableOwners(limit, s);
    StartsWith(s, q, keys, url);
  }

  lemma StartsWith(s: State, q: Uuid, keys: seq<SubKey>, url: Option<string>)
    requires q !in s.audit.created && q !in s.qm.creators
    ensures CreatedWith(Created(s, q, keys, url), q, AnswersNow(q, keys, s.cache.docs))
  {
  }

  lemma CreatedAreOwned(s: State)
    requires Referenced(s) && AnnouncedInv(s)
    ensures forall q :: q in s.audit.created ==> q in s.qm.owner
  {
    forall q | q in s.audit.created ensures q in s.qm.owner {
      CreatedIsStored(s, q);
    }
  }

  lemma ReachableOwners(limit: int, s: State)
    requires Reachable(limit, s)
    ensures forall q :: q in s.audit.created ==> q in s.qm.owner
  {
    ReachableIsSafe(limit, s);
    CreatedAreOwned(s);
  }

  lemma RunReaches(limit: int, s: State, steps: seq<Step>)
    requires Reachable(limit, s) && Run(limit, s, steps).Some?
    ensures Reachable(limit, Run(limit, s, steps).value)
  {
    var start, before :| Run(limit, Init(start), before) == Some(s);
    RunConcat(limit, Init(start), before, steps);
  }

  /** In no continuation are there more callbacks than paths that were missing at the creation. */
  lemma CallbacksWithin(limit: int, s: State, q: Uuid, keys: seq<SubKey>, url: Option<string>, steps: seq<Step>)
    requires Reachable(limit, s) && CanCreateStart(s, q, keys) && q !in s.qm.creators
    requires Run(limit, Created(s, q, keys, url), steps).Some?
    ensures |TriggersFor(Run(limit, Created(s, q, keys, url), steps).value.qm.callbacks, q)|
            <= |MissingPaths(AnswersNow(q, keys, s.cache.docs))|
  {
    var s1 := Created(s, q, keys, url);
    CreatedStartsWith(limit, s, q, keys, url);
    RunKeepsCreatedWith(limit, s1, steps, q, AnswersNow(q, keys, s.cache.docs));
    CreateIsRun(limit, s, q, keys, url);
    RunReaches(limit, s, CreateSteps(s, q, keys, url));
    RunReaches(limit, s1, steps);
    CallbacksBounded(limit, Run(limit, s1, steps).value, q);
  }

  /** The callback of a new query can fire more than once if and only if two different paths are missing. */
  lemma MoreThanOnceIffTwoMissing(limit: int, s: State, q: Uuid, keys: seq<SubKey>, url: string)
    requires limit >= 1 && Reachable(limit, s) && CanCreateStart(s, q, keys) && q !in s.qm.creators && url != ""
    ensures var s1 := Created(s, q, keys, Some(url));
            (exists steps ::
                Run(limit, s1, steps).Some? && |TriggersFor(Run(limit, s1, steps).value.qm.callbacks, q)| >= 2)
            <==> |MissingPaths(AnswersNow(q, keys, s.cache.docs))| >= 2
  {
    var s1 := Created(s, q, keys, Some(url));
    if steps :| Run(limit, s1, steps).Some? && |TriggersFor(Run(limit, s1, steps).value.qm.callbacks, q)| >= 2 {
      CallbacksWithin(limit, s, q, keys, Some(url), steps);
    }
    if |MissingPaths(AnswersNow(q, keys, s.cache.docs))| >= 2 {
      var s' := CallbacksAttained(limit, UP, s, q, keys, url);
      var steps :| Run(limit, s1, steps) == Some(s') && RunObeys(limit, IN_ORDER, s1, steps);
    }
  }
}
