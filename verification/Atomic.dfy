/** Whole handlers, run without interruption: what each comes to, and that it is a run of the protocol's
    smaller steps. */
module Atomic {
  import opened Domain
  import opened RateLimiter
  import opened Cache
  import opened Planner
  import opened Protocol

  // ----- runs, end to end -----

  lemma {:induction false} RunConcat(limit: int, s: State, a: seq<Step>, b: seq<Step>)
    requires Run(limit, s, a).Some?
    ensures Run(limit, s, a + b) == Run(limit, Run(limit, s, a).value, b)
  {
    if b == [] {
      assert a + b == a;
    } else {
      var n := |b| - 1;
      RunConcat(limit, s, a, b[..n]);
      assert (a + b)[..|a + b| - 1] == a + b[..n];
    }
  }

  lemma RunOne(limit: int, s: State, step: Step)
    requires Enabled(s, step)
    ensures Run(limit, s, [step]) == Some(Next(limit, s, step))
  {
    assert [step][..0] == [];
  }

  lemma RunThen(limit: int, s: State, a: seq<Step>, step: Step)
    requires Run(limit, s, a).Some? && Enabled(Run(limit, s, a).value, step)
    ensures Run(limit, s, a + [step]) == Some(Next(limit, Run(limit, s, a).value, step))
  {
    assert (a + [step])[..|a|] == a;
  }

  // ----- one lookup -----

  /** The lookup of `keys` in a cache that does not change meanwhile. */
  function AnswersNow(q: Uuid, keys: seq<SubKey>, docs: seq<Doc>): (ds: seq<SubDto>)
    ensures |ds| == |keys|
  {
    seq(|keys|, i requires 0 <= i < |keys| => SubDto(keys[i].id, keys[i].path, Read(docs, keys[i].path), q))
  }

  function LatestNow(m: Received, keys: seq<SubKey>, docs: seq<Doc>): (ds: seq<SubDto>)
    ensures |ds| == |keys|
  {
    seq(|keys|, i requires 0 <= i < |keys| =>
      if keys[i].id == m.token.id then SubDto(m.token.id, m.token.path, m.result, m.token.queryId)
      else SubDto(keys[i].id, keys[i].path, Read(docs, keys[i].path), m.token.queryId))
  }

  function SeenUpTo(keys: seq<SubKey>, docs: seq<Doc>, k: nat): (seen: seq<Option<Json>>)
    ensures |seen| == |keys|
  {
    seq(|keys|, i requires 0 <= i < |keys| => if i < k then Some(Read(docs, keys[i].path)) else None)
  }

  lemma SeenAll(q: Uuid, keys: seq<SubKey>, docs: seq<Doc>)
    ensures AllRead(SeenUpTo(keys, docs, |keys|))
    ensures Answers(q, keys, SeenUpTo(keys, docs, |keys|)) == AnswersNow(q, keys, docs)
  {
  }

  // ----- creation -----

  function CreateReads(q: Uuid, n: nat): seq<Step> {
    seq(n, k requires 0 <= k < n => Creating(SCreateRead(q, k)))
  }

  function WithCreator(s: State, q: Uuid, c: Creator): State {
    s.(qm := s.qm.(creators := s.qm.creators[q := c]))
  }

  lemma OneMoreCreateRead(limit: int, s: State, q: Uuid, c: Creator, k: nat)
    requires 1 <= k <= |c.keys| && c.phase == Looking
    ensures var before := WithCreator(s, q, c.(seen := SeenUpTo(c.keys, s.cache.docs, k - 1)));
            && Enabled(before, Creating(SCreateRead(q, k - 1)))
            && Next(limit, before, Creating(SCreateRead(q, k - 1)))
               == WithCreator(s, q, c.(seen := SeenUpTo(c.keys, s.cache.docs, k)))
  {
    var seen := SeenUpTo(c.keys, s.cache.docs, k - 1);
    var seen' := SeenUpTo(c.keys, s.cache.docs, k);
    assert seen[k - 1 := Some(Read(s.cache.docs, c.keys[k - 1].path))] == seen';
    assert s.qm.creators[q := c.(seen := seen)][q := c.(seen := seen')] == s.qm.creators[q := c.(seen := seen')];
  }

  lemma {:induction false} CreateReadsRun(limit: int, s: State, q: Uuid, keys: seq<SubKey>, url: Option<string>, k: nat)
    requires k <= |keys|
    ensures var c := Creator(keys, url, NoReads(|keys|), Looking);
            Run(limit, WithCreator(s, q, c), CreateReads(q, k))
            == Some(WithCreator(s, q, c.(seen := SeenUpTo(keys, s.cache.docs, k))))
  {
    var c := Creator(keys, url, NoReads(|keys|), Looking);
    if k == 0 {
      assert SeenUpTo(keys, s.cache.docs, 0) == NoReads(|keys|);
    } else {
      CreateReadsRun(limit, s, q, keys, url, k - 1);
      assert CreateReads(q, k) == CreateReads(q, k - 1) + [Creating(SCreateRead(q, k - 1))];
      OneMoreCreateRead(limit, s, q, c, k);
      RunThen(limit, WithCreator(s, q, c), CreateReads(q, k - 1), Creating(SCreateRead(q, k - 1)));
    }
  }

  /** A creation that misses something: the query and its rows are stored, the planned tokens emitted. */
  function Stored(s: State, q: Uuid, keys: seq<SubKey>, url: Option<string>, ds: seq<SubDto>): State {
    s.(pipe := s.pipe.(
         emitted := s.pipe.emitted + multiset(Plan(ds)),
         scheduleInbox := s.pipe.scheduleInbox + multiset(Plan(ds))),
       qm := s.qm.(
         queries := s.qm.queries[q := QueryRow(url, PENDING, Ids(keys))],
         rows := InsertRows(s.qm.rows, ds),
         responses := s.qm.responses + [Response(q, ds, url, PENDING)]),
       audit := s.audit.(created := s.audit.created[q := ds]))
  }

  /** processNewQueryRequestAsync, uninterrupted. */
  function Created(s: State, q: Uuid, keys: seq<SubKey>, url: Option<string>): State {
    var ds := AnswersNow(q, keys, s.cache.docs);
    var s1 := s.(qm := s.qm.(owner := OwnAll(s.qm.owner, q, keys)));
    if AllTruthy(ds) then s1.(qm := s1.qm.(responses := s.qm.responses + [Response("", ds, url, COMPLETED)]))
    else Stored(s1, q, keys, url, ds)
  }

  function LookSteps(q: Uuid, keys: seq<SubKey>, url: Option<string>): seq<Step> {
    [Creating(SCreateStart(q, keys, url))] + CreateReads(q, |keys|)
  }

  function StoreSteps(q: Uuid): seq<Step> {
    [Creating(SCreateDecide(q)), Creating(SCreateSaveRows(q)), Creating(SCreateEmit(q))]
  }

  function CreateSteps(s: State, q: Uuid, keys: seq<SubKey>, url: Option<string>): seq<Step> {
    LookSteps(q, keys, url)
    + if AllTruthy(AnswersNow(q, keys, s.cache.docs)) then [Creating(SCreateDecide(q))] else StoreSteps(q)
  }

  lemma CreateLooks(limit: int, s: State, q: Uuid, keys: seq<SubKey>, url: Option<string>)
    requires CanCreateStart(s, q, keys)
    ensures var s1 := s.(qm := s.qm.(owner := OwnAll(s.qm.owner, q, keys)));
            Run(limit, s, LookSteps(q, keys, url))
            == Some(WithCreator(s1, q, Creator(keys, url, SeenUpTo(keys, s.cache.docs, |keys|), Looking)))
  {
    var start := Creating(SCreateStart(q, keys, url));
    var s1 := s.(qm := s.qm.(owner := OwnAll(s.qm.owner, q, keys)));
    RunOne(limit, s, start);
    RunConcat(limit, s, [start], CreateReads(q, |keys|));
    CreateReadsRun(limit, s1, q, keys, url, |keys|);
  }

  /** The query row, before and after its subqueries are saved. */
  function WithQuery(s: State, q: Uuid, row: QueryRow, rows: map<Uuid, SubRow>): State {
    s.(qm := s.qm.(queries := s.qm.queries[q := row], rows := rows))
  }

  /** The query row is saved, without its subqueries yet. */
  lemma DecideStores(s: State, q: Uuid, c: Creator)
    requires c.phase == Looking && AllRead(c.seen) && !AllTruthy(Answers(q, c.keys, c.seen))
    ensures CanCreateDecide(WithCreator(s, q, c), q)
    ensures var s1 := WithQuery(s, q, QueryRow(c.callbackUrl, PENDING, []), s.qm.rows);
            CreateDecide(WithCreator(s, q, c), q) == WithCreator(s1, q, c.(phase := QuerySaved))
  {
    assert s.qm.creators[q := c][q := c.(phase := QuerySaved)] == s.qm.creators[q := c.(phase := QuerySaved)];
  }

  lemma SaveRowsStores(s: State, q: Uuid, c: Creator)
    requires c.phase == QuerySaved
    ensures var s1 := WithCreator(WithQuery(s, q, QueryRow(c.callbackUrl, PENDING, []), s.qm.rows), q, c);
            var rows := InsertRows(s.qm.rows, Answers(q, c.keys, c.seen));
            && CanCreateSaveRows(s1, q)
            && CreateSaveRows(s1, q)
               == WithCreator(WithQuery(s, q, QueryRow(c.callbackUrl, PENDING, Ids(c.keys)), rows), q,
                              c.(phase := RowsSaved))
  {
    var row := QueryRow(c.callbackUrl, PENDING, Ids(c.keys));
    assert s.qm.queries[q := QueryRow(c.callbackUrl, PENDING, [])][q := row] == s.qm.queries[q := row];
    assert s.qm.creators[q := c][q := c.(phase := RowsSaved)] == s.qm.creators[q := c.(phase := RowsSaved)];
  }

  lemma EmitStores(s: State, q: Uuid, c: Creator)
    requires c.phase == RowsSaved && q !in s.qm.creators
    ensures var ds := Answers(q, c.keys, c.seen);
            var s2 := WithQuery(s, q, QueryRow(c.callbackUrl, PENDING, Ids(c.keys)), InsertRows(s.qm.rows, ds));
            && CanCreateEmit(WithCreator(s2, q, c), q)
            && CreateEmit(WithCreator(s2, q, c), q) == Stored(s, q, c.keys, c.callbackUrl, ds)
  {
    assert s.qm.creators[q := c] - {q} == s.qm.creators;
  }

  lemma CreateStores(limit: int, s: State, q: Uuid, c: Creator)
    requires c.phase == Looking && AllRead(c.seen) && !AllTruthy(Answers(q, c.keys, c.seen))
    requires q !in s.qm.creators
    ensures Run(limit, WithCreator(s, q, c), StoreSteps(q))
            == Some(Stored(s, q, c.keys, c.callbackUrl, Answers(q, c.keys, c.seen)))
  {
    var s0 := WithCreator(s, q, c);
    var a, b, e := Creating(SCreateDecide(q)), Creating(SCreateSaveRows(q)), Creating(SCreateEmit(q));
    DecideStores(s, q, c);
    RunOne(limit, s0, a);
    SaveRowsStores(s, q, c.(phase := QuerySaved));
    RunThen(limit, s0, [a], b);
    assert [a] + [b] == [a, b];
    EmitStores(s, q, c.(phase := RowsSaved));
    RunThen(limit, s0, [a, b], e);
    assert [a, b] + [e] == [a, b, e];
  }

  lemma CreateAnswers(limit: int, s: State, q: Uuid, c: Creator)
    requires c.phase == Looking && AllRead(c.seen) && AllTruthy(Answers(q, c.keys, c.seen))
    requires q !in s.qm.creators
    ensures Run(limit, WithCreator(s, q, c), [Creating(SCreateDecide(q))])
            == Some(s.(qm := s.qm.(
                         responses := s.qm.responses
                                      + [Response("", Answers(q, c.keys, c.seen), c.callbackUrl, COMPLETED)])))
  {
    RunOne(limit, WithCreator(s, q, c), Creating(SCreateDecide(q)));
    assert WithCreator(s, q, c).qm.creators - {q} == s.qm.creators;
  }

  /** An uninterrupted creation is a run. */
  lemma CreateIsRun(limit: int, s: State, q: Uuid, keys: seq<SubKey>, url: Option<string>)
    requires CanCreateStart(s, q, keys) && q !in s.qm.creators
    ensures Run(limit, s, CreateSteps(s, q, keys, url)) == Some(Created(s, q, keys, url))
  {
    var s1 := s.(qm := s.qm.(owner := OwnAll(s.qm.owner, q, keys)));
    var c := Creator(keys, url, SeenUpTo(keys, s.cache.docs, |keys|), Looking);
    CreateLooks(limit, s, q, keys, url);
    SeenAll(q, keys, s.cache.docs);
    if AllTruthy(AnswersNow(q, keys, s.cache.docs)) {
      CreateAnswers(limit, s1, q, c);
      RunConcat(limit, s, LookSteps(q, keys, url), [Creating(SCreateDecide(q))]);
    } else {
      CreateStores(limit, s1, q, c);
      RunConcat(limit, s, LookSteps(q, keys, url), StoreSteps(q));
    }
  }

  // ----- a result arrives -----

  predicate Finds(qm: QuerySide, m: Received) {
    m.token.id in qm.rows && m.token.queryId in qm.queries
  }

  /** handleSubqueryResultAsync, uninterrupted, when it finds its rows. */
  function Handled(s: State, m: Received): State
    requires Finds(s.qm, m)
  {
    var row := s.qm.queries[m.token.queryId];
    var ds := LatestNow(m, Keys(row.subs, s.qm.rows), s.cache.docs);
    var body := Response(m.token.queryId, ds, row.callbackUrl, row.status);
    s.(qm := s.qm.(
         inbox := s.qm.inbox - multiset{m},
         done := s.qm.done + multiset{m},
         queries := SaveStatus(s.qm.queries, m.token.queryId, StatusOf(AllTruthy(ds))),
         rows := SaveResult(s.qm.rows, m.token.id, m.result),
         callbacks := if Notifies(AllTruthy(ds), row.callbackUrl)
                      then s.qm.callbacks + [Callback(row.callbackUrl.value, body, m.token)] else s.qm.callbacks),
       lastRetired := s.lastRetired[m.token.queryId := ByHandler(m.token)])
  }

  function HandlerReads(i: nat, n: nat): seq<Step> {
    seq(n, k requires 0 <= k < n => Handling(SHandlerRead(i, k)))
  }

  function HandleSteps(s: State, m: Received): seq<Step>
    requires Finds(s.qm, m)
  {
    var i := |s.qm.handlers|;
    [Handling(SHandlerStart(m)), Handling(SHandlerLoad(i))]
    + HandlerReads(i, |s.qm.queries[m.token.queryId].subs|)
    + [Handling(SHandlerSaveStatus(i)), Handling(SHandlerSaveResult(i))]
    + [Handling(SHandlerNotify(i))]
  }

  /** The state with one more handler at the end of the list. */
  function WithHandler(s: State, m: Received, p: HandlerPhase): State {
    s.(qm := s.qm.(handlers := s.qm.handlers + [Handler(m, p)]))
  }

  lemma SetLast(s: State, m: Received, p: HandlerPhase, p': HandlerPhase)
    ensures SetPhase(WithHandler(s, m, p), |s.qm.handlers|, p') == WithHandler(s, m, p')
  {
    var hs := s.qm.handlers;
    assert (hs + [Handler(m, p)])[|hs| := Handler(m, p')] == hs + [Handler(m, p')];
  }

  lemma {:induction false} HandlerReadsRun(limit: int, s: State, m: Received, loaded: Status, url: Option<string>,
                                           keys: seq<SubKey>, k: nat)
    requires k <= |keys|
    ensures Run(limit, WithHandler(s, m, Reading(loaded, url, keys, NoReads(|keys|))), HandlerReads(|s.qm.handlers|, k))
            == Some(WithHandler(s, m, Reading(loaded, url, keys, SeenUpTo(keys, s.cache.docs, k))))
  {
    var i := |s.qm.handlers|;
    var s0 := WithHandler(s, m, Reading(loaded, url, keys, NoReads(|keys|)));
    if k == 0 {
      assert SeenUpTo(keys, s.cache.docs, 0) == NoReads(|keys|);
    } else {
      HandlerReadsRun(limit, s, m, loaded, url, keys, k - 1);
      var seen := SeenUpTo(keys, s.cache.docs, k - 1);
      var p := Reading(loaded, url, keys, seen);
      var step := Handling(SHandlerRead(i, k - 1));
      assert HandlerReads(i, k) == HandlerReads(i, k - 1) + [step];
      RunThen(limit, s0, HandlerReads(i, k - 1), step);
      assert seen[k - 1 := Some(Read(s.cache.docs, keys[k - 1].path))] == SeenUpTo(keys, s.cache.docs, k);
      SetLast(s, m, p, Reading(loaded, url, keys, SeenUpTo(keys, s.cache.docs, k)));
    }
  }

  lemma HandleBegins(limit: int, s: State, m: Received)
    requires m in s.qm.inbox && Finds(s.qm, m)
    ensures var s1 := s.(qm := s.qm.(inbox := s.qm.inbox - multiset{m}),
                         lastRetired := s.lastRetired[m.token.queryId := ByHandler(m.token)]);
            var row := s.qm.queries[m.token.queryId];
            Run(limit, s, [Handling(SHandlerStart(m)), Handling(SHandlerLoad(|s.qm.handlers|))])
            == Some(WithHandler(s1, m,
                                Reading(row.status, row.callbackUrl, Keys(row.subs, s.qm.rows), NoReads(|row.subs|))))
  {
    var i := |s.qm.handlers|;
    var s1 := s.(qm := s.qm.(inbox := s.qm.inbox - multiset{m}),
                 lastRetired := s.lastRetired[m.token.queryId := ByHandler(m.token)]);
    var row := s.qm.queries[m.token.queryId];
    RunOne(limit, s, Handling(SHandlerStart(m)));
    assert HandlerStart(s, m) == WithHandler(s1, m, SubFound);
    RunThen(limit, s, [Handling(SHandlerStart(m))], Handling(SHandlerLoad(i)));
    assert [Handling(SHandlerStart(m))] + [Handling(SHandlerLoad(i))]
        == [Handling(SHandlerStart(m)), Handling(SHandlerLoad(i))];
    SetLast(s1, m, SubFound, Reading(row.status, row.callbackUrl, Keys(row.subs, s.qm.rows), NoReads(|row.subs|)));
  }

  lemma LatestIsNow(m: Received, keys: seq<SubKey>, docs: seq<Doc>)
    ensures Latest(m, keys, SeenUpTo(keys, docs, |keys|)) == LatestNow(m, keys, docs)
  {
  }

  lemma HandleSaves(limit: int, s: State, m: Received, loaded: Status, url: Option<string>, keys: seq<SubKey>)
    ensures var i := |s.qm.handlers|;
            var q := m.token.queryId;
            var ds := LatestNow(m, keys, s.cache.docs);
            Run(limit, WithHandler(s, m, Reading(loaded, url, keys, SeenUpTo(keys, s.cache.docs, |keys|))),
                [Handling(SHandlerSaveStatus(i)), Handling(SHandlerSaveResult(i))])
            == Some(WithHandler(s.(qm := s.qm.(
                                     queries := SaveStatus(s.qm.queries, q, StatusOf(AllTruthy(ds))),
                                     rows := SaveResult(s.qm.rows, m.token.id, m.result))),
                                m, ResultSaved(Response(q, ds, url, loaded), AllTruthy(ds))))
  {
    var i := |s.qm.handlers|;
    var q := m.token.queryId;
    var a, b := Handling(SHandlerSaveStatus(i)), Handling(SHandlerSaveResult(i));
    var seen := SeenUpTo(keys, s.cache.docs, |keys|);
    var s0 := WithHandler(s, m, Reading(loaded, url, keys, seen));
    LatestIsNow(m, keys, s.cache.docs);
    var ds := LatestNow(m, keys, s.cache.docs);
    var body := Response(q, ds, url, loaded);
    var sa := s.(qm := s.qm.(queries := SaveStatus(s.qm.queries, q, StatusOf(AllTruthy(ds)))));
    RunOne(limit, s0, a);
    SetLast(s, m, Reading(loaded, url, keys, seen), StatusSaved(body, AllTruthy(ds)));
    assert HandlerSaveStatus(s0, i) == WithHandler(sa, m, StatusSaved(body, AllTruthy(ds)));
    RunThen(limit, s0, [a], b);
    SetLast(sa, m, StatusSaved(body, AllTruthy(ds)), ResultSaved(body, AllTruthy(ds)));
    assert [a] + [b] == [a, b];
  }

  lemma HandleEnds(limit: int, s: State, m: Received, body: Response, completed: bool)
    ensures Run(limit, WithHandler(s, m, ResultSaved(body, completed)), [Handling(SHandlerNotify(|s.qm.handlers|))])
            == Some(s.(qm := s.qm.(
                         done := s.qm.done + multiset{m},
                         callbacks := if Notifies(completed, body.callbackUrl)
                                      then s.qm.callbacks + [Callback(body.callbackUrl.value, body, m.token)]
                                      else s.qm.callbacks)))
  {
    var i := |s.qm.handlers|;
    RunOne(limit, WithHandler(s, m, ResultSaved(body, completed)), Handling(SHandlerNotify(i)));
    assert RemoveAt(s.qm.handlers + [Handler(m, ResultSaved(body, completed))], i) == s.qm.handlers;
  }

  /** An uninterrupted result handler is a run. */
  lemma HandleIsRun(limit: int, s: State, m: Received)
    requires m in s.qm.inbox && Finds(s.qm, m)
    ensures Run(limit, s, HandleSteps(s, m)) == Some(Handled(s, m))
  {
    var i := |s.qm.handlers|;
    var row := s.qm.queries[m.token.queryId];
    var keys := Keys(row.subs, s.qm.rows);
    var s1 := s.(qm := s.qm.(inbox := s.qm.inbox - multiset{m}),
                 lastRetired := s.lastRetired[m.token.queryId := ByHandler(m.token)]);
    var s2 := s1.(qm := s1.qm.(
      queries := SaveStatus(s.qm.queries, m.token.queryId, StatusOf(AllTruthy(LatestNow(m, keys, s.cache.docs)))),
      rows := SaveResult(s.qm.rows, m.token.id, m.result)));
    var ds := LatestNow(m, keys, s.cache.docs);
    var begin := [Handling(SHandlerStart(m)), Handling(SHandlerLoad(i))];
    var looks := HandlerReads(i, |row.subs|);
    var saves := [Handling(SHandlerSaveStatus(i)), Handling(SHandlerSaveResult(i))];
    HandleBegins(limit, s, m);
    HandlerReadsRun(limit, s1, m, row.status, row.callbackUrl, keys, |row.subs|);
    HandleSaves(limit, s1, m, row.status, row.callbackUrl, keys);
    HandleEnds(limit, s2, m, Response(m.token.queryId, ds, row.callbackUrl, row.status), AllTruthy(ds));
    RunConcat(limit, s, begin, looks);
    RunConcat(limit, s, begin + looks, saves);
    RunConcat(limit, s, begin + looks + saves, [Handling(SHandlerNotify(i))]);
  }

  // ----- scheduler, worker, connector, cache manager -----

  /** A check and what follows it: a job due one window from now, or a FETCH. */
  function Judged(limit: int, s: State, t: Token): State {
    if Limited(limit, s.lim) then
      s.(pipe := s.pipe.(delayed := s.pipe.delayed + [Job(t, s.lim.clock + WINDOW)]),
         retries := Deny(s.retries, t, |s.lim.history|, s.lim.clock))
    else
      s.(pipe := s.pipe.(
        fetched := s.pipe.fetched + multiset{t},
        trafficInbox := s.pipe.trafficInbox + multiset{t},
        connectorInbox := s.pipe.connectorInbox + multiset{t}))
  }

  /** scheduleRequestAsync, uninterrupted. */
  function Scheduled(limit: int, s: State, t: Token): State {
    Judged(limit, s.(pipe := s.pipe.(scheduleInbox := s.pipe.scheduleInbox - multiset{t})), t)
  }

  /** `process` of a due job, uninterrupted. */
  function Processed(limit: int, s: State, i: nat): State
    requires i < |s.pipe.delayed|
  {
    Judged(limit, s.(pipe := s.pipe.(delayed := RemoveAt(s.pipe.delayed, i))), s.pipe.delayed[i].token)
  }

  function ActStep(limited: bool, t: Token): Step {
    Moving(if limited then SDefer(t) else SEmitFetch(t))
  }

  lemma JudgeThenAct(limit: int, s: State, t: Token)
    ensures Enabled(Judge(limit, s, t), ActStep(Limited(limit, s.lim), t))
    ensures Next(limit, Judge(limit, s, t), ActStep(Limited(limit, s.lim), t)) == Judged(limit, s, t)
  {
    assert s.pipe.denied + multiset{t} - multiset{t} == s.pipe.denied;
    assert s.pipe.approved + multiset{t} - multiset{t} == s.pipe.approved;
  }

  lemma ScheduleIsRun(limit: int, s: State, t: Token)
    requires CanScheduleCheck(s, t)
    ensures Run(limit, s, [Moving(SScheduleCheck(t)), ActStep(Limited(limit, s.lim), t)])
            == Some(Scheduled(limit, s, t))
  {
    var first := Moving(SScheduleCheck(t));
    RunOne(limit, s, first);
    JudgeThenAct(limit, s.(pipe := s.pipe.(scheduleInbox := s.pipe.scheduleInbox - multiset{t})), t);
    RunThen(limit, s, [first], ActStep(Limited(limit, s.lim), t));
    assert [first] + [ActStep(Limited(limit, s.lim), t)] == [first, ActStep(Limited(limit, s.lim), t)];
  }

  lemma ProcessIsRun(limit: int, s: State, i: nat)
    requires CanJobCheck(s, i)
    ensures Run(limit, s, [Moving(SJobCheck(i)), ActStep(Limited(limit, s.lim), s.pipe.delayed[i].token)])
            == Some(Processed(limit, s, i))
  {
    var t := s.pipe.delayed[i].token;
    var first := Moving(SJobCheck(i));
    RunOne(limit, s, first);
    JudgeThenAct(limit, s.(pipe := s.pipe.(delayed := RemoveAt(s.pipe.delayed, i))), t);
    RunThen(limit, s, [first], ActStep(Limited(limit, s.lim), t));
    assert [first] + [ActStep(Limited(limit, s.lim), t)] == [first, ActStep(Limited(limit, s.lim), t)];
  }

  /** fetchDataAsync, uninterrupted, when upstream would answer `data`. */
  function Connected(s: State, t: Token, data: Json): State {
    var s1 := s.(pipe := s.pipe.(connectorInbox := s.pipe.connectorInbox - multiset{t}));
    if Truthy(Read(s.cache.docs, t.path)) then
      s1.(pipe := s1.pipe.(dropped := s.pipe.dropped + multiset{t}),
          lastRetired := s.lastRetired[t.queryId := ByConnector])
    else
      var m := Received(t, data);
      s1.(pipe := s1.pipe.(received := s.pipe.received + [m]),
          cache := s.cache.(inbox := s.cache.inbox + multiset{m}),
          qm := s.qm.(inbox := s.qm.inbox + multiset{m}),
          audit := s.audit.(calls := s.audit.calls + [Call(t.path, data)]))
  }

  function ConnectSteps(s: State, t: Token, data: Json): seq<Step> {
    if Truthy(Read(s.cache.docs, t.path)) then [Moving(SConnectorRead(t))]
    else [Moving(SConnectorRead(t)), Moving(SConnectorFetch(t, data))]
  }

  lemma ConnectIsRun(limit: int, s: State, t: Token, data: Json)
    requires t in s.pipe.connectorInbox
    ensures Run(limit, s, ConnectSteps(s, t, data)) == Some(Connected(s, t, data))
  {
    RunOne(limit, s, Moving(SConnectorRead(t)));
    if !Truthy(Read(s.cache.docs, t.path)) {
      RunThen(limit, s, [Moving(SConnectorRead(t))], Moving(SConnectorFetch(t, data)));
      assert [Moving(SConnectorRead(t))] + [Moving(SConnectorFetch(t, data))] == ConnectSteps(s, t, data);
      assert s.pipe.fetching + multiset{t} - multiset{t} == s.pipe.fetching;
    }
  }

  /** updateCache, uninterrupted. */
  function Written(s: State, m: Received): State {
    s.(cache := s.cache.(
      docs := Update(s.cache.docs, m.token.path, m.result),
      inbox := s.cache.inbox - multiset{m},
      done := s.cache.done + multiset{m}))
  }

  function WriteSteps(s: State, m: Received): seq<Step> {
    if Truthy(m.result) then [Caching(SCacheFind(m)), Caching(SCacheSave(|s.cache.writes|))]
    else [Caching(SCacheFind(m))]
  }

  lemma WriteIsRun(limit: int, s: State, m: Received)
    requires m in s.cache.inbox
    ensures Run(limit, s, WriteSteps(s, m)) == Some(Written(s, m))
  {
    RunOne(limit, s, Caching(SCacheFind(m)));
    if Truthy(m.result) {
      var w := Write(m, Find(s.cache.docs, m.token.path));
      RunThen(limit, s, [Caching(SCacheFind(m))], Caching(SCacheSave(|s.cache.writes|)));
      assert [Caching(SCacheFind(m))] + [Caching(SCacheSave(|s.cache.writes|))] == WriteSteps(s, m);
      assert RemoveAt(s.cache.writes + [w], |s.cache.writes|) == s.cache.writes;
    }
  }
}
