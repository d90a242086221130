/** Runs that show what the services do not promise, and that the hypotheses of the other results are needed. */
module Witnesses {
  import opened Domain
  import opened RateLimiter
  import opened Cache
  import opened Planner
  import opened Protocol
  import opened Atomic
  import opened Order
  import opened Stuck
  import opened Rest

  const V: Json := Composite("{}")

  // ----- a query for two paths, up to the upstream answers -----

  lemma PlanOfTwo(x: SubDto, y: SubDto)
    requires !Truthy(x.result) && !Truthy(y.result)
    ensures Plan([x, y]) == if x.path == y.path then [TokenOf(x)] else [TokenOf(x), TokenOf(y)]
  {
    assert [x, y][..1] == [x] && [x][..0] == [];
    assert Plan([x]) == [TokenOf(x)];
    assert HasPath([TokenOf(x)], x.path) by { assert [TokenOf(x)][0].path == x.path; }
  }

  lemma InsertTwo(rows: map<Uuid, SubRow>, x: SubDto, y: SubDto)
    ensures InsertRows(rows, [x, y])
            == rows[x.id := SubRow(x.path, x.result, x.queryId)][y.id := SubRow(y.path, y.result, y.queryId)]
  {
    assert [x, y][..1] == [x] && [x][..0] == [];
    assert InsertRows(rows, [x]) == rows[x.id := SubRow(x.path, x.result, x.queryId)];
  }

  const URL: Option<string> := Some("http://client")

  function AskedKeys(p: Path, r: Path): seq<SubKey> {
    [SubKey("a", p), SubKey("b", r)]
  }

  /** Query "Q" for the paths `p` and `r`, just created in an empty system. */
  function Asked(p: Path, r: Path): State {
    Created(Init(0), "Q", AskedKeys(p, r), URL)
  }

  function AskedPlan(p: Path, r: Path): multiset<Token> {
    if p == r then multiset{Token("a", p, "Q")} else multiset{Token("a", p, "Q"), Token("b", r, "Q")}
  }

  lemma AskedAnswers(p: Path, r: Path)
    ensures var ds := AnswersNow("Q", AskedKeys(p, r), []);
            ds == [SubDto("a", p, Null, "Q"), SubDto("b", r, Null, "Q")] && !AllTruthy(ds)
  {
    var ds := AnswersNow("Q", AskedKeys(p, r), []);
    assert !Truthy(ds[0].result);
  }

  lemma AskedFacts(p: Path, r: Path)
    ensures Fresh(Asked(p, r), p, r)
  {
    var x, y := SubDto("a", p, Null, "Q"), SubDto("b", r, Null, "Q");
    AskedAnswers(p, r);
    PlanOfTwo(x, y);
    InsertTwo(map[], x, y);
    assert Ids(AskedKeys(p, r)) == ["a", "b"];
  }

  /** A state with no more in it than query "Q" for the paths `p` and `r`. */
  ghost predicate Fresh(s: State, p: Path, r: Path) {
    && s.pipe.emitted == s.pipe.scheduleInbox == AskedPlan(p, r)
    && s.pipe.dropped == NO_TOKENS && s.lim == Init(0).lim && s.cache == Init(0).cache
    && s.qm.queries == map["Q" := QueryRow(URL, PENDING, ["a", "b"])]
    && s.qm.rows == map["a" := SubRow(p, Null, "Q"), "b" := SubRow(r, Null, "Q")]
    && s.qm.inbox == NO_RESULTS && s.qm.handlers == [] && s.qm.callbacks == []
    && s.qm.creators == map[] && s.qm.owner.Keys == {"Q", "a", "b"}
    && s.pipe.delayed == [] && s.retries == Retries(map[], 0)
    && s.audit.calls == [] && "Q" in s.audit.created
  }

  lemma Ask(limit: int, d: Discipline, p: Path, r: Path) returns (s: State)
    ensures Leads(limit, d, Init(0), s) && Fresh(s, p, r)
  {
    var keys := AskedKeys(p, r);
    assert keys[0].id == "a" && keys[1].id == "b";
    CreateLeads(limit, d, Init(0), "Q", keys, URL);
    AskedFacts(p, r);
    s := Asked(p, r);
  }

  lemma OneMoreCall(s: State, t: Token)
    requires TruthyUpstream(s)
    ensures TruthyUpstream(Delivered(s, t, V))
  {
  }

  lemma Deliver(limit: int, d: Discipline, s: State, t: Token) returns (s': State)
    requires Leads(limit, d, Init(0), s) && TruthyUpstream(s) && limit >= 1
    requires t in s.pipe.scheduleInbox && s.lim == Init(0).lim && s.cache.docs == []
    ensures Leads(limit, d, Init(0), s') && TruthyUpstream(s') && s' == Delivered(s, t, V)
  {
    DeliveredLeads(limit, d, s, t, V);
    s' := Delivered(s, t, V);
    OneMoreCall(s, t);
    LeadsOn(limit, d, Init(0), s, s');
  }

  lemma Write(limit: int, d: Discipline, s: State, m: Received) returns (s': State)
    requires Leads(limit, d, Init(0), s) && m in s.cache.inbox
    ensures Leads(limit, d, Init(0), s') && s' == Written(s, m)
  {
    s' := Written(s, m);
    WriteLeads(limit, d, s, m);
    LeadsOn(limit, d, Init(0), s, s');
  }

  lemma Handle(limit: int, d: Discipline, s: State, m: Received) returns (s': State)
    requires Leads(limit, d, Init(0), s) && m in s.qm.inbox && Finds(s.qm, m)
    requires Obeys(d, s, Handling(SHandlerStart(m)))
    ensures Leads(limit, d, Init(0), s') && s' == Handled(s, m)
  {
    s' := Handled(s, m);
    HandleLeads(limit, d, s, m);
    LeadsOn(limit, d, Init(0), s, s');
  }

  const MA := Received(Token("a", "p", "Q"), V)
  const MB := Received(Token("b", "r", "Q"), V)

  /** What handling one of the two answers finds out. */
  lemma LatestOfTwo(m: Received, docs: seq<Doc>, rows: map<Uuid, SubRow>)
    requires m == MA || m == MB
    requires rows.Keys == {"a", "b"} && rows["a"].path == "p" && rows["b"].path == "r"
    ensures AllTruthy(LatestNow(m, Keys(["a", "b"], rows), docs))
            <==> Truthy(Read(docs, if m == MA then "r" else "p"))
  {
    var ds := LatestNow(m, Keys(["a", "b"], rows), docs);
    assert ds[0].id == "a" && ds[1].id == "b";
    assert ds == [ds[0], ds[1]];
  }

  const DOC_P := Doc("p", V)
  const DOC_R := Doc("r", V)

  lemma FindInOne(d: Doc, path: Path)
    ensures Find([d], path) == if d.path == path then Some(0) else None
  {
    assert [d][..0] == [];
    assert Find([], path) == None;
  }

  lemma FindInTwo(d: Doc, e: Doc, path: Path)
    ensures Find([d, e], path) == if d.path == path then Some(0) else if e.path == path then Some(1) else None
  {
    assert [d, e][..1] == [d];
    FindInOne(d, path);
  }

  lemma ReadDocs()
    ensures Truthy(Read([DOC_P], "p")) && !Truthy(Read([DOC_P], "r"))
    ensures Truthy(Read([DOC_P, DOC_R], "p")) && Truthy(Read([DOC_P, DOC_R], "r"))
  {
    FindInOne(DOC_P, "p");
    FindInOne(DOC_P, "r");
    FindInTwo(DOC_P, DOC_R, "p");
    FindInTwo(DOC_P, DOC_R, "r");
  }

  lemma WrittenDocs()
    ensures Update([], "p", V) == [DOC_P] && Update([DOC_P], "r", V) == [DOC_P, DOC_R]
    ensures Truthy(Read([DOC_P], "p")) && !Truthy(Read([DOC_P], "r"))
    ensures Truthy(Read([DOC_P, DOC_R], "p")) && Truthy(Read([DOC_P, DOC_R], "r"))
  {
    FindInOne(DOC_P, "r");
    assert [] + [DOC_P] == [DOC_P];
    assert [DOC_P] + [DOC_R] == [DOC_P, DOC_R];
    ReadDocs();
  }

  /** What the query manager holds while "Q" is on its way. */
  ghost predicate Asking(qm: QuerySide, status: Status) {
    && qm.queries == map["Q" := QueryRow(URL, status, ["a", "b"])]
    && qm.rows.Keys == {"a", "b"} && qm.rows["a"].path == "p" && qm.rows["b"].path == "r"
  }

  /** The query for "p" and "r" on its way through the query manager. */
  ghost predicate Stage(limit: int, d: Discipline, s: State, docs: seq<Doc>, status: Status) {
    && Leads(limit, d, Init(0), s) && TruthyUpstream(s)
    && s.cache.docs == docs && Asking(s.qm, status)
  }

  /** Both paths of "Q" were fetched, and neither answer has been taken up yet. */
  lemma DeliveredStage(limit: int, d: Discipline) returns (s: State)
    requires limit >= 1
    ensures Stage(limit, d, s, [], PENDING)
    ensures s.cache.inbox == multiset{MA, MB} && s.qm.inbox == multiset{MA, MB}
    ensures s.qm.callbacks == [] && s.qm.handlers == []
  {
    s := Ask(limit, d, "p", "r");
    s := Deliver(limit, d, s, MA.token);
    s := Deliver(limit, d, s, MB.token);
  }

  lemma WriteStage(limit: int, d: Discipline, s: State, m: Received, docs: seq<Doc>, status: Status)
      returns (s': State)
    requires Stage(limit, d, s, docs, status) && m in s.cache.inbox
    ensures Stage(limit, d, s', Update(docs, m.token.path, m.result), status)
    ensures s'.cache.inbox == s.cache.inbox - multiset{m} && s'.cache.done == s.cache.done + multiset{m}
    ensures s'.qm == s.qm
  {
    s' := Write(limit, d, s, m);
  }

  lemma SavedStatus(status: Status, status': Status)
    ensures SaveStatus(map["Q" := QueryRow(URL, status, ["a", "b"])], "Q", status')
            == map["Q" := QueryRow(URL, status', ["a", "b"])]
  {
  }

  lemma SavedRows(rows: map<Uuid, SubRow>, id: Uuid)
    requires rows.Keys == {"a", "b"} && rows["a"].path == "p" && rows["b"].path == "r"
    ensures var rows' := SaveResult(rows, id, V);
            && rows'.Keys == {"a", "b"} && rows'["a"].path == "p" && rows'["b"].path == "r"
            && Keys(["a", "b"], rows') == Keys(["a", "b"], rows)
  {
  }

  lemma HandledTables(s: State, m: Received, status: Status)
    requires Asking(s.qm, status) && (m == MA || m == MB)
    ensures Asking(Handled(s, m).qm, StatusOf(Truthy(Read(s.cache.docs, if m == MA then "r" else "p"))))
    ensures Keys(["a", "b"], Handled(s, m).qm.rows) == Keys(["a", "b"], s.qm.rows)
  {
    LatestOfTwo(m, s.cache.docs, s.qm.rows);
    SavedStatus(status, StatusOf(Truthy(Read(s.cache.docs, if m == MA then "r" else "p"))));
    SavedRows(s.qm.rows, m.token.id);
  }

  lemma HandledCallbacks(s: State, m: Received, status: Status)
    requires Asking(s.qm, status) && (m == MA || m == MB)
    ensures var completed := Truthy(Read(s.cache.docs, if m == MA then "r" else "p"));
            var callbacks' := Handled(s, m).qm.callbacks;
            && (!completed ==> callbacks' == s.qm.callbacks)
            && (completed ==> |callbacks'| == |s.qm.callbacks| + 1 && s.qm.callbacks <= callbacks'
                              && callbacks'[|s.qm.callbacks|].body.id == "Q"
                              && callbacks'[|s.qm.callbacks|].body.status == status)
  {
    LatestOfTwo(m, s.cache.docs, s.qm.rows);
  }

  lemma HandledOfTwo(s: State, m: Received, status: Status)
    requires Asking(s.qm, status) && (m == MA || m == MB)
    ensures var completed := Truthy(Read(s.cache.docs, if m == MA then "r" else "p"));
            var s' := Handled(s, m);
            && Asking(s'.qm, StatusOf(completed))
            && (!completed ==> s'.qm.callbacks == s.qm.callbacks)
            && (completed ==> |s'.qm.callbacks| == |s.qm.callbacks| + 1 && s.qm.callbacks <= s'.qm.callbacks
                              && s'.qm.callbacks[|s.qm.callbacks|].body.id == "Q"
                              && s'.qm.callbacks[|s.qm.callbacks|].body.status == status)
            && s'.qm.inbox == s.qm.inbox - multiset{m} && s'.cache == s.cache && s'.qm.handlers == s.qm.handlers
            && s'.audit == s.audit
    ensures Keys(["a", "b"], Handled(s, m).qm.rows) == Keys(["a", "b"], s.qm.rows)
  {
    HandledTables(s, m, status);
    HandledCallbacks(s, m, status);
  }

  lemma HandleStage(limit: int, d: Discipline, s: State, m: Received, docs: seq<Doc>, status: Status)
      returns (s': State)
    requires Stage(limit, d, s, docs, status) && m in s.qm.inbox && (m == MA || m == MB)
    requires d.cacheFirst ==> m in s.cache.done
    requires d.oneAtATime ==> s.qm.handlers == []
    ensures var completed := Truthy(Read(docs, if m == MA then "r" else "p"));
            && Stage(limit, d, s', docs, StatusOf(completed))
            && (!completed ==> s'.qm.callbacks == s.qm.callbacks)
            && (completed ==> |s'.qm.callbacks| == |s.qm.callbacks| + 1 && s.qm.callbacks <= s'.qm.callbacks
                              && s'.qm.callbacks[|s.qm.callbacks|].body.id == "Q"
                              && s'.qm.callbacks[|s.qm.callbacks|].body.status == status)
    ensures s'.qm.inbox == s.qm.inbox - multiset{m} && s'.cache == s.cache && s'.qm.handlers == s.qm.handlers
    ensures Keys(["a", "b"], s'.qm.rows) == Keys(["a", "b"], s.qm.rows)
  {
    s' := Handle(limit, d, s, m);
    HandledOfTwo(s, m, status);
  }

  // ----- the query manager's promises that are none -----

  /** In order, the callback fires twice; the first body says PENDING. */
  lemma CallbackFiresTwice(limit: int) returns (s: State)
    requires limit >= 1
    ensures Leads(limit, IN_ORDER, Init(0), s) && TruthyUpstream(s)
    ensures |s.qm.callbacks| == 2 && s.qm.callbacks[0].body.id == "Q" && s.qm.callbacks[1].body.id == "Q"
    ensures s.qm.callbacks[0].body.status == PENDING
  {
    var d := IN_ORDER;
    WrittenDocs();
    s := DeliveredStage(limit, d);
    s := WriteStage(limit, d, s, MA, [], PENDING);
    s := WriteStage(limit, d, s, MB, [DOC_P], PENDING);
    s := HandleStage(limit, d, s, MA, [DOC_P, DOC_R], PENDING);
    s := HandleStage(limit, d, s, MB, [DOC_P, DOC_R], COMPLETED);
  }

  /** One result at a time is not enough: unless the cache manager goes first, a COMPLETED query reverts to
      PENDING. "b" sees "p" cached, then "a" does not see "r" cached. */
  lemma StatusReverts(limit: int) returns (s: State, s': State)
    requires limit >= 1
    ensures Leads(limit, ONE_AT_A_TIME, Init(0), s) && Leads(limit, ONE_AT_A_TIME, s, s') && TruthyUpstream(s)
    ensures "Q" in s.qm.queries && s.qm.queries["Q"].status == COMPLETED
    ensures "Q" in s'.qm.queries && s'.qm.queries["Q"].status == PENDING
  {
    var d := ONE_AT_A_TIME;
    WrittenDocs();
    s := DeliveredStage(limit, d);
    s := WriteStage(limit, d, s, MA, [], PENDING);
    s := HandleStage(limit, d, s, MB, [DOC_P], PENDING);
    s' := Handled(s, MA);
    HandleLeads(limit, d, s, MA);
    HandledOfTwo(s, MA, COMPLETED);
  }

  /** The first handler of "Q" has read the cache, and has not decided yet. */
  lemma BeginStage(limit: int, d: Discipline, s: State, docs: seq<Doc>, status: Status) returns (s': State)
    requires Stage(limit, d, s, docs, status) && MA in s.qm.inbox && s.qm.handlers == []
    requires d.cacheFirst ==> MA in s.cache.done
    ensures Stage(limit, d, s', docs, status) && s'.cache == s.cache && s'.qm.inbox == s.qm.inbox - multiset{MA}
    ensures var keys := Keys(["a", "b"], s'.qm.rows);
            s'.qm.handlers == [Handler(MA, Reading(status, URL, keys, SeenUpTo(keys, docs, 2)))]
  {
    var keys := Keys(["a", "b"], s.qm.rows);
    var s1 := s.(qm := s.qm.(inbox := s.qm.inbox - multiset{MA}),
                 lastRetired := s.lastRetired["Q" := ByHandler(MA.token)]);
    HandleBegins(limit, s, MA);
    HandlerReadsRun(limit, s1, MA, status, URL, keys, 2);
    s' := WithHandler(s1, MA, Reading(status, URL, keys, SeenUpTo(keys, docs, 2)));
    var begin := [Handling(SHandlerStart(MA)), Handling(SHandlerLoad(0))];
    RunConcat(limit, s, begin, HandlerReads(0, 2));
    BeginObeys(limit, d, s, MA, begin + HandlerReads(0, 2));
    LeadsOn(limit, d, Init(0), s, s');
  }

  lemma DecideLate(limit: int, d: Discipline, s: State) returns (s': State)
    requires Stage(limit, d, s, [DOC_P, DOC_R], COMPLETED)
    requires var keys := Keys(["a", "b"], s.qm.rows);
             s.qm.handlers == [Handler(MA, Reading(PENDING, URL, keys, SeenUpTo(keys, [DOC_P], 2)))]
    ensures Leads(limit, d, s, s') && "Q" in s'.qm.queries && s'.qm.queries["Q"].status == PENDING
  {
    var keys := Keys(["a", "b"], s.qm.rows);
    var step := Handling(SHandlerSaveStatus(0));
    WrittenDocs();
    LatestIsNow(MA, keys, [DOC_P]);
    LatestOfTwo(MA, [DOC_P], s.qm.rows);
    StepLeads(limit, d, s, step);
    s' := Next(limit, s, step);
  }

  /** Nor is it enough that the cache manager goes first, once handlers of one query interleave: "a" reads
      before "r" is cached, "b" completes the query, and then "a" saves what it read. */
  lemma StatusRevertsInterleaved(limit: int) returns (s: State, s': State)
    requires limit >= 1
    ensures Leads(limit, CACHE_FIRST, Init(0), s) && Leads(limit, CACHE_FIRST, s, s') && TruthyUpstream(s)
    ensures "Q" in s.qm.queries && s.qm.queries["Q"].status == COMPLETED
    ensures "Q" in s'.qm.queries && s'.qm.queries["Q"].status == PENDING
  {
    var d := CACHE_FIRST;
    WrittenDocs();
    s := DeliveredStage(limit, d);
    s := WriteStage(limit, d, s, MA, [], PENDING);
    s := BeginStage(limit, d, s, [DOC_P], PENDING);
    s := WriteStage(limit, d, s, MB, [DOC_P], PENDING);
    s := HandleStage(limit, d, s, MB, [DOC_P, DOC_R], PENDING);
    s' := DecideLate(limit, d, s);
  }

  // ----- a query that names a path twice -----

  lemma LatestOfTwins(docs: seq<Doc>, rows: map<Uuid, SubRow>)
    requires rows.Keys == {"a", "b"} && rows["a"].path == "p" && rows["b"].path == "p" && Truthy(Read(docs, "p"))
    ensures AllTruthy(LatestNow(MA, Keys(["a", "b"], rows), docs))
  {
    var ds := LatestNow(MA, Keys(["a", "b"], rows), docs);
    assert ds[0].id == "a" && ds[1].id == "b" && |ds| == 2;
  }

  /** "Q" names "p" twice; its one token has been answered and written, and the answer not handled yet. */
  lemma TwinsWritten(limit: int, d: Discipline) returns (s: State)
    requires limit >= 1
    ensures Leads(limit, d, Init(0), s) && TruthyUpstream(s)
    ensures s.pipe.emitted == multiset{MA.token} && MA in s.qm.inbox && MA in s.cache.done && s.qm.handlers == []
    ensures s.cache.docs == [DOC_P] && "Q" in s.audit.created
    ensures s.qm.queries == map["Q" := QueryRow(URL, PENDING, ["a", "b"])]
    ensures s.qm.rows == map["a" := SubRow("p", Null, "Q"), "b" := SubRow("p", Null, "Q")]
  {
    WrittenDocs();
    s := Ask(limit, d, "p", "p");
    s := Deliver(limit, d, s, MA.token);
    s := Write(limit, d, s, MA);
  }

  lemma TwinsHandled(limit: int) returns (s: State)
    requires limit >= 1
    ensures Leads(limit, IN_ORDER, Init(0), s) && TruthyUpstream(s) && AtRest(s, "Q") && "Q" in s.audit.created
    ensures "Q" in s.qm.queries && s.qm.queries["Q"].status == COMPLETED && "b" in s.qm.queries["Q"].subs
    ensures "b" in s.qm.rows && s.qm.rows["b"].result == Null
  {
    WrittenDocs();
    s := TwinsWritten(limit, IN_ORDER);
    LatestOfTwins(s.cache.docs, s.qm.rows);
    s := Handle(limit, IN_ORDER, s, MA);
    assert MA in s.qm.done;
  }

  /** In order, a COMPLETED query comes to rest with a stored row that has no result, and keeps it so: the
      second row of a path named twice has no token of its own, and only the row a token names is written. */
  lemma CompletedWithoutResult(limit: int) returns (s: State)
    requires limit >= 1
    ensures Leads(limit, IN_ORDER, Init(0), s) && TruthyUpstream(s) && AtRest(s, "Q")
    ensures "Q" in s.qm.queries && s.qm.queries["Q"].status == COMPLETED && "b" in s.qm.queries["Q"].subs
    ensures "b" in s.qm.rows && s.qm.rows["b"].result == Null
    ensures forall more :: Run(limit, s, more).Some? ==>
              Poll(Run(limit, s, more).value.qm, "Q") == Poll(s.qm, "Q")
  {
    s := TwinsHandled(limit);
    LeadsReaches(limit, IN_ORDER, 0, s);
    StaysAtRest(limit, s, "Q");
  }

  lemma StaysAtRest(limit: int, s: State, q: Uuid)
    requires Reachable(limit, s) && q in s.audit.created && AtRest(s, q)
    ensures forall more :: Run(limit, s, more).Some? ==> Poll(Run(limit, s, more).value.qm, q) == Poll(s.qm, q)
  {
    forall more | Run(limit, s, more).Some?
      ensures Poll(Run(limit, s, more).value.qm, q) == Poll(s.qm, q)
    {
      RestIsFinal(limit, s, q, more);
    }
  }

  // ----- a query that is overtaken -----

  const MC := Received(Token("c", "p", "S"), V)

  /** A second query, "S", for the path that "Q" waits for. */
  lemma AskAgain(limit: int, d: Discipline, s: State) returns (s': State)
    requires Leads(limit, d, Init(0), s) && Fresh(s, "p", "p")
    ensures Leads(limit, d, Init(0), s')
    ensures s' == s.(pipe := s'.pipe, qm := s'.qm, audit := s'.audit)
    ensures s'.pipe == s.pipe.(emitted := s.pipe.emitted + multiset{MC.token},
                               scheduleInbox := s.pipe.scheduleInbox + multiset{MC.token})
    ensures s'.qm.handlers == s.qm.handlers && "Q" in s'.qm.queries && s'.qm.queries["Q"] == s.qm.queries["Q"]
    ensures s'.audit.calls == [] && "Q" in s'.audit.created
  {
    var keys := [SubKey("c", "p")];
    var dto := SubDto("c", "p", Null, "S");
    CreateLeads(limit, d, s, "S", keys, None);
    s' := Created(s, "S", keys, None);
    assert AnswersNow("S", keys, []) == [dto];
    assert !AllTruthy([dto]) by { assert !Truthy([dto][0].result); }
    assert [dto][..0] == [];
    assert Plan([dto]) == [MC.token];
    LeadsOn(limit, d, Init(0), s, s');
  }

  /** The connector takes up a token whose path is cached by now. */
  lemma Overtake(limit: int, d: Discipline, s: State, t: Token) returns (s': State)
    requires Leads(limit, d, Init(0), s) && limit >= 1 && s.lim == Init(0).lim
    requires t in s.pipe.scheduleInbox && Truthy(Read(s.cache.docs, t.path))
    ensures Leads(limit, d, Init(0), s')
    ensures s'.qm == s.qm && s'.cache == s.cache && s'.audit == s.audit
    ensures s'.pipe.emitted == s.pipe.emitted && t in s'.pipe.dropped
  {
    ScheduleLeads(limit, d, s, t);
    var s1 := Scheduled(limit, s, t);
    ConnectLeads(limit, d, s1, t, V);
    s' := Connected(s1, t, V);
    LeadsOn(limit, d, Init(0), s, s1);
    LeadsOn(limit, d, Init(0), s1, s');
  }

  /** In order, a query stays PENDING for good although its path is cached: another query's token fetched
      the path first, and the connector emits nothing on a hit. */
  lemma StuckPending(limit: int) returns (s: State)
    requires limit >= 1
    ensures Leads(limit, IN_ORDER, Init(0), s) && TruthyUpstream(s)
    ensures AtRest(s, "Q") && Cached(s.cache.docs, "p") && "Q" in s.qm.queries && s.qm.queries["Q"].status == PENDING
    ensures forall more :: Run(limit, s, more).Some? ==>
              Poll(Run(limit, s, more).value.qm, "Q") == Poll(s.qm, "Q")
    ensures Poll(s.qm, "Q").id == "Q" && Poll(s.qm, "Q").status == PENDING
  {
    var d := IN_ORDER;
    WrittenDocs();
    s := Ask(limit, d, "p", "p");
    s := AskAgain(limit, d, s);
    s := Deliver(limit, d, s, MC.token);
    s := Write(limit, d, s, MC);
    assert s.cache.docs[0].path == "p";
    s := Overtake(limit, d, s, MA.token);
    LeadsReaches(limit, d, 0, s);
    StaysAtRest(limit, s, "Q");
  }

  // ----- the limiter -----

  lemma CountOfTwoUsages(u: Usage, v: Usage, lo: int, hi: int)
    ensures CountIn([u, v], lo, hi) == (if lo < u.at <= hi then 1 else 0) + if lo < v.at <= hi then 1 else 0
  {
    assert [u, v][..1] == [u] && [u][..0] == [];
    assert CountIn([u], lo, hi) == if lo < u.at <= hi then 1 else 0;
  }

  lemma LoggedTwice() returns (l: Limiter)
    ensures Refines(l) && l.clock == WINDOW - 1 && l.history == [Usage("u", 0), Usage("v", WINDOW - 1)]
  {
    var l0 := Limiter(0, NoKey, []);
    LogRefines(l0, "u");
    var l1 := Advance(Log(l0, "u"), WINDOW - 1);
    AdvanceRefines(Log(l0, "u"), WINDOW - 1);
    LogRefines(l1, "v");
    l := Log(l1, "v");
  }

  /** The count is no sliding window at read time: one usage has left the window, and still counts. */
  lemma CountLags() returns (l: Limiter)
    ensures Refines(l) && UsageCount(l) == 2 && CountIn(l.history, l.clock - WINDOW, l.clock) == 1
  {
    var l1 := LoggedTwice();
    l := Advance(l1, 11);
    AdvanceRefines(l1, 11);
    CountIsLastWindow(l);
    CountOfTwoUsages(Usage("u", 0), Usage("v", WINDOW - 1), l.clock - WINDOW, l.clock);
    CountOfTwoUsages(Usage("u", 0), Usage("v", WINDOW - 1), -1, l.clock);
  }

  /** One token, deferred `n` times so far. */
  ghost predicate Requeued(limit: int, s: State, n: nat) {
    && Leads(limit, IN_ORDER, Init(0), s)
    && |s.pipe.emitted| == 1 && s.retries.deferrals == n
    && s.pipe.delayed == [Job(MA.token, s.lim.clock + WINDOW)]
  }

  ghost predicate CanRequeue(limit: int, n: nat) {
    exists s :: Requeued(limit, s, n)
  }

  lemma RequeueFirst(limit: int)
    requires limit <= 0
    ensures CanRequeue(limit, 1)
  {
    var s0 := Ask(limit, IN_ORDER, "p", "p");
    ScheduleLeads(limit, IN_ORDER, s0, MA.token);
    var s := Scheduled(limit, s0, MA.token);
    LeadsOn(limit, IN_ORDER, Init(0), s0, s);
    assert Requeued(limit, s, 1);
  }

  /** What a due job comes to while the limit is not positive. */
  lemma DeniedAgain(limit: int, s: State, n: nat)
    requires limit <= 0 && |s.pipe.emitted| == 1 && s.retries.deferrals == n
    requires s.pipe.delayed == [Job(MA.token, s.lim.clock)]
    ensures var s' := Processed(limit, s, 0);
            && |s'.pipe.emitted| == 1 && s'.retries.deferrals == n + 1
            && s'.pipe.delayed == [Job(MA.token, s'.lim.clock + WINDOW)]
  {
    assert RemoveAt(s.pipe.delayed, 0) == [];
  }

  lemma DeferredOnce(limit: int, s: State, n: nat) returns (s': State)
    requires limit <= 0 && Requeued(limit, s, n)
    ensures Requeued(limit, s', n + 1)
  {
    var s1 := s.(lim := Advance(s.lim, WINDOW));
    StepLeads(limit, IN_ORDER, s, Tick(WINDOW));
    LeadsOn(limit, IN_ORDER, Init(0), s, s1);
    ProcessLeads(limit, IN_ORDER, s1, 0);
    s' := Processed(limit, s1, 0);
    LeadsOn(limit, IN_ORDER, Init(0), s1, s');
    DeniedAgain(limit, s1, n);
  }

  lemma RequeueAgain(limit: int, n: nat)
    requires limit <= 0 && n >= 1 && CanRequeue(limit, n - 1)
    ensures CanRequeue(limit, n)
  {
    var s :| Requeued(limit, s, n - 1);
    var s' := DeferredOnce(limit, s, n - 1);
    assert Requeued(limit, s', n);
  }

  lemma {:induction false} RequeueForever(limit: int, n: nat)
    requires limit <= 0 && n >= 1
    ensures CanRequeue(limit, n)
  {
    if n == 1 {
      RequeueFirst(limit);
    } else {
      RequeueForever(limit, n - 1);
      RequeueAgain(limit, n);
    }
  }

  /** Without a positive limit the requeue loop has no end: one token, deferred as often as one likes. */
  lemma RequeueWithoutEnd(limit: int, n: nat) returns (s: State)
    requires limit <= 0 && n >= 1
    ensures Leads(limit, IN_ORDER, Init(0), s)
    ensures |s.pipe.emitted| == 1 && s.retries.deferrals == n
    ensures s.pipe.delayed == [Job(MA.token, s.lim.clock + WINDOW)]
  {
    RequeueForever(limit, n);
    s :| Requeued(limit, s, n);
  }
}
