/** What a client sees: the answer to a creation, and the poll that follows it. */
module RoundTrip {
  import opened Domain
  import opened Cache
  import opened Protocol
  import opened Frames
  import opened References
  import opened Handlers
  import opened Announcements
  import opened Invariants
  import opened Resubmission

  /** A stored creation answers with the requested paths position by position, distinct ids and PENDING, and
      polling the id it names, before anything else happens, returns the very same answer. */
  lemma PollReturnsCreation(limit: int, s: State, q: Uuid)
    requires Reachable(limit, s) && CanCreateEmit(s, q)
    ensures var c := s.qm.creators[q];
            var s' := CreateEmit(s, q);
            var answer := s'.qm.responses[|s'.qm.responses| - 1];
            && s'.qm.responses == s.qm.responses + [answer]
            && answer.id == q && answer.status == PENDING && answer.callbackUrl == c.callbackUrl
            && |answer.subqueries| == |c.keys|
            && (forall i :: 0 <= i < |c.keys| ==>
                answer.subqueries[i].path == c.keys[i].path && answer.subqueries[i].queryId == q)
            && (forall i, j :: 0 <= i < j < |c.keys| ==> answer.subqueries[i].id != answer.subqueries[j].id)
            && (exists i :: 0 <= i < |c.keys| && !Truthy(answer.subqueries[i].result))
            && Poll(s'.qm, q) == answer
  {
    ReachableTables(limit, s);
    EmitPolls(s, q);
    var c := s.qm.creators[q];
    assert CreatorFits(q, c, s.qm.queries, s.qm.rows);
    assert OwnKeys(s.qm.owner, q, c.keys);
  }

  lemma EmitPolls(s: State, q: Uuid)
    requires Referenced(s) && CanCreateEmit(s, q)
    ensures var c := s.qm.creators[q];
            Poll(CreateEmit(s, q).qm, q) == Response(q, Answers(q, c.keys, c.seen), c.callbackUrl, PENDING)
  {
    var c := s.qm.creators[q];
    var ds := Answers(q, c.keys, c.seen);
    assert CreatorFits(q, c, s.qm.queries, s.qm.rows);
    var polled := Poll(CreateEmit(s, q).qm, q);
    forall i | 0 <= i < |ds| ensures polled.subqueries[i] == ds[i] {
      assert s.qm.rows[ds[i].id] == SubRow(ds[i].path, ds[i].result, ds[i].queryId);
    }
  }

  // ----- any poll -----

  /** In every reachable state a poll shows the stored query: its status, its URL, and for each subquery, in
      order, the id, path and result of its row. An id under which nothing is stored answers NOT_FOUND. */
  lemma PollShowsWhatIsStored(limit: int, s: State, q: Uuid)
    requires Reachable(limit, s)
    ensures q in s.qm.queries ==>
              && Shows(Poll(s.qm, q), q, s.qm.queries[q], s.qm.rows)
              && forall i :: 0 <= i < |s.qm.queries[q].subs| ==> s.qm.queries[q].subs[i] in s.qm.rows
    ensures q !in s.qm.queries ==> Poll(s.qm, q) == Response("NOT_FOUND", [], Some(""), PENDING)
  {
    ReachableTables(limit, s);
  }

  // ----- what was asked for -----

  /** The list names the requested paths under their ids, position by position. */
  ghost predicate ListsKeys(ds: seq<SubDto>, keys: seq<SubKey>) {
    |ds| == |keys| && forall i :: 0 <= i < |keys| ==> ds[i].id == keys[i].id && ds[i].path == keys[i].path
  }

  /** Whatever became of request `q` so far, it is about `keys` and `url`. */
  ghost predicate Requested(s: State, q: Uuid, keys: seq<SubKey>, url: Option<string>) {
    && q in s.qm.owner
    && (q in s.qm.creators ==> s.qm.creators[q].keys == keys && s.qm.creators[q].callbackUrl == url)
    && (q in s.qm.queries ==> s.qm.queries[q].callbackUrl == url)
    && (q in s.audit.created ==> ListsKeys(s.audit.created[q], keys))
  }

  lemma CreateKeepsRequested(s: State, c: CreateStep, q: Uuid, keys: seq<SubKey>, url: Option<string>)
    requires CanCreate(s, c) && Requested(s, q, keys, url)
    ensures Requested(AfterCreate(s, c), q, keys, url)
  {
    match c {
      case SCreateStart(p, ks, u) => assert AfterCreate(s, c) == CreateStart(s, p, ks, u);
      case SCreateRead(p, k) => assert AfterCreate(s, c) == CreateRead(s, p, k);
      case SCreateDecide(p) => assert AfterCreate(s, c) == CreateDecide(s, p);
      case SCreateSaveRows(p) => assert AfterCreate(s, c) == CreateSaveRows(s, p);
      case SCreateEmit(p) => assert AfterCreate(s, c) == CreateEmit(s, p);
    }
  }

  lemma HandleKeepsUrl(s: State, h: HandleStep, q: Uuid)
    requires CanHandle(s, h) && q in AfterHandle(s, h).qm.queries
    ensures q in s.qm.queries && AfterHandle(s, h).qm.queries[q].callbackUrl == s.qm.queries[q].callbackUrl
  {
    HandleAddsNoQuery(s, h);
    HandleIsStable(s, h);
  }

  lemma StepKeepsRequested(limit: int, s: State, step: Step, q: Uuid, keys: seq<SubKey>, url: Option<string>)
    requires Enabled(s, step) && Requested(s, q, keys, url)
    ensures Requested(Next(limit, s, step), q, keys, url)
  {
    match step {
      case Tick(_) =>
      case Creating(c) => CreateKeepsRequested(s, c, q, keys, url);
      case Moving(m) => MoveLeavesTables(limit, s, m); MoveEmitsNothing(limit, s, m);
      case Caching(w) => WriteFrame(s, w);
      case Handling(h) =>
        HandleFrame(s, h);
        if q in AfterHandle(s, h).qm.queries {
          HandleKeepsUrl(s, h, q);
        }
    }
  }

  lemma {:induction false} RunKeepsRequested(limit: int, s: State, steps: seq<Step>, q: Uuid, keys: seq<SubKey>,
                                             url: Option<string>)
    requires Requested(s, q, keys, url) && Run(limit, s, steps).Some?
    ensures Requested(Run(limit, s, steps).value, q, keys, url)
  {
    if steps != [] {
      var before := steps[..|steps| - 1];
      RunKeepsRequested(limit, s, before, q, keys, url);
      StepKeepsRequested(limit, Run(limit, s, before).value, steps[|steps| - 1], q, keys, url);
    }
  }

  lemma StartIsRequested(limit: int, s: State, q: Uuid, keys: seq<SubKey>, url: Option<string>)
    requires Reachable(limit, s) && CanCreateStart(s, q, keys)
    ensures Requested(CreateStart(s, q, keys, url), q, keys, url) && Safe(CreateStart(s, q, keys, url))
  {
    ReachableIsSafe(limit, s);
    UnknownQuery(s, q);
    StepKeepsSafe(limit, s, Creating(SCreateStart(q, keys, url)));
  }

  ghost predicate PostsGoTo(callbacks: seq<Callback>, q: Uuid, url: Option<string>) {
    forall i :: 0 <= i < |callbacks| && callbacks[i].body.id == q ==> url == Some(callbacks[i].url)
  }

  lemma RequestedPosts(s: State, q: Uuid, keys: seq<SubKey>, url: Option<string>)
    requires HandlersInv(s) && Requested(s, q, keys, url)
    ensures PostsGoTo(s.qm.callbacks, q, url)
  {
    forall i | 0 <= i < |s.qm.callbacks| && s.qm.callbacks[i].body.id == q ensures url == Some(s.qm.callbacks[i].url) {
      assert CallbackFits(s.qm.callbacks[i], s.qm.queries, s.qm.rows);
    }
  }

  lemma RequestedPolls(s: State, q: Uuid, keys: seq<SubKey>, url: Option<string>)
    requires AnnouncedInv(s) && Requested(s, q, keys, url) && q in s.audit.created
    ensures ListsKeys(Poll(s.qm, q).subqueries, keys) && Poll(s.qm, q).callbackUrl == url
  {
    assert Matches(s.audit.created[q], q, s.qm.queries, s.qm.rows);
  }

  lemma SafeRequest(limit: int, s: State, steps: seq<Step>)
    requires Safe(s) && Run(limit, s, steps).Some?
    ensures HandlersInv(Run(limit, s, steps).value) && AnnouncedInv(Run(limit, s, steps).value)
  {
    RunKeepsSafe(limit, s, steps);
  }

  /** In every continuation, a stored query polls as it was requested: the requested paths in their order, and
      the requested URL, to which alone its callbacks are posted. */
  lemma PollIsAsRequested(limit: int, s: State, q: Uuid, keys: seq<SubKey>, url: Option<string>, steps: seq<Step>)
    requires Reachable(limit, s) && CanCreateStart(s, q, keys)
    requires Run(limit, CreateStart(s, q, keys, url), steps).Some?
    ensures var s' := Run(limit, CreateStart(s, q, keys, url), steps).value;
            && PostsGoTo(s'.qm.callbacks, q, url)
            && (q in s'.audit.created ==>
                  ListsKeys(Poll(s'.qm, q).subqueries, keys) && Poll(s'.qm, q).callbackUrl == url)
  {
    var s1 := CreateStart(s, q, keys, url);
    var s' := Run(limit, s1, steps).value;
    StartIsRequested(limit, s, q, keys, url);
    RunKeepsRequested(limit, s1, steps, q, keys, url);
    SafeRequest(limit, s1, steps);
    RequestedPosts(s', q, keys, url);
    if q in s'.audit.created {
      RequestedPolls(s', q, keys, url);
    }
  }

  // ----- the blank id -----

  lemma CreateStoresNoBlank(s: State, c: CreateStep)
    requires "" !in s.qm.queries && Owned(s.qm.owner, s.qm.creators, s.qm.queries, s.qm.rows) && CanCreate(s, c)
    ensures "" !in AfterCreate(s, c).qm.queries
  {
    match c {
      case SCreateStart(_, _, _) =>
      case SCreateRead(_, _) =>
      case SCreateDecide(q) => assert OwnKeys(s.qm.owner, q, s.qm.creators[q].keys);
      case SCreateSaveRows(_) =>
      case SCreateEmit(_) =>
    }
  }

  lemma {:induction false} RunStoresNoBlank(limit: int, start: int, steps: seq<Step>)
    requires Run(limit, Init(start), steps).Some?
    ensures "" !in Run(limit, Init(start), steps).value.qm.queries
  {
    if steps != [] {
      var n := |steps| - 1;
      RunStoresNoBlank(limit, start, steps[..n]);
      RunKeepsTables(limit, start, steps[..n]);
      var s := Run(limit, Init(start), steps[..n]).value;
      match steps[n] {
        case Tick(_) =>
        case Creating(c) => CreateStoresNoBlank(s, c);
        case Moving(m) => MoveLeavesTables(limit, s, m);
        case Caching(w) => WriteFrame(s, w);
        case Handling(h) => HandleAddsNoQuery(s, h);
      }
    }
  }

  /** The blank id that an answer from the cache carries is never found: polling it answers NOT_FOUND. */
  lemma BlankIdIsNotFound(limit: int, s: State)
    requires Reachable(limit, s)
    ensures Poll(s.qm, "") == Response("NOT_FOUND", [], Some(""), PENDING)
  {
    var start, steps :| Run(limit, Init(start), steps) == Some(s);
    RunStoresNoBlank(limit, start, steps);
  }

  // ----- every answer to a creation -----

  /** The query was answered from the cache. */
  predicate FromCache(answer: Response) {
    answer.id == "" && answer.status == COMPLETED && AllTruthy(answer.subqueries)
  }

  /** The query was stored, with the very subqueries of the answer, and something is missing. */
  ghost predicate AsStored(answer: Response, created: map<Uuid, seq<SubDto>>, queries: map<Uuid, QueryRow>) {
    && answer.id in created && answer.subqueries == created[answer.id]
    && answer.status == PENDING && !AllTruthy(answer.subqueries)
    && answer.id in queries && answer.callbackUrl == queries[answer.id].callbackUrl
  }

  ghost predicate AnswersFit(responses: seq<Response>, created: map<Uuid, seq<SubDto>>, queries: map<Uuid, QueryRow>) {
    forall i :: 0 <= i < |responses| ==> FromCache(responses[i]) || AsStored(responses[i], created, queries)
  }

  lemma TablesKeepAnswers(responses: seq<Response>, created: map<Uuid, seq<SubDto>>, queries: map<Uuid, QueryRow>,
                          created': map<Uuid, seq<SubDto>>, creators: map<Uuid, Creator>, queries': map<Uuid, QueryRow>)
    requires AnswersFit(responses, created, queries) && QueriesStable(creators, queries, queries')
    requires forall q :: q in created ==> q in created' && created'[q] == created[q]
    ensures AnswersFit(responses, created', queries')
  {
  }

  lemma CreateKeepsCreatedAnswers(s: State, c: CreateStep)
    requires CreatedMatch(s.audit.created, s.qm.creators, s.qm.queries, s.qm.rows) && CanCreate(s, c)
    ensures var created' := AfterCreate(s, c).audit.created;
            forall q :: q in s.audit.created ==> q in created' && created'[q] == s.audit.created[q]
  {
    match c {
      case SCreateStart(q, keys, url) => assert AfterCreate(s, c) == CreateStart(s, q, keys, url);
      case SCreateRead(q, k) => assert AfterCreate(s, c) == CreateRead(s, q, k);
      case SCreateDecide(q) => assert AfterCreate(s, c) == CreateDecide(s, q);
      case SCreateSaveRows(q) => assert AfterCreate(s, c) == CreateSaveRows(s, q);
      case SCreateEmit(q) => assert AfterCreate(s, c) == CreateEmit(s, q);
    }
  }

  /** At most one answer is added, and it fits. */
  lemma CreateAnswersFit(s: State, c: CreateStep)
    requires CreatorsFit(s.qm.creators, s.qm.queries, s.qm.rows) && CanCreate(s, c)
    ensures var s' := AfterCreate(s, c);
            || s'.qm.responses == s.qm.responses
            || (exists answer :: s'.qm.responses == s.qm.responses + [answer]
                                 && (FromCache(answer) || AsStored(answer, s'.audit.created, s'.qm.queries)))
  {
    match c {
      case SCreateStart(q, keys, url) => assert AfterCreate(s, c) == CreateStart(s, q, keys, url);
      case SCreateRead(q, k) => assert AfterCreate(s, c) == CreateRead(s, q, k);
      case SCreateDecide(q) =>
        var x := s.qm.creators[q];
        var answer := Response("", Answers(q, x.keys, x.seen), x.callbackUrl, COMPLETED);
        assert AllTruthy(answer.subqueries) ==>
            CreateDecide(s, q).qm.responses == s.qm.responses + [answer] && FromCache(answer);
      case SCreateSaveRows(q) => assert AfterCreate(s, c) == CreateSaveRows(s, q);
      case SCreateEmit(q) => EmitAnswerFits(s, q);
    }
  }

  lemma EmitAnswerFits(s: State, q: Uuid)
    requires CreatorsFit(s.qm.creators, s.qm.queries, s.qm.rows) && CanCreateEmit(s, q)
    ensures var s' := CreateEmit(s, q);
            exists answer ::
                s'.qm.responses == s.qm.responses + [answer] && AsStored(answer, s'.audit.created, s'.qm.queries)
  {
    var x := s.qm.creators[q];
    assert CreatorFits(q, x, s.qm.queries, s.qm.rows);
    var answer := Response(q, Answers(q, x.keys, x.seen), x.callbackUrl, PENDING);
    assert CreateEmit(s, q).qm.responses == s.qm.responses + [answer];
  }

  lemma OneMoreAnswer(responses: seq<Response>, answer: Response, created: map<Uuid, seq<SubDto>>,
                      queries: map<Uuid, QueryRow>)
    requires AnswersFit(responses, created, queries) && (FromCache(answer) || AsStored(answer, created, queries))
    ensures AnswersFit(responses + [answer], created, queries)
  {
  }

  ghost predicate AnswersHold(s: State) {
    AnswersFit(s.qm.responses, s.audit.created, s.qm.queries)
  }

  lemma CreateKeepsAnswers(s: State, c: CreateStep)
    requires Referenced(s) && AnnouncedInv(s) && CanCreate(s, c) && AnswersHold(s)
    ensures AnswersHold(AfterCreate(s, c))
  {
    var s' := AfterCreate(s, c);
    CreateIsStable(s, c);
    CreateKeepsCreatedAnswers(s, c);
    TablesKeepAnswers(s.qm.responses, s.audit.created, s.qm.queries, s'.audit.created, s.qm.creators, s'.qm.queries);
    CreateAnswersFit(s, c);
    if s'.qm.responses != s.qm.responses {
      var answer :| s'.qm.responses == s.qm.responses + [answer]
                    && (FromCache(answer) || AsStored(answer, s'.audit.created, s'.qm.queries));
      OneMoreAnswer(s.qm.responses, answer, s'.audit.created, s'.qm.queries);
    }
  }

  lemma HandleKeepsAnswers(s: State, h: HandleStep)
    requires CanHandle(s, h) && AnswersHold(s)
    ensures AnswersHold(AfterHandle(s, h))
  {
    HandleIsStable(s, h);
    HandleFrame(s, h);
    TablesKeepAnswers(s.qm.responses, s.audit.created, s.qm.queries, s.audit.created, s.qm.creators,
                      AfterHandle(s, h).qm.queries);
  }

  lemma StepKeepsAnswers(limit: int, s: State, step: Step)
    requires Referenced(s) && AnnouncedInv(s) && Enabled(s, step) && AnswersHold(s)
    ensures AnswersHold(Next(limit, s, step))
  {
    match step {
      case Tick(_) =>
      case Creating(c) => CreateKeepsAnswers(s, c);
      case Moving(m) => MoveLeavesTables(limit, s, m); MoveEmitsNothing(limit, s, m);
      case Caching(w) => WriteFrame(s, w);
      case Handling(h) => HandleKeepsAnswers(s, h);
    }
  }

  lemma {:induction false} RunKeepsAnswers(limit: int, start: int, steps: seq<Step>)
    requires Run(limit, Init(start), steps).Some?
    ensures AnswersHold(Run(limit, Init(start), steps).value)
  {
    if steps != [] {
      var before := steps[..|steps| - 1];
      RunKeepsAnswers(limit, start, before);
      InitIsSafe(start);
      RunKeepsSafe(limit, Init(start), before);
      StepKeepsAnswers(limit, Run(limit, Init(start), before).value, steps[|steps| - 1]);
    }
  }

  /** Every answer a creation ever gave is of one of two kinds, and never of both: from the cache, with the
      blank id, COMPLETED and complete; or for a stored query, PENDING, with the subqueries and the callback
      URL the query was stored with, and with at least one result missing. */
  lemma AnswersClassified(limit: int, s: State, i: nat)
    requires Reachable(limit, s) && i < |s.qm.responses|
    ensures var answer := s.qm.responses[i];
            FromCache(answer) <==> !AsStored(answer, s.audit.created, s.qm.queries)
  {
    var start, steps :| Run(limit, Init(start), steps) == Some(s);
    RunKeepsAnswers(limit, start, steps);
    assert FromCache(s.qm.responses[i]) || AsStored(s.qm.responses[i], s.audit.created, s.qm.queries);
  }

  // ----- creation with everything cached -----

  lemma StartsOnHits(limit: int, s: State, q: Uuid, keys: seq<SubKey>, url: Option<string>)
    requires Reachable(limit, s) && CanCreateStart(s, q, keys)
    requires forall k :: 0 <= k < |keys| ==> Cached(s.cache.docs, keys[k].path)
    ensures var s1 := CreateStart(s, q, keys, url); Safe(s1) && HitOrOver(s1, q, keys) && q in s1.qm.owner
  {
    ReachableIsSafe(limit, s);
    StepKeepsSafe(limit, s, Creating(SCreateStart(q, keys, url)));
    UnknownQuery(s, q);
    StartHits(s, q, keys, url);
  }

  /** A query all of whose paths are cached when it arrives is never stored, has no row and no token, whatever
      else happens meanwhile; and when it decides, it answers COMPLETED with every result. */
  lemma CachedCreationStoresNothing(limit: int, s: State, q: Uuid, keys: seq<SubKey>, url: Option<string>,
                                    steps: seq<Step>)
    requires Reachable(limit, s) && CanCreateStart(s, q, keys)
    requires forall k :: 0 <= k < |keys| ==> Cached(s.cache.docs, keys[k].path)
    requires Run(limit, CreateStart(s, q, keys, url), steps).Some?
    ensures var s' := Run(limit, CreateStart(s, q, keys, url), steps).value;
            && q !in s'.qm.queries
            && (forall id :: id in s'.qm.rows ==> s'.qm.rows[id].queryId != q)
            && (forall t :: t in s'.pipe.emitted ==> t.queryId != q)
            && (CanCreateDecide(s', q) ==>
                  var ds := Answers(q, keys, s'.qm.creators[q].seen);
                  && AllTruthy(ds)
                  && CreateDecide(s', q).qm.responses
                     == s'.qm.responses + [Response("", ds, s'.qm.creators[q].callbackUrl, COMPLETED)])
  {
    StartsOnHits(limit, s, q, keys, url);
    HitsToTheEnd(limit, CreateStart(s, q, keys, url), steps, q, keys);
  }
}
