/** The services as the source writes them: objects whose methods read the cache and the limiter, update
    tables and queues, and emit messages. Each method is one handler; a ghost argument is the protocol state
    it mirrors, and its contract says that it mirrors the uninterrupted handler of that protocol. */
module Services {
  import opened Domain
  import opened RateLimiter
  import opened Cache
  import opened Planner
  import opened Protocol
  import opened Atomic

  // ----- request scheduler -----

  /** The BullMQ queue of delayed jobs, shared by the scheduler and its worker. */
  class ScheduledRequests {
    var jobs: seq<Job>

    constructor ()
      ensures jobs == []
    {
      jobs := [];
    }

    method Add(token: Token, now: int, delay: int)
      modifies this
      ensures jobs == old(jobs) + [Job(token, now + delay)]
    {
      jobs := jobs + [Job(token, now + delay)];
    }

    /** The queue hands out a job only when it is due. */
    method Take(i: nat, now: int) returns (token: Token)
      requires i < |jobs| && jobs[i].due <= now
      modifies this
      ensures token == old(jobs[i].token) && jobs == RemoveAt(old(jobs), i)
    {
      token := jobs[i].token;
      jobs := RemoveAt(jobs, i);
    }
  }

  class RequestScheduler {
    const traffic: TrafficController
    const queue: ScheduledRequests
    var fetches: seq<Token>

    ghost predicate Mirrors(s: State)
      reads this, traffic, traffic.redis, queue
    {
      && traffic.Valid()
      && s.lim == Limiter(traffic.clock, traffic.redis.store, traffic.history)
      && s.pipe.delayed == queue.jobs
      && s.pipe.fetched == multiset(fetches)
    }

    constructor (traffic: TrafficController, queue: ScheduledRequests)
      ensures this.traffic == traffic && this.queue == queue && fetches == []
    {
      this.traffic := traffic;
      this.queue := queue;
      fetches := [];
    }

    /** The scheduler's handler: one check of the usage count, then a job one window away or a FETCH. A FETCH
        is emitted only while the true window has room. */
    method ScheduleRequest(ghost s: State, dto: Token, now: int)
      requires Mirrors(s) && traffic.clock <= now
      modifies this, traffic, queue
      ensures Mirrors(Scheduled(traffic.limit, s.(lim := Advance(s.lim, now - old(traffic.clock))), dto))
      ensures traffic.history == old(traffic.history)
      ensures if Limited(traffic.limit, Limiter(now, traffic.redis.store, traffic.history))
              then fetches == old(fetches) && queue.jobs == old(queue.jobs) + [Job(dto, now + 24 * 60 * 60 * 1000)]
              else fetches == old(fetches) + [dto] && queue.jobs == old(queue.jobs)
      ensures fetches != old(fetches) ==> CountIn(traffic.history, now - 24 * 60 * 60 * 1000, now) < traffic.limit
    {
      var isRateLimited := traffic.GetIsRateLimited(now);
      if isRateLimited {
        var delay := 86400 * 1000;
        queue.Add(dto, now, delay);
      } else {
        fetches := fetches + [dto];
      }
    }

    /** The worker's handler for a due job: the same check, then requeue or FETCH. */
    method Process(ghost s: State, i: nat, now: int)
      requires Mirrors(s) && traffic.clock <= now
      requires i < |queue.jobs| && queue.jobs[i].due <= now
      modifies this, traffic, queue
      ensures Mirrors(Processed(traffic.limit, s.(lim := Advance(s.lim, now - old(traffic.clock))), i))
      ensures traffic.history == old(traffic.history)
      ensures var dto, others := old(queue.jobs)[i].token, RemoveAt(old(queue.jobs), i);
              if Limited(traffic.limit, Limiter(now, traffic.redis.store, traffic.history))
              then fetches == old(fetches) && queue.jobs == others + [Job(dto, now + 24 * 60 * 60 * 1000)]
              else fetches == old(fetches) + [dto] && queue.jobs == others
      ensures fetches != old(fetches) ==> CountIn(traffic.history, now - 24 * 60 * 60 * 1000, now) < traffic.limit
    {
      var dto := queue.Take(i, now);
      var isRateLimited := traffic.GetIsRateLimited(now);
      if isRateLimited {
        var delay := 86400 * 1000;
        queue.Add(dto, now, delay);
      } else {
        fetches := fetches + [dto];
      }
    }
  }

  // ----- connector -----

  class SwapiConnector {
    const cache: CacheManager
    var received: seq<Received>

    ghost predicate Mirrors(s: State)
      reads this, cache, cache.resources
    {
      && cache.Valid()
      && s.cache.docs == cache.resources.docs
      && s.pipe.received == received
    }

    constructor (cache: CacheManager)
      ensures this.cache == cache && received == []
    {
      this.cache := cache;
      received := [];
    }

    /** Upstream is asked exactly when the path is not cached, and only then is a RECEIVE emitted. `upstream`
        stands for the HTTP answer. */
    method FetchData(ghost s: State, dto: Token, upstream: Json) returns (called: bool)
      requires Mirrors(s)
      modifies this
      ensures Mirrors(Connected(s, dto, upstream))
      ensures called <==> dto.path !in AsMap(cache.resources.docs)
      ensures received == if called then old(received) + [Received(dto, upstream)] else old(received)
    {
      var resource := cache.ReadCache(SubDto(dto.id, dto.path, Null, dto.queryId));
      ReadRefinesLookup(cache.resources.docs, dto.path);
      var resourceData := OrNull(resource.result);
      var newResult := Received(dto, resourceData);
      called := false;
      if !Truthy(resourceData) {
        called := true;
        newResult := Received(dto, upstream);
        received := received + [newResult];
      }
    }
  }

  // ----- query manager -----

  /** Whether query row `k` has a result: the one that arrived, at its own id, and else the cache's. */
  ghost predicate Resolved(dto: Received, key: SubKey, held: map<Path, Json>) {
    if key.id == dto.token.id then dto.result !in {Null, Bool(false), Num(0), Str("")} else key.path in held
  }

  /** The POST that a result sets off: the URL and the status of the query as it was loaded, the result that
      arrived in its own place, and in all others what the cache holds. */
  ghost predicate PostOf(c: Callback, dto: Received, query: QueryRow, keys: seq<SubKey>, held: map<Path, Json>) {
    && c.trigger == dto.token && query.callbackUrl == Some(c.url) && c.body.callbackUrl == Some(c.url)
    && c.body.id == dto.token.queryId && c.body.status == query.status && |c.body.subqueries| == |keys|
    && forall k :: 0 <= k < |keys| ==>
         && c.body.subqueries[k].id == keys[k].id
         && if keys[k].id == dto.token.id then c.body.subqueries[k].result == dto.result
            else keys[k].path in held && c.body.subqueries[k].result == held[keys[k].path]
  }

  lemma AnswersMean(q: Uuid, keys: seq<SubKey>, docs: seq<Doc>)
    requires Collection(docs)
    ensures var ds, held := AnswersNow(q, keys, docs), AsMap(docs);
            && (AllTruthy(ds) <==> forall k :: 0 <= k < |keys| ==> keys[k].path in held)
            && forall k :: 0 <= k < |keys| ==>
                 ds[k] == SubDto(keys[k].id, keys[k].path,
                                 if keys[k].path in held then held[keys[k].path] else Null, q)
  {
    var ds, held := AnswersNow(q, keys, docs), AsMap(docs);
    forall k | 0 <= k < |keys|
      ensures Truthy(ds[k].result) <==> keys[k].path in held
      ensures ds[k] == SubDto(keys[k].id, keys[k].path,
                              if keys[k].path in held then held[keys[k].path] else Null, q)
    {
      ReadRefinesLookup(docs, keys[k].path);
    }
  }

  lemma LatestMeans(dto: Received, keys: seq<SubKey>, docs: seq<Doc>)
    requires Collection(docs)
    ensures var ds, held := LatestNow(dto, keys, docs), AsMap(docs);
            && (AllTruthy(ds) <==> forall k :: 0 <= k < |keys| ==> Resolved(dto, keys[k], held))
            && forall k :: 0 <= k < |keys| ==>
                 && ds[k].id == keys[k].id
                 && ds[k].result == if keys[k].id == dto.token.id then dto.result
                                    else if keys[k].path in held then held[keys[k].path] else Null
  {
    var ds := LatestNow(dto, keys, docs);
    TruthyValues(dto.result);
    forall k | 0 <= k < |keys| ensures Truthy(ds[k].result) <==> Resolved(dto, keys[k], AsMap(docs)) {
      ReadRefinesLookup(docs, keys[k].path);
    }
    forall k | 0 <= k < |keys|
      ensures ds[k].id == keys[k].id
      ensures ds[k].result == if keys[k].id == dto.token.id then dto.result
                              else if keys[k].path in AsMap(docs) then AsMap(docs)[keys[k].path] else Null
    {
      ReadRefinesLookup(docs, keys[k].path);
    }
  }

  lemma LatestIsPost(dto: Received, query: QueryRow, keys: seq<SubKey>, docs: seq<Doc>)
    requires Collection(docs) && AllTruthy(LatestNow(dto, keys, docs)) && query.callbackUrl.Some?
    ensures var body := Response(dto.token.queryId, LatestNow(dto, keys, docs), query.callbackUrl, query.status);
            PostOf(Callback(query.callbackUrl.value, body, dto.token), dto, query, keys, AsMap(docs))
  {
    LatestMeans(dto, keys, docs);
    forall k | 0 <= k < |keys| ensures Resolved(dto, keys[k], AsMap(docs)) {
    }
  }

  class QueryManager {
    const cache: CacheManager
    var queries: map<Uuid, QueryRow>
    var rows: map<Uuid, SubRow>
    var scheduled: seq<Token>
    var callbacks: seq<Callback>

    ghost predicate Mirrors(s: State)
      reads this, cache, cache.resources
    {
      && cache.Valid()
      && s.cache.docs == cache.resources.docs
      && s.qm.queries == queries && s.qm.rows == rows && s.qm.callbacks == callbacks
      && s.pipe.emitted == multiset(scheduled)
    }

    constructor (cache: CacheManager)
      ensures this.cache == cache && queries == map[] && rows == map[] && scheduled == [] && callbacks == []
    {
      this.cache := cache;
      queries, rows, scheduled, callbacks := map[], map[], [], [];
    }

    /** One CACHE_READ per subquery; the answers keep the order of the request. */
    method FetchResultsFromCache(q: Uuid, keys: seq<SubKey>) returns (ds: seq<SubDto>)
      requires cache.Valid()
      ensures ds == AnswersNow(q, keys, cache.resources.docs)
    {
      ds := [];
      for i := 0 to |keys|
        invariant ds == AnswersNow(q, keys[..i], cache.resources.docs)
      {
        var answer := cache.ReadCache(SubDto(keys[i].id, keys[i].path, Null, q));
        ds := ds + [answer];
      }
      assert keys[..|keys|] == keys;
    }

    /** A new query is answered from the cache exactly when the cache holds every path; otherwise its rows are
        stored and its plan is emitted. The ids stand for the uuids drawn by the caller. */
    method ProcessNewQuery(ghost s: State, q: Uuid, keys: seq<SubKey>, url: Option<string>) returns (answer: Response)
      requires Mirrors(s) && q !in queries
      modifies this
      ensures Mirrors(Created(s, q, keys, url))
      ensures answer == Created(s, q, keys, url).qm.responses[|s.qm.responses|]
      ensures answer.status == COMPLETED <==> forall k :: 0 <= k < |keys| ==>
                keys[k].path in AsMap(cache.resources.docs)
      ensures var held := AsMap(cache.resources.docs);
              && answer.callbackUrl == url && |answer.subqueries| == |keys|
              && forall k :: 0 <= k < |keys| ==>
                   answer.subqueries[k] == SubDto(keys[k].id, keys[k].path,
                                                  if keys[k].path in held then held[keys[k].path] else Null, q)
      ensures if answer.status == COMPLETED
              then answer.id == "" && queries == old(queries) && rows == old(rows) && scheduled == old(scheduled)
              else answer.id == q && queries == old(queries)[q := QueryRow(url, PENDING, Ids(keys))]
                   && rows == InsertRows(old(rows), answer.subqueries)
                   && scheduled == old(scheduled) + Plan(answer.subqueries)
    {
      var ds := FetchResultsFromCache(q, keys);
      AnswersMean(q, keys, cache.resources.docs);
      if AllTruthy(ds) {
        answer := Response("", ds, url, COMPLETED);
      } else {
        queries := queries[q := QueryRow(url, PENDING, Ids(keys))];
        rows := InsertRows(rows, ds);
        var tokens := TargetTokens(ds);
        scheduled := scheduled + tokens;
        answer := Response(q, ds, url, PENDING);
      }
    }

    /** The arriving result is put in its own place among the cache's answers. */
    method Refresh(dto: Received, ds: seq<SubDto>) returns (latest: seq<SubDto>)
      ensures |latest| == |ds|
      ensures forall i :: 0 <= i < |ds| ==>
                latest[i] == if ds[i].id == dto.token.id
                             then SubDto(dto.token.id, dto.token.path, dto.result, dto.token.queryId) else ds[i]
    {
      latest := [];
      for i := 0 to |ds|
        invariant |latest| == i
        invariant forall k :: 0 <= k < i ==>
                    latest[k] == if ds[k].id == dto.token.id
                                 then SubDto(dto.token.id, dto.token.path, dto.result, dto.token.queryId) else ds[k]
      {
        latest := latest + [if ds[i].id == dto.token.id
                            then SubDto(dto.token.id, dto.token.path, dto.result, dto.token.queryId) else ds[i]];
      }
    }

    /** A result arrives. Its row stores it; the query becomes COMPLETED exactly if every row is resolved, and then
        its URL, if it has one, gets the POST. If a row is missing, findOneOrFail ends the handler and nothing
        changes. */
    method HandleSubqueryResult(ghost s: State, dto: Received) returns (found: bool)
      requires Mirrors(s)
      modifies this
      ensures found <==> Finds(s.qm, dto)
      ensures Mirrors(if found then Handled(s, dto) else s)
      ensures found ==> rows == old(rows)[dto.token.id := old(rows)[dto.token.id].(result := dto.result)]
      ensures found ==>
                var q, query := dto.token.queryId, old(queries)[dto.token.queryId];
                var keys, held := Keys(query.subs, old(rows)), AsMap(cache.resources.docs);
                var completed := forall k :: 0 <= k < |keys| ==> Resolved(dto, keys[k], held);
                && queries == old(queries)[q := query.(status := if completed then COMPLETED else PENDING)]
                && if completed && query.callbackUrl.Some? && query.callbackUrl.value != ""
                   then |callbacks| == |old(callbacks)| + 1 && old(callbacks) <= callbacks
                        && PostOf(callbacks[|old(callbacks)|], dto, query, keys, held)
                   else callbacks == old(callbacks)
    {
      if dto.token.id !in rows || dto.token.queryId !in queries {
        return false;
      }
      var query := queries[dto.token.queryId];
      var keys := Keys(query.subs, rows);
      var ds := FetchResultsFromCache(dto.token.queryId, keys);
      var latest := Refresh(dto, ds);
      assert latest == LatestNow(dto, keys, cache.resources.docs);
      var latestResponse := Response(dto.token.queryId, latest, query.callbackUrl, query.status);
      var haveAllResults := AllTruthy(latest);
      LatestMeans(dto, keys, cache.resources.docs);
      queries := SaveStatus(queries, dto.token.queryId, StatusOf(haveAllResults));
      rows := SaveResult(rows, dto.token.id, dto.result);
      if Notifies(haveAllResults, query.callbackUrl) {
        LatestIsPost(dto, query, keys, cache.resources.docs);
        callbacks := callbacks + [Callback(query.callbackUrl.value, latestResponse, dto.token)];
      }
      found := true;
    }

    /** A poll shows the stored query and its rows as they are, or says that there is none. */
    method FetchQueryResults(id: Uuid) returns (answer: Response)
      ensures answer == PollTables(queries, rows, id)
      ensures id !in queries ==> answer == Response("NOT_FOUND", [], Some(""), PENDING)
      ensures id in queries ==> Shows(answer, id, queries[id], rows)
    {
      if id !in queries {
        return Response("NOT_FOUND", [], Some(""), PENDING);
      }
      var query := queries[id];
      var subqueries: seq<SubDto> := [];
      for i := 0 to |query.subs|
        invariant |subqueries| == i && forall k :: 0 <= k < i ==> subqueries[k] == RowDto(id, query.subs[k], rows)
      {
        subqueries := subqueries + [RowDto(id, query.subs[i], rows)];
      }
      answer := Response(id, subqueries, query.callbackUrl, query.status);
    }
  }
}
