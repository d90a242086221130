/** The services as one state machine. Every handler is split where it awaits, so that handlers of all
    services interleave freely: a handler's reads and writes are separate steps, and messages wait in
    unordered inboxes. Fields marked "history" are written and never read by a handler. */
module Protocol {
  import opened Domain
  import opened RateLimiter
  import opened Cache
  import opened Planner

  // ----- state -----

  datatype Job = Job(token: Token, due: int)

  /** Where a token is between its creation and the upstream answer. */
  datatype Pipe = Pipe(
    emitted: multiset<Token>,         // history: every SCHEDULE_FETCH ever emitted
    scheduleInbox: multiset<Token>,   // SCHEDULE_FETCH, waiting at the request scheduler
    denied: multiset<Token>,          // scheduler or worker learned "rate limited" and is about to add a job
    approved: multiset<Token>,        // scheduler or worker learned "not limited" and is about to emit FETCH
    delayed: seq<Job>,                // the scheduled-requests queue
    fetched: multiset<Token>,         // history: every FETCH ever emitted
    trafficInbox: multiset<Token>,    // FETCH, waiting at the traffic controller
    logged: multiset<Token>,          // history: FETCH handled by the traffic controller
    connectorInbox: multiset<Token>,  // FETCH, waiting at the connector
    fetching: multiset<Token>,        // connector missed the cache, upstream call in progress
    dropped: multiset<Token>,         // history: connector hit the cache and emitted nothing
    received: seq<Received>           // history: every RECEIVE ever emitted
  )

  /** An `updateCache` between its find and its save. */
  datatype Write = Write(msg: Received, existing: Option<nat>)

  datatype CacheSide = CacheSide(
    docs: seq<Doc>,
    inbox: multiset<Received>,
    writes: seq<Write>,
    done: multiset<Received>          // history
  )

  datatype QueryRow = QueryRow(callbackUrl: Option<string>, status: Status, subs: seq<Uuid>)
  datatype SubRow = SubRow(path: Path, result: Json, queryId: Uuid)

  datatype CreatorPhase = Looking | QuerySaved | RowsSaved

  /** A `processNewQueryRequestAsync` in progress. */
  datatype Creator = Creator(keys: seq<SubKey>, callbackUrl: Option<string>, seen: seq<Option<Json>>,
                             phase: CreatorPhase)

  /** A `handleSubqueryResultAsync` in progress. */
  datatype HandlerPhase =
    | SubFound
    | Reading(oldStatus: Status, callbackUrl: Option<string>, keys: seq<SubKey>, seen: seq<Option<Json>>)
    | StatusSaved(body: Response, completed: bool)
    | ResultSaved(body: Response, completed: bool)
  datatype Handler = Handler(msg: Received, phase: HandlerPhase)

  /** A POST to a callback URL; `trigger` names the token whose handler sent it. */
  datatype Callback = Callback(url: string, body: Response, trigger: Token)

  datatype QuerySide = QuerySide(
    owner: map<Uuid, Uuid>,           // history: every uuid drawn so far, with the query it was drawn for
    creators: map<Uuid, Creator>,
    queries: map<Uuid, QueryRow>,
    rows: map<Uuid, SubRow>,
    inbox: multiset<Received>,
    handlers: seq<Handler>,
    done: multiset<Received>,         // history: handled to the end
    failed: multiset<Received>,       // history: handlers ended by findOneOrFail
    callbacks: seq<Callback>,         // history
    responses: seq<Response>          // history: answers to query creation
  )

  datatype Call = Call(path: Path, value: Json)
  datatype Denial = Denial(times: nat, firstLogs: nat, lastLogs: nat, lastAt: int)
  datatype Retirement = ByConnector | ByHandler(token: Token)

  datatype Audit = Audit(
    calls: seq<Call>,                 // every upstream call that was answered
    created: map<Uuid, seq<SubDto>>   // the answer each stored query was created with, once its tokens are out
  )

  datatype Retries = Retries(
    denials: map<Token, Denial>,      // per token: how often, and how many usages were logged by then
    deferrals: nat                    // how many denials there were in all
  )

  /** `audit`, `retries` and `lastRetired` (how each query's latest token left the pipeline) are histories. */
  datatype State = State(lim: Limiter, pipe: Pipe, cache: CacheSide, qm: QuerySide,
                         audit: Audit, retries: Retries, lastRetired: map<Uuid, Retirement>)

  const NO_TOKENS: multiset<Token> := multiset{}
  const NO_RESULTS: multiset<Received> := multiset{}

  function Init(start: int): State {
    State(
      Limiter(start, NoKey, []),
      Pipe(NO_TOKENS, NO_TOKENS, NO_TOKENS, NO_TOKENS, [], NO_TOKENS, NO_TOKENS, NO_TOKENS, NO_TOKENS, NO_TOKENS,
           NO_TOKENS, []),
      CacheSide([], NO_RESULTS, [], NO_RESULTS),
      QuerySide(map[], map[], map[], map[], NO_RESULTS, [], NO_RESULTS, NO_RESULTS, [], []),
      Audit([], map[]), Retries(map[], 0), map[])
  }

  // ----- query creation -----

  function Keys(subs: seq<Uuid>, rows: map<Uuid, SubRow>): (ks: seq<SubKey>)
    ensures |ks| == |subs|
  {
    seq(|subs|, i requires 0 <= i < |subs| =>
      SubKey(subs[i], if subs[i] in rows then rows[subs[i]].path else ""))
  }

  function Ids(keys: seq<SubKey>): (ids: seq<Uuid>)
    ensures |ids| == |keys|
  {
    seq(|keys|, i requires 0 <= i < |keys| => keys[i].id)
  }

  function NoReads(n: nat): (seen: seq<Option<Json>>)
    ensures |seen| == n
  {
    seq(n, _ => None)
  }

  predicate AllRead(seen: seq<Option<Json>>) {
    forall i :: 0 <= i < |seen| ==> seen[i].Some?
  }

  /** What the cache lookup of a query answers, position by position. */
  function Answers(q: Uuid, keys: seq<SubKey>, seen: seq<Option<Json>>): (ds: seq<SubDto>)
    ensures |ds| == |keys|
  {
    seq(|keys|, i requires 0 <= i < |keys| =>
      SubDto(keys[i].id, keys[i].path, if i < |seen| && seen[i].Some? then seen[i].value else Null, q))
  }

  predicate AllTruthy(ds: seq<SubDto>) {
    forall i :: 0 <= i < |ds| ==> Truthy(ds[i].result)
  }

  function OwnAll(owner: map<Uuid, Uuid>, q: Uuid, keys: seq<SubKey>): map<Uuid, Uuid> {
    owner[q := q] + map id | id in Ids(keys) :: q
  }

  /** subqueryRepository.save(query.subqueries) */
  function InsertRows(rows: map<Uuid, SubRow>, ds: seq<SubDto>): map<Uuid, SubRow> {
    if ds == [] then rows
    else
      var d := ds[|ds| - 1];
      InsertRows(rows, ds[..|ds| - 1])[d.id := SubRow(d.path, d.result, d.queryId)]
  }

  function CreateStart(s: State, q: Uuid, keys: seq<SubKey>, url: Option<string>): State {
    s.(qm := s.qm.(
      owner := OwnAll(s.qm.owner, q, keys),
      creators := s.qm.creators[q := Creator(keys, url, NoReads(|keys|), Looking)]))
  }

  predicate CanCreateStart(s: State, q: Uuid, keys: seq<SubKey>) {
    && q !in s.qm.owner
    && q != ""
    && (forall i :: 0 <= i < |keys| ==> keys[i].id !in s.qm.owner && keys[i].id != q)
    && (forall i, j :: 0 <= i < j < |keys| ==> keys[i].id != keys[j].id)
  }

  predicate CanCreateRead(s: State, q: Uuid, i: nat) {
    && q in s.qm.creators && s.qm.creators[q].phase == Looking
    && i < |s.qm.creators[q].keys| && i < |s.qm.creators[q].seen|
    && s.qm.creators[q].seen[i] == None
  }

  function CreateRead(s: State, q: Uuid, i: nat): State
    requires CanCreateRead(s, q, i)
  {
    var c := s.qm.creators[q];
    s.(qm := s.qm.(creators := s.qm.creators[q := c.(seen := c.seen[i := Some(Read(s.cache.docs, c.keys[i].path))])]))
  }

  predicate CanCreateDecide(s: State, q: Uuid) {
    q in s.qm.creators && s.qm.creators[q].phase == Looking && AllRead(s.qm.creators[q].seen)
  }

  /** All results cached: answer at once and store nothing. Otherwise: save the query row. */
  function CreateDecide(s: State, q: Uuid): State
    requires CanCreateDecide(s, q)
  {
    var c := s.qm.creators[q];
    var ds := Answers(q, c.keys, c.seen);
    if AllTruthy(ds) then
      s.(qm := s.qm.(
        creators := s.qm.creators - {q},
        responses := s.qm.responses + [Response("", ds, c.callbackUrl, COMPLETED)]))
    else
      s.(qm := s.qm.(
        creators := s.qm.creators[q := c.(phase := QuerySaved)],
        queries := s.qm.queries[q := QueryRow(c.callbackUrl, PENDING, [])]))
  }

  predicate CanCreateSaveRows(s: State, q: Uuid) {
    q in s.qm.creators && s.qm.creators[q].phase == QuerySaved && q in s.qm.queries
  }

  function CreateSaveRows(s: State, q: Uuid): State
    requires CanCreateSaveRows(s, q)
  {
    var c := s.qm.creators[q];
    s.(qm := s.qm.(
      creators := s.qm.creators[q := c.(phase := RowsSaved)],
      queries := s.qm.queries[q := s.qm.queries[q].(subs := Ids(c.keys))],
      rows := InsertRows(s.qm.rows, Answers(q, c.keys, c.seen))))
  }

  predicate CanCreateEmit(s: State, q: Uuid) {
    q in s.qm.creators && s.qm.creators[q].phase == RowsSaved
  }

  /** Emit one SCHEDULE_FETCH per planned token and answer the request. */
  function CreateEmit(s: State, q: Uuid): State
    requires CanCreateEmit(s, q)
  {
    var c := s.qm.creators[q];
    var ds := Answers(q, c.keys, c.seen);
    var tokens := multiset(Plan(ds));
    s.(pipe := s.pipe.(
         emitted := s.pipe.emitted + tokens,
         scheduleInbox := s.pipe.scheduleInbox + tokens),
       qm := s.qm.(
         creators := s.qm.creators - {q},
         responses := s.qm.responses + [Response(q, ds, c.callbackUrl, PENDING)]),
       audit := s.audit.(created := s.audit.created[q := ds]))
  }

  // ----- request scheduler and delayed queue -----

  function Deny(r: Retries, t: Token, logs: nat, now: int): Retries {
    var first := if t in r.denials then r.denials[t].firstLogs else logs;
    var times := if t in r.denials then r.denials[t].times + 1 else 1;
    Retries(r.denials[t := Denial(times, first, logs, now)], r.deferrals + 1)
  }

  /** The rate-limit check common to the scheduler and the worker: one read of the usage count. */
  function Judge(limit: int, s: State, t: Token): State {
    var limited := Limited(limit, s.lim);
    s.(pipe := if limited then s.pipe.(denied := s.pipe.denied + multiset{t})
               else s.pipe.(approved := s.pipe.approved + multiset{t}),
       retries := if limited then Deny(s.retries, t, |s.lim.history|, s.lim.clock) else s.retries)
  }

  predicate CanScheduleCheck(s: State, t: Token) {
    t in s.pipe.scheduleInbox
  }

  function ScheduleCheck(limit: int, s: State, t: Token): State {
    Judge(limit, s.(pipe := s.pipe.(scheduleInbox := s.pipe.scheduleInbox - multiset{t})), t)
  }

  /** The queue delivers no job before it is due. */
  predicate CanJobCheck(s: State, i: nat) {
    i < |s.pipe.delayed| && s.pipe.delayed[i].due <= s.lim.clock
  }

  function JobCheck(limit: int, s: State, i: nat): State
    requires CanJobCheck(s, i)
  {
    Judge(limit, s.(pipe := s.pipe.(delayed := RemoveAt(s.pipe.delayed, i))), s.pipe.delayed[i].token)
  }

  function Defer(s: State, t: Token): State {
    s.(pipe := s.pipe.(
      denied := s.pipe.denied - multiset{t},
      delayed := s.pipe.delayed + [Job(t, s.lim.clock + WINDOW)]))
  }

  /** FETCH goes to the traffic controller and to the connector. */
  function EmitFetch(s: State, t: Token): State {
    s.(pipe := s.pipe.(
      approved := s.pipe.approved - multiset{t},
      fetched := s.pipe.fetched + multiset{t},
      trafficInbox := s.pipe.trafficInbox + multiset{t},
      connectorInbox := s.pipe.connectorInbox + multiset{t}))
  }

  function LogUsage(s: State, t: Token, usageId: Uuid): State {
    s.(lim := Log(s.lim, usageId),
       pipe := s.pipe.(
         trafficInbox := s.pipe.trafficInbox - multiset{t},
         logged := s.pipe.logged + multiset{t}))
  }

  // ----- connector -----

  /** A hit ends the token's journey: nothing is emitted. */
  function ConnectorRead(s: State, t: Token): State {
    var inbox := s.pipe.connectorInbox - multiset{t};
    var hit := Truthy(Read(s.cache.docs, t.path));
    s.(pipe := if hit then s.pipe.(connectorInbox := inbox, dropped := s.pipe.dropped + multiset{t})
               else s.pipe.(connectorInbox := inbox, fetching := s.pipe.fetching + multiset{t}),
       lastRetired := if hit then s.lastRetired[t.queryId := ByConnector] else s.lastRetired)
  }

  /** The upstream answers `data`; RECEIVE goes to the cache manager and to the query manager. */
  function ConnectorFetch(s: State, t: Token, data: Json): State {
    var m := Received(t, data);
    s.(pipe := s.pipe.(
         fetching := s.pipe.fetching - multiset{t},
         received := s.pipe.received + [m]),
       cache := s.cache.(inbox := s.cache.inbox + multiset{m}),
       qm := s.qm.(inbox := s.qm.inbox + multiset{m}),
       audit := s.audit.(calls := s.audit.calls + [Call(t.path, data)]))
  }

  // ----- cache manager -----

  function CacheFind(s: State, m: Received): State {
    var inbox := s.cache.inbox - multiset{m};
    if Truthy(m.result) then
      s.(cache := s.cache.(inbox := inbox, writes := s.cache.writes + [Write(m, Find(s.cache.docs, m.token.path))]))
    else
      s.(cache := s.cache.(inbox := inbox, done := s.cache.done + multiset{m}))
  }

  function CacheSave(s: State, i: nat): State
    requires i < |s.cache.writes|
  {
    var w := s.cache.writes[i];
    s.(cache := s.cache.(
      docs := Save(s.cache.docs, w.existing, w.msg.token.path, w.msg.result),
      writes := RemoveAt(s.cache.writes, i),
      done := s.cache.done + multiset{w.msg}))
  }

  // ----- query manager: a result arrives -----

  /** findOneOrFail on the subquery row. */
  function HandlerStart(s: State, m: Received): State {
    var inbox := s.qm.inbox - multiset{m};
    if m.token.id in s.qm.rows then
      s.(qm := s.qm.(inbox := inbox, handlers := s.qm.handlers + [Handler(m, SubFound)]),
         lastRetired := s.lastRetired[m.token.queryId := ByHandler(m.token)])
    else
      s.(qm := s.qm.(inbox := inbox, failed := s.qm.failed + multiset{m}))
  }

  predicate CanHandlerLoad(s: State, i: nat) {
    i < |s.qm.handlers| && s.qm.handlers[i].phase == SubFound
  }

  function SetPhase(s: State, i: nat, p: HandlerPhase): State
    requires i < |s.qm.handlers|
  {
    s.(qm := s.qm.(handlers := s.qm.handlers[i := Handler(s.qm.handlers[i].msg, p)]))
  }

  /** findOneOrFail on the query row, with its subqueries loaded eagerly. */
  function HandlerLoad(s: State, i: nat): State
    requires CanHandlerLoad(s, i)
  {
    var m := s.qm.handlers[i].msg;
    var q := m.token.queryId;
    if q in s.qm.queries then
      var row := s.qm.queries[q];
      SetPhase(s, i, Reading(row.status, row.callbackUrl, Keys(row.subs, s.qm.rows), NoReads(|row.subs|)))
    else
      s.(qm := s.qm.(handlers := RemoveAt(s.qm.handlers, i), failed := s.qm.failed + multiset{m}))
  }

  predicate CanHandlerRead(s: State, i: nat, k: nat) {
    && i < |s.qm.handlers| && s.qm.handlers[i].phase.Reading?
    && k < |s.qm.handlers[i].phase.keys| && k < |s.qm.handlers[i].phase.seen|
    && s.qm.handlers[i].phase.seen[k] == None
  }

  function HandlerRead(s: State, i: nat, k: nat): State
    requires CanHandlerRead(s, i, k)
  {
    var p := s.qm.handlers[i].phase;
    SetPhase(s, i, p.(seen := p.seen[k := Some(Read(s.cache.docs, p.keys[k].path))]))
  }

  /** The cache answers, with the arriving result put in its own place. */
  function Latest(m: Received, keys: seq<SubKey>, seen: seq<Option<Json>>): (ds: seq<SubDto>)
    ensures |ds| == |keys|
  {
    var ds := Answers(m.token.queryId, keys, seen);
    seq(|keys|, i requires 0 <= i < |keys| =>
      if ds[i].id == m.token.id then SubDto(m.token.id, m.token.path, m.result, m.token.queryId) else ds[i])
  }

  function StatusOf(completed: bool): Status {
    if completed then COMPLETED else PENDING
  }

  function SaveStatus(queries: map<Uuid, QueryRow>, q: Uuid, status: Status): map<Uuid, QueryRow> {
    if q in queries then queries[q := queries[q].(status := status)] else queries
  }

  function SaveResult(rows: map<Uuid, SubRow>, id: Uuid, result: Json): map<Uuid, SubRow> {
    if id in rows then rows[id := rows[id].(result := result)] else rows
  }

  predicate CanHandlerSaveStatus(s: State, i: nat) {
    i < |s.qm.handlers| && s.qm.handlers[i].phase.Reading? && AllRead(s.qm.handlers[i].phase.seen)
  }

  /** The status follows from the answers; the body keeps the status that was loaded. */
  function HandlerSaveStatus(s: State, i: nat): State
    requires CanHandlerSaveStatus(s, i)
  {
    var m := s.qm.handlers[i].msg;
    var p := s.qm.handlers[i].phase;
    var ds := Latest(m, p.keys, p.seen);
    var completed := AllTruthy(ds);
    var s1 := SetPhase(s, i, StatusSaved(Response(m.token.queryId, ds, p.callbackUrl, p.oldStatus), completed));
    s1.(qm := s1.qm.(queries := SaveStatus(s.qm.queries, m.token.queryId, StatusOf(completed))))
  }

  predicate CanHandlerSaveResult(s: State, i: nat) {
    i < |s.qm.handlers| && s.qm.handlers[i].phase.StatusSaved?
  }

  function HandlerSaveResult(s: State, i: nat): State
    requires CanHandlerSaveResult(s, i)
  {
    var m := s.qm.handlers[i].msg;
    var p := s.qm.handlers[i].phase;
    var s1 := SetPhase(s, i, ResultSaved(p.body, p.completed));
    s1.(qm := s1.qm.(rows := SaveResult(s.qm.rows, m.token.id, m.result)))
  }

  predicate CanHandlerNotify(s: State, i: nat) {
    i < |s.qm.handlers| && s.qm.handlers[i].phase.ResultSaved?
  }

  predicate Notifies(completed: bool, url: Option<string>) {
    completed && url.Some? && url.value != ""
  }

  function HandlerNotify(s: State, i: nat): State
    requires CanHandlerNotify(s, i)
  {
    var m := s.qm.handlers[i].msg;
    var p := s.qm.handlers[i].phase;
    s.(qm := s.qm.(
      handlers := RemoveAt(s.qm.handlers, i),
      done := s.qm.done + multiset{m},
      callbacks := if Notifies(p.completed, p.body.callbackUrl)
                   then s.qm.callbacks + [Callback(p.body.callbackUrl.value, p.body, m.token)]
                   else s.qm.callbacks))
  }

  // ----- polling -----

  function RowDto(q: Uuid, id: Uuid, rows: map<Uuid, SubRow>): SubDto {
    if id in rows then SubDto(id, rows[id].path, rows[id].result, q) else SubDto(id, "", Null, q)
  }

  function PollTables(queries: map<Uuid, QueryRow>, rows: map<Uuid, SubRow>, q: Uuid): Response {
    if q in queries then
      var row := queries[q];
      Response(q, seq(|row.subs|, i requires 0 <= i < |row.subs| => RowDto(q, row.subs[i], rows)), row.callbackUrl,
               row.status)
    else Response("NOT_FOUND", [], Some(""), PENDING)
  }

  /** The answer lists the rows of a stored query, in order and as they are, under its status and URL. */
  ghost predicate Shows(answer: Response, q: Uuid, row: QueryRow, rows: map<Uuid, SubRow>) {
    && answer.id == q && answer.status == row.status && answer.callbackUrl == row.callbackUrl
    && |answer.subqueries| == |row.subs|
    && forall i :: 0 <= i < |row.subs| && row.subs[i] in rows ==>
         var r := rows[row.subs[i]];
         answer.subqueries[i] == SubDto(row.subs[i], r.path, r.result, q)
  }

  function Poll(qm: QuerySide, q: Uuid): Response {
    PollTables(qm.queries, qm.rows, q)
  }

  // ----- steps and runs -----

  datatype CreateStep =
    | SCreateStart(q: Uuid, keys: seq<SubKey>, url: Option<string>)
    | SCreateRead(q: Uuid, k: nat)
    | SCreateDecide(q: Uuid)
    | SCreateSaveRows(q: Uuid)
    | SCreateEmit(q: Uuid)

  datatype MoveStep =
    | SScheduleCheck(t: Token)
    | SJobCheck(i: nat)
    | SDefer(t: Token)
    | SEmitFetch(t: Token)
    | SLogUsage(t: Token, usageId: Uuid)
    | SConnectorRead(t: Token)
    | SConnectorFetch(t: Token, data: Json)

  datatype CacheStep = SCacheFind(m: Received) | SCacheSave(i: nat)

  datatype HandleStep =
    | SHandlerStart(m: Received)
    | SHandlerLoad(i: nat)
    | SHandlerRead(i: nat, k: nat)
    | SHandlerSaveStatus(i: nat)
    | SHandlerSaveResult(i: nat)
    | SHandlerNotify(i: nat)

  datatype Step =
    | Tick(d: nat)
    | Creating(create: CreateStep)
    | Moving(move: MoveStep)
    | Caching(write: CacheStep)
    | Handling(handle: HandleStep)

  predicate CanCreate(s: State, c: CreateStep) {
    match c
    case SCreateStart(q, keys, _) => CanCreateStart(s, q, keys)
    case SCreateRead(q, k) => CanCreateRead(s, q, k)
    case SCreateDecide(q) => CanCreateDecide(s, q)
    case SCreateSaveRows(q) => CanCreateSaveRows(s, q)
    case SCreateEmit(q) => CanCreateEmit(s, q)
  }

  function AfterCreate(s: State, c: CreateStep): State
    requires CanCreate(s, c)
  {
    match c
    case SCreateStart(q, keys, url) => CreateStart(s, q, keys, url)
    case SCreateRead(q, k) => CreateRead(s, q, k)
    case SCreateDecide(q) => CreateDecide(s, q)
    case SCreateSaveRows(q) => CreateSaveRows(s, q)
    case SCreateEmit(q) => CreateEmit(s, q)
  }

  predicate CanMove(s: State, m: MoveStep) {
    match m
    case SScheduleCheck(t) => CanScheduleCheck(s, t)
    case SJobCheck(i) => CanJobCheck(s, i)
    case SDefer(t) => t in s.pipe.denied
    case SEmitFetch(t) => t in s.pipe.approved
    case SLogUsage(t, id) => t in s.pipe.trafficInbox && FreshUsage(s.lim, id)
    case SConnectorRead(t) => t in s.pipe.connectorInbox
    case SConnectorFetch(t, _) => t in s.pipe.fetching
  }

  function AfterMove(limit: int, s: State, m: MoveStep): State
    requires CanMove(s, m)
  {
    match m
    case SScheduleCheck(t) => ScheduleCheck(limit, s, t)
    case SJobCheck(i) => JobCheck(limit, s, i)
    case SDefer(t) => Defer(s, t)
    case SEmitFetch(t) => EmitFetch(s, t)
    case SLogUsage(t, id) => LogUsage(s, t, id)
    case SConnectorRead(t) => ConnectorRead(s, t)
    case SConnectorFetch(t, data) => ConnectorFetch(s, t, data)
  }

  predicate CanWrite(s: State, w: CacheStep) {
    match w
    case SCacheFind(m) => m in s.cache.inbox
    case SCacheSave(i) => i < |s.cache.writes|
  }

  function AfterWrite(s: State, w: CacheStep): State
    requires CanWrite(s, w)
  {
    match w
    case SCacheFind(m) => CacheFind(s, m)
    case SCacheSave(i) => CacheSave(s, i)
  }

  predicate CanHandle(s: State, h: HandleStep) {
    match h
    case SHandlerStart(m) => m in s.qm.inbox
    case SHandlerLoad(i) => CanHandlerLoad(s, i)
    case SHandlerRead(i, k) => CanHandlerRead(s, i, k)
    case SHandlerSaveStatus(i) => CanHandlerSaveStatus(s, i)
    case SHandlerSaveResult(i) => CanHandlerSaveResult(s, i)
    case SHandlerNotify(i) => CanHandlerNotify(s, i)
  }

  function AfterHandle(s: State, h: HandleStep): State
    requires CanHandle(s, h)
  {
    match h
    case SHandlerStart(m) => HandlerStart(s, m)
    case SHandlerLoad(i) => HandlerLoad(s, i)
    case SHandlerRead(i, k) => HandlerRead(s, i, k)
    case SHandlerSaveStatus(i) => HandlerSaveStatus(s, i)
    case SHandlerSaveResult(i) => HandlerSaveResult(s, i)
    case SHandlerNotify(i) => HandlerNotify(s, i)
  }

  predicate Enabled(s: State, step: Step) {
    match step
    case Tick(_) => true
    case Creating(c) => CanCreate(s, c)
    case Moving(m) => CanMove(s, m)
    case Caching(w) => CanWrite(s, w)
    case Handling(h) => CanHandle(s, h)
  }

  function Next(limit: int, s: State, step: Step): State
    requires Enabled(s, step)
  {
    match step
    case Tick(d) => s.(lim := Advance(s.lim, d))
    case Creating(c) => AfterCreate(s, c)
    case Moving(m) => AfterMove(limit, s, m)
    case Caching(w) => AfterWrite(s, w)
    case Handling(h) => AfterHandle(s, h)
  }

  /** Where a run of `steps` leads from `s`, if every step is enabled in turn. */
  function Run(limit: int, s: State, steps: seq<Step>): Option<State> {
    if steps == [] then Some(s)
    else
      var before := Run(limit, s, steps[..|steps| - 1]);
      var step := steps[|steps| - 1];
      if before.Some? && Enabled(before.value, step) then Some(Next(limit, before.value, step)) else None
  }

  ghost predicate Reachable(limit: int, s: State) {
    exists start, steps :: Run(limit, Init(start), steps) == Some(s)
  }

  /** Every upstream answer so far was truthy. */
  ghost predicate TruthyUpstream(s: State) {
    forall i :: 0 <= i < |s.audit.calls| ==> Truthy(s.audit.calls[i].value)
  }
}
