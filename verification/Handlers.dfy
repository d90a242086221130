/** What a result handler carries from one await to the next, and what it finally posts. */
module Handlers {
  import opened Domain
  import opened Protocol
  import opened Frames
  import opened Conservation
  import opened References

  /** The body lists every subquery of the query exactly once, in the order of the stored row. */
  ghost predicate Lists(body: Response, q: Uuid, queries: map<Uuid, QueryRow>, rows: map<Uuid, SubRow>) {
    && q in queries && body.id == q && body.callbackUrl == queries[q].callbackUrl
    && |body.subqueries| == |queries[q].subs|
    && forall i :: 0 <= i < |body.subqueries| ==>
         && body.subqueries[i].id == queries[q].subs[i]
         && body.subqueries[i].id in rows
         && body.subqueries[i].path == rows[body.subqueries[i].id].path
         && body.subqueries[i].queryId == q
  }

  ghost predicate HandlerFits(h: Handler, queries: map<Uuid, QueryRow>, rows: map<Uuid, SubRow>) {
    var q := h.msg.token.queryId;
    match h.phase
    case SubFound => true
    case Reading(_, url, keys, seen) =>
      q in queries && url == queries[q].callbackUrl && |seen| == |keys| && keys == Keys(queries[q].subs, rows)
    case StatusSaved(body, completed) => Lists(body, q, queries, rows) && completed == AllTruthy(body.subqueries)
    case ResultSaved(body, completed) => Lists(body, q, queries, rows) && completed == AllTruthy(body.subqueries)
  }

  ghost predicate HandlersFit(handlers: seq<Handler>, queries: map<Uuid, QueryRow>, rows: map<Uuid, SubRow>) {
    forall i :: 0 <= i < |handlers| ==> HandlerFits(handlers[i], queries, rows)
  }

  /** Every POST is complete, and goes to the query's own callback URL. */
  ghost predicate CallbackFits(c: Callback, queries: map<Uuid, QueryRow>, rows: map<Uuid, SubRow>) {
    && Lists(c.body, c.trigger.queryId, queries, rows)
    && AllTruthy(c.body.subqueries)
    && c.body.callbackUrl == Some(c.url) && c.url != ""
  }

  ghost predicate CallbacksFit(callbacks: seq<Callback>, queries: map<Uuid, QueryRow>, rows: map<Uuid, SubRow>) {
    forall i :: 0 <= i < |callbacks| ==> CallbackFits(callbacks[i], queries, rows)
  }

  /** Callbacks are triggered by handlers that ended, each at most once. */
  ghost predicate Triggered(callbacks: seq<Callback>, done: multiset<Received>) {
    && (forall i :: 0 <= i < |callbacks| ==> exists m :: m in done && m.token == callbacks[i].trigger)
    && (forall i, j :: 0 <= i < j < |callbacks| ==> callbacks[i].trigger != callbacks[j].trigger)
  }

  ghost predicate HandlersInv(s: State) {
    && s.qm.failed == NO_RESULTS
    && HandlersFit(s.qm.handlers, s.qm.queries, s.qm.rows)
    && CallbacksFit(s.qm.callbacks, s.qm.queries, s.qm.rows)
    && (forall i :: 0 <= i < |s.qm.callbacks| ==> s.qm.callbacks[i].trigger.queryId !in s.qm.creators)
    && Triggered(s.qm.callbacks, s.qm.done)
  }

  // ----- stability under other handlers' writes -----

  lemma KeysStable(subs: seq<Uuid>, rows: map<Uuid, SubRow>, rows': map<Uuid, SubRow>)
    requires RowsStable(rows, rows') && forall i :: 0 <= i < |subs| ==> subs[i] in rows
    ensures Keys(subs, rows') == Keys(subs, rows)
  {
  }

  lemma ListsStable(body: Response, q: Uuid, creators: map<Uuid, Creator>, queries: map<Uuid, QueryRow>,
                    rows: map<Uuid, SubRow>,
                    queries': map<Uuid, QueryRow>, rows': map<Uuid, SubRow>)
    requires RowsStable(rows, rows') && QueriesStable(creators, queries, queries') && q !in creators
    requires Lists(body, q, queries, rows)
    ensures Lists(body, q, queries', rows')
  {
  }

  lemma HandlerStable(h: Handler, creators: map<Uuid, Creator>, queries: map<Uuid, QueryRow>, rows: map<Uuid, SubRow>,
                      queries': map<Uuid, QueryRow>, rows': map<Uuid, SubRow>)
    requires RowsStable(rows, rows') && QueriesStable(creators, queries, queries')
    requires h.msg.token.queryId !in creators && Joined(queries, rows)
    requires HandlerFits(h, queries, rows)
    ensures HandlerFits(h, queries', rows')
  {
    var q := h.msg.token.queryId;
    match h.phase
    case SubFound =>
    case Reading(_, _, _, _) => KeysStable(queries[q].subs, rows, rows');
    case StatusSaved(body, _) => ListsStable(body, q, creators, queries, rows, queries', rows');
    case ResultSaved(body, _) => ListsStable(body, q, creators, queries, rows, queries', rows');
  }

  /** Whatever a step does to the tables, handlers and callbacks that it does not touch still fit. */
  lemma TablesMoveOn(s: State, queries': map<Uuid, QueryRow>, rows': map<Uuid, SubRow>)
    requires Conserved(s) && Referenced(s) && HandlersInv(s)
    requires RowsStable(s.qm.rows, rows') && QueriesStable(s.qm.creators, s.qm.queries, queries')
    ensures HandlersFit(s.qm.handlers, queries', rows')
    ensures CallbacksFit(s.qm.callbacks, queries', rows')
  {
    forall i | 0 <= i < |s.qm.handlers|
      ensures HandlerFits(s.qm.handlers[i], queries', rows')
    {
      HandlerNames(s, i);
      HandlerStable(s.qm.handlers[i], s.qm.creators, s.qm.queries, s.qm.rows, queries', rows');
    }
    forall i | 0 <= i < |s.qm.callbacks|
      ensures CallbackFits(s.qm.callbacks[i], queries', rows')
    {
      var c := s.qm.callbacks[i];
      assert CallbackFits(c, s.qm.queries, s.qm.rows);
      ListsStable(c.body, c.trigger.queryId, s.qm.creators, s.qm.queries, s.qm.rows, queries', rows');
    }
  }

  // ----- one token, one RECEIVE -----

  /** A token is answered at most once. */
  lemma AnsweredOnce(s: State, i: nat, j: nat)
    requires Conserved(s) && Referenced(s) && i < j < |s.pipe.received|
    ensures s.pipe.received[i].token != s.pipe.received[j].token
  {
    var ts := ReceivedTokens(s.pipe.received);
    ReceivedIsEmitted(s, s.pipe.received[i]);
    assert multiset(ts)[ts[i]] <= s.pipe.fetched[ts[i]] <= s.pipe.emitted[ts[i]];
    if ts[i] == ts[j] {
      CountOfTwo(ts, i, j);
    }
  }

  /** A handler still at work is not among those that ended, whatever result they carried. */
  lemma ActiveIsNotDone(s: State, i: nat, m: Received)
    requires Conserved(s) && Referenced(s) && i < |s.qm.handlers| && m in s.qm.done
    ensures m.token != s.qm.handlers[i].msg.token
  {
    var h := s.qm.handlers[i].msg;
    assert HandlerMsgs(s.qm.handlers)[i] == h;
    assert h in multiset(HandlerMsgs(s.qm.handlers));
    if m.token == h.token {
      var rs := s.pipe.received;
      assert m in multiset(rs) && h in multiset(rs);
      var a :| 0 <= a < |rs| && rs[a] == m;
      var b :| 0 <= b < |rs| && rs[b] == h;
      if a < b { AnsweredOnce(s, a, b); }
      if b < a { AnsweredOnce(s, b, a); }
      assert multiset(rs)[m] >= 2;
      if forall x, y :: 0 <= x < y < |rs| ==> rs[x] != rs[y] {
        CountOfDistinct(rs, m);
      } else {
        var x, y :| 0 <= x < y < |rs| && rs[x] == rs[y];
        AnsweredOnce(s, x, y);
      }
    }
  }

  // ----- one handler at a time -----

  lemma SetPhaseKeepsFit(s: State, i: nat, p: HandlerPhase, queries': map<Uuid, QueryRow>, rows': map<Uuid, SubRow>)
    requires HandlersFit(s.qm.handlers, queries', rows') && i < |s.qm.handlers|
    requires HandlerFits(Handler(s.qm.handlers[i].msg, p), queries', rows')
    ensures HandlersFit(SetPhase(s, i, p).qm.handlers, queries', rows')
  {
  }

  lemma HandlerStartKeeps(s: State, m: Received)
    requires Conserved(s) && Referenced(s) && HandlersInv(s) && m in s.qm.inbox
    ensures HandlersInv(HandlerStart(s, m))
  {
    InboxNames(s, m);
  }

  lemma HandlerLoadKeeps(s: State, i: nat)
    requires Conserved(s) && Referenced(s) && HandlersInv(s) && CanHandlerLoad(s, i)
    ensures HandlersInv(HandlerLoad(s, i))
    ensures s.qm.handlers[i].msg.token.queryId in s.qm.queries
  {
    HandlerNames(s, i);
    var row := s.qm.queries[s.qm.handlers[i].msg.token.queryId];
    SetPhaseKeepsFit(s, i, Reading(row.status, row.callbackUrl, Keys(row.subs, s.qm.rows), NoReads(|row.subs|)),
                     s.qm.queries, s.qm.rows);
  }

  lemma HandlerReadKeeps(s: State, i: nat, k: nat)
    requires HandlersInv(s) && CanHandlerRead(s, i, k)
    ensures HandlersInv(HandlerRead(s, i, k))
  {
    assert HandlerFits(s.qm.handlers[i], s.qm.queries, s.qm.rows);
  }

  lemma LatestLists(m: Received, p: HandlerPhase, queries: map<Uuid, QueryRow>, rows: map<Uuid, SubRow>)
    requires p.Reading? && HandlerFits(Handler(m, p), queries, rows) && Joined(queries, rows)
    requires m.token.id in rows && rows[m.token.id].path == m.token.path
    ensures Lists(Response(m.token.queryId, Latest(m, p.keys, p.seen), p.callbackUrl, p.oldStatus), m.token.queryId,
                  queries, rows)
  {
  }

  lemma HandlerSaveStatusKeeps(s: State, i: nat)
    requires Conserved(s) && Referenced(s) && HandlersInv(s) && CanHandlerSaveStatus(s, i)
    ensures HandlersInv(HandlerSaveStatus(s, i))
  {
    HandlerNames(s, i);
    var m := s.qm.handlers[i].msg;
    var p := s.qm.handlers[i].phase;
    var ds := Latest(m, p.keys, p.seen);
    var q := m.token.queryId;
    var body := Response(q, ds, p.callbackUrl, p.oldStatus);
    var queries' := SaveStatus(s.qm.queries, q, StatusOf(AllTruthy(ds)));
    assert HandlerFits(s.qm.handlers[i], s.qm.queries, s.qm.rows);
    LatestLists(m, p, s.qm.queries, s.qm.rows);
    TablesMoveOn(s, queries', s.qm.rows);
    ListsStable(body, q, s.qm.creators, s.qm.queries, s.qm.rows, queries', s.qm.rows);
    SetPhaseKeepsFit(s, i, StatusSaved(body, AllTruthy(ds)), queries', s.qm.rows);
  }

  lemma HandlerSaveResultKeeps(s: State, i: nat)
    requires Conserved(s) && Referenced(s) && HandlersInv(s) && CanHandlerSaveResult(s, i)
    ensures HandlersInv(HandlerSaveResult(s, i))
  {
    HandlerNames(s, i);
    var m := s.qm.handlers[i].msg;
    var p := s.qm.handlers[i].phase;
    var rows' := SaveResult(s.qm.rows, m.token.id, m.result);
    assert HandlerFits(s.qm.handlers[i], s.qm.queries, s.qm.rows);
    TablesMoveOn(s, s.qm.queries, rows');
    ListsStable(p.body, m.token.queryId, s.qm.creators, s.qm.queries, s.qm.rows, s.qm.queries, rows');
    SetPhaseKeepsFit(s, i, ResultSaved(p.body, p.completed), s.qm.queries, rows');
  }

  lemma NotifyKeepsTriggers(s: State, i: nat)
    requires Conserved(s) && Referenced(s) && HandlersInv(s) && CanHandlerNotify(s, i)
    ensures Triggered(HandlerNotify(s, i).qm.callbacks, HandlerNotify(s, i).qm.done)
  {
    var m := s.qm.handlers[i].msg;
    var s' := HandlerNotify(s, i);
    var cs := s.qm.callbacks;
    forall k | 0 <= k < |cs|
      ensures cs[k].trigger != m.token
      ensures exists d :: d in s'.qm.done && d.token == cs[k].trigger
    {
      var d :| d in s.qm.done && d.token == cs[k].trigger;
      ActiveIsNotDone(s, i, d);
      assert d in s'.qm.done;
    }
    assert m in s'.qm.done;
  }

  lemma NotifyKeepsFit(s: State, i: nat)
    requires HandlersFit(s.qm.handlers, s.qm.queries, s.qm.rows) && CanHandlerNotify(s, i)
    requires CallbacksFit(s.qm.callbacks, s.qm.queries, s.qm.rows)
    ensures HandlersFit(HandlerNotify(s, i).qm.handlers, s.qm.queries, s.qm.rows)
    ensures CallbacksFit(HandlerNotify(s, i).qm.callbacks, s.qm.queries, s.qm.rows)
  {
    assert HandlerFits(s.qm.handlers[i], s.qm.queries, s.qm.rows);
    var hs := HandlerNotify(s, i).qm.handlers;
    forall k | 0 <= k < |hs| ensures HandlerFits(hs[k], s.qm.queries, s.qm.rows) {
      assert hs[k] in s.qm.handlers;
    }
  }

  lemma NotifyTriggersAnnounced(s: State, i: nat)
    requires CanHandlerNotify(s, i) && s.qm.handlers[i].msg.token.queryId !in s.qm.creators
    requires forall k :: 0 <= k < |s.qm.callbacks| ==> s.qm.callbacks[k].trigger.queryId !in s.qm.creators
    ensures var cs := HandlerNotify(s, i).qm.callbacks;
            forall k :: 0 <= k < |cs| ==> cs[k].trigger.queryId !in s.qm.creators
  {
  }

  lemma HandlerNotifyKeeps(s: State, i: nat)
    requires Conserved(s) && Referenced(s) && HandlersInv(s) && CanHandlerNotify(s, i)
    ensures HandlersInv(HandlerNotify(s, i))
  {
    HandlerNames(s, i);
    NotifyKeepsTriggers(s, i);
    NotifyKeepsFit(s, i);
    NotifyTriggersAnnounced(s, i);
  }

  // ----- by service -----

  lemma HandleKeepsHandlers(s: State, h: HandleStep)
    requires Conserved(s) && Referenced(s) && HandlersInv(s) && CanHandle(s, h)
    ensures HandlersInv(AfterHandle(s, h))
  {
    match h {
      case SHandlerStart(m) => HandlerStartKeeps(s, m);
      case SHandlerLoad(i) => HandlerLoadKeeps(s, i);
      case SHandlerRead(i, k) => HandlerReadKeeps(s, i, k);
      case SHandlerSaveStatus(i) => HandlerSaveStatusKeeps(s, i);
      case SHandlerSaveResult(i) => HandlerSaveResultKeeps(s, i);
      case SHandlerNotify(i) => HandlerNotifyKeeps(s, i);
    }
  }

  lemma CreateKeepsHandlers(s: State, c: CreateStep)
    requires Conserved(s) && Referenced(s) && HandlersInv(s) && CanCreate(s, c)
    ensures HandlersInv(AfterCreate(s, c))
  {
    var s' := AfterCreate(s, c);
    CreateIsStable(s, c);
    TablesMoveOn(s, s'.qm.queries, s'.qm.rows);
    CreateFrame(s, c);
    forall i | 0 <= i < |s'.qm.callbacks|
      ensures s'.qm.callbacks[i].trigger.queryId !in s'.qm.creators
    {
      assert CallbackFits(s.qm.callbacks[i], s.qm.queries, s.qm.rows);
    }
  }

  lemma StepKeepsHandlers(limit: int, s: State, step: Step)
    requires Conserved(s) && Referenced(s) && HandlersInv(s) && Enabled(s, step)
    ensures HandlersInv(Next(limit, s, step))
  {
    match step {
      case Tick(_) =>
      case Creating(c) => CreateKeepsHandlers(s, c);
      case Moving(m) => MoveLeavesTables(limit, s, m);
      case Caching(w) => WriteFrame(s, w);
      case Handling(h) => HandleKeepsHandlers(s, h);
    }
  }
}
