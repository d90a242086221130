/** Who completed a query: under any interleaving, a callback that says COMPLETED learned it from another
    handler of the same query. */
module Completers {
  import opened Domain
  import opened Planner
  import opened Protocol
  import opened Frames
  import opened Conservation
  import opened References
  import opened Handlers
  import opened Completion
  import opened Invariants
  import opened Fates

  /** The token whose handler saves COMPLETED in this step, if it is such a step. */
  function CompletedIn(s: State, step: Step): set<Token>
    requires Enabled(s, step)
  {
    match step
    case Handling(SHandlerSaveStatus(i)) =>
      var h := s.qm.handlers[i];
      if AllTruthy(Latest(h.msg, h.phase.keys, h.phase.seen)) then {h.msg.token} else {}
    case _ => {}
  }

  /** The tokens whose handlers saved COMPLETED in the course of a run. */
  function CompletedBy(limit: int, s: State, steps: seq<Step>): set<Token>
    requires Run(limit, s, steps).Some?
  {
    if steps == [] then {}
    else
      var n := |steps| - 1;
      CompletedBy(limit, s, steps[..n]) + CompletedIn(Run(limit, s, steps[..n]).value, steps[n])
  }

  // ----- the invariant -----

  predicate Decided(h: Handler) {
    h.phase.StatusSaved? || h.phase.ResultSaved?
  }

  /** The token's handler has saved a status. */
  ghost predicate PastSave(done: multiset<Received>, handlers: seq<Handler>, t: Token) {
    || (exists m :: m in done && m.token == t)
    || (exists i :: 0 <= i < |handlers| && handlers[i].msg.token == t && Decided(handlers[i]))
  }

  ghost predicate AnotherOf(ts: set<Token>, q: Uuid, t: Token) {
    exists u :: u in ts && u.queryId == q && u != t
  }

  ghost predicate QueriesKnown(queries: map<Uuid, QueryRow>, ts: set<Token>) {
    forall q :: q in queries && queries[q].status == COMPLETED ==> exists u :: u in ts && u.queryId == q
  }

  ghost predicate AllPast(qm: QuerySide, ts: set<Token>) {
    forall t :: t in ts ==> PastSave(qm.done, qm.handlers, t)
  }

  /** A handler that loaded COMPLETED loaded what another one saved. */
  ghost predicate HandlerKnows(h: Handler, ts: set<Token>) {
    match h.phase
    case SubFound => true
    case Reading(oldStatus, _, _, _) => oldStatus == COMPLETED ==> AnotherOf(ts, h.msg.token.queryId, h.msg.token)
    case StatusSaved(body, _) => body.status == COMPLETED ==> AnotherOf(ts, h.msg.token.queryId, h.msg.token)
    case ResultSaved(body, _) => body.status == COMPLETED ==> AnotherOf(ts, h.msg.token.queryId, h.msg.token)
  }

  ghost predicate HandlersKnow(handlers: seq<Handler>, ts: set<Token>) {
    forall i :: 0 <= i < |handlers| ==> HandlerKnows(handlers[i], ts)
  }

  ghost predicate PostsKnow(callbacks: seq<Callback>, ts: set<Token>) {
    forall i :: 0 <= i < |callbacks| && callbacks[i].body.status == COMPLETED ==>
      AnotherOf(ts, callbacks[i].body.id, callbacks[i].trigger)
  }

  ghost predicate CompletersInv(qm: QuerySide, ts: set<Token>) {
    QueriesKnown(qm.queries, ts) && AllPast(qm, ts) && HandlersKnow(qm.handlers, ts) && PostsKnow(qm.callbacks, ts)
  }

  // ----- phases and places -----

  lemma PhaseKeepsPast(done: multiset<Received>, handlers: seq<Handler>, i: nat, p: HandlerPhase, t: Token)
    requires i < |handlers| && PastSave(done, handlers, t)
    requires Decided(handlers[i]) ==> p.StatusSaved? || p.ResultSaved?
    ensures PastSave(done, handlers[i := Handler(handlers[i].msg, p)], t)
  {
    if k :| 0 <= k < |handlers| && handlers[k].msg.token == t && Decided(handlers[k]) {
      var h := handlers[i := Handler(handlers[i].msg, p)][k];
      assert h.msg.token == t && Decided(h);
    }
  }

  lemma StartKeepsPast(done: multiset<Received>, handlers: seq<Handler>, m: Received, t: Token)
    requires PastSave(done, handlers, t)
    ensures PastSave(done, handlers + [Handler(m, SubFound)], t)
  {
    if k :| 0 <= k < |handlers| && handlers[k].msg.token == t && Decided(handlers[k]) {
      assert (handlers + [Handler(m, SubFound)])[k] == handlers[k];
    }
  }

  lemma NotifyKeepsPast(done: multiset<Received>, handlers: seq<Handler>, i: nat, t: Token)
    requires i < |handlers| && PastSave(done, handlers, t)
    ensures PastSave(done + multiset{handlers[i].msg}, RemoveAt(handlers, i), t)
  {
    var done' := done + multiset{handlers[i].msg};
    if m :| m in done && m.token == t {
      assert m in done';
    } else {
      var k :| 0 <= k < |handlers| && handlers[k].msg.token == t && Decided(handlers[k]);
      if handlers[k] == handlers[i] {
        assert handlers[i].msg in done';
      } else {
        RemoveAtKeeps(handlers, i, handlers[k]);
        var n :| 0 <= n < |RemoveAt(handlers, i)| && RemoveAt(handlers, i)[n] == handlers[k];
        assert Decided(RemoveAt(handlers, i)[n]);
      }
    }
  }

  lemma PhaseKeepsKnowing(handlers: seq<Handler>, i: nat, p: HandlerPhase, ts: set<Token>)
    requires i < |handlers| && HandlersKnow(handlers, ts) && HandlerKnows(Handler(handlers[i].msg, p), ts)
    ensures HandlersKnow(handlers[i := Handler(handlers[i].msg, p)], ts)
  {
  }

  lemma RemovedStillKnow(handlers: seq<Handler>, i: nat, ts: set<Token>)
    requires i < |handlers| && HandlersKnow(handlers, ts)
    ensures HandlersKnow(RemoveAt(handlers, i), ts)
  {
    var hs := RemoveAt(handlers, i);
    forall k | 0 <= k < |hs| ensures HandlerKnows(hs[k], ts) {
      assert hs[k] in handlers;
    }
  }

  /** More completers, no less known. */
  lemma MoreIsKnown(queries: map<Uuid, QueryRow>, callbacks: seq<Callback>, handlers: seq<Handler>, ts: set<Token>,
                    t: Token)
    requires QueriesKnown(queries, ts) && HandlersKnow(handlers, ts) && PostsKnow(callbacks, ts)
    ensures QueriesKnown(queries, ts + {t}) && HandlersKnow(handlers, ts + {t}) && PostsKnow(callbacks, ts + {t})
  {
    forall i | 0 <= i < |handlers| ensures HandlerKnows(handlers[i], ts + {t}) {
      assert HandlerKnows(handlers[i], ts);
      AnotherOfMore(ts, handlers[i].msg.token.queryId, handlers[i].msg.token, t);
    }
    forall i | 0 <= i < |callbacks| && callbacks[i].body.status == COMPLETED
      ensures AnotherOf(ts + {t}, callbacks[i].body.id, callbacks[i].trigger)
    {
      AnotherOfMore(ts, callbacks[i].body.id, callbacks[i].trigger, t);
    }
    forall q | q in queries && queries[q].status == COMPLETED ensures exists u :: u in ts + {t} && u.queryId == q {
      var u :| u in ts && u.queryId == q;
      assert u in ts + {t};
    }
  }

  lemma AnotherOfMore(ts: set<Token>, q: Uuid, u: Token, t: Token)
    ensures AnotherOf(ts, q, u) ==> AnotherOf(ts + {t}, q, u)
  {
    if x :| x in ts && x.queryId == q && x != u {
      assert x in ts + {t};
    }
  }

  // ----- the steps of a handler -----

  /** A handler that has not saved a status is not among those that did. */
  lemma UndecidedIsNotPast(s: State, i: nat)
    requires Conserved(s) && Referenced(s) && i < |s.qm.handlers| && !Decided(s.qm.handlers[i])
    ensures !PastSave(s.qm.done, s.qm.handlers, s.qm.handlers[i].msg.token)
  {
    var t := s.qm.handlers[i].msg.token;
    if m :| m in s.qm.done && m.token == t {
      ActiveIsNotDone(s, i, m);
    }
    if k :| 0 <= k < |s.qm.handlers| && s.qm.handlers[k].msg.token == t && Decided(s.qm.handlers[k]) {
      HandlersDiffer(s, i, k);
    }
  }

  lemma LoadKeepsCompleters(s: State, i: nat, ts: set<Token>)
    requires Conserved(s) && Referenced(s) && CanHandlerLoad(s, i) && CompletersInv(s.qm, ts)
    ensures CompletersInv(HandlerLoad(s, i).qm, ts)
  {
    HandlerNames(s, i);
    UndecidedIsNotPast(s, i);
    var h := s.qm.handlers[i];
    var p := HandlerLoad(s, i).qm.handlers[i].phase;
    if s.qm.queries[h.msg.token.queryId].status == COMPLETED {
      var u :| u in ts && u.queryId == h.msg.token.queryId;
      assert u != h.msg.token;
    }
    PhaseKeepsKnowing(s.qm.handlers, i, p, ts);
    forall t | t in ts ensures PastSave(s.qm.done, s.qm.handlers[i := Handler(h.msg, p)], t) {
      PhaseKeepsPast(s.qm.done, s.qm.handlers, i, p, t);
    }
  }

  /** The phases that neither load nor save a status. */
  lemma PhaseKeepsCompleters(qm: QuerySide, i: nat, p: HandlerPhase, ts: set<Token>)
    requires i < |qm.handlers| && CompletersInv(qm, ts)
    requires HandlerKnows(Handler(qm.handlers[i].msg, p), ts)
    requires Decided(qm.handlers[i]) ==> p.StatusSaved? || p.ResultSaved?
    ensures CompletersInv(qm.(handlers := qm.handlers[i := Handler(qm.handlers[i].msg, p)]), ts)
  {
    PhaseKeepsKnowing(qm.handlers, i, p, ts);
    forall t | t in ts ensures PastSave(qm.done, qm.handlers[i := Handler(qm.handlers[i].msg, p)], t) {
      PhaseKeepsPast(qm.done, qm.handlers, i, p, t);
    }
  }

  lemma ReadKeepsCompleters(s: State, i: nat, k: nat, ts: set<Token>)
    requires CanHandlerRead(s, i, k) && CompletersInv(s.qm, ts)
    ensures CompletersInv(HandlerRead(s, i, k).qm, ts)
  {
    assert HandlerKnows(s.qm.handlers[i], ts);
    PhaseKeepsCompleters(s.qm, i, HandlerRead(s, i, k).qm.handlers[i].phase, ts);
  }

  lemma SaveResultKeepsCompleters(s: State, i: nat, ts: set<Token>)
    requires CanHandlerSaveResult(s, i) && CompletersInv(s.qm, ts)
    ensures CompletersInv(HandlerSaveResult(s, i).qm, ts)
  {
    assert HandlerKnows(s.qm.handlers[i], ts);
    PhaseKeepsCompleters(s.qm, i, HandlerSaveResult(s, i).qm.handlers[i].phase, ts);
  }

  lemma SaveStatusKeepsCompleters(s: State, i: nat, ts: set<Token>)
    requires CanHandlerSaveStatus(s, i) && CompletersInv(s.qm, ts)
    ensures CompletersInv(HandlerSaveStatus(s, i).qm, ts + CompletedIn(s, Handling(SHandlerSaveStatus(i))))
  {
    var t := s.qm.handlers[i].msg.token;
    var p := HandlerSaveStatus(s, i).qm.handlers[i].phase;
    assert HandlerKnows(s.qm.handlers[i], ts);
    PhaseKeepsCompleters(s.qm, i, p, ts);
    var qm1 := s.qm.(handlers := s.qm.handlers[i := Handler(s.qm.handlers[i].msg, p)]);
    if p.completed {
      MoreIsKnown(s.qm.queries, s.qm.callbacks, qm1.handlers, ts, t);
      assert qm1.handlers[i].msg.token == t && Decided(qm1.handlers[i]);
      SavedIsKnown(s.qm.queries, t, StatusOf(true), ts + {t});
    } else {
      SavedIsKnown(s.qm.queries, t, StatusOf(false), ts);
      assert ts + {} == ts;
    }
  }

  lemma SavedIsKnown(queries: map<Uuid, QueryRow>, t: Token, status: Status, ts: set<Token>)
    requires QueriesKnown(queries, ts) && (status == COMPLETED ==> t in ts)
    ensures QueriesKnown(SaveStatus(queries, t.queryId, status), ts)
  {
  }

  lemma StartKeepsCompleters(s: State, m: Received, ts: set<Token>)
    requires CompletersInv(s.qm, ts)
    ensures CompletersInv(HandlerStart(s, m).qm, ts)
  {
    var hs := HandlerStart(s, m).qm.handlers;
    forall t | t in ts ensures PastSave(s.qm.done, hs, t) {
      StartKeepsPast(s.qm.done, s.qm.handlers, m, t);
    }
    forall k | 0 <= k < |hs| ensures HandlerKnows(hs[k], ts) {
      if k < |s.qm.handlers| {
        assert hs[k] == s.qm.handlers[k];
      }
    }
  }

  lemma NotifyKeepsCompleters(s: State, i: nat, ts: set<Token>)
    requires CanHandlerNotify(s, i) && CompletersInv(s.qm, ts) && HandlerFits(s.qm.handlers[i], s.qm.queries, s.qm.rows)
    ensures CompletersInv(HandlerNotify(s, i).qm, ts)
  {
    assert HandlerKnows(s.qm.handlers[i], ts);
    RemovedStillKnow(s.qm.handlers, i, ts);
    forall t | t in ts ensures PastSave(HandlerNotify(s, i).qm.done, RemoveAt(s.qm.handlers, i), t) {
      NotifyKeepsPast(s.qm.done, s.qm.handlers, i, t);
    }
  }

  lemma HandleKeepsCompleters(s: State, h: HandleStep, ts: set<Token>)
    requires Conserved(s) && Referenced(s) && HandlersInv(s) && CanHandle(s, h) && CompletersInv(s.qm, ts)
    ensures CompletersInv(AfterHandle(s, h).qm, ts + CompletedIn(s, Handling(h)))
  {
    assert ts + {} == ts;
    match h {
      case SHandlerStart(m) =>
        StartKeepsCompleters(s, m, ts);
        assert AfterHandle(s, h) == HandlerStart(s, m);
      case SHandlerLoad(i) =>
        LoadKeepsCompleters(s, i, ts);
        assert AfterHandle(s, h) == HandlerLoad(s, i);
      case SHandlerRead(i, k) =>
        ReadKeepsCompleters(s, i, k, ts);
        assert AfterHandle(s, h) == HandlerRead(s, i, k);
      case SHandlerSaveStatus(i) =>
        SaveStatusKeepsCompleters(s, i, ts);
        assert AfterHandle(s, h) == HandlerSaveStatus(s, i);
      case SHandlerSaveResult(i) =>
        SaveResultKeepsCompleters(s, i, ts);
        assert AfterHandle(s, h) == HandlerSaveResult(s, i);
      case SHandlerNotify(i) =>
        NotifyKeepsCompleters(s, i, ts);
        assert AfterHandle(s, h) == HandlerNotify(s, i);
    }
  }

  // ----- runs -----

  lemma CreateKeepsCompleters(s: State, c: CreateStep, ts: set<Token>)
    requires Referenced(s) && CanCreate(s, c) && CompletersInv(s.qm, ts)
    ensures CompletersInv(AfterCreate(s, c).qm, ts)
  {
    CreateFrame(s, c);
    CreateCompletesNothing(s, c);
  }

  lemma StepKeepsCompleters(limit: int, s: State, step: Step, ts: set<Token>)
    requires Conserved(s) && Referenced(s) && HandlersInv(s) && Enabled(s, step) && CompletersInv(s.qm, ts)
    ensures CompletersInv(Next(limit, s, step).qm, ts + CompletedIn(s, step))
  {
    match step {
      case Tick(_) => assert ts + {} == ts;
      case Creating(c) => assert ts + {} == ts; CreateKeepsCompleters(s, c, ts);
      case Moving(m) => assert ts + {} == ts; MoveLeavesTables(limit, s, m);
      case Caching(w) => assert ts + {} == ts; WriteFrame(s, w);
      case Handling(h) => HandleKeepsCompleters(s, h, ts);
    }
  }

  lemma {:induction false} RunKeepsCompleters(limit: int, start: int, steps: seq<Step>)
    requires Run(limit, Init(start), steps).Some?
    ensures CompletersInv(Run(limit, Init(start), steps).value.qm, CompletedBy(limit, Init(start), steps))
  {
    if steps != [] {
      var before := steps[..|steps| - 1];
      RunKeepsCompleters(limit, start, before);
      RunKeepsTables(limit, start, before);
      StepKeepsCompleters(limit, Run(limit, Init(start), before).value, steps[|steps| - 1],
                          CompletedBy(limit, Init(start), before));
    }
  }

  /** Under any interleaving, when a callback body says COMPLETED, another handler of the same query has
      completed it: never the one that sends the callback. */
  lemma CompletedBodyNamesAnother(limit: int, start: int, steps: seq<Step>, i: nat)
    requires Run(limit, Init(start), steps).Some?
    requires i < |Run(limit, Init(start), steps).value.qm.callbacks|
    requires Run(limit, Init(start), steps).value.qm.callbacks[i].body.status == COMPLETED
    ensures var c := Run(limit, Init(start), steps).value.qm.callbacks[i];
            exists u :: u in CompletedBy(limit, Init(start), steps) && u.queryId == c.body.id && u != c.trigger
  {
    RunKeepsCompleters(limit, start, steps);
    var s := Run(limit, Init(start), steps).value;
    assert AnotherOf(CompletedBy(limit, Init(start), steps), s.qm.callbacks[i].body.id, s.qm.callbacks[i].trigger);
  }
}
