/** The client of a COMPLETED query is told: a callback was sent, or a handler is on its way to sending it. */
module Notifications {
  import opened Domain
  import opened Protocol
  import opened Frames
  import opened Conservation
  import opened References
  import opened Handlers
  import opened Completion
  import opened Invariants

  predicate AboutToTell(h: Handler, q: Uuid) {
    && h.msg.token.queryId == q
    && (h.phase.StatusSaved? || h.phase.ResultSaved?) && h.phase.completed
  }

  ghost predicate Told(callbacks: seq<Callback>, handlers: seq<Handler>, q: Uuid) {
    || (exists i :: 0 <= i < |callbacks| && callbacks[i].body.id == q)
    || (exists i :: 0 <= i < |handlers| && AboutToTell(handlers[i], q))
  }

  ghost predicate CompletedTold(queries: map<Uuid, QueryRow>, callbacks: seq<Callback>, handlers: seq<Handler>) {
    forall q :: q in queries && queries[q].status == COMPLETED && Notifies(true, queries[q].callbackUrl) ==>
      Told(callbacks, handlers, q)
  }

  ghost predicate NotifiedInv(s: State) {
    CompletedTold(s.qm.queries, s.qm.callbacks, s.qm.handlers)
  }

  // ----- preservation -----

  lemma StartKeepsTold(callbacks: seq<Callback>, handlers: seq<Handler>, m: Received, q: Uuid)
    requires Told(callbacks, handlers, q)
    ensures Told(callbacks, handlers + [Handler(m, SubFound)], q)
  {
    if i :| 0 <= i < |handlers| && AboutToTell(handlers[i], q) {
      assert AboutToTell((handlers + [Handler(m, SubFound)])[i], q);
    }
  }

  /** A handler that keeps what it decided, or had not decided, keeps everybody told. */
  lemma PhaseKeepsTold(callbacks: seq<Callback>, handlers: seq<Handler>, i: nat, p: HandlerPhase, q: Uuid)
    requires i < |handlers| && Told(callbacks, handlers, q)
    requires AboutToTell(handlers[i], q) ==> AboutToTell(Handler(handlers[i].msg, p), q)
    ensures Told(callbacks, handlers[i := Handler(handlers[i].msg, p)], q)
  {
    if k :| 0 <= k < |handlers| && AboutToTell(handlers[k], q) {
      assert AboutToTell(handlers[i := Handler(handlers[i].msg, p)][k], q);
    }
  }

  lemma LoadKeepsNotified(s: State, i: nat)
    requires NotifiedInv(s) && CanHandlerLoad(s, i) && s.qm.handlers[i].msg.token.queryId in s.qm.queries
    ensures NotifiedInv(HandlerLoad(s, i))
  {
    var s' := HandlerLoad(s, i);
    forall q | q in s.qm.queries && s.qm.queries[q].status == COMPLETED && Notifies(true, s.qm.queries[q].callbackUrl)
      ensures Told(s'.qm.callbacks, s'.qm.handlers, q)
    {
      PhaseKeepsTold(s.qm.callbacks, s.qm.handlers, i, s'.qm.handlers[i].phase, q);
    }
  }

  lemma ReadKeepsNotified(s: State, i: nat, k: nat)
    requires NotifiedInv(s) && CanHandlerRead(s, i, k)
    ensures NotifiedInv(HandlerRead(s, i, k))
  {
    var s' := HandlerRead(s, i, k);
    forall q | q in s.qm.queries && s.qm.queries[q].status == COMPLETED && Notifies(true, s.qm.queries[q].callbackUrl)
      ensures Told(s'.qm.callbacks, s'.qm.handlers, q)
    {
      PhaseKeepsTold(s.qm.callbacks, s.qm.handlers, i, s'.qm.handlers[i].phase, q);
    }
  }

  lemma SaveStatusKeepsNotified(s: State, i: nat)
    requires NotifiedInv(s) && CanHandlerSaveStatus(s, i)
    ensures NotifiedInv(HandlerSaveStatus(s, i))
  {
    var s' := HandlerSaveStatus(s, i);
    var h := s.qm.handlers[i];
    forall q |
      q in s'.qm.queries && s'.qm.queries[q].status == COMPLETED && Notifies(true, s'.qm.queries[q].callbackUrl)
      ensures Told(s'.qm.callbacks, s'.qm.handlers, q)
    {
      if q == h.msg.token.queryId {
        assert AboutToTell(s'.qm.handlers[i], q);
      } else {
        PhaseKeepsTold(s.qm.callbacks, s.qm.handlers, i, s'.qm.handlers[i].phase, q);
      }
    }
  }

  lemma SaveResultKeepsNotified(s: State, i: nat)
    requires NotifiedInv(s) && CanHandlerSaveResult(s, i)
    ensures NotifiedInv(HandlerSaveResult(s, i))
  {
    var s' := HandlerSaveResult(s, i);
    forall q | q in s.qm.queries && s.qm.queries[q].status == COMPLETED && Notifies(true, s.qm.queries[q].callbackUrl)
      ensures Told(s'.qm.callbacks, s'.qm.handlers, q)
    {
      PhaseKeepsTold(s.qm.callbacks, s.qm.handlers, i, s'.qm.handlers[i].phase, q);
    }
  }

  /** The handler that ends either tells the client itself, or somebody else did or will. */
  lemma NotifyKeepsTold(s: State, i: nat, q: Uuid)
    requires CanHandlerNotify(s, i) && HandlerFits(s.qm.handlers[i], s.qm.queries, s.qm.rows)
    requires Told(s.qm.callbacks, s.qm.handlers, q) && q in s.qm.queries && Notifies(true, s.qm.queries[q].callbackUrl)
    ensures Told(HandlerNotify(s, i).qm.callbacks, HandlerNotify(s, i).qm.handlers, q)
  {
    var s' := HandlerNotify(s, i);
    if k :| 0 <= k < |s.qm.callbacks| && s.qm.callbacks[k].body.id == q {
      assert s'.qm.callbacks[k] == s.qm.callbacks[k];
    } else {
      var k :| 0 <= k < |s.qm.handlers| && AboutToTell(s.qm.handlers[k], q);
      if s.qm.handlers[k] == s.qm.handlers[i] {
        assert s'.qm.callbacks[|s.qm.callbacks|].body.id == q;
      } else {
        RemoveAtKeeps(s.qm.handlers, i, s.qm.handlers[k]);
        var n :| 0 <= n < |s'.qm.handlers| && s'.qm.handlers[n] == s.qm.handlers[k];
      }
    }
  }

  lemma NotifyKeepsNotified(s: State, i: nat)
    requires NotifiedInv(s) && CanHandlerNotify(s, i) && HandlersFit(s.qm.handlers, s.qm.queries, s.qm.rows)
    ensures NotifiedInv(HandlerNotify(s, i))
  {
    forall q | q in s.qm.queries && s.qm.queries[q].status == COMPLETED && Notifies(true, s.qm.queries[q].callbackUrl)
      ensures Told(HandlerNotify(s, i).qm.callbacks, HandlerNotify(s, i).qm.handlers, q)
    {
      NotifyKeepsTold(s, i, q);
    }
  }

  lemma StartKeepsNotified(s: State, m: Received)
    requires NotifiedInv(s) && m in s.qm.inbox
    ensures NotifiedInv(HandlerStart(s, m))
  {
    forall q | q in s.qm.queries && s.qm.queries[q].status == COMPLETED && Notifies(true, s.qm.queries[q].callbackUrl)
      ensures Told(s.qm.callbacks, s.qm.handlers + [Handler(m, SubFound)], q)
    {
      StartKeepsTold(s.qm.callbacks, s.qm.handlers, m, q);
    }
  }

  lemma HandleKeepsNotified(s: State, h: HandleStep)
    requires Conserved(s) && Referenced(s) && HandlersInv(s) && NotifiedInv(s) && CanHandle(s, h)
    ensures NotifiedInv(AfterHandle(s, h))
  {
    match h {
      case SHandlerStart(m) => StartKeepsNotified(s, m);
      case SHandlerLoad(i) => HandlerNames(s, i); LoadKeepsNotified(s, i);
      case SHandlerRead(i, k) => ReadKeepsNotified(s, i, k);
      case SHandlerSaveStatus(i) => SaveStatusKeepsNotified(s, i);
      case SHandlerSaveResult(i) => SaveResultKeepsNotified(s, i);
      case SHandlerNotify(i) => NotifyKeepsNotified(s, i);
    }
  }

  lemma CreateKeepsNotified(s: State, c: CreateStep)
    requires Referenced(s) && NotifiedInv(s) && CanCreate(s, c)
    ensures NotifiedInv(AfterCreate(s, c))
  {
    CreateFrame(s, c);
    CreateCompletesNothing(s, c);
    CreateIsStable(s, c);
  }

  lemma StepKeepsNotified(limit: int, s: State, step: Step)
    requires Conserved(s) && Referenced(s) && HandlersInv(s) && NotifiedInv(s) && Enabled(s, step)
    ensures NotifiedInv(Next(limit, s, step))
  {
    match step {
      case Tick(_) =>
      case Creating(c) => CreateKeepsNotified(s, c);
      case Moving(m) => MoveLeavesTables(limit, s, m);
      case Caching(w) => WriteFrame(s, w);
      case Handling(h) => HandleKeepsNotified(s, h);
    }
  }

  lemma {:induction false} RunKeepsNotified(limit: int, start: int, steps: seq<Step>)
    requires Run(limit, Init(start), steps).Some?
    ensures NotifiedInv(Run(limit, Init(start), steps).value)
  {
    if steps != [] {
      var before := steps[..|steps| - 1];
      RunKeepsNotified(limit, start, before);
      RunKeepsTables(limit, start, before);
      StepKeepsNotified(limit, Run(limit, Init(start), before).value, steps[|steps| - 1]);
    }
  }

  /** However the handlers interleave, a COMPLETED query with a callback URL has been announced to its
      client, or a handler that will announce it is still at work. */
  lemma CompletedIsAnnounced(limit: int, s: State, q: Uuid)
    requires Reachable(limit, s)
    requires q in s.qm.queries && s.qm.queries[q].status == COMPLETED
    requires s.qm.queries[q].callbackUrl.Some? && s.qm.queries[q].callbackUrl.value != ""
    ensures || (exists i :: 0 <= i < |s.qm.callbacks| && s.qm.callbacks[i].body.id == q)
            || (exists i :: 0 <= i < |s.qm.handlers| && AboutToTell(s.qm.handlers[i], q))
  {
    var start, steps :| Run(limit, Init(start), steps) == Some(s);
    RunKeepsNotified(limit, start, steps);
  }
}
