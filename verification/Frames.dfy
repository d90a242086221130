/** What each service's steps leave alone. */
module Frames {
  import opened Protocol

  /** Apart from an upstream answer, a move stays within the pipe, the limiter and the audit. */
  lemma MoveFrame(limit: int, s: State, m: MoveStep)
    requires CanMove(s, m) && !m.SConnectorFetch?
    ensures var s' := AfterMove(limit, s, m);
            s'.qm == s.qm && s'.cache == s.cache && s'.pipe.received == s.pipe.received
            && s'.audit.calls == s.audit.calls
  {
    match m {
      case SScheduleCheck(_) =>
      case SJobCheck(_) =>
      case SDefer(_) =>
      case SEmitFetch(_) =>
      case SLogUsage(_, _) =>
      case SConnectorRead(_) =>
      case SConnectorFetch(_, _) =>
    }
  }

  lemma MoveEmitsNothing(limit: int, s: State, m: MoveStep)
    requires CanMove(s, m)
    ensures AfterMove(limit, s, m).pipe.emitted == s.pipe.emitted
    ensures AfterMove(limit, s, m).audit.created == s.audit.created
  {
    match m {
      case SScheduleCheck(t) => assert AfterMove(limit, s, m) == ScheduleCheck(limit, s, t);
      case SJobCheck(i) => assert AfterMove(limit, s, m) == JobCheck(limit, s, i);
      case SDefer(t) => assert AfterMove(limit, s, m) == Defer(s, t);
      case SEmitFetch(t) => assert AfterMove(limit, s, m) == EmitFetch(s, t);
      case SLogUsage(t, id) => assert AfterMove(limit, s, m) == LogUsage(s, t, id);
      case SConnectorRead(t) => assert AfterMove(limit, s, m) == ConnectorRead(s, t);
      case SConnectorFetch(t, data) => assert AfterMove(limit, s, m) == ConnectorFetch(s, t, data);
    }
  }

  lemma MoveLeavesTables(limit: int, s: State, m: MoveStep)
    requires CanMove(s, m)
    ensures AfterMove(limit, s, m).qm == s.qm.(inbox := AfterMove(limit, s, m).qm.inbox)
    ensures AfterMove(limit, s, m).cache == s.cache.(inbox := AfterMove(limit, s, m).cache.inbox)
  {
    match m {
      case SScheduleCheck(t) => assert AfterMove(limit, s, m) == ScheduleCheck(limit, s, t);
      case SJobCheck(i) => assert AfterMove(limit, s, m) == JobCheck(limit, s, i);
      case SDefer(t) => assert AfterMove(limit, s, m) == Defer(s, t);
      case SEmitFetch(t) => assert AfterMove(limit, s, m) == EmitFetch(s, t);
      case SLogUsage(t, id) => assert AfterMove(limit, s, m) == LogUsage(s, t, id);
      case SConnectorRead(t) => assert AfterMove(limit, s, m) == ConnectorRead(s, t);
      case SConnectorFetch(t, data) => assert AfterMove(limit, s, m) == ConnectorFetch(s, t, data);
    }
  }

  /** A creation adds no handler and no callback; the only creator it adds is new. */
  lemma CreateFrame(s: State, c: CreateStep)
    requires CanCreate(s, c)
    ensures var qm' := AfterCreate(s, c).qm;
            && qm'.handlers == s.qm.handlers && qm'.callbacks == s.qm.callbacks
            && qm'.done == s.qm.done && qm'.failed == s.qm.failed && qm'.inbox == s.qm.inbox
            && (forall q :: q in qm'.creators ==> q in s.qm.creators || q !in s.qm.owner)
  {
    match c {
      case SCreateStart(q, keys, url) => assert AfterCreate(s, c) == CreateStart(s, q, keys, url);
      case SCreateRead(q, k) => assert AfterCreate(s, c) == CreateRead(s, q, k);
      case SCreateDecide(q) => assert AfterCreate(s, c) == CreateDecide(s, q);
      case SCreateSaveRows(q) => assert AfterCreate(s, c) == CreateSaveRows(s, q);
      case SCreateEmit(q) => assert AfterCreate(s, c) == CreateEmit(s, q);
    }
  }

  lemma CreateLeavesLimiter(s: State, c: CreateStep)
    requires CanCreate(s, c)
    ensures var s' := AfterCreate(s, c);
            s'.lim == s.lim && s'.retries == s.retries && s'.lastRetired == s.lastRetired
  {
    match c {
      case SCreateStart(q, keys, url) => assert AfterCreate(s, c) == CreateStart(s, q, keys, url);
      case SCreateRead(q, k) => assert AfterCreate(s, c) == CreateRead(s, q, k);
      case SCreateDecide(q) => assert AfterCreate(s, c) == CreateDecide(s, q);
      case SCreateSaveRows(q) => assert AfterCreate(s, c) == CreateSaveRows(s, q);
      case SCreateEmit(q) => assert AfterCreate(s, c) == CreateEmit(s, q);
    }
  }

  /** A creation leaves the cache alone, and in the pipe only emits. */
  lemma CreateLeavesCache(s: State, c: CreateStep)
    requires CanCreate(s, c)
    ensures var s' := AfterCreate(s, c);
            s'.cache == s.cache && s'.pipe.dropped == s.pipe.dropped && s'.pipe.received == s.pipe.received
            && s'.audit.calls == s.audit.calls
  {
    match c {
      case SCreateStart(q, keys, url) => assert AfterCreate(s, c) == CreateStart(s, q, keys, url);
      case SCreateRead(q, k) => assert AfterCreate(s, c) == CreateRead(s, q, k);
      case SCreateDecide(q) => assert AfterCreate(s, c) == CreateDecide(s, q);
      case SCreateSaveRows(q) => assert AfterCreate(s, c) == CreateSaveRows(s, q);
      case SCreateEmit(q) => assert AfterCreate(s, c) == CreateEmit(s, q);
    }
  }

  /** Handling a result leaves the cache, the pipe and the audit alone, and creates nothing. */
  lemma HandleFrame(s: State, h: HandleStep)
    requires CanHandle(s, h)
    ensures var s' := AfterHandle(s, h);
            s'.cache == s.cache && s'.pipe == s.pipe && s'.audit == s.audit && s'.lim == s.lim
            && s'.retries == s.retries
            && s'.qm.creators == s.qm.creators && s'.qm.owner == s.qm.owner && s'.qm.responses == s.qm.responses
  {
    match h {
      case SHandlerStart(m) => assert AfterHandle(s, h) == HandlerStart(s, m);
      case SHandlerLoad(i) => assert AfterHandle(s, h) == HandlerLoad(s, i);
      case SHandlerRead(i, k) => assert AfterHandle(s, h) == HandlerRead(s, i, k);
      case SHandlerSaveStatus(i) => assert AfterHandle(s, h) == HandlerSaveStatus(s, i);
      case SHandlerSaveResult(i) => assert AfterHandle(s, h) == HandlerSaveResult(s, i);
      case SHandlerNotify(i) => assert AfterHandle(s, h) == HandlerNotify(s, i);
    }
  }

  /** Only two awaits of a handler write to the tables. */
  lemma HandleLeavesTables(s: State, h: HandleStep)
    requires CanHandle(s, h) && !h.SHandlerSaveStatus? && !h.SHandlerSaveResult?
    ensures AfterHandle(s, h).qm.queries == s.qm.queries && AfterHandle(s, h).qm.rows == s.qm.rows
  {
    match h {
      case SHandlerStart(m) => assert AfterHandle(s, h) == HandlerStart(s, m);
      case SHandlerLoad(i) => assert AfterHandle(s, h) == HandlerLoad(s, i);
      case SHandlerRead(i, k) => assert AfterHandle(s, h) == HandlerRead(s, i, k);
      case SHandlerNotify(i) => assert AfterHandle(s, h) == HandlerNotify(s, i);
    }
  }

  lemma WriteFrame(s: State, w: CacheStep)
    requires CanWrite(s, w)
    ensures AfterWrite(s, w) == s.(cache := AfterWrite(s, w).cache)
  {
    match w {
      case SCacheFind(_) =>
      case SCacheSave(_) =>
    }
  }
}
