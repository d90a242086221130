/** Nothing is lost or doubled on the way: each message emitted is in one place of the pipeline. */
module Conservation {
  import opened Domain
  import opened RateLimiter
  import opened Cache
  import opened Protocol
  import opened Frames

  function JobTokens(js: seq<Job>): seq<Token> {
    seq(|js|, i requires 0 <= i < |js| => js[i].token)
  }

  function ReceivedTokens(rs: seq<Received>): seq<Token> {
    seq(|rs|, i requires 0 <= i < |rs| => rs[i].token)
  }

  function WriteMsgs(ws: seq<Write>): seq<Received> {
    seq(|ws|, i requires 0 <= i < |ws| => ws[i].msg)
  }

  function HandlerMsgs(hs: seq<Handler>): seq<Received> {
    seq(|hs|, i requires 0 <= i < |hs| => hs[i].msg)
  }

  lemma JobTokensAppend(js: seq<Job>, j: Job)
    ensures multiset(JobTokens(js + [j])) == multiset(JobTokens(js)) + multiset{j.token}
  {
    assert JobTokens(js + [j]) == JobTokens(js) + [j.token];
  }

  lemma JobTokensRemove(js: seq<Job>, i: nat)
    requires i < |js|
    ensures multiset(JobTokens(RemoveAt(js, i))) == multiset(JobTokens(js)) - multiset{js[i].token}
    ensures js[i].token in multiset(JobTokens(js))
  {
    assert JobTokens(RemoveAt(js, i)) == RemoveAt(JobTokens(js), i);
    RemoveAtMultiset(JobTokens(js), i);
  }

  lemma ReceivedTokensAppend(rs: seq<Received>, r: Received)
    ensures multiset(ReceivedTokens(rs + [r])) == multiset(ReceivedTokens(rs)) + multiset{r.token}
  {
    assert ReceivedTokens(rs + [r]) == ReceivedTokens(rs) + [r.token];
  }

  lemma WriteMsgsAppend(ws: seq<Write>, w: Write)
    ensures multiset(WriteMsgs(ws + [w])) == multiset(WriteMsgs(ws)) + multiset{w.msg}
  {
    assert WriteMsgs(ws + [w]) == WriteMsgs(ws) + [w.msg];
  }

  lemma WriteMsgsRemove(ws: seq<Write>, i: nat)
    requires i < |ws|
    ensures multiset(WriteMsgs(RemoveAt(ws, i))) == multiset(WriteMsgs(ws)) - multiset{ws[i].msg}
    ensures ws[i].msg in multiset(WriteMsgs(ws))
  {
    assert WriteMsgs(RemoveAt(ws, i)) == RemoveAt(WriteMsgs(ws), i);
    RemoveAtMultiset(WriteMsgs(ws), i);
  }

  lemma HandlerMsgsAppend(hs: seq<Handler>, h: Handler)
    ensures multiset(HandlerMsgs(hs + [h])) == multiset(HandlerMsgs(hs)) + multiset{h.msg}
  {
    assert HandlerMsgs(hs + [h]) == HandlerMsgs(hs) + [h.msg];
  }

  lemma HandlerMsgsRemove(hs: seq<Handler>, i: nat)
    requires i < |hs|
    ensures multiset(HandlerMsgs(RemoveAt(hs, i))) == multiset(HandlerMsgs(hs)) - multiset{hs[i].msg}
    ensures hs[i].msg in multiset(HandlerMsgs(hs))
  {
    assert HandlerMsgs(RemoveAt(hs, i)) == RemoveAt(HandlerMsgs(hs), i);
    RemoveAtMultiset(HandlerMsgs(hs), i);
  }

  lemma HandlerMsgsSame(hs: seq<Handler>, i: nat, h: Handler)
    requires i < |hs| && h.msg == hs[i].msg
    ensures HandlerMsgs(hs[i := h]) == HandlerMsgs(hs)
  {
  }

  /** SCHEDULE_FETCH to FETCH. */
  ghost predicate TokensKept(p: Pipe) {
    && p.emitted == p.scheduleInbox + p.denied + p.approved + multiset(JobTokens(p.delayed)) + p.fetched
    && p.fetched == p.trafficInbox + p.logged
    && p.fetched == p.connectorInbox + p.fetching + p.dropped + multiset(ReceivedTokens(p.received))
  }

  /** RECEIVE, at both of its consumers. */
  ghost predicate CacheCopiesKept(received: seq<Received>, c: CacheSide) {
    multiset(received) == c.inbox + multiset(WriteMsgs(c.writes)) + c.done
  }

  ghost predicate QueryCopiesKept(received: seq<Received>, inbox: multiset<Received>, handlers: seq<Handler>,
                                  done: multiset<Received>, failed: multiset<Received>) {
    multiset(received) == inbox + multiset(HandlerMsgs(handlers)) + done + failed
  }

  /** Histories of the same events agree. */
  ghost predicate HistoriesAgree(history: seq<Usage>, logged: multiset<Token>, calls: seq<Call>,
                                 received: seq<Received>) {
    && |history| == |logged|
    && |calls| == |received|
    && forall i :: 0 <= i < |received| ==> calls[i] == Call(received[i].token.path, received[i].result)
  }

  ghost predicate Conserved(s: State) {
    && TokensKept(s.pipe)
    && CacheCopiesKept(s.pipe.received, s.cache)
    && QueryCopiesKept(s.pipe.received, s.qm.inbox, s.qm.handlers, s.qm.done, s.qm.failed)
    && HistoriesAgree(s.lim.history, s.pipe.logged, s.audit.calls, s.pipe.received)
  }

  // ----- tokens, one handler at a time -----

  lemma EmitKeepsTokens(s: State, q: Uuid)
    requires TokensKept(s.pipe) && CanCreateEmit(s, q)
    ensures TokensKept(CreateEmit(s, q).pipe)
  {
  }

  lemma JudgeKeepsTokens(limit: int, s: State, t: Token)
    requires s.pipe.emitted == s.pipe.scheduleInbox + s.pipe.denied + s.pipe.approved
                               + multiset(JobTokens(s.pipe.delayed)) + multiset{t} + s.pipe.fetched
    requires s.pipe.fetched == s.pipe.trafficInbox + s.pipe.logged
    requires s.pipe.fetched == s.pipe.connectorInbox + s.pipe.fetching + s.pipe.dropped
                               + multiset(ReceivedTokens(s.pipe.received))
    ensures TokensKept(Judge(limit, s, t).pipe)
  {
  }

  lemma ScheduleCheckKeepsTokens(limit: int, s: State, t: Token)
    requires TokensKept(s.pipe) && CanScheduleCheck(s, t)
    ensures TokensKept(ScheduleCheck(limit, s, t).pipe)
  {
    JudgeKeepsTokens(limit, s.(pipe := s.pipe.(scheduleInbox := s.pipe.scheduleInbox - multiset{t})), t);
  }

  lemma JobCheckKeepsTokens(limit: int, s: State, i: nat)
    requires TokensKept(s.pipe) && CanJobCheck(s, i)
    ensures TokensKept(JobCheck(limit, s, i).pipe)
  {
    JobTokensRemove(s.pipe.delayed, i);
    JudgeKeepsTokens(limit, s.(pipe := s.pipe.(delayed := RemoveAt(s.pipe.delayed, i))), s.pipe.delayed[i].token);
  }

  lemma DeferKeepsTokens(s: State, t: Token)
    requires TokensKept(s.pipe) && t in s.pipe.denied
    ensures TokensKept(Defer(s, t).pipe)
  {
    JobTokensAppend(s.pipe.delayed, Job(t, s.lim.clock + WINDOW));
  }

  lemma EmitFetchKeepsTokens(s: State, t: Token)
    requires TokensKept(s.pipe) && t in s.pipe.approved
    ensures TokensKept(EmitFetch(s, t).pipe)
  {
  }

  lemma LogUsageKeepsTokens(s: State, t: Token, id: Uuid)
    requires TokensKept(s.pipe) && t in s.pipe.trafficInbox
    ensures TokensKept(LogUsage(s, t, id).pipe)
  {
  }

  lemma ConnectorReadKeepsTokens(s: State, t: Token)
    requires TokensKept(s.pipe) && t in s.pipe.connectorInbox
    ensures TokensKept(ConnectorRead(s, t).pipe)
  {
  }

  lemma ConnectorFetchKeepsTokens(s: State, t: Token, data: Json)
    requires TokensKept(s.pipe) && t in s.pipe.fetching
    ensures TokensKept(ConnectorFetch(s, t, data).pipe)
  {
    ReceivedTokensAppend(s.pipe.received, Received(t, data));
  }

  lemma MoveKeepsTokens(limit: int, s: State, m: MoveStep)
    requires TokensKept(s.pipe) && CanMove(s, m)
    ensures TokensKept(AfterMove(limit, s, m).pipe)
  {
    match m {
      case SScheduleCheck(t) => ScheduleCheckKeepsTokens(limit, s, t);
      case SJobCheck(i) => JobCheckKeepsTokens(limit, s, i);
      case SDefer(t) => DeferKeepsTokens(s, t);
      case SEmitFetch(t) => EmitFetchKeepsTokens(s, t);
      case SLogUsage(t, id) => LogUsageKeepsTokens(s, t, id);
      case SConnectorRead(t) => ConnectorReadKeepsTokens(s, t);
      case SConnectorFetch(t, data) => ConnectorFetchKeepsTokens(s, t, data);
    }
  }

  // ----- RECEIVE copies, one handler at a time -----

  lemma FetchKeepsCopies(s: State, t: Token, data: Json)
    requires CacheCopiesKept(s.pipe.received, s.cache)
    requires QueryCopiesKept(s.pipe.received, s.qm.inbox, s.qm.handlers, s.qm.done, s.qm.failed)
    ensures var s' := ConnectorFetch(s, t, data);
            && CacheCopiesKept(s'.pipe.received, s'.cache)
            && QueryCopiesKept(s'.pipe.received, s'.qm.inbox, s'.qm.handlers, s'.qm.done, s'.qm.failed)
  {
  }

  lemma CacheFindKeepsCopies(s: State, m: Received)
    requires CacheCopiesKept(s.pipe.received, s.cache) && m in s.cache.inbox
    ensures CacheCopiesKept(s.pipe.received, CacheFind(s, m).cache)
  {
    WriteMsgsAppend(s.cache.writes, Write(m, Find(s.cache.docs, m.token.path)));
  }

  lemma CacheSaveKeepsCopies(s: State, i: nat)
    requires CacheCopiesKept(s.pipe.received, s.cache) && i < |s.cache.writes|
    ensures CacheCopiesKept(s.pipe.received, CacheSave(s, i).cache)
  {
    WriteMsgsRemove(s.cache.writes, i);
  }

  lemma HandlerStartKeepsCopies(s: State, m: Received)
    requires QueryCopiesKept(s.pipe.received, s.qm.inbox, s.qm.handlers, s.qm.done, s.qm.failed) && m in s.qm.inbox
    ensures var qm' := HandlerStart(s, m).qm;
            QueryCopiesKept(s.pipe.received, qm'.inbox, qm'.handlers, qm'.done, qm'.failed)
  {
    HandlerMsgsAppend(s.qm.handlers, Handler(m, SubFound));
  }

  lemma HandlerLoadKeepsCopies(s: State, i: nat)
    requires QueryCopiesKept(s.pipe.received, s.qm.inbox, s.qm.handlers, s.qm.done, s.qm.failed) && CanHandlerLoad(s, i)
    ensures var qm' := HandlerLoad(s, i).qm;
            QueryCopiesKept(s.pipe.received, qm'.inbox, qm'.handlers, qm'.done, qm'.failed)
  {
    HandlerMsgsRemove(s.qm.handlers, i);
    if s.qm.handlers[i].msg.token.queryId in s.qm.queries {
      HandlerMsgsSame(s.qm.handlers, i, HandlerLoad(s, i).qm.handlers[i]);
    }
  }

  lemma SetPhaseKeepsCopies(s: State, i: nat, p: HandlerPhase)
    requires QueryCopiesKept(s.pipe.received, s.qm.inbox, s.qm.handlers, s.qm.done, s.qm.failed) && i < |s.qm.handlers|
    ensures QueryCopiesKept(s.pipe.received, s.qm.inbox, SetPhase(s, i, p).qm.handlers, s.qm.done, s.qm.failed)
  {
    HandlerMsgsSame(s.qm.handlers, i, Handler(s.qm.handlers[i].msg, p));
  }

  lemma HandlerNotifyKeepsCopies(s: State, i: nat)
    requires QueryCopiesKept(s.pipe.received, s.qm.inbox, s.qm.handlers, s.qm.done, s.qm.failed)
             && CanHandlerNotify(s, i)
    ensures var qm' := HandlerNotify(s, i).qm;
            QueryCopiesKept(s.pipe.received, qm'.inbox, qm'.handlers, qm'.done, qm'.failed)
  {
    HandlerMsgsRemove(s.qm.handlers, i);
  }

  lemma HandleKeepsCopies(s: State, h: HandleStep)
    requires QueryCopiesKept(s.pipe.received, s.qm.inbox, s.qm.handlers, s.qm.done, s.qm.failed) && CanHandle(s, h)
    ensures var qm' := AfterHandle(s, h).qm;
            QueryCopiesKept(s.pipe.received, qm'.inbox, qm'.handlers, qm'.done, qm'.failed)
  {
    match h {
      case SHandlerStart(m) => HandlerStartKeepsCopies(s, m);
      case SHandlerLoad(i) => HandlerLoadKeepsCopies(s, i);
      case SHandlerRead(i, k) => SetPhaseKeepsCopies(s, i, HandlerRead(s, i, k).qm.handlers[i].phase);
      case SHandlerSaveStatus(i) => SetPhaseKeepsCopies(s, i, HandlerSaveStatus(s, i).qm.handlers[i].phase);
      case SHandlerSaveResult(i) => SetPhaseKeepsCopies(s, i, HandlerSaveResult(s, i).qm.handlers[i].phase);
      case SHandlerNotify(i) => HandlerNotifyKeepsCopies(s, i);
    }
  }

  // ----- all of it, by service -----

  lemma CreateConserves(s: State, c: CreateStep)
    requires Conserved(s) && CanCreate(s, c)
    ensures Conserved(AfterCreate(s, c))
  {
    if c.SCreateEmit? {
      EmitKeepsTokens(s, c.q);
    }
  }

  lemma MoveKeepsHistories(limit: int, s: State, m: MoveStep)
    requires HistoriesAgree(s.lim.history, s.pipe.logged, s.audit.calls, s.pipe.received) && CanMove(s, m)
    ensures var s' := AfterMove(limit, s, m);
            HistoriesAgree(s'.lim.history, s'.pipe.logged, s'.audit.calls, s'.pipe.received)
  {
  }

  lemma MoveConserves(limit: int, s: State, m: MoveStep)
    requires Conserved(s) && CanMove(s, m)
    ensures Conserved(AfterMove(limit, s, m))
  {
    MoveKeepsTokens(limit, s, m);
    MoveKeepsHistories(limit, s, m);
    if m.SConnectorFetch? {
      FetchKeepsCopies(s, m.t, m.data);
    } else {
      MoveFrame(limit, s, m);
    }
  }

  lemma WriteConserves(s: State, w: CacheStep)
    requires Conserved(s) && CanWrite(s, w)
    ensures Conserved(AfterWrite(s, w))
  {
    match w {
      case SCacheFind(m) => CacheFindKeepsCopies(s, m);
      case SCacheSave(i) => CacheSaveKeepsCopies(s, i);
    }
  }

  lemma HandleConserves(s: State, h: HandleStep)
    requires Conserved(s) && CanHandle(s, h)
    ensures Conserved(AfterHandle(s, h))
  {
    HandleKeepsCopies(s, h);
  }

  lemma StepConserves(limit: int, s: State, step: Step)
    requires Conserved(s) && Enabled(s, step)
    ensures Conserved(Next(limit, s, step))
  {
    match step {
      case Tick(_) =>
      case Creating(c) => CreateConserves(s, c);
      case Moving(m) => MoveConserves(limit, s, m);
      case Caching(w) => WriteConserves(s, w);
      case Handling(h) => HandleConserves(s, h);
    }
  }
}
