/** Where results come from: a truthy result held for a path anywhere was answered by upstream for that path. */
module Provenance {
  import opened Domain
  import opened Cache
  import opened Protocol
  import opened Frames
  import opened Conservation
  import opened References
  import opened Completion

  ghost predicate Came(calls: seq<Call>, path: Path, value: Json) {
    Truthy(value) ==> Call(path, value) in calls
  }

  ghost predicate DocsCame(calls: seq<Call>, docs: seq<Doc>) {
    forall i :: 0 <= i < |docs| ==> Came(calls, docs[i].path, docs[i].value)
  }

  ghost predicate SeenCame(calls: seq<Call>, keys: seq<SubKey>, seen: seq<Option<Json>>) {
    forall k :: 0 <= k < |seen| && k < |keys| && seen[k].Some? ==> Came(calls, keys[k].path, seen[k].value)
  }

  ghost predicate DtosCame(calls: seq<Call>, ds: seq<SubDto>) {
    forall i :: 0 <= i < |ds| ==> Came(calls, ds[i].path, ds[i].result)
  }

  ghost predicate CreatorsCame(calls: seq<Call>, creators: map<Uuid, Creator>) {
    forall q :: q in creators ==> SeenCame(calls, creators[q].keys, creators[q].seen)
  }

  ghost predicate HandlerCame(calls: seq<Call>, h: Handler) {
    match h.phase
    case SubFound => true
    case Reading(_, _, keys, seen) => SeenCame(calls, keys, seen)
    case StatusSaved(body, _) => DtosCame(calls, body.subqueries)
    case ResultSaved(body, _) => DtosCame(calls, body.subqueries)
  }

  ghost predicate HandlersCame(calls: seq<Call>, handlers: seq<Handler>) {
    forall i :: 0 <= i < |handlers| ==> HandlerCame(calls, handlers[i])
  }

  ghost predicate RowsCame(calls: seq<Call>, rows: map<Uuid, SubRow>) {
    forall id :: id in rows ==> Came(calls, rows[id].path, rows[id].result)
  }

  ghost predicate AnswersCame(calls: seq<Call>, responses: seq<Response>) {
    forall i :: 0 <= i < |responses| ==> DtosCame(calls, responses[i].subqueries)
  }

  ghost predicate PostsCame(calls: seq<Call>, callbacks: seq<Callback>) {
    forall i :: 0 <= i < |callbacks| ==> DtosCame(calls, callbacks[i].body.subqueries)
  }

  ghost predicate ProvenanceInv(s: State) {
    && DocsCame(s.audit.calls, s.cache.docs)
    && CreatorsCame(s.audit.calls, s.qm.creators)
    && HandlersCame(s.audit.calls, s.qm.handlers)
    && RowsCame(s.audit.calls, s.qm.rows)
    && AnswersCame(s.audit.calls, s.qm.responses)
    && PostsCame(s.audit.calls, s.qm.callbacks)
  }

  /** Messages carry what upstream answered for their path. */
  lemma MessageCame(s: State, m: Received)
    requires Conserved(s) && m in s.pipe.received
    ensures Came(s.audit.calls, m.token.path, m.result)
  {
    var i :| 0 <= i < |s.pipe.received| && s.pipe.received[i] == m;
    assert s.audit.calls[i] == Call(m.token.path, m.result);
  }

  lemma ReadCame(calls: seq<Call>, docs: seq<Doc>, path: Path)
    requires DocsCame(calls, docs)
    ensures Came(calls, path, Read(docs, path))
  {
  }

  lemma SawCame(calls: seq<Call>, docs: seq<Doc>, keys: seq<SubKey>, seen: seq<Option<Json>>, k: nat)
    requires DocsCame(calls, docs) && SeenCame(calls, keys, seen) && k < |keys| && k < |seen|
    ensures SeenCame(calls, keys, seen[k := Some(Read(docs, keys[k].path))])
  {
    ReadCame(calls, docs, keys[k].path);
  }

  lemma AnswersAreSeen(calls: seq<Call>, q: Uuid, keys: seq<SubKey>, seen: seq<Option<Json>>)
    requires SeenCame(calls, keys, seen)
    ensures DtosCame(calls, Answers(q, keys, seen))
  {
  }

  lemma SaveCame(s: State, i: nat)
    requires Conserved(s) && ProvenanceInv(s) && i < |s.cache.writes|
    ensures DocsCame(s.audit.calls, CacheSave(s, i).cache.docs)
  {
    var w := s.cache.writes[i];
    assert WriteMsgs(s.cache.writes)[i] == w.msg;
    assert w.msg in multiset(WriteMsgs(s.cache.writes));
    assert w.msg in multiset(s.pipe.received);
    MessageCame(s, w.msg);
  }

  lemma CallsGrow(s: State, calls: seq<Call>)
    requires ProvenanceInv(s) && s.audit.calls <= calls
    ensures ProvenanceInv(s.(audit := s.audit.(calls := calls)))
  {
    forall c | c in s.audit.calls ensures c in calls {
      var i :| 0 <= i < |s.audit.calls| && s.audit.calls[i] == c;
      assert calls[i] == c;
    }
  }

  // ----- creation -----

  lemma InsertedCame(s: State, q: Uuid)
    requires Referenced(s) && ProvenanceInv(s) && CanCreateSaveRows(s, q)
    ensures RowsCame(s.audit.calls, CreateSaveRows(s, q).qm.rows)
  {
    var c := s.qm.creators[q];
    var ds := Answers(q, c.keys, c.seen);
    SaveRowsEffect(s, q);
    AnswersAreSeen(s.audit.calls, q, c.keys, c.seen);
    var rows' := CreateSaveRows(s, q).qm.rows;
    forall id | id in rows'
      ensures Came(s.audit.calls, rows'[id].path, rows'[id].result)
    {
      if id !in s.qm.rows {
        var i :| 0 <= i < |ds| && ds[i].id == id;
        assert rows'[id] == SubRow(ds[i].path, ds[i].result, ds[i].queryId);
      }
    }
  }

  lemma CreateKeepsCreatorsCame(s: State, c: CreateStep)
    requires ProvenanceInv(s) && CanCreate(s, c)
    ensures CreatorsCame(s.audit.calls, AfterCreate(s, c).qm.creators)
  {
    match c {
      case SCreateStart(_, _, _) =>
      case SCreateRead(q, k) =>
        SawCame(s.audit.calls, s.cache.docs, s.qm.creators[q].keys, s.qm.creators[q].seen, k);
      case SCreateDecide(_) =>
      case SCreateSaveRows(_) =>
      case SCreateEmit(_) =>
    }
  }

  lemma CreateKeepsAnswersCame(s: State, c: CreateStep)
    requires ProvenanceInv(s) && CanCreate(s, c)
    ensures AnswersCame(s.audit.calls, AfterCreate(s, c).qm.responses)
  {
    match c {
      case SCreateStart(_, _, _) =>
      case SCreateRead(_, _) =>
      case SCreateDecide(q) => AnswersAreSeen(s.audit.calls, q, s.qm.creators[q].keys, s.qm.creators[q].seen);
      case SCreateSaveRows(_) =>
      case SCreateEmit(q) => AnswersAreSeen(s.audit.calls, q, s.qm.creators[q].keys, s.qm.creators[q].seen);
    }
  }

  lemma CreateKeepsRowsCame(s: State, c: CreateStep)
    requires Referenced(s) && ProvenanceInv(s) && CanCreate(s, c)
    ensures RowsCame(s.audit.calls, AfterCreate(s, c).qm.rows)
  {
    match c {
      case SCreateStart(_, _, _) =>
      case SCreateRead(_, _) =>
      case SCreateDecide(_) =>
      case SCreateSaveRows(q) => InsertedCame(s, q);
      case SCreateEmit(_) =>
    }
  }

  lemma CreateKeepsProvenance(s: State, c: CreateStep)
    requires Referenced(s) && ProvenanceInv(s) && CanCreate(s, c)
    ensures ProvenanceInv(AfterCreate(s, c))
  {
    CreateKeepsCreatorsCame(s, c);
    CreateKeepsAnswersCame(s, c);
    CreateKeepsRowsCame(s, c);
    CreateFrame(s, c);
    CreateLeavesCache(s, c);
  }

  // ----- result handling -----

  lemma LatestCame(s: State, i: nat)
    requires Conserved(s) && ProvenanceInv(s) && CanHandlerSaveStatus(s, i)
    ensures DtosCame(s.audit.calls,
                     Latest(s.qm.handlers[i].msg, s.qm.handlers[i].phase.keys, s.qm.handlers[i].phase.seen))
  {
    var h := s.qm.handlers[i];
    HandlerIsReceived(s, i);
    MessageCame(s, h.msg);
    assert HandlerCame(s.audit.calls, h);
    AnswersAreSeen(s.audit.calls, h.msg.token.queryId, h.phase.keys, h.phase.seen);
  }

  lemma PhaseCame(calls: seq<Call>, handlers: seq<Handler>, i: nat, p: HandlerPhase)
    requires i < |handlers| && HandlersCame(calls, handlers) && HandlerCame(calls, Handler(handlers[i].msg, p))
    ensures HandlersCame(calls, handlers[i := Handler(handlers[i].msg, p)])
  {
  }

  lemma ReadsCame(s: State, i: nat, k: nat)
    requires ProvenanceInv(s) && CanHandlerRead(s, i, k)
    ensures HandlersCame(s.audit.calls, HandlerRead(s, i, k).qm.handlers)
  {
    var h := s.qm.handlers[i];
    assert HandlerCame(s.audit.calls, h);
    SawCame(s.audit.calls, s.cache.docs, h.phase.keys, h.phase.seen, k);
    PhaseCame(s.audit.calls, s.qm.handlers, i, HandlerRead(s, i, k).qm.handlers[i].phase);
  }

  lemma LoadsCame(s: State, i: nat)
    requires HandlersCame(s.audit.calls, s.qm.handlers) && CanHandlerLoad(s, i)
    ensures HandlersCame(s.audit.calls, HandlerLoad(s, i).qm.handlers)
  {
    RemovedCame(s.audit.calls, s.qm.handlers, i);
    if s.qm.handlers[i].msg.token.queryId in s.qm.queries {
      PhaseCame(s.audit.calls, s.qm.handlers, i, HandlerLoad(s, i).qm.handlers[i].phase);
    }
  }

  lemma SavesCame(s: State, i: nat)
    requires HandlersCame(s.audit.calls, s.qm.handlers) && CanHandlerSaveResult(s, i)
    ensures HandlersCame(s.audit.calls, HandlerSaveResult(s, i).qm.handlers)
  {
    assert HandlerCame(s.audit.calls, s.qm.handlers[i]);
    PhaseCame(s.audit.calls, s.qm.handlers, i, HandlerSaveResult(s, i).qm.handlers[i].phase);
  }

  lemma HandleKeepsHandlersCame(s: State, h: HandleStep)
    requires Conserved(s) && ProvenanceInv(s) && CanHandle(s, h)
    ensures HandlersCame(s.audit.calls, AfterHandle(s, h).qm.handlers)
  {
    match h {
      case SHandlerStart(m) => assert AfterHandle(s, h) == HandlerStart(s, m);
      case SHandlerLoad(i) => LoadsCame(s, i);
      case SHandlerRead(i, k) => ReadsCame(s, i, k);
      case SHandlerSaveStatus(i) =>
        LatestCame(s, i);
        PhaseCame(s.audit.calls, s.qm.handlers, i, HandlerSaveStatus(s, i).qm.handlers[i].phase);
      case SHandlerSaveResult(i) => SavesCame(s, i);
      case SHandlerNotify(i) => RemovedCame(s.audit.calls, s.qm.handlers, i);
    }
  }

  lemma RemovedCame(calls: seq<Call>, handlers: seq<Handler>, i: nat)
    requires HandlersCame(calls, handlers) && i < |handlers|
    ensures HandlersCame(calls, RemoveAt(handlers, i))
  {
    var hs := RemoveAt(handlers, i);
    forall k | 0 <= k < |hs| ensures HandlerCame(calls, hs[k]) {
      assert hs[k] in handlers;
    }
  }

  lemma SavedRowCame(s: State, i: nat)
    requires Conserved(s) && RowsCame(s.audit.calls, s.qm.rows) && CanHandlerSaveResult(s, i)
    requires s.qm.handlers[i].msg.token.id in s.qm.rows
    requires s.qm.rows[s.qm.handlers[i].msg.token.id].path == s.qm.handlers[i].msg.token.path
    ensures RowsCame(s.audit.calls, HandlerSaveResult(s, i).qm.rows)
  {
    HandlerIsReceived(s, i);
    MessageCame(s, s.qm.handlers[i].msg);
  }

  lemma HandleKeepsRowsCame(s: State, h: HandleStep)
    requires Conserved(s) && Referenced(s) && ProvenanceInv(s) && CanHandle(s, h)
    ensures RowsCame(s.audit.calls, AfterHandle(s, h).qm.rows)
  {
    match h {
      case SHandlerStart(_) => HandleLeavesTables(s, h);
      case SHandlerLoad(_) => HandleLeavesTables(s, h);
      case SHandlerRead(_, _) => HandleLeavesTables(s, h);
      case SHandlerSaveStatus(i) => assert AfterHandle(s, h) == HandlerSaveStatus(s, i);
      case SHandlerSaveResult(i) =>
        HandlerNames(s, i);
        SavedRowCame(s, i);
      case SHandlerNotify(_) => HandleLeavesTables(s, h);
    }
  }

  lemma HandleKeepsPostsCame(s: State, h: HandleStep)
    requires ProvenanceInv(s) && CanHandle(s, h)
    ensures PostsCame(s.audit.calls, AfterHandle(s, h).qm.callbacks)
  {
    match h {
      case SHandlerStart(_) =>
      case SHandlerLoad(_) =>
      case SHandlerRead(_, _) =>
      case SHandlerSaveStatus(_) =>
      case SHandlerSaveResult(_) =>
      case SHandlerNotify(i) => assert HandlerCame(s.audit.calls, s.qm.handlers[i]);
    }
  }

  lemma HandleKeepsProvenance(s: State, h: HandleStep)
    requires Conserved(s) && Referenced(s) && ProvenanceInv(s) && CanHandle(s, h)
    ensures ProvenanceInv(AfterHandle(s, h))
  {
    HandleKeepsHandlersCame(s, h);
    HandleKeepsRowsCame(s, h);
    HandleKeepsPostsCame(s, h);
    HandleFrame(s, h);
  }

  lemma StepKeepsProvenance(limit: int, s: State, step: Step)
    requires Conserved(s) && Referenced(s) && ProvenanceInv(s) && Enabled(s, step)
    ensures ProvenanceInv(Next(limit, s, step))
  {
    match step {
      case Tick(_) =>
      case Creating(c) => CreateKeepsProvenance(s, c);
      case Moving(m) => MoveLeavesTables(limit, s, m); MoveReceives(limit, s, m);
                        CallsGrow(s, Next(limit, s, step).audit.calls);
      case Caching(SCacheFind(_)) =>
      case Caching(SCacheSave(i)) => SaveCame(s, i);
      case Handling(h) => HandleKeepsProvenance(s, h);
    }
  }
}
