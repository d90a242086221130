/** Which stored rows have a result, and why the others do not. */
module Rows {
  import opened Domain
  import opened Planner
  import opened Protocol
  import opened Frames
  import opened Conservation
  import opened References
  import opened Handlers
  import opened Completion
  import opened Announcements
  import opened Invariants
  import opened Fates

  /** A result handler has saved the result for row `id`. */
  ghost predicate Saved(done: multiset<Received>, handlers: seq<Handler>, id: Uuid) {
    || (exists m :: m in done && m.token.id == id)
    || (exists i :: 0 <= i < |handlers| && handlers[i].phase.ResultSaved? && handlers[i].msg.token.id == id)
  }

  /** A row has a result exactly if it was created with one or a handler saved one. */
  ghost predicate RowsExplained(created: map<Uuid, seq<SubDto>>, rows: map<Uuid, SubRow>,
                                done: multiset<Received>, handlers: seq<Handler>) {
    forall q, i :: q in created && 0 <= i < |created[q]| && created[q][i].id in rows ==>
      (Truthy(rows[created[q][i].id].result)
       <==> Truthy(created[q][i].result) || Saved(done, handlers, created[q][i].id))
  }

  ghost predicate RowsInv(s: State) {
    TruthyUpstream(s) ==> RowsExplained(s.audit.created, s.qm.rows, s.qm.done, s.qm.handlers)
  }

  lemma MessageIsTruthy(s: State, m: Received)
    requires Conserved(s) && TruthyUpstream(s) && m in s.pipe.received
    ensures Truthy(m.result)
  {
    var i :| 0 <= i < |s.pipe.received| && s.pipe.received[i] == m;
    assert s.audit.calls[i] == Call(m.token.path, m.result);
  }

  // ----- who saved what, handler by handler -----

  lemma SetPhaseSaves(done: multiset<Received>, handlers: seq<Handler>, i: nat, p: HandlerPhase, id: Uuid)
    requires i < |handlers| && (handlers[i].phase.ResultSaved? ==> p.ResultSaved?)
    ensures Saved(done, handlers[i := Handler(handlers[i].msg, p)], id)
            <==> Saved(done, handlers, id) || (p.ResultSaved? && handlers[i].msg.token.id == id)
  {
    var hs := handlers[i := Handler(handlers[i].msg, p)];
    if k :| 0 <= k < |handlers| && handlers[k].phase.ResultSaved? && handlers[k].msg.token.id == id {
      assert hs[k].phase.ResultSaved? && hs[k].msg.token.id == id;
    }
    if p.ResultSaved? && handlers[i].msg.token.id == id {
      assert hs[i].phase.ResultSaved? && hs[i].msg.token.id == id;
    }
  }

  lemma AppendSaves(done: multiset<Received>, handlers: seq<Handler>, m: Received, id: Uuid)
    ensures Saved(done, handlers + [Handler(m, SubFound)], id) <==> Saved(done, handlers, id)
  {
    var hs := handlers + [Handler(m, SubFound)];
    if k :| 0 <= k < |handlers| && handlers[k].phase.ResultSaved? && handlers[k].msg.token.id == id {
      assert hs[k] == handlers[k];
    }
  }

  lemma NotifySaves(done: multiset<Received>, handlers: seq<Handler>, i: nat, id: Uuid)
    requires i < |handlers| && handlers[i].phase.ResultSaved?
    ensures Saved(done + multiset{handlers[i].msg}, RemoveAt(handlers, i), id) <==> Saved(done, handlers, id)
  {
    var hs := RemoveAt(handlers, i);
    var done' := done + multiset{handlers[i].msg};
    if k :| 0 <= k < |handlers| && handlers[k].phase.ResultSaved? && handlers[k].msg.token.id == id {
      if handlers[k] == handlers[i] {
        assert handlers[i].msg in done';
      } else {
        RemoveAtKeeps(handlers, i, handlers[k]);
        var n :| 0 <= n < |hs| && hs[n] == handlers[k];
        assert hs[n].phase.ResultSaved?;
      }
    }
    if m :| m in done && m.token.id == id {
      assert m in done';
    }
    if n :| 0 <= n < |hs| && hs[n].phase.ResultSaved? && hs[n].msg.token.id == id {
      var k :| 0 <= k < |handlers| && handlers[k] == hs[n];
    }
  }

  lemma SaveResultExplains(s: State, i: nat)
    requires Conserved(s) && Referenced(s) && CanHandlerSaveResult(s, i) && TruthyUpstream(s)
    requires RowsExplained(s.audit.created, s.qm.rows, s.qm.done, s.qm.handlers)
    ensures var qm' := HandlerSaveResult(s, i).qm;
            RowsExplained(s.audit.created, qm'.rows, qm'.done, qm'.handlers)
  {
    var m := s.qm.handlers[i].msg;
    var p := s.qm.handlers[i].phase;
    HandlerNames(s, i);
    HandlerIsReceived(s, i);
    MessageIsTruthy(s, m);
    var qm' := HandlerSaveResult(s, i).qm;
    forall q, k | q in s.audit.created && 0 <= k < |s.audit.created[q]| && s.audit.created[q][k].id in qm'.rows
      ensures var d := s.audit.created[q][k];
              Truthy(qm'.rows[d.id].result) <==> Truthy(d.result) || Saved(qm'.done, qm'.handlers, d.id)
    {
      SetPhaseSaves(s.qm.done, s.qm.handlers, i, ResultSaved(p.body, p.completed), s.audit.created[q][k].id);
    }
  }

  lemma SameSavesExplain(created: map<Uuid, seq<SubDto>>, rows: map<Uuid, SubRow>, done: multiset<Received>,
                         handlers: seq<Handler>,
                         done': multiset<Received>, handlers': seq<Handler>)
    requires RowsExplained(created, rows, done, handlers)
    requires forall id :: Saved(done', handlers', id) <==> Saved(done, handlers, id)
    ensures RowsExplained(created, rows, done', handlers')
  {
  }

  /** Apart from saving a result, handling changes neither rows nor who saved them. */
  lemma HandleSaves(s: State, h: HandleStep, id: Uuid)
    requires Conserved(s) && Referenced(s) && HandlersInv(s) && CanHandle(s, h) && !h.SHandlerSaveResult?
    ensures AfterHandle(s, h).qm.rows == s.qm.rows
    ensures Saved(AfterHandle(s, h).qm.done, AfterHandle(s, h).qm.handlers, id) <==> Saved(s.qm.done, s.qm.handlers, id)
  {
    match h {
      case SHandlerStart(m) => AppendSaves(s.qm.done, s.qm.handlers, m, id);
      case SHandlerLoad(i) =>
        HandlerLoadKeeps(s, i);
        SetPhaseSaves(s.qm.done, s.qm.handlers, i, HandlerLoad(s, i).qm.handlers[i].phase, id);
      case SHandlerRead(i, k) =>
        SetPhaseSaves(s.qm.done, s.qm.handlers, i, HandlerRead(s, i, k).qm.handlers[i].phase, id);
      case SHandlerSaveStatus(i) =>
        SetPhaseSaves(s.qm.done, s.qm.handlers, i, HandlerSaveStatus(s, i).qm.handlers[i].phase, id);
      case SHandlerNotify(i) => NotifySaves(s.qm.done, s.qm.handlers, i, id);
    }
  }

  lemma HandleKeepsRows(s: State, h: HandleStep)
    requires Conserved(s) && Referenced(s) && HandlersInv(s) && RowsInv(s) && CanHandle(s, h)
    ensures RowsInv(AfterHandle(s, h))
  {
    HandleFrame(s, h);
    if TruthyUpstream(s) {
      if h.SHandlerSaveResult? {
        SaveResultExplains(s, h.i);
      } else {
        var qm' := AfterHandle(s, h).qm;
        forall id ensures Saved(qm'.done, qm'.handlers, id) <==> Saved(s.qm.done, s.qm.handlers, id) {
          HandleSaves(s, h, id);
        }
        HandleSaves(s, h, "");
        SameSavesExplain(s.audit.created, s.qm.rows, s.qm.done, s.qm.handlers, qm'.done, qm'.handlers);
      }
    }
  }

  // ----- creation -----

  /** No handler has touched a row of a query that is still being created. */
  lemma NothingSavedYet(s: State, q: Uuid, id: Uuid)
    requires Conserved(s) && Referenced(s) && CanCreateEmit(s, q)
    requires id in s.qm.rows && s.qm.rows[id].queryId == q
    ensures !Saved(s.qm.done, s.qm.handlers, id)
  {
    if m :| m in s.qm.done && m.token.id == id {
      assert m in multiset(s.pipe.received);
      ReceivedIsEmitted(s, m);
    }
    if i :| 0 <= i < |s.qm.handlers| && s.qm.handlers[i].phase.ResultSaved? && s.qm.handlers[i].msg.token.id == id {
      HandlerNames(s, i);
    }
  }

  lemma EmitExplains(s: State, q: Uuid)
    requires Conserved(s) && Referenced(s) && CanCreateEmit(s, q)
    requires RowsExplained(s.audit.created, s.qm.rows, s.qm.done, s.qm.handlers)
    ensures RowsExplained(CreateEmit(s, q).audit.created, s.qm.rows, s.qm.done, s.qm.handlers)
  {
    var c := s.qm.creators[q];
    var ds := Answers(q, c.keys, c.seen);
    assert CreatorFits(q, c, s.qm.queries, s.qm.rows);
    forall i | 0 <= i < |ds| && ds[i].id in s.qm.rows
      ensures Truthy(s.qm.rows[ds[i].id].result) <==> Truthy(ds[i].result) || Saved(s.qm.done, s.qm.handlers, ds[i].id)
    {
      assert s.qm.rows[ds[i].id] == SubRow(ds[i].path, ds[i].result, ds[i].queryId);
      NothingSavedYet(s, q, ds[i].id);
    }
  }

  lemma SaveRowsExplains(s: State, q: Uuid)
    requires Referenced(s) && AnnouncedInv(s) && CanCreateSaveRows(s, q)
    requires RowsExplained(s.audit.created, s.qm.rows, s.qm.done, s.qm.handlers)
    ensures RowsExplained(s.audit.created, CreateSaveRows(s, q).qm.rows, s.qm.done, s.qm.handlers)
  {
    SaveRowsEffect(s, q);
    var rows' := CreateSaveRows(s, q).qm.rows;
    forall p, i | p in s.audit.created && 0 <= i < |s.audit.created[p]| && s.audit.created[p][i].id in rows'
      ensures var d := s.audit.created[p][i];
              Truthy(rows'[d.id].result) <==> Truthy(d.result) || Saved(s.qm.done, s.qm.handlers, d.id)
    {
      assert Matches(s.audit.created[p], p, s.qm.queries, s.qm.rows);
    }
  }

  lemma QuietCreation(s: State, c: CreateStep)
    requires CanCreate(s, c) && !c.SCreateSaveRows? && !c.SCreateEmit?
    ensures AfterCreate(s, c).audit == s.audit && AfterCreate(s, c).qm.rows == s.qm.rows
  {
    match c {
      case SCreateStart(q, keys, url) => assert AfterCreate(s, c) == CreateStart(s, q, keys, url);
      case SCreateRead(q, k) => assert AfterCreate(s, c) == CreateRead(s, q, k);
      case SCreateDecide(q) => assert AfterCreate(s, c) == CreateDecide(s, q);
    }
  }

  lemma CreateExplains(s: State, c: CreateStep)
    requires Conserved(s) && Referenced(s) && AnnouncedInv(s) && CanCreate(s, c)
    requires RowsExplained(s.audit.created, s.qm.rows, s.qm.done, s.qm.handlers)
    ensures RowsExplained(AfterCreate(s, c).audit.created, AfterCreate(s, c).qm.rows, s.qm.done, s.qm.handlers)
  {
    if c.SCreateSaveRows? {
      SaveRowsExplains(s, c.q);
      assert AfterCreate(s, c) == CreateSaveRows(s, c.q);
    } else if c.SCreateEmit? {
      EmitExplains(s, c.q);
      assert AfterCreate(s, c) == CreateEmit(s, c.q);
    } else {
      QuietCreation(s, c);
    }
  }

  lemma CreateKeepsRows(s: State, c: CreateStep)
    requires Conserved(s) && Referenced(s) && AnnouncedInv(s) && RowsInv(s) && CanCreate(s, c)
    ensures RowsInv(AfterCreate(s, c))
  {
    CreateLeavesCache(s, c);
    CreateFrame(s, c);
    if TruthyUpstream(s) {
      CreateExplains(s, c);
    }
  }

  lemma CallsWereTruthy(s: State, calls: seq<Call>)
    requires s.audit.calls <= calls && forall i :: 0 <= i < |calls| ==> Truthy(calls[i].value)
    ensures TruthyUpstream(s)
  {
    forall i | 0 <= i < |s.audit.calls| ensures Truthy(s.audit.calls[i].value) {
      assert s.audit.calls[i] == calls[i];
    }
  }

  lemma MoveKeepsRows(limit: int, s: State, m: MoveStep)
    requires RowsInv(s) && CanMove(s, m)
    ensures RowsInv(AfterMove(limit, s, m))
  {
    var s' := AfterMove(limit, s, m);
    MoveLeavesTables(limit, s, m);
    MoveEmitsNothing(limit, s, m);
    MoveReceives(limit, s, m);
    if TruthyUpstream(s') {
      CallsWereTruthy(s, s'.audit.calls);
    }
  }

  lemma StepKeepsRows(limit: int, s: State, step: Step)
    requires Conserved(s) && Referenced(s) && HandlersInv(s) && AnnouncedInv(s) && RowsInv(s) && Enabled(s, step)
    ensures RowsInv(Next(limit, s, step))
  {
    match step {
      case Tick(_) =>
      case Creating(c) => CreateKeepsRows(s, c);
      case Moving(m) => MoveKeepsRows(limit, s, m);
      case Caching(w) => WriteFrame(s, w);
      case Handling(h) => HandleKeepsRows(s, h);
    }
  }

  lemma {:induction false} RunKeepsRows(limit: int, start: int, steps: seq<Step>)
    requires Run(limit, Init(start), steps).Some?
    ensures RowsInv(Run(limit, Init(start), steps).value)
  {
    if steps != [] {
      var before := steps[..|steps| - 1];
      RunKeepsRows(limit, start, before);
      InitIsSafe(start);
      RunKeepsSafe(limit, Init(start), before);
      StepKeepsRows(limit, Run(limit, Init(start), before).value, steps[|steps| - 1]);
    }
  }

  // ----- the classification -----

  /** Why a row of a stored query has no result (yet). */
  datatype Excuse =
    | Outstanding(place: Place)     // its token is still on its way to this row
    | DroppedOnHit                  // its token met a connector cache hit
    | LaterDuplicate                // an earlier missing row of the query has the same path

  ghost predicate Excused(s: State, ds: seq<SubDto>, i: nat, e: Excuse)
    requires i < |ds|
  {
    match e
    case Outstanding(place) =>
      TokenOf(ds[i]) in s.pipe.emitted && At(s, TokenOf(ds[i]), place)
      && !place.Dropped? && !place.AfterSave? && !place.Handled?
    case DroppedOnHit => At(s, TokenOf(ds[i]), Dropped)
    case LaterDuplicate => !Truthy(ds[i].result) && !FirstMissing(ds, i)
  }

  lemma AnnouncedIndex(s: State, q: Uuid, i: nat)
    requires AnnouncedInv(s) && q in s.audit.created && i < |s.audit.created[q]|
    ensures q in s.qm.queries && i < |s.qm.queries[q].subs|
    ensures s.qm.queries[q].subs[i] == s.audit.created[q][i].id && s.audit.created[q][i].id in s.qm.rows
  {
    assert Matches(s.audit.created[q], q, s.qm.queries, s.qm.rows);
  }

  /** A token that was emitted names the first missing row of its path. */
  lemma EmittedIsFirstMissing(s: State, q: Uuid, i: nat)
    requires AnnouncedInv(s) && Joined(s.qm.queries, s.qm.rows) && q in s.audit.created && i < |s.audit.created[q]|
    requires TokenOf(s.audit.created[q][i]) in s.pipe.emitted
    ensures FirstMissing(s.audit.created[q], i)
  {
    var ds := s.audit.created[q];
    AnnouncedIndex(s, q, i);
    PlannedIsEmitted(s.audit.created, s.pipe.emitted, q, TokenOf(ds[i]));
    TokenNamesQuery(s, q, i);
    PlanIsMissing(ds, TokenOf(ds[i]));
    var k :| 0 <= k < |ds| && TokenOf(ds[i]) == TokenOf(ds[k]) && FirstMissing(ds, k);
    AnnouncedIndex(s, q, k);
    assert k == i;
  }

  lemma TokenNamesQuery(s: State, q: Uuid, i: nat)
    requires AnnouncedInv(s) && q in s.audit.created && i < |s.audit.created[q]|
    ensures TokenOf(s.audit.created[q][i]).queryId == q
  {
    assert Matches(s.audit.created[q], q, s.qm.queries, s.qm.rows);
  }

  lemma TokenIffFirstMissing(s: State, q: Uuid, i: nat)
    requires AnnouncedInv(s) && q in s.audit.created && i < |s.audit.created[q]|
    requires Conserved(s) && Referenced(s)
    ensures TokenOf(s.audit.created[q][i]) in s.pipe.emitted <==> FirstMissing(s.audit.created[q], i)
  {
    if FirstMissing(s.audit.created[q], i) {
      MissingIsEmitted(s.audit.created, s.pipe.emitted, q, i);
    }
    if TokenOf(s.audit.created[q][i]) in s.pipe.emitted {
      EmittedIsFirstMissing(s, q, i);
    }
  }

  /** A row's id determines the token made from it. */
  lemma TokenOfRow(s: State, q: Uuid, i: nat, t: Token)
    requires Referenced(s) && AnnouncedInv(s) && q in s.audit.created && i < |s.audit.created[q]|
    requires t in s.pipe.emitted && t.id == s.audit.created[q][i].id
    ensures t == TokenOf(s.audit.created[q][i])
  {
    assert Matches(s.audit.created[q], q, s.qm.queries, s.qm.rows);
    assert Names(t, s.qm.creators, s.qm.queries, s.qm.rows);
  }

  lemma DoneIsEmitted(s: State, m: Received)
    requires Conserved(s) && m in s.qm.done
    ensures m.token in s.pipe.emitted
  {
    assert m in multiset(s.pipe.received);
    ReceivedIsEmitted(s, m);
  }

  lemma DoneRowIsHandled(s: State, q: Uuid, i: nat, m: Received)
    requires Conserved(s) && Referenced(s) && AnnouncedInv(s) && q in s.audit.created && i < |s.audit.created[q]|
    requires m in s.qm.done && m.token.id == s.audit.created[q][i].id
    ensures At(s, TokenOf(s.audit.created[q][i]), Handled)
  {
    DoneIsEmitted(s, m);
    TokenOfRow(s, q, i, m.token);
  }

  lemma SavedRowIsAfterSave(s: State, q: Uuid, i: nat, k: nat)
    requires Conserved(s) && Referenced(s) && AnnouncedInv(s) && q in s.audit.created && i < |s.audit.created[q]|
    requires k < |s.qm.handlers| && s.qm.handlers[k].phase.ResultSaved?
             && s.qm.handlers[k].msg.token.id == s.audit.created[q][i].id
    ensures At(s, TokenOf(s.audit.created[q][i]), AfterSave)
  {
    HandlerNames(s, k);
    TokenOfRow(s, q, i, s.qm.handlers[k].msg.token);
  }

  lemma PastIsSaved(s: State, t: Token)
    requires At(s, t, AfterSave) || At(s, t, Handled)
    ensures Saved(s.qm.done, s.qm.handlers, t.id)
  {
  }

  /** Who saved the row: a handler that ended, or else one that is about to. */
  lemma Saver(done: multiset<Received>, handlers: seq<Handler>, id: Uuid) returns (m: Received, k: nat)
    requires Saved(done, handlers, id)
    ensures (m in done && m.token.id == id)
            || (k < |handlers| && handlers[k].phase.ResultSaved? && handlers[k].msg.token.id == id)
  {
    k := 0;
    if d :| d in done && d.token.id == id {
      m := d;
    } else {
      k :| 0 <= k < |handlers| && handlers[k].phase.ResultSaved? && handlers[k].msg.token.id == id;
      m := handlers[k].msg;
    }
  }

  /** The row's result was saved exactly if its token got past the save. */
  lemma SavedIffPast(s: State, q: Uuid, i: nat)
    requires Conserved(s) && Referenced(s) && AnnouncedInv(s) && q in s.audit.created && i < |s.audit.created[q]|
    ensures var d := s.audit.created[q][i];
            Saved(s.qm.done, s.qm.handlers, d.id) <==> At(s, TokenOf(d), AfterSave) || At(s, TokenOf(d), Handled)
  {
    var d := s.audit.created[q][i];
    if Saved(s.qm.done, s.qm.handlers, d.id) {
      var m, k := Saver(s.qm.done, s.qm.handlers, d.id);
      if m in s.qm.done && m.token.id == d.id {
        DoneRowIsHandled(s, q, i, m);
      } else {
        SavedRowIsAfterSave(s, q, i, k);
      }
    } else if At(s, TokenOf(d), AfterSave) || At(s, TokenOf(d), Handled) {
      PastIsSaved(s, TokenOf(d));
    }
  }

  lemma MissingHasExcuse(s: State, q: Uuid, i: nat) returns (e: Excuse)
    requires Conserved(s) && Referenced(s) && HandlersInv(s) && AnnouncedInv(s) && q in s.audit.created
             && i < |s.audit.created[q]|
    requires RowsExplained(s.audit.created, s.qm.rows, s.qm.done, s.qm.handlers)
    requires var d := s.audit.created[q][i]; d.id in s.qm.rows && !Truthy(s.qm.rows[d.id].result)
    ensures Excused(s, s.audit.created[q], i, e)
  {
    var ds := s.audit.created[q];
    if FirstMissing(ds, i) {
      TokenIffFirstMissing(s, q, i);
      SavedIffPast(s, q, i);
      var place := Somewhere(s, TokenOf(ds[i]));
      e := if place.Dropped? then DroppedOnHit else Outstanding(place);
    } else {
      e := LaterDuplicate;
    }
  }

  lemma ExcuseIsUnique(s: State, q: Uuid, i: nat, e: Excuse, e': Excuse)
    requires Conserved(s) && Referenced(s) && AnnouncedInv(s) && q in s.audit.created && i < |s.audit.created[q]|
    requires Excused(s, s.audit.created[q], i, e) && Excused(s, s.audit.created[q], i, e')
    ensures e == e'
  {
    var t := TokenOf(s.audit.created[q][i]);
    TokenIffFirstMissing(s, q, i);
    if e.DroppedOnHit? || e'.DroppedOnHit? {
      PlacedIsEmitted(s, t, Dropped);
    }
    if !e.LaterDuplicate? && !e'.LaterDuplicate? {
      OnlyOnePlace(s, t, if e.Outstanding? then e.place else Dropped, if e'.Outstanding? then e'.place else Dropped);
    }
  }

  lemma ExcusedIsMissing(s: State, q: Uuid, i: nat, e: Excuse)
    requires Conserved(s) && Referenced(s) && AnnouncedInv(s) && q in s.audit.created && i < |s.audit.created[q]|
    requires RowsExplained(s.audit.created, s.qm.rows, s.qm.done, s.qm.handlers)
    requires Excused(s, s.audit.created[q], i, e) && s.audit.created[q][i].id in s.qm.rows
    ensures !Truthy(s.qm.rows[s.audit.created[q][i].id].result)
  {
    var t := TokenOf(s.audit.created[q][i]);
    TokenIffFirstMissing(s, q, i);
    SavedIffPast(s, q, i);
    if e.DroppedOnHit? {
      PlacedIsEmitted(s, t, Dropped);
    }
    if Saved(s.qm.done, s.qm.handlers, s.audit.created[q][i].id) {
      var past := if At(s, t, AfterSave) then AfterSave else Handled;
      PlacedIsEmitted(s, t, past);
      OnlyOnePlace(s, t, past, if e.Outstanding? then e.place else Dropped);
    }
  }

  lemma ReachableExplained(limit: int, s: State)
    requires Reachable(limit, s) && TruthyUpstream(s)
    ensures RowsExplained(s.audit.created, s.qm.rows, s.qm.done, s.qm.handlers)
  {
    var start, steps :| Run(limit, Init(start), steps) == Some(s);
    RunKeepsRows(limit, start, steps);
  }

  lemma ReachableRows(limit: int, s: State)
    requires Reachable(limit, s)
    ensures Conserved(s) && Referenced(s) && HandlersInv(s) && AnnouncedInv(s)
  {
    ReachableIsSafe(limit, s);
  }

  lemma ExplainedIsClassified(s: State, q: Uuid, i: nat)
    requires Conserved(s) && Referenced(s) && HandlersInv(s) && AnnouncedInv(s) && q in s.audit.created
    requires RowsExplained(s.audit.created, s.qm.rows, s.qm.done, s.qm.handlers)
    requires i < |s.audit.created[q]| && s.audit.created[q][i].id in s.qm.rows
    ensures !Truthy(s.qm.rows[s.audit.created[q][i].id].result) <==> exists e :: Excused(s, s.audit.created[q], i, e)
    ensures forall e, e' :: Excused(s, s.audit.created[q], i, e) && Excused(s, s.audit.created[q], i, e') ==> e == e'
  {
    if !Truthy(s.qm.rows[s.audit.created[q][i].id].result) {
      var e := MissingHasExcuse(s, q, i);
    }
    if e :| Excused(s, s.audit.created[q], i, e) {
      ExcusedIsMissing(s, q, i, e);
    }
    forall e, e' | Excused(s, s.audit.created[q], i, e) && Excused(s, s.audit.created[q], i, e') ensures e == e' {
      ExcuseIsUnique(s, q, i, e, e');
    }
  }

  /** Exact classification, with handlers interleaved at every await: as long as upstream answers are truthy,
      a row of an announced query lacks a result if and only if it has an excuse, and the excuse is unique. */
  lemma RowClassified(limit: int, s: State, q: Uuid, i: nat)
    requires Reachable(limit, s) && TruthyUpstream(s)
    requires q in s.audit.created && i < |s.audit.created[q]|
    ensures q in s.qm.queries && i < |s.qm.queries[q].subs|
    ensures var id := s.qm.queries[q].subs[i];
            && id == s.audit.created[q][i].id && id in s.qm.rows
            && (!Truthy(s.qm.rows[id].result) <==> exists e :: Excused(s, s.audit.created[q], i, e))
    ensures forall e, e' :: Excused(s, s.audit.created[q], i, e) && Excused(s, s.audit.created[q], i, e') ==> e == e'
  {
    ReachableRows(limit, s);
    ReachableExplained(limit, s);
    AnnouncedIndex(s, q, i);
    ExplainedIsClassified(s, q, i);
  }

  // ----- every stored row -----

  /** Why a stored row has no result: its query's tokens are not sent yet, or one of the excuses above. */
  datatype RowExcuse = BeingCreated | Announced(excuse: Excuse)

  /** The creation of `q` stored row `id` and saw no result for its path. */
  ghost predicate Missed(qm: QuerySide, q: Uuid, id: Uuid) {
    q in qm.creators && var c := qm.creators[q];
    exists i :: 0 <= i < |c.keys| && i < |c.seen| && c.keys[i].id == id && !(c.seen[i].Some? && Truthy(c.seen[i].value))
  }

  ghost predicate ExcusedAs(s: State, q: Uuid, id: Uuid, e: Excuse) {
    q in s.audit.created && var ds := s.audit.created[q];
    exists i :: 0 <= i < |ds| && ds[i].id == id && Excused(s, ds, i, e)
  }

  ghost predicate RowExcused(s: State, id: Uuid, e: RowExcuse)
    requires id in s.qm.rows
  {
    match e
    case BeingCreated => Missed(s.qm, s.qm.rows[id].queryId, id)
    case Announced(x) => ExcusedAs(s, s.qm.rows[id].queryId, id, x)
  }

  /** A row belongs to a query whose creation is about to send its tokens, or to an announced one. */
  lemma RowHasQuery(s: State, id: Uuid) returns (i: nat)
    requires Referenced(s) && AnnouncedInv(s) && id in s.qm.rows
    ensures var q := s.qm.rows[id].queryId;
            && q in s.qm.queries && i < |s.qm.queries[q].subs| && s.qm.queries[q].subs[i] == id
            && (q in s.qm.creators ==> s.qm.creators[q].phase == RowsSaved)
            && (q in s.qm.creators <==> q !in s.audit.created)
  {
    var q := s.qm.rows[id].queryId;
    i :| 0 <= i < |s.qm.queries[q].subs| && s.qm.queries[q].subs[i] == id;
    if q in s.qm.creators {
      assert CreatorFits(q, s.qm.creators[q], s.qm.queries, s.qm.rows);
    }
  }

  lemma CreatingRow(s: State, q: Uuid, i: nat)
    requires Referenced(s) && q in s.qm.creators && s.qm.creators[q].phase == RowsSaved && q in s.qm.queries
    requires i < |s.qm.queries[q].subs| && s.qm.queries[q].subs[i] in s.qm.rows
    ensures Missed(s.qm, q, s.qm.queries[q].subs[i]) <==> !Truthy(s.qm.rows[s.qm.queries[q].subs[i]].result)
  {
    var c := s.qm.creators[q];
    var id := s.qm.queries[q].subs[i];
    var ds := Answers(q, c.keys, c.seen);
    assert CreatorFits(q, c, s.qm.queries, s.qm.rows);
    assert OwnKeys(s.qm.owner, q, c.keys);
    assert ds[i].id == c.keys[i].id == id;
    assert s.qm.rows[id] == SubRow(ds[i].path, ds[i].result, ds[i].queryId);
    if k :| 0 <= k < |c.keys| && k < |c.seen| && c.keys[k].id == id && !(c.seen[k].Some? && Truthy(c.seen[k].value)) {
      assert k == i;
    }
  }

  lemma AnnouncedRow(s: State, q: Uuid, i: nat, e: Excuse)
    requires Joined(s.qm.queries, s.qm.rows) && AnnouncedInv(s) && q in s.audit.created && i < |s.audit.created[q]|
    ensures ExcusedAs(s, q, s.audit.created[q][i].id, e) <==> Excused(s, s.audit.created[q], i, e)
  {
    var ds := s.audit.created[q];
    AnnouncedIndex(s, q, i);
    if k :| 0 <= k < |ds| && ds[k].id == ds[i].id && Excused(s, ds, k, e) {
      AnnouncedIndex(s, q, k);
      assert k == i;
    }
  }

  lemma SameExcuses(s: State, q: Uuid, id: Uuid, ds: seq<SubDto>, i: nat)
    requires i < |ds| && id in s.qm.rows
    requires forall e :: ExcusedAs(s, q, id, e) <==> Excused(s, ds, i, e)
    requires !Truthy(s.qm.rows[id].result) <==> exists e :: Excused(s, ds, i, e)
    requires forall e, e' :: Excused(s, ds, i, e) && Excused(s, ds, i, e') ==> e == e'
    ensures !Truthy(s.qm.rows[id].result) <==> exists e :: ExcusedAs(s, q, id, e)
    ensures forall e, e' :: ExcusedAs(s, q, id, e) && ExcusedAs(s, q, id, e') ==> e == e'
  {
    if e :| Excused(s, ds, i, e) {
      assert ExcusedAs(s, q, id, e);
    }
    if e :| ExcusedAs(s, q, id, e) {
      assert Excused(s, ds, i, e);
    }
  }

  lemma AnnouncedRows(s: State, q: Uuid, i: nat)
    requires Joined(s.qm.queries, s.qm.rows) && AnnouncedInv(s) && q in s.audit.created && i < |s.audit.created[q]|
    ensures forall e :: ExcusedAs(s, q, s.audit.created[q][i].id, e) <==> Excused(s, s.audit.created[q], i, e)
  {
    forall e ensures ExcusedAs(s, q, s.audit.created[q][i].id, e) <==> Excused(s, s.audit.created[q], i, e) {
      AnnouncedRow(s, q, i, e);
    }
  }

  /** The same classification, by the row's id. */
  lemma AnnouncedRowClassified(limit: int, s: State, q: Uuid, i: nat)
    requires Reachable(limit, s) && TruthyUpstream(s) && Joined(s.qm.queries, s.qm.rows) && AnnouncedInv(s)
    requires q in s.audit.created && i < |s.audit.created[q]| && s.audit.created[q][i].id in s.qm.rows
    ensures var id := s.audit.created[q][i].id;
            && (!Truthy(s.qm.rows[id].result) <==> exists e :: ExcusedAs(s, q, id, e))
            && (forall e, e' :: ExcusedAs(s, q, id, e) && ExcusedAs(s, q, id, e') ==> e == e')
  {
    RowClassified(limit, s, q, i);
    AnnouncedRows(s, q, i);
    SameExcuses(s, q, s.audit.created[q][i].id, s.audit.created[q], i);
  }

  ghost predicate Classified(s: State, id: Uuid)
    requires id in s.qm.rows
  {
    && (!Truthy(s.qm.rows[id].result) <==> exists e :: RowExcused(s, id, e))
    && (forall e, e' :: RowExcused(s, id, e) && RowExcused(s, id, e') ==> e == e')
  }

  lemma BeingCreatedClassifies(s: State, id: Uuid)
    requires id in s.qm.rows && s.qm.rows[id].queryId !in s.audit.created
    requires Missed(s.qm, s.qm.rows[id].queryId, id) <==> !Truthy(s.qm.rows[id].result)
    ensures Classified(s, id)
  {
    assert RowExcused(s, id, BeingCreated) <==> Missed(s.qm, s.qm.rows[id].queryId, id);
    forall x: Excuse ensures !RowExcused(s, id, Announced(x)) {
    }
  }

  lemma AnnouncedClassifies(s: State, id: Uuid)
    requires id in s.qm.rows && s.qm.rows[id].queryId !in s.qm.creators
    requires !Truthy(s.qm.rows[id].result) <==> exists e :: ExcusedAs(s, s.qm.rows[id].queryId, id, e)
    requires forall e, e' :: ExcusedAs(s, s.qm.rows[id].queryId, id, e) && ExcusedAs(s, s.qm.rows[id].queryId, id, e')
                             ==> e == e'
    ensures Classified(s, id)
  {
    assert !RowExcused(s, id, BeingCreated);
    forall x: Excuse ensures RowExcused(s, id, Announced(x)) <==> ExcusedAs(s, s.qm.rows[id].queryId, id, x) {
    }
    if x :| ExcusedAs(s, s.qm.rows[id].queryId, id, x) {
      assert RowExcused(s, id, Announced(x));
    }
  }

  lemma MatchingIndex(s: State, q: Uuid, i: nat)
    requires AnnouncedInv(s) && q in s.audit.created && q in s.qm.queries && i < |s.qm.queries[q].subs|
    ensures i < |s.audit.created[q]| && s.audit.created[q][i].id == s.qm.queries[q].subs[i]
  {
    assert Matches(s.audit.created[q], q, s.qm.queries, s.qm.rows);
  }

  lemma RowClassifies(limit: int, s: State, id: Uuid)
    requires Reachable(limit, s) && TruthyUpstream(s) && id in s.qm.rows
    ensures Classified(s, id)
  {
    ReachableRows(limit, s);
    var i := RowHasQuery(s, id);
    if s.qm.rows[id].queryId in s.qm.creators {
      CreatingRow(s, s.qm.rows[id].queryId, i);
      BeingCreatedClassifies(s, id);
    } else {
      MatchingIndex(s, s.qm.rows[id].queryId, i);
      AnnouncedRowClassified(limit, s, s.qm.rows[id].queryId, i);
      AnnouncedClassifies(s, id);
    }
  }

  /** The classification covers every stored row: it lacks a result if and only if it has an excuse, and the
      excuse is unique. */
  lemma EveryRowClassified(limit: int, s: State)
    requires Reachable(limit, s) && TruthyUpstream(s)
    ensures forall id :: id in s.qm.rows ==>
              && (!Truthy(s.qm.rows[id].result) <==> exists e :: RowExcused(s, id, e))
              && (forall e, e' :: RowExcused(s, id, e) && RowExcused(s, id, e') ==> e == e')
  {
    forall id | id in s.qm.rows ensures Classified(s, id) {
      RowClassifies(limit, s, id);
    }
  }
}
