/** Rows and tokens name each other correctly: what the query manager's tables keep in every run. */
module References {
  import opened Domain
  import opened Planner
  import opened Protocol
  import opened Frames
  import opened Conservation

  // ----- the invariants -----

  /** Every uuid was drawn for one query; rows and creators use only their own. */
  ghost predicate Owned(owner: map<Uuid, Uuid>, creators: map<Uuid, Creator>, queries: map<Uuid, QueryRow>,
                        rows: map<Uuid, SubRow>) {
    && (forall q :: q in queries ==> q in owner && owner[q] == q)
    && (forall id :: id in rows ==> id in owner && owner[id] == rows[id].queryId)
    && (forall q :: q in creators ==> q in owner && OwnKeys(owner, q, creators[q].keys))
  }

  ghost predicate OwnKeys(owner: map<Uuid, Uuid>, q: Uuid, keys: seq<SubKey>) {
    && owner.Keys >= {q} && owner[q] == q && q != ""
    && (forall i :: 0 <= i < |keys| ==> keys[i].id in owner && owner[keys[i].id] == q)
    && (forall i, j :: 0 <= i < j < |keys| ==> keys[i].id != keys[j].id)
  }

  /** How far a creation has come shows in the tables. */
  ghost predicate CreatorFits(q: Uuid, c: Creator, queries: map<Uuid, QueryRow>, rows: map<Uuid, SubRow>) {
    && |c.seen| == |c.keys|
    && (c.phase == Looking ==> q !in queries)
    && (c.phase != Looking ==> AllRead(c.seen) && !AllTruthy(Answers(q, c.keys, c.seen)) && q in queries)
    && (c.phase == QuerySaved ==> queries[q] == QueryRow(c.callbackUrl, PENDING, []))
    && (c.phase == RowsSaved ==>
          && queries[q] == QueryRow(c.callbackUrl, PENDING, Ids(c.keys))
          && HoldRows(rows, Answers(q, c.keys, c.seen)))
  }

  ghost predicate HoldRows(rows: map<Uuid, SubRow>, ds: seq<SubDto>) {
    forall i :: 0 <= i < |ds| ==> ds[i].id in rows && rows[ds[i].id] == SubRow(ds[i].path, ds[i].result, ds[i].queryId)
  }

  ghost predicate CreatorsFit(creators: map<Uuid, Creator>, queries: map<Uuid, QueryRow>, rows: map<Uuid, SubRow>) {
    forall q :: q in creators ==> CreatorFits(q, creators[q], queries, rows)
  }

  /** The one-to-many relation, read from both sides. */
  ghost predicate Joined(queries: map<Uuid, QueryRow>, rows: map<Uuid, SubRow>) {
    && (forall q, i, j :: q in queries && 0 <= i < j < |queries[q].subs| ==> queries[q].subs[i] != queries[q].subs[j])
    && (forall q, i :: q in queries && 0 <= i < |queries[q].subs| ==>
          queries[q].subs[i] in rows && rows[queries[q].subs[i]].queryId == q)
    && (forall id :: id in rows ==> rows[id].queryId in queries && id in queries[rows[id].queryId].subs)
  }

  /** The row a token was made from, in a query that is stored and announced. */
  ghost predicate Names(t: Token, creators: map<Uuid, Creator>, queries: map<Uuid, QueryRow>, rows: map<Uuid, SubRow>) {
    && t.queryId in queries && t.queryId !in creators
    && t.id in rows && rows[t.id].path == t.path && rows[t.id].queryId == t.queryId
  }

  ghost predicate TokensName(emitted: multiset<Token>, creators: map<Uuid, Creator>, queries: map<Uuid, QueryRow>,
                             rows: map<Uuid, SubRow>) {
    forall t :: t in emitted ==> emitted[t] == 1 && Names(t, creators, queries, rows)
  }

  ghost predicate Referenced(s: State) {
    && Owned(s.qm.owner, s.qm.creators, s.qm.queries, s.qm.rows)
    && CreatorsFit(s.qm.creators, s.qm.queries, s.qm.rows)
    && Joined(s.qm.queries, s.qm.rows)
    && TokensName(s.pipe.emitted, s.qm.creators, s.qm.queries, s.qm.rows)
  }

  // ----- how the tables may change -----

  /** Rows keep their path and their query. */
  ghost predicate RowsStable(rows: map<Uuid, SubRow>, rows': map<Uuid, SubRow>) {
    forall id :: id in rows ==> id in rows' && rows'[id].path == rows[id].path && rows'[id].queryId == rows[id].queryId
  }

  /** Queries whose creation is over keep everything but their status. */
  ghost predicate QueriesStable(creators: map<Uuid, Creator>, queries: map<Uuid, QueryRow>,
                                queries': map<Uuid, QueryRow>) {
    forall q :: q in queries ==> q in queries' && queries'[q].callbackUrl == queries[q].callbackUrl
                                 && (q !in creators ==> queries'[q].subs == queries[q].subs)
  }

  lemma {:induction false} InsertedAt(rows: map<Uuid, SubRow>, ds: seq<SubDto>, i: nat)
    requires i < |ds| && forall j, k :: 0 <= j < k < |ds| ==> ds[j].id != ds[k].id
    ensures ds[i].id in InsertRows(rows, ds)
    ensures InsertRows(rows, ds)[ds[i].id] == SubRow(ds[i].path, ds[i].result, ds[i].queryId)
  {
    var n := |ds| - 1;
    if i < n {
      InsertedAt(rows, ds[..n], i);
    }
  }

  lemma {:induction false} InsertedFrom(rows: map<Uuid, SubRow>, ds: seq<SubDto>, id: Uuid)
    requires id in InsertRows(rows, ds)
    ensures id in rows || exists i :: 0 <= i < |ds| && ds[i].id == id
  {
    if ds != [] && id != ds[|ds| - 1].id {
      var n := |ds| - 1;
      InsertedFrom(rows, ds[..n], id);
      if id !in rows {
        var i :| 0 <= i < n && ds[..n][i].id == id;
        assert ds[i].id == id;
      }
    }
  }

  lemma {:induction false} InsertedElsewhere(rows: map<Uuid, SubRow>, ds: seq<SubDto>, id: Uuid)
    requires id in rows
    ensures id in InsertRows(rows, ds)
    ensures (forall i :: 0 <= i < |ds| ==> ds[i].id != id) ==> InsertRows(rows, ds)[id] == rows[id]
  {
    if ds != [] {
      var n := |ds| - 1;
      InsertedElsewhere(rows, ds[..n], id);
      assert forall i :: 0 <= i < n ==> ds[..n][i].id == ds[i].id;
    }
  }

  lemma InsertRowsEffect(rows: map<Uuid, SubRow>, ds: seq<SubDto>)
    requires forall i, j :: 0 <= i < j < |ds| ==> ds[i].id != ds[j].id
    ensures HoldRows(InsertRows(rows, ds), ds)
    ensures forall id :: id in InsertRows(rows, ds) <==> id in rows || exists i :: 0 <= i < |ds| && ds[i].id == id
    ensures forall id :: id in rows && (forall i :: 0 <= i < |ds| ==> ds[i].id != id) ==>
              InsertRows(rows, ds)[id] == rows[id]
  {
    forall i | 0 <= i < |ds|
      ensures ds[i].id in InsertRows(rows, ds)
      ensures InsertRows(rows, ds)[ds[i].id] == SubRow(ds[i].path, ds[i].result, ds[i].queryId)
    {
      InsertedAt(rows, ds, i);
    }
    forall id | id in InsertRows(rows, ds)
      ensures id in rows || exists i :: 0 <= i < |ds| && ds[i].id == id
    {
      InsertedFrom(rows, ds, id);
    }
    forall id | id in rows
      ensures id in InsertRows(rows, ds)
      ensures (forall i :: 0 <= i < |ds| ==> ds[i].id != id) ==> InsertRows(rows, ds)[id] == rows[id]
    {
      InsertedElsewhere(rows, ds, id);
    }
  }

  /** A row of a query that has no subqueries yet cannot exist. */
  lemma NoRowsYet(s: State, q: Uuid, i: nat)
    requires Referenced(s) && q in s.qm.creators && s.qm.creators[q].phase != RowsSaved && i < |s.qm.creators[q].keys|
    ensures s.qm.creators[q].keys[i].id !in s.qm.rows
  {
    var c := s.qm.creators[q];
    assert CreatorFits(q, c, s.qm.queries, s.qm.rows);
  }

  lemma SaveRowsEffect(s: State, q: Uuid)
    requires Referenced(s) && CanCreateSaveRows(s, q)
    ensures var c := s.qm.creators[q];
            var s' := CreateSaveRows(s, q);
            var ds := Answers(q, c.keys, c.seen);
            && HoldRows(s'.qm.rows, ds)
            && (forall id :: id in s.qm.rows ==> id in s'.qm.rows && s'.qm.rows[id] == s.qm.rows[id])
            && (forall id :: id in s'.qm.rows ==> id in s.qm.rows || exists i :: 0 <= i < |ds| && ds[i].id == id)
            && (forall i :: 0 <= i < |ds| ==> ds[i].id !in s.qm.rows)
  {
    var c := s.qm.creators[q];
    var ds := Answers(q, c.keys, c.seen);
    assert forall i :: 0 <= i < |ds| ==> ds[i].id == c.keys[i].id;
    InsertRowsEffect(s.qm.rows, ds);
    forall i | 0 <= i < |ds| ensures ds[i].id !in s.qm.rows {
      NoRowsYet(s, q, i);
    }
  }

  lemma CreateDecideIsStable(s: State, q: Uuid)
    requires Referenced(s) && CanCreateDecide(s, q)
    ensures RowsStable(s.qm.rows, CreateDecide(s, q).qm.rows)
    ensures QueriesStable(s.qm.creators, s.qm.queries, CreateDecide(s, q).qm.queries)
  {
    assert CreatorFits(q, s.qm.creators[q], s.qm.queries, s.qm.rows);
  }

  lemma CreateSaveRowsIsStable(s: State, q: Uuid)
    requires Referenced(s) && CanCreateSaveRows(s, q)
    ensures RowsStable(s.qm.rows, CreateSaveRows(s, q).qm.rows)
    ensures QueriesStable(s.qm.creators, s.qm.queries, CreateSaveRows(s, q).qm.queries)
  {
    SaveRowsEffect(s, q);
  }

  lemma CreateIsStable(s: State, c: CreateStep)
    requires Referenced(s) && CanCreate(s, c)
    ensures RowsStable(s.qm.rows, AfterCreate(s, c).qm.rows)
    ensures QueriesStable(s.qm.creators, s.qm.queries, AfterCreate(s, c).qm.queries)
  {
    match c {
      case SCreateDecide(q) => CreateDecideIsStable(s, q);
      case SCreateSaveRows(q) => CreateSaveRowsIsStable(s, q);
      case _ =>
    }
  }

  lemma HandleIsStable(s: State, h: HandleStep)
    requires CanHandle(s, h)
    ensures RowsStable(s.qm.rows, AfterHandle(s, h).qm.rows)
    ensures QueriesStable(s.qm.creators, s.qm.queries, AfterHandle(s, h).qm.queries)
  {
    match h {
      case SHandlerStart(m) => assert AfterHandle(s, h) == HandlerStart(s, m);
      case SHandlerLoad(i) => assert AfterHandle(s, h) == HandlerLoad(s, i);
      case SHandlerRead(i, k) => assert AfterHandle(s, h) == HandlerRead(s, i, k);
      case SHandlerSaveStatus(i) => assert AfterHandle(s, h) == HandlerSaveStatus(s, i);
      case SHandlerSaveResult(i) => assert AfterHandle(s, h) == HandlerSaveResult(s, i);
      case SHandlerNotify(i) => assert AfterHandle(s, h) == HandlerNotify(s, i);
    }
  }

  // ----- one handler at a time -----

  lemma CreateStartKeeps(s: State, q: Uuid, keys: seq<SubKey>, url: Option<string>)
    requires Referenced(s) && CanCreateStart(s, q, keys)
    ensures Referenced(CreateStart(s, q, keys, url))
  {
    var s' := CreateStart(s, q, keys, url);
    var ids := Ids(keys);
    forall i | 0 <= i < |keys| ensures keys[i].id in s'.qm.owner && s'.qm.owner[keys[i].id] == q {
      assert ids[i] in ids;
    }
    assert forall id :: id in s.qm.owner ==> id in s'.qm.owner && s'.qm.owner[id] == s.qm.owner[id];
    assert q !in s.qm.queries;
  }

  lemma CreateReadKeeps(s: State, q: Uuid, k: nat)
    requires Referenced(s) && CanCreateRead(s, q, k)
    ensures Referenced(CreateRead(s, q, k))
  {
    assert CreatorFits(q, s.qm.creators[q], s.qm.queries, s.qm.rows);
  }

  lemma CreateDecideKeeps(s: State, q: Uuid)
    requires Referenced(s) && CanCreateDecide(s, q)
    ensures Referenced(CreateDecide(s, q))
  {
    var s' := CreateDecide(s, q);
    assert CreatorFits(q, s.qm.creators[q], s.qm.queries, s.qm.rows);
    forall p | p in s'.qm.creators ensures CreatorFits(p, s'.qm.creators[p], s'.qm.queries, s'.qm.rows) {
      assert CreatorFits(p, s.qm.creators[p], s.qm.queries, s.qm.rows);
    }
  }

  lemma SavedRowsAreListed(s: State, q: Uuid, id: Uuid)
    requires Referenced(s) && CanCreateSaveRows(s, q) && id in CreateSaveRows(s, q).qm.rows
    ensures var qm' := CreateSaveRows(s, q).qm;
            qm'.rows[id].queryId in qm'.queries && id in qm'.queries[qm'.rows[id].queryId].subs
  {
    SaveRowsEffect(s, q);
    var c := s.qm.creators[q];
    var ds := Answers(q, c.keys, c.seen);
    assert CreatorFits(q, c, s.qm.queries, s.qm.rows);
    if id !in s.qm.rows {
      var i :| 0 <= i < |ds| && ds[i].id == id;
      assert CreateSaveRows(s, q).qm.queries[q].subs[i] == id;
    }
  }

  lemma SavedSubsAreDistinct(s: State, q: Uuid, p: Uuid, i: nat, j: nat)
    requires Referenced(s) && CanCreateSaveRows(s, q)
    requires var queries' := CreateSaveRows(s, q).qm.queries; p in queries' && i < j < |queries'[p].subs|
    ensures CreateSaveRows(s, q).qm.queries[p].subs[i] != CreateSaveRows(s, q).qm.queries[p].subs[j]
  {
    if p == q {
      assert OwnKeys(s.qm.owner, q, s.qm.creators[q].keys);
    }
  }

  lemma SavedSubsAreStored(s: State, q: Uuid, p: Uuid, i: nat)
    requires Referenced(s) && CanCreateSaveRows(s, q)
    requires var queries' := CreateSaveRows(s, q).qm.queries; p in queries' && i < |queries'[p].subs|
    ensures var qm' := CreateSaveRows(s, q).qm;
            qm'.queries[p].subs[i] in qm'.rows && qm'.rows[qm'.queries[p].subs[i]].queryId == p
  {
    SaveRowsEffect(s, q);
    if p == q {
      var ds := Answers(q, s.qm.creators[q].keys, s.qm.creators[q].seen);
      assert ds[i].id == CreateSaveRows(s, q).qm.queries[q].subs[i];
    }
  }

  lemma SaveRowsKeepsJoined(s: State, q: Uuid)
    requires Referenced(s) && CanCreateSaveRows(s, q)
    ensures Joined(CreateSaveRows(s, q).qm.queries, CreateSaveRows(s, q).qm.rows)
  {
    var qm' := CreateSaveRows(s, q).qm;
    forall p, i, j | p in qm'.queries && 0 <= i < j < |qm'.queries[p].subs|
      ensures qm'.queries[p].subs[i] != qm'.queries[p].subs[j]
    {
      SavedSubsAreDistinct(s, q, p, i, j);
    }
    forall p, i | p in qm'.queries && 0 <= i < |qm'.queries[p].subs|
      ensures qm'.queries[p].subs[i] in qm'.rows && qm'.rows[qm'.queries[p].subs[i]].queryId == p
    {
      SavedSubsAreStored(s, q, p, i);
    }
    forall id | id in qm'.rows
      ensures qm'.rows[id].queryId in qm'.queries && id in qm'.queries[qm'.rows[id].queryId].subs
    {
      SavedRowsAreListed(s, q, id);
    }
  }

  lemma SaveRowsKeepsOwned(s: State, q: Uuid)
    requires Referenced(s) && CanCreateSaveRows(s, q)
    ensures var qm' := CreateSaveRows(s, q).qm;
            Owned(qm'.owner, qm'.creators, qm'.queries, qm'.rows)
  {
    SaveRowsEffect(s, q);
    var qm' := CreateSaveRows(s, q).qm;
    var ds := Answers(q, s.qm.creators[q].keys, s.qm.creators[q].seen);
    forall id | id in qm'.rows
      ensures id in qm'.owner && qm'.owner[id] == qm'.rows[id].queryId
    {
      if id !in s.qm.rows {
        var i :| 0 <= i < |ds| && ds[i].id == id;
      }
    }
  }

  lemma SaveRowsKeepsCreators(s: State, q: Uuid)
    requires Referenced(s) && CanCreateSaveRows(s, q)
    ensures var s' := CreateSaveRows(s, q);
            CreatorsFit(s'.qm.creators, s'.qm.queries, s'.qm.rows)
  {
    SaveRowsEffect(s, q);
    var s' := CreateSaveRows(s, q);
    forall p | p in s'.qm.creators ensures CreatorFits(p, s'.qm.creators[p], s'.qm.queries, s'.qm.rows) {
      assert CreatorFits(p, s.qm.creators[p], s.qm.queries, s.qm.rows);
    }
  }

  lemma CreateSaveRowsKeeps(s: State, q: Uuid)
    requires Referenced(s) && CanCreateSaveRows(s, q)
    ensures Referenced(CreateSaveRows(s, q))
  {
    SaveRowsEffect(s, q);
    SaveRowsKeepsJoined(s, q);
    SaveRowsKeepsOwned(s, q);
    SaveRowsKeepsCreators(s, q);
  }

  /** The tokens of a plan are new, distinct, and name the rows just stored. */
  lemma PlanNames(s: State, q: Uuid, t: Token)
    requires Referenced(s) && CanCreateEmit(s, q)
    requires t in Plan(Answers(q, s.qm.creators[q].keys, s.qm.creators[q].seen))
    ensures Names(t, s.qm.creators - {q}, s.qm.queries, s.qm.rows) && t.queryId == q
    ensures t !in s.pipe.emitted
    ensures multiset(Plan(Answers(q, s.qm.creators[q].keys, s.qm.creators[q].seen)))[t] == 1
  {
    var c := s.qm.creators[q];
    var ds := Answers(q, c.keys, c.seen);
    assert CreatorFits(q, c, s.qm.queries, s.qm.rows);
    PlanIsMissing(ds, t);
    PlanDistinct(ds);
    CountOfDistinct(Plan(ds), t);
  }

  lemma CreateEmitKeeps(s: State, q: Uuid)
    requires Referenced(s) && CanCreateEmit(s, q)
    ensures Referenced(CreateEmit(s, q))
  {
    var s' := CreateEmit(s, q);
    var plan := Plan(Answers(q, s.qm.creators[q].keys, s.qm.creators[q].seen));
    forall t | t in s'.pipe.emitted
      ensures s'.pipe.emitted[t] == 1 && Names(t, s'.qm.creators, s'.qm.queries, s'.qm.rows)
    {
      if t in plan {
        PlanNames(s, q, t);
      }
    }
    forall p | p in s'.qm.creators ensures CreatorFits(p, s'.qm.creators[p], s'.qm.queries, s'.qm.rows) {
      assert CreatorFits(p, s.qm.creators[p], s.qm.queries, s.qm.rows);
    }
  }

  lemma SaveStatusKeeps(s: State, q: Uuid, status: Status)
    requires Referenced(s) && q !in s.qm.creators
    ensures var queries' := SaveStatus(s.qm.queries, q, status);
            && Owned(s.qm.owner, s.qm.creators, queries', s.qm.rows)
            && CreatorsFit(s.qm.creators, queries', s.qm.rows)
            && Joined(queries', s.qm.rows)
            && TokensName(s.pipe.emitted, s.qm.creators, queries', s.qm.rows)
  {
    var queries' := SaveStatus(s.qm.queries, q, status);
    forall p | p in s.qm.creators ensures CreatorFits(p, s.qm.creators[p], queries', s.qm.rows) {
      assert CreatorFits(p, s.qm.creators[p], s.qm.queries, s.qm.rows);
    }
  }

  lemma SaveResultKeepsCreators(s: State, id: Uuid, result: Json)
    requires CreatorsFit(s.qm.creators, s.qm.queries, s.qm.rows)
             && (id in s.qm.rows ==> s.qm.rows[id].queryId !in s.qm.creators)
    ensures CreatorsFit(s.qm.creators, s.qm.queries, SaveResult(s.qm.rows, id, result))
  {
    forall p | p in s.qm.creators
      ensures CreatorFits(p, s.qm.creators[p], s.qm.queries, SaveResult(s.qm.rows, id, result))
    {
      assert CreatorFits(p, s.qm.creators[p], s.qm.queries, s.qm.rows);
    }
  }

  lemma SaveResultKeepsTables(s: State, id: Uuid, result: Json)
    requires Referenced(s)
    ensures var rows' := SaveResult(s.qm.rows, id, result);
            && Owned(s.qm.owner, s.qm.creators, s.qm.queries, rows')
            && Joined(s.qm.queries, rows')
            && TokensName(s.pipe.emitted, s.qm.creators, s.qm.queries, rows')
  {
    SaveResultIsStable(s.qm.rows, id, result);
    SameRowsJoined(s.qm.queries, s.qm.rows, SaveResult(s.qm.rows, id, result));
  }

  lemma SaveResultIsStable(rows: map<Uuid, SubRow>, id: Uuid, result: Json)
    ensures SaveResult(rows, id, result).Keys == rows.Keys
    ensures RowsStable(rows, SaveResult(rows, id, result))
  {
  }

  lemma SameRowsJoined(queries: map<Uuid, QueryRow>, rows: map<Uuid, SubRow>, rows': map<Uuid, SubRow>)
    requires Joined(queries, rows) && rows'.Keys == rows.Keys && RowsStable(rows, rows')
    ensures Joined(queries, rows')
  {
    forall id | id in rows' ensures rows'[id].queryId in queries && id in queries[rows'[id].queryId].subs {
      assert id in rows;
    }
  }

  // ----- messages name rows too -----

  lemma ReceivedIsEmitted(s: State, m: Received)
    requires Conserved(s) && m in s.pipe.received
    ensures m.token in s.pipe.emitted
  {
    var i :| 0 <= i < |s.pipe.received| && s.pipe.received[i] == m;
    assert ReceivedTokens(s.pipe.received)[i] == m.token;
    assert m.token in multiset(ReceivedTokens(s.pipe.received));
  }

  lemma HandlerIsReceived(s: State, i: nat)
    requires Conserved(s) && i < |s.qm.handlers|
    ensures s.qm.handlers[i].msg in s.pipe.received
  {
    assert HandlerMsgs(s.qm.handlers)[i] == s.qm.handlers[i].msg;
    assert s.qm.handlers[i].msg in multiset(s.pipe.received);
  }

  /** Every message being handled names a stored row of a stored, announced query. */
  lemma HandlerNames(s: State, i: nat)
    requires Conserved(s) && Referenced(s) && i < |s.qm.handlers|
    ensures s.qm.handlers[i].msg.token in s.pipe.emitted
    ensures Names(s.qm.handlers[i].msg.token, s.qm.creators, s.qm.queries, s.qm.rows)
  {
    HandlerIsReceived(s, i);
    ReceivedIsEmitted(s, s.qm.handlers[i].msg);
  }

  lemma InboxNames(s: State, m: Received)
    requires Conserved(s) && Referenced(s) && m in s.qm.inbox
    ensures m.token in s.pipe.emitted && m in s.pipe.received
    ensures Names(m.token, s.qm.creators, s.qm.queries, s.qm.rows)
  {
    assert m in multiset(s.pipe.received);
    ReceivedIsEmitted(s, m);
  }

  // ----- by service -----

  lemma CreateKeepsReferences(s: State, c: CreateStep)
    requires Referenced(s) && CanCreate(s, c)
    ensures Referenced(AfterCreate(s, c))
  {
    match c {
      case SCreateStart(q, keys, url) => CreateStartKeeps(s, q, keys, url);
      case SCreateRead(q, k) => CreateReadKeeps(s, q, k);
      case SCreateDecide(q) => CreateDecideKeeps(s, q);
      case SCreateSaveRows(q) => CreateSaveRowsKeeps(s, q);
      case SCreateEmit(q) => CreateEmitKeeps(s, q);
    }
  }

  lemma HandleKeepsReferences(s: State, h: HandleStep)
    requires Conserved(s) && Referenced(s) && CanHandle(s, h)
    ensures Referenced(AfterHandle(s, h))
  {
    match h {
      case SHandlerSaveStatus(i) =>
        HandlerNames(s, i);
        var p := s.qm.handlers[i].phase;
        SaveStatusKeeps(s, s.qm.handlers[i].msg.token.queryId,
                        StatusOf(AllTruthy(Latest(s.qm.handlers[i].msg, p.keys, p.seen))));
      case SHandlerSaveResult(i) =>
        HandlerNames(s, i);
        SaveResultKeepsCreators(s, s.qm.handlers[i].msg.token.id, s.qm.handlers[i].msg.result);
        SaveResultKeepsTables(s, s.qm.handlers[i].msg.token.id, s.qm.handlers[i].msg.result);
      case _ =>
    }
  }

  lemma StepKeepsReferences(limit: int, s: State, step: Step)
    requires Conserved(s) && Referenced(s) && Enabled(s, step)
    ensures Referenced(Next(limit, s, step))
  {
    match step {
      case Tick(_) =>
      case Creating(c) => CreateKeepsReferences(s, c);
      case Moving(m) => MoveEmitsNothing(limit, s, m); MoveLeavesTables(limit, s, m);
      case Caching(w) => WriteFrame(s, w);
      case Handling(h) => HandleKeepsReferences(s, h);
    }
  }
}
