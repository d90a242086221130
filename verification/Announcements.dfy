/** What a query was created with, and the tokens that came of it. */
module Announcements {
  import opened Domain
  import opened Planner
  import opened Protocol
  import opened Frames
  import opened References

  /** The answer the creation gave lists the stored rows of the query in order. */
  ghost predicate Matches(ds: seq<SubDto>, q: Uuid, queries: map<Uuid, QueryRow>, rows: map<Uuid, SubRow>) {
    && q in queries && |ds| == |queries[q].subs|
    && forall i :: 0 <= i < |ds| ==>
         && ds[i].id == queries[q].subs[i] && ds[i].queryId == q
         && ds[i].id in rows && ds[i].path == rows[ds[i].id].path
  }

  ghost predicate CreatedMatch(created: map<Uuid, seq<SubDto>>, creators: map<Uuid, Creator>,
                               queries: map<Uuid, QueryRow>, rows: map<Uuid, SubRow>) {
    && (forall q :: q in queries ==> q in creators || q in created)
    && (forall q :: q in created ==> q !in creators && Matches(created[q], q, queries, rows) && !AllTruthy(created[q]))
  }

  function Plans(created: map<Uuid, seq<SubDto>>): map<Uuid, seq<Token>> {
    map q | q in created :: Plan(created[q])
  }

  ghost predicate TokensPlanned(plans: map<Uuid, seq<Token>>, emitted: multiset<Token>) {
    && (forall t :: t in emitted ==> t.queryId in plans && t in plans[t.queryId])
    && (forall q, t :: q in plans && t in plans[q] ==> t in emitted)
  }

  /** The tokens emitted for a query are exactly its plan. */
  ghost predicate PlansEmitted(created: map<Uuid, seq<SubDto>>, emitted: multiset<Token>) {
    TokensPlanned(Plans(created), emitted)
  }

  ghost predicate AnnouncedInv(s: State) {
    && CreatedMatch(s.audit.created, s.qm.creators, s.qm.queries, s.qm.rows)
    && PlansEmitted(s.audit.created, s.pipe.emitted)
  }

  lemma MatchesStable(ds: seq<SubDto>, q: Uuid, creators: map<Uuid, Creator>, queries: map<Uuid, QueryRow>,
                      rows: map<Uuid, SubRow>,
                      queries': map<Uuid, QueryRow>, rows': map<Uuid, SubRow>)
    requires RowsStable(rows, rows') && QueriesStable(creators, queries, queries') && q !in creators
    requires Matches(ds, q, queries, rows)
    ensures Matches(ds, q, queries', rows')
  {
  }

  /** Queries come into the table only from their creators. */
  lemma CreateKeepsMatch(s: State, c: CreateStep)
    requires Referenced(s) && AnnouncedInv(s) && CanCreate(s, c) && !c.SCreateEmit?
    ensures var s' := AfterCreate(s, c);
            CreatedMatch(s'.audit.created, s'.qm.creators, s'.qm.queries, s'.qm.rows)
  {
    var s' := AfterCreate(s, c);
    CreateIsStable(s, c);
    CreateTables(s, c);
    forall q | q in s.audit.created
      ensures Matches(s.audit.created[q], q, s'.qm.queries, s'.qm.rows)
    {
      MatchesStable(s.audit.created[q], q, s.qm.creators, s.qm.queries, s.qm.rows, s'.qm.queries, s'.qm.rows);
    }
  }

  lemma CreateTables(s: State, c: CreateStep)
    requires Referenced(s) && CanCreate(s, c) && !c.SCreateEmit?
    ensures var s' := AfterCreate(s, c);
            && s'.audit == s.audit && s'.pipe == s.pipe
            && (forall q :: q in s'.qm.creators ==> q in s.qm.creators || q !in s.qm.queries)
            && (forall q :: q in s'.qm.queries ==> q in s.qm.queries || q in s'.qm.creators)
            && (forall q :: q in s.qm.creators && q in s'.qm.queries ==> q in s'.qm.creators)
  {
    match c {
      case SCreateStart(_, _, _) =>
      case SCreateRead(_, _) =>
      case SCreateDecide(q) => assert CreatorFits(q, s.qm.creators[q], s.qm.queries, s.qm.rows);
      case SCreateSaveRows(_) =>
    }
  }

  lemma OneMoreCreated(created: map<Uuid, seq<SubDto>>, creators: map<Uuid, Creator>, queries: map<Uuid, QueryRow>,
                       rows: map<Uuid, SubRow>, q: Uuid, ds: seq<SubDto>)
    requires CreatedMatch(created, creators, queries, rows) && q in creators
    requires Matches(ds, q, queries, rows) && !AllTruthy(ds)
    ensures CreatedMatch(created[q := ds], creators - {q}, queries, rows)
  {
  }

  lemma EmittedMatches(s: State, q: Uuid)
    requires CreatorsFit(s.qm.creators, s.qm.queries, s.qm.rows) && CanCreateEmit(s, q)
    ensures var ds := Answers(q, s.qm.creators[q].keys, s.qm.creators[q].seen);
            Matches(ds, q, s.qm.queries, s.qm.rows) && !AllTruthy(ds)
  {
    assert CreatorFits(q, s.qm.creators[q], s.qm.queries, s.qm.rows);
  }

  lemma EmitKeepsMatch(s: State, q: Uuid)
    requires Referenced(s) && AnnouncedInv(s) && CanCreateEmit(s, q)
    ensures var s' := CreateEmit(s, q);
            CreatedMatch(s'.audit.created, s'.qm.creators, s'.qm.queries, s'.qm.rows)
  {
    var ds := Answers(q, s.qm.creators[q].keys, s.qm.creators[q].seen);
    EmittedMatches(s, q);
    OneMoreCreated(s.audit.created, s.qm.creators, s.qm.queries, s.qm.rows, q, ds);
  }

  lemma CreatedIsStored(s: State, q: Uuid)
    requires AnnouncedInv(s) && q in s.audit.created
    ensures q in s.qm.queries && q !in s.qm.creators
  {
    assert Matches(s.audit.created[q], q, s.qm.queries, s.qm.rows);
  }

  lemma UnknownQuery(s: State, q: Uuid)
    requires Referenced(s) && AnnouncedInv(s) && q !in s.qm.owner
    ensures q !in s.qm.queries && q !in s.audit.created && q !in s.qm.creators
  {
    if q in s.audit.created {
      CreatedIsStored(s, q);
    }
  }

  lemma TokensJoin(plans: map<Uuid, seq<Token>>, emitted: multiset<Token>, q: Uuid, plan: seq<Token>)
    requires TokensPlanned(plans, emitted) && q !in plans
    requires forall t :: t in plan ==> t.queryId == q
    ensures TokensPlanned(plans[q := plan], emitted + multiset(plan))
  {
  }

  lemma PlannedIsEmitted(created: map<Uuid, seq<SubDto>>, emitted: multiset<Token>, q: Uuid, t: Token)
    requires PlansEmitted(created, emitted) && q in created
    ensures t in Plan(created[q]) ==> t in emitted
    ensures t in emitted && t.queryId == q ==> t in Plan(created[q])
  {
    assert Plans(created)[q] == Plan(created[q]);
  }

  /** The first missing row of each path has its token in the pipeline. */
  lemma MissingIsEmitted(created: map<Uuid, seq<SubDto>>, emitted: multiset<Token>, q: Uuid, k: nat)
    requires PlansEmitted(created, emitted) && q in created && k < |created[q]| && FirstMissing(created[q], k)
    ensures TokenOf(created[q][k]) in emitted
  {
    MissingIsPlanned(created[q], k);
    PlannedIsEmitted(created, emitted, q, TokenOf(created[q][k]));
  }

  lemma PlansUpdate(created: map<Uuid, seq<SubDto>>, q: Uuid, ds: seq<SubDto>)
    ensures Plans(created[q := ds]) == Plans(created)[q := Plan(ds)]
  {
  }

  lemma EmitKeepsAnnounced(s: State, q: Uuid)
    requires Referenced(s) && AnnouncedInv(s) && CanCreateEmit(s, q)
    ensures AnnouncedInv(CreateEmit(s, q))
  {
    var ds := Answers(q, s.qm.creators[q].keys, s.qm.creators[q].seen);
    forall t | t in Plan(ds) ensures t.queryId == q {
      PlanNames(s, q, t);
    }
    EmitKeepsMatch(s, q);
    TokensJoin(Plans(s.audit.created), s.pipe.emitted, q, Plan(ds));
    PlansUpdate(s.audit.created, q, ds);
  }

  lemma CreateKeepsAnnounced(s: State, c: CreateStep)
    requires Referenced(s) && AnnouncedInv(s) && CanCreate(s, c)
    ensures AnnouncedInv(AfterCreate(s, c))
  {
    if c.SCreateEmit? {
      EmitKeepsAnnounced(s, c.q);
    } else {
      CreateKeepsMatch(s, c);
      CreateTables(s, c);
    }
  }

  lemma HandleKeepsAnnounced(s: State, h: HandleStep)
    requires Referenced(s) && AnnouncedInv(s) && CanHandle(s, h)
    ensures AnnouncedInv(AfterHandle(s, h))
  {
    var s' := AfterHandle(s, h);
    HandleFrame(s, h);
    HandleIsStable(s, h);
    HandleAddsNoQuery(s, h);
    forall q | q in s.audit.created
      ensures Matches(s.audit.created[q], q, s'.qm.queries, s'.qm.rows)
    {
      MatchesStable(s.audit.created[q], q, s.qm.creators, s.qm.queries, s.qm.rows, s'.qm.queries, s'.qm.rows);
    }
  }

  lemma HandleAddsNoQuery(s: State, h: HandleStep)
    requires CanHandle(s, h)
    ensures AfterHandle(s, h).qm.queries.Keys == s.qm.queries.Keys
  {
    match h {
      case SHandlerStart(m) => assert AfterHandle(s, h) == HandlerStart(s, m);
      case SHandlerLoad(i) => assert AfterHandle(s, h) == HandlerLoad(s, i);
      case SHandlerRead(i, k) => assert AfterHandle(s, h) == HandlerRead(s, i, k);
      case SHandlerSaveStatus(i) => assert AfterHandle(s, h) == HandlerSaveStatus(s, i);
      case SHandlerSaveResult(i) => assert AfterHandle(s, h) == HandlerSaveResult(s, i);
      case SHandlerNotify(i) => assert AfterHandle(s, h) == HandlerNotify(s, i);
    }
  }

  lemma MoveKeepsAnnounced(limit: int, s: State, m: MoveStep)
    requires AnnouncedInv(s) && CanMove(s, m)
    ensures AnnouncedInv(AfterMove(limit, s, m))
  {
    MoveLeavesTables(limit, s, m);
    MoveEmitsNothing(limit, s, m);
  }

  lemma StepKeepsAnnounced(limit: int, s: State, step: Step)
    requires Referenced(s) && AnnouncedInv(s) && Enabled(s, step)
    ensures AnnouncedInv(Next(limit, s, step))
  {
    match step {
      case Tick(_) =>
      case Creating(c) => CreateKeepsAnnounced(s, c);
      case Moving(m) => MoveKeepsAnnounced(limit, s, m);
      case Caching(w) => WriteFrame(s, w);
      case Handling(h) => HandleKeepsAnnounced(s, h);
    }
  }
}
