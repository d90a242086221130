/** The multi-path cache lookup: its reads happen one by one while the cache keeps being written. */
module Lookup {
  import opened Domain
  import opened Cache
  import opened Protocol
  import opened Frames
  import opened References
  import opened Handlers
  import opened Presence
  import opened Fates
  import opened Invariants

  /** What one answer of a lookup that began in `s` says about the cache: a hit is the value that some
      moment of the run since then held; a miss was absent when the lookup began. */
  ghost predicate Consistent(limit: int, s: State, steps: seq<Step>, path: Path, value: Json) {
    if Truthy(value) then exists n: nat :: Moment(limit, s, steps, n, path, value)
    else value == Null && !Cached(s.cache.docs, path)
  }

  ghost predicate Moment(limit: int, s: State, steps: seq<Step>, n: nat, path: Path, value: Json) {
    && n <= |steps| && Run(limit, s, steps[..n]).Some?
    && var held := AsMap(Run(limit, s, steps[..n]).value.cache.docs);
       path in held && held[path] == value
  }

  /** Every answer so far is consistent, and stands at the position it was asked for. */
  ghost predicate Witnessed(limit: int, s: State, steps: seq<Step>, keys: seq<SubKey>, seen: seq<Option<Json>>) {
    && |seen| == |keys|
    && forall k :: 0 <= k < |seen| && seen[k].Some? ==> Consistent(limit, s, steps, keys[k].path, seen[k].value)
  }

  ghost predicate CreatorWitnessed(limit: int, s0: State, steps: seq<Step>, s: State, q: Uuid) {
    q in s.qm.creators ==> Witnessed(limit, s0, steps, s.qm.creators[q].keys, s.qm.creators[q].seen)
  }

  ghost predicate HandlersWitnessed(limit: int, s0: State, steps: seq<Step>, handlers: seq<Handler>, t: Token) {
    forall i :: 0 <= i < |handlers| && handlers[i].msg.token == t && handlers[i].phase.Reading? ==>
      Witnessed(limit, s0, steps, handlers[i].phase.keys, handlers[i].phase.seen)
  }

  lemma LaterStillConsistent(limit: int, s: State, steps: seq<Step>, step: Step, path: Path, value: Json)
    requires Consistent(limit, s, steps, path, value)
    ensures Consistent(limit, s, steps + [step], path, value)
  {
    if Truthy(value) {
      var n: nat :| Moment(limit, s, steps, n, path, value);
      assert (steps + [step])[..n] == steps[..n];
      assert Moment(limit, s, steps + [step], n, path, value);
    }
  }

  lemma LaterStillWitnessed(limit: int, s: State, steps: seq<Step>, step: Step, keys: seq<SubKey>,
                            seen: seq<Option<Json>>)
    requires Witnessed(limit, s, steps, keys, seen)
    ensures Witnessed(limit, s, steps + [step], keys, seen)
  {
    forall k | 0 <= k < |seen| && seen[k].Some?
      ensures Consistent(limit, s, steps + [step], keys[k].path, seen[k].value)
    {
      LaterStillConsistent(limit, s, steps, step, keys[k].path, seen[k].value);
    }
  }

  /** A read at the end of the run so far. */
  lemma ReadIsConsistent(limit: int, s0: State, steps: seq<Step>, step: Step, s: State, path: Path)
    requires Run(limit, s0, steps) == Some(s) && Collection(s.cache.docs) && Grows(s0.cache.docs, s.cache.docs)
    ensures Consistent(limit, s0, steps + [step], path, Read(s.cache.docs, path))
  {
    ReadRefinesLookup(s.cache.docs, path);
    if Truthy(Read(s.cache.docs, path)) {
      assert (steps + [step])[..|steps|] == steps;
      assert Moment(limit, s0, steps + [step], |steps|, path, Read(s.cache.docs, path));
    }
  }

  lemma OneMoreRead(limit: int, s0: State, steps: seq<Step>, step: Step, s: State, keys: seq<SubKey>,
                    seen: seq<Option<Json>>, k: nat)
    requires Run(limit, s0, steps) == Some(s) && Collection(s.cache.docs) && Grows(s0.cache.docs, s.cache.docs)
    requires Witnessed(limit, s0, steps, keys, seen) && k < |keys|
    ensures Witnessed(limit, s0, steps + [step], keys, seen[k := Some(Read(s.cache.docs, keys[k].path))])
  {
    LaterStillWitnessed(limit, s0, steps, step, keys, seen);
    ReadIsConsistent(limit, s0, steps, step, s, keys[k].path);
  }

  /** A creator asks for the same paths throughout, and only its own reads change what it has seen. */
  lemma CreatorBefore(s: State, c: CreateStep, q: Uuid)
    requires CanCreate(s, c) && q in AfterCreate(s, c).qm.creators
    ensures var now := AfterCreate(s, c).qm.creators[q];
            if c.SCreateStart? && c.q == q then now.seen == NoReads(|now.keys|)
            else
              && q in s.qm.creators && now.keys == s.qm.creators[q].keys
              && now.seen == if c.SCreateRead? && c.q == q && c.k < |now.keys| && c.k < |s.qm.creators[q].seen|
                             then s.qm.creators[q].seen[c.k := Some(Read(s.cache.docs, now.keys[c.k].path))]
                             else s.qm.creators[q].seen
  {
    match c {
      case SCreateStart(_, _, _) =>
      case SCreateRead(_, _) =>
      case SCreateDecide(_) =>
      case SCreateSaveRows(_) =>
      case SCreateEmit(_) =>
    }
  }

  lemma CreateWitnesses(limit: int, s0: State, steps: seq<Step>, s: State, c: CreateStep, q: Uuid)
    requires Run(limit, s0, steps) == Some(s) && Collection(s.cache.docs) && Grows(s0.cache.docs, s.cache.docs)
    requires CanCreate(s, c) && CreatorWitnessed(limit, s0, steps, s, q)
    ensures CreatorWitnessed(limit, s0, steps + [Creating(c)], AfterCreate(s, c), q)
  {
    if q in AfterCreate(s, c).qm.creators {
      CreatorBefore(s, c, q);
      if c.SCreateStart? && c.q == q {
      } else if c.SCreateRead? && c.q == q {
        OneMoreRead(limit, s0, steps, Creating(c), s, s.qm.creators[q].keys, s.qm.creators[q].seen, c.k);
      } else {
        LaterStillWitnessed(limit, s0, steps, Creating(c), s.qm.creators[q].keys, s.qm.creators[q].seen);
      }
    }
  }

  lemma HandlersStillWitnessed(limit: int, s0: State, steps: seq<Step>, step: Step, handlers: seq<Handler>, t: Token)
    requires HandlersWitnessed(limit, s0, steps, handlers, t)
    ensures HandlersWitnessed(limit, s0, steps + [step], handlers, t)
  {
    forall i | 0 <= i < |handlers| && handlers[i].msg.token == t && handlers[i].phase.Reading?
      ensures Witnessed(limit, s0, steps + [step], handlers[i].phase.keys, handlers[i].phase.seen)
    {
      LaterStillWitnessed(limit, s0, steps, step, handlers[i].phase.keys, handlers[i].phase.seen);
    }
  }

  lemma RemoveStillWitnessed(limit: int, s0: State, steps: seq<Step>, handlers: seq<Handler>, i: nat, t: Token)
    requires HandlersWitnessed(limit, s0, steps, handlers, t) && i < |handlers|
    ensures HandlersWitnessed(limit, s0, steps, RemoveAt(handlers, i), t)
  {
    var hs := RemoveAt(handlers, i);
    forall k | 0 <= k < |hs| && hs[k].msg.token == t && hs[k].phase.Reading?
      ensures Witnessed(limit, s0, steps, hs[k].phase.keys, hs[k].phase.seen)
    {
      assert hs[k] in handlers;
    }
  }

  lemma PhaseStillWitnessed(limit: int, s0: State, steps: seq<Step>, handlers: seq<Handler>, i: nat, p: HandlerPhase,
                            t: Token)
    requires HandlersWitnessed(limit, s0, steps, handlers, t) && i < |handlers|
    requires handlers[i].msg.token == t && p.Reading? ==> Witnessed(limit, s0, steps, p.keys, p.seen)
    ensures HandlersWitnessed(limit, s0, steps, handlers[i := Handler(handlers[i].msg, p)], t)
  {
  }

  lemma ReadWitnesses(limit: int, s0: State, steps: seq<Step>, s: State, i: nat, k: nat, t: Token)
    requires Run(limit, s0, steps) == Some(s) && Collection(s.cache.docs) && Grows(s0.cache.docs, s.cache.docs)
    requires CanHandlerRead(s, i, k) && HandlersWitnessed(limit, s0, steps, s.qm.handlers, t)
    ensures HandlersWitnessed(limit, s0, steps + [Handling(SHandlerRead(i, k))], HandlerRead(s, i, k).qm.handlers, t)
  {
    var step := Handling(SHandlerRead(i, k));
    var p := s.qm.handlers[i].phase;
    HandlersStillWitnessed(limit, s0, steps, step, s.qm.handlers, t);
    if s.qm.handlers[i].msg.token == t {
      OneMoreRead(limit, s0, steps, step, s, p.keys, p.seen, k);
    }
    PhaseStillWitnessed(limit, s0, steps + [step], s.qm.handlers, i,
                        p.(seen := p.seen[k := Some(Read(s.cache.docs, p.keys[k].path))]), t);
  }

  lemma LoadWitnesses(limit: int, s0: State, steps: seq<Step>, s: State, i: nat, t: Token)
    requires CanHandlerLoad(s, i) && HandlersWitnessed(limit, s0, steps, s.qm.handlers, t)
    ensures HandlersWitnessed(limit, s0, steps, HandlerLoad(s, i).qm.handlers, t)
  {
    RemoveStillWitnessed(limit, s0, steps, s.qm.handlers, i, t);
    var q := s.qm.handlers[i].msg.token.queryId;
    if q in s.qm.queries {
      PhaseStillWitnessed(limit, s0, steps, s.qm.handlers, i, HandlerLoad(s, i).qm.handlers[i].phase, t);
    }
  }

  lemma HandleWitnesses(limit: int, s0: State, steps: seq<Step>, s: State, h: HandleStep, t: Token)
    requires Run(limit, s0, steps) == Some(s) && Collection(s.cache.docs) && Grows(s0.cache.docs, s.cache.docs)
    requires CanHandle(s, h) && HandlersWitnessed(limit, s0, steps, s.qm.handlers, t)
    ensures HandlersWitnessed(limit, s0, steps + [Handling(h)], AfterHandle(s, h).qm.handlers, t)
  {
    var steps' := steps + [Handling(h)];
    HandlersStillWitnessed(limit, s0, steps, Handling(h), s.qm.handlers, t);
    match h {
      case SHandlerStart(_) =>
      case SHandlerLoad(i) => LoadWitnesses(limit, s0, steps', s, i, t);
      case SHandlerRead(i, k) => ReadWitnesses(limit, s0, steps, s, i, k, t);
      case SHandlerSaveStatus(i) =>
        PhaseStillWitnessed(limit, s0, steps', s.qm.handlers, i, HandlerSaveStatus(s, i).qm.handlers[i].phase, t);
      case SHandlerSaveResult(i) =>
        PhaseStillWitnessed(limit, s0, steps', s.qm.handlers, i, HandlerSaveResult(s, i).qm.handlers[i].phase, t);
      case SHandlerNotify(i) => RemoveStillWitnessed(limit, s0, steps', s.qm.handlers, i, t);
    }
  }

  lemma StepWitnesses(limit: int, s0: State, steps: seq<Step>, s: State, step: Step, q: Uuid, t: Token)
    requires Run(limit, s0, steps) == Some(s) && Collection(s.cache.docs) && Grows(s0.cache.docs, s.cache.docs)
    requires Enabled(s, step) && CreatorWitnessed(limit, s0, steps, s, q)
             && HandlersWitnessed(limit, s0, steps, s.qm.handlers, t)
    ensures CreatorWitnessed(limit, s0, steps + [step], Next(limit, s, step), q)
    ensures HandlersWitnessed(limit, s0, steps + [step], Next(limit, s, step).qm.handlers, t)
  {
    HandlersStillWitnessed(limit, s0, steps, step, s.qm.handlers, t);
    if q in s.qm.creators {
      LaterStillWitnessed(limit, s0, steps, step, s.qm.creators[q].keys, s.qm.creators[q].seen);
    }
    match step {
      case Tick(_) =>
      case Creating(c) => CreateWitnesses(limit, s0, steps, s, c, q); CreateFrame(s, c);
      case Moving(m) => MoveLeavesTables(limit, s, m);
      case Caching(w) => WriteFrame(s, w);
      case Handling(h) => HandleWitnesses(limit, s0, steps, s, h, t); HandleFrame(s, h);
    }
  }

  /** Throughout the run the collection is well-formed and only grows. */
  ghost predicate WellCached(limit: int, s: State, steps: seq<Step>) {
    forall n :: 0 <= n <= |steps| && Run(limit, s, steps[..n]).Some? ==>
      var docs := Run(limit, s, steps[..n]).value.cache.docs;
      Collection(docs) && Grows(s.cache.docs, docs)
  }

  lemma {:induction false} RunGrows(limit: int, s: State, steps: seq<Step>)
    requires Safe(s) && Run(limit, s, steps).Some?
    ensures Collection(Run(limit, s, steps).value.cache.docs)
    ensures Grows(s.cache.docs, Run(limit, s, steps).value.cache.docs)
  {
    if steps != [] {
      var before := steps[..|steps| - 1];
      RunGrows(limit, s, before);
      RunKeepsSafe(limit, s, before);
      StepGrows(limit, Run(limit, s, before).value, steps[|steps| - 1]);
    }
    RunKeepsSafe(limit, s, steps);
  }

  lemma SafeIsWellCached(limit: int, s: State, steps: seq<Step>)
    requires Safe(s)
    ensures WellCached(limit, s, steps)
  {
    forall n | 0 <= n <= |steps| && Run(limit, s, steps[..n]).Some?
      ensures var docs := Run(limit, s, steps[..n]).value.cache.docs; Collection(docs) && Grows(s.cache.docs, docs)
    {
      RunGrows(limit, s, steps[..n]);
    }
  }

  lemma {:induction false} RunWitnesses(limit: int, s: State, steps: seq<Step>, q: Uuid, t: Token)
    requires WellCached(limit, s, steps) && Run(limit, s, steps).Some?
    requires CreatorWitnessed(limit, s, [], s, q) && HandlersWitnessed(limit, s, [], s.qm.handlers, t)
    ensures CreatorWitnessed(limit, s, steps, Run(limit, s, steps).value, q)
    ensures HandlersWitnessed(limit, s, steps, Run(limit, s, steps).value.qm.handlers, t)
  {
    if steps != [] {
      var n := |steps| - 1;
      var before := steps[..n];
      forall k | 0 <= k <= n ensures before[..k] == steps[..k] {
      }
      RunWitnesses(limit, s, before, q, t);
      assert steps[..n][..n] == before;
      StepWitnesses(limit, s, before, Run(limit, s, before).value, steps[n], q, t);
      assert before + [steps[n]] == steps;
    }
  }

  lemma StartUnread(limit: int, s: State, q: Uuid, keys: seq<SubKey>, url: Option<string>)
    ensures CreatorWitnessed(limit, CreateStart(s, q, keys, url), [], CreateStart(s, q, keys, url), q)
  {
  }

  lemma StartWellCached(limit: int, s: State, q: Uuid, keys: seq<SubKey>, url: Option<string>, steps: seq<Step>)
    requires Reachable(limit, s) && CanCreateStart(s, q, keys)
    ensures WellCached(limit, CreateStart(s, q, keys, url), steps)
  {
    ReachableIsSafe(limit, s);
    StepKeepsSafe(limit, s, Creating(SCreateStart(q, keys, url)));
    SafeIsWellCached(limit, CreateStart(s, q, keys, url), steps);
  }

  /** No handler works for a query that has not begun. */
  lemma NoHandlerYet(limit: int, s: State, q: Uuid, i: nat)
    requires Reachable(limit, s) && q !in s.qm.owner && i < |s.qm.handlers|
    ensures s.qm.handlers[i].msg.token.queryId != q
  {
    ReachableTables(limit, s);
    HandlerNames(s, i);
  }

  // ----- what is asked for does not change -----

  /** The creation of `q` asks for `keys` as long as it lasts, and never begins again. */
  ghost predicate AsksFor(qm: QuerySide, q: Uuid, keys: seq<SubKey>) {
    q in qm.owner && (q in qm.creators ==> qm.creators[q].keys == keys)
  }

  lemma CreateKeepsAsking(s: State, c: CreateStep, q: Uuid, keys: seq<SubKey>)
    requires CanCreate(s, c) && AsksFor(s.qm, q, keys)
    ensures AsksFor(AfterCreate(s, c).qm, q, keys)
  {
    match c {
      case SCreateStart(p, ks, url) => assert AfterCreate(s, c) == CreateStart(s, p, ks, url);
      case SCreateRead(p, k) => assert AfterCreate(s, c) == CreateRead(s, p, k);
      case SCreateDecide(p) => assert AfterCreate(s, c) == CreateDecide(s, p);
      case SCreateSaveRows(p) => assert AfterCreate(s, c) == CreateSaveRows(s, p);
      case SCreateEmit(p) => assert AfterCreate(s, c) == CreateEmit(s, p);
    }
  }

  lemma StepKeepsAsking(limit: int, s: State, step: Step, q: Uuid, keys: seq<SubKey>)
    requires Enabled(s, step) && AsksFor(s.qm, q, keys)
    ensures AsksFor(Next(limit, s, step).qm, q, keys)
  {
    match step {
      case Tick(_) =>
      case Creating(c) => CreateKeepsAsking(s, c, q, keys);
      case Moving(m) => MoveLeavesTables(limit, s, m);
      case Caching(w) => WriteFrame(s, w);
      case Handling(h) => HandleFrame(s, h);
    }
  }

  lemma {:induction false} RunKeepsAsking(limit: int, s: State, steps: seq<Step>, q: Uuid, keys: seq<SubKey>)
    requires AsksFor(s.qm, q, keys) && Run(limit, s, steps).Some?
    ensures AsksFor(Run(limit, s, steps).value.qm, q, keys)
  {
    if steps != [] {
      var before := steps[..|steps| - 1];
      RunKeepsAsking(limit, s, before, q, keys);
      StepKeepsAsking(limit, Run(limit, s, before).value, steps[|steps| - 1], q, keys);
    }
  }

  /** The stored query names `keys`, and its creation is over. */
  ghost predicate StoredAs(qm: QuerySide, q: Uuid, keys: seq<SubKey>) {
    && q in qm.queries && q !in qm.creators
    && Keys(qm.queries[q].subs, qm.rows) == keys
  }

  lemma TablesKeepStored(qm: QuerySide, qm': QuerySide, q: Uuid, keys: seq<SubKey>)
    requires StoredAs(qm, q, keys) && Joined(qm.queries, qm.rows) && q !in qm'.creators
    requires RowsStable(qm.rows, qm'.rows) && QueriesStable(qm.creators, qm.queries, qm'.queries)
    ensures StoredAs(qm', q, keys)
  {
    KeysStable(qm.queries[q].subs, qm.rows, qm'.rows);
  }

  lemma OwnedQuery(s: State, q: Uuid)
    requires Referenced(s) && q in s.qm.queries
    ensures q in s.qm.owner && Joined(s.qm.queries, s.qm.rows)
  {
  }

  lemma StepKeepsStored(limit: int, s: State, step: Step, q: Uuid, keys: seq<SubKey>)
    requires Referenced(s) && Enabled(s, step) && StoredAs(s.qm, q, keys)
    ensures StoredAs(Next(limit, s, step).qm, q, keys)
  {
    OwnedQuery(s, q);
    match step {
      case Tick(_) =>
      case Creating(c) =>
        CreateIsStable(s, c);
        CreateFrame(s, c);
        TablesKeepStored(s.qm, AfterCreate(s, c).qm, q, keys);
      case Moving(m) => MoveLeavesTables(limit, s, m);
      case Caching(w) => WriteFrame(s, w);
      case Handling(h) =>
        HandleIsStable(s, h);
        HandleFrame(s, h);
        TablesKeepStored(s.qm, AfterHandle(s, h).qm, q, keys);
    }
  }

  lemma {:induction false} RunKeepsStored(limit: int, s: State, steps: seq<Step>, q: Uuid, keys: seq<SubKey>)
    requires Safe(s) && StoredAs(s.qm, q, keys) && Run(limit, s, steps).Some?
    ensures StoredAs(Run(limit, s, steps).value.qm, q, keys)
  {
    if steps != [] {
      var before := steps[..|steps| - 1];
      RunKeepsStored(limit, s, before, q, keys);
      RunKeepsSafe(limit, s, before);
      StepKeepsStored(limit, Run(limit, s, before).value, steps[|steps| - 1], q, keys);
    }
  }

  /** Whoever reads for the query reads for what is stored. */
  lemma ReadersAskFor(s: State, q: Uuid, keys: seq<SubKey>)
    requires HandlersInv(s) && StoredAs(s.qm, q, keys)
    ensures forall i ::
              0 <= i < |s.qm.handlers| && s.qm.handlers[i].msg.token.queryId == q && s.qm.handlers[i].phase.Reading? ==>
              s.qm.handlers[i].phase.keys == keys
  {
    forall i | 0 <= i < |s.qm.handlers| && s.qm.handlers[i].msg.token.queryId == q && s.qm.handlers[i].phase.Reading?
      ensures s.qm.handlers[i].phase.keys == keys
    {
      assert HandlerFits(s.qm.handlers[i], s.qm.queries, s.qm.rows);
    }
  }

  // ----- the results -----

  /** A creation's lookup, from the moment it begins: order and length match the request, every hit was
      the cached value at some moment of the lookup, every miss was absent at its start. */
  lemma CreationLookupConsistent(limit: int, s: State, q: Uuid, keys: seq<SubKey>, url: Option<string>,
                                 steps: seq<Step>)
    requires Reachable(limit, s) && CanCreateStart(s, q, keys)
    requires Run(limit, CreateStart(s, q, keys, url), steps).Some?
    ensures var s1 := CreateStart(s, q, keys, url);
            var s' := Run(limit, s1, steps).value;
            q in s'.qm.creators ==>
              s'.qm.creators[q].keys == keys && Witnessed(limit, s1, steps, keys, s'.qm.creators[q].seen)
  {
    var s1 := CreateStart(s, q, keys, url);
    var absent := Token("", "", q);
    StartWellCached(limit, s, q, keys, url, steps);
    StartUnread(limit, s, q, keys, url);
    forall i | 0 <= i < |s.qm.handlers| ensures s.qm.handlers[i].msg.token != absent {
      NoHandlerYet(limit, s, q, i);
    }
    RunWitnesses(limit, s1, steps, q, absent);
    RunKeepsAsking(limit, s1, steps, q, keys);
  }

  lemma LoadedUnread(limit: int, s: State, i: nat)
    requires Reachable(limit, s) && CanHandlerLoad(s, i)
    ensures HandlersWitnessed(limit, HandlerLoad(s, i), [], HandlerLoad(s, i).qm.handlers, s.qm.handlers[i].msg.token)
    ensures "" !in HandlerLoad(s, i).qm.creators
  {
    ReachableTables(limit, s);
    HandlerLoadKeeps(s, i);
    var hs := HandlerLoad(s, i).qm.handlers;
    forall j | 0 <= j < |hs| && j != i ensures hs[j].msg.token != s.qm.handlers[i].msg.token {
      HandlersDiffer(s, i, j);
    }
  }

  lemma LoadWellCached(limit: int, s: State, i: nat, steps: seq<Step>)
    requires Reachable(limit, s) && CanHandlerLoad(s, i)
    ensures WellCached(limit, HandlerLoad(s, i), steps)
  {
    ReachableIsSafe(limit, s);
    StepKeepsSafe(limit, s, Handling(SHandlerLoad(i)));
    SafeIsWellCached(limit, HandlerLoad(s, i), steps);
  }

  lemma LoadedReads(limit: int, s: State, i: nat, steps: seq<Step>)
    requires Reachable(limit, s) && CanHandlerLoad(s, i) && Run(limit, HandlerLoad(s, i), steps).Some?
    ensures var q := s.qm.handlers[i].msg.token.queryId;
            var s' := Run(limit, HandlerLoad(s, i), steps).value;
            && q in s.qm.queries
            && forall j ::
                 && 0 <= j < |s'.qm.handlers| && s'.qm.handlers[j].msg.token.queryId == q
                 && s'.qm.handlers[j].phase.Reading? ==>
                   s'.qm.handlers[j].phase.keys == Keys(s.qm.queries[q].subs, s.qm.rows)
  {
    var q := s.qm.handlers[i].msg.token.queryId;
    var s1 := HandlerLoad(s, i);
    ReachableIsSafe(limit, s);
    StepKeepsSafe(limit, s, Handling(SHandlerLoad(i)));
    HandlerNames(s, i);
    var keys := Keys(s.qm.queries[q].subs, s.qm.rows);
    RunKeepsStored(limit, s1, steps, q, keys);
    RunKeepsSafe(limit, s1, steps);
    ReadersAskFor(Run(limit, s1, steps).value, q, keys);
  }

  /** A result handler's lookup, from the moment it has loaded its query: it asks for the rows stored then,
      in their order, and its answers are consistent in the same sense. */
  lemma HandlerLookupConsistent(limit: int, s: State, i: nat, steps: seq<Step>)
    requires Reachable(limit, s) && CanHandlerLoad(s, i)
    requires Run(limit, HandlerLoad(s, i), steps).Some?
    ensures s.qm.handlers[i].msg.token.queryId in s.qm.queries
    ensures var t := s.qm.handlers[i].msg.token;
            var keys := Keys(s.qm.queries[t.queryId].subs, s.qm.rows);
            var s' := Run(limit, HandlerLoad(s, i), steps).value;
            forall j ::
              0 <= j < |s'.qm.handlers| && s'.qm.handlers[j].msg.token == t && s'.qm.handlers[j].phase.Reading? ==>
                && s'.qm.handlers[j].phase.keys == keys
                && Witnessed(limit, HandlerLoad(s, i), steps, keys, s'.qm.handlers[j].phase.seen)
  {
    LoadedUnread(limit, s, i);
    LoadWellCached(limit, s, i, steps);
    RunWitnesses(limit, HandlerLoad(s, i), steps, "", s.qm.handlers[i].msg.token);
    LoadedReads(limit, s, i, steps);
  }
}
