/** How the cache bounds traffic to the upstream API. */
module Upstream {
  import opened Domain
  import opened Cache
  import opened Planner
  import opened Protocol
  import opened Frames
  import opened Conservation
  import opened References
  import opened Presence
  import opened Completion
  import opened Invariants
  import opened Rows
  import opened Handlers
  import opened Fates
  import opened Provenance

  /** Upstream calls started for token `t`: in progress or answered. */
  function Started(p: Pipe, t: Token): nat {
    p.fetching[t] + multiset(ReceivedTokens(p.received))[t]
  }

  // ----- after a path is cached -----

  /** From `s0` on: no new call for a token of `path`, and no new token for it except from creations begun before. */
  ghost predicate NothingNew(s0: State, s: State, path: Path) {
    && Cached(s.cache.docs, path)
    && (forall t: Token :: t.path == path ==> Started(s.pipe, t) == Started(s0.pipe, t))
    && (forall t :: t in s.pipe.emitted && t.path == path ==> t in s0.pipe.emitted || t.queryId in s0.qm.creators)
    && (forall q :: q in s.qm.creators && q !in s0.qm.creators ==>
          q !in s0.qm.owner && KnowsHit(s.qm.creators[q], path))
    && (forall q :: q in s0.qm.owner ==> q in s.qm.owner)
  }

  /** A creation begun after `path` was cached never takes it for missing. */
  ghost predicate KnowsHit(c: Creator, path: Path) {
    && |c.seen| == |c.keys|
    && (c.phase != Looking ==> AllRead(c.seen))
    && forall k :: 0 <= k < |c.seen| && c.keys[k].path == path && c.seen[k].Some? ==> Truthy(c.seen[k].value)
  }

  lemma FetchKeepsStarted(s: State, t: Token, data: Json, u: Token)
    requires t in s.pipe.fetching
    ensures Started(ConnectorFetch(s, t, data).pipe, u) == Started(s.pipe, u)
  {
    ReceivedTokensAppend(s.pipe.received, Received(t, data));
  }

  lemma MoveLeavesConnector(limit: int, s: State, m: MoveStep)
    requires CanMove(s, m) && !m.SConnectorRead? && !m.SConnectorFetch?
    ensures AfterMove(limit, s, m).pipe.fetching == s.pipe.fetching
            && AfterMove(limit, s, m).pipe.received == s.pipe.received
  {
    match m {
      case SScheduleCheck(t) => assert AfterMove(limit, s, m) == ScheduleCheck(limit, s, t);
      case SJobCheck(i) => assert AfterMove(limit, s, m) == JobCheck(limit, s, i);
      case SDefer(t) => assert AfterMove(limit, s, m) == Defer(s, t);
      case SEmitFetch(t) => assert AfterMove(limit, s, m) == EmitFetch(s, t);
      case SLogUsage(t, id) => assert AfterMove(limit, s, m) == LogUsage(s, t, id);
    }
  }

  lemma MoveStartsNothing(limit: int, s: State, m: MoveStep, path: Path, t: Token)
    requires CanMove(s, m) && Collection(s.cache.docs) && Cached(s.cache.docs, path) && t.path == path
    ensures Started(AfterMove(limit, s, m).pipe, t) == Started(s.pipe, t)
  {
    match m {
      case SConnectorFetch(u, data) => FetchKeepsStarted(s, u, data, t);
      case SConnectorRead(u) => ReadRefinesLookup(s.cache.docs, u.path);
      case SScheduleCheck(_) => MoveLeavesConnector(limit, s, m);
      case SJobCheck(_) => MoveLeavesConnector(limit, s, m);
      case SDefer(_) => MoveLeavesConnector(limit, s, m);
      case SEmitFetch(_) => MoveLeavesConnector(limit, s, m);
      case SLogUsage(_, _) => MoveLeavesConnector(limit, s, m);
    }
  }

  lemma MoveBringsNothingNew(s0: State, limit: int, s: State, m: MoveStep, path: Path)
    requires Collection(s.cache.docs) && NothingNew(s0, s, path) && CanMove(s, m)
    ensures NothingNew(s0, AfterMove(limit, s, m), path)
  {
    MoveLeavesTables(limit, s, m);
    MoveEmitsNothing(limit, s, m);
    forall t: Token | t.path == path ensures Started(AfterMove(limit, s, m).pipe, t) == Started(s0.pipe, t) {
      MoveStartsNothing(limit, s, m, path, t);
    }
  }

  lemma PlanSkipsHits(q: Uuid, c: Creator, path: Path, t: Token)
    requires KnowsHit(c, path) && AllRead(c.seen) && t in Plan(Answers(q, c.keys, c.seen))
    ensures t.path != path
  {
    PlanIsMissing(Answers(q, c.keys, c.seen), t);
  }

  lemma LookBringsNothingNew(s0: State, s: State, q: Uuid, k: nat, path: Path)
    requires Collection(s.cache.docs) && NothingNew(s0, s, path) && CanCreateRead(s, q, k)
    ensures NothingNew(s0, CreateRead(s, q, k), path)
  {
    ReadRefinesLookup(s.cache.docs, path);
  }

  lemma StartBringsNothingNew(s0: State, s: State, q: Uuid, keys: seq<SubKey>, url: Option<string>, path: Path)
    requires NothingNew(s0, s, path) && CanCreateStart(s, q, keys)
    ensures NothingNew(s0, CreateStart(s, q, keys, url), path)
  {
  }

  lemma DecideBringsNothingNew(s0: State, s: State, q: Uuid, path: Path)
    requires NothingNew(s0, s, path) && CanCreateDecide(s, q)
    ensures NothingNew(s0, CreateDecide(s, q), path)
  {
  }

  lemma SaveRowsBringsNothingNew(s0: State, s: State, q: Uuid, path: Path)
    requires NothingNew(s0, s, path) && CanCreateSaveRows(s, q)
    ensures NothingNew(s0, CreateSaveRows(s, q), path)
  {
  }

  lemma CreateBringsNothingNew(s0: State, s: State, c: CreateStep, path: Path)
    requires Referenced(s) && Collection(s.cache.docs) && NothingNew(s0, s, path) && CanCreate(s, c)
    requires forall q :: q in s0.qm.creators ==> q in s0.qm.owner
    ensures NothingNew(s0, AfterCreate(s, c), path)
  {
    match c {
      case SCreateStart(q, keys, url) => StartBringsNothingNew(s0, s, q, keys, url, path);
      case SCreateRead(q, k) => LookBringsNothingNew(s0, s, q, k, path);
      case SCreateDecide(q) => DecideBringsNothingNew(s0, s, q, path);
      case SCreateSaveRows(q) => SaveRowsBringsNothingNew(s0, s, q, path);
      case SCreateEmit(q) => EmitBringsNothingNew(s0, s, q, path);
    }
  }

  lemma EmitBringsNothingNew(s0: State, s: State, q: Uuid, path: Path)
    requires Referenced(s) && NothingNew(s0, s, path) && CanCreateEmit(s, q)
    ensures NothingNew(s0, CreateEmit(s, q), path)
  {
    var c := s.qm.creators[q];
    var plan := Plan(Answers(q, c.keys, c.seen));
    forall t | t in CreateEmit(s, q).pipe.emitted && t.path == path
      ensures t in s0.pipe.emitted || t.queryId in s0.qm.creators
    {
      if t in plan {
        PlanNames(s, q, t);
        if q !in s0.qm.creators {
          PlanSkipsHits(q, c, path, t);
        }
      }
    }
  }

  lemma SameNothingNew(s0: State, s: State, s': State, path: Path)
    requires NothingNew(s0, s, path) && Grows(s.cache.docs, s'.cache.docs)
    requires s'.pipe == s.pipe && s'.qm.creators == s.qm.creators && s'.qm.owner == s.qm.owner
    ensures NothingNew(s0, s', path)
  {
  }

  lemma StepBringsNothingNew(s0: State, limit: int, s: State, step: Step, path: Path)
    requires Referenced(s) && PresenceInv(s) && NothingNew(s0, s, path) && Enabled(s, step)
    requires forall q :: q in s0.qm.creators ==> q in s0.qm.owner
    ensures NothingNew(s0, Next(limit, s, step), path)
  {
    StepGrows(limit, s, step);
    match step {
      case Tick(_) =>
      case Creating(c) => CreateBringsNothingNew(s0, s, c, path);
      case Moving(m) => MoveBringsNothingNew(s0, limit, s, m, path);
      case Caching(w) => WriteFrame(s, w); SameNothingNew(s0, s, AfterWrite(s, w), path);
      case Handling(h) => HandleFrame(s, h); SameNothingNew(s0, s, AfterHandle(s, h), path);
    }
  }

  lemma {:induction false} RunBringsNothingNew(limit: int, s: State, steps: seq<Step>, path: Path)
    requires Safe(s) && Cached(s.cache.docs, path) && Run(limit, s, steps).Some?
    ensures NothingNew(s, Run(limit, s, steps).value, path)
  {
    if steps != [] {
      var before := steps[..|steps| - 1];
      RunBringsNothingNew(limit, s, before, path);
      RunKeepsSafe(limit, s, before);
      StepBringsNothingNew(s, limit, Run(limit, s, before).value, steps[|steps| - 1], path);
    }
  }

  /** Once a path is in the cache it stays, and in every continuation no connector handler that begins
      later calls upstream for it, and no creation that begins later asks for it. */
  lemma CachedMeansNoMoreTraffic(limit: int, s: State, steps: seq<Step>, path: Path, t: Token)
    requires Reachable(limit, s) && Cached(s.cache.docs, path) && t.path == path
    requires Run(limit, s, steps).Some?
    ensures var s' := Run(limit, s, steps).value;
            && Cached(s'.cache.docs, path)
            && Started(s'.pipe, t) == Started(s.pipe, t)
            && (t in s'.pipe.emitted ==> t in s.pipe.emitted || t.queryId in s.qm.creators)
  {
    ReachableIsSafe(limit, s);
    RunBringsNothingNew(limit, s, steps, path);
  }

  // ----- how many calls there can be in all -----

  function CallsFor(calls: seq<Call>, path: Path): nat {
    if calls == [] then 0
    else CallsFor(calls[..|calls| - 1], path) + if calls[|calls| - 1].path == path then 1 else 0
  }

  /** The tokens whose connector handlers missed the cache for `path` and went on to call upstream. */
  ghost function StartedFor(p: Pipe, path: Path): set<Token> {
    set t | t in p.fetching + multiset(ReceivedTokens(p.received)) && t.path == path
  }

  function AnsweredFor(received: seq<Received>, path: Path): seq<Token> {
    if received == [] then []
    else
      var t := received[|received| - 1].token;
      AnsweredFor(received[..|received| - 1], path) + if t.path == path then [t] else []
  }

  lemma {:induction false} CallsAreAnswers(calls: seq<Call>, received: seq<Received>, path: Path)
    requires |calls| == |received| && forall i :: 0 <= i < |calls| ==> calls[i].path == received[i].token.path
    ensures CallsFor(calls, path) == |AnsweredFor(received, path)|
  {
    if calls != [] {
      CallsAreAnswers(calls[..|calls| - 1], received[..|received| - 1], path);
    }
  }

  lemma {:induction false} AnsweredForFrom(received: seq<Received>, path: Path, t: Token)
    requires t in AnsweredFor(received, path)
    ensures t.path == path && exists i :: 0 <= i < |received| && received[i].token == t
  {
    var n := |received| - 1;
    if t in AnsweredFor(received[..n], path) {
      AnsweredForFrom(received[..n], path, t);
      var i :| 0 <= i < n && received[..n][i].token == t;
      assert received[i].token == t;
    } else {
      assert received[n].token == t;
    }
  }

  lemma {:induction false} AnsweredForDistinct(received: seq<Received>, path: Path)
    requires forall i, j :: 0 <= i < j < |received| ==> received[i].token != received[j].token
    ensures Distinct(AnsweredFor(received, path))
  {
    if received != [] {
      var n := |received| - 1;
      AnsweredForDistinct(received[..n], path);
      if received[n].token in AnsweredFor(received[..n], path) {
        AnsweredForFrom(received[..n], path, received[n].token);
      }
    }
  }

  lemma AnsweredIsStarted(s: State, path: Path, t: Token)
    requires t in AnsweredFor(s.pipe.received, path)
    ensures t.path == path && Started(s.pipe, t) > 0
  {
    AnsweredForFrom(s.pipe.received, path, t);
    var i :| 0 <= i < |s.pipe.received| && s.pipe.received[i].token == t;
    TokenWasReceived(s, s.pipe.received[i]);
  }

  lemma AnswersDiffer(s: State, path: Path)
    requires Conserved(s) && Referenced(s)
    ensures Distinct(AnsweredFor(s.pipe.received, path))
    ensures CallsFor(s.audit.calls, path) == |AnsweredFor(s.pipe.received, path)|
  {
    forall i, j | 0 <= i < j < |s.pipe.received| ensures s.pipe.received[i].token != s.pipe.received[j].token {
      AnsweredOnce(s, i, j);
    }
    AnsweredForDistinct(s.pipe.received, path);
    CallsAreAnswers(s.audit.calls, s.pipe.received, path);
  }

  lemma RunAnswersDiffer(limit: int, s: State, steps: seq<Step>, path: Path)
    requires Safe(s) && Run(limit, s, steps).Some?
    ensures var s' := Run(limit, s, steps).value;
            && Distinct(AnsweredFor(s'.pipe.received, path))
            && CallsFor(s'.audit.calls, path) == |AnsweredFor(s'.pipe.received, path)|
  {
    RunKeepsBalance(limit, s, steps);
    AnswersDiffer(Run(limit, s, steps).value, path);
  }

  /** However long the run goes on after a path was cached, and whoever asks for it: the calls made for it
      in all are no more than the connector handlers that had missed the cache for it by then. */
  lemma CallsBoundedByMisses(limit: int, s: State, steps: seq<Step>, path: Path)
    requires Reachable(limit, s) && Cached(s.cache.docs, path) && Run(limit, s, steps).Some?
    ensures CallsFor(Run(limit, s, steps).value.audit.calls, path) <= |StartedFor(s.pipe, path)|
  {
    ReachableIsSafe(limit, s);
    RunAnswersDiffer(limit, s, steps, path);
    var s' := Run(limit, s, steps).value;
    var ts := AnsweredFor(s'.pipe.received, path);
    forall t | t in ts ensures t in StartedFor(s.pipe, path) {
      AnsweredIsStarted(s', path, t);
      CachedMeansNoMoreTraffic(limit, s, steps, path, t);
    }
    DistinctFits(ts, StartedFor(s.pipe, path));
  }

  // ----- one call, if each save comes before the next FETCH -----

  /** The connector does not look at a token of `path` while an earlier call for it is under way or on its
      way to the cache. */
  ghost predicate InTurn(s: State, step: Step, path: Path) {
    step.Moving? && step.move.SConnectorRead? && step.move.t.path == path ==>
      && (forall t :: t in s.pipe.fetching ==> t.path != path)
      && !PendingAtCache(s.cache, path)
  }

  ghost predicate RunInTurn(limit: int, s: State, steps: seq<Step>, path: Path) {
    forall k :: 0 <= k < |steps| ==>
      Run(limit, s, steps[..k]).Some? && InTurn(Run(limit, s, steps[..k]).value, steps[k], path)
  }

  ghost predicate AtMostOne(p: Pipe, path: Path) {
    && (forall t: Token :: t.path == path ==> Started(p, t) <= 1)
    && (forall t: Token, u: Token :: t.path == path && u.path == path && Started(p, t) > 0 && Started(p, u) > 0 ==>
        t == u)
  }

  /** A miss, in turn, is the first one. */
  lemma MissIsFirst(s: State, t: Token, u: Token)
    requires Conserved(s) && PresenceInv(s) && TruthyUpstream(s)
    requires InTurn(s, Moving(SConnectorRead(t)), t.path) && !Truthy(Read(s.cache.docs, t.path)) && u.path == t.path
    ensures Started(s.pipe, u) == 0
  {
    var ts := ReceivedTokens(s.pipe.received);
    if u in multiset(ts) {
      var i :| 0 <= i < |ts| && ts[i] == u;
      MessageIsTruthy(s, s.pipe.received[i]);
      assert Answered(s.pipe.received, t.path);
      AnsweredIsPendingOrCached(s, t.path);
      ReadRefinesLookup(s.cache.docs, t.path);
    }
  }

  lemma ReadKeepsOne(s: State, t: Token, path: Path)
    requires Conserved(s) && Referenced(s) && PresenceInv(s) && TruthyUpstream(s) && AtMostOne(s.pipe, path)
    requires t in s.pipe.connectorInbox && InTurn(s, Moving(SConnectorRead(t)), path)
    ensures AtMostOne(ConnectorRead(s, t).pipe, path)
  {
    var p' := ConnectorRead(s, t).pipe;
    if !Truthy(Read(s.cache.docs, t.path)) && t.path == path {
      forall u: Token | u.path == path
        ensures Started(s.pipe, u) == 0 && Started(p', u) == if u == t then 1 else 0
      {
        MissIsFirst(s, t, u);
      }
    } else {
      forall u: Token | u.path == path ensures Started(p', u) == Started(s.pipe, u) {
      }
    }
  }

  lemma SamePlacesKeepOne(p: Pipe, p': Pipe, path: Path)
    requires AtMostOne(p, path) && forall t: Token :: t.path == path ==> Started(p', t) == Started(p, t)
    ensures AtMostOne(p', path)
  {
  }

  lemma MoveKeepsOne(limit: int, s: State, m: MoveStep, path: Path)
    requires Conserved(s) && Referenced(s) && PresenceInv(s) && TruthyUpstream(s) && AtMostOne(s.pipe, path)
    requires CanMove(s, m) && InTurn(s, Moving(m), path)
    ensures AtMostOne(AfterMove(limit, s, m).pipe, path)
  {
    match m {
      case SConnectorRead(t) => ReadKeepsOne(s, t, path);
      case SConnectorFetch(t, data) =>
        forall u: Token | u.path == path ensures Started(AfterMove(limit, s, m).pipe, u) == Started(s.pipe, u) {
          FetchKeepsStarted(s, t, data, u);
        }
      case SScheduleCheck(_) => MoveLeavesConnector(limit, s, m);
      case SJobCheck(_) => MoveLeavesConnector(limit, s, m);
      case SDefer(_) => MoveLeavesConnector(limit, s, m);
      case SEmitFetch(_) => MoveLeavesConnector(limit, s, m);
      case SLogUsage(_, _) => MoveLeavesConnector(limit, s, m);
    }
  }

  lemma CreateStartsNoCall(s: State, c: CreateStep)
    requires CanCreate(s, c)
    ensures AfterCreate(s, c).pipe.fetching == s.pipe.fetching && AfterCreate(s, c).pipe.received == s.pipe.received
  {
    match c {
      case SCreateStart(q, keys, url) => assert AfterCreate(s, c) == CreateStart(s, q, keys, url);
      case SCreateRead(q, k) => assert AfterCreate(s, c) == CreateRead(s, q, k);
      case SCreateDecide(q) => assert AfterCreate(s, c) == CreateDecide(s, q);
      case SCreateSaveRows(q) => assert AfterCreate(s, c) == CreateSaveRows(s, q);
      case SCreateEmit(q) => assert AfterCreate(s, c) == CreateEmit(s, q);
    }
  }

  lemma StepKeepsOne(limit: int, s: State, step: Step, path: Path)
    requires Conserved(s) && Referenced(s) && PresenceInv(s) && TruthyUpstream(s) && AtMostOne(s.pipe, path)
    requires Enabled(s, step) && InTurn(s, step, path)
    ensures AtMostOne(Next(limit, s, step).pipe, path)
  {
    match step {
      case Tick(_) =>
      case Creating(c) => CreateStartsNoCall(s, c); SamePlacesKeepOne(s.pipe, AfterCreate(s, c).pipe, path);
      case Moving(m) => MoveKeepsOne(limit, s, m, path);
      case Caching(_) =>
      case Handling(h) => HandleFrame(s, h);
    }
  }

  lemma StepWasTruthy(limit: int, s: State, step: Step)
    requires Enabled(s, step) && TruthyUpstream(Next(limit, s, step))
    ensures TruthyUpstream(s)
  {
    match step {
      case Tick(_) =>
      case Creating(c) => CreateLeavesCache(s, c);
      case Moving(m) => MoveReceives(limit, s, m); CallsWereTruthy(s, AfterMove(limit, s, m).audit.calls);
      case Caching(_) =>
      case Handling(h) => HandleFrame(s, h);
    }
  }

  /** With truthy answers, if each save of a path precedes the connector's next look at it, the path is
      asked of upstream at most once in the whole run, whoever asks for it and how often. */
  lemma {:induction false} OneCallInTurn(limit: int, start: int, steps: seq<Step>, path: Path)
    requires Run(limit, Init(start), steps).Some? && RunInTurn(limit, Init(start), steps, path)
    requires TruthyUpstream(Run(limit, Init(start), steps).value)
    ensures AtMostOne(Run(limit, Init(start), steps).value.pipe, path)
  {
    if steps != [] {
      var n := |steps| - 1;
      var s := Run(limit, Init(start), steps[..n]).value;
      forall k | 0 <= k < n
        ensures Run(limit, Init(start), steps[..n][..k]).Some?
        ensures InTurn(Run(limit, Init(start), steps[..n][..k]).value, steps[..n][k], path)
      {
        assert steps[..n][..k] == steps[..k];
      }
      StepWasTruthy(limit, s, steps[n]);
      OneCallInTurn(limit, start, steps[..n], path);
      InitIsSafe(start);
      RunKeepsSafe(limit, Init(start), steps[..n]);
      StepKeepsOne(limit, s, steps[n], path);
    }
  }

  /** What is cached was answered by a call that some token started. */
  lemma CachedWasCalled(s: State, path: Path) returns (t: Token)
    requires Conserved(s) && PresenceInv(s) && ProvenanceInv(s) && Cached(s.cache.docs, path)
    ensures t.path == path && Started(s.pipe, t) > 0
  {
    var i :| 0 <= i < |s.cache.docs| && s.cache.docs[i].path == path;
    assert Came(s.audit.calls, path, s.cache.docs[i].value);
    var k :| 0 <= k < |s.audit.calls| && s.audit.calls[k] == Call(path, s.cache.docs[i].value);
    t := s.pipe.received[k].token;
    TokenWasReceived(s, s.pipe.received[k]);
  }

  /** Exactly one call, as soon as the connector has looked at any token of the path. */
  lemma ExactlyOneCallInTurn(limit: int, start: int, steps: seq<Step>, t0: Token) returns (t: Token)
    requires Run(limit, Init(start), steps).Some? && RunInTurn(limit, Init(start), steps, t0.path)
    requires TruthyUpstream(Run(limit, Init(start), steps).value)
    requires var p := Run(limit, Init(start), steps).value.pipe; t0 in p.dropped || Started(p, t0) > 0
    ensures var p := Run(limit, Init(start), steps).value.pipe;
            t.path == t0.path && forall u: Token :: u.path == t0.path ==> Started(p, u) == if u == t then 1 else 0
  {
    OneCallInTurn(limit, start, steps, t0.path);
    InitIsSafe(start);
    RunKeepsSafe(limit, Init(start), steps);
    var s := Run(limit, Init(start), steps).value;
    t := t0;
    if t0 in s.pipe.dropped {
      t := CachedWasCalled(s, t0.path);
    }
  }
}
