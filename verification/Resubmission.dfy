/** Asking again for a query whose tokens have all come to rest is answered from the cache. */
module Resubmission {
  import opened Domain
  import opened Cache
  import opened Planner
  import opened Protocol
  import opened Frames
  import opened Conservation
  import opened References
  import opened Presence
  import opened Announcements
  import opened Invariants
  import opened Rows

  /** No token of `q` is outstanding: each was dropped on a cache hit, or its RECEIVE is done with at the
      cache manager. (Where its copy is at the query manager does not matter.) */
  ghost predicate Settled(s: State, q: Uuid) {
    forall t :: t in s.pipe.emitted && t.queryId == q ==>
      t in s.pipe.dropped || exists m :: m in s.cache.done && m.token == t
  }

  ghost predicate PathsCached(docs: seq<Doc>, ds: seq<SubDto>) {
    forall i :: 0 <= i < |ds| ==> Cached(docs, ds[i].path)
  }

  /** Every path asked for was asked for before. */
  ghost predicate AsksFor(keys: seq<SubKey>, ds: seq<SubDto>) {
    forall k :: 0 <= k < |keys| ==> exists i :: 0 <= i < |ds| && keys[k].path == ds[i].path
  }

  lemma SettledMeansCached(s: State, q: Uuid)
    requires Conserved(s) && Referenced(s) && PresenceInv(s) && AnnouncedInv(s) && TruthyUpstream(s)
    requires q in s.audit.created && Settled(s, q)
    ensures PathsCached(s.cache.docs, s.audit.created[q])
  {
    var ds := s.audit.created[q];
    assert Matches(ds, q, s.qm.queries, s.qm.rows);
    forall i | 0 <= i < |ds| ensures Cached(s.cache.docs, ds[i].path) {
      if !Truthy(ds[i].result) {
        var k := FirstMissingExists(ds, i);
        MissingIsEmitted(s.audit.created, s.pipe.emitted, q, k);
        var t := TokenOf(ds[k]);
        if t !in s.pipe.dropped {
          var m :| m in s.cache.done && m.token == t;
          assert m in multiset(s.pipe.received);
          MessageIsTruthy(s, m);
        }
      }
    }
  }

  // ----- a creation that starts once everything is cached -----

  /** Everything this creation has read so far was a hit. */
  ghost predicate OnlyHits(c: Creator) {
    c.phase == Looking && |c.seen| == |c.keys|
    && forall k :: 0 <= k < |c.seen| && c.seen[k].Some? ==> Truthy(c.seen[k].value)
  }

  /** The state of creation `q` for `keys`, all of whose paths are cached: not begun, reading hits, or over. */
  ghost predicate HitOrOver(s: State, q: Uuid, keys: seq<SubKey>) {
    && (forall k :: 0 <= k < |keys| ==> Cached(s.cache.docs, keys[k].path))
    && q !in s.qm.queries && q !in s.audit.created
    && (q in s.qm.creators ==> s.qm.creators[q].keys == keys && OnlyHits(s.qm.creators[q]))
  }

  lemma StepKeepsHits(limit: int, s: State, step: Step, q: Uuid, keys: seq<SubKey>)
    requires PresenceInv(s) && Enabled(s, step) && HitOrOver(s, q, keys) && q in s.qm.owner
    ensures HitOrOver(Next(limit, s, step), q, keys) && q in Next(limit, s, step).qm.owner
  {
    StepGrows(limit, s, step);
    match step {
      case Tick(_) =>
      case Creating(c) => CreateKeepsHits(s, c, q, keys);
      case Moving(m) => MoveLeavesTables(limit, s, m); MoveEmitsNothing(limit, s, m);
      case Caching(w) => WriteFrame(s, w);
      case Handling(h) => HandleFrame(s, h); HandleAddsNoQuery(s, h);
    }
  }

  lemma HitRead(docs: seq<Doc>, path: Path)
    requires Collection(docs) && Cached(docs, path)
    ensures Truthy(Read(docs, path))
  {
    ReadRefinesLookup(docs, path);
  }

  lemma CreateKeepsHits(s: State, c: CreateStep, q: Uuid, keys: seq<SubKey>)
    requires PresenceInv(s) && CanCreate(s, c) && HitOrOver(s, q, keys) && q in s.qm.owner
    ensures var s' := AfterCreate(s, c);
            && q !in s'.qm.queries && q !in s'.audit.created && q in s'.qm.owner
            && (q in s'.qm.creators ==> s'.qm.creators[q].keys == keys && OnlyHits(s'.qm.creators[q]))
  {
    match c {
      case SCreateStart(_, _, _) =>
      case SCreateRead(p, k) => if p == q { HitRead(s.cache.docs, keys[k].path); }
      case SCreateDecide(p) => if p == q { DecideOnHits(s, q, keys); }
      case SCreateSaveRows(_) =>
      case SCreateEmit(_) =>
    }
  }

  lemma DecideOnHits(s: State, q: Uuid, keys: seq<SubKey>)
    requires HitOrOver(s, q, keys) && CanCreateDecide(s, q)
    ensures var ds := Answers(q, keys, s.qm.creators[q].seen);
            && AllTruthy(ds)
            && CreateDecide(s, q).qm.responses
               == s.qm.responses + [Response("", ds, s.qm.creators[q].callbackUrl, COMPLETED)]
  {
  }

  lemma {:induction false} RunKeepsHits(limit: int, s: State, steps: seq<Step>, q: Uuid, keys: seq<SubKey>)
    requires Safe(s) && HitOrOver(s, q, keys) && q in s.qm.owner
    requires Run(limit, s, steps).Some?
    ensures HitOrOver(Run(limit, s, steps).value, q, keys) && q in Run(limit, s, steps).value.qm.owner
  {
    if steps != [] {
      var before := steps[..|steps| - 1];
      RunKeepsHits(limit, s, before, q, keys);
      RunKeepsSafe(limit, s, before);
      StepKeepsHits(limit, Run(limit, s, before).value, steps[|steps| - 1], q, keys);
    }
  }

  /** Resubmission heals. Once `q` is settled, every one of its paths is cached. If a query for the same
      paths is then started as `q2`, then after any further steps of any service: `q2` is never stored and
      no token carries its id, and when it decides, it answers COMPLETED with a result for every path. */
  lemma ResubmissionHeals(limit: int, s: State, q: Uuid, q2: Uuid, keys: seq<SubKey>, url: Option<string>,
                          steps: seq<Step>)
    requires Reachable(limit, s) && TruthyUpstream(s)
    requires q in s.audit.created && Settled(s, q)
    requires CanCreateStart(s, q2, keys)
    requires AsksFor(keys, s.audit.created[q])
    requires Run(limit, CreateStart(s, q2, keys, url), steps).Some?
    ensures PathsCached(s.cache.docs, s.audit.created[q])
    ensures var s' := Run(limit, CreateStart(s, q2, keys, url), steps).value;
            && q2 !in s'.qm.queries
            && (forall id :: id in s'.qm.rows ==> s'.qm.rows[id].queryId != q2)
            && (forall t :: t in s'.pipe.emitted ==> t.queryId != q2)
            && (CanCreateDecide(s', q2) ==>
                  var ds := Answers(q2, keys, s'.qm.creators[q2].seen);
                  && AllTruthy(ds)
                  && CreateDecide(s', q2).qm.responses
                     == s'.qm.responses + [Response("", ds, s'.qm.creators[q2].callbackUrl, COMPLETED)])
  {
    HealsFromStart(limit, s, q, q2, keys, url);
    HitsToTheEnd(limit, CreateStart(s, q2, keys, url), steps, q2, keys);
  }

  lemma HealsFromStart(limit: int, s: State, q: Uuid, q2: Uuid, keys: seq<SubKey>, url: Option<string>)
    requires Reachable(limit, s) && TruthyUpstream(s)
    requires q in s.audit.created && Settled(s, q)
    requires CanCreateStart(s, q2, keys)
    requires AsksFor(keys, s.audit.created[q])
    ensures PathsCached(s.cache.docs, s.audit.created[q])
    ensures var s1 := CreateStart(s, q2, keys, url); Safe(s1) && HitOrOver(s1, q2, keys) && q2 in s1.qm.owner
  {
    ReachableIsSafe(limit, s);
    SettledMeansCached(s, q);
    StepKeepsSafe(limit, s, Creating(SCreateStart(q2, keys, url)));
    UnknownQuery(s, q2);
    AskedIsCached(keys, s.audit.created[q], s.cache.docs);
    StartHits(s, q2, keys, url);
  }

  lemma HitsToTheEnd(limit: int, s: State, steps: seq<Step>, q: Uuid, keys: seq<SubKey>)
    requires Safe(s) && HitOrOver(s, q, keys) && q in s.qm.owner && Run(limit, s, steps).Some?
    ensures var s' := Run(limit, s, steps).value;
            && q !in s'.qm.queries
            && (forall id :: id in s'.qm.rows ==> s'.qm.rows[id].queryId != q)
            && (forall t :: t in s'.pipe.emitted ==> t.queryId != q)
            && (CanCreateDecide(s', q) ==>
                  var ds := Answers(q, keys, s'.qm.creators[q].seen);
                  && AllTruthy(ds)
                  && CreateDecide(s', q).qm.responses
                     == s'.qm.responses + [Response("", ds, s'.qm.creators[q].callbackUrl, COMPLETED)])
  {
    RunKeepsHits(limit, s, steps, q, keys);
    RunKeepsSafe(limit, s, steps);
    var s' := Run(limit, s, steps).value;
    NothingOf(s', q);
    if CanCreateDecide(s', q) {
      DecideOnHits(s', q, keys);
    }
  }

  lemma NothingOf(s: State, q: Uuid)
    requires Referenced(s) && q !in s.qm.queries
    ensures forall id :: id in s.qm.rows ==> s.qm.rows[id].queryId != q
    ensures forall t :: t in s.pipe.emitted ==> t.queryId != q
  {
  }

  lemma AskedIsCached(keys: seq<SubKey>, ds: seq<SubDto>, docs: seq<Doc>)
    requires AsksFor(keys, ds) && PathsCached(docs, ds)
    ensures forall k :: 0 <= k < |keys| ==> Cached(docs, keys[k].path)
  {
  }

  lemma StartHits(s: State, q: Uuid, keys: seq<SubKey>, url: Option<string>)
    requires q !in s.qm.queries && q !in s.audit.created
    requires forall k :: 0 <= k < |keys| ==> Cached(s.cache.docs, keys[k].path)
    ensures HitOrOver(CreateStart(s, q, keys, url), q, keys) && q in CreateStart(s, q, keys, url).qm.owner
  {
  }
}
