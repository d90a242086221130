/** The discipline of callbacks under interleaved handlers. */
module Callbacks {
  import opened Domain
  import opened Planner
  import opened Protocol
  import opened Conservation
  import opened References
  import opened Handlers
  import opened Announcements
  import opened Invariants

  /** The tokens whose handlers posted to the callback URL of query `q`, in order. */
  function TriggersFor(callbacks: seq<Callback>, q: Uuid): seq<Token> {
    if callbacks == [] then []
    else
      var c := callbacks[|callbacks| - 1];
      var before := TriggersFor(callbacks[..|callbacks| - 1], q);
      if c.body.id == q then before + [c.trigger] else before
  }

  lemma {:induction false} TriggersAreFrom(callbacks: seq<Callback>, q: Uuid, t: Token)
    requires t in TriggersFor(callbacks, q)
    ensures exists i :: 0 <= i < |callbacks| && callbacks[i].body.id == q && callbacks[i].trigger == t
  {
    var n := |callbacks| - 1;
    if t in TriggersFor(callbacks[..n], q) {
      TriggersAreFrom(callbacks[..n], q, t);
      var i :| 0 <= i < n && callbacks[..n][i].body.id == q && callbacks[..n][i].trigger == t;
      assert callbacks[i].trigger == t;
    } else {
      assert callbacks[n].trigger == t;
    }
  }

  lemma {:induction false} TriggersDistinct(callbacks: seq<Callback>, q: Uuid)
    requires forall i, j :: 0 <= i < j < |callbacks| ==> callbacks[i].trigger != callbacks[j].trigger
    ensures Distinct(TriggersFor(callbacks, q))
  {
    if callbacks != [] {
      var n := |callbacks| - 1;
      TriggersDistinct(callbacks[..n], q);
      if callbacks[n].trigger in TriggersFor(callbacks[..n], q) {
        TriggersAreFrom(callbacks[..n], q, callbacks[n].trigger);
      }
    }
  }

  lemma TriggerIsPlanned(s: State, i: nat)
    requires Conserved(s) && Referenced(s) && HandlersInv(s) && AnnouncedInv(s) && i < |s.qm.callbacks|
    ensures var c := s.qm.callbacks[i];
            c.body.id in s.audit.created && c.trigger in Plan(s.audit.created[c.body.id])
  {
    var c := s.qm.callbacks[i];
    assert CallbackFits(c, s.qm.queries, s.qm.rows);
    var m :| m in s.qm.done && m.token == c.trigger;
    assert m in multiset(s.pipe.received);
    ReceivedIsEmitted(s, m);
  }

  /** A query's callback fires at most once per path that was missing when the query was created. */
  lemma CallbacksBounded(limit: int, s: State, q: Uuid)
    requires Reachable(limit, s)
    ensures TriggersFor(s.qm.callbacks, q) != [] ==> q in s.audit.created
    ensures q in s.audit.created ==> |TriggersFor(s.qm.callbacks, q)| <= |MissingPaths(s.audit.created[q])|
  {
    ReachableIsSafe(limit, s);
    var ts := TriggersFor(s.qm.callbacks, q);
    TriggersDistinct(s.qm.callbacks, q);
    forall t | t in ts
      ensures q in s.audit.created && t in Plan(s.audit.created[q])
    {
      TriggersAreFrom(s.qm.callbacks, q, t);
      var i :| 0 <= i < |s.qm.callbacks| && s.qm.callbacks[i].body.id == q && s.qm.callbacks[i].trigger == t;
      TriggerIsPlanned(s, i);
    }
    if ts != [] {
      assert ts[0] in ts;
    }
    if q in s.audit.created {
      var plan := Plan(s.audit.created[q]);
      var pool := set i | 0 <= i < |plan| :: plan[i];
      DistinctFits(ts, pool);
      IndexedSetSize(plan);
      PlanCovers(s.audit.created[q]);
    }
  }

  lemma {:induction false} IndexedSetSize<T>(ts: seq<T>)
    ensures |set i | 0 <= i < |ts| :: ts[i]| <= |ts|
  {
    if ts != [] {
      var n := |ts| - 1;
      IndexedSetSize(ts[..n]);
      var before := set i | 0 <= i < n :: ts[..n][i];
      assert (set i | 0 <= i < |ts| :: ts[i]) == before + {ts[n]};
    }
  }

  /** Every callback body lists each subquery of its query exactly once, all with results, and goes to
      the URL the query was created with. */
  lemma CallbackBodies(limit: int, s: State, i: nat)
    requires Reachable(limit, s) && i < |s.qm.callbacks|
    ensures var c := s.qm.callbacks[i];
            && c.body.id in s.qm.queries && s.qm.queries[c.body.id].callbackUrl == Some(c.url)
            && |c.body.subqueries| == |s.qm.queries[c.body.id].subs|
            && (forall k :: 0 <= k < |c.body.subqueries| ==>
                  c.body.subqueries[k].id == s.qm.queries[c.body.id].subs[k] && Truthy(c.body.subqueries[k].result))
            && (forall k, n :: 0 <= k < n < |c.body.subqueries| ==> c.body.subqueries[k].id != c.body.subqueries[n].id)
  {
    ReachableIsSafe(limit, s);
    assert CallbackFits(s.qm.callbacks[i], s.qm.queries, s.qm.rows);
  }
}
