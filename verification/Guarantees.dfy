/** What the invariants come to in every reachable state, under any order of deliveries and with the
    handlers of all services interleaved at their awaits. */
module Guarantees {
  import opened Domain
  import opened Cache
  import opened Protocol
  import opened Conservation
  import opened References
  import opened Presence
  import opened Completion
  import opened Origins
  import opened Invariants
  import opened Fates
  import opened Lookup

  // ----- COMPLETED is sound -----

  lemma ReachableCompletion(limit: int, s: State)
    requires Reachable(limit, s)
    ensures Conserved(s) && Referenced(s) && PresenceInv(s) && CompletionInv(s)
  {
    ReachableIsSafe(limit, s);
  }

  /** A query stored as COMPLETED has each of its paths in the cache, or in a RECEIVE with a truthy result
      that the cache manager has not finished with. */
  lemma CompletedMeansCachedOrComing(limit: int, s: State, q: Uuid, i: nat)
    requires Reachable(limit, s)
    requires q in s.qm.queries && s.qm.queries[q].status == COMPLETED && i < |s.qm.queries[q].subs|
    ensures s.qm.queries[q].subs[i] in s.qm.rows
    ensures var path := s.qm.rows[s.qm.queries[q].subs[i]].path;
            Cached(s.cache.docs, path) || PendingAtCache(s.cache, path)
  {
    ReachableCompletion(limit, s);
    CompletedIsSound(s, q, i);
  }

  // ----- provenance -----

  /** Stored and answered results: cache documents, subquery rows, creation responses, callback bodies. Each
      truthy one is what upstream answered, in this run, to a call for its path. */
  lemma ResultsCame(limit: int, start: int, steps: seq<Step>)
    requires Run(limit, Init(start), steps).Some?
    ensures var s := Run(limit, Init(start), steps).value;
            && (forall i :: 0 <= i < |s.cache.docs| ==> AnsweredIn(steps, s.cache.docs[i].path, s.cache.docs[i].value))
            && (forall id :: id in s.qm.rows ==> AnsweredIn(steps, s.qm.rows[id].path, s.qm.rows[id].result))
            && (forall i :: 0 <= i < |s.qm.responses| ==> AllAnsweredIn(steps, s.qm.responses[i].subqueries))
            && (forall i :: 0 <= i < |s.qm.callbacks| ==> AllAnsweredIn(steps, s.qm.callbacks[i].body.subqueries))
  {
    var s := Run(limit, Init(start), steps).value;
    RunHistoriesAgree(limit, start, steps);
    forall i | 0 <= i < |s.cache.docs| ensures AnsweredIn(steps, s.cache.docs[i].path, s.cache.docs[i].value) {
      CameFromStep(limit, start, steps, s.cache.docs[i].path, s.cache.docs[i].value);
    }
    forall id | id in s.qm.rows ensures AnsweredIn(steps, s.qm.rows[id].path, s.qm.rows[id].result) {
      CameFromStep(limit, start, steps, s.qm.rows[id].path, s.qm.rows[id].result);
    }
    forall i | 0 <= i < |s.qm.responses| ensures AllAnsweredIn(steps, s.qm.responses[i].subqueries) {
      DtosCameFromSteps(limit, start, steps, s.qm.responses[i].subqueries);
    }
    forall i | 0 <= i < |s.qm.callbacks| ensures AllAnsweredIn(steps, s.qm.callbacks[i].body.subqueries) {
      DtosCameFromSteps(limit, start, steps, s.qm.callbacks[i].body.subqueries);
    }
  }

  /** A RECEIVE, wherever it is: at the cache manager, between its find and its save, or at the query manager. */
  ghost predicate Held(s: State, m: Received) {
    || m in s.cache.inbox || m in s.cache.done || m in s.qm.inbox || m in s.qm.done
    || (exists i :: 0 <= i < |s.cache.writes| && s.cache.writes[i].msg == m)
    || (exists i :: 0 <= i < |s.qm.handlers| && s.qm.handlers[i].msg == m)
  }

  /** Every RECEIVE carries, unchanged and whether truthy or not, what upstream answered to the call for its own
      token; and for every answer there is one. */
  lemma MessagesCame(limit: int, start: int, steps: seq<Step>)
    requires Run(limit, Init(start), steps).Some?
    ensures var s := Run(limit, Init(start), steps).value;
            forall m :: m in s.pipe.received <==> FetchedIn(steps, m.token, m.result)
    ensures var s := Run(limit, Init(start), steps).value;
            forall m :: Held(s, m) <==> FetchedIn(steps, m.token, m.result)
  {
    var s := Run(limit, Init(start), steps).value;
    RunKeepsTables(limit, start, steps);
    forall m ensures m in s.pipe.received <==> FetchedIn(steps, m.token, m.result) {
      ReceivedIsFetched(limit, start, steps, m);
    }
    forall m ensures Held(s, m) <==> m in s.pipe.received {
      HeldIsReceived(s, m);
    }
  }

  lemma HeldIsReceived(s: State, m: Received)
    requires Conserved(s)
    ensures Held(s, m) <==> m in s.pipe.received
  {
    if m in s.pipe.received {
      assert m in multiset(s.pipe.received);
      ReceivedIsHeld(s, m);
    } else {
      assert m !in multiset(s.pipe.received);
      forall i | 0 <= i < |s.cache.writes| ensures s.cache.writes[i].msg != m {
        WriteIsReceived(s, i);
      }
      forall i | 0 <= i < |s.qm.handlers| ensures s.qm.handlers[i].msg != m {
        HandlerIsReceived(s, i);
      }
    }
  }

  lemma ReceivedIsHeld(s: State, m: Received)
    requires Conserved(s) && m in multiset(s.pipe.received)
    ensures Held(s, m)
  {
    if m !in s.cache.inbox && m !in s.cache.done {
      assert m in multiset(WriteMsgs(s.cache.writes));
      var i :| 0 <= i < |WriteMsgs(s.cache.writes)| && WriteMsgs(s.cache.writes)[i] == m;
      assert s.cache.writes[i].msg == m;
    }
  }

  lemma WriteIsReceived(s: State, i: nat)
    requires Conserved(s) && i < |s.cache.writes|
    ensures s.cache.writes[i].msg in s.pipe.received
  {
    assert WriteMsgs(s.cache.writes)[i] == s.cache.writes[i].msg;
    assert s.cache.writes[i].msg in multiset(WriteMsgs(s.cache.writes));
    assert s.cache.writes[i].msg in multiset(s.pipe.received);
  }

  /** A poll shows nothing else. */
  lemma PollCame(limit: int, start: int, steps: seq<Step>, q: Uuid)
    requires Run(limit, Init(start), steps).Some?
    ensures AllAnsweredIn(steps, Poll(Run(limit, Init(start), steps).value.qm, q).subqueries)
  {
    RunHistoriesAgree(limit, start, steps);
    var s := Run(limit, Init(start), steps).value;
    DtosCameFromSteps(limit, start, steps, Poll(s.qm, q).subqueries);
  }

  // ----- references -----

  /** Wherever a token is, it names a stored row with its path, owned by a stored query with its query id;
      so neither findOneOrFail of the result handler ever fails. */
  lemma TokensNameRows(limit: int, s: State, t: Token, place: Place)
    requires Reachable(limit, s) && At(s, t, place)
    ensures t.id in s.qm.rows && s.qm.rows[t.id].path == t.path && s.qm.rows[t.id].queryId == t.queryId
    ensures t.queryId in s.qm.queries && t.id in s.qm.queries[t.queryId].subs
  {
    ReachableTables(limit, s);
    PlacedIsEmitted(s, t, place);
  }

  lemma NoHandlerFails(limit: int, s: State)
    requires Reachable(limit, s)
    ensures s.qm.failed == NO_RESULTS
    ensures forall m :: m in s.qm.inbox ==> m.token.id in s.qm.rows
    ensures forall i: nat :: CanHandlerLoad(s, i) ==> s.qm.handlers[i].msg.token.queryId in s.qm.queries
  {
    ReachableTables(limit, s);
    forall m | m in s.qm.inbox ensures m.token.id in s.qm.rows {
      InboxNames(s, m);
    }
    forall i: nat | CanHandlerLoad(s, i) ensures s.qm.handlers[i].msg.token.queryId in s.qm.queries {
      HandlerNames(s, i);
    }
  }

  // ----- the cache is a map -----

  lemma ReachablePresence(limit: int, s: State)
    requires Reachable(limit, s)
    ensures PresenceInv(s)
  {
    ReachableIsSafe(limit, s);
  }

  /** At most one document per path, every value truthy, and a read is a lookup that answers null exactly
      for an absent path. */
  lemma CacheIsAMap(limit: int, s: State, path: Path)
    requires Reachable(limit, s)
    ensures forall i, j :: 0 <= i < j < |s.cache.docs| ==> s.cache.docs[i].path != s.cache.docs[j].path
    ensures forall i :: 0 <= i < |s.cache.docs| ==> Truthy(s.cache.docs[i].value)
    ensures var m := AsMap(s.cache.docs); Read(s.cache.docs, path) == if path in m then m[path] else Null
    ensures Read(s.cache.docs, path) == Null <==> path !in AsMap(s.cache.docs)
  {
    ReachablePresence(limit, s);
    ReadRefinesLookup(s.cache.docs, path);
  }

  /** However many other saves came between its find and its save, a save is a map update; only a save
      that found nothing and is not the first to insert is rejected, by the unique index. */
  lemma SaveIsMapUpdate(limit: int, s: State, i: nat)
    requires Reachable(limit, s) && i < |s.cache.writes|
    ensures var w := s.cache.writes[i];
            var before := AsMap(s.cache.docs);
            var path := w.msg.token.path;
            AsMap(CacheSave(s, i).cache.docs)
            == if w.existing.None? && path in before then before else before[path := w.msg.result]
  {
    ReachablePresence(limit, s);
    var w := s.cache.writes[i];
    SaveRefinesUpdate(s.cache.docs, w.existing, w.msg.token.path, w.msg.result);
  }

  /** Once cached, always cached. */
  lemma CachedForGood(limit: int, s: State, steps: seq<Step>, path: Path)
    requires Reachable(limit, s) && path in AsMap(s.cache.docs) && Run(limit, s, steps).Some?
    ensures path in AsMap(Run(limit, s, steps).value.cache.docs)
  {
    ReachableIsSafe(limit, s);
    RunGrows(limit, s, steps);
    AsMapMembers(s.cache.docs, path);
    AsMapMembers(Run(limit, s, steps).value.cache.docs, path);
  }
}
