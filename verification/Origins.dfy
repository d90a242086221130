/** What upstream answered, read off a run's own steps rather than off what the services recorded. */
module Origins {
  import opened Domain
  import opened Protocol
  import opened Frames
  import opened Conservation
  import opened Provenance
  import opened Invariants

  /** In the course of the run, upstream answered `data` to the call for token `t`. */
  ghost predicate FetchedIn(steps: seq<Step>, t: Token, data: Json) {
    exists k :: 0 <= k < |steps| && steps[k] == Moving(SConnectorFetch(t, data))
  }

  /** A result that is truthy is what upstream answered to some call for its path, to the letter. */
  ghost predicate AnsweredIn(steps: seq<Step>, path: Path, value: Json) {
    Truthy(value) ==> exists t :: FetchedIn(steps, t, value) && t.path == path
  }

  ghost predicate AllAnsweredIn(steps: seq<Step>, ds: seq<SubDto>) {
    forall i :: 0 <= i < |ds| ==> AnsweredIn(steps, ds[i].path, ds[i].result)
  }

  function FetchOf(step: Step): seq<Received> {
    match step
    case Moving(SConnectorFetch(t, data)) => [Received(t, data)]
    case _ => []
  }

  /** One RECEIVE for each upstream answer, with that answer, in the order of the answers. */
  function FetchesIn(steps: seq<Step>): seq<Received> {
    if steps == [] then []
    else FetchesIn(steps[..|steps| - 1]) + FetchOf(steps[|steps| - 1])
  }

  lemma StepReceives(limit: int, s: State, step: Step)
    requires Enabled(s, step)
    ensures Next(limit, s, step).pipe.received == s.pipe.received + FetchOf(step)
  {
    match step {
      case Tick(_) =>
      case Creating(c) => CreateLeavesCache(s, c);
      case Moving(m) =>
        if m.SConnectorFetch? {
          assert AfterMove(limit, s, m) == ConnectorFetch(s, m.t, m.data);
        } else {
          MoveFrame(limit, s, m);
        }
      case Caching(w) => WriteFrame(s, w);
      case Handling(h) => HandleFrame(s, h);
    }
  }

  /** The RECEIVEs that were emitted are the upstream answers of the run, one each, unchanged. */
  lemma {:induction false} ReceivesAreFetches(limit: int, start: int, steps: seq<Step>)
    requires Run(limit, Init(start), steps).Some?
    ensures Run(limit, Init(start), steps).value.pipe.received == FetchesIn(steps)
  {
    if steps != [] {
      var n := |steps| - 1;
      ReceivesAreFetches(limit, start, steps[..n]);
      StepReceives(limit, Run(limit, Init(start), steps[..n]).value, steps[n]);
    }
  }

  lemma {:induction false} FetchIsStep(steps: seq<Step>, m: Received)
    requires m in FetchesIn(steps)
    ensures FetchedIn(steps, m.token, m.result)
  {
    var n := |steps| - 1;
    if m in FetchesIn(steps[..n]) {
      FetchIsStep(steps[..n], m);
      var k :| 0 <= k < n && steps[..n][k] == Moving(SConnectorFetch(m.token, m.result));
      assert steps[k] == steps[..n][k];
    } else {
      assert m in FetchOf(steps[n]);
    }
  }

  lemma {:induction false} StepIsFetch(steps: seq<Step>, t: Token, data: Json, k: nat)
    requires k < |steps| && steps[k] == Moving(SConnectorFetch(t, data))
    ensures Received(t, data) in FetchesIn(steps)
  {
    var n := |steps| - 1;
    if k < n {
      StepIsFetch(steps[..n], t, data, k);
    } else {
      assert FetchOf(steps[n]) == [Received(t, data)];
    }
  }

  /** A RECEIVE carries what upstream answered to its own token; and every answer is in such a RECEIVE. */
  lemma ReceivedIsFetched(limit: int, start: int, steps: seq<Step>, m: Received)
    requires Run(limit, Init(start), steps).Some?
    ensures m in Run(limit, Init(start), steps).value.pipe.received <==> FetchedIn(steps, m.token, m.result)
  {
    ReceivesAreFetches(limit, start, steps);
    if m in FetchesIn(steps) {
      FetchIsStep(steps, m);
    }
    if k :| 0 <= k < |steps| && steps[k] == Moving(SConnectorFetch(m.token, m.result)) {
      StepIsFetch(steps, m.token, m.result, k);
    }
  }

  /** What came from a recorded call came from a step. */
  lemma CameFromStep(limit: int, start: int, steps: seq<Step>, path: Path, value: Json)
    requires Run(limit, Init(start), steps).Some?
    requires var s := Run(limit, Init(start), steps).value;
             HistoriesAgree(s.lim.history, s.pipe.logged, s.audit.calls, s.pipe.received)
             && Came(s.audit.calls, path, value)
    ensures AnsweredIn(steps, path, value)
  {
    var s := Run(limit, Init(start), steps).value;
    if Truthy(value) {
      var i :| 0 <= i < |s.audit.calls| && s.audit.calls[i] == Call(path, value);
      var m := s.pipe.received[i];
      assert m.token.path == path && m.result == value;
      ReceivedIsFetched(limit, start, steps, m);
    }
  }

  lemma RunHistoriesAgree(limit: int, start: int, steps: seq<Step>)
    requires Run(limit, Init(start), steps).Some?
    ensures var s := Run(limit, Init(start), steps).value;
            && HistoriesAgree(s.lim.history, s.pipe.logged, s.audit.calls, s.pipe.received)
            && ProvenanceInv(s)
  {
    InitIsSafe(start);
    RunKeepsSafe(limit, Init(start), steps);
  }

  lemma DtosCameFromSteps(limit: int, start: int, steps: seq<Step>, ds: seq<SubDto>)
    requires Run(limit, Init(start), steps).Some?
    requires var s := Run(limit, Init(start), steps).value;
             HistoriesAgree(s.lim.history, s.pipe.logged, s.audit.calls, s.pipe.received)
             && DtosCame(s.audit.calls, ds)
    ensures AllAnsweredIn(steps, ds)
  {
    forall i | 0 <= i < |ds| ensures AnsweredIn(steps, ds[i].path, ds[i].result) {
      CameFromStep(limit, start, steps, ds[i].path, ds[i].result);
    }
  }
}
