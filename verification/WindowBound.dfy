/** How many usages the check-then-log split lets through. A request is approved in one service and
    logged in another; `inFlight` counts the requests that are approved and not yet logged. */
module WindowBound {
  import opened Domain
  import opened RateLimiter

  datatype Gate = Gate(lim: Limiter, inFlight: nat)

  datatype GateStep = Tick(d: nat) | Approve | LogOne(id: Uuid) | Other

  function Open(start: int): Gate {
    Gate(Limiter(start, NoKey, []), 0)
  }

  predicate Can(limit: int, bound: nat, g: Gate, step: GateStep) {
    match step
    case Tick(_) => true
    case Approve => !Limited(limit, g.lim) && g.inFlight + 1 <= bound
    case LogOne(id) => g.inFlight > 0 && FreshUsage(g.lim, id)
    case Other => true
  }

  function Next(g: Gate, step: GateStep): Gate
    requires step.LogOne? ==> g.inFlight > 0
  {
    match step
    case Tick(d) => g.(lim := Advance(g.lim, d))
    case Approve => g.(inFlight := g.inFlight + 1)
    case LogOne(id) => Gate(Log(g.lim, id), g.inFlight - 1)
    case Other => g
  }

  /** The gate after a run in which never more than `bound` requests were in flight, if there is such a run. */
  function After(limit: int, bound: nat, g: Gate, steps: seq<GateStep>): Option<Gate> {
    if steps == [] then Some(g)
    else
      var before := After(limit, bound, g, steps[..|steps| - 1]);
      var step := steps[|steps| - 1];
      if before.Some? && Can(limit, bound, before.value, step) then Some(Next(before.value, step)) else None
  }

  /** No window that ends at a logged usage holds more than `most` usages. */
  ghost predicate EveryWindow(h: seq<Usage>, most: int) {
    forall i :: 0 <= i < |h| ==> WindowAt(h, i, most)
  }

  ghost predicate WindowAt(h: seq<Usage>, i: nat, most: int)
    requires i < |h|
  {
    CountIn(h[..i + 1], h[i].at - WINDOW, h[i].at) <= most
  }

  ghost predicate GateInv(limit: int, bound: nat, g: Gate) {
    && Refines(g.lim)
    && UsageCount(g.lim) + g.inFlight <= limit + bound - 1
    && EveryWindow(g.lim.history, limit + bound - 1)
  }

  lemma AppendKeepsWindows(h: seq<Usage>, u: Usage, most: int)
    requires EveryWindow(h, most) && CountIn(h + [u], u.at - WINDOW, u.at) <= most
    ensures EveryWindow(h + [u], most)
  {
    var h' := h + [u];
    forall i | 0 <= i < |h'| ensures WindowAt(h', i, most) {
      if i < |h| {
        assert WindowAt(h, i, most);
        assert h'[..i + 1] == h[..i + 1];
      } else {
        assert h'[..i + 1] == h';
      }
    }
  }

  lemma StepKeepsGateInv(limit: int, bound: nat, g: Gate, step: GateStep)
    requires GateInv(limit, bound, g) && Can(limit, bound, g, step)
    ensures GateInv(limit, bound, Next(g, step))
  {
    match step {
      case Tick(d) => AdvanceRefines(g.lim, d);
      case Approve =>
      case Other =>
      case LogOne(id) =>
        LogRefines(g.lim, id);
        AppendKeepsWindows(g.lim.history, Usage(id, g.lim.clock), limit + bound - 1);
    }
  }

  lemma {:induction false} RunKeepsGateInv(limit: int, bound: nat, start: int, steps: seq<GateStep>)
    requires limit >= 1 && bound >= 1
    requires After(limit, bound, Open(start), steps).Some?
    ensures GateInv(limit, bound, After(limit, bound, Open(start), steps).value)
  {
    if steps != [] {
      var before := steps[..|steps| - 1];
      RunKeepsGateInv(limit, bound, start, before);
      StepKeepsGateInv(limit, bound, After(limit, bound, Open(start), before).value, steps[|steps| - 1]);
    }
  }

  /** A bound on the windows that end at a usage bounds every window. */
  lemma {:induction false} AnyWindow(h: seq<Usage>, most: int, t: int)
    requires forall i, j :: 0 <= i < j < |h| ==> h[i].at <= h[j].at
    requires EveryWindow(h, most) && most >= 0
    ensures CountIn(h, t - WINDOW, t) <= most
  {
    if h != [] {
      var n := |h| - 1;
      if h[n].at <= t {
        assert WindowAt(h, n, most);
        assert h[..n + 1] == h;
        CountInMonotone(h, t - WINDOW, t, h[n].at - WINDOW, h[n].at);
      } else {
        forall i | 0 <= i < n ensures WindowAt(h[..n], i, most) {
          assert WindowAt(h, i, most);
          assert h[..n][..i + 1] == h[..i + 1];
        }
        AnyWindow(h[..n], most, t);
      }
    }
  }

  /** In every run with at most `bound` requests in flight, every window of one day, wherever it
      ends, holds at most `limit + bound - 1` usages. */
  lemma EveryWindowBounded(limit: int, bound: nat, start: int, steps: seq<GateStep>, t: int)
    requires limit >= 1 && bound >= 1
    requires After(limit, bound, Open(start), steps).Some?
    ensures var h := After(limit, bound, Open(start), steps).value.lim.history;
            CountIn(h, t - 24 * 60 * 60 * 1000, t) <= limit + bound - 1
  {
    RunKeepsGateInv(limit, bound, start, steps);
    AnyWindow(After(limit, bound, Open(start), steps).value.lim.history, limit + bound - 1, t);
  }

  // ----- the bound is attained -----

  function Name(n: nat): Uuid {
    seq(n, _ => 'u')
  }

  /** `n` usages logged at one moment under distinct names, the newest last. */
  ghost predicate Served(g: Gate, start: int, n: nat) {
    && Refines(g.lim) && g.lim.clock == start && |g.lim.history| == n
    && (forall i :: 0 <= i < n ==> g.lim.history[i] == Usage(Name(i), start))
  }

  lemma {:induction false} ServedCount(h: seq<Usage>, start: int)
    requires forall i :: 0 <= i < |h| ==> h[i].at == start
    ensures CountIn(h, start - WINDOW, start) == |h|
  {
    if h != [] {
      ServedCount(h[..|h| - 1], start);
    }
  }

  lemma LogServed(limit: int, bound: nat, g: Gate, start: int, n: nat)
    requires Served(g, start, n) && g.inFlight > 0
    ensures Can(limit, bound, g, LogOne(Name(n))) && Served(Next(g, LogOne(Name(n))), start, n + 1)
  {
    forall i | 0 <= i < n ensures g.lim.history[i].id != Name(n) {
      assert |Name(i)| < |Name(n)|;
    }
    LogRefines(g.lim, Name(n));
  }

  lemma ServedUsage(g: Gate, start: int, n: nat)
    requires Served(g, start, n)
    ensures UsageCount(g.lim) == n
  {
    CountIsLastWindow(g.lim);
    ServedCount(g.lim.history, start);
  }

  lemma Extend(limit: int, bound: nat, g: Gate, steps: seq<GateStep>, step: GateStep)
    requires After(limit, bound, g, steps).Some? && Can(limit, bound, After(limit, bound, g, steps).value, step)
    ensures After(limit, bound, g, steps + [step]) == Some(Next(After(limit, bound, g, steps).value, step))
  {
    assert (steps + [step])[..|steps|] == steps;
  }

  /** A run that logs `n` usages one at a time. */
  lemma {:induction false} ServeSingly(limit: int, bound: nat, start: int, n: nat) returns (steps: seq<GateStep>)
    requires bound >= 1 && n < limit
    ensures After(limit, bound, Open(start), steps).Some?
    ensures var g := After(limit, bound, Open(start), steps).value;
            Served(g, start, n) && g.inFlight == 0
  {
    if n == 0 {
      steps := [];
    } else {
      var before := ServeSingly(limit, bound, start, n - 1);
      var g := After(limit, bound, Open(start), before).value;
      ServedUsage(g, start, n - 1);
      Extend(limit, bound, Open(start), before, Approve);
      LogServed(limit, bound, Next(g, Approve), start, n - 1);
      Extend(limit, bound, Open(start), before + [Approve], LogOne(Name(n - 1)));
      steps := before + [Approve] + [LogOne(Name(n - 1))];
    }
  }

  /** From there, `k` more requests approved before the first of them is logged. */
  lemma {:induction false} ApproveTogether(limit: int, bound: nat, start: int, k: nat) returns (steps: seq<GateStep>)
    requires limit >= 1 && bound >= 1 && k <= bound
    ensures After(limit, bound, Open(start), steps).Some?
    ensures var g := After(limit, bound, Open(start), steps).value;
            Served(g, start, limit - 1) && g.inFlight == k
  {
    if k == 0 {
      steps := ServeSingly(limit, bound, start, limit - 1);
    } else {
      var before := ApproveTogether(limit, bound, start, k - 1);
      ServedUsage(After(limit, bound, Open(start), before).value, start, limit - 1);
      Extend(limit, bound, Open(start), before, Approve);
      steps := before + [Approve];
    }
  }

  lemma {:induction false} LogTogether(limit: int, bound: nat, start: int, k: nat) returns (steps: seq<GateStep>)
    requires limit >= 1 && bound >= 1 && k <= bound
    ensures After(limit, bound, Open(start), steps).Some?
    ensures var g := After(limit, bound, Open(start), steps).value;
            Served(g, start, limit - 1 + k) && g.inFlight == bound - k
  {
    if k == 0 {
      steps := ApproveTogether(limit, bound, start, bound);
    } else {
      var before := LogTogether(limit, bound, start, k - 1);
      LogServed(limit, bound, After(limit, bound, Open(start), before).value, start, limit - 1 + (k - 1));
      Extend(limit, bound, Open(start), before, LogOne(Name(limit - 1 + (k - 1))));
      steps := before + [LogOne(Name(limit - 1 + (k - 1)))];
    }
  }

  /** The bound is sharp for every limit and every bound on the requests in flight. */
  lemma BoundAttained(limit: int, bound: nat, start: int) returns (steps: seq<GateStep>)
    requires limit >= 1 && bound >= 1
    ensures After(limit, bound, Open(start), steps).Some?
    ensures CountIn(After(limit, bound, Open(start), steps).value.lim.history, start - WINDOW, start)
            == limit + bound - 1
  {
    steps := LogTogether(limit, bound, start, bound);
    ServedCount(After(limit, bound, Open(start), steps).value.lim.history, start);
  }
}
