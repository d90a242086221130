/** The requeue loop: a deferred job waits a whole window, so a second denial needs a newly logged usage. */
module RetryQueue {
  import opened Domain
  import opened RateLimiter
  import opened Planner
  import opened Protocol
  import opened Frames
  import opened Conservation
  import opened References
  import opened Invariants

  /** One token's denials: at most one more than the usages logged since the first of them. */
  ghost predicate DenialFits(d: Denial, lim: Limiter) {
    && 1 <= d.times <= 1 + d.lastLogs - d.firstLogs
    && d.firstLogs <= d.lastLogs <= |lim.history|
    && d.lastAt <= lim.clock
    && forall i :: 0 <= i < d.lastLogs ==> lim.history[i].at <= d.lastAt
  }

  ghost predicate DenialsFit(denials: map<Token, Denial>, lim: Limiter) {
    forall t :: t in denials ==> DenialFits(denials[t], lim)
  }

  /** Denied tokens were emitted, and the log was shorter than the number of tokens. */
  ghost predicate DenialsKnown(denials: map<Token, Denial>, emitted: multiset<Token>, inbox: multiset<Token>) {
    && (forall t :: t in denials ==> t in emitted && denials[t].lastLogs < |emitted|)
    && (forall t :: t in inbox ==> t !in denials)
  }

  /** Whoever waits was denied, and waits for a whole window after that. */
  ghost predicate Waiting(denials: map<Token, Denial>, denied: multiset<Token>, delayed: seq<Job>) {
    && (forall t :: t in denied ==> t in denials)
    && (forall i :: 0 <= i < |delayed| ==>
          delayed[i].token in denials && denials[delayed[i].token].lastAt + WINDOW <= delayed[i].due)
  }

  ghost predicate RetriesFit(r: Retries, lim: Limiter, p: Pipe) {
    && DenialsFit(r.denials, lim)
    && DenialsKnown(r.denials, p.emitted, p.scheduleInbox)
    && Waiting(r.denials, p.denied, p.delayed)
  }

  ghost predicate RetryInv(s: State) {
    RetriesFit(s.retries, s.lim, s.pipe)
  }

  // ----- the heart of it -----

  /** While the limiter says no, the last usage is less than a window old. */
  lemma LimitedMeansRecent(limit: int, l: Limiter)
    requires limit >= 1 && Refines(l) && Limited(limit, l)
    ensures l.history != [] && l.clock < LastLog(l.history) + WINDOW
  {
  }

  /** A job denied again: since its last denial at least one usage was logged. */
  lemma SecondDenialNeedsUsage(limit: int, s: State, i: nat)
    requires limit >= 1 && Refines(s.lim) && RetryInv(s) && CanJobCheck(s, i) && Limited(limit, s.lim)
    ensures s.pipe.delayed[i].token in s.retries.denials
    ensures s.retries.denials[s.pipe.delayed[i].token].lastLogs < |s.lim.history|
  {
    LimitedMeansRecent(limit, s.lim);
    var d := s.retries.denials[s.pipe.delayed[i].token];
    assert DenialFits(d, s.lim);
    assert LastLog(s.lim.history) > d.lastAt;
  }

  // ----- preservation -----

  lemma DenyFits(r: Retries, t: Token, lim: Limiter)
    requires DenialsFit(r.denials, lim) && Refines(lim)
    requires t in r.denials ==> r.denials[t].lastLogs < |lim.history|
    ensures DenialsFit(Deny(r, t, |lim.history|, lim.clock).denials, lim)
  {
    var r' := Deny(r, t, |lim.history|, lim.clock);
    forall u | u in r'.denials ensures DenialFits(r'.denials[u], lim) {
      if u != t {
        assert DenialFits(r.denials[u], lim);
      } else if t in r.denials {
        assert DenialFits(r.denials[t], lim);
      }
    }
  }

  /** A token that is being judged is not fetched yet, so the log has room for it. */
  lemma LogsBelowTokens(s: State, t: Token)
    requires Conserved(s) && t in s.pipe.emitted - s.pipe.fetched
    ensures |s.lim.history| < |s.pipe.emitted|
  {
    var rest := s.pipe.scheduleInbox + s.pipe.denied + s.pipe.approved + multiset(JobTokens(s.pipe.delayed));
    assert s.pipe.emitted == rest + s.pipe.fetched;
    assert |s.pipe.emitted| == |rest| + |s.pipe.fetched|;
    assert t in rest;
    assert |s.pipe.fetched| == |s.pipe.trafficInbox| + |s.pipe.logged|;
  }

  lemma ScheduledIsNotFetched(s: State, t: Token)
    requires Conserved(s) && Referenced(s) && CanScheduleCheck(s, t)
    ensures t in s.pipe.emitted - s.pipe.fetched && t !in s.pipe.scheduleInbox - multiset{t}
  {
    assert s.pipe.emitted[t] == 1;
    assert s.pipe.scheduleInbox[t] == 1 && s.pipe.fetched[t] == 0;
  }

  lemma DenyKnown(denials: map<Token, Denial>, emitted: multiset<Token>, inbox: multiset<Token>, t: Token, d: Denial)
    requires DenialsKnown(denials, emitted, inbox) && t in emitted && d.lastLogs < |emitted|
             && t !in inbox - multiset{t}
    ensures DenialsKnown(denials[t := d], emitted, inbox - multiset{t})
    ensures DenialsKnown(denials, emitted, inbox - multiset{t})
  {
  }

  lemma DenyWaits(denials: map<Token, Denial>, denied: multiset<Token>, delayed: seq<Job>, t: Token, d: Denial)
    requires Waiting(denials, denied, delayed) && forall i :: 0 <= i < |delayed| ==> delayed[i].token != t
    ensures Waiting(denials[t := d], denied + multiset{t}, delayed)
  {
  }

  lemma ScheduleCheckKeepsRetries(limit: int, s: State, t: Token)
    requires Conserved(s) && Referenced(s) && Refines(s.lim) && RetryInv(s) && CanScheduleCheck(s, t)
    ensures RetryInv(ScheduleCheck(limit, s, t))
  {
    var d := Deny(s.retries, t, |s.lim.history|, s.lim.clock).denials[t];
    ScheduledIsNotFetched(s, t);
    LogsBelowTokens(s, t);
    DenyKnown(s.retries.denials, s.pipe.emitted, s.pipe.scheduleInbox, t, d);
    if Limited(limit, s.lim) {
      DenyFits(s.retries, t, s.lim);
      NewDenialWaits(s, t);
      DenyWaits(s.retries.denials, s.pipe.denied, s.pipe.delayed, t, d);
    }
  }

  /** Nobody else is waiting for a token that still sits at the scheduler. */
  lemma NewDenialWaits(s: State, t: Token)
    requires RetryInv(s) && CanScheduleCheck(s, t)
    ensures forall i :: 0 <= i < |s.pipe.delayed| ==> s.pipe.delayed[i].token != t
  {
    assert t !in s.retries.denials;
  }

  lemma JobIsNotFetched(s: State, i: nat)
    requires Conserved(s) && Referenced(s) && i < |s.pipe.delayed|
    ensures s.pipe.delayed[i].token in s.pipe.emitted - s.pipe.fetched
    ensures s.pipe.delayed[i].token !in s.pipe.scheduleInbox
    ensures forall k :: 0 <= k < |s.pipe.delayed| && k != i ==> s.pipe.delayed[k].token != s.pipe.delayed[i].token
  {
    var ts := JobTokens(s.pipe.delayed);
    assert ts[i] in multiset(ts);
    assert s.pipe.emitted[ts[i]] == 1;
    assert multiset(ts)[ts[i]] <= 1;
    forall k | 0 <= k < |s.pipe.delayed| && k != i ensures s.pipe.delayed[k].token != s.pipe.delayed[i].token {
      if ts[k] == ts[i] {
        if k < i { CountOfTwo(ts, k, i); } else { CountOfTwo(ts, i, k); }
      }
    }
  }

  lemma WaitingWithout(denials: map<Token, Denial>, denied: multiset<Token>, delayed: seq<Job>, i: nat, t: Token,
                       d: Denial)
    requires Waiting(denials, denied, delayed) && i < |delayed|
    requires forall k :: 0 <= k < |delayed| && k != i ==> delayed[k].token != t
    ensures Waiting(denials[t := d], denied + multiset{t}, RemoveAt(delayed, i))
    ensures Waiting(denials, denied, RemoveAt(delayed, i))
  {
  }

  lemma JobCheckKeepsRetries(limit: int, s: State, i: nat)
    requires limit >= 1
    requires Conserved(s) && Referenced(s) && Refines(s.lim) && RetryInv(s) && CanJobCheck(s, i)
    ensures RetryInv(JobCheck(limit, s, i))
  {
    var t := s.pipe.delayed[i].token;
    JobIsNotFetched(s, i);
    var r' := Deny(s.retries, t, |s.lim.history|, s.lim.clock);
    WaitingWithout(s.retries.denials, s.pipe.denied, s.pipe.delayed, i, t, r'.denials[t]);
    if Limited(limit, s.lim) {
      SecondDenialNeedsUsage(limit, s, i);
      LogsBelowTokens(s, t);
      DenyFits(s.retries, t, s.lim);
    }
  }

  lemma LogKeepsDenials(denials: map<Token, Denial>, lim: Limiter, id: Uuid)
    requires DenialsFit(denials, lim)
    ensures DenialsFit(denials, Log(lim, id))
  {
    forall t | t in denials ensures DenialFits(denials[t], Log(lim, id)) {
      assert DenialFits(denials[t], lim);
    }
  }

  lemma TickKeepsDenials(denials: map<Token, Denial>, lim: Limiter, d: nat)
    requires DenialsFit(denials, lim)
    ensures DenialsFit(denials, Advance(lim, d))
  {
    forall t | t in denials ensures DenialFits(denials[t], Advance(lim, d)) {
      assert DenialFits(denials[t], lim);
    }
  }

  lemma DeferKeepsRetries(s: State, t: Token)
    requires RetryInv(s) && t in s.pipe.denied
    ensures RetryInv(Defer(s, t))
  {
    assert DenialFits(s.retries.denials[t], s.lim);
  }

  /** From FETCH on, nobody waits or is denied any more. */
  lemma MoveLeavesRetries(limit: int, s: State, m: MoveStep)
    requires CanMove(s, m) && (m.SEmitFetch? || m.SLogUsage? || m.SConnectorRead? || m.SConnectorFetch?)
    ensures var s' := AfterMove(limit, s, m);
            && s'.retries == s.retries && s'.pipe.emitted == s.pipe.emitted
            && s'.pipe.scheduleInbox == s.pipe.scheduleInbox
            && s'.pipe.denied == s.pipe.denied && s'.pipe.delayed == s.pipe.delayed
            && (!m.SLogUsage? ==> s'.lim == s.lim)
  {
    match m {
      case SEmitFetch(_) =>
      case SLogUsage(_, _) =>
      case SConnectorRead(_) =>
      case SConnectorFetch(_, _) =>
    }
  }

  lemma MoveKeepsRetries(limit: int, s: State, m: MoveStep)
    requires limit >= 1
    requires Conserved(s) && Referenced(s) && Refines(s.lim) && RetryInv(s) && CanMove(s, m)
    ensures RetryInv(AfterMove(limit, s, m))
  {
    match m {
      case SScheduleCheck(t) => ScheduleCheckKeepsRetries(limit, s, t);
      case SJobCheck(i) => JobCheckKeepsRetries(limit, s, i);
      case SDefer(t) => DeferKeepsRetries(s, t);
      case SEmitFetch(_) => MoveLeavesRetries(limit, s, m);
      case SLogUsage(_, id) => MoveLeavesRetries(limit, s, m); LogKeepsDenials(s.retries.denials, s.lim, id);
      case SConnectorRead(_) => MoveLeavesRetries(limit, s, m);
      case SConnectorFetch(_, _) => MoveLeavesRetries(limit, s, m);
    }
  }

  lemma EmitKeepsRetries(s: State, q: Uuid)
    requires Referenced(s) && RetryInv(s) && CanCreateEmit(s, q)
    ensures RetryInv(CreateEmit(s, q))
  {
    var s' := CreateEmit(s, q);
    var plan := Plan(Answers(q, s.qm.creators[q].keys, s.qm.creators[q].seen));
    forall t | t in s'.pipe.scheduleInbox ensures t !in s.retries.denials {
      if t in plan {
        PlanNames(s, q, t);
      }
    }
    assert |s'.pipe.emitted| == |s.pipe.emitted| + |multiset(plan)|;
  }

  lemma CreateKeepsRetries(s: State, c: CreateStep)
    requires Referenced(s) && RetryInv(s) && CanCreate(s, c)
    ensures RetryInv(AfterCreate(s, c))
  {
    match c {
      case SCreateStart(_, _, _) =>
      case SCreateRead(_, _) =>
      case SCreateDecide(_) =>
      case SCreateSaveRows(_) =>
      case SCreateEmit(q) => EmitKeepsRetries(s, q);
    }
  }

  lemma StepKeepsRetries(limit: int, s: State, step: Step)
    requires limit >= 1
    requires Conserved(s) && Referenced(s) && Refines(s.lim) && RetryInv(s) && Enabled(s, step)
    ensures RetryInv(Next(limit, s, step))
  {
    match step {
      case Tick(d) => TickKeepsDenials(s.retries.denials, s.lim, d);
      case Creating(c) => CreateKeepsRetries(s, c);
      case Moving(m) => MoveKeepsRetries(limit, s, m);
      case Caching(w) => WriteFrame(s, w);
      case Handling(h) => HandleFrame(s, h);
    }
  }

  lemma {:induction false} RunKeepsRetries(limit: int, start: int, steps: seq<Step>)
    requires limit >= 1 && Run(limit, Init(start), steps).Some?
    ensures RetryInv(Run(limit, Init(start), steps).value)
  {
    if steps != [] {
      var before := steps[..|steps| - 1];
      RunKeepsRetries(limit, start, before);
      InitIsSafe(start);
      RunKeepsSafe(limit, Init(start), before);
      StepKeepsRetries(limit, Run(limit, Init(start), before).value, steps[|steps| - 1]);
    }
  }

  // ----- how long a job waits -----

  ghost predicate DueSoon(delayed: seq<Job>, clock: int) {
    forall i :: 0 <= i < |delayed| ==> delayed[i].due <= clock + WINDOW
  }

  lemma MoveKeepsDue(limit: int, s: State, m: MoveStep)
    requires DueSoon(s.pipe.delayed, s.lim.clock) && CanMove(s, m)
    ensures DueSoon(AfterMove(limit, s, m).pipe.delayed, AfterMove(limit, s, m).lim.clock)
  {
    match m {
      case SScheduleCheck(t) => assert AfterMove(limit, s, m) == ScheduleCheck(limit, s, t);
      case SJobCheck(i) => assert AfterMove(limit, s, m) == JobCheck(limit, s, i);
      case SDefer(t) => assert AfterMove(limit, s, m) == Defer(s, t);
      case SEmitFetch(t) => assert AfterMove(limit, s, m) == EmitFetch(s, t);
      case SLogUsage(t, id) => assert AfterMove(limit, s, m) == LogUsage(s, t, id);
      case SConnectorRead(t) => assert AfterMove(limit, s, m) == ConnectorRead(s, t);
      case SConnectorFetch(t, data) => assert AfterMove(limit, s, m) == ConnectorFetch(s, t, data);
    }
  }

  lemma CreateLeavesQueue(s: State, c: CreateStep)
    requires CanCreate(s, c)
    ensures AfterCreate(s, c).pipe.delayed == s.pipe.delayed
  {
    match c {
      case SCreateStart(q, keys, url) => assert AfterCreate(s, c) == CreateStart(s, q, keys, url);
      case SCreateRead(q, k) => assert AfterCreate(s, c) == CreateRead(s, q, k);
      case SCreateDecide(q) => assert AfterCreate(s, c) == CreateDecide(s, q);
      case SCreateSaveRows(q) => assert AfterCreate(s, c) == CreateSaveRows(s, q);
      case SCreateEmit(q) => assert AfterCreate(s, c) == CreateEmit(s, q);
    }
  }

  lemma {:induction false} RunKeepsDue(limit: int, start: int, steps: seq<Step>)
    requires Run(limit, Init(start), steps).Some?
    ensures var s := Run(limit, Init(start), steps).value; DueSoon(s.pipe.delayed, s.lim.clock)
  {
    if steps != [] {
      var n := |steps| - 1;
      RunKeepsDue(limit, start, steps[..n]);
      var s := Run(limit, Init(start), steps[..n]).value;
      match steps[n] {
        case Tick(_) =>
        case Creating(c) => CreateLeavesLimiter(s, c); CreateLeavesQueue(s, c);
        case Moving(m) => MoveKeepsDue(limit, s, m);
        case Caching(w) => WriteFrame(s, w);
        case Handling(h) => HandleFrame(s, h);
      }
    }
  }

  /** A deferred job is held back for 24 hours after the denial that deferred it, and becomes due no later than
      24 hours from now. */
  lemma JobsWaitADay(limit: int, s: State, i: nat)
    requires limit >= 1 && Reachable(limit, s) && i < |s.pipe.delayed|
    ensures s.pipe.delayed[i].token in s.retries.denials
    ensures s.retries.denials[s.pipe.delayed[i].token].lastAt + 24 * 60 * 60 * 1000 <= s.pipe.delayed[i].due
    ensures s.pipe.delayed[i].due <= s.lim.clock + 24 * 60 * 60 * 1000
  {
    ReachableRetries(limit, s);
    var start, steps :| Run(limit, Init(start), steps) == Some(s);
    RunKeepsDue(limit, start, steps);
  }

  // ----- how many deferrals there can be in all -----

  /** 0 + 1 + ... + (n - 1) */
  function Triangle(n: nat): nat {
    if n == 0 then 0 else Triangle(n - 1) + n - 1
  }

  lemma {:induction false} TriangleIs(n: nat)
    ensures 2 * Triangle(n) == n * (n - 1)
  {
    if n != 0 {
      TriangleIs(n - 1);
      assert n * (n - 1) == (n - 1) * (n - 2) + 2 * (n - 1);
    }
  }

  lemma {:induction false} TriangleWidens(a: nat, b: nat, k: nat)
    requires a <= b
    ensures Triangle(a + k) - Triangle(a) <= Triangle(b + k) - Triangle(b)
  {
    if k != 0 {
      TriangleWidens(a, b, k - 1);
    }
  }

  /** The tokens that were last denied when `logs` usages had been logged. */
  ghost function DeniedAt(denials: map<Token, Denial>, logs: nat): set<Token> {
    set t | t in denials && denials[t].lastLogs == logs
  }

  /** After the first `limit` usages, between two usages each token that is not logged yet is deferred at
      most once; before them, none is. */
  ghost predicate DeferralsFit(limit: int, r: Retries, logs: nat, tokens: nat) {
    && logs <= tokens
    && (logs < limit ==> r.deferrals == 0)
    && (logs >= limit >= 1 ==>
          r.deferrals + Triangle(tokens - logs + 1) <= Triangle(tokens - limit + 1) + |DeniedAt(r.denials, logs)|)
  }

  ghost predicate DeniedUnlogged(denials: map<Token, Denial>, logs: nat, logged: multiset<Token>) {
    forall t :: t in DeniedAt(denials, logs) ==> t !in logged
  }

  ghost predicate DeferralsInv(limit: int, s: State) {
    && DeferralsFit(limit, s.retries, |s.lim.history|, |s.pipe.emitted|)
    && DeniedUnlogged(s.retries.denials, |s.lim.history|, s.pipe.logged)
  }

  lemma {:induction false} CountInFits(h: seq<Usage>, lo: int, hi: int)
    ensures CountIn(h, lo, hi) <= |h|
  {
    if h != [] {
      CountInFits(h[..|h| - 1], lo, hi);
    }
  }

  /** The limiter says no only after `limit` usages. */
  lemma LimitedMeansLogged(limit: int, l: Limiter)
    requires limit >= 1 && Refines(l) && Limited(limit, l)
    ensures |l.history| >= limit
  {
    CountIsLastWindow(l);
    if l.history != [] {
      CountInFits(l.history, LastLog(l.history) - WINDOW, l.clock);
    }
  }

  lemma DeniedAtUpdate(denials: map<Token, Denial>, t: Token, d: Denial)
    requires t !in DeniedAt(denials, d.lastLogs)
    ensures DeniedAt(denials[t := d], d.lastLogs) == DeniedAt(denials, d.lastLogs) + {t}
  {
  }

  lemma DenyCounts(limit: int, s: State, t: Token)
    requires limit >= 1 && Conserved(s) && Refines(s.lim) && DeferralsInv(limit, s) && Limited(limit, s.lim)
    requires t in s.pipe.emitted - s.pipe.fetched && s.pipe.emitted[t] == 1
    requires t in s.retries.denials ==> s.retries.denials[t].lastLogs < |s.lim.history|
    ensures var r' := Deny(s.retries, t, |s.lim.history|, s.lim.clock);
            DeferralsFit(limit, r', |s.lim.history|, |s.pipe.emitted|)
            && DeniedUnlogged(r'.denials, |s.lim.history|, s.pipe.logged)
  {
    LimitedMeansLogged(limit, s.lim);
    var r' := Deny(s.retries, t, |s.lim.history|, s.lim.clock);
    DeniedAtUpdate(s.retries.denials, t, r'.denials[t]);
    assert t !in s.pipe.logged;
  }

  /** Tokens set apart from those logged leave room for these. */
  lemma ApartFits(apart: set<Token>, logged: multiset<Token>, emitted: multiset<Token>)
    requires logged <= emitted && forall t :: t in apart ==> t in emitted && t !in logged
    ensures |apart| + |logged| <= |emitted|
  {
    var both := multiset(apart) + logged;
    assert both <= emitted;
    assert |emitted| == |both| + |emitted - both|;
  }

  lemma LoggedFit(s: State)
    requires Conserved(s)
    ensures s.pipe.logged <= s.pipe.emitted && |s.lim.history| == |s.pipe.logged|
  {
  }

  lemma DeniedFit(denials: map<Token, Denial>, lim: Limiter, p: Pipe)
    requires DenialsKnown(denials, p.emitted, p.scheduleInbox) && DeniedUnlogged(denials, |lim.history|, p.logged)
    requires p.logged <= p.emitted
    ensures |DeniedAt(denials, |lim.history|)| + |p.logged| <= |p.emitted|
  {
    ApartFits(DeniedAt(denials, |lim.history|), p.logged, p.emitted);
  }

  lemma NobodyDeniedYet(denials: map<Token, Denial>, lim: Limiter)
    requires DenialsFit(denials, lim)
    ensures DeniedAt(denials, |lim.history| + 1) == {}
  {
    forall t | t in denials ensures denials[t].lastLogs <= |lim.history| {
      assert DenialFits(denials[t], lim);
    }
  }

  /** The next usage opens the next round of deferrals. */
  lemma NextRound(limit: int, r: Retries, logs: nat, tokens: nat)
    requires DeferralsFit(limit, r, logs, tokens) && logs < tokens
    requires |DeniedAt(r.denials, logs)| + logs <= tokens
    ensures DeferralsFit(limit, r, logs + 1, tokens)
  {
  }

  lemma LogCounts(limit: int, s: State, t: Token, id: Uuid)
    requires limit >= 1 && Conserved(s) && RetryInv(s) && DeferralsInv(limit, s) && t in s.pipe.trafficInbox
    ensures DeferralsInv(limit, LogUsage(s, t, id))
  {
    LoggedFit(s);
    DeniedFit(s.retries.denials, s.lim, s.pipe);
    LogLeavesRoom(s, t);
    NextRound(limit, s.retries, |s.lim.history|, |s.pipe.emitted|);
    NobodyDeniedYet(s.retries.denials, s.lim);
  }

  lemma LogLeavesRoom(s: State, t: Token)
    requires Conserved(s) && t in s.pipe.trafficInbox
    ensures |s.lim.history| < |s.pipe.emitted|
  {
    var rest := s.pipe.scheduleInbox + s.pipe.denied + s.pipe.approved + multiset(JobTokens(s.pipe.delayed));
    assert |s.pipe.emitted| == |rest| + |s.pipe.fetched|;
    assert |s.pipe.fetched| == |s.pipe.trafficInbox| + |s.pipe.logged|;
  }

  lemma ScheduleCheckCounts(limit: int, s: State, t: Token)
    requires limit >= 1 && Conserved(s) && Referenced(s) && Refines(s.lim) && RetryInv(s) && DeferralsInv(limit, s)
    requires CanScheduleCheck(s, t)
    ensures DeferralsInv(limit, ScheduleCheck(limit, s, t))
  {
    if Limited(limit, s.lim) {
      ScheduledIsNotFetched(s, t);
      DenyCounts(limit, s, t);
    }
  }

  lemma JobCheckCounts(limit: int, s: State, i: nat)
    requires limit >= 1 && Conserved(s) && Referenced(s) && Refines(s.lim) && RetryInv(s) && DeferralsInv(limit, s)
    requires CanJobCheck(s, i)
    ensures DeferralsInv(limit, JobCheck(limit, s, i))
  {
    if Limited(limit, s.lim) {
      JobIsNotFetched(s, i);
      SecondDenialNeedsUsage(limit, s, i);
      DenyCounts(limit, s, s.pipe.delayed[i].token);
    }
  }

  /** Only a check defers, only a usage is logged. */
  lemma MoveLeavesCounts(limit: int, s: State, m: MoveStep)
    requires CanMove(s, m) && (m.SDefer? || m.SEmitFetch? || m.SConnectorRead? || m.SConnectorFetch?)
    ensures var s' := AfterMove(limit, s, m);
            s'.retries == s.retries && s'.lim == s.lim && s'.pipe.emitted == s.pipe.emitted
            && s'.pipe.logged == s.pipe.logged
  {
    match m {
      case SDefer(t) => assert AfterMove(limit, s, m) == Defer(s, t);
      case SEmitFetch(t) => assert AfterMove(limit, s, m) == EmitFetch(s, t);
      case SConnectorRead(t) => assert AfterMove(limit, s, m) == ConnectorRead(s, t);
      case SConnectorFetch(t, data) => assert AfterMove(limit, s, m) == ConnectorFetch(s, t, data);
    }
  }

  lemma MoveKeepsCounts(limit: int, s: State, m: MoveStep)
    requires limit >= 1 && Conserved(s) && Referenced(s) && Refines(s.lim) && RetryInv(s) && DeferralsInv(limit, s)
    requires CanMove(s, m)
    ensures DeferralsInv(limit, AfterMove(limit, s, m))
  {
    match m {
      case SScheduleCheck(t) => ScheduleCheckCounts(limit, s, t);
      case SJobCheck(i) => JobCheckCounts(limit, s, i);
      case SLogUsage(t, id) => LogCounts(limit, s, t, id);
      case SDefer(_) => MoveLeavesCounts(limit, s, m);
      case SEmitFetch(_) => MoveLeavesCounts(limit, s, m);
      case SConnectorRead(_) => MoveLeavesCounts(limit, s, m);
      case SConnectorFetch(_, _) => MoveLeavesCounts(limit, s, m);
    }
  }

  lemma MoreTokensFit(limit: int, r: Retries, logs: nat, tokens: nat, k: nat)
    requires DeferralsFit(limit, r, logs, tokens)
    ensures DeferralsFit(limit, r, logs, tokens + k)
  {
    if logs >= limit >= 1 {
      TriangleWidens(tokens - logs + 1, tokens - limit + 1, k);
    }
  }

  /** What the count of deferrals depends on. */
  lemma SameCounts(limit: int, s: State, s': State)
    requires DeferralsInv(limit, s)
    requires s'.retries == s.retries && s'.lim.history == s.lim.history && s'.pipe.logged == s.pipe.logged
    requires |s'.pipe.emitted| >= |s.pipe.emitted|
    ensures DeferralsInv(limit, s')
  {
    MoreTokensFit(limit, s.retries, |s.lim.history|, |s.pipe.emitted|, |s'.pipe.emitted| - |s.pipe.emitted|);
  }

  lemma CreateCounts(s: State, c: CreateStep)
    requires CanCreate(s, c)
    ensures |AfterCreate(s, c).pipe.emitted| >= |s.pipe.emitted|
    ensures AfterCreate(s, c).pipe.logged == s.pipe.logged
  {
    match c {
      case SCreateStart(q, keys, url) => assert AfterCreate(s, c) == CreateStart(s, q, keys, url);
      case SCreateRead(q, i) => assert AfterCreate(s, c) == CreateRead(s, q, i);
      case SCreateDecide(q) => assert AfterCreate(s, c) == CreateDecide(s, q);
      case SCreateSaveRows(q) => assert AfterCreate(s, c) == CreateSaveRows(s, q);
      case SCreateEmit(q) => assert AfterCreate(s, c) == CreateEmit(s, q);
    }
  }

  lemma StepKeepsCounts(limit: int, s: State, step: Step)
    requires limit >= 1 && Conserved(s) && Referenced(s) && Refines(s.lim) && RetryInv(s) && DeferralsInv(limit, s)
    requires Enabled(s, step)
    ensures DeferralsInv(limit, Next(limit, s, step))
  {
    match step {
      case Tick(d) => SameCounts(limit, s, Next(limit, s, step));
      case Creating(c) =>
        CreateCounts(s, c);
        CreateLeavesLimiter(s, c);
        SameCounts(limit, s, AfterCreate(s, c));
      case Moving(m) => MoveKeepsCounts(limit, s, m);
      case Caching(w) => WriteFrame(s, w); SameCounts(limit, s, AfterWrite(s, w));
      case Handling(h) => HandleFrame(s, h); SameCounts(limit, s, AfterHandle(s, h));
    }
  }

  lemma {:induction false} RunKeepsCounts(limit: int, start: int, steps: seq<Step>)
    requires limit >= 1 && Run(limit, Init(start), steps).Some?
    ensures DeferralsInv(limit, Run(limit, Init(start), steps).value)
  {
    if steps != [] {
      var before := steps[..|steps| - 1];
      RunKeepsCounts(limit, start, before);
      RunKeepsRetries(limit, start, before);
      InitIsSafe(start);
      RunKeepsSafe(limit, Init(start), before);
      StepKeepsCounts(limit, Run(limit, Init(start), before).value, steps[|steps| - 1]);
    }
  }

  // ----- the bounds -----

  lemma TimesBounded(denials: map<Token, Denial>, lim: Limiter, emitted: multiset<Token>, inbox: multiset<Token>,
                     t: Token)
    requires DenialsFit(denials, lim) && DenialsKnown(denials, emitted, inbox) && t in denials
    ensures denials[t].times <= |emitted|
    ensures denials[t].times <= 1 + |lim.history| - denials[t].firstLogs
  {
    assert DenialFits(denials[t], lim);
  }

  lemma ReachableCounts(limit: int, s: State)
    requires limit >= 1 && Reachable(limit, s)
    ensures Conserved(s) && DeferralsInv(limit, s)
  {
    var start, steps :| Run(limit, Init(start), steps) == Some(s);
    RunKeepsCounts(limit, start, steps);
    ReachableTables(limit, s);
  }

  lemma ReachableRetries(limit: int, s: State)
    requires limit >= 1 && Reachable(limit, s)
    ensures RetryInv(s)
  {
    var start, steps :| Run(limit, Init(start), steps) == Some(s);
    RunKeepsRetries(limit, start, steps);
  }

  /** In all, `tokens` tokens under a limit of `limit` are deferred at most this often. */
  function MostDeferrals(limit: int, tokens: nat): nat
    requires limit >= 1
  {
    if tokens < limit then 0 else (tokens - limit) * (tokens - limit + 1) / 2
  }

  /** After the last round nobody is left to defer. */
  lemma RoundsBounded(limit: int, r: Retries, logs: nat, tokens: nat)
    requires limit >= 1 && DeferralsFit(limit, r, logs, tokens)
    requires |DeniedAt(r.denials, logs)| + logs <= tokens
    ensures r.deferrals <= MostDeferrals(limit, tokens)
  {
    if logs >= limit {
      TriangleIs(tokens - limit + 1);
    }
  }

  lemma CountsBounded(limit: int, s: State)
    requires limit >= 1 && Conserved(s) && RetryInv(s) && DeferralsInv(limit, s)
    ensures s.retries.deferrals <= MostDeferrals(limit, |s.pipe.emitted|)
  {
    LoggedFit(s);
    DeniedFit(s.retries.denials, s.lim, s.pipe);
    RoundsBounded(limit, s.retries, |s.lim.history|, |s.pipe.emitted|);
  }

  /** A job is denied at most once more often than usages were logged after its first denial; and a run
      that creates T tokens defers jobs at most (T - limit) * (T - limit + 1) / 2 times in all, so the
      requeue loop ends. */
  lemma RequeueEnds(limit: int, s: State)
    requires limit >= 1 && Reachable(limit, s)
    ensures forall t :: t in s.retries.denials ==>
              s.retries.denials[t].times <= 1 + |s.lim.history| - s.retries.denials[t].firstLogs
    ensures s.retries.deferrals <= MostDeferrals(limit, |s.pipe.emitted|)
  {
    ReachableRetries(limit, s);
    forall t | t in s.retries.denials
      ensures s.retries.denials[t].times <= 1 + |s.lim.history| - s.retries.denials[t].firstLogs
    {
      TimesBounded(s.retries.denials, s.lim, s.pipe.emitted, s.pipe.scheduleInbox, t);
    }
    ReachableCounts(limit, s);
    CountsBounded(limit, s);
  }
}
