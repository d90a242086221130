/** What a callback posts: the very result that arrived, in its own place, and for every other subquery what the
    cache held while that result was being handled. */
module Bodies {
  import opened Domain
  import opened Cache
  import opened Protocol
  import opened Frames
  import opened Conservation
  import opened References
  import opened Handlers
  import opened Invariants
  import opened Fates

  // ----- the arriving result -----

  /** At the id of `m` the list carries the result of `m`. */
  ghost predicate Carries(ds: seq<SubDto>, m: Received) {
    forall k :: 0 <= k < |ds| && ds[k].id == m.token.id ==> ds[k].result == m.result
  }

  /** The row that `m` names holds the result of `m`. */
  ghost predicate RowHolds(rows: map<Uuid, SubRow>, m: Received) {
    m.token.id in rows && rows[m.token.id].result == m.result
  }

  ghost predicate HandlerCarries(h: Handler, rows: map<Uuid, SubRow>) {
    match h.phase
    case SubFound => true
    case Reading(_, _, _, _) => true
    case StatusSaved(body, _) => Carries(body.subqueries, h.msg)
    case ResultSaved(body, _) => Carries(body.subqueries, h.msg) && RowHolds(rows, h.msg)
  }

  ghost predicate HandlersCarry(handlers: seq<Handler>, rows: map<Uuid, SubRow>) {
    forall i :: 0 <= i < |handlers| ==> HandlerCarries(handlers[i], rows)
  }

  ghost predicate DoneHold(done: multiset<Received>, rows: map<Uuid, SubRow>) {
    forall m :: m in done ==> RowHolds(rows, m)
  }

  /** The RECEIVE that triggered the post, and its result in the body. */
  ghost predicate PostCarries(c: Callback, done: multiset<Received>) {
    exists m :: m in done && m.token == c.trigger && Carries(c.body.subqueries, m)
  }

  ghost predicate PostsCarry(callbacks: seq<Callback>, done: multiset<Received>) {
    forall i :: 0 <= i < |callbacks| ==> PostCarries(callbacks[i], done)
  }

  ghost predicate CarryInv(qm: QuerySide) {
    HandlersCarry(qm.handlers, qm.rows) && DoneHold(qm.done, qm.rows) && PostsCarry(qm.callbacks, qm.done)
  }

  lemma LatestCarries(m: Received, keys: seq<SubKey>, seen: seq<Option<Json>>)
    ensures Carries(Latest(m, keys, seen), m)
  {
  }

  /** A row has one token. */
  lemma OneTokenPerRow(s: State, t: Token, u: Token)
    requires Referenced(s) && t in s.pipe.emitted && u in s.pipe.emitted
    ensures t.id == u.id ==> t == u
  {
  }

  lemma DoneIsEmitted(s: State, m: Received)
    requires Conserved(s) && m in s.qm.done
    ensures m.token in s.pipe.emitted
  {
    assert m in multiset(s.pipe.received);
    ReceivedIsEmitted(s, m);
  }

  /** While a handler is at work, its row is nobody else's. */
  lemma NobodyElsesRow(s: State, i: nat)
    requires Conserved(s) && Referenced(s) && i < |s.qm.handlers|
    ensures forall m :: m in s.qm.done ==> m.token.id != s.qm.handlers[i].msg.token.id
    ensures forall k :: 0 <= k < |s.qm.handlers| && k != i ==>
              s.qm.handlers[k].msg.token.id != s.qm.handlers[i].msg.token.id
  {
    HandlerNames(s, i);
    forall m | m in s.qm.done ensures m.token.id != s.qm.handlers[i].msg.token.id {
      DoneIsEmitted(s, m);
      ActiveIsNotDone(s, i, m);
      OneTokenPerRow(s, m.token, s.qm.handlers[i].msg.token);
    }
    forall k | 0 <= k < |s.qm.handlers| && k != i
      ensures s.qm.handlers[k].msg.token.id != s.qm.handlers[i].msg.token.id
    {
      HandlerNames(s, k);
      HandlersDiffer(s, k, i);
      OneTokenPerRow(s, s.qm.handlers[k].msg.token, s.qm.handlers[i].msg.token);
    }
  }

  /** Results of other rows may change, and rows may be added. */
  lemma RowsKeepCarry(qm: QuerySide, rows': map<Uuid, SubRow>)
    requires CarryInv(qm) && forall id :: id in qm.rows ==> id in rows' && rows'[id] == qm.rows[id]
    ensures CarryInv(qm.(rows := rows'))
  {
    forall i | 0 <= i < |qm.handlers| ensures HandlerCarries(qm.handlers[i], rows') {
      assert HandlerCarries(qm.handlers[i], qm.rows);
    }
  }

  lemma PhaseKeepsCarry(qm: QuerySide, i: nat, p: HandlerPhase)
    requires CarryInv(qm) && i < |qm.handlers| && HandlerCarries(Handler(qm.handlers[i].msg, p), qm.rows)
    ensures CarryInv(qm.(handlers := qm.handlers[i := Handler(qm.handlers[i].msg, p)]))
  {
  }

  lemma SaveResultKeepsCarry(s: State, i: nat)
    requires Conserved(s) && Referenced(s) && CarryInv(s.qm) && CanHandlerSaveResult(s, i)
    ensures CarryInv(HandlerSaveResult(s, i).qm)
  {
    var m := s.qm.handlers[i].msg;
    var qm' := HandlerSaveResult(s, i).qm;
    HandlerNames(s, i);
    NobodyElsesRow(s, i);
    assert HandlerCarries(s.qm.handlers[i], s.qm.rows);
    forall k | 0 <= k < |qm'.handlers| ensures HandlerCarries(qm'.handlers[k], qm'.rows) {
      if k != i {
        assert HandlerCarries(s.qm.handlers[k], s.qm.rows);
      }
    }
  }

  lemma MoreDoneKeepsPosts(callbacks: seq<Callback>, done: multiset<Received>, m: Received)
    requires PostsCarry(callbacks, done)
    ensures PostsCarry(callbacks, done + multiset{m})
  {
    forall i | 0 <= i < |callbacks| ensures PostCarries(callbacks[i], done + multiset{m}) {
      assert PostCarries(callbacks[i], done);
      var d :| d in done && d.token == callbacks[i].trigger && Carries(callbacks[i].body.subqueries, d);
      assert d in done + multiset{m};
    }
  }

  lemma RemovedStillCarry(handlers: seq<Handler>, i: nat, rows: map<Uuid, SubRow>)
    requires i < |handlers| && HandlersCarry(handlers, rows)
    ensures HandlersCarry(RemoveAt(handlers, i), rows)
  {
    var hs := RemoveAt(handlers, i);
    forall k | 0 <= k < |hs| ensures HandlerCarries(hs[k], rows) {
      assert hs[k] in handlers;
    }
  }

  lemma NotifyKeepsCarry(s: State, i: nat)
    requires CarryInv(s.qm) && CanHandlerNotify(s, i)
    ensures CarryInv(HandlerNotify(s, i).qm)
  {
    var m := s.qm.handlers[i].msg;
    var p := s.qm.handlers[i].phase;
    var done' := s.qm.done + multiset{m};
    assert HandlerCarries(s.qm.handlers[i], s.qm.rows);
    RemovedStillCarry(s.qm.handlers, i, s.qm.rows);
    MoreDoneKeepsPosts(s.qm.callbacks, s.qm.done, m);
    if Notifies(p.completed, p.body.callbackUrl) {
      var c := Callback(p.body.callbackUrl.value, p.body, m.token);
      assert m in done' && PostCarries(c, done');
    }
  }

  lemma StartKeepsCarry(s: State, m: Received)
    requires CarryInv(s.qm)
    ensures CarryInv(HandlerStart(s, m).qm)
  {
    var hs := HandlerStart(s, m).qm.handlers;
    forall k | 0 <= k < |hs| ensures HandlerCarries(hs[k], s.qm.rows) {
      if k < |s.qm.handlers| {
        assert hs[k] == s.qm.handlers[k];
      }
    }
  }

  lemma LoadKeepsCarry(s: State, i: nat)
    requires CarryInv(s.qm) && CanHandlerLoad(s, i)
    ensures CarryInv(HandlerLoad(s, i).qm)
  {
    RemovedStillCarry(s.qm.handlers, i, s.qm.rows);
    if s.qm.handlers[i].msg.token.queryId in s.qm.queries {
      PhaseKeepsCarry(s.qm, i, HandlerLoad(s, i).qm.handlers[i].phase);
    }
  }

  lemma SaveStatusKeepsCarry(s: State, i: nat)
    requires CarryInv(s.qm) && CanHandlerSaveStatus(s, i)
    ensures CarryInv(HandlerSaveStatus(s, i).qm)
  {
    var h := s.qm.handlers[i];
    LatestCarries(h.msg, h.phase.keys, h.phase.seen);
    PhaseKeepsCarry(s.qm, i, HandlerSaveStatus(s, i).qm.handlers[i].phase);
  }

  lemma HandleKeepsCarry(s: State, h: HandleStep)
    requires Conserved(s) && Referenced(s) && CarryInv(s.qm) && CanHandle(s, h)
    ensures CarryInv(AfterHandle(s, h).qm)
  {
    match h {
      case SHandlerStart(m) => StartKeepsCarry(s, m);
      case SHandlerLoad(i) => LoadKeepsCarry(s, i);
      case SHandlerRead(i, k) => PhaseKeepsCarry(s.qm, i, HandlerRead(s, i, k).qm.handlers[i].phase);
      case SHandlerSaveStatus(i) => SaveStatusKeepsCarry(s, i);
      case SHandlerSaveResult(i) => SaveResultKeepsCarry(s, i);
      case SHandlerNotify(i) => NotifyKeepsCarry(s, i);
    }
  }

  lemma CreateKeepsRows(s: State, c: CreateStep)
    requires Referenced(s) && CanCreate(s, c)
    ensures var rows' := AfterCreate(s, c).qm.rows;
            forall id :: id in s.qm.rows ==> id in rows' && rows'[id] == s.qm.rows[id]
  {
    match c {
      case SCreateStart(q, keys, url) => assert AfterCreate(s, c) == CreateStart(s, q, keys, url);
      case SCreateRead(q, k) => assert AfterCreate(s, c) == CreateRead(s, q, k);
      case SCreateDecide(q) => assert AfterCreate(s, c) == CreateDecide(s, q);
      case SCreateSaveRows(q) => SaveRowsEffect(s, q);
      case SCreateEmit(q) => assert AfterCreate(s, c) == CreateEmit(s, q);
    }
  }

  lemma CreateKeepsCarry(s: State, c: CreateStep)
    requires Referenced(s) && CanCreate(s, c) && CarryInv(s.qm)
    ensures CarryInv(AfterCreate(s, c).qm)
  {
    CreateKeepsRows(s, c);
    CreateFrame(s, c);
    RowsKeepCarry(s.qm, AfterCreate(s, c).qm.rows);
  }

  lemma {:induction false} RunKeepsCarry(limit: int, start: int, steps: seq<Step>)
    requires Run(limit, Init(start), steps).Some?
    ensures CarryInv(Run(limit, Init(start), steps).value.qm)
  {
    if steps != [] {
      var n := |steps| - 1;
      RunKeepsCarry(limit, start, steps[..n]);
      RunKeepsTables(limit, start, steps[..n]);
      var s := Run(limit, Init(start), steps[..n]).value;
      match steps[n] {
        case Tick(_) =>
        case Creating(c) => CreateKeepsCarry(s, c);
        case Moving(m) => MoveLeavesTables(limit, s, m);
        case Caching(w) => WriteFrame(s, w);
        case Handling(h) => HandleKeepsCarry(s, h);
      }
    }
  }

  /** The entry of the subquery whose result arrived carries that result, and so does its stored row: what the
      cache holds for the path does not matter. */
  lemma BodyCarriesResult(limit: int, s: State, i: nat)
    requires Reachable(limit, s) && i < |s.qm.callbacks|
    ensures var c := s.qm.callbacks[i];
            && c.trigger.id in s.qm.rows
            && (exists k :: 0 <= k < |c.body.subqueries| && c.body.subqueries[k].id == c.trigger.id)
            && (forall k :: 0 <= k < |c.body.subqueries| && c.body.subqueries[k].id == c.trigger.id ==>
                  c.body.subqueries[k].result == s.qm.rows[c.trigger.id].result)
            && Received(c.trigger, s.qm.rows[c.trigger.id].result) in s.qm.done
  {
    var start, steps :| Run(limit, Init(start), steps) == Some(s);
    RunKeepsCarry(limit, start, steps);
    RunKeepsTables(limit, start, steps);
    var c := s.qm.callbacks[i];
    assert PostCarries(c, s.qm.done);
    var m :| m in s.qm.done && m.token == c.trigger && Carries(c.body.subqueries, m);
    assert m == Received(c.trigger, s.qm.rows[c.trigger.id].result);
    DoneIsEmitted(s, m);
    TriggerIsListed(s, c);
  }

  lemma TriggerIsListed(s: State, c: Callback)
    requires Referenced(s) && CallbackFits(c, s.qm.queries, s.qm.rows) && c.trigger in s.pipe.emitted
    ensures exists k :: 0 <= k < |c.body.subqueries| && c.body.subqueries[k].id == c.trigger.id
  {
    var subs := s.qm.queries[c.trigger.queryId].subs;
    assert c.trigger.id in subs;
    var k :| 0 <= k < |subs| && subs[k] == c.trigger.id;
    assert c.body.subqueries[k].id == c.trigger.id;
  }

  /** A row whose result has been handled holds exactly that result, for good. */
  lemma HandledResultIsStored(limit: int, s: State, m: Received)
    requires Reachable(limit, s) && m in s.qm.done
    ensures m.token.id in s.qm.rows && s.qm.rows[m.token.id].result == m.result
  {
    var start, steps :| Run(limit, Init(start), steps) == Some(s);
    RunKeepsCarry(limit, start, steps);
  }

  // ----- the other entries -----

  /** Whose lookup it is: a creation's, or that of the handler of a token. */
  datatype Reader = OfCreation(q: Uuid) | OfResult(t: Token)

  /** Step `a` is a step of the handler of token `t`. */
  ghost predicate OfHandler(limit: int, start: int, steps: seq<Step>, a: nat, i: nat, t: Token) {
    && a < |steps| && Run(limit, Init(start), steps[..a]).Some?
    && var hs := Run(limit, Init(start), steps[..a]).value.qm.handlers;
       i < |hs| && hs[i].msg.token == t
  }

  /** Step `n` is the lookup's read for its position `k`. */
  ghost predicate IsRead(limit: int, start: int, steps: seq<Step>, n: nat, who: Reader, k: nat) {
    && n < |steps|
    && (who.OfCreation? ==> steps[n] == Creating(SCreateRead(who.q, k)))
    && (who.OfResult? ==>
          && steps[n].Handling? && steps[n].handle.SHandlerRead? && steps[n].handle.k == k
          && OfHandler(limit, start, steps, n, steps[n].handle.i, who.t))
  }

  /** Step `n` reads that position, which has this path, and the cache answers `value`. */
  ghost predicate ReadsAt(limit: int, start: int, steps: seq<Step>, n: nat, who: Reader, k: nat, path: Path,
                          value: Json) {
    && IsRead(limit, start, steps, n, who, k) && Run(limit, Init(start), steps[..n]).Some?
    && Read(Run(limit, Init(start), steps[..n]).value.cache.docs, path) == value
  }

  /** In a step after `a` and before `b`. */
  ghost predicate ReadBetween(limit: int, start: int, steps: seq<Step>, a: nat, b: nat, who: Reader, k: nat, path: Path,
                              value: Json) {
    exists n: nat :: a < n < b && ReadsAt(limit, start, steps, n, who, k, path, value)
  }

  ghost predicate LoadsAt(limit: int, start: int, steps: seq<Step>, a: nat, t: Token) {
    && a < |steps| && steps[a].Handling? && steps[a].handle.SHandlerLoad?
    && OfHandler(limit, start, steps, a, steps[a].handle.i, t)
  }

  ghost predicate SavesAt(limit: int, start: int, steps: seq<Step>, b: nat, t: Token) {
    && b < |steps| && steps[b].Handling? && steps[b].handle.SHandlerSaveStatus?
    && OfHandler(limit, start, steps, b, steps[b].handle.i, t)
  }

  /** When step `a` begins, query `q` is stored under `status`. */
  ghost predicate StatusAt(limit: int, start: int, steps: seq<Step>, a: nat, q: Uuid, status: Status) {
    && a <= |steps| && Run(limit, Init(start), steps[..a]).Some?
    && var queries := Run(limit, Init(start), steps[..a]).value.qm.queries;
       q in queries && queries[q].status == status
  }

  ghost predicate SeenBetween(limit: int, start: int, steps: seq<Step>, a: nat, b: nat, who: Reader, keys: seq<SubKey>,
                              seen: seq<Option<Json>>) {
    forall k :: 0 <= k < |seen| && k < |keys| && seen[k].Some? ==>
      ReadBetween(limit, start, steps, a, b, who, k, keys[k].path, seen[k].value)
  }

  /** All entries but that of `t` were read in between. */
  ghost predicate OthersBetween(limit: int, start: int, steps: seq<Step>, a: nat, b: nat, t: Token, ds: seq<SubDto>) {
    forall k :: 0 <= k < |ds| && ds[k].id != t.id ==>
      ReadBetween(limit, start, steps, a, b, OfResult(t), k, ds[k].path, ds[k].result)
  }

  ghost predicate ReadSince(limit: int, start: int, steps: seq<Step>, a: nat, t: Token, p: HandlerPhase)
    requires p.Reading?
  {
    && LoadsAt(limit, start, steps, a, t) && StatusAt(limit, start, steps, a, t.queryId, p.oldStatus)
    && SeenBetween(limit, start, steps, a, |steps|, OfResult(t), p.keys, p.seen)
  }

  ghost predicate DatedBy(limit: int, start: int, steps: seq<Step>, a: nat, b: nat, t: Token, body: Response) {
    && a < b && LoadsAt(limit, start, steps, a, t) && SavesAt(limit, start, steps, b, t)
    && StatusAt(limit, start, steps, a, t.queryId, body.status)
    && OthersBetween(limit, start, steps, a, b, t, body.subqueries)
  }

  /** The body was put together between the load and the status save of the handler of `t`, under the status
      that was stored at the load. */
  ghost predicate Dated(limit: int, start: int, steps: seq<Step>, t: Token, body: Response) {
    exists a: nat, b: nat :: DatedBy(limit, start, steps, a, b, t, body)
  }

  ghost predicate HandlerDated(limit: int, start: int, steps: seq<Step>, h: Handler) {
    match h.phase
    case SubFound => true
    case Reading(_, _, keys, seen) =>
      |seen| == |keys| && exists a: nat :: ReadSince(limit, start, steps, a, h.msg.token, h.phase)
    case StatusSaved(body, _) => Dated(limit, start, steps, h.msg.token, body)
    case ResultSaved(body, _) => Dated(limit, start, steps, h.msg.token, body)
  }

  ghost predicate HandlersDated(limit: int, start: int, steps: seq<Step>, handlers: seq<Handler>) {
    forall i :: 0 <= i < |handlers| ==> HandlerDated(limit, start, steps, handlers[i])
  }

  ghost predicate PostsDated(limit: int, start: int, steps: seq<Step>, callbacks: seq<Callback>) {
    forall i :: 0 <= i < |callbacks| ==>
      Dated(limit, start, steps, callbacks[i].trigger, callbacks[i].body)
  }

  // ----- a run that goes on -----

  lemma ReadStays(limit: int, start: int, steps: seq<Step>, step: Step, a: nat, b: nat, b': nat, who: Reader, k: nat,
                  path: Path, value: Json)
    requires ReadBetween(limit, start, steps, a, b, who, k, path, value) && b <= b'
    ensures ReadBetween(limit, start, steps + [step], a, b', who, k, path, value)
  {
    var n: nat :| a < n < b && ReadsAt(limit, start, steps, n, who, k, path, value);
    assert (steps + [step])[..n] == steps[..n];
    assert ReadsAt(limit, start, steps + [step], n, who, k, path, value);
  }

  lemma LoadStays(limit: int, start: int, steps: seq<Step>, step: Step, a: nat, t: Token)
    ensures LoadsAt(limit, start, steps, a, t) ==> LoadsAt(limit, start, steps + [step], a, t)
    ensures SavesAt(limit, start, steps, a, t) ==> SavesAt(limit, start, steps + [step], a, t)
    ensures forall status :: StatusAt(limit, start, steps, a, t.queryId, status) ==>
              StatusAt(limit, start, steps + [step], a, t.queryId, status)
  {
    if a <= |steps| {
      assert (steps + [step])[..a] == steps[..a];
    }
  }

  lemma SeenStays(limit: int, start: int, steps: seq<Step>, step: Step, a: nat, who: Reader,
                  keys: seq<SubKey>, seen: seq<Option<Json>>)
    requires SeenBetween(limit, start, steps, a, |steps|, who, keys, seen)
    ensures SeenBetween(limit, start, steps + [step], a, |steps| + 1, who, keys, seen)
    ensures SeenBetween(limit, start, steps + [step], a, |steps|, who, keys, seen)
  {
    forall k | 0 <= k < |seen| && k < |keys| && seen[k].Some?
      ensures ReadBetween(limit, start, steps + [step], a, |steps| + 1, who, k, keys[k].path, seen[k].value)
      ensures ReadBetween(limit, start, steps + [step], a, |steps|, who, k, keys[k].path, seen[k].value)
    {
      ReadStays(limit, start, steps, step, a, |steps|, |steps| + 1, who, k, keys[k].path, seen[k].value);
      ReadStays(limit, start, steps, step, a, |steps|, |steps|, who, k, keys[k].path, seen[k].value);
    }
  }

  lemma DatedStays(limit: int, start: int, steps: seq<Step>, step: Step, t: Token, body: Response)
    requires Dated(limit, start, steps, t, body)
    ensures Dated(limit, start, steps + [step], t, body)
  {
    var ds := body.subqueries;
    var a: nat, b: nat :| DatedBy(limit, start, steps, a, b, t, body);
    LoadStays(limit, start, steps, step, a, t);
    LoadStays(limit, start, steps, step, b, t);
    forall k | 0 <= k < |ds| && ds[k].id != t.id
      ensures ReadBetween(limit, start, steps + [step], a, b, OfResult(t), k, ds[k].path, ds[k].result)
    {
      ReadStays(limit, start, steps, step, a, b, b, OfResult(t), k, ds[k].path, ds[k].result);
    }
    assert DatedBy(limit, start, steps + [step], a, b, t, body);
  }

  lemma ReadSinceStays(limit: int, start: int, steps: seq<Step>, step: Step, a: nat, t: Token, p: HandlerPhase)
    requires p.Reading? && ReadSince(limit, start, steps, a, t, p)
    ensures ReadSince(limit, start, steps + [step], a, t, p)
  {
    LoadStays(limit, start, steps, step, a, t);
    SeenStays(limit, start, steps, step, a, OfResult(t), p.keys, p.seen);
  }

  lemma HandlerStays(limit: int, start: int, steps: seq<Step>, step: Step, h: Handler)
    requires HandlerDated(limit, start, steps, h)
    ensures HandlerDated(limit, start, steps + [step], h)
  {
    match h.phase
    case SubFound =>
    case Reading(_, _, _, _) =>
      var a: nat :| ReadSince(limit, start, steps, a, h.msg.token, h.phase);
      ReadSinceStays(limit, start, steps, step, a, h.msg.token, h.phase);
    case StatusSaved(body, _) => DatedStays(limit, start, steps, step, h.msg.token, body);
    case ResultSaved(body, _) => DatedStays(limit, start, steps, step, h.msg.token, body);
  }

  /** Nothing that was dated is undone. */
  lemma AllStay(limit: int, start: int, steps: seq<Step>, step: Step, handlers: seq<Handler>, callbacks: seq<Callback>)
    requires HandlersDated(limit, start, steps, handlers) && PostsDated(limit, start, steps, callbacks)
    ensures HandlersDated(limit, start, steps + [step], handlers) && PostsDated(limit, start, steps + [step], callbacks)
  {
    forall i | 0 <= i < |handlers| ensures HandlerDated(limit, start, steps + [step], handlers[i]) {
      HandlerStays(limit, start, steps, step, handlers[i]);
    }
    forall i | 0 <= i < |callbacks|
      ensures Dated(limit, start, steps + [step], callbacks[i].trigger, callbacks[i].body)
    {
      DatedStays(limit, start, steps, step, callbacks[i].trigger, callbacks[i].body);
    }
  }

  // ----- the steps of a handler -----

  lemma LoadDates(limit: int, start: int, steps: seq<Step>, s: State, i: nat)
    requires Run(limit, Init(start), steps) == Some(s) && CanHandlerLoad(s, i)
    ensures s.qm.handlers[i].msg.token.queryId in s.qm.queries ==>
              HandlerDated(limit, start, steps + [Handling(SHandlerLoad(i))], HandlerLoad(s, i).qm.handlers[i])
  {
    var step := Handling(SHandlerLoad(i));
    var h := s.qm.handlers[i];
    assert (steps + [step])[..|steps|] == steps;
    assert LoadsAt(limit, start, steps + [step], |steps|, h.msg.token);
    if h.msg.token.queryId in s.qm.queries {
      var p := HandlerLoad(s, i).qm.handlers[i].phase;
      assert StatusAt(limit, start, steps + [step], |steps|, h.msg.token.queryId, p.oldStatus);
      assert ReadSince(limit, start, steps + [step], |steps|, h.msg.token, p);
    }
  }

  lemma ReadDates(limit: int, start: int, steps: seq<Step>, s: State, i: nat, k: nat)
    requires Run(limit, Init(start), steps) == Some(s) && CanHandlerRead(s, i, k)
    requires HandlerDated(limit, start, steps, s.qm.handlers[i])
    ensures HandlerDated(limit, start, steps + [Handling(SHandlerRead(i, k))], HandlerRead(s, i, k).qm.handlers[i])
  {
    var step := Handling(SHandlerRead(i, k));
    var h := s.qm.handlers[i];
    var p := h.phase;
    var a: nat :| ReadSince(limit, start, steps, a, h.msg.token, p);
    ReadSinceStays(limit, start, steps, step, a, h.msg.token, p);
    assert (steps + [step])[..|steps|] == steps;
    ReadsNow(limit, start, steps, step, s, a, OfResult(h.msg.token), k, p.keys[k].path);
    var seen' := p.seen[k := Some(Read(s.cache.docs, p.keys[k].path))];
    OneMoreSeen(limit, start, steps + [step], a, |steps| + 1, OfResult(h.msg.token), p.keys, p.seen, k,
                Read(s.cache.docs, p.keys[k].path));
    assert ReadSince(limit, start, steps + [step], a, h.msg.token, p.(seen := seen'));
  }

  lemma ReadsNow(limit: int, start: int, steps: seq<Step>, step: Step, s: State, a: nat, who: Reader, k: nat,
                 path: Path)
    requires Run(limit, Init(start), steps) == Some(s) && a < |steps|
    requires IsRead(limit, start, steps + [step], |steps|, who, k)
    ensures ReadBetween(limit, start, steps + [step], a, |steps| + 1, who, k, path, Read(s.cache.docs, path))
  {
    assert (steps + [step])[..|steps|] == steps;
    assert ReadsAt(limit, start, steps + [step], |steps|, who, k, path, Read(s.cache.docs, path));
  }

  lemma OneMoreSeen(limit: int, start: int, steps: seq<Step>, a: nat, b: nat, who: Reader, keys: seq<SubKey>,
                    seen: seq<Option<Json>>, k: nat, value: Json)
    requires SeenBetween(limit, start, steps, a, b, who, keys, seen) && k < |seen| && k < |keys|
    requires ReadBetween(limit, start, steps, a, b, who, k, keys[k].path, value)
    ensures SeenBetween(limit, start, steps, a, b, who, keys, seen[k := Some(value)])
  {
  }

  lemma SaveDates(limit: int, start: int, steps: seq<Step>, s: State, i: nat)
    requires Run(limit, Init(start), steps) == Some(s) && CanHandlerSaveStatus(s, i)
    requires HandlerDated(limit, start, steps, s.qm.handlers[i])
    ensures var h' := HandlerSaveStatus(s, i).qm.handlers[i];
            HandlerDated(limit, start, steps + [Handling(SHandlerSaveStatus(i))], h')
  {
    var step := Handling(SHandlerSaveStatus(i));
    var h := s.qm.handlers[i];
    var p := h.phase;
    var ds := Latest(h.msg, p.keys, p.seen);
    var a: nat :| ReadSince(limit, start, steps, a, h.msg.token, p);
    LoadStays(limit, start, steps, step, a, h.msg.token);
    SeenStays(limit, start, steps, step, a, OfResult(h.msg.token), p.keys, p.seen);
    assert (steps + [step])[..|steps|] == steps;
    assert SavesAt(limit, start, steps + [step], |steps|, h.msg.token);
    var body := Response(h.msg.token.queryId, ds, p.callbackUrl, p.oldStatus);
    assert DatedBy(limit, start, steps + [step], a, |steps|, h.msg.token, body);
  }

  lemma PhaseKeepsDated(limit: int, start: int, steps: seq<Step>, handlers: seq<Handler>, i: nat, p: HandlerPhase)
    requires HandlersDated(limit, start, steps, handlers) && i < |handlers|
    requires HandlerDated(limit, start, steps, Handler(handlers[i].msg, p))
    ensures HandlersDated(limit, start, steps, handlers[i := Handler(handlers[i].msg, p)])
  {
  }

  lemma RemovedStayDated(limit: int, start: int, steps: seq<Step>, handlers: seq<Handler>, i: nat)
    requires HandlersDated(limit, start, steps, handlers) && i < |handlers|
    ensures HandlersDated(limit, start, steps, RemoveAt(handlers, i))
  {
    var hs := RemoveAt(handlers, i);
    forall k | 0 <= k < |hs| ensures HandlerDated(limit, start, steps, hs[k]) {
      assert hs[k] in handlers;
    }
  }

  lemma LoadKeepsDated(limit: int, start: int, steps: seq<Step>, s: State, i: nat)
    requires Run(limit, Init(start), steps) == Some(s) && CanHandlerLoad(s, i)
    requires HandlersDated(limit, start, steps + [Handling(SHandlerLoad(i))], s.qm.handlers)
    ensures HandlersDated(limit, start, steps + [Handling(SHandlerLoad(i))], HandlerLoad(s, i).qm.handlers)
  {
    var steps' := steps + [Handling(SHandlerLoad(i))];
    RemovedStayDated(limit, start, steps', s.qm.handlers, i);
    LoadDates(limit, start, steps, s, i);
    if s.qm.handlers[i].msg.token.queryId in s.qm.queries {
      PhaseKeepsDated(limit, start, steps', s.qm.handlers, i, HandlerLoad(s, i).qm.handlers[i].phase);
    }
  }

  lemma SaveResultKeepsDated(limit: int, start: int, steps: seq<Step>, s: State, i: nat)
    requires CanHandlerSaveResult(s, i) && HandlersDated(limit, start, steps, s.qm.handlers)
    ensures HandlersDated(limit, start, steps, HandlerSaveResult(s, i).qm.handlers)
  {
    assert HandlerDated(limit, start, steps, s.qm.handlers[i]);
    PhaseKeepsDated(limit, start, steps, s.qm.handlers, i, HandlerSaveResult(s, i).qm.handlers[i].phase);
  }

  lemma NotifyKeepsDated(limit: int, start: int, steps: seq<Step>, s: State, i: nat)
    requires CanHandlerNotify(s, i) && HandlersDated(limit, start, steps, s.qm.handlers)
             && PostsDated(limit, start, steps, s.qm.callbacks)
    ensures HandlersDated(limit, start, steps, HandlerNotify(s, i).qm.handlers)
            && PostsDated(limit, start, steps, HandlerNotify(s, i).qm.callbacks)
  {
    assert HandlerDated(limit, start, steps, s.qm.handlers[i]);
    RemovedStayDated(limit, start, steps, s.qm.handlers, i);
  }

  lemma StartKeepsDated(limit: int, start: int, steps: seq<Step>, s: State, m: Received)
    requires HandlersDated(limit, start, steps, s.qm.handlers)
    ensures HandlersDated(limit, start, steps, HandlerStart(s, m).qm.handlers)
  {
    var hs := HandlerStart(s, m).qm.handlers;
    forall k | 0 <= k < |hs| ensures HandlerDated(limit, start, steps, hs[k]) {
      if k < |s.qm.handlers| {
        assert hs[k] == s.qm.handlers[k];
      }
    }
  }

  lemma HandlePostsNothing(s: State, h: HandleStep)
    requires CanHandle(s, h) && !h.SHandlerNotify?
    ensures AfterHandle(s, h).qm.callbacks == s.qm.callbacks
  {
    match h {
      case SHandlerStart(m) => assert AfterHandle(s, h) == HandlerStart(s, m);
      case SHandlerLoad(i) => assert AfterHandle(s, h) == HandlerLoad(s, i);
      case SHandlerRead(i, k) => assert AfterHandle(s, h) == HandlerRead(s, i, k);
      case SHandlerSaveStatus(i) => assert AfterHandle(s, h) == HandlerSaveStatus(s, i);
      case SHandlerSaveResult(i) => assert AfterHandle(s, h) == HandlerSaveResult(s, i);
    }
  }

  lemma HandleKeepsDated(limit: int, start: int, steps: seq<Step>, s: State, h: HandleStep)
    requires Run(limit, Init(start), steps) == Some(s) && CanHandle(s, h)
    requires HandlersDated(limit, start, steps, s.qm.handlers) && PostsDated(limit, start, steps, s.qm.callbacks)
    ensures HandlersDated(limit, start, steps + [Handling(h)], AfterHandle(s, h).qm.handlers)
    ensures PostsDated(limit, start, steps + [Handling(h)], AfterHandle(s, h).qm.callbacks)
  {
    var steps' := steps + [Handling(h)];
    AllStay(limit, start, steps, Handling(h), s.qm.handlers, s.qm.callbacks);
    if h.SHandlerNotify? {
      NotifyKeepsDated(limit, start, steps', s, h.i);
    } else {
      HandlePostsNothing(s, h);
      match h {
        case SHandlerStart(m) => StartKeepsDated(limit, start, steps', s, m);
        case SHandlerLoad(i) => LoadKeepsDated(limit, start, steps, s, i);
        case SHandlerRead(i, k) =>
          ReadDates(limit, start, steps, s, i, k);
          PhaseKeepsDated(limit, start, steps', s.qm.handlers, i, HandlerRead(s, i, k).qm.handlers[i].phase);
        case SHandlerSaveStatus(i) =>
          SaveDates(limit, start, steps, s, i);
          PhaseKeepsDated(limit, start, steps', s.qm.handlers, i, HandlerSaveStatus(s, i).qm.handlers[i].phase);
        case SHandlerSaveResult(i) => SaveResultKeepsDated(limit, start, steps', s, i);
      }
    }
  }

  lemma {:induction false} RunDates(limit: int, start: int, steps: seq<Step>)
    requires Run(limit, Init(start), steps).Some?
    ensures var qm := Run(limit, Init(start), steps).value.qm;
            HandlersDated(limit, start, steps, qm.handlers) && PostsDated(limit, start, steps, qm.callbacks)
  {
    if steps != [] {
      var n := |steps| - 1;
      var before := steps[..n];
      assert before + [steps[n]] == steps;
      RunDates(limit, start, before);
      var s := Run(limit, Init(start), before).value;
      AllStay(limit, start, before, steps[n], s.qm.handlers, s.qm.callbacks);
      match steps[n] {
        case Tick(_) =>
        case Creating(c) => CreateFrame(s, c);
        case Moving(m) => MoveLeavesTables(limit, s, m);
        case Caching(w) => WriteFrame(s, w);
        case Handling(h) => HandleKeepsDated(limit, start, before, s, h);
      }
    }
  }

  /** Between the load and the status save of the handler that posts it, a body was put together: each entry but
      that of the arriving result is what the cache answered when the handler read that position, and the status is
      the one that was stored at the load. */
  lemma BodyShowsCache(limit: int, start: int, steps: seq<Step>, i: nat)
    requires Run(limit, Init(start), steps).Some? && i < |Run(limit, Init(start), steps).value.qm.callbacks|
    ensures var c := Run(limit, Init(start), steps).value.qm.callbacks[i];
            exists a: nat, b: nat ::
              && a < b && LoadsAt(limit, start, steps, a, c.trigger) && SavesAt(limit, start, steps, b, c.trigger)
              && StatusAt(limit, start, steps, a, c.trigger.queryId, c.body.status)
              && OthersBetween(limit, start, steps, a, b, c.trigger, c.body.subqueries)
  {
    RunDates(limit, start, steps);
    var c := Run(limit, Init(start), steps).value.qm.callbacks[i];
    assert Dated(limit, start, steps, c.trigger, c.body);
    var a: nat, b: nat :| DatedBy(limit, start, steps, a, b, c.trigger, c.body);
  }
}
