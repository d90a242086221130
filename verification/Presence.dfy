/** What being in the cache means for the rest of the system: presence is never lost, and whoever saw a
    result, dropped a token on one, or wrote one leaves its path present. */
module Presence {
  import opened Domain
  import opened Cache
  import opened Protocol
  import opened Frames
  import opened References

  ghost predicate Grows(docs: seq<Doc>, docs': seq<Doc>) {
    forall p :: Cached(docs, p) ==> Cached(docs', p)
  }

  /** Every write between its find and its save carries a truthy result and a position that still holds. */
  ghost predicate WritesHold(docs: seq<Doc>, writes: seq<Write>) {
    forall i :: 0 <= i < |writes| ==>
      Truthy(writes[i].msg.result) && StillThere(docs, writes[i].existing, writes[i].msg.token.path)
  }

  ghost predicate DonePresent(docs: seq<Doc>, done: multiset<Received>) {
    forall m :: m in done && Truthy(m.result) ==> Cached(docs, m.token.path)
  }

  ghost predicate DroppedPresent(docs: seq<Doc>, dropped: multiset<Token>) {
    forall t :: t in dropped ==> Cached(docs, t.path)
  }

  ghost predicate SeenPresent(docs: seq<Doc>, keys: seq<SubKey>, seen: seq<Option<Json>>) {
    forall k :: 0 <= k < |seen| && k < |keys| && seen[k].Some? && Truthy(seen[k].value) ==> Cached(docs, keys[k].path)
  }

  ghost predicate HandlersSaw(docs: seq<Doc>, handlers: seq<Handler>) {
    forall i :: 0 <= i < |handlers| && handlers[i].phase.Reading? ==>
      SeenPresent(docs, handlers[i].phase.keys, handlers[i].phase.seen)
  }

  ghost predicate CreatorsSaw(docs: seq<Doc>, creators: map<Uuid, Creator>) {
    forall q :: q in creators ==> SeenPresent(docs, creators[q].keys, creators[q].seen)
  }

  /** A row that was created with a result was created from the cache. */
  ghost predicate CreatedPresent(docs: seq<Doc>, created: map<Uuid, seq<SubDto>>) {
    forall q, i :: q in created && 0 <= i < |created[q]| && Truthy(created[q][i].result) ==>
        Cached(docs, created[q][i].path)
  }

  ghost predicate PresenceInv(s: State) {
    && Collection(s.cache.docs)
    && WritesHold(s.cache.docs, s.cache.writes)
    && DonePresent(s.cache.docs, s.cache.done)
    && DroppedPresent(s.cache.docs, s.pipe.dropped)
    && HandlersSaw(s.cache.docs, s.qm.handlers)
    && CreatorsSaw(s.cache.docs, s.qm.creators)
    && CreatedPresent(s.cache.docs, s.audit.created)
  }

  // ----- cache writes -----

  lemma CacheFindKeepsPresence(s: State, m: Received)
    requires PresenceInv(s) && m in s.cache.inbox
    ensures PresenceInv(CacheFind(s, m))
  {
  }

  lemma SaveKeepsWrites(s: State, i: nat)
    requires PresenceInv(s) && i < |s.cache.writes|
    ensures var c := CacheSave(s, i).cache;
            Collection(c.docs) && WritesHold(c.docs, c.writes) && Grows(s.cache.docs, c.docs)
            && Cached(c.docs, s.cache.writes[i].msg.token.path)
  {
    var w := s.cache.writes[i];
    assert WritesHold(s.cache.docs, s.cache.writes);
    SaveRefinesUpdate(s.cache.docs, w.existing, w.msg.token.path, w.msg.result);
    SaveKeepsPresence(s.cache.docs, w.existing, w.msg.token.path, w.msg.result);
    var c := CacheSave(s, i).cache;
    forall k | 0 <= k < |c.writes|
      ensures Truthy(c.writes[k].msg.result) && StillThere(c.docs, c.writes[k].existing, c.writes[k].msg.token.path)
    {
      assert c.writes[k] in s.cache.writes;
    }
  }

  lemma CacheSaveKeepsPresence(s: State, i: nat)
    requires PresenceInv(s) && i < |s.cache.writes|
    ensures PresenceInv(CacheSave(s, i))
  {
    SaveKeepsWrites(s, i);
  }

  // ----- reads -----

  lemma ReadMeansPresent(docs: seq<Doc>, path: Path)
    requires Truthy(Read(docs, path))
    ensures Cached(docs, path)
  {
    assert docs[Find(docs, path).value].path == path;
  }

  lemma ConnectorReadKeepsPresence(s: State, t: Token)
    requires PresenceInv(s)
    ensures PresenceInv(ConnectorRead(s, t))
  {
    if Truthy(Read(s.cache.docs, t.path)) {
      ReadMeansPresent(s.cache.docs, t.path);
    }
  }

  lemma SawOneMore(docs: seq<Doc>, keys: seq<SubKey>, seen: seq<Option<Json>>, k: nat)
    requires SeenPresent(docs, keys, seen) && k < |keys| && k < |seen|
    ensures SeenPresent(docs, keys, seen[k := Some(Read(docs, keys[k].path))])
  {
    if Truthy(Read(docs, keys[k].path)) {
      ReadMeansPresent(docs, keys[k].path);
    }
  }

  lemma CreateKeepsSaw(s: State, c: CreateStep)
    requires CreatorsSaw(s.cache.docs, s.qm.creators) && CanCreate(s, c)
    ensures CreatorsSaw(s.cache.docs, AfterCreate(s, c).qm.creators)
  {
    match c {
      case SCreateStart(_, _, _) =>
      case SCreateRead(q, k) => SawOneMore(s.cache.docs, s.qm.creators[q].keys, s.qm.creators[q].seen, k);
      case SCreateDecide(_) =>
      case SCreateSaveRows(_) =>
      case SCreateEmit(_) =>
    }
  }

  lemma EmitKeepsCreated(s: State, q: Uuid)
    requires CreatorsFit(s.qm.creators, s.qm.queries, s.qm.rows) && CanCreateEmit(s, q)
    requires CreatedPresent(s.cache.docs, s.audit.created) && CreatorsSaw(s.cache.docs, s.qm.creators)
    ensures CreatedPresent(s.cache.docs, CreateEmit(s, q).audit.created)
  {
    assert CreatorFits(q, s.qm.creators[q], s.qm.queries, s.qm.rows);
    assert SeenPresent(s.cache.docs, s.qm.creators[q].keys, s.qm.creators[q].seen);
  }

  lemma CreateKeepsCreated(s: State, c: CreateStep)
    requires Referenced(s) && PresenceInv(s) && CanCreate(s, c)
    ensures CreatedPresent(s.cache.docs, AfterCreate(s, c).audit.created)
  {
    match c {
      case SCreateStart(q, keys, url) => assert AfterCreate(s, c) == CreateStart(s, q, keys, url);
      case SCreateRead(q, k) => assert AfterCreate(s, c) == CreateRead(s, q, k);
      case SCreateDecide(q) => assert AfterCreate(s, c) == CreateDecide(s, q);
      case SCreateSaveRows(q) => assert AfterCreate(s, c) == CreateSaveRows(s, q);
      case SCreateEmit(q) => EmitKeepsCreated(s, q);
    }
  }

  lemma CreateKeepsPresence(s: State, c: CreateStep)
    requires Referenced(s) && PresenceInv(s) && CanCreate(s, c)
    ensures PresenceInv(AfterCreate(s, c))
  {
    CreateKeepsSaw(s, c);
    CreateKeepsCreated(s, c);
    CreateLeavesCache(s, c);
    CreateFrame(s, c);
  }

  lemma MoveKeepsPresence(limit: int, s: State, m: MoveStep)
    requires PresenceInv(s) && CanMove(s, m)
    ensures PresenceInv(AfterMove(limit, s, m))
  {
    match m {
      case SConnectorRead(t) => ConnectorReadKeepsPresence(s, t);
      case SScheduleCheck(_) =>
      case SJobCheck(_) =>
      case SDefer(_) =>
      case SEmitFetch(_) =>
      case SLogUsage(_, _) =>
      case SConnectorFetch(_, _) =>
    }
  }

  lemma PhaseSaw(docs: seq<Doc>, handlers: seq<Handler>, i: nat, p: HandlerPhase)
    requires i < |handlers| && HandlersSaw(docs, handlers) && (p.Reading? ==> SeenPresent(docs, p.keys, p.seen))
    ensures HandlersSaw(docs, handlers[i := Handler(handlers[i].msg, p)])
  {
  }

  lemma LoadSaw(s: State, i: nat)
    requires HandlersSaw(s.cache.docs, s.qm.handlers) && CanHandlerLoad(s, i)
    ensures HandlersSaw(s.cache.docs, HandlerLoad(s, i).qm.handlers)
  {
    RemoveHandlerSaw(s, i);
    if s.qm.handlers[i].msg.token.queryId in s.qm.queries {
      PhaseSaw(s.cache.docs, s.qm.handlers, i, HandlerLoad(s, i).qm.handlers[i].phase);
    }
  }

  lemma ReadSaw(s: State, i: nat, k: nat)
    requires HandlersSaw(s.cache.docs, s.qm.handlers) && CanHandlerRead(s, i, k)
    ensures HandlersSaw(s.cache.docs, HandlerRead(s, i, k).qm.handlers)
  {
    SawOneMore(s.cache.docs, s.qm.handlers[i].phase.keys, s.qm.handlers[i].phase.seen, k);
    PhaseSaw(s.cache.docs, s.qm.handlers, i, HandlerRead(s, i, k).qm.handlers[i].phase);
  }

  lemma HandleKeepsSaw(s: State, h: HandleStep)
    requires HandlersSaw(s.cache.docs, s.qm.handlers) && CanHandle(s, h)
    ensures HandlersSaw(s.cache.docs, AfterHandle(s, h).qm.handlers)
  {
    match h {
      case SHandlerStart(m) => assert AfterHandle(s, h) == HandlerStart(s, m);
      case SHandlerLoad(i) => LoadSaw(s, i);
      case SHandlerRead(i, k) => ReadSaw(s, i, k);
      case SHandlerSaveStatus(i) =>
        PhaseSaw(s.cache.docs, s.qm.handlers, i, HandlerSaveStatus(s, i).qm.handlers[i].phase);
      case SHandlerSaveResult(i) =>
        PhaseSaw(s.cache.docs, s.qm.handlers, i, HandlerSaveResult(s, i).qm.handlers[i].phase);
      case SHandlerNotify(i) => RemoveHandlerSaw(s, i);
    }
  }

  lemma HandleKeepsPresence(s: State, h: HandleStep)
    requires PresenceInv(s) && CanHandle(s, h)
    ensures PresenceInv(AfterHandle(s, h))
  {
    HandleKeepsSaw(s, h);
    HandleFrame(s, h);
  }

  lemma RemoveHandlerSaw(s: State, i: nat)
    requires HandlersSaw(s.cache.docs, s.qm.handlers) && i < |s.qm.handlers|
    ensures HandlersSaw(s.cache.docs, RemoveAt(s.qm.handlers, i))
  {
    var hs := RemoveAt(s.qm.handlers, i);
    forall k | 0 <= k < |hs| && hs[k].phase.Reading?
      ensures SeenPresent(s.cache.docs, hs[k].phase.keys, hs[k].phase.seen)
    {
      assert hs[k] in s.qm.handlers;
    }
  }

  lemma StepKeepsPresence(limit: int, s: State, step: Step)
    requires Referenced(s) && PresenceInv(s) && Enabled(s, step)
    ensures PresenceInv(Next(limit, s, step))
  {
    match step {
      case Tick(_) =>
      case Creating(c) => CreateKeepsPresence(s, c);
      case Moving(m) => MoveKeepsPresence(limit, s, m);
      case Caching(SCacheFind(m)) => CacheFindKeepsPresence(s, m);
      case Caching(SCacheSave(i)) => CacheSaveKeepsPresence(s, i);
      case Handling(h) => HandleKeepsPresence(s, h);
    }
  }

  /** No step makes a path absent. */
  lemma StepGrows(limit: int, s: State, step: Step)
    requires PresenceInv(s) && Enabled(s, step)
    ensures Grows(s.cache.docs, Next(limit, s, step).cache.docs)
  {
    match step {
      case Tick(_) =>
      case Creating(_) =>
      case Moving(m) => MoveLeavesTables(limit, s, m);
      case Caching(SCacheFind(_)) =>
      case Caching(SCacheSave(i)) => SaveKeepsWrites(s, i);
      case Handling(_) =>
    }
  }
}
