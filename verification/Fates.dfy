/** Where each token is, and what that says about the row it was made from. */
module Fates {
  import opened Domain
  import opened Protocol
  import opened Conservation
  import opened References
  import opened Handlers
  import opened Invariants

  datatype Place =
    | AtScheduler | BeingDenied | BeingApproved | Delayed      // before FETCH
    | AtConnector | Fetching | Dropped                         // FETCH at the connector
    | AtQueryManager | BeforeSave | AfterSave | Handled        // RECEIVE at the query manager

  ghost predicate At(s: State, t: Token, place: Place) {
    match place
    case AtScheduler => t in s.pipe.scheduleInbox
    case BeingDenied => t in s.pipe.denied
    case BeingApproved => t in s.pipe.approved
    case Delayed => exists i :: 0 <= i < |s.pipe.delayed| && s.pipe.delayed[i].token == t
    case AtConnector => t in s.pipe.connectorInbox
    case Fetching => t in s.pipe.fetching
    case Dropped => t in s.pipe.dropped
    case AtQueryManager => exists m :: m in s.qm.inbox && m.token == t
    case BeforeSave => exists i ::
        0 <= i < |s.qm.handlers| && s.qm.handlers[i].msg.token == t && !s.qm.handlers[i].phase.ResultSaved?
    case AfterSave => exists i ::
        0 <= i < |s.qm.handlers| && s.qm.handlers[i].msg.token == t && s.qm.handlers[i].phase.ResultSaved?
    case Handled => exists m :: m in s.qm.done && m.token == t
  }

  predicate BeforeFetch(place: Place) {
    place.AtScheduler? || place.BeingDenied? || place.BeingApproved? || place.Delayed?
  }

  predicate BeforeReceive(place: Place) {
    place.AtConnector? || place.Fetching? || place.Dropped?
  }

  predicate AfterReceive(place: Place) {
    !BeforeFetch(place) && !BeforeReceive(place)
  }

  // ----- every token is somewhere -----

  lemma DelayedMember(js: seq<Job>, t: Token)
    ensures t in multiset(JobTokens(js)) <==> exists i :: 0 <= i < |js| && js[i].token == t
  {
    if i :| 0 <= i < |js| && js[i].token == t {
      assert JobTokens(js)[i] == t;
    }
    if t in multiset(JobTokens(js)) {
      var i :| 0 <= i < |JobTokens(js)| && JobTokens(js)[i] == t;
      assert js[i].token == t;
    }
  }

  /** A message that was emitted is at the query manager in one of four ways. */
  lemma ReceivedSomewhere(s: State, m: Received) returns (place: Place)
    requires Conserved(s) && s.qm.failed == NO_RESULTS && m in s.pipe.received
    ensures AfterReceive(place) && At(s, m.token, place)
  {
    assert m in multiset(s.pipe.received);
    if m in s.qm.inbox {
      place := AtQueryManager;
    } else if m in s.qm.done {
      place := Handled;
    } else {
      assert m in multiset(HandlerMsgs(s.qm.handlers));
      var i :| 0 <= i < |HandlerMsgs(s.qm.handlers)| && HandlerMsgs(s.qm.handlers)[i] == m;
      assert s.qm.handlers[i].msg == m;
      place := if s.qm.handlers[i].phase.ResultSaved? then AfterSave else BeforeSave;
    }
  }

  lemma Somewhere(s: State, t: Token) returns (place: Place)
    requires Conserved(s) && s.qm.failed == NO_RESULTS && t in s.pipe.emitted
    ensures At(s, t, place)
  {
    DelayedMember(s.pipe.delayed, t);
    if t in s.pipe.scheduleInbox { place := AtScheduler; }
    else if t in s.pipe.denied { place := BeingDenied; }
    else if t in s.pipe.approved { place := BeingApproved; }
    else if t in multiset(JobTokens(s.pipe.delayed)) { place := Delayed; }
    else if t in s.pipe.connectorInbox { place := AtConnector; }
    else if t in s.pipe.fetching { place := Fetching; }
    else if t in s.pipe.dropped { place := Dropped; }
    else {
      assert t in multiset(ReceivedTokens(s.pipe.received));
      var i :| 0 <= i < |ReceivedTokens(s.pipe.received)| && ReceivedTokens(s.pipe.received)[i] == t;
      place := ReceivedSomewhere(s, s.pipe.received[i]);
    }
  }

  // ----- and nowhere else -----

  /** A place after RECEIVE holds a message that was emitted with this token. */
  lemma FromReceived(s: State, t: Token, place: Place) returns (m: Received)
    requires Conserved(s) && Referenced(s) && AfterReceive(place) && At(s, t, place)
    ensures m in s.pipe.received && m.token == t
    ensures place.AtQueryManager? ==> m in s.qm.inbox
    ensures place.Handled? ==> m in s.qm.done
    ensures place.BeforeSave? || place.AfterSave? ==> m in multiset(HandlerMsgs(s.qm.handlers))
  {
    if place.AtQueryManager? {
      m :| m in s.qm.inbox && m.token == t;
      assert m in multiset(s.pipe.received);
    } else if place.Handled? {
      m :| m in s.qm.done && m.token == t;
      assert m in multiset(s.pipe.received);
    } else {
      var i :| 0 <= i < |s.qm.handlers| && s.qm.handlers[i].msg.token == t
               && (place.AfterSave? <==> s.qm.handlers[i].phase.ResultSaved?);
      m := s.qm.handlers[i].msg;
      assert HandlerMsgs(s.qm.handlers)[i] == m;
      HandlerIsReceived(s, i);
    }
  }

  /** Same token, same message, and only one copy of it was emitted. */
  lemma OneMessagePerToken(s: State, m: Received, m': Received)
    requires Conserved(s) && Referenced(s) && m in s.pipe.received && m' in s.pipe.received && m.token == m'.token
    ensures m == m' && multiset(s.pipe.received)[m] == 1
  {
    var a := IndexOf(s.pipe.received, m);
    var b := IndexOf(s.pipe.received, m');
    if a < b { AnsweredOnce(s, a, b); }
    if b < a { AnsweredOnce(s, b, a); }
    ReceivedDistinct(s);
    CountOfDistinct(s.pipe.received, m);
  }

  lemma IndexOf(rs: seq<Received>, m: Received) returns (i: nat)
    requires m in rs
    ensures i < |rs| && rs[i] == m
  {
    i :| 0 <= i < |rs| && rs[i] == m;
  }

  lemma ReceivedDistinct(s: State)
    requires Conserved(s) && Referenced(s)
    ensures Distinct(s.pipe.received)
  {
    forall x, y | 0 <= x < y < |s.pipe.received| ensures s.pipe.received[x] != s.pipe.received[y] {
      AnsweredOnce(s, x, y);
    }
  }

  lemma HandlerPhaseIsUnique(s: State, t: Token)
    requires Conserved(s) && Referenced(s) && At(s, t, BeforeSave)
    ensures !At(s, t, AfterSave)
  {
    if At(s, t, AfterSave) {
      var i :| 0 <= i < |s.qm.handlers| && s.qm.handlers[i].msg.token == t && !s.qm.handlers[i].phase.ResultSaved?;
      var j :| 0 <= j < |s.qm.handlers| && s.qm.handlers[j].msg.token == t && s.qm.handlers[j].phase.ResultSaved?;
      HandlersDiffer(s, i, j);
    }
  }

  lemma HandlersDiffer(s: State, i: nat, j: nat)
    requires Conserved(s) && Referenced(s) && i < |s.qm.handlers| && j < |s.qm.handlers| && i != j
    ensures s.qm.handlers[i].msg.token != s.qm.handlers[j].msg.token
  {
    var hs := HandlerMsgs(s.qm.handlers);
    HandlerIsReceived(s, i);
    HandlerIsReceived(s, j);
    assert multiset(hs)[hs[i]] <= multiset(s.pipe.received)[hs[i]];
    if hs[i].token == hs[j].token {
      OneMessagePerToken(s, hs[i], hs[j]);
      if i < j { CountOfTwo(hs, i, j); } else { CountOfTwo(hs, j, i); }
    }
  }

  lemma AfterReceiveUnique(s: State, t: Token, p: Place, p': Place)
    requires Conserved(s) && Referenced(s) && AfterReceive(p) && AfterReceive(p') && At(s, t, p) && At(s, t, p')
    ensures p == p'
  {
    var m := FromReceived(s, t, p);
    var m' := FromReceived(s, t, p');
    OneMessagePerToken(s, m, m');
    if (p.BeforeSave? && p'.AfterSave?) || (p.AfterSave? && p'.BeforeSave?) {
      HandlerPhaseIsUnique(s, t);
    }
  }

  /** Before RECEIVE, the places are separate parts of one count. */
  lemma OnlyOneBefore(s: State, t: Token, p: Place, p': Place)
    requires Conserved(s) && s.pipe.emitted[t] == 1 && At(s, t, p) && At(s, t, p')
    requires !AfterReceive(p) && !AfterReceive(p')
    ensures p == p'
  {
    DelayedMember(s.pipe.delayed, t);
  }

  /** And a token that was received is in none of them. */
  lemma ReceivedIsNotBefore(s: State, t: Token, p: Place)
    requires Conserved(s) && s.pipe.emitted[t] == 1 && t in multiset(ReceivedTokens(s.pipe.received))
    requires !AfterReceive(p)
    ensures !At(s, t, p)
  {
    DelayedMember(s.pipe.delayed, t);
  }

  lemma AfterIsNotBefore(s: State, t: Token, p: Place, p': Place)
    requires Conserved(s) && Referenced(s) && s.pipe.emitted[t] == 1 && At(s, t, p) && AfterReceive(p)
             && !AfterReceive(p')
    ensures !At(s, t, p')
  {
    var m := FromReceived(s, t, p);
    TokenWasReceived(s, m);
    ReceivedIsNotBefore(s, t, p');
  }

  lemma OnlyOnePlace(s: State, t: Token, p: Place, p': Place)
    requires Conserved(s) && Referenced(s) && t in s.pipe.emitted && At(s, t, p) && At(s, t, p')
    ensures p == p'
  {
    assert s.pipe.emitted[t] == 1;
    if AfterReceive(p) && AfterReceive(p') {
      AfterReceiveUnique(s, t, p, p');
    } else if AfterReceive(p) {
      AfterIsNotBefore(s, t, p, p');
    } else if AfterReceive(p') {
      AfterIsNotBefore(s, t, p', p);
    } else {
      OnlyOneBefore(s, t, p, p');
    }
  }

  lemma TokenWasReceived(s: State, m: Received)
    requires m in s.pipe.received
    ensures m.token in multiset(ReceivedTokens(s.pipe.received))
  {
    var i :| 0 <= i < |s.pipe.received| && s.pipe.received[i] == m;
    assert ReceivedTokens(s.pipe.received)[i] == m.token;
  }

  /** A token anywhere along the pipeline was emitted. */
  lemma PlacedIsEmitted(s: State, t: Token, place: Place)
    requires Conserved(s) && Referenced(s) && At(s, t, place)
    ensures t in s.pipe.emitted
  {
    DelayedMember(s.pipe.delayed, t);
    if AfterReceive(place) {
      var m := FromReceived(s, t, place);
      ReceivedIsEmitted(s, m);
    }
  }

  /** Token conservation: in every reachable state each emitted token, unchanged, is in exactly one place. */
  lemma ExactlyOnePlace(limit: int, s: State, t: Token)
    requires Reachable(limit, s) && t in s.pipe.emitted
    ensures s.pipe.emitted[t] == 1
    ensures exists place :: At(s, t, place) && forall p :: At(s, t, p) ==> p == place
  {
    ReachableIsSafe(limit, s);
    var place := Somewhere(s, t);
    forall p | At(s, t, p) ensures p == place {
      OnlyOnePlace(s, t, p, place);
    }
  }

  /** The counts between the services: FETCH, usages and upstream calls, started or answered. */
  lemma FlowsBalance(limit: int, s: State)
    requires Reachable(limit, s)
    ensures |s.pipe.fetched| == |s.lim.history| + |s.pipe.trafficInbox|
    ensures |s.pipe.fetched| == |s.pipe.connectorInbox| + |s.pipe.fetching| + |s.pipe.dropped| + |s.audit.calls|
    ensures |s.pipe.fetching| + |s.audit.calls| <= |s.lim.history| + |s.pipe.trafficInbox|
    ensures |s.pipe.emitted| == |s.pipe.scheduleInbox| + |s.pipe.denied| + |s.pipe.approved| + |s.pipe.delayed|
                                + |s.pipe.fetched|
  {
    ReachableIsSafe(limit, s);
    assert |multiset(ReceivedTokens(s.pipe.received))| == |s.pipe.received|;
    assert |multiset(JobTokens(s.pipe.delayed))| == |s.pipe.delayed|;
  }
}
