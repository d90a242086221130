/** What a creation answers: every answer is to a request of the run, lists the requested paths in their order,
    and shows for each what the cache held while the request was being looked up. */
module Replies {
  import opened Domain
  import opened Cache
  import opened Protocol
  import opened Frames
  import opened References
  import opened Invariants
  import opened Bodies

  /** Step `a` begins request `q` for `keys` and `url`. */
  ghost predicate StartsAt(steps: seq<Step>, a: nat, q: Uuid, keys: seq<SubKey>, url: Option<string>) {
    a < |steps| && steps[a] == Creating(SCreateStart(q, keys, url))
  }

  ghost predicate DecidesAt(steps: seq<Step>, b: nat, q: Uuid) {
    b < |steps| && steps[b] == Creating(SCreateDecide(q))
  }

  /** So far, the creation of `q` has read since step `a`. */
  ghost predicate LooksSince(limit: int, start: int, steps: seq<Step>, a: nat, q: Uuid, c: Creator) {
    && StartsAt(steps, a, q, c.keys, c.callbackUrl)
    && SeenBetween(limit, start, steps, a, |steps|, OfCreation(q), c.keys, c.seen)
  }

  /** It read everything after step `a`, and decided in step `b`. */
  ghost predicate LookedBetween(limit: int, start: int, steps: seq<Step>, a: nat, b: nat, q: Uuid, c: Creator) {
    && a < b && StartsAt(steps, a, q, c.keys, c.callbackUrl) && DecidesAt(steps, b, q)
    && SeenBetween(limit, start, steps, a, b, OfCreation(q), c.keys, c.seen)
  }

  ghost predicate CreatorDated(limit: int, start: int, steps: seq<Step>, q: Uuid, c: Creator) {
    && |c.seen| == |c.keys|
    && if c.phase == Looking then exists a: nat :: LooksSince(limit, start, steps, a, q, c)
       else AllRead(c.seen) && exists a: nat, b: nat :: LookedBetween(limit, start, steps, a, b, q, c)
  }

  ghost predicate CreatorsDated(limit: int, start: int, steps: seq<Step>, creators: map<Uuid, Creator>) {
    forall q :: q in creators ==> CreatorDated(limit, start, steps, q, creators[q])
  }

  /** Each entry stands at the place of its key, and shows what a read of its path answered in between. */
  ghost predicate ShowsKeys(limit: int, start: int, steps: seq<Step>, a: nat, b: nat, q: Uuid, keys: seq<SubKey>,
                            ds: seq<SubDto>) {
    && |ds| == |keys|
    && forall k :: 0 <= k < |keys| ==>
         && ds[k].id == keys[k].id && ds[k].path == keys[k].path && ds[k].queryId == q
         && ReadBetween(limit, start, steps, a, b, OfCreation(q), k, keys[k].path, ds[k].result)
  }

  ghost predicate AnswersRequest(limit: int, start: int, steps: seq<Step>, a: nat, b: nat, q: Uuid,
                                 keys: seq<SubKey>, answer: Response) {
    && a < b && StartsAt(steps, a, q, keys, answer.callbackUrl) && DecidesAt(steps, b, q)
    && ShowsKeys(limit, start, steps, a, b, q, keys, answer.subqueries)
    && (answer.id == "" || answer.id == q)
  }

  ghost predicate ReplyDated(limit: int, start: int, steps: seq<Step>, answer: Response) {
    exists a: nat, b: nat, q, keys :: AnswersRequest(limit, start, steps, a, b, q, keys, answer)
  }

  ghost predicate RepliesDated(limit: int, start: int, steps: seq<Step>, responses: seq<Response>) {
    forall i :: 0 <= i < |responses| ==> ReplyDated(limit, start, steps, responses[i])
  }

  // ----- a run that goes on -----

  lemma SeenLasts(limit: int, start: int, steps: seq<Step>, step: Step, a: nat, b: nat, b': nat, who: Reader,
                  keys: seq<SubKey>, seen: seq<Option<Json>>)
    requires SeenBetween(limit, start, steps, a, b, who, keys, seen) && b <= b'
    ensures SeenBetween(limit, start, steps + [step], a, b', who, keys, seen)
  {
    forall k | 0 <= k < |seen| && k < |keys| && seen[k].Some?
      ensures ReadBetween(limit, start, steps + [step], a, b', who, k, keys[k].path, seen[k].value)
    {
      ReadStays(limit, start, steps, step, a, b, b', who, k, keys[k].path, seen[k].value);
    }
  }

  lemma CreatorLasts(limit: int, start: int, steps: seq<Step>, step: Step, q: Uuid, c: Creator)
    requires CreatorDated(limit, start, steps, q, c)
    ensures CreatorDated(limit, start, steps + [step], q, c)
  {
    if c.phase == Looking {
      var a: nat :| LooksSince(limit, start, steps, a, q, c);
      SeenLasts(limit, start, steps, step, a, |steps|, |steps| + 1, OfCreation(q), c.keys, c.seen);
      assert LooksSince(limit, start, steps + [step], a, q, c);
    } else {
      var a: nat, b: nat :| LookedBetween(limit, start, steps, a, b, q, c);
      SeenLasts(limit, start, steps, step, a, b, b, OfCreation(q), c.keys, c.seen);
      assert LookedBetween(limit, start, steps + [step], a, b, q, c);
    }
  }

  lemma ReplyLasts(limit: int, start: int, steps: seq<Step>, step: Step, answer: Response)
    requires ReplyDated(limit, start, steps, answer)
    ensures ReplyDated(limit, start, steps + [step], answer)
  {
    var a: nat, b: nat, q, keys: seq<SubKey> :| AnswersRequest(limit, start, steps, a, b, q, keys, answer);
    var ds := answer.subqueries;
    forall k | 0 <= k < |keys|
      ensures ReadBetween(limit, start, steps + [step], a, b, OfCreation(q), k, keys[k].path, ds[k].result)
    {
      ReadStays(limit, start, steps, step, a, b, b, OfCreation(q), k, keys[k].path, ds[k].result);
    }
    assert AnswersRequest(limit, start, steps + [step], a, b, q, keys, answer);
  }

  lemma AllLast(limit: int, start: int, steps: seq<Step>, step: Step, creators: map<Uuid, Creator>,
                responses: seq<Response>)
    requires CreatorsDated(limit, start, steps, creators) && RepliesDated(limit, start, steps, responses)
    ensures CreatorsDated(limit, start, steps + [step], creators)
    ensures RepliesDated(limit, start, steps + [step], responses)
  {
    forall q | q in creators ensures CreatorDated(limit, start, steps + [step], q, creators[q]) {
      CreatorLasts(limit, start, steps, step, q, creators[q]);
    }
    forall i | 0 <= i < |responses| ensures ReplyDated(limit, start, steps + [step], responses[i]) {
      ReplyLasts(limit, start, steps, step, responses[i]);
    }
  }

  // ----- the steps of a creation -----

  lemma StartDates(limit: int, start: int, steps: seq<Step>, q: Uuid, keys: seq<SubKey>, url: Option<string>)
    ensures var c := Creator(keys, url, NoReads(|keys|), Looking);
            CreatorDated(limit, start, steps + [Creating(SCreateStart(q, keys, url))], q, c)
  {
    var c := Creator(keys, url, NoReads(|keys|), Looking);
    assert LooksSince(limit, start, steps + [Creating(SCreateStart(q, keys, url))], |steps|, q, c);
  }

  lemma LookDates(limit: int, start: int, steps: seq<Step>, s: State, q: Uuid, k: nat)
    requires Run(limit, Init(start), steps) == Some(s) && CanCreateRead(s, q, k)
    requires CreatorDated(limit, start, steps, q, s.qm.creators[q])
    ensures CreatorDated(limit, start, steps + [Creating(SCreateRead(q, k))], q, CreateRead(s, q, k).qm.creators[q])
  {
    var step := Creating(SCreateRead(q, k));
    var c := s.qm.creators[q];
    var a: nat :| LooksSince(limit, start, steps, a, q, c);
    SeenLasts(limit, start, steps, step, a, |steps|, |steps| + 1, OfCreation(q), c.keys, c.seen);
    ReadsNow(limit, start, steps, step, s, a, OfCreation(q), k, c.keys[k].path);
    OneMoreSeen(limit, start, steps + [step], a, |steps| + 1, OfCreation(q), c.keys, c.seen, k,
                Read(s.cache.docs, c.keys[k].path));
    var c' := c.(seen := c.seen[k := Some(Read(s.cache.docs, c.keys[k].path))]);
    assert LooksSince(limit, start, steps + [step], a, q, c');
  }

  lemma DecideDates(limit: int, start: int, steps: seq<Step>, s: State, q: Uuid) returns (a: nat)
    requires CanCreateDecide(s, q) && CreatorDated(limit, start, steps, q, s.qm.creators[q])
    ensures LookedBetween(limit, start, steps + [Creating(SCreateDecide(q))], a, |steps|, q, s.qm.creators[q])
  {
    var c := s.qm.creators[q];
    a :| LooksSince(limit, start, steps, a, q, c);
    SeenLasts(limit, start, steps, Creating(SCreateDecide(q)), a, |steps|, |steps|, OfCreation(q), c.keys, c.seen);
  }

  /** What a creation answers once it has looked. */
  lemma LookedIsReply(limit: int, start: int, steps: seq<Step>, a: nat, b: nat, q: Uuid, c: Creator, answer: Response)
    requires LookedBetween(limit, start, steps, a, b, q, c) && AllRead(c.seen) && |c.seen| == |c.keys|
    requires answer.subqueries == Answers(q, c.keys, c.seen) && answer.callbackUrl == c.callbackUrl
    requires answer.id == "" || answer.id == q
    ensures ReplyDated(limit, start, steps, answer)
  {
    assert ShowsKeys(limit, start, steps, a, b, q, c.keys, answer.subqueries);
    assert AnswersRequest(limit, start, steps, a, b, q, c.keys, answer);
  }

  lemma DecideKeepsDated(limit: int, start: int, steps: seq<Step>, s: State, q: Uuid)
    requires CanCreateDecide(s, q) && CreatorDated(limit, start, steps, q, s.qm.creators[q])
    requires var steps' := steps + [Creating(SCreateDecide(q))];
             CreatorsDated(limit, start, steps', s.qm.creators) && RepliesDated(limit, start, steps', s.qm.responses)
    ensures var steps', qm' := steps + [Creating(SCreateDecide(q))], CreateDecide(s, q).qm;
            CreatorsDated(limit, start, steps', qm'.creators) && RepliesDated(limit, start, steps', qm'.responses)
  {
    var steps' := steps + [Creating(SCreateDecide(q))];
    var c := s.qm.creators[q];
    var a := DecideDates(limit, start, steps, s, q);
    if AllTruthy(Answers(q, c.keys, c.seen)) {
      LookedIsReply(limit, start, steps', a, |steps|, q, c,
                    Response("", Answers(q, c.keys, c.seen), c.callbackUrl, COMPLETED));
    } else {
      DecidedIsDated(limit, start, steps', a, |steps|, q, c);
    }
  }

  lemma DecidedIsDated(limit: int, start: int, steps: seq<Step>, a: nat, b: nat, q: Uuid, c: Creator)
    requires LookedBetween(limit, start, steps, a, b, q, c) && AllRead(c.seen) && |c.seen| == |c.keys|
    ensures CreatorDated(limit, start, steps, q, c.(phase := QuerySaved))
  {
    assert LookedBetween(limit, start, steps, a, b, q, c.(phase := QuerySaved));
  }

  lemma SaveRowsKeepsDated(limit: int, start: int, steps: seq<Step>, s: State, q: Uuid)
    requires CanCreateSaveRows(s, q) && CreatorsDated(limit, start, steps, s.qm.creators)
    ensures CreatorsDated(limit, start, steps, CreateSaveRows(s, q).qm.creators)
  {
    var c := s.qm.creators[q];
    assert CreatorDated(limit, start, steps, q, c);
    var a: nat, b: nat :| LookedBetween(limit, start, steps, a, b, q, c);
    assert LookedBetween(limit, start, steps, a, b, q, c.(phase := RowsSaved));
  }

  lemma EmitKeepsDated(limit: int, start: int, steps: seq<Step>, s: State, q: Uuid)
    requires CanCreateEmit(s, q)
    requires CreatorsDated(limit, start, steps, s.qm.creators) && RepliesDated(limit, start, steps, s.qm.responses)
    ensures CreatorsDated(limit, start, steps, CreateEmit(s, q).qm.creators)
    ensures RepliesDated(limit, start, steps, CreateEmit(s, q).qm.responses)
  {
    var c := s.qm.creators[q];
    assert CreatorDated(limit, start, steps, q, c);
    var a: nat, b: nat :| LookedBetween(limit, start, steps, a, b, q, c);
    LookedIsReply(limit, start, steps, a, b, q, c, Response(q, Answers(q, c.keys, c.seen), c.callbackUrl, PENDING));
  }

  lemma CreateKeepsDated(limit: int, start: int, steps: seq<Step>, s: State, c: CreateStep)
    requires Run(limit, Init(start), steps) == Some(s) && CanCreate(s, c)
    requires CreatorsDated(limit, start, steps, s.qm.creators) && RepliesDated(limit, start, steps, s.qm.responses)
    ensures CreatorsDated(limit, start, steps + [Creating(c)], AfterCreate(s, c).qm.creators)
    ensures RepliesDated(limit, start, steps + [Creating(c)], AfterCreate(s, c).qm.responses)
  {
    var steps' := steps + [Creating(c)];
    AllLast(limit, start, steps, Creating(c), s.qm.creators, s.qm.responses);
    match c {
      case SCreateStart(q, keys, url) =>
        StartDates(limit, start, steps, q, keys, url);
        assert AfterCreate(s, c) == CreateStart(s, q, keys, url);
      case SCreateRead(q, k) =>
        LookDates(limit, start, steps, s, q, k);
        assert AfterCreate(s, c) == CreateRead(s, q, k);
      case SCreateDecide(q) =>
        DecideKeepsDated(limit, start, steps, s, q);
        assert AfterCreate(s, c) == CreateDecide(s, q);
      case SCreateSaveRows(q) =>
        SaveRowsKeepsDated(limit, start, steps', s, q);
        assert AfterCreate(s, c) == CreateSaveRows(s, q);
      case SCreateEmit(q) =>
        EmitKeepsDated(limit, start, steps', s, q);
        assert AfterCreate(s, c) == CreateEmit(s, q);
    }
  }

  lemma {:induction false} RunDatesReplies(limit: int, start: int, steps: seq<Step>)
    requires Run(limit, Init(start), steps).Some?
    ensures var qm := Run(limit, Init(start), steps).value.qm;
            CreatorsDated(limit, start, steps, qm.creators) && RepliesDated(limit, start, steps, qm.responses)
  {
    if steps != [] {
      var n := |steps| - 1;
      var before := steps[..n];
      assert before + [steps[n]] == steps;
      RunDatesReplies(limit, start, before);
      var s := Run(limit, Init(start), before).value;
      AllLast(limit, start, before, steps[n], s.qm.creators, s.qm.responses);
      match steps[n] {
        case Tick(_) =>
        case Creating(c) => CreateKeepsDated(limit, start, before, s, c);
        case Moving(m) => MoveLeavesTables(limit, s, m);
        case Caching(w) => WriteFrame(s, w);
        case Handling(h) => HandleFrame(s, h);
      }
    }
  }

  /** Every answer a creation ever gave is to some request of the run: under its id or the blank one, with its
      URL, its paths in its order, and for each path what the cache answered when the request read that position,
      after it began and before it was decided. */
  lemma AnswerShowsCache(limit: int, start: int, steps: seq<Step>, i: nat)
    requires Run(limit, Init(start), steps).Some? && i < |Run(limit, Init(start), steps).value.qm.responses|
    ensures var answer := Run(limit, Init(start), steps).value.qm.responses[i];
            exists a: nat, b: nat, q, keys ::
              && a < b && StartsAt(steps, a, q, keys, answer.callbackUrl) && DecidesAt(steps, b, q)
              && ShowsKeys(limit, start, steps, a, b, q, keys, answer.subqueries)
              && (answer.id == "" || answer.id == q)
  {
    RunDatesReplies(limit, start, steps);
    var answer := Run(limit, Init(start), steps).value.qm.responses[i];
    assert ReplyDated(limit, start, steps, answer);
    var a: nat, b: nat, q, keys: seq<SubKey> :| AnswersRequest(limit, start, steps, a, b, q, keys, answer);
  }
}
