/** The values that travel between the services, and small facts about sequences and multisets. */
module Domain {

  type Uuid = string
  type Path = string

  datatype Option<+T> = None | Some(value: T)

  /** A JSON value, as far as JavaScript's truthiness test can tell values apart. */
  datatype Json = Null | Bool(b: bool) | Num(n: int) | Str(s: string) | Composite(text: string)

  predicate Truthy(j: Json) {
    match j
    case Null => false
    case Bool(b) => b
    case Num(n) => n != 0
    case Str(s) => s != ""
    case Composite(_) => true
  }

  /** The JSON values that JavaScript takes for false are these four, and no object or array is among them. */
  lemma TruthyValues(j: Json)
    ensures Truthy(j) <==> j !in {Null, Bool(false), Num(0), Str("")}
  {
  }

  /** `x || null` in the source. */
  function OrNull(j: Json): (r: Json)
    ensures Truthy(r) <==> Truthy(j)
    ensures Truthy(r) ==> r == j
    ensures !Truthy(r) ==> r == Null
  {
    if Truthy(j) then j else Null
  }

  datatype Status = PENDING | COMPLETED

  /** The payload of SCHEDULE_FETCH and FETCH: a subquery whose result is still to be fetched. */
  datatype Token = Token(id: Uuid, path: Path, queryId: Uuid)

  /** The payload of RECEIVE: a token together with the upstream data. */
  datatype Received = Received(token: Token, result: Json)

  datatype SubDto = SubDto(id: Uuid, path: Path, result: Json, queryId: Uuid)

  datatype Response = Response(id: Uuid, subqueries: seq<SubDto>, callbackUrl: Option<string>, status: Status)

  /** A subquery as the query manager names it before it knows a result. */
  datatype SubKey = SubKey(id: Uuid, path: Path)

  function TokenOf(d: SubDto): Token {
    Token(d.id, d.path, d.queryId)
  }

  ghost predicate Distinct<T>(s: seq<T>) {
    forall i, j :: 0 <= i < j < |s| ==> s[i] != s[j]
  }

  function RemoveAt<T>(s: seq<T>, i: nat): (r: seq<T>)
    requires i < |s|
    ensures |r| == |s| - 1
    ensures forall x :: x in r ==> x in s
  {
    s[..i] + s[i + 1..]
  }

  lemma RemoveAtMultiset<T>(s: seq<T>, i: nat)
    requires i < |s|
    ensures multiset(RemoveAt(s, i)) == multiset(s) - multiset{s[i]}
    ensures s[i] in multiset(s)
  {
    assert s == s[..i] + [s[i]] + s[i + 1..];
  }

  lemma RemoveAtKeeps<T>(s: seq<T>, i: nat, x: T)
    requires i < |s| && x in s && x != s[i]
    ensures x in RemoveAt(s, i)
  {
    var k :| 0 <= k < |s| && s[k] == x;
    assert RemoveAt(s, i)[if k < i then k else k - 1] == x;
  }

  lemma CountOfDistinct<T>(s: seq<T>, x: T)
    requires Distinct(s)
    ensures multiset(s)[x] <= 1
  {
    if s != [] {
      var n := |s| - 1;
      assert s == s[..n] + [s[n]];
      CountOfDistinct(s[..n], x);
      if x == s[n] {
        assert x !in s[..n];
      }
    }
  }

  lemma CountOfTwo<T>(s: seq<T>, i: nat, j: nat)
    requires i < j < |s| && s[i] == s[j]
    ensures multiset(s)[s[i]] >= 2
  {
    assert s == s[..j] + s[j..];
    assert s[i] in s[..j] && s[i] in s[j..];
    assert s[i] in multiset(s[..j]) && s[i] in multiset(s[j..]);
  }

  /** A duplicate-free sequence drawn from a set is no longer than the set. */
  lemma {:induction false} DistinctFits<T>(s: seq<T>, pool: set<T>)
    requires Distinct(s) && forall x :: x in s ==> x in pool
    ensures |s| <= |pool|
  {
    if s != [] {
      var n := |s| - 1;
      forall x | x in s[..n] ensures x in pool - {s[n]} {
      }
      DistinctFits(s[..n], pool - {s[n]});
    }
  }
}
