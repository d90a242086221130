/** Which subqueries of a new query are sent to be fetched: one per distinct path without a result. */
module Planner {
  import opened Domain

  predicate HasPath(tokens: seq<Token>, path: Path) {
    exists i :: 0 <= i < |tokens| && tokens[i].path == path
  }

  /** The tokens that the filter and the reduce over path-keyed properties leave, in insertion order. */
  function Plan(ds: seq<SubDto>): seq<Token> {
    if ds == [] then []
    else
      var d := ds[|ds| - 1];
      var before := Plan(ds[..|ds| - 1]);
      if Truthy(d.result) || HasPath(before, d.path) then before else before + [TokenOf(d)]
  }

  /** Position `i` has no result, and is the first without one for its path. */
  ghost predicate FirstMissing(ds: seq<SubDto>, i: nat)
    requires i < |ds|
  {
    && !Truthy(ds[i].result)
    && forall j :: 0 <= j < i && ds[j].path == ds[i].path ==> Truthy(ds[j].result)
  }

  ghost function MissingPaths(ds: seq<SubDto>): set<Path> {
    set i | 0 <= i < |ds| && !Truthy(ds[i].result) :: ds[i].path
  }

  lemma {:induction false} PlanHasPath(ds: seq<SubDto>, p: Path)
    ensures HasPath(Plan(ds), p) <==> exists j :: 0 <= j < |ds| && ds[j].path == p && !Truthy(ds[j].result)
  {
    if ds != [] {
      var n := |ds| - 1;
      PlanHasPath(ds[..n], p);
      var before := Plan(ds[..n]);
      if HasPath(before, p) {
        var j :| 0 <= j < n && ds[..n][j].path == p && !Truthy(ds[..n][j].result);
        assert ds[j].path == p && !Truthy(ds[j].result);
        assert HasPath(Plan(ds), p) by {
          var k :| 0 <= k < |before| && before[k].path == p;
          assert Plan(ds)[k].path == p;
        }
      } else {
        forall j | 0 <= j < n && ds[j].path == p
          ensures Truthy(ds[j].result)
        {
          assert ds[..n][j].path == p;
        }
        if ds[n].path == p && !Truthy(ds[n].result) {
          assert Plan(ds)[|before|].path == p;
        }
      }
    }
  }

  lemma {:induction false} PlanCovers(ds: seq<SubDto>)
    ensures |Plan(ds)| == |MissingPaths(ds)|
    ensures forall i, j :: 0 <= i < j < |Plan(ds)| ==> Plan(ds)[i].path != Plan(ds)[j].path
  {
    if ds != [] {
      var n := |ds| - 1;
      PlanCovers(ds[..n]);
      PlanHasPath(ds[..n], ds[n].path);
      if Truthy(ds[n].result) {
        assert MissingPaths(ds) == MissingPaths(ds[..n]);
      } else {
        assert MissingPaths(ds) == MissingPaths(ds[..n]) + {ds[n].path};
        if HasPath(Plan(ds[..n]), ds[n].path) {
          assert ds[n].path in MissingPaths(ds[..n]);
          assert MissingPaths(ds) == MissingPaths(ds[..n]);
        } else {
          assert ds[n].path !in MissingPaths(ds[..n]);
        }
      }
    }
  }

  /** Every token of the plan names a first missing row. */
  lemma {:induction false} PlanIsMissing(ds: seq<SubDto>, t: Token)
    requires t in Plan(ds)
    ensures exists i :: 0 <= i < |ds| && t == TokenOf(ds[i]) && FirstMissing(ds, i)
  {
    var n := |ds| - 1;
    if t in Plan(ds[..n]) {
      PlanIsMissing(ds[..n], t);
      var i :| 0 <= i < n && t == TokenOf(ds[..n][i]) && FirstMissing(ds[..n], i);
      assert FirstMissing(ds, i);
    } else {
      PlanHasPath(ds[..n], ds[n].path);
      assert FirstMissing(ds, n);
    }
  }

  /** Every first missing row has its token in the plan. */
  lemma {:induction false} MissingIsPlanned(ds: seq<SubDto>, i: nat)
    requires i < |ds| && FirstMissing(ds, i)
    ensures TokenOf(ds[i]) in Plan(ds)
  {
    var n := |ds| - 1;
    if i < n {
      assert FirstMissing(ds[..n], i);
      MissingIsPlanned(ds[..n], i);
    } else {
      PlanHasPath(ds[..n], ds[n].path);
    }
  }

  /** A row without a result always has a first missing row of the same path at or before it. */
  lemma {:induction false} FirstMissingExists(ds: seq<SubDto>, i: nat) returns (k: nat)
    requires i < |ds| && !Truthy(ds[i].result)
    ensures k <= i && ds[k].path == ds[i].path && FirstMissing(ds, k)
  {
    if FirstMissing(ds, i) {
      k := i;
    } else {
      var j :| 0 <= j < i && ds[j].path == ds[i].path && !Truthy(ds[j].result);
      k := FirstMissingExists(ds, j);
    }
  }

  /** The plan is exact: its tokens are precisely those of the first missing rows, one per missing path. */
  lemma PlanExact(ds: seq<SubDto>)
    ensures forall t :: t in Plan(ds) <==> exists i :: 0 <= i < |ds| && t == TokenOf(ds[i]) && FirstMissing(ds, i)
    ensures forall p :: p in MissingPaths(ds) <==> HasPath(Plan(ds), p)
    ensures |Plan(ds)| == |MissingPaths(ds)|
  {
    forall t
      ensures t in Plan(ds) <==> exists i :: 0 <= i < |ds| && t == TokenOf(ds[i]) && FirstMissing(ds, i)
    {
      if t in Plan(ds) {
        PlanIsMissing(ds, t);
      }
      if i :| 0 <= i < |ds| && t == TokenOf(ds[i]) && FirstMissing(ds, i) {
        MissingIsPlanned(ds, i);
      }
    }
    PlanCovers(ds);
    forall p
      ensures p in MissingPaths(ds) <==> HasPath(Plan(ds), p)
    {
      PlanHasPath(ds, p);
    }
  }

  lemma {:induction false} PlanDistinct(ds: seq<SubDto>)
    ensures Distinct(Plan(ds))
  {
    PlanCovers(ds);
  }

  /** The tokens kept so far, read off the record in the order its keys were first written. */
  function Picked(kept: map<Path, SubDto>, order: seq<Path>): seq<Token>
    requires forall p :: p in order ==> p in kept
  {
    if order == [] then []
    else Picked(kept, order[..|order| - 1]) + [TokenOf(kept[order[|order| - 1]])]
  }

  lemma {:induction false} PickedUnchanged(kept: map<Path, SubDto>, order: seq<Path>, p: Path, d: SubDto)
    requires forall q :: q in order ==> q in kept
    requires p !in order
    ensures Picked(kept[p := d], order) == Picked(kept, order)
  {
    if order != [] {
      PickedUnchanged(kept, order[..|order| - 1], p, d);
    }
  }

  lemma {:induction false} PickedPaths(kept: map<Path, SubDto>, order: seq<Path>)
    requires forall q :: q in order ==> q in kept && kept[q].path == q
    ensures |Picked(kept, order)| == |order|
    ensures forall i :: 0 <= i < |order| ==> Picked(kept, order)[i].path == order[i]
  {
    if order != [] {
      PickedPaths(kept, order[..|order| - 1]);
    }
  }

  /** Whether a row is planned can be read off the keys of the record so far. */
  lemma PickedHasPath(kept: map<Path, SubDto>, order: seq<Path>, path: Path)
    requires forall p :: p in order ==> p in kept && kept[p].path == p
    ensures HasPath(Picked(kept, order), path) <==> path in order
  {
    PickedPaths(kept, order);
    if path in order {
      var k :| 0 <= k < |order| && order[k] == path;
      assert Picked(kept, order)[k].path == path;
    }
  }

  /** One more row of the source's reduce is one more row of the plan. */
  lemma PickedNext(ds: seq<SubDto>, i: nat, kept: map<Path, SubDto>, order: seq<Path>)
    requires forall p :: p in order <==> p in kept
    requires forall p :: p in kept ==> kept[p].path == p
    requires i < |ds| && Picked(kept, order) == Plan(ds[..i])
    ensures var d := ds[i];
            Plan(ds[..i + 1]) == if Truthy(d.result) || d.path in kept then Picked(kept, order)
                                 else Picked(kept[d.path := d], order + [d.path])
  {
    var d := ds[i];
    assert ds[..i + 1][..i] == ds[..i];
    PickedHasPath(kept, order, d.path);
    if d.path !in kept {
      PickedUnchanged(kept, order, d.path, d);
      assert (order + [d.path])[..|order|] == order;
    }
  }

  /** The source's pipeline: drop rows with a result, keep the first row per path in a record, take its values. */
  method TargetTokens(ds: seq<SubDto>) returns (tokens: seq<Token>)
    ensures tokens == Plan(ds)
  {
    var kept: map<Path, SubDto> := map[];
    var order: seq<Path> := [];
    for i := 0 to |ds|
      invariant forall p :: p in order <==> p in kept
      invariant forall p :: p in kept ==> kept[p].path == p
      invariant Picked(kept, order) == Plan(ds[..i])
    {
      PickedNext(ds, i, kept, order);
      if !Truthy(ds[i].result) && ds[i].path !in kept {
        kept := kept[ds[i].path := ds[i]];
        order := order + [ds[i].path];
      }
    }
    assert ds[..|ds|] == ds;
    tokens := [];
    for i := 0 to |order|
      invariant tokens == Picked(kept, order[..i])
    {
      assert order[..i + 1][..i] == order[..i];
      tokens := tokens + [TokenOf(kept[order[i]])];
    }
    assert order[..|order|] == order;
  }
}
