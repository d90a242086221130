/** The cache manager: documents under a unique path index, written by find-then-save. Nothing in the
    code removes a document, so a document's position in the collection serves as its identity. */
module Cache {
  import opened Domain

  datatype Doc = Doc(path: Path, value: Json)

  /** findOne({ where: { path } }) */
  function Find(docs: seq<Doc>, path: Path): (found: Option<nat>)
    ensures found.Some? ==> found.value < |docs| && docs[found.value].path == path
    ensures found.None? ==> forall i :: 0 <= i < |docs| ==> docs[i].path != path
  {
    if docs == [] then None
    else
      var n := |docs| - 1;
      var before := Find(docs[..n], path);
      if before.Some? then before else if docs[n].path == path then Some(n) else None
  }

  ghost predicate Cached(docs: seq<Doc>, path: Path) {
    exists i :: 0 <= i < |docs| && docs[i].path == path
  }

  /** The `result` a cache read answers with. */
  function Read(docs: seq<Doc>, path: Path): Json {
    var found := Find(docs, path);
    if found.Some? then OrNull(docs[found.value].value) else Null
  }

  /** save(resource) for a document found earlier, or for a new one; the unique index on `path` rejects
      a second document for a path. */
  function Save(docs: seq<Doc>, existing: Option<nat>, path: Path, value: Json): seq<Doc> {
    if existing.Some? then
      if existing.value < |docs| then docs[existing.value := Doc(path, value)] else docs
    else if Find(docs, path).Some? then docs
    else docs + [Doc(path, value)]
  }

  /** updateCache run without interruption: find, then save, and only for a truthy result. */
  function Update(docs: seq<Doc>, path: Path, value: Json): seq<Doc> {
    if Truthy(value) then Save(docs, Find(docs, path), path, value) else docs
  }

  /** What every interleaving of cache writes keeps. */
  ghost predicate Collection(docs: seq<Doc>) {
    && (forall i, j :: 0 <= i < j < |docs| ==> docs[i].path != docs[j].path)
    && (forall i :: 0 <= i < |docs| ==> Truthy(docs[i].value))
  }

  /** A position that an earlier find returned still holds the same path. */
  ghost predicate StillThere(docs: seq<Doc>, existing: Option<nat>, path: Path) {
    existing.Some? ==> existing.value < |docs| && docs[existing.value].path == path
  }

  /** The map the collection stands for. */
  function AsMap(docs: seq<Doc>): map<Path, Json> {
    if docs == [] then map[]
    else AsMap(docs[..|docs| - 1])[docs[|docs| - 1].path := docs[|docs| - 1].value]
  }

  lemma {:induction false} AsMapMembers(docs: seq<Doc>, path: Path)
    requires Collection(docs)
    ensures path in AsMap(docs) <==> Cached(docs, path)
    ensures forall i :: 0 <= i < |docs| && docs[i].path == path ==> AsMap(docs)[path] == docs[i].value
  {
    if docs != [] {
      AsMapMembers(docs[..|docs| - 1], path);
      if Cached(docs, path) {
        var i :| 0 <= i < |docs| && docs[i].path == path;
        assert i < |docs| - 1 ==> docs[..|docs| - 1][i].path == path;
      }
    }
  }

  /** A read is a map lookup, and answers null exactly when the path is absent. */
  lemma {:induction false} ReadRefinesLookup(docs: seq<Doc>, path: Path)
    requires Collection(docs)
    ensures Read(docs, path) == if path in AsMap(docs) then AsMap(docs)[path] else Null
    ensures Read(docs, path) == Null <==> path !in AsMap(docs)
    ensures Truthy(Read(docs, path)) <==> Cached(docs, path)
  {
    AsMapMembers(docs, path);
  }

  /** A save that follows its find by any number of other saves is a map update, except that a save
      which found nothing and comes second is dropped. The path is present afterwards either way. */
  lemma SaveRefinesUpdate(docs: seq<Doc>, existing: Option<nat>, path: Path, value: Json)
    requires Collection(docs) && StillThere(docs, existing, path) && Truthy(value)
    ensures var docs' := Save(docs, existing, path, value);
            && Collection(docs')
            && Cached(docs', path)
            && AsMap(docs') == (if existing.None? && path in AsMap(docs) then AsMap(docs)
                                else AsMap(docs)[path := value])
  {
    SavePresent(docs, existing, path, value);
    if existing.Some? {
      ReplaceRefinesUpdate(docs, existing.value, path, value);
    } else {
      AsMapMembers(docs, path);
      if Find(docs, path).None? {
        AppendRefinesUpdate(docs, path, value);
      }
    }
  }

  lemma AppendRefinesUpdate(docs: seq<Doc>, path: Path, value: Json)
    requires Collection(docs) && !Cached(docs, path) && Truthy(value)
    ensures Collection(docs + [Doc(path, value)])
    ensures AsMap(docs + [Doc(path, value)]) == AsMap(docs)[path := value]
  {
    assert (docs + [Doc(path, value)])[..|docs|] == docs;
  }

  lemma {:induction false} ReplaceRefinesUpdate(docs: seq<Doc>, k: nat, path: Path, value: Json)
    requires Collection(docs) && k < |docs| && docs[k].path == path && Truthy(value)
    ensures Collection(docs[k := Doc(path, value)])
    ensures AsMap(docs[k := Doc(path, value)]) == AsMap(docs)[path := value]
  {
    var n := |docs| - 1;
    var docs' := docs[k := Doc(path, value)];
    if k == n {
      assert docs'[..n] == docs[..n];
    } else {
      ReplaceRefinesUpdate(docs[..n], k, path, value);
      assert docs'[..n] == docs[..n][k := Doc(path, value)];
    }
  }

  lemma SavePresent(docs: seq<Doc>, existing: Option<nat>, path: Path, value: Json)
    requires StillThere(docs, existing, path)
    ensures Cached(Save(docs, existing, path, value), path)
  {
    var docs' := Save(docs, existing, path, value);
    if existing.Some? {
      assert docs'[existing.value].path == path;
    } else if Find(docs, path).Some? {
      assert docs'[Find(docs, path).value].path == path;
    } else {
      assert docs'[|docs|].path == path;
    }
  }

  /** No save makes a path absent or moves a document found earlier. */
  lemma SaveKeepsPresence(docs: seq<Doc>, existing: Option<nat>, path: Path, value: Json)
    requires StillThere(docs, existing, path)
    ensures var docs' := Save(docs, existing, path, value);
            && |docs| <= |docs'|
            && (forall i :: 0 <= i < |docs| ==> docs'[i].path == docs[i].path)
            && (forall p :: Cached(docs, p) ==> Cached(docs', p))
  {
    var docs' := Save(docs, existing, path, value);
    forall p | Cached(docs, p)
      ensures Cached(docs', p)
    {
      var i :| 0 <= i < |docs| && docs[i].path == p;
      assert docs'[i].path == p;
    }
  }

  /** Whatever upstream sends, but for the four falsy values, is cached as it came: any object, to begin with. */
  lemma AnswerIsCached(docs: seq<Doc>, path: Path, value: Json)
    requires Collection(docs) && value !in {Null, Bool(false), Num(0), Str("")}
    ensures var docs' := Update(docs, path, value);
            && Collection(docs') && path in AsMap(docs') && AsMap(docs')[path] == value
            && AsMap(docs') == AsMap(docs)[path := value] && Read(docs', path) == value
  {
    TruthyValues(value);
    SaveRefinesUpdate(docs, Find(docs, path), path, value);
    AsMapMembers(docs, path);
    ReadRefinesLookup(Update(docs, path, value), path);
  }

  // ----- the service -----

  class ResourceRepository {
    var docs: seq<Doc>

    constructor ()
      ensures docs == []
    {
      docs := [];
    }

    method FindOne(path: Path) returns (found: Option<nat>)
      ensures found == Find(docs, path)
    {
      found := None;
      for i := 0 to |docs|
        invariant found == Find(docs[..i], path)
      {
        assert docs[..i + 1][..i] == docs[..i];
        if found.None? && docs[i].path == path {
          found := Some(i);
        }
      }
      assert docs[..|docs|] == docs;
    }

    method SaveOne(existing: Option<nat>, path: Path, value: Json)
      requires StillThere(docs, existing, path)
      modifies this
      ensures docs == Save(old(docs), existing, path, value)
    {
      if existing.Some? {
        docs := docs[existing.value := Doc(path, value)];
      } else {
        var clash := FindOne(path);
        if clash.None? {
          docs := docs + [Doc(path, value)];
        }
      }
    }
  }

  class CacheManager {
    const resources: ResourceRepository

    ghost predicate Valid()
      reads this, resources
    {
      Collection(resources.docs)
    }

    constructor ()
      ensures Valid() && fresh(resources) && resources.docs == []
    {
      resources := new ResourceRepository();
    }

    /** The answer carries a truthy result exactly for the paths the cache stands for. */
    method ReadCache(dto: SubDto) returns (answer: SubDto)
      requires Valid()
      ensures answer == dto.(result := Read(resources.docs, dto.path))
      ensures answer.result == if dto.path in AsMap(resources.docs) then AsMap(resources.docs)[dto.path] else Null
    {
      var found := resources.FindOne(dto.path);
      ReadRefinesLookup(resources.docs, dto.path);
      answer := dto.(result := if found.Some? then OrNull(resources.docs[found.value].value) else Null);
    }

    /** Run without interruption, an update of a truthy result is a map update, and of a falsy one nothing. */
    method UpdateCache(dto: SubDto)
      requires Valid()
      modifies resources
      ensures Valid() && resources.docs == Update(old(resources.docs), dto.path, dto.result)
      ensures AsMap(resources.docs) == if dto.result in {Null, Bool(false), Num(0), Str("")}
                                       then old(AsMap(resources.docs))
                                       else old(AsMap(resources.docs))[dto.path := dto.result]
    {
      TruthyValues(dto.result);
      if Truthy(dto.result) {
        var existing := resources.FindOne(dto.path);
        SaveRefinesUpdate(resources.docs, existing, dto.path, dto.result);
        AsMapMembers(resources.docs, dto.path);
        resources.SaveOne(existing, dto.path, dto.result);
      }
    }
  }
}
