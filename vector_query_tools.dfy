/**
 * The query tools over the Milvus vector store: which database a call is
 * qualified with, the existence guard in front of every collection
 * operation, the choice of the vector field a search runs on, and the
 * shaping of search hits into dicts.
 *
 * The store itself is a set of oracles, one per pymilvus call the tools
 * make (`has_collection`, `list_collections`, `load`, `num_entities`,
 * `schema`, `search`); each is handed the scope the tools chose.
 */
module VectorQueryTools {
  import opened Wrappers
  import OrderedDict

  // ----- Database qualifier -----

  /** Where a collection is looked up: the server's default database, or a named one. */
  datatype Scope = DefaultScope | Named(database: string)

  /**
   * The `db_name=` qualifier is passed exactly when the connection's
   * database is non-empty and is not "default".
   */
  function ScopeFor(database: string): (s: Scope)
    ensures s.Named? <==> database != "" && database != "default"
    ensures s.Named? ==> s.database == database
  {
    if database != "" && database != "default" then Named(database) else DefaultScope
  }

  // ----- Schema and hits -----

  /** The field types the tools distinguish; every other type is `OtherType`. */
  datatype DataType = FloatVector | BinaryVector | Int64 | VarChar | OtherType(typeName: string)

  predicate IsVector(t: DataType)
  {
    t.FloatVector? || t.BinaryVector?
  }

  /** A schema field. */
  datatype Field = Field(name: string, dtype: DataType, isPrimary: bool, autoId: bool)

  /**
   * A search hit: its id, its distance, its score when the hit has one,
   * and its entity's fields in order (empty when the hit carries no entity).
   */
  datatype Hit<V> = Hit(id: V, distance: V, score: Option<V>, entity: OrderedDict.Dict<string, V>)

  /** A value in a hit dict: a field's value, or Python's `None`. */
  datatype Value<V> = Val(v: V) | NoneValue

  /** What `search` is asked: the field, the metric and `nprobe` are fixed by the tools. */
  datatype SearchRequest = SearchRequest(scope: Scope, collection: string, vectors: seq<seq<real>>,
                                         annsField: string, metricType: string, nprobe: nat,
                                         limit: int, expr: Option<string>, outputFields: Option<seq<string>>)

  /** The store the tools talk to. `load` gives the error it raises, if any. */
  datatype Store<V> = Store(
    hasCollection: (Scope, string) -> Result<bool>,
    listCollections: Scope -> Result<seq<string>>,
    load: (Scope, string) -> Option<string>,
    numEntities: (Scope, string) -> Result<nat>,
    schema: (Scope, string) -> seq<Field>,
    search: SearchRequest -> Result<seq<seq<Hit<V>>>>)

  /** `list_collections`. */
  function ListCollections<V>(store: Store<V>, database: string): Result<seq<string>>
  {
    store.listCollections(ScopeFor(database))
  }

  /** `collection_exists`. */
  function CollectionExists<V>(store: Store<V>, database: string, name: string): Result<bool>
  {
    store.hasCollection(ScopeFor(database), name)
  }

  /**
   * Listing and the existence check ask the default database for "" and
   * "default", and the named database for any other name.
   */
  lemma QualifierOnlyForNamedDatabase<V>(store: Store<V>, database: string, name: string)
    ensures database == "" || database == "default" ==>
              ListCollections(store, database) == store.listCollections(DefaultScope)
              && CollectionExists(store, database, name) == store.hasCollection(DefaultScope, name)
    ensures database != "" && database != "default" ==>
              ListCollections(store, database) == store.listCollections(Named(database))
              && CollectionExists(store, database, name) == store.hasCollection(Named(database), name)
  {
  }

  /** `f"集合 {collection_name} 不存在"`. */
  function Missing(name: string): string
  {
    "集合 " + name + " 不存在"
  }

  /** `f"集合 {collection_name} 中没有找到向量字段"`. */
  function NoVectorField(name: string): string
  {
    "集合 " + name + " 中没有找到向量字段"
  }

  // ----- Collection information and count -----

  /** One entry of `fields` in `get_collection_info`. */
  datatype FieldInfo = FieldInfo(name: string, dtype: DataType, isPrimary: bool, autoId: bool)

  /** The dict `get_collection_info` returns. */
  datatype CollectionInfo = CollectionInfo(name: string, numEntities: nat, fields: seq<FieldInfo>)

  function InfoOf(f: Field): FieldInfo
  {
    FieldInfo(f.name, f.dtype, f.isPrimary, f.autoId)
  }

  /** The loop over the schema's fields: one entry per field, in order. */
  method FieldsInfo(fields: seq<Field>) returns (info: seq<FieldInfo>)
    ensures |info| == |fields|
    ensures forall i :: 0 <= i < |fields| ==> info[i] == InfoOf(fields[i])
  {
    info := [];
    for i := 0 to |fields|
      invariant |info| == i
      invariant forall j :: 0 <= j < i ==> info[j] == InfoOf(fields[j])
    {
      info := info + [InfoOf(fields[i])];
    }
  }

  /**
   * `get_collection_info`: a missing collection raises before it is loaded;
   * then the load, the entity count and the schema, every field described.
   */
  method GetCollectionInfo<V>(store: Store<V>, database: string, name: string) returns (r: Result<CollectionInfo>)
    ensures var scope := ScopeFor(database);
            var has := store.hasCollection(scope, name);
            && (has.Err? ==> r == Err(has.error))
            && (has == Ok(false) ==> r == Err(Missing(name)))
            && (has == Ok(true) && store.load(scope, name).Some? ==> r == Err(store.load(scope, name).value))
            && (has == Ok(true) && store.load(scope, name).None? && store.numEntities(scope, name).Err? ==>
                  r == Err(store.numEntities(scope, name).error))
            && (r.Ok? <==> has == Ok(true) && store.load(scope, name).None? && store.numEntities(scope, name).Ok?)
            && (r.Ok? ==> var fields := store.schema(scope, name);
                          && r.value.name == name
                          && r.value.numEntities == store.numEntities(scope, name).value
                          && |r.value.fields| == |fields|
                          && forall i :: 0 <= i < |fields| ==> r.value.fields[i] == InfoOf(fields[i]))
  {
    var present := CollectionExists(store, database, name);
    if present.Err? {
      return Err(present.error);
    }
    if !present.value {
      return Err(Missing(name));
    }
    var scope := ScopeFor(database);
    var loadError := store.load(scope, name);
    if loadError.Some? {
      return Err(loadError.value);
    }
    var count := store.numEntities(scope, name);
    if count.Err? {
      return Err(count.error);
    }
    var info := FieldsInfo(store.schema(scope, name));
    r := Ok(CollectionInfo(name, count.value, info));
  }

  /** `get_collection_count`: the guard, then the entity count; nothing is loaded. */
  function GetCollectionCount<V>(store: Store<V>, database: string, name: string): (r: Result<nat>)
    ensures var has := store.hasCollection(ScopeFor(database), name);
            && (has.Err? ==> r == Err(has.error))
            && (has == Ok(false) ==> r == Err(Missing(name)))
            && (has == Ok(true) ==> r == store.numEntities(ScopeFor(database), name))
  {
    match CollectionExists(store, database, name)
    case Err(e) => Err(e)
    case Ok(false) => Err(Missing(name))
    case Ok(true) => store.numEntities(ScopeFor(database), name)
  }

  // ----- Vector field -----

  /**
   * The index of the first field whose type is a float or binary vector,
   * `|fields|` when there is none.
   */
  function FirstVectorIndex(fields: seq<Field>): (i: nat)
    ensures i <= |fields|
    ensures i < |fields| ==> IsVector(fields[i].dtype)
    ensures forall j :: 0 <= j < i ==> !IsVector(fields[j].dtype)
  {
    if |fields| == 0 then 0
    else if IsVector(fields[0].dtype) then 0
    else 1 + FirstVectorIndex(fields[1..])
  }

  /** The loop that stops at the first vector field; `None` when the schema has none. */
  method VectorField(fields: seq<Field>) returns (name: Option<string>)
    ensures name == if FirstVectorIndex(fields) < |fields| then Some(fields[FirstVectorIndex(fields)].name) else None
  {
    name := None;
    var i := 0;
    while i < |fields|
      invariant 0 <= i <= |fields|
      invariant forall j :: 0 <= j < i ==> !IsVector(fields[j].dtype)
      invariant name == None
    {
      if IsVector(fields[i].dtype) {
        name := Some(fields[i].name);
        break;
      }
      i := i + 1;
    }
  }

  // ----- Hit formatting -----

  /** `{"id": ..., "distance": ..., "score": ...}`, the score `None` when the hit has none. */
  function BaseRecord<V>(hit: Hit<V>): OrderedDict.Dict<string, Value<V>>
  {
    [("id", Val(hit.id)), ("distance", Val(hit.distance)),
     ("score", if hit.score.Some? then Val(hit.score.value) else NoneValue)]
  }

  /** The entity's fields written into `d` in order, the vector field skipped. */
  function WithEntity<V>(d: OrderedDict.Dict<string, Value<V>>, entity: OrderedDict.Dict<string, V>, vectorField: string)
    : OrderedDict.Dict<string, Value<V>>
  {
    if entity == [] then d
    else
      var rest := WithEntity(d, entity[..|entity| - 1], vectorField);
      var (key, value) := entity[|entity| - 1];
      if key != vectorField then OrderedDict.Put(rest, key, Val(value)) else rest
  }

  /** The dict one hit becomes. */
  function HitData<V>(hit: Hit<V>, vectorField: string): OrderedDict.Dict<string, Value<V>>
  {
    WithEntity(BaseRecord(hit), hit.entity, vectorField)
  }

  /** The loop over one hit's entity. */
  method HitRecord<V>(hit: Hit<V>, vectorField: string) returns (data: OrderedDict.Dict<string, Value<V>>)
    ensures data == HitData(hit, vectorField)
  {
    data := BaseRecord(hit);
    for i := 0 to |hit.entity|
      invariant data == WithEntity(BaseRecord(hit), hit.entity[..i], vectorField)
    {
      assert hit.entity[..i + 1][..i] == hit.entity[..i];
      var (key, value) := hit.entity[i];
      if key != vectorField {
        data := OrderedDict.Put(data, key, Val(value));
      }
    }
    assert hit.entity[..|hit.entity|] == hit.entity;
  }

  /**
   * Looking a key up after the entity is written: an entity key other than
   * the vector field gives the entity's value, any other key what `d` had.
   */
  lemma {:induction false} WithEntityGet<V>(d: OrderedDict.Dict<string, Value<V>>, entity: OrderedDict.Dict<string, V>,
                                            vectorField: string, k: string)
    requires OrderedDict.NoDupKeys(entity)
    ensures OrderedDict.Get(WithEntity(d, entity, vectorField), k) ==
            if k != vectorField && OrderedDict.Get(entity, k).Some? then Some(Val(OrderedDict.Get(entity, k).value))
            else OrderedDict.Get(d, k)
  {
    if entity != [] {
      var n := |entity| - 1;
      var prefix := entity[..n];
      assert OrderedDict.NoDupKeys(prefix);
      WithEntityGet(d, prefix, vectorField, k);
      var (key, value) := entity[n];
      var before := WithEntity(d, prefix, vectorField);
      assert WithEntity(d, entity, vectorField) ==
             if key != vectorField then OrderedDict.Put(before, key, Val(value)) else before;
      if key != vectorField {
        OrderedDict.GetPut(before, key, Val(value), k);
      }
      EntityGetLast(entity, k);
    }
  }

  /** Looking up in an entity: its last field answers for its own key, the fields before it for every other key. */
  lemma EntityGetLast<V>(entity: OrderedDict.Dict<string, V>, k: string)
    requires OrderedDict.NoDupKeys(entity) && entity != []
    ensures var n := |entity| - 1;
            OrderedDict.Get(entity, k) ==
              if k == entity[n].0 then Some(entity[n].1) else OrderedDict.Get(entity[..n], k)
    ensures var n := |entity| - 1;
            k == entity[n].0 ==> OrderedDict.Get(entity[..n], k).None?
  {
    var n := |entity| - 1;
    assert entity == entity[..n] + [entity[n]];
    OrderedDict.GetAppend(entity[..n], [entity[n]], k);
    assert [entity[n]][1..] == [];
    OrderedDict.KeyNotBefore(entity, n);
  }

  /**
   * A hit dict holds the hit's id, distance and score (`None` when it has
   * none) unless the entity overrides those keys, every entity field except
   * the vector field with its value, and no other key.
   */
  lemma HitDataSpec<V>(hit: Hit<V>, vectorField: string, k: string)
    requires OrderedDict.NoDupKeys(hit.entity)
    ensures var data := HitData(hit, vectorField);
            var entityKey := k != vectorField && k in OrderedDict.Keys(hit.entity);
            && (k in OrderedDict.Keys(data) <==> k == "id" || k == "distance" || k == "score" || entityKey)
            && (entityKey ==> OrderedDict.Get(data, k) == Some(Val(OrderedDict.Get(hit.entity, k).value)))
            && (!entityKey ==>
                  && (k == "id" ==> OrderedDict.Get(data, k) == Some(Val(hit.id)))
                  && (k == "distance" ==> OrderedDict.Get(data, k) == Some(Val(hit.distance)))
                  && (k == "score" ==>
                        (OrderedDict.Get(data, k) == Some(if hit.score.Some? then Val(hit.score.value) else NoneValue))))
  {
    BaseRecordGet(hit, k);
    WithEntityGet(BaseRecord(hit), hit.entity, vectorField, k);
  }

  /** The three keys a hit dict starts with, and their values. */
  lemma BaseRecordGet<V>(hit: Hit<V>, k: string)
    ensures OrderedDict.Get(BaseRecord(hit), k) ==
              if k == "id" then Some(Val(hit.id))
              else if k == "distance" then Some(Val(hit.distance))
              else if k == "score" then Some(if hit.score.Some? then Val(hit.score.value) else NoneValue)
              else None
  {
    var base := BaseRecord(hit);
    assert base[1..][1..] == [base[2]];
    assert base[1..][1..][1..] == [];
  }

  /** The vector field never reaches a hit dict unless it shares its name with id, distance or score. */
  lemma VectorFieldExcluded<V>(hit: Hit<V>, vectorField: string)
    requires OrderedDict.NoDupKeys(hit.entity)
    requires vectorField != "id" && vectorField != "distance" && vectorField != "score"
    ensures vectorField !in OrderedDict.Keys(HitData(hit, vectorField))
  {
    HitDataSpec(hit, vectorField, vectorField);
  }

  /** The nested loops: one list per query vector, one dict per hit, in order. */
  method FormatResults<V>(results: seq<seq<Hit<V>>>, vectorField: string)
    returns (formatted: seq<seq<OrderedDict.Dict<string, Value<V>>>>)
    ensures |formatted| == |results|
    ensures forall j :: 0 <= j < |results| ==>
              |formatted[j]| == |results[j]|
              && forall k :: 0 <= k < |results[j]| ==> formatted[j][k] == HitData(results[j][k], vectorField)
  {
    formatted := [];
    for j := 0 to |results|
      invariant |formatted| == j
      invariant forall m :: 0 <= m < j ==>
                  |formatted[m]| == |results[m]|
                  && forall k :: 0 <= k < |results[m]| ==> formatted[m][k] == HitData(results[m][k], vectorField)
    {
      var hitList := [];
      for k := 0 to |results[j]|
        invariant |hitList| == k
        invariant forall m :: 0 <= m < k ==> hitList[m] == HitData(results[j][m], vectorField)
      {
        var data := HitRecord(results[j][k], vectorField);
        hitList := hitList + [data];
      }
      formatted := formatted + [hitList];
    }
  }

  // ----- Search -----

  /** What `search_vectors` returns: the hit list alone for one query vector, the lists otherwise. */
  datatype SearchOutput<V> = Flat(hits: seq<OrderedDict.Dict<string, Value<V>>>)
                           | Nested(lists: seq<seq<OrderedDict.Dict<string, Value<V>>>>)

  /** The search runs only for an existing, loaded collection whose schema has a named vector field. */
  predicate ReachesSearch<V>(store: Store<V>, database: string, name: string)
  {
    var scope := ScopeFor(database);
    var fields := store.schema(scope, name);
    var i := FirstVectorIndex(fields);
    && store.hasCollection(scope, name) == Ok(true)
    && store.load(scope, name).None?
    && i < |fields| && fields[i].name != ""
  }

  /** The request `search_vectors` sends: the first vector field, metric L2 and `nprobe` 10. */
  function RequestFor<V>(store: Store<V>, database: string, name: string, vectors: seq<seq<real>>, limit: int,
                         expr: Option<string>, outputFields: Option<seq<string>>): SearchRequest
    requires FirstVectorIndex(store.schema(ScopeFor(database), name)) < |store.schema(ScopeFor(database), name)|
  {
    var scope := ScopeFor(database);
    var fields := store.schema(scope, name);
    SearchRequest(scope, name, vectors, fields[FirstVectorIndex(fields)].name, "L2", 10, limit, expr, outputFields)
  }

  /** The shape of the result: flat exactly when there is one hit list. */
  function Shaped<V>(formatted: seq<seq<OrderedDict.Dict<string, Value<V>>>>): SearchOutput<V>
  {
    if |formatted| == 1 then Flat(formatted[0]) else Nested(formatted)
  }

  /** What `search_vectors` computes, step by step. */
  function SearchOutcome<V>(store: Store<V>, database: string, name: string, vectors: seq<seq<real>>, limit: int,
                            expr: Option<string>, outputFields: Option<seq<string>>): Result<SearchOutput<V>>
  {
    var scope := ScopeFor(database);
    match store.hasCollection(scope, name)
    case Err(e) => Err(e)
    case Ok(false) => Err(Missing(name))
    case Ok(true) =>
      match store.load(scope, name)
      case Some(e) => Err(e)
      case None =>
        var fields := store.schema(scope, name);
        var i := FirstVectorIndex(fields);
        if i == |fields| || fields[i].name == "" then Err(NoVectorField(name))
        else
          match store.search(RequestFor(store, database, name, vectors, limit, expr, outputFields))
          case Err(e) => Err(e)
          case Ok(results) =>
            Ok(Shaped(seq(|results|, j requires 0 <= j < |results| =>
                            seq(|results[j]|, k requires 0 <= k < |results[j]| => HitData(results[j][k], fields[i].name)))))
  }

  /** `search_vectors`. */
  method SearchVectors<V>(store: Store<V>, database: string, name: string, vectors: seq<seq<real>>, limit: int,
                          expr: Option<string>, outputFields: Option<seq<string>>) returns (r: Result<SearchOutput<V>>)
    ensures r == SearchOutcome(store, database, name, vectors, limit, expr, outputFields)
  {
    var present := CollectionExists(store, database, name);
    if present.Err? {
      return Err(present.error);
    }
    if !present.value {
      return Err(Missing(name));
    }
    var scope := ScopeFor(database);
    var loadError := store.load(scope, name);
    if loadError.Some? {
      return Err(loadError.value);
    }
    var vectorField := VectorField(store.schema(scope, name));
    if vectorField.None? || vectorField.value == "" {
      return Err(NoVectorField(name));
    }
    var request := SearchRequest(scope, name, vectors, vectorField.value, "L2", 10, limit, expr, outputFields);
    assert request == RequestFor(store, database, name, vectors, limit, expr, outputFields);
    var results := store.search(request);
    if results.Err? {
      return Err(results.error);
    }
    var formatted := FormatResults(results.value, vectorField.value);
    forall j | 0 <= j < |results.value|
      ensures formatted[j] == seq(|results.value[j]|, k requires 0 <= k < |results.value[j]| =>
                                    HitData(results.value[j][k], vectorField.value))
    {
    }
    assert formatted == seq(|results.value|, j requires 0 <= j < |results.value| =>
                              seq(|results.value[j]|, k requires 0 <= k < |results.value[j]| =>
                                    HitData(results.value[j][k], vectorField.value)));
    r := Ok(Shaped(formatted));
  }

  /**
   * A missing collection, a failed load or a schema without a named vector
   * field ends the call with its error, and then nothing is searched: the
   * outcome is the same whatever the search would have answered.
   */
  lemma SearchGuards<V>(store: Store<V>, database: string, name: string, vectors: seq<seq<real>>, limit: int,
                        expr: Option<string>, outputFields: Option<seq<string>>,
                        otherSearch: SearchRequest -> Result<seq<seq<Hit<V>>>>)
    ensures var scope := ScopeFor(database);
            var r := SearchOutcome(store, database, name, vectors, limit, expr, outputFields);
            && (store.hasCollection(scope, name) == Ok(false) ==> r == Err(Missing(name)))
            && (store.hasCollection(scope, name) == Ok(true) && store.load(scope, name).Some? ==>
                  r == Err(store.load(scope, name).value))
            && ((store.hasCollection(scope, name) == Ok(true) && store.load(scope, name).None?
                 && !ReachesSearch(store, database, name)) ==> r == Err(NoVectorField(name)))
            && (!ReachesSearch(store, database, name) ==>
                  SearchOutcome(store.(search := otherSearch), database, name, vectors, limit, expr, outputFields) == r)
  {
  }

  /**
   * Once the search runs, it is asked for the first vector field with
   * metric L2 and `nprobe` 10; each query vector's hits become a list of
   * hit dicts in the order the store gave them, and the result is that
   * list alone exactly when there was a single query result.
   */
  lemma SearchResultShape<V>(store: Store<V>, database: string, name: string, vectors: seq<seq<real>>, limit: int,
                             expr: Option<string>, outputFields: Option<seq<string>>)
    requires ReachesSearch(store, database, name)
    ensures var fields := store.schema(ScopeFor(database), name);
            var request := RequestFor(store, database, name, vectors, limit, expr, outputFields);
            var r := SearchOutcome(store, database, name, vectors, limit, expr, outputFields);
            && request.annsField == fields[FirstVectorIndex(fields)].name
            && request.metricType == "L2" && request.nprobe == 10
            && request.vectors == vectors && request.limit == limit
            && request.expr == expr && request.outputFields == outputFields
            && (store.search(request).Err? ==> r == Err(store.search(request).error))
            && (store.search(request).Ok? ==>
                  var results := store.search(request).value;
                  && r.Ok?
                  && (r.value.Flat? <==> |results| == 1)
                  && (r.value.Flat? ==>
                        (&& |r.value.hits| == |results[0]|
                         && forall k :: 0 <= k < |results[0]| ==> r.value.hits[k] == HitData(results[0][k], request.annsField)))
                  && (r.value.Nested? ==>
                        (&& |r.value.lists| == |results|
                         && (forall j :: 0 <= j < |results| ==> |r.value.lists[j]| == |results[j]|)
                         && (forall j, k :: 0 <= j < |results| && 0 <= k < |results[j]| ==>
                               r.value.lists[j][k] == HitData(results[j][k], request.annsField)))))
  {
  }
}
