/**
  The store's identity map and data-slot bookkeeping as values: the tables the
  store keeps, and what `find`, `findById`, `findByClientId`, `materializeData`,
  `createRecord` and `reloadRecord` do to them. Calls the store makes to code
  outside it (the adapter, the record, the host's `materializeRecord`) are
  appended to a log. The class in DataStore is proved to follow these functions.
*/
module IdentityMap {
  import opened Wrappers
  import opened Js

  /** A model class (`record.constructor`), by name. */
  type ModelType = string
  /** A coerced server id. */
  type Id = string
  /** The store-local handle of a data slot; the store hands out 1, 2, 3, ... */
  type ClientId = nat

  /** The content of a data slot: one of three sentinels or an opaque payload. */
  datatype Slot = Created | Loading | Materialized | Data(payload: JsValue)

  /**
    `typeof` of a slot's content. The host framework defines CREATED and
    MATERIALIZED as objects and LOADING as the string 'loading'.
  */
  function SlotTypeOf(s: Slot): string {
    match s
    case Created => "object"
    case Materialized => "object"
    case Loading => "string"
    case Data(v) => TypeOf(v)
  }

  /** What the store relies on in the adapter `adapterForType` yields. */
  datatype Adapter = Adapter(implementsFind: bool, generatesIds: bool, bridge: bool)

  /** A call the store makes to code outside it. */
  datatype Event =
    | RecordBuilt(clientId: ClientId, modelType: ModelType, id: JsValue, options: JsValue)  // materializeRecord
    | RecordLoadedData(clientId: ClientId)                                                  // record.loadedData()
    | RecordSetupData(clientId: ClientId)                                                   // record.setupData()
    | AdapterFind(modelType: ModelType, id: JsValue, options: JsValue)                      // adapter.find
    | AdapterMaterialize(clientId: ClientId, data: Option<Slot>, prematerialized: JsValue, options: JsValue)
    | AdapterGenerateId(modelType: ModelType)                                               // adapter.generateIdForRecord

  /** Why an operation throws: a failed `Ember.assert`, or a call on a missing adapter. */
  datatype Failure = NoAdapter | AdapterLacksFind | RecordHasNoId | IdAlreadyUsed

  datatype Tables = Tables(
    idToCid: map<ModelType, map<string, ClientId>>,  // typeMapFor(type).idToCid, keyed by property name
    clientIdToData: map<ClientId, Slot>,
    clientIdToId: map<ClientId, Id>,
    clientIdToType: map<ClientId, ModelType>,
    prematerialized: map<ClientId, JsValue>,         // clientIdToPrematerializedData
    cached: set<ClientId>,                           // the clientIds recordCache holds a record for
    counter: nat,                                    // the last clientId handed out
    log: seq<Event>)

  /** The identity map of one type (`typeMapFor(type).idToCid`), empty until first used. */
  function TypeMap(t: Tables, ty: ModelType): map<string, ClientId> {
    if ty in t.idToCid then t.idToCid[ty] else map[]
  }

  /** The property name an id is looked up under: a null id is looked up as "null". */
  function IdKey(id: Option<Id>): string {
    if id.Some? then id.value else "null"
  }

  function AdapterFor(adapters: map<ModelType, Adapter>, ty: ModelType): Option<Adapter> {
    if ty in adapters then Some(adapters[ty]) else None
  }

  function Append(t: Tables, events: seq<Event>): Tables {
    t.(log := t.log + events)
  }

  /**
    Every clientId with an id, and every clientId an identity map points at, is
    one the store handed out, and the latter records this id and this type.
  */
  ghost predicate Inv(t: Tables) {
    (forall c | c in t.clientIdToId :: 0 < c <= t.counter)
    && forall ty, k | ty in t.idToCid && k in t.idToCid[ty] ::
      var c := t.idToCid[ty][k];
      0 < c <= t.counter
      && c in t.clientIdToId && t.clientIdToId[c] == k
      && c in t.clientIdToType && t.clientIdToType[c] == ty
  }

  // ----------------------------------------------------------------------
  // Host operations whose bodies are not part of this model (assumed).
  // ----------------------------------------------------------------------

  /** The clientId `pushData` hands out next. */
  function NextClientId(t: Tables): ClientId {
    t.counter + 1
  }

  /**
    The assert `pushData` opens with: a truthy id must not already map to a
    (truthy) clientId in the type's identity map. The empty string is falsy,
    so it is never refused.
  */
  predicate IdInUse(m: map<string, ClientId>, id: Option<Id>) {
    id.Some? && id.value != "" && id.value in m && m[id.value] != 0
  }

  /**
    `pushData(data, id, type)`, as Ember Data defines it once its assert has
    passed: hand out the next clientId, store `data` in its slot and its type,
    and, when the id is not none, bind id and clientId in both directions.
  */
  function PushData(t: Tables, data: Slot, id: Option<Id>, ty: ModelType): (r: Tables)
    ensures r.counter == NextClientId(t) && r.clientIdToData == t.clientIdToData[NextClientId(t) := data]
    ensures id.Some? ==> id.value in TypeMap(r, ty) && TypeMap(r, ty)[id.value] == NextClientId(t)
    ensures r.cached == t.cached && r.log == t.log
  {
    var c := NextClientId(t);
    var t1 := t.(counter := c,
                 clientIdToData := t.clientIdToData[c := data],
                 clientIdToType := t.clientIdToType[c := ty]);
    if id.None? then t1
    else t1.(idToCid := t.idToCid[ty := TypeMap(t, ty)[id.value := c]],
             clientIdToId := t.clientIdToId[c := id.value])
  }

  /** `materializeRecord(type, clientId, id, options)`: build a record for the clientId and cache it. */
  function MaterializeRecord(t: Tables, ty: ModelType, c: ClientId, id: JsValue, options: JsValue): (r: Tables)
    ensures r.cached == t.cached + {c} && r.(cached := t.cached, log := t.log) == t
    ensures |r.log| == |t.log| + 1 && r.log[..|t.log|] == t.log
  {
    t.(cached := t.cached + {c}, log := t.log + [RecordBuilt(c, ty, id, options)])
  }

  // ----------------------------------------------------------------------
  // The operations of store.js.
  // ----------------------------------------------------------------------

  /** Where `find(type, id)` sends the call. */
  datatype Route = ToFindAll | ToFindQuery(query: JsValue) | ToFindById(id: Option<Id>)

  /**
    `find`: no id means all records, a hash means a query, anything else is an
    id, coerced. Ember.typeOf calls only plain hashes "object", so null and
    arrays are ids.
  */
  function FindRoute(id: JsValue): (r: Route)
    ensures r.ToFindAll? <==> id == Undefined
    ensures r.ToFindQuery? <==> id.Obj?
    ensures r.ToFindQuery? ==> r.query == id
    ensures r.ToFindById? <==> !(id.Undefined? || id.Obj?)
    ensures r.ToFindById? ==> r.id == CoerceId(id)
  {
    if id == Undefined then ToFindAll
    else if EmberTypeOf(id) == "object" then ToFindQuery(id)
    else ToFindById(CoerceId(id))
  }

  /**
    `findByClientId`: the cached record, or a new one built for the clientId;
    a new one is told `loadedData` when the slot holds an object.
  */
  function FindByClientId(t: Tables, ty: ModelType, c: ClientId, options: JsValue): (r: Tables)
    ensures r.cached == t.cached + {c} && r.(cached := t.cached, log := t.log) == t
    ensures c in t.cached ==> r == t
    ensures t.log <= r.log
  {
    if c in t.cached then t
    else
      var id := if c in t.clientIdToId then Str(t.clientIdToId[c]) else Undefined;
      var t1 := MaterializeRecord(t, ty, c, id, options);
      if c in t.clientIdToData && SlotTypeOf(t.clientIdToData[c]) == "object" then Append(t1, [RecordLoadedData(c)])
      else t1
  }

  datatype Found = Found(tables: Tables, result: Result<ClientId, Failure>)

  /**
    `findById`: a known id goes to `findByClientId` (without the options); an
    unknown one is loaded.
  */
  function FindById(t: Tables, adapters: map<ModelType, Adapter>, ty: ModelType, id: Option<Id>, options: JsValue): (f: Found)
    ensures f.result.Ok? ==> f.result.value in f.tables.cached
    ensures t.cached <= f.tables.cached && t.log <= f.tables.log
    ensures t.counter <= f.tables.counter <= t.counter + 1
  {
    var m := TypeMap(t, ty);
    var key := IdKey(id);
    if key in m && m[key] != 0 then
      Found(FindByClientId(t, ty, m[key], Undefined), Ok(m[key]))
    else
      LoadById(t, adapters, ty, id, options)
  }

  /**
    The unknown-id branch of `findById`: a new LOADING clientId, a record, and
    one `adapter.find`. A missing adapter or `find` throws after the allocation.
  */
  function LoadById(t: Tables, adapters: map<ModelType, Adapter>, ty: ModelType, id: Option<Id>, options: JsValue): (f: Found)
    ensures f.tables.counter == NextClientId(t) && NextClientId(t) in f.tables.cached
    ensures f.tables.clientIdToData == t.clientIdToData[NextClientId(t) := Loading]
    ensures f.result.Ok? <==> ty in adapters && adapters[ty].implementsFind
    ensures f.result.Ok? ==> f.result.value == NextClientId(t)
  {
    var c := NextClientId(t);
    var t2 := MaterializeRecord(PushData(t, Loading, id, ty), ty, c, IdValue(id), options);
    var adapter := AdapterFor(adapters, ty);
    if adapter.None? then Found(t2, Err(NoAdapter))
    else if !adapter.value.implementsFind then Found(t2, Err(AdapterLacksFind))
    else Found(Append(t2, [AdapterFind(ty, IdValue(id), options)]), Ok(c))
  }

  datatype Step = Step(tables: Tables, outcome: Outcome<Failure>)

  /**
    `materializeData(record)`: the slot becomes MATERIALIZED, the record sets up
    its data, and unless the old slot was CREATED the adapter materializes the
    old slot content with the prematerialized data.
  */
  function MaterializeData(t: Tables, adapters: map<ModelType, Adapter>, ty: ModelType, c: ClientId, options: JsValue): (s: Step)
    ensures s.tables.clientIdToData == t.clientIdToData[c := Materialized]
    ensures s.outcome.Fail? <==> !(c in t.clientIdToData && t.clientIdToData[c] == Created) && ty !in adapters
  {
    var data := if c in t.clientIdToData then Some(t.clientIdToData[c]) else None;
    var pre := if c in t.prematerialized then t.prematerialized[c] else Undefined;
    var t1 := t.(clientIdToData := t.clientIdToData[c := Materialized], log := t.log + [RecordSetupData(c)]);
    if data == Some(Created) then Step(t1, Pass)
    else if ty !in adapters then Step(t1, Fail(NoAdapter))
    else Step(Append(t1, [AdapterMaterialize(c, data, pre, options)]), Pass)
  }

  /** The properties hash after `createRecord` has looked for an id, and the id it then uses. */
  datatype IdChoice = IdChoice(properties: map<string, JsValue>, id: JsValue, generated: bool)

  /**
    How `createRecord` settles the record's id: without an id, an adapter that
    generates ids supplies one, coerced, which goes to `localId` for a bridge
    adapter and to `id` otherwise. `generated` is what `generateIdForRecord`
    returns.
  */
  function ChooseId(properties: map<string, JsValue>, adapter: Option<Adapter>, generated: JsValue): (r: IdChoice)
    ensures !r.generated ==> r.properties == properties && r.id == (if "id" in properties then properties["id"] else Undefined)
    ensures r.generated ==> ("id" in properties ==> IsNone(properties["id"])) && adapter.Some? && adapter.value.generatesIds
    ensures r.generated ==> r.id == IdValue(CoerceId(generated)) && r.properties.Keys == properties.Keys + {if adapter.value.bridge then "localId" else "id"}
  {
    var id := if "id" in properties then properties["id"] else Undefined;
    if IsNone(id) && adapter.Some? && adapter.value.generatesIds then
      var g := IdValue(CoerceId(generated));
      IdChoice(if adapter.value.bridge then properties["localId" := g] else properties["id" := g], g, true)
    else
      IdChoice(properties, id, false)
  }

  datatype NewRecord = NewRecord(tables: Tables, result: Result<ClientId, Failure>, choice: IdChoice)

  /** The new record of `createRecord` is told `loadedData` and `setupData`, and cached. */
  function CacheCreated(t: Tables, c: ClientId): Tables {
    t.(cached := t.cached + {c}, log := t.log + [RecordLoadedData(c), RecordSetupData(c)])
  }

  /**
    `createRecord`: choose the id (calling the adapter's generator when it
    supplies one), allocate a CREATED clientId for it, then set up and cache
    the record. An id already in use makes pushData's assert throw before
    anything is allocated.
  */
  function CreateRecord(t: Tables, adapters: map<ModelType, Adapter>, ty: ModelType,
                        properties: map<string, JsValue>, generated: JsValue): (n: NewRecord)
    ensures n.result.Ok? <==> !IdInUse(TypeMap(t, ty), CoerceId(n.choice.id))
    ensures n.result.Ok? ==> n.result.value == NextClientId(t) && n.result.value in n.tables.cached
    ensures n.result.Ok? && CoerceId(n.choice.id).Some? ==>
      var k := CoerceId(n.choice.id).value; k in TypeMap(n.tables, ty) && TypeMap(n.tables, ty)[k] == n.result.value
    ensures n.result.Err? ==> n.result.error == IdAlreadyUsed && n.tables.(log := t.log) == t
  {
    var choice := ChooseId(properties, AdapterFor(adapters, ty), generated);
    var t0 := if choice.generated then Append(t, [AdapterGenerateId(ty)]) else t;
    var id := CoerceId(choice.id);
    if IdInUse(TypeMap(t0, ty), id) then NewRecord(t0, Err(IdAlreadyUsed), choice)
    else
      var c := NextClientId(t0);
      NewRecord(CacheCreated(PushData(t0, Created, id, ty), c), Ok(c), choice)
  }

  /**
    `reloadRecord`: asserts that the record has an id and that there is an
    adapter implementing `find`, then calls it. `id` is the record's `id`.
  */
  function ReloadRecord(t: Tables, adapters: map<ModelType, Adapter>, ty: ModelType, id: JsValue, options: JsValue): (s: Step)
    ensures s.outcome.Pass? ==> Truthy(id) && ty in adapters
    ensures s.tables.(log := t.log) == t && t.log <= s.tables.log
  {
    if !Truthy(id) then Step(t, Fail(RecordHasNoId))
    else if ty !in adapters then Step(t, Fail(NoAdapter))
    else if !adapters[ty].implementsFind then Step(t, Fail(AdapterLacksFind))
    else Step(Append(t, [AdapterFind(ty, id, options)]), Pass)
  }

  /** A call made to the store, as far as its tables are concerned. */
  datatype Op =
    | FindOp(modelType: ModelType, id: JsValue, options: JsValue)
    | FindByClientIdOp(modelType: ModelType, clientId: ClientId, options: JsValue)
    | MaterializeDataOp(modelType: ModelType, clientId: ClientId, options: JsValue)
    | CreateRecordOp(modelType: ModelType, properties: map<string, JsValue>, generated: JsValue)
    | ReloadRecordOp(modelType: ModelType, id: JsValue, options: JsValue)
    | DeleteRecordOp(modelType: ModelType, clientId: ClientId)
    | UnloadRecordOp(modelType: ModelType, clientId: ClientId)

  /**
    The tables after one call. findAll and findQuery leave them alone, and so
    do deleteRecord and unloadRecord, which only forward to the record.
  */
  function Apply(t: Tables, adapters: map<ModelType, Adapter>, op: Op): Tables {
    match op
    case FindOp(ty, id, options) =>
      (match FindRoute(id)
       case ToFindById(i) => FindById(t, adapters, ty, i, options).tables
       case _ => t)
    case FindByClientIdOp(ty, c, options) => FindByClientId(t, ty, c, options)
    case MaterializeDataOp(ty, c, options) => MaterializeData(t, adapters, ty, c, options).tables
    case CreateRecordOp(ty, properties, generated) => CreateRecord(t, adapters, ty, properties, generated).tables
    case ReloadRecordOp(ty, id, options) => ReloadRecord(t, adapters, ty, id, options).tables
    case DeleteRecordOp(_, _) => t
    case UnloadRecordOp(_, _) => t
  }

  /** The tables after a sequence of calls. */
  function ApplyAll(t: Tables, adapters: map<ModelType, Adapter>, ops: seq<Op>): Tables
    decreases |ops|
  {
    if ops == [] then t else ApplyAll(Apply(t, adapters, ops[0]), adapters, ops[1..])
  }
}
