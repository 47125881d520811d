/**
  The Store extension as an object: the tables it updates in place, the record
  objects it builds and caches, and the operations of store.js as methods. Each
  method is proved to move the store's tables exactly as the matching function
  of IdentityMap says, and to keep the identity invariant.
*/
module DataStore {
  import opened Wrappers
  import opened Js
  import opened IdentityMap
  import IdentityMapProps

  /** A transaction records are adopted into. */
  class Transaction {
    constructor ()
    {
    }
  }

  /** A properties hash; it belongs to the caller of createRecord, which writes an id into it. */
  class Hash {
    var entries: map<string, JsValue>

    constructor (entries: map<string, JsValue>)
      ensures this.entries == entries
    {
      this.entries := entries;
    }
  }

  /** A lifecycle action a record was asked to perform. */
  datatype LifecycleRequest = DeleteRequested(options: JsValue) | UnloadRequested(options: JsValue)

  class Record {
    const modelType: ModelType                 // record.constructor
    const clientId: ClientId
    var properties: map<string, JsValue>
    var transaction: Transaction?
    var loaded: bool                           // loadedData() was called
    var dataSetUp: bool                        // setupData() was called
    var requests: seq<LifecycleRequest>

    /** `type._create(...)`, bound to a clientId. */
    constructor (ty: ModelType, c: ClientId)
      ensures modelType == ty && clientId == c && properties == map[] && transaction == null
      ensures !loaded && !dataSetUp && requests == []
    {
      modelType := ty;
      clientId := c;
      properties := map[];
      transaction := null;
      loaded := false;
      dataSetUp := false;
      requests := [];
    }

    /** `get(record, 'id')`. */
    function Id(): JsValue
      reads this
    {
      if "id" in properties then properties["id"] else Undefined
    }
  }

  /** What `find` answers: the (unmodelled) answer of findAll or findQuery, or findById's. */
  datatype FindAnswer =
    | AllOf(modelType: ModelType, options: JsValue)
    | QueryOf(modelType: ModelType, query: JsValue, options: JsValue)
    | One(result: Result<Record, Failure>)

  /** A record result agrees with a clientId result of IdentityMap. */
  ghost predicate Answers(res: Result<Record, Failure>, f: Result<ClientId, Failure>)
    reads if res.Ok? then {res.value} else {}
  {
    match res
    case Ok(r) => f == Ok(r.clientId)
    case Err(e) => f == Err(e)
  }

  /** Every record cached before is still cached, as the same object, except possibly under clientId `c`. */
  ghost predicate KeepsCachedExcept(before: map<ClientId, Record>, after: map<ClientId, Record>, c: ClientId) {
    forall c' | c' in before && c' != c :: c' in after && after[c'] == before[c']
  }

  /** Each record of a cache is cached under its own clientId. */
  ghost predicate CachedUnderOwnClientId(cache: map<ClientId, Record>) {
    forall c | c in cache :: cache[c].clientId == c
  }

  class Store {
    var idToCid: map<ModelType, map<string, ClientId>>   // typeMapFor(type).idToCid
    var clientIdToData: map<ClientId, Slot>
    var clientIdToId: map<ClientId, Id>
    var clientIdToType: map<ClientId, ModelType>
    var clientIdToPrematerializedData: map<ClientId, JsValue>
    var recordCache: map<ClientId, Record>
    var clientIdCounter: nat
    var log: seq<Event>                                   // calls made to adapters and records
    const adapters: map<ModelType, Adapter>               // what adapterForType yields
    const defaultTransaction: Transaction

    /** The store's tables as a value. */
    ghost function State(): Tables
      reads this
    {
      Tables(idToCid, clientIdToData, clientIdToId, clientIdToType, clientIdToPrematerializedData,
             recordCache.Keys, clientIdCounter, log)
    }

    /** The identity invariant holds, and each cached record is bound to its own clientId. */
    ghost predicate Valid()
      reads this
    {
      Inv(State()) && CachedUnderOwnClientId(recordCache)
    }

    /**
      The record cached under `c` is one findById's unknown-id branch builds: of
      the type, carrying the id, adopted into the default transaction, and
      neither loaded nor set up.
    */
    ghost predicate LoadingRecordAt(c: ClientId, ty: ModelType, id: JsValue)
      reads this, if c in recordCache then {recordCache[c]} else {}
    {
      c in recordCache && recordCache[c].modelType == ty && recordCache[c].Id() == id
      && recordCache[c].transaction == defaultTransaction && !recordCache[c].loaded && !recordCache[c].dataSetUp
    }

    /**
      The record `r` is one findByClientId builds for clientId `c`: of the type,
      adopted into the default transaction, not set up, and loaded exactly when
      the clientId's slot holds an object.
    */
    ghost predicate BuiltForClientId(r: Record, c: ClientId, ty: ModelType)
      reads this, r
    {
      r.clientId == c && r.modelType == ty && r.transaction == defaultTransaction && !r.dataSetUp
      && r.loaded == (c in clientIdToData && SlotTypeOf(clientIdToData[c]) == "object")
    }

    constructor (adapters: map<ModelType, Adapter>, defaultTransaction: Transaction)
      ensures State() == Tables(map[], map[], map[], map[], map[], {}, 0, [])
      ensures this.adapters == adapters && this.defaultTransaction == defaultTransaction
      ensures Valid()
    {
      idToCid := map[];
      clientIdToData := map[];
      clientIdToId := map[];
      clientIdToType := map[];
      clientIdToPrematerializedData := map[];
      recordCache := map[];
      clientIdCounter := 0;
      log := [];
      this.adapters := adapters;
      this.defaultTransaction := defaultTransaction;
    }

    // ------------------------------------------------------------------
    // Host operations whose bodies are not part of this model: each body
    // implements the contract assumed of it.
    // ------------------------------------------------------------------

    /**
      `pushData(data, id, type)`, once its assert that the id is not in use has
      passed: the store's tables become what IdentityMap.PushData makes of them.
    */
    method PushData(data: Slot, id: Option<Id>, ty: ModelType) returns (c: ClientId)
      requires Valid()
      requires !IdInUse(TypeMap(State(), ty), id)
      modifies this`idToCid, this`clientIdToData, this`clientIdToId, this`clientIdToType, this`clientIdCounter
      ensures State() == IdentityMap.PushData(old(State()), data, id, ty)
      ensures c == old(clientIdCounter) + 1 && c !in old(clientIdToId) && c > 0
      ensures Valid()
    {
      var pushed := IdentityMap.PushData(Tables(idToCid, clientIdToData, clientIdToId, clientIdToType,
                                                clientIdToPrematerializedData, recordCache.Keys, clientIdCounter, log),
                                         data, id, ty);
      IdentityMapProps.PushDataKeepsInv(State(), data, id, ty);
      c := pushed.counter;
      idToCid, clientIdToData, clientIdToId, clientIdToType, clientIdCounter :=
        pushed.idToCid, pushed.clientIdToData, pushed.clientIdToId, pushed.clientIdToType, pushed.counter;
    }

    /**
      `materializeRecord(type, clientId, id, options)`: a new record bound to the
      clientId, adopted into the default transaction, cached.
    */
    method MaterializeRecord(ty: ModelType, c: ClientId, id: JsValue, options: JsValue) returns (r: Record)
      requires Valid()
      modifies this`recordCache, this`log
      ensures State() == IdentityMap.MaterializeRecord(old(State()), ty, c, id, options)
      ensures fresh(r) && r.modelType == ty && r.clientId == c && r.Id() == id
      ensures r.transaction == defaultTransaction
      ensures !r.loaded && !r.dataSetUp && r.requests == []
      ensures recordCache == old(recordCache)[c := r]
      ensures Valid()
    {
      r := new Record(ty, c);
      r.properties := map["id" := id];
      r.transaction := defaultTransaction;
      recordCache := recordCache[c := r];
      log := log + [RecordBuilt(c, ty, id, options)];
    }

    // ------------------------------------------------------------------
    // store.js
    // ------------------------------------------------------------------

    /**
      `findByClientId`: the cached record, unchanged, or a new record for the
      clientId, told `loadedData` when its slot holds an object.
    */
    method FindByClientId(ty: ModelType, c: ClientId, options: JsValue) returns (r: Record)
      requires Valid()
      modifies this`recordCache, this`log
      ensures State() == IdentityMap.FindByClientId(old(State()), ty, c, options)
      ensures recordCache == old(recordCache)[c := r] && r.clientId == c
      ensures c in old(recordCache) ==> r == old(recordCache[c]) && unchanged(this)
      ensures c !in old(recordCache) ==>
        fresh(r) && r.modelType == ty && r.transaction == defaultTransaction && !r.dataSetUp
        && r.loaded == (c in clientIdToData && SlotTypeOf(clientIdToData[c]) == "object")
      ensures Valid()
    {
      if c in recordCache {
        r := recordCache[c];
      } else {
        var id := if c in clientIdToId then Str(clientIdToId[c]) else Undefined;
        ghost var t := State();
        r := MaterializeRecord(ty, c, id, options);
        assert State() == IdentityMap.MaterializeRecord(t, ty, c, id, options);
        if c in clientIdToData && SlotTypeOf(clientIdToData[c]) == "object" {
          r.loaded := true;
          log := log + [RecordLoadedData(c)];
        }
      }
    }

    /**
      `findById`: the record of a known id (the same object when it is cached),
      or a new LOADING record whose data the adapter is asked to find.
    */
    method FindById(ty: ModelType, id: Option<Id>, options: JsValue) returns (res: Result<Record, Failure>)
      requires Valid()
      modifies this`idToCid, this`clientIdToData, this`clientIdToId, this`clientIdToType, this`clientIdCounter,
               this`recordCache, this`log
      ensures var f := IdentityMap.FindById(old(State()), adapters, ty, id, options);
        State() == f.tables && Answers(res, f.result)
      ensures res.Ok? ==> recordCache == old(recordCache)[res.value.clientId := res.value]
      ensures var key := IdKey(id);
        ty in old(idToCid) && key in old(idToCid)[ty] && old(idToCid)[ty][key] in old(recordCache) ==>
          res == Ok(old(recordCache)[old(idToCid)[ty][key]]) && unchanged(this)
      ensures res.Ok? && res.value.clientId !in old(recordCache) ==>
        fresh(res.value) && res.value.transaction == defaultTransaction
      ensures var m := TypeMap(old(State()), ty);
        IdKey(id) in m && m[IdKey(id)] !in old(recordCache) ==>
          res.Ok? && fresh(res.value) && BuiltForClientId(res.value, m[IdKey(id)], ty)
      ensures IdKey(id) !in TypeMap(old(State()), ty) ==>
        var c := old(clientIdCounter) + 1;
        LoadingRecordAt(c, ty, IdValue(id)) && fresh(recordCache[c]) && (res.Ok? ==> res.value == recordCache[c])
      ensures KeepsCachedExcept(old(recordCache), recordCache, old(clientIdCounter) + 1)
      ensures Valid()
    {
      var typeMap := if ty in idToCid then idToCid[ty] else map[];
      var key := IdKey(id);
      if key in typeMap && typeMap[key] != 0 {
        var r := FindByClientId(ty, typeMap[key], Undefined);
        return Ok(r);
      }
      res := LoadById(ty, id, options);
    }

    /** The unknown-id branch of `findById`: a new LOADING record, whose data the adapter is asked to find. */
    method LoadById(ty: ModelType, id: Option<Id>, options: JsValue) returns (res: Result<Record, Failure>)
      requires Valid()
      requires IdKey(id) !in TypeMap(State(), ty) || TypeMap(State(), ty)[IdKey(id)] == 0
      modifies this`idToCid, this`clientIdToData, this`clientIdToId, this`clientIdToType, this`clientIdCounter,
               this`recordCache, this`log
      ensures var f := IdentityMap.LoadById(old(State()), adapters, ty, id, options);
        State() == f.tables && Answers(res, f.result)
      ensures res.Ok? ==> fresh(res.value) && recordCache == old(recordCache)[res.value.clientId := res.value]
      ensures res.Ok? ==> res.value.transaction == defaultTransaction
      ensures var c := old(clientIdCounter) + 1;
        LoadingRecordAt(c, ty, IdValue(id)) && fresh(recordCache[c])
        && recordCache == old(recordCache)[c := recordCache[c]] && (res.Ok? ==> res.value == recordCache[c])
      ensures KeepsCachedExcept(old(recordCache), recordCache, old(clientIdCounter) + 1)
      ensures Valid()
    {
      var r := AllocateLoading(ty, id, options);
      var adapter := AdapterFor(adapters, ty);
      if adapter.None? {
        return Err(NoAdapter);
      }
      if !adapter.value.implementsFind {
        return Err(AdapterLacksFind);
      }
      log := log + [AdapterFind(ty, IdValue(id), options)];
      return Ok(r);
    }

    /** The start of findById's unknown-id branch: a LOADING clientId for the id, and its record, cached. */
    method AllocateLoading(ty: ModelType, id: Option<Id>, options: JsValue) returns (r: Record)
      requires Valid()
      requires IdKey(id) !in TypeMap(State(), ty) || TypeMap(State(), ty)[IdKey(id)] == 0
      modifies this`idToCid, this`clientIdToData, this`clientIdToId, this`clientIdToType, this`clientIdCounter,
               this`recordCache, this`log
      ensures State() == IdentityMap.MaterializeRecord(IdentityMap.PushData(old(State()), Loading, id, ty),
                                                       ty, NextClientId(old(State())), IdValue(id), options)
      ensures fresh(r) && r.clientId == NextClientId(old(State())) && r.transaction == defaultTransaction
      ensures r.modelType == ty && r.Id() == IdValue(id) && !r.loaded && !r.dataSetUp
      ensures recordCache == old(recordCache)[r.clientId := r]
      ensures Valid()
    {
      ghost var t := State();
      var c := PushData(Loading, id, ty);
      ghost var u := State();
      r := MaterializeRecord(ty, c, IdValue(id), options);
      assert State() == IdentityMap.MaterializeRecord(u, ty, c, IdValue(id), options);
    }

    /** `find`: dispatch on the shape of `id`. */
    method Find(ty: ModelType, id: JsValue, options: JsValue) returns (answer: FindAnswer)
      requires Valid()
      modifies this`idToCid, this`clientIdToData, this`clientIdToId, this`clientIdToType, this`clientIdCounter,
               this`recordCache, this`log
      ensures FindRoute(id) == ToFindAll ==> answer == AllOf(ty, options) && unchanged(this)
      ensures FindRoute(id).ToFindQuery? ==> answer == QueryOf(ty, id, options) && unchanged(this)
      ensures FindRoute(id).ToFindById? ==>
        var f := IdentityMap.FindById(old(State()), adapters, ty, FindRoute(id).id, options);
        answer.One? && State() == f.tables && Answers(answer.result, f.result)
      ensures answer.One? && answer.result.Ok? ==>
        recordCache == old(recordCache)[answer.result.value.clientId := answer.result.value]
      ensures FindRoute(id).ToFindById? ==>
        var key := IdKey(FindRoute(id).id);
        ty in old(idToCid) && key in old(idToCid)[ty] && old(idToCid)[ty][key] in old(recordCache) ==>
          answer == One(Ok(old(recordCache)[old(idToCid)[ty][key]])) && unchanged(this)
      ensures answer.One? && answer.result.Ok? && answer.result.value.clientId !in old(recordCache) ==>
        fresh(answer.result.value) && answer.result.value.transaction == defaultTransaction
      ensures FindRoute(id).ToFindById? ==>
        var m, key := TypeMap(old(State()), ty), IdKey(FindRoute(id).id);
        key in m && m[key] !in old(recordCache) ==>
          answer.One? && answer.result.Ok? && fresh(answer.result.value) && BuiltForClientId(answer.result.value, m[key], ty)
      ensures FindRoute(id).ToFindById? && IdKey(FindRoute(id).id) !in TypeMap(old(State()), ty) ==>
        var c := old(clientIdCounter) + 1;
        answer.One? && LoadingRecordAt(c, ty, IdValue(FindRoute(id).id)) && fresh(recordCache[c])
        && (answer.result.Ok? ==> answer.result.value == recordCache[c])
      ensures KeepsCachedExcept(old(recordCache), recordCache, old(clientIdCounter) + 1)
      ensures Valid()
    {
      if id == Undefined {
        return AllOf(ty, options);
      }
      if EmberTypeOf(id) == "object" {
        return QueryOf(ty, id, options);
      }
      var res := FindById(ty, CoerceId(id), options);
      return One(res);
    }

    /**
      `materializeData`: the record's slot becomes MATERIALIZED and the record
      sets up its data; unless the slot was CREATED, the adapter materializes it.
    */
    method MaterializeData(record: Record, options: JsValue) returns (outcome: Outcome<Failure>)
      requires Valid()
      modifies this`clientIdToData, this`log, record`dataSetUp
      ensures Step(State(), outcome) == IdentityMap.MaterializeData(old(State()), adapters, record.modelType, record.clientId, options)
      ensures clientIdToData[record.clientId] == Materialized && record.dataSetUp
      ensures Valid()
    {
      var c := record.clientId;
      var adapter := AdapterFor(adapters, record.modelType);
      var data := if c in clientIdToData then Some(clientIdToData[c]) else None;
      clientIdToData := clientIdToData[c := Materialized];
      var pre := if c in clientIdToPrematerializedData then clientIdToPrematerializedData[c] else Undefined;
      record.dataSetUp := true;
      log := log + [RecordSetupData(c)];
      if data != Some(Created) {
        if adapter.None? {
          return Fail(NoAdapter);
        }
        log := log + [AdapterMaterialize(c, data, pre, options)];
      }
      return Pass;
    }

    /**
      `createRecord`: a new record in the given (or the default) transaction,
      with a CREATED clientId, cached, and given the properties, into which an
      adapter-generated id may have been written. An id already in use fails
      pushData's assert. `generated` is what the adapter's generateIdForRecord
      returns; `options` is unused, as in the source.
    */
    method CreateRecord(ty: ModelType, properties: Hash?, transaction: Transaction?, options: JsValue, generated: JsValue)
      returns (res: Result<Record, Failure>)
      requires Valid()
      modifies this`idToCid, this`clientIdToData, this`clientIdToId, this`clientIdToType, this`clientIdCounter,
               this`recordCache, this`log, properties
      ensures var n := IdentityMap.CreateRecord(old(State()), adapters, ty,
                                                if properties != null then old(properties.entries) else map[], generated);
        State() == n.tables && Answers(res, n.result)
        && (res.Ok? ==> res.value.properties == n.choice.properties)
        && (properties != null ==> properties.entries == n.choice.properties)
      ensures res.Ok? ==> fresh(res.value) && res.value.modelType == ty && res.value.loaded && res.value.dataSetUp
      ensures res.Ok? ==> recordCache == old(recordCache)[res.value.clientId := res.value]
      ensures res.Ok? ==> res.value.transaction == if transaction != null then transaction else defaultTransaction
      ensures res.Err? ==> recordCache == old(recordCache)
      ensures Valid()
    {
      var hash: Hash;
      if properties != null {
        hash := properties;
      } else {
        hash := new Hash(map[]);
      }
      var txn := if transaction != null then transaction else defaultTransaction;
      res := CreateRecordWith(ty, hash, txn, generated);
    }

    /**
      `createRecord` once `properties || {}` and `transaction || defaultTransaction`
      are resolved: choose the id, allocate a CREATED clientId for it unless
      pushData's assert refuses it, and set up and cache the record.
    */
    method CreateRecordWith(ty: ModelType, hash: Hash, txn: Transaction, generated: JsValue)
      returns (res: Result<Record, Failure>)
      requires Valid()
      modifies this`idToCid, this`clientIdToData, this`clientIdToId, this`clientIdToType, this`clientIdCounter,
               this`recordCache, this`log, hash
      ensures var n := IdentityMap.CreateRecord(old(State()), adapters, ty, old(hash.entries), generated);
        State() == n.tables && Answers(res, n.result) && hash.entries == n.choice.properties
      ensures res.Ok? ==> fresh(res.value) && res.value.modelType == ty && res.value.loaded && res.value.dataSetUp
      ensures res.Ok? ==> res.value.transaction == txn && res.value.properties == hash.entries
      ensures res.Ok? ==> recordCache == old(recordCache)[res.value.clientId := res.value]
      ensures res.Err? ==> recordCache == old(recordCache)
      ensures Valid()
    {
      ghost var choice := ChooseId(hash.entries, AdapterFor(adapters, ty), generated);
      ghost var t0 := if choice.generated then Append(State(), [AdapterGenerateId(ty)]) else State();
      var id := ChooseRecordId(ty, hash, generated);
      assert State() == t0;
      var typeMap := if ty in idToCid then idToCid[ty] else map[];
      if IdInUse(typeMap, CoerceId(id)) {
        return Err(IdAlreadyUsed);
      }
      var record := AllocateCreated(ty, CoerceId(id), hash.entries, txn);
      return Ok(record);
    }

    /** The part of `createRecord` after pushData's assert has passed: a CREATED clientId and its record. */
    method AllocateCreated(ty: ModelType, id: Option<Id>, properties: map<string, JsValue>, transaction: Transaction)
      returns (record: Record)
      requires Valid()
      requires !IdInUse(TypeMap(State(), ty), id)
      modifies this`idToCid, this`clientIdToData, this`clientIdToId, this`clientIdToType, this`clientIdCounter,
               this`recordCache, this`log
      ensures State() == IdentityMap.CacheCreated(IdentityMap.PushData(old(State()), Created, id, ty), NextClientId(old(State())))
      ensures fresh(record) && record.modelType == ty && record.clientId == NextClientId(old(State()))
      ensures record.loaded && record.dataSetUp && record.properties == properties && record.transaction == transaction
      ensures recordCache == old(recordCache)[record.clientId := record]
      ensures Valid()
    {
      ghost var t := State();
      var c := PushData(Created, id, ty);
      assert State() == IdentityMap.PushData(t, Created, id, ty);
      record := CacheCreatedRecord(ty, c, properties, transaction);
    }

    /** The end of `createRecord`: the record for a CREATED clientId, set up, cached and given its properties. */
    method CacheCreatedRecord(ty: ModelType, c: ClientId, properties: map<string, JsValue>, transaction: Transaction)
      returns (record: Record)
      requires Valid()
      modifies this`recordCache, this`log
      ensures State() == IdentityMap.CacheCreated(old(State()), c)
      ensures fresh(record) && record.modelType == ty && record.clientId == c && record.loaded && record.dataSetUp
      ensures record.properties == properties && record.transaction == transaction
      ensures recordCache == old(recordCache)[c := record]
      ensures Valid()
    {
      record := new Record(ty, c);
      record.properties := properties;
      record.transaction := transaction;
      record.loaded := true;
      record.dataSetUp := true;
      log := log + [RecordLoadedData(c), RecordSetupData(c)];
      recordCache := recordCache[c := record];
    }

    /**
      How `createRecord` settles the id the record gets: it asks the adapter to
      generate one when the properties carry none, and writes a generated one
      into the properties.
    */
    method ChooseRecordId(ty: ModelType, properties: Hash, generated: JsValue) returns (id: JsValue)
      requires Valid()
      modifies this`log, properties
      ensures var choice := ChooseId(old(properties.entries), AdapterFor(adapters, ty), generated);
        properties.entries == choice.properties && id == choice.id
        && State() == if choice.generated then Append(old(State()), [AdapterGenerateId(ty)]) else old(State())
      ensures Valid()
    {
      id := if "id" in properties.entries then properties.entries["id"] else Undefined;
      if IsNone(id) {
        var adapter := AdapterFor(adapters, ty);
        if adapter.Some? && adapter.value.generatesIds {
          log := log + [AdapterGenerateId(ty)];
          id := IdValue(CoerceId(generated));
          if adapter.value.bridge {
            properties.entries := properties.entries["localId" := id];
          } else {
            properties.entries := properties.entries["id" := id];
          }
        }
      }
    }

    /** `reloadRecord`: after its guard, ask the adapter to find the record's id again. */
    method ReloadRecord(record: Record, options: JsValue) returns (outcome: Outcome<Failure>)
      requires Valid()
      modifies this`log
      ensures Step(State(), outcome) == IdentityMap.ReloadRecord(old(State()), adapters, record.modelType, record.Id(), options)
      ensures Valid()
    {
      var id := record.Id();
      if !Truthy(id) {
        return Fail(RecordHasNoId);
      }
      if record.modelType !in adapters {
        return Fail(NoAdapter);
      }
      if !adapters[record.modelType].implementsFind {
        return Fail(AdapterLacksFind);
      }
      log := log + [AdapterFind(record.modelType, id, options)];
      return Pass;
    }

    /** `deleteRecord`: forwarded to the record. */
    method DeleteRecord(record: Record, options: JsValue)
      modifies record`requests
      ensures record.requests == old(record.requests) + [DeleteRequested(options)]
    {
      record.requests := record.requests + [DeleteRequested(options)];
    }

    /** `unloadRecord`: forwarded to the record. */
    method UnloadRecord(record: Record, options: JsValue)
      modifies record`requests
      ensures record.requests == old(record.requests) + [UnloadRequested(options)]
    {
      record.requests := record.requests + [UnloadRequested(options)];
    }
  }

  /** A call made to the store, with the objects it is given. */
  datatype StoreCall =
    | CallFind(modelType: ModelType, id: JsValue, options: JsValue)
    | CallFindByClientId(modelType: ModelType, clientId: ClientId, options: JsValue)
    | CallMaterializeData(record: Record, options: JsValue)
    | CallCreateRecord(modelType: ModelType, properties: Hash?, transaction: Transaction?, options: JsValue, generated: JsValue)
    | CallReloadRecord(record: Record, options: JsValue)
    | CallDeleteRecord(record: Record, options: JsValue)
    | CallUnloadRecord(record: Record, options: JsValue)

  /** The caller's objects a call may read or change: the properties hash or the record. */
  function CallObjects(call: StoreCall): set<object> {
    match call
    case CallCreateRecord(_, properties, _, _, _) => if properties != null then {properties} else {}
    case CallMaterializeData(record, _) => {record}
    case CallReloadRecord(record, _) => {record}
    case CallDeleteRecord(record, _) => {record}
    case CallUnloadRecord(record, _) => {record}
    case _ => {}
  }

  /** What a call amounts to for the store's tables. */
  ghost function OpOf(call: StoreCall): Op
    reads CallObjects(call)
  {
    match call
    case CallFind(ty, id, options) => FindOp(ty, id, options)
    case CallFindByClientId(ty, c, options) => FindByClientIdOp(ty, c, options)
    case CallMaterializeData(record, options) => MaterializeDataOp(record.modelType, record.clientId, options)
    case CallCreateRecord(ty, properties, _, _, generated) =>
      CreateRecordOp(ty, if properties != null then properties.entries else map[], generated)
    case CallReloadRecord(record, options) => ReloadRecordOp(record.modelType, record.Id(), options)
    case CallDeleteRecord(record, _) => DeleteRecordOp(record.modelType, record.clientId)
    case CallUnloadRecord(record, _) => UnloadRecordOp(record.modelType, record.clientId)
  }

  /**
    Make one call to the store. Whatever it is, the tables move as `Apply`
    says, and every cached record stays cached as the same object, except
    possibly under the next clientId to be handed out.
  */
  method Perform(store: Store, call: StoreCall)
    requires store.Valid()
    modifies store, CallObjects(call)
    ensures store.State() == Apply(old(store.State()), store.adapters, old(OpOf(call)))
    ensures KeepsCachedExcept(old(store.recordCache), store.recordCache, old(store.clientIdCounter) + 1)
    ensures store.Valid()
  {
    match call
    case CallFind(ty, id, options) =>
      var _ := store.Find(ty, id, options);
    case CallFindByClientId(ty, c, options) =>
      var _ := store.FindByClientId(ty, c, options);
    case CallCreateRecord(_, _, _, _, _) =>
      PerformCreateRecord(store, call);
    case _ =>
      PerformOnRecord(store, call);
  }

  /** `Perform` for createRecord. */
  method PerformCreateRecord(store: Store, call: StoreCall)
    requires call.CallCreateRecord?
    requires store.Valid()
    modifies store, CallObjects(call)
    ensures store.State() == Apply(old(store.State()), store.adapters, old(OpOf(call)))
    ensures KeepsCachedExcept(old(store.recordCache), store.recordCache, old(store.clientIdCounter) + 1)
    ensures store.Valid()
  {
    var _ := store.CreateRecord(call.modelType, call.properties, call.transaction, call.options, call.generated);
  }

  /** `Perform` for the calls made with a record. */
  method PerformOnRecord(store: Store, call: StoreCall)
    requires call.CallMaterializeData? || call.CallReloadRecord? || call.CallDeleteRecord? || call.CallUnloadRecord?
    requires store.Valid()
    modifies store, call.record
    ensures store.State() == Apply(old(store.State()), store.adapters, old(OpOf(call)))
    ensures KeepsCachedExcept(old(store.recordCache), store.recordCache, old(store.clientIdCounter) + 1)
    ensures store.Valid()
  {
    match call
    case CallMaterializeData(record, options) =>
      var _ := store.MaterializeData(record, options);
    case CallReloadRecord(record, options) =>
      var _ := store.ReloadRecord(record, options);
    case CallDeleteRecord(record, options) =>
      store.DeleteRecord(record, options);
    case CallUnloadRecord(record, options) =>
      store.UnloadRecord(record, options);
  }

  /**
    `find` always returns the same object for a given type and id: a findById,
    then any call that does not unbind the id (an unloadRecord, or createRecord
    of ""), then a second findById, which
    returns the object of the first and succeeds even if the first threw.
  */
  method FindAcross(store: Store, ty: ModelType, k: Id, o1: JsValue, call: StoreCall, o2: JsValue)
    returns (first: Result<Record, Failure>, second: Result<Record, Failure>)
    requires store.Valid()
    requires !IdentityMapProps.Unbinds(store.adapters, OpOf(call), ty, k)
    modifies store, CallObjects(call)
    ensures second.Ok? && (first.Ok? ==> second.value == first.value)
    ensures store.Valid()
  {
    ghost var c;
    first, c := FindBinding(store, ty, k, o1);
    PerformKeepingBinding(store, call, ty, k, c);
    second := FindBound(store, ty, k, c, o2);
  }

  /** A findById leaves the id bound to a cached clientId, whose record is the one it returns. */
  method FindBinding(store: Store, ty: ModelType, k: Id, options: JsValue)
    returns (res: Result<Record, Failure>, ghost c: ClientId)
    requires store.Valid()
    modifies store
    ensures IdentityMapProps.Bound(store.State(), ty, k, c)
    ensures res.Ok? ==> res.value == store.recordCache[c]
    ensures store.Valid()
  {
    res := store.FindById(ty, Some(k), options);
    IdentityMapProps.FindByIdBinds(old(store.State()), store.adapters, ty, k, options);
    c := TypeMap(store.State(), ty)[k];
  }

  /** A findById of an id bound to a cached clientId returns that very record and changes nothing. */
  method FindBound(store: Store, ty: ModelType, k: Id, ghost c: ClientId, options: JsValue)
    returns (res: Result<Record, Failure>)
    requires store.Valid() && IdentityMapProps.Bound(store.State(), ty, k, c)
    modifies store
    ensures res == Ok(old(store.recordCache[c])) && unchanged(store)
  {
    res := store.FindById(ty, Some(k), options);
  }

  /** A call that does not unbind id `k` leaves it bound to `c`, with the same record object cached. */
  method PerformKeepingBinding(store: Store, call: StoreCall, ghost ty: ModelType, ghost k: Id, ghost c: ClientId)
    requires store.Valid() && IdentityMapProps.Bound(store.State(), ty, k, c)
    requires !IdentityMapProps.Unbinds(store.adapters, OpOf(call), ty, k)
    modifies store, CallObjects(call)
    ensures IdentityMapProps.Bound(store.State(), ty, k, c)
    ensures c in old(store.recordCache) && store.recordCache[c] == old(store.recordCache[c])
    ensures store.Valid()
  {
    ghost var t := store.State();
    ghost var op := OpOf(call);
    Perform(store, call);
    IdentityMapProps.BindingSurvives(t, store.adapters, op, ty, k, c);
  }
}
