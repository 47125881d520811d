/**
  What the store's operations promise about its tables: same record for the
  same type and id, which calls happen on a hit and which on a miss, the slot
  transitions of materialization and creation, and where a generated id goes.
*/
module IdentityMapProps {
  import opened Wrappers
  import opened Js
  import opened IdentityMap

  /** The calls an operation made, given the tables before and after it. */
  function NewCalls(before: Tables, after: Tables): seq<Event>
    requires before.log <= after.log
  {
    after.log[|before.log|..]
  }

  /** The calls appended to a log are the new calls. */
  lemma NewCallsAppended(t: Tables, u: Tables, calls: seq<Event>)
    requires u.log == t.log + calls
    ensures t.log <= u.log && NewCalls(t, u) == calls
  {
  }

  /** No identity map points at clientId `c`. */
  ghost predicate Unmapped(t: Tables, c: ClientId) {
    forall ty, k | ty in t.idToCid && k in t.idToCid[ty] :: t.idToCid[ty][k] != c
  }

  /** The tables other than the record cache and the call log are as in `t`. */
  ghost predicate SameIdentity(t: Tables, u: Tables) {
    u.idToCid == t.idToCid && u.clientIdToData == t.clientIdToData && u.clientIdToId == t.clientIdToId
    && u.clientIdToType == t.clientIdToType && u.prematerialized == t.prematerialized && u.counter == t.counter
  }

  // ----------------------------------------------------------------------
  // pushData and the identity invariant
  // ----------------------------------------------------------------------

  /**
    The clientId pushData hands out is new to every table that records ids, it
    is bound to the id (when there is one), and the invariant survives.
  */
  lemma PushDataFresh(t: Tables, data: Slot, id: Option<Id>, ty: ModelType)
    requires Inv(t)
    ensures var u, c := PushData(t, data, id, ty), NextClientId(t);
      c == t.counter + 1 == u.counter
      && c !in t.clientIdToId && Unmapped(t, c)
      && u.clientIdToData == t.clientIdToData[c := data]
      && u.cached == t.cached && u.log == t.log && u.prematerialized == t.prematerialized
      && (id.Some? ==> TypeMap(u, ty) == TypeMap(t, ty)[id.value := c])
      && (id.Some? ==> forall ty' | ty' != ty :: TypeMap(u, ty') == TypeMap(t, ty'))
      && (id.None? ==> u.idToCid == t.idToCid)
      && Inv(u)
  {
    PushDataKeepsInv(t, data, id, ty);
  }

  /** pushData keeps the invariant, and the clientId it hands out records no id yet. */
  lemma PushDataKeepsInv(t: Tables, data: Slot, id: Option<Id>, ty: ModelType)
    requires Inv(t)
    ensures NextClientId(t) !in t.clientIdToId && Inv(PushData(t, data, id, ty))
  {
    var u, c := PushData(t, data, id, ty), NextClientId(t);
    forall ty', k | ty' in u.idToCid && k in u.idToCid[ty']
      ensures var d := u.idToCid[ty'][k];
        0 < d <= u.counter && d in u.clientIdToId && u.clientIdToId[d] == k
        && d in u.clientIdToType && u.clientIdToType[d] == ty'
    {
      if id.Some? && ty' == ty && k == id.value {
        assert u.idToCid[ty'][k] == c;
      } else {
        assert ty' in t.idToCid && k in t.idToCid[ty'] && u.idToCid[ty'][k] == t.idToCid[ty'][k];
      }
    }
  }

  /** The invariant is about the identity tables only: caching records and logging calls keep it. */
  lemma InvIgnoresCacheAndLog(t: Tables, u: Tables)
    requires Inv(t)
    requires u.idToCid == t.idToCid && u.clientIdToId == t.clientIdToId
    requires u.clientIdToType == t.clientIdToType && u.counter == t.counter
    ensures Inv(u)
  {
  }

  /** Two different (type, id) pairs never share a clientId, hence never a record. */
  lemma DistinctIdsDistinctClientIds(t: Tables, ty1: ModelType, k1: string, ty2: ModelType, k2: string)
    requires Inv(t)
    requires k1 in TypeMap(t, ty1) && k2 in TypeMap(t, ty2)
    requires ty1 != ty2 || k1 != k2
    ensures TypeMap(t, ty1)[k1] != TypeMap(t, ty2)[k2]
  {
  }

  /** `find(T, 1)` and `find(T, 2)` never yield the same record. */
  lemma DistinctNumericIdsDistinctRecords(t: Tables, ty: ModelType, a: SafeInt, b: SafeInt)
    requires Inv(t)
    requires a != b
    requires IntToDecimal(a) in TypeMap(t, ty) && IntToDecimal(b) in TypeMap(t, ty)
    ensures FindRoute(Number(a)) == ToFindById(Some(IntToDecimal(a)))
    ensures FindRoute(Number(b)) == ToFindById(Some(IntToDecimal(b)))
    ensures TypeMap(t, ty)[IntToDecimal(a)] != TypeMap(t, ty)[IntToDecimal(b)]
  {
    if IntToDecimal(a) == IntToDecimal(b) {
      CoerceIdNumbersInjective(a, b);
    }
  }

  // ----------------------------------------------------------------------
  // findByClientId
  // ----------------------------------------------------------------------

  /** A slot holds an object exactly when it holds a sentinel other than LOADING, or an object payload. */
  lemma SlotHoldsObject(s: Slot)
    ensures SlotTypeOf(s) == "object" <==>
      s != Loading && (s.Data? ==> s.payload.Obj? || s.payload.Arr? || s.payload.Null?)
  {
  }

  /**
    A cached clientId changes nothing. Otherwise a record is built with the
    clientId's id and cached, and it is told `loadedData` exactly when the slot
    holds an object; nothing else changes.
  */
  lemma FindByClientIdEffect(t: Tables, ty: ModelType, c: ClientId, options: JsValue)
    ensures var u := FindByClientId(t, ty, c, options);
      SameIdentity(t, u) && t.log <= u.log && (Inv(t) ==> Inv(u))
      && (c in t.cached ==> u == t)
      && (c !in t.cached ==>
            var id := if c in t.clientIdToId then Str(t.clientIdToId[c]) else Undefined;
            var loaded := c in t.clientIdToData && SlotTypeOf(t.clientIdToData[c]) == "object";
            u.cached == t.cached + {c}
            && NewCalls(t, u) == [RecordBuilt(c, ty, id, options)] + (if loaded then [RecordLoadedData(c)] else []))
  {
    if c !in t.cached {
      var u := FindByClientId(t, ty, c, options);
      var id := if c in t.clientIdToId then Str(t.clientIdToId[c]) else Undefined;
      var loaded := c in t.clientIdToData && SlotTypeOf(t.clientIdToData[c]) == "object";
      NewCallsAppended(t, u, [RecordBuilt(c, ty, id, options)] + (if loaded then [RecordLoadedData(c)] else []));
    }
  }

  // ----------------------------------------------------------------------
  // findById
  // ----------------------------------------------------------------------

  /**
    A known id: the result is its clientId, no clientId is handed out, no slot
    and no identity map changes, and the adapter is not asked. A record already
    cached for it makes the call change nothing at all.
  */
  lemma FindByIdHit(t: Tables, adapters: map<ModelType, Adapter>, ty: ModelType, id: Option<Id>, options: JsValue)
    requires Inv(t)
    requires IdKey(id) in TypeMap(t, ty)
    ensures var c := TypeMap(t, ty)[IdKey(id)];
      var f := FindById(t, adapters, ty, id, options);
      f.result == Ok(c)
      && SameIdentity(t, f.tables) && t.log <= f.tables.log && Inv(f.tables)
      && c in f.tables.cached
      && (forall e | e in NewCalls(t, f.tables) :: !e.AdapterFind?)
      && (c in t.cached ==> f.tables == t)
  {
    var c := TypeMap(t, ty)[IdKey(id)];
    assert c != 0;
    FindByClientIdEffect(t, ty, c, Undefined);
  }

  /**
    On a hit whose record is not cached yet, the record is built without the
    options `findById` was given: `findByClientId` is called without them.
  */
  lemma FindByIdHitDropsOptions(t: Tables, adapters: map<ModelType, Adapter>, ty: ModelType, k: Id, options: JsValue)
    requires Inv(t)
    requires k in TypeMap(t, ty) && TypeMap(t, ty)[k] !in t.cached
    ensures var c := TypeMap(t, ty)[k];
      var f := FindById(t, adapters, ty, Some(k), options);
      t.log <= f.tables.log && NewCalls(t, f.tables)[0] == RecordBuilt(c, ty, Str(k), Undefined)
  {
    var c := TypeMap(t, ty)[k];
    assert c != 0;
    FindByClientIdEffect(t, ty, c, Undefined);
  }

  /**
    The unknown-id branch allocates: a new clientId is handed out in the
    LOADING state, bound to the id (when there is one) in this type's map only,
    and its record is cached; the invariant survives.
  */
  lemma LoadByIdAllocates(t: Tables, adapters: map<ModelType, Adapter>, ty: ModelType, id: Option<Id>, options: JsValue)
    requires Inv(t)
    ensures var c := t.counter + 1;
      var f := LoadById(t, adapters, ty, id, options);
      f.tables.counter == c && c !in t.clientIdToId && Unmapped(t, c)
      && f.tables.clientIdToData == t.clientIdToData[c := Loading]
      && f.tables.cached == t.cached + {c}
      && (id.Some? ==> TypeMap(f.tables, ty) == TypeMap(t, ty)[id.value := c])
      && (id.None? ==> f.tables.idToCid == t.idToCid)
      && (forall ty' | ty' != ty :: TypeMap(f.tables, ty') == TypeMap(t, ty'))
      && Inv(f.tables)
  {
    var u := PushData(t, Loading, id, ty);
    PushDataFresh(t, Loading, id, ty);
    var f := LoadById(t, adapters, ty, id, options);
    assert f.tables.(cached := u.cached, log := u.log) == u;
    InvIgnoresCacheAndLog(u, f.tables);
  }

  /**
    The unknown-id branch builds the record and calls `adapter.find` exactly
    once with the type, the id and the options. Without an adapter, or with
    one lacking `find`, it throws after the allocation and nothing is fetched.
  */
  lemma LoadByIdCalls(t: Tables, adapters: map<ModelType, Adapter>, ty: ModelType, id: Option<Id>, options: JsValue)
    ensures var c := t.counter + 1;
      var f := LoadById(t, adapters, ty, id, options);
      var fetches := ty in adapters && adapters[ty].implementsFind;
      f.result == (if ty !in adapters then Err(NoAdapter) else if !fetches then Err(AdapterLacksFind) else Ok(c))
      && f.tables.log == t.log + [RecordBuilt(c, ty, IdValue(id), options)]
                               + (if fetches then [AdapterFind(ty, IdValue(id), options)] else [])
  {
  }

  /** An unknown id goes to the unknown-id branch, with all its effects. */
  lemma FindByIdMiss(t: Tables, adapters: map<ModelType, Adapter>, ty: ModelType, id: Option<Id>, options: JsValue)
    requires Inv(t)
    requires IdKey(id) !in TypeMap(t, ty)
    ensures FindById(t, adapters, ty, id, options) == LoadById(t, adapters, ty, id, options)
  {
  }

  /** findById keeps the identity invariant. */
  lemma FindByIdKeepsInv(t: Tables, adapters: map<ModelType, Adapter>, ty: ModelType, id: Option<Id>, options: JsValue)
    requires Inv(t)
    ensures Inv(FindById(t, adapters, ty, id, options).tables)
  {
    if IdKey(id) in TypeMap(t, ty) {
      FindByIdHit(t, adapters, ty, id, options);
    } else {
      FindByIdMiss(t, adapters, ty, id, options);
      LoadByIdAllocates(t, adapters, ty, id, options);
    }
  }

  /**
    After a findById of (type, id), even one that threw, the id is bound to a
    handed-out clientId whose record is cached, and a result names that clientId.
  */
  lemma FindByIdBinds(t: Tables, adapters: map<ModelType, Adapter>, ty: ModelType, k: Id, options: JsValue)
    requires Inv(t)
    ensures var f := FindById(t, adapters, ty, Some(k), options);
      Inv(f.tables) && k in TypeMap(f.tables, ty)
      && var c := TypeMap(f.tables, ty)[k];
      Bound(f.tables, ty, k, c) && c <= f.tables.counter
      && (f.result.Ok? ==> f.result == Ok(c))
      && (k in TypeMap(t, ty) ==> c == TypeMap(t, ty)[k])
  {
    if k in TypeMap(t, ty) {
      FindByIdHit(t, adapters, ty, Some(k), options);
    } else {
      FindByIdMiss(t, adapters, ty, Some(k), options);
      LoadByIdAllocates(t, adapters, ty, Some(k), options);
    }
  }

  /**
    The same type and id give the same record: after a first `findById` (even
    one that threw for want of an adapter) a second one returns the same
    clientId and changes nothing, so no second fetch happens.
  */
  lemma FindByIdRepeat(t: Tables, adapters: map<ModelType, Adapter>, ty: ModelType, k: Id, o1: JsValue, o2: JsValue)
    requires Inv(t)
    ensures var f1 := FindById(t, adapters, ty, Some(k), o1);
      var c := if k in TypeMap(t, ty) then TypeMap(t, ty)[k] else t.counter + 1;
      k in TypeMap(f1.tables, ty) && TypeMap(f1.tables, ty)[k] == c && c in f1.tables.cached
      && (f1.result.Ok? ==> f1.result == Ok(c))
      && FindById(f1.tables, adapters, ty, Some(k), o2) == Found(f1.tables, Ok(c))
  {
    var f1 := FindById(t, adapters, ty, Some(k), o1);
    if k in TypeMap(t, ty) {
      FindByIdHit(t, adapters, ty, Some(k), o1);
      FindByIdHit(f1.tables, adapters, ty, Some(k), o2);
    } else {
      FindByIdMiss(t, adapters, ty, Some(k), o1);
      LoadByIdAllocates(t, adapters, ty, Some(k), o1);
      FindByIdHit(f1.tables, adapters, ty, Some(k), o2);
    }
  }

  /**
    `find(T, 1)` and `find(T, "1")` reach `findById` with the same id, so the
    second returns the record of the first and asks the adapter nothing. This
    holds for every string `s` that spells the number `n`.
  */
  lemma NumberAndStringIdsFindSameRecord(t: Tables, adapters: map<ModelType, Adapter>, ty: ModelType,
                                         n: SafeInt, s: string, o1: JsValue, o2: JsValue)
    requires Inv(t)
    requires IsIntegerSpelling(s) && SpelledValue(s) == n
    ensures FindRoute(Number(n)) == FindRoute(Str(s)) == ToFindById(Some(s))
    ensures var f1 := FindById(t, adapters, ty, FindRoute(Number(n)).id, o1);
      var f2 := FindById(f1.tables, adapters, ty, FindRoute(Str(s)).id, o2);
      f2.tables == f1.tables && f2.result.Ok?
      && (f1.result.Ok? ==> f2.result == f1.result)
  {
    CoerceIdNumberAsString(n, s);
    FindByIdRepeat(t, adapters, ty, s, o1, o2);
    if s !in TypeMap(t, ty) {
      FindByIdMiss(t, adapters, ty, Some(s), o1);
      LoadByIdAllocates(t, adapters, ty, Some(s), o1);
    }
  }

  /**
    `find(T, null)` is sent to findById with a null id, which pushData does not
    bind: unless some record has the id "null", every such call hands out a new
    clientId and fetches again.
  */
  lemma FindByNullIdNeverHits(t: Tables, adapters: map<ModelType, Adapter>, ty: ModelType, o1: JsValue, o2: JsValue)
    requires Inv(t)
    requires "null" !in TypeMap(t, ty)
    requires ty in adapters && adapters[ty].implementsFind
    ensures FindRoute(Null) == ToFindById(None)
    ensures var f1 := FindById(t, adapters, ty, None, o1);
      var f2 := FindById(f1.tables, adapters, ty, None, o2);
      f1.result == Ok(t.counter + 1) && f2.result == Ok(t.counter + 2)
      && f2.tables.log == t.log + [RecordBuilt(t.counter + 1, ty, Null, o1), AdapterFind(ty, Null, o1),
                                   RecordBuilt(t.counter + 2, ty, Null, o2), AdapterFind(ty, Null, o2)]
  {
    FindByIdMiss(t, adapters, ty, None, o1);
    LoadByIdAllocates(t, adapters, ty, None, o1);
    LoadByIdCalls(t, adapters, ty, None, o1);
    var f1 := FindById(t, adapters, ty, None, o1);
    FindByIdMiss(f1.tables, adapters, ty, None, o2);
    LoadByIdAllocates(f1.tables, adapters, ty, None, o2);
    LoadByIdCalls(f1.tables, adapters, ty, None, o2);
  }

  // ----------------------------------------------------------------------
  // materializeData
  // ----------------------------------------------------------------------

  /**
    Afterwards the slot is MATERIALIZED and nothing else in the tables changed.
    `adapter.materialize` is called, with the old slot content and the
    prematerialized data, if and only if the old slot was not CREATED and the
    type has an adapter; a slot that was not CREATED and has no adapter throws.
  */
  lemma MaterializeDataEffect(t: Tables, adapters: map<ModelType, Adapter>, ty: ModelType, c: ClientId, options: JsValue)
    ensures var s := MaterializeData(t, adapters, ty, c, options);
      var data := if c in t.clientIdToData then Some(t.clientIdToData[c]) else None;
      var pre := if c in t.prematerialized then t.prematerialized[c] else Undefined;
      s.tables.clientIdToData == t.clientIdToData[c := Materialized]
      && s.tables.(clientIdToData := t.clientIdToData, log := t.log) == t
      && t.log <= s.tables.log && NewCalls(t, s.tables)[0] == RecordSetupData(c)
      && (AdapterMaterialize(c, data, pre, options) in NewCalls(t, s.tables) <==> data != Some(Created) && ty in adapters)
      && (forall e | e in NewCalls(t, s.tables) :: e in [RecordSetupData(c), AdapterMaterialize(c, data, pre, options)])
      && (s.outcome.Fail? <==> data != Some(Created) && ty !in adapters)
      && (Inv(t) ==> Inv(s.tables))
  {
    var s := MaterializeData(t, adapters, ty, c, options);
    var data := if c in t.clientIdToData then Some(t.clientIdToData[c]) else None;
    var pre := if c in t.prematerialized then t.prematerialized[c] else Undefined;
    var calls := [RecordSetupData(c)] + (if data != Some(Created) && ty in adapters then [AdapterMaterialize(c, data, pre, options)] else []);
    assert s.tables.log == t.log + calls;
    assert NewCalls(t, s.tables) == calls;
  }

  /**
    Only CREATED is skipped: materializing the same clientId a second time hands
    the MATERIALIZED sentinel itself to the adapter.
  */
  lemma MaterializeTwiceReinvokesAdapter(t: Tables, adapters: map<ModelType, Adapter>, ty: ModelType, c: ClientId, o1: JsValue, o2: JsValue)
    requires ty in adapters
    ensures var s1 := MaterializeData(t, adapters, ty, c, o1);
      var s2 := MaterializeData(s1.tables, adapters, ty, c, o2);
      var pre := if c in t.prematerialized then t.prematerialized[c] else Undefined;
      s2.outcome == Pass && s2.tables.clientIdToData == s1.tables.clientIdToData
      && s2.tables.log == s1.tables.log + [RecordSetupData(c), AdapterMaterialize(c, Some(Materialized), pre, o2)]
  {
  }

  // ----------------------------------------------------------------------
  // createRecord
  // ----------------------------------------------------------------------

  /**
    The generator is asked only when the properties carry no id and the adapter
    generates ids. Its coerced id goes to `localId` for a bridge adapter and to
    `id` otherwise: one property is written, never both, and a bridge leaves the
    record without an id.
  */
  lemma GeneratedIdPlacement(properties: map<string, JsValue>, adapter: Option<Adapter>, generated: JsValue)
    ensures var r := ChooseId(properties, adapter, generated);
      var given := if "id" in properties then properties["id"] else Undefined;
      (r.generated <==> IsNone(given) && adapter.Some? && adapter.value.generatesIds)
      && (!r.generated ==> r.properties == properties && r.id == given)
      && (r.generated ==> r.id == IdValue(CoerceId(generated)))
      && (r.generated && adapter.value.bridge ==>
            r.properties == properties["localId" := r.id]
            && ("id" in r.properties ==> IsNone(r.properties["id"])))
      && (r.generated && !adapter.value.bridge ==>
            r.properties == properties["id" := r.id]
            && ("localId" in r.properties <==> "localId" in properties)
            && ("localId" in properties ==> r.properties["localId"] == properties["localId"]))
  {
  }

  /**
    createRecord hands out a new clientId in the CREATED state, bound to the
    coerced id when there is one, caches the record, and calls the generator (if
    it did), `loadedData` and `setupData`. When pushData's assert refuses the id
    only the generator call has happened.
  */
  lemma CreateRecordEffect(t: Tables, adapters: map<ModelType, Adapter>, ty: ModelType,
                           properties: map<string, JsValue>, generated: JsValue)
    requires Inv(t)
    ensures var n := CreateRecord(t, adapters, ty, properties, generated);
      var c := t.counter + 1;
      var id := CoerceId(n.choice.id);
      var asked := if n.choice.generated then [AdapterGenerateId(ty)] else [];
      (n.result.Err? ==> n.tables == t.(log := t.log + asked))
      && (n.result.Ok? ==>
            n.result.value == c == n.tables.counter && c !in t.clientIdToId && Unmapped(t, c)
            && n.tables.clientIdToData == t.clientIdToData[c := Created]
            && n.tables.cached == t.cached + {c}
            && (id.Some? ==> TypeMap(n.tables, ty) == TypeMap(t, ty)[id.value := c])
            && (id.None? ==> n.tables.idToCid == t.idToCid)
            && n.tables.log == t.log + asked + [RecordLoadedData(c), RecordSetupData(c)])
  {
    var n := CreateRecord(t, adapters, ty, properties, generated);
    var choice := ChooseId(properties, AdapterFor(adapters, ty), generated);
    var t0 := if choice.generated then Append(t, [AdapterGenerateId(ty)]) else t;
    var id := CoerceId(choice.id);
    InvIgnoresCacheAndLog(t, t0);
    if !IdInUse(TypeMap(t0, ty), id) {
      CreatedAllocates(t0, ty, id);
      assert n.tables == CacheCreated(PushData(t0, Created, id, ty), NextClientId(t0));
    }
  }

  /** createRecord keeps the invariant and never touches another type's identity map. */
  lemma CreateRecordKeepsInv(t: Tables, adapters: map<ModelType, Adapter>, ty: ModelType,
                             properties: map<string, JsValue>, generated: JsValue)
    requires Inv(t)
    ensures var n := CreateRecord(t, adapters, ty, properties, generated);
      Inv(n.tables) && forall ty' | ty' != ty :: TypeMap(n.tables, ty') == TypeMap(t, ty')
  {
    var n := CreateRecord(t, adapters, ty, properties, generated);
    var choice := ChooseId(properties, AdapterFor(adapters, ty), generated);
    var t0 := if choice.generated then Append(t, [AdapterGenerateId(ty)]) else t;
    var id := CoerceId(choice.id);
    InvIgnoresCacheAndLog(t, t0);
    if IdInUse(TypeMap(t0, ty), id) {
      assert n.tables == t0;
    } else {
      CreatedAllocates(t0, ty, id);
      assert n.tables == CacheCreated(PushData(t0, Created, id, ty), NextClientId(t0));
    }
  }

  /** The allocation step of createRecord, from the tables after the generator call. */
  lemma CreatedAllocates(t0: Tables, ty: ModelType, id: Option<Id>)
    requires Inv(t0)
    ensures var c := t0.counter + 1;
      var v := CacheCreated(PushData(t0, Created, id, ty), c);
      v.counter == c && c !in t0.clientIdToId && Unmapped(t0, c)
      && v.clientIdToData == t0.clientIdToData[c := Created]
      && v.cached == t0.cached + {c}
      && (id.Some? ==> TypeMap(v, ty) == TypeMap(t0, ty)[id.value := c])
      && (id.None? ==> v.idToCid == t0.idToCid)
      && (forall ty' | ty' != ty :: TypeMap(v, ty') == TypeMap(t0, ty'))
      && v.log == t0.log + [RecordLoadedData(c), RecordSetupData(c)]
      && Inv(v)
  {
    var u := PushData(t0, Created, id, ty);
    PushDataFresh(t0, Created, id, ty);
    InvIgnoresCacheAndLog(u, CacheCreated(u, t0.counter + 1));
  }

  /**
    An id the type already uses (any but the falsy "") makes createRecord
    throw in pushData's assert: nothing is allocated, nothing cached, nothing
    rebound.
  */
  lemma CreateRecordRefusesUsedId(t: Tables, adapters: map<ModelType, Adapter>, ty: ModelType,
                                  properties: map<string, JsValue>, generated: JsValue)
    requires Inv(t)
    requires "id" in properties && CoerceId(properties["id"]).Some?
    requires CoerceId(properties["id"]).value != "" && CoerceId(properties["id"]).value in TypeMap(t, ty)
    ensures CreateRecord(t, adapters, ty, properties, generated) == NewRecord(t, Err(IdAlreadyUsed), IdChoice(properties, properties["id"], false))
  {
  }

  /**
    The empty string passes pushData's assert even when the type already uses
    it, so createRecord with the id "" moves that id to the new record.
  */
  lemma CreateRecordRebindsEmptyId(t: Tables, adapters: map<ModelType, Adapter>, ty: ModelType,
                                   properties: map<string, JsValue>, generated: JsValue, options: JsValue)
    requires Inv(t)
    requires "id" in properties && CoerceId(properties["id"]) == Some("") && "" in TypeMap(t, ty)
    ensures var n := CreateRecord(t, adapters, ty, properties, generated);
      n.result == Ok(t.counter + 1) && TypeMap(t, ty)[""] != t.counter + 1
      && FindById(n.tables, adapters, ty, Some(""), options) == Found(n.tables, Ok(t.counter + 1))
  {
    CreateRecordEffect(t, adapters, ty, properties, generated);
    CreateRecordKeepsInv(t, adapters, ty, properties, generated);
    var n := CreateRecord(t, adapters, ty, properties, generated);
    FindByIdHit(n.tables, adapters, ty, Some(""), options);
  }

  /**
    With a bridge adapter the generated id is kept out of the record's `id`, yet
    pushData still binds it: finding that id returns the created record.
  */
  lemma BridgeRecordFoundByGeneratedId(t: Tables, adapters: map<ModelType, Adapter>, ty: ModelType,
                                       properties: map<string, JsValue>, generated: JsValue, options: JsValue)
    requires Inv(t)
    requires ty in adapters && adapters[ty].generatesIds && adapters[ty].bridge
    requires "id" !in properties && !IsNone(generated)
    ensures var n := CreateRecord(t, adapters, ty, properties, generated);
      var g := CoerceId(generated).value;
      "id" !in n.choice.properties && n.choice.properties["localId"] == Str(g)
      && (n.result.Ok? ==> FindById(n.tables, adapters, ty, Some(g), options) == Found(n.tables, n.result))
  {
    CreateRecordKeepsInv(t, adapters, ty, properties, generated);
    var n := CreateRecord(t, adapters, ty, properties, generated);
    if n.result.Ok? {
      FindByIdHit(n.tables, adapters, ty, Some(CoerceId(generated).value), options);
    }
  }

  /** A created record is materialized without the adapter, even if it has none. */
  lemma CreatedRecordMaterializesWithoutAdapter(t: Tables, adapters: map<ModelType, Adapter>, ty: ModelType,
                                                properties: map<string, JsValue>, generated: JsValue, options: JsValue)
    ensures var n := CreateRecord(t, adapters, ty, properties, generated);
      n.result.Ok? ==>
        var s := MaterializeData(n.tables, adapters, ty, n.result.value, options);
        s.outcome == Pass && s.tables.clientIdToData[n.result.value] == Materialized
        && s.tables.log == n.tables.log + [RecordSetupData(n.result.value)]
  {
  }

  // ----------------------------------------------------------------------
  // reloadRecord
  // ----------------------------------------------------------------------

  /**
    reloadRecord fetches exactly when the record's id is truthy and the type has
    an adapter implementing `find`; it never touches the tables otherwise, and
    never allocates.
  */
  lemma ReloadRecordGuard(t: Tables, adapters: map<ModelType, Adapter>, ty: ModelType, id: JsValue, options: JsValue)
    ensures var s := ReloadRecord(t, adapters, ty, id, options);
      (s.outcome == Pass <==> Truthy(id) && ty in adapters && adapters[ty].implementsFind)
      && (s.outcome == Pass ==> s.tables == t.(log := t.log + [AdapterFind(ty, id, options)]))
      && (s.outcome.Fail? ==> s.tables == t)
      && (!Truthy(id) ==> s.outcome == Fail(RecordHasNoId))
  {
  }

  // ----------------------------------------------------------------------
  // The same object for a given type and id, across other calls
  // ----------------------------------------------------------------------

  /** Id `k` of type `ty` is bound to clientId `c`, and a record is cached for it. */
  ghost predicate Bound(t: Tables, ty: ModelType, k: Id, c: ClientId) {
    k in TypeMap(t, ty) && TypeMap(t, ty)[k] == c && c in t.cached
  }

  /**
    The calls after which id `k` may no longer lead to the record it led to.
    One is createRecord of the type with the id "", which is falsy and so
    passes pushData's assert and moves the id to a new clientId. The other is
    unloadRecord: the record's own unload calls back into the store, which
    drops the record from its cache and identity map. That callback is outside
    store.js and not modelled, so the results below exclude every unload.
  */
  predicate Unbinds(adapters: map<ModelType, Adapter>, op: Op, ty: ModelType, k: Id) {
    || op.UnloadRecordOp?
    || (op.CreateRecordOp? && op.modelType == ty && k == ""
        && CoerceId(ChooseId(op.properties, AdapterFor(adapters, ty), op.generated).id) == Some(""))
  }

  /** A findById, of any type and id, keeps every binding and its cached record. */
  lemma FindByIdKeepsBinding(t: Tables, adapters: map<ModelType, Adapter>, ty': ModelType, i: Option<Id>,
                             options: JsValue, ty: ModelType, k: Id, c: ClientId)
    requires Inv(t) && Bound(t, ty, k, c)
    ensures var f := FindById(t, adapters, ty', i, options);
      Inv(f.tables) && Bound(f.tables, ty, k, c)
  {
    if IdKey(i) in TypeMap(t, ty') {
      FindByIdHit(t, adapters, ty', i, options);
    } else {
      FindByIdMiss(t, adapters, ty', i, options);
      LoadByIdAllocates(t, adapters, ty', i, options);
    }
  }

  /** A createRecord that does not unbind `k` keeps its binding and its cached record. */
  lemma CreateRecordKeepsBinding(t: Tables, adapters: map<ModelType, Adapter>, ty': ModelType,
                                 properties: map<string, JsValue>, generated: JsValue,
                                 ty: ModelType, k: Id, c: ClientId)
    requires Inv(t) && Bound(t, ty, k, c)
    requires !Unbinds(adapters, CreateRecordOp(ty', properties, generated), ty, k)
    ensures var n := CreateRecord(t, adapters, ty', properties, generated);
      Inv(n.tables) && Bound(n.tables, ty, k, c)
  {
    CreateRecordEffect(t, adapters, ty', properties, generated);
    CreateRecordKeepsInv(t, adapters, ty', properties, generated);
  }

  /** Every call but one that unbinds the id keeps its binding and its cached record, and the invariant. */
  lemma BindingSurvives(t: Tables, adapters: map<ModelType, Adapter>, op: Op, ty: ModelType, k: Id, c: ClientId)
    requires Inv(t) && Bound(t, ty, k, c)
    requires !Unbinds(adapters, op, ty, k)
    ensures Inv(Apply(t, adapters, op)) && Bound(Apply(t, adapters, op), ty, k, c)
  {
    match op
    case FindOp(ty', id, options) =>
      if FindRoute(id).ToFindById? {
        FindByIdKeepsBinding(t, adapters, ty', FindRoute(id).id, options, ty, k, c);
      }
    case FindByClientIdOp(ty', c', options) =>
      FindByClientIdEffect(t, ty', c', options);
    case MaterializeDataOp(ty', c', options) =>
      MaterializeDataEffect(t, adapters, ty', c', options);
    case CreateRecordOp(ty', properties, generated) =>
      CreateRecordKeepsBinding(t, adapters, ty', properties, generated, ty, k, c);
    case ReloadRecordOp(_, _, _) =>
    case DeleteRecordOp(_, _) =>
  }

  /** The same holds for any sequence of such calls. */
  lemma {:induction false} BindingSurvivesAll(t: Tables, adapters: map<ModelType, Adapter>, ops: seq<Op>,
                                               ty: ModelType, k: Id, c: ClientId)
    requires Inv(t) && Bound(t, ty, k, c)
    requires forall i | 0 <= i < |ops| :: !Unbinds(adapters, ops[i], ty, k)
    ensures Inv(ApplyAll(t, adapters, ops)) && Bound(ApplyAll(t, adapters, ops), ty, k, c)
    decreases |ops|
  {
    if ops != [] {
      BindingSurvives(t, adapters, ops[0], ty, k, c);
      assert forall i | 0 <= i < |ops[1..]| :: ops[1..][i] == ops[i + 1];
      BindingSurvivesAll(Apply(t, adapters, ops[0]), adapters, ops[1..], ty, k, c);
    }
  }

  /**
    `find` always returns the same object for a given type and id: once a
    findById of (type, id) has run, whatever calls follow (short of one that
    unbinds the id), another findById returns the same clientId, changes
    nothing and asks the adapter nothing.
  */
  lemma FindByIdStable(t: Tables, adapters: map<ModelType, Adapter>, ty: ModelType, k: Id,
                       o1: JsValue, ops: seq<Op>, o2: JsValue)
    requires Inv(t)
    requires forall i | 0 <= i < |ops| :: !Unbinds(adapters, ops[i], ty, k)
    ensures var f1 := FindById(t, adapters, ty, Some(k), o1);
      var u := ApplyAll(f1.tables, adapters, ops);
      k in TypeMap(f1.tables, ty)
      && (f1.result.Ok? ==> f1.result == Ok(TypeMap(f1.tables, ty)[k]))
      && FindById(u, adapters, ty, Some(k), o2) == Found(u, Ok(TypeMap(f1.tables, ty)[k]))
  {
    var f1 := FindById(t, adapters, ty, Some(k), o1);
    FindByIdRepeat(t, adapters, ty, k, o1, o1);
    FindByIdKeepsInv(t, adapters, ty, Some(k), o1);
    var c := TypeMap(f1.tables, ty)[k];
    BindingSurvivesAll(f1.tables, adapters, ops, ty, k, c);
    FindByIdHit(ApplyAll(f1.tables, adapters, ops), adapters, ty, Some(k), o2);
  }
}
