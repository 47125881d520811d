# Store identity map, in Dafny

This project models the Store extension of an Ember Data application
(`vendor/assets/javascripts/store.js`). The store keeps an identity map from
(model type, id) to a store-local `clientId`. It also keeps a data slot per
clientId, which holds one of the sentinels CREATED, LOADING or MATERIALIZED or
opaque adapter data, plus a cache of record objects by clientId. The modelled
operations are `find`, `findById`, `findByClientId`, `materializeData`,
`createRecord` (including the bridge adapter that puts a generated id in
`localId`), `reloadRecord`, and `deleteRecord`/`unloadRecord`, which only
forward to the record.

The project has five modules:

- `Wrappers` (`wrappers.dfy`): Option, Result and Outcome.
- `Js` (`js.dfy`): the JavaScript values the store handles, plus `typeof`,
  `Ember.typeOf`, `Ember.isNone`, truthiness and `coerceId`.
- `IdentityMap` (`identity_map.dfy`): the store's tables as one value, and
  each operation as a function on it. A call the store makes to an adapter or a
  record (`adapter.find`, `adapter.materialize`, `generateIdForRecord`,
  `loadedData`, `setupData`, `materializeRecord`) is appended to a log, so a
  property can say exactly which calls happen.
- `IdentityMapProps` (`identity_map_props.dfy`): what the operations promise,
  proved about those functions.
- `DataStore` (`data_store.dfy`): the store as a class whose fields are the
  tables and whose methods update them in place. Each method is proved to move
  the tables as the matching `IdentityMap` function does, and to keep the
  identity invariant: every identity-map entry points at a handed-out clientId
  that records that id and that type, and every cached record is bound to its
  own clientId.

A failed `Ember.assert`, or a call on a missing adapter, is modelled as an error
result. Any allocation made before the throw is kept, as in the code. This
includes the assert that opens `pushData`: `createRecord` with an id the type
already uses fails there and leaves the tables as they were, apart from a
generator call already made. The empty string is falsy, so the assert lets the
id "" through, and such a `createRecord` moves "" to the new clientId.

The promise that `find` always returns the same object for a given type and id
is proved across calls. After one `findById` of (type, id), the id is bound to a
cached clientId. Two kinds of call can break that binding. One is a
`createRecord` of the type that rebinds the id "". The other is an
`unloadRecord`: the record's own unload calls back into the store, which drops
the record from its cache and identity map. That callback is outside store.js
and is not modelled, so the results exclude every unload. Every other call keeps
the binding, so a later `findById` returns the same clientId, and in the class
the same record object.

Behaviour of the code worth noting, which the model follows:

- Only the CREATED sentinel skips `adapter.materialize`. Materializing a clientId
  a second time hands MATERIALIZED itself to the adapter.
- On a hit, `findById` calls `findByClientId` without the options it was given.
- A bridge adapter's generated id stays out of the record's `id`, but `pushData`
  still indexes it.
- `find(T, null)` reaches `findById` with a null id, which is looked up under the
  property name "null" and never bound.

## Model

| member | source | states |
|---|---|---|
| Js.EmberTypeOf | vendor/assets/javascripts/store.js:253 | `Ember.typeOf`: "object" only for a plain hash; null is "null" and an array is "array" |
| Js.TypeOf | vendor/assets/javascripts/store.js:355 | the `typeof` operator: "object" for null, hashes and arrays alike |
| Js.IsNone | vendor/assets/javascripts/store.js:112 | `Ember.isNone`: exactly undefined and null |
| Js.Truthy | vendor/assets/javascripts/store.js:279 | JavaScript truthiness: undefined, null, false, 0 and "" are falsy, every other value is truthy |
| Js.NatToDecimal | vendor/assets/javascripts/store.js:257 | a natural number is spelled as a canonical decimal (digits only, no leading zero) whose value, read most significant digit first, is the number |
| Js.IntToDecimal | vendor/assets/javascripts/store.js:257 | an integer is spelled as a canonical decimal of its magnitude, with a minus sign exactly when it is negative, and the spelling denotes the integer |
| Js.ToJsString | vendor/assets/javascripts/store.js:257 | a string is kept as is; a number becomes the JavaScript spelling of an integer, which denotes that very number |
| Js.DecimalRoundTrip | vendor/assets/javascripts/store.js:257 | reading a canonical decimal and spelling its value again gives back the same string |
| Js.IntegerSpellingRoundTrip | vendor/assets/javascripts/store.js:257 | every spelling of an integer is the one `'' + n` yields for the number it denotes |
| Js.CoerceId | vendor/assets/javascripts/store.js:257 | null and undefined become no id; a string id is kept as is |
| Js.CoerceIdIdempotent | vendor/assets/javascripts/store.js:115-126 | coercing an id that is already coerced (the generated id is coerced twice) changes nothing |
| Js.CoerceIdNumbersInjective | vendor/assets/javascripts/store.js:257 | two different numbers never coerce to the same id, because each id denotes its number |
| Js.CoerceIdNumberAsString | vendor/assets/javascripts/store.js:257 | a number and any string spelling it (canonical decimal, minus sign when negative) coerce to the same id, which is that string |
| IdentityMap.SlotTypeOf | vendor/assets/javascripts/store.js:355 | `typeof` of a data slot: CREATED and MATERIALIZED are objects, LOADING is a string, a payload is what `typeof` says of it |
| IdentityMap.IdKey | vendor/assets/javascripts/store.js:277 | the property name `idToCid[id]` looks an id up under: the id itself, or "null" for a null id |
| IdentityMap.IdInUse | vendor/assets/javascripts/store.js:134 | the assert that opens pushData refuses an id exactly when it is truthy (not "") and already maps to a truthy clientId in the type's identity map |
| IdentityMap.PushData | vendor/assets/javascripts/store.js:134 | once its assert has passed, pushData hands out the next clientId, stores the data in its slot and binds the id to it in the type's map; the record cache and the calls are untouched |
| IdentityMap.MaterializeRecord | vendor/assets/javascripts/store.js:287 | materializeRecord caches a record under the clientId and makes exactly one call; the identity tables are untouched |
| IdentityMap.FindRoute | vendor/assets/javascripts/store.js:247-258 | `find` goes to findAll exactly when the id is undefined, to findQuery exactly when it is a plain hash, and otherwise to findById with the coerced id (null and arrays included) |
| IdentityMap.FindByClientId | vendor/assets/javascripts/store.js:342-361 | the clientId's record ends up cached; a cached clientId changes nothing; the identity tables are untouched and calls are only added |
| IdentityMap.FindById | vendor/assets/javascripts/store.js:276-298 | a returned clientId has a cached record; nothing cached is dropped, no call is undone, and at most one clientId is handed out |
| IdentityMap.LoadById | vendor/assets/javascripts/store.js:283-297 | the next clientId is handed out in the LOADING state with a cached record; it is returned exactly when the type's adapter implements `find` |
| IdentityMap.MaterializeData | vendor/assets/javascripts/store.js:44-64 | the slot becomes MATERIALIZED; the call fails exactly when the old slot was not CREATED and the type has no adapter |
| IdentityMap.ChooseId | vendor/assets/javascripts/store.js:104-124 | without a generated id the properties are unchanged and the id is theirs; an id is generated only when the properties' id is none and the adapter generates ids, and it is the coerced generated id, written to `localId` for a bridge adapter and to `id` otherwise |
| IdentityMap.CreateRecord | vendor/assets/javascripts/store.js:84-159 | createRecord succeeds exactly when the coerced id is not in use for the type; it then returns the next clientId, cached and bound to the id; on failure the error is the id in use and the tables are unchanged apart from the calls |
| IdentityMap.ReloadRecord | vendor/assets/javascripts/store.js:304-314 | reloadRecord passes only with a truthy id and an adapter for the type, and never touches the tables |
| IdentityMap.CacheCreated | vendor/assets/javascripts/store.js:142-150 | the end of createRecord: the record is told `loadedData`, then `setupData`, and is cached under its clientId |
| IdentityMap.Apply | vendor/assets/javascripts/store.js:171-361 | what one call to the store does to its tables: findAll and findQuery, deleteRecord and unloadRecord leave them alone, every other call moves them as its function says |
| IdentityMap.ApplyAll | vendor/assets/javascripts/store.js:171-361 | the tables after a sequence of calls, applied in order |
| IdentityMapProps.PushDataFresh | vendor/assets/javascripts/store.js:283 | pushData hands out counter+1, a clientId no table records an id for and no identity map points at; it binds the id to it in the type's map, leaves other types' maps alone, and keeps the invariant |
| IdentityMapProps.PushDataKeepsInv | vendor/assets/javascripts/store.js:134 | pushData keeps the identity invariant |
| IdentityMapProps.InvIgnoresCacheAndLog | vendor/assets/javascripts/store.js:150 | caching records and making calls cannot break the identity invariant |
| IdentityMapProps.DistinctIdsDistinctClientIds | vendor/assets/javascripts/store.js:277 | under the invariant, two different (type, id) pairs never share a clientId |
| IdentityMapProps.DistinctNumericIdsDistinctRecords | vendor/assets/javascripts/store.js:257-277 | `find(T, a)` and `find(T, b)` with different numbers look up different keys, which never share a clientId |
| IdentityMapProps.SlotHoldsObject | vendor/assets/javascripts/store.js:355 | `typeof` of a slot is "object" exactly for CREATED, MATERIALIZED and object or null payloads, and never for LOADING |
| IdentityMapProps.FindByClientIdEffect | vendor/assets/javascripts/store.js:342-361 | a cached clientId changes nothing; otherwise exactly one record is built with the clientId's id and cached, followed by `loadedData` exactly when the slot holds an object; the identity tables are unchanged |
| IdentityMapProps.FindByIdHit | vendor/assets/javascripts/store.js:276-281 | a known id returns its clientId and allocates nothing; the adapter is not asked; if the record was already cached, nothing changes |
| IdentityMapProps.FindByIdHitDropsOptions | vendor/assets/javascripts/store.js:280 | on an uncached hit the record is built with undefined options, not the caller's |
| IdentityMapProps.FindByIdMiss | vendor/assets/javascripts/store.js:283 | an unknown id goes to the LOADING branch |
| IdentityMapProps.LoadByIdAllocates | vendor/assets/javascripts/store.js:283-287 | the LOADING branch hands out a new clientId bound to the id in this type's map only, caches its record, and keeps the invariant |
| IdentityMapProps.LoadByIdCalls | vendor/assets/javascripts/store.js:287-297 | the LOADING branch builds the record, then calls `adapter.find` once with type, id and options exactly when the adapter implements `find`; otherwise the error names the missing adapter or `find` |
| IdentityMapProps.FindByIdKeepsInv | vendor/assets/javascripts/store.js:276-298 | findById keeps the identity invariant |
| IdentityMapProps.FindByIdBinds | vendor/assets/javascripts/store.js:276-298 | after findById the id is bound to a cached clientId, the one it was bound to before if any, and that clientId is what a successful call returns |
| IdentityMapProps.FindByIdRepeat | vendor/assets/javascripts/store.js:208-209 | after one findById of (type, id), the id is bound to a cached clientId, and a second findById returns that clientId and changes nothing, even if the first one threw |
| IdentityMapProps.NumberAndStringIdsFindSameRecord | vendor/assets/javascripts/store.js:257 | `find(T, n)` then `find(T, s)` for any string `s` spelling `n`: the second returns the first's clientId and changes nothing |
| IdentityMapProps.FindByNullIdNeverHits | vendor/assets/javascripts/store.js:253-283 | each `find(T, null)` hands out a new clientId and calls `adapter.find` again |
| IdentityMapProps.MaterializeDataEffect | vendor/assets/javascripts/store.js:44-64 | the slot becomes MATERIALIZED and nothing else in the tables changes; `setupData` comes first; `adapter.materialize` gets the old slot and the prematerialized data exactly when the old slot was not CREATED and there is an adapter; the call fails exactly when neither holds |
| IdentityMapProps.MaterializeTwiceReinvokesAdapter | vendor/assets/javascripts/store.js:50-62 | a second materializeData calls the adapter again with MATERIALIZED as the data |
| IdentityMapProps.GeneratedIdPlacement | vendor/assets/javascripts/store.js:104-124 | the generator is asked exactly when the properties' id is none and the adapter generates ids; its coerced id goes to `localId` for a bridge adapter and to `id` otherwise, and no other property changes |
| IdentityMapProps.CreateRecordEffect | vendor/assets/javascripts/store.js:126-150 | on success createRecord hands out a new clientId in the CREATED state, bound to the coerced id when there is one, caches the record and makes exactly the calls generator (if any), `loadedData`, `setupData`; on failure only the generator call is added |
| IdentityMapProps.CreatedAllocates | vendor/assets/javascripts/store.js:134-150 | pushData of CREATED then caching binds the id in this type's map only and keeps the invariant |
| IdentityMapProps.CreateRecordKeepsInv | vendor/assets/javascripts/store.js:84-159 | createRecord keeps the invariant and leaves other types' identity maps unchanged |
| IdentityMapProps.CreateRecordRefusesUsedId | vendor/assets/javascripts/store.js:134 | createRecord with a non-empty id the type already uses fails on pushData's assert and changes nothing |
| IdentityMapProps.CreateRecordRebindsEmptyId | vendor/assets/javascripts/store.js:134 | createRecord with the id "" while "" is bound succeeds and moves "" to the new clientId, so findById "" then returns the new record |
| IdentityMapProps.BridgeRecordFoundByGeneratedId | vendor/assets/javascripts/store.js:116-134 | with a bridge adapter the record gets no `id`, yet findById on the generated id returns the created clientId and changes nothing |
| IdentityMapProps.CreatedRecordMaterializesWithoutAdapter | vendor/assets/javascripts/store.js:58 | materializing a created record succeeds without calling an adapter, even when the type has none |
| IdentityMapProps.ReloadRecordGuard | vendor/assets/javascripts/store.js:304-314 | reloadRecord calls `adapter.find` exactly when the record's id is truthy and the type has an adapter implementing `find`; a missing id is reported first; it never touches the tables otherwise |
| IdentityMapProps.FindByIdKeepsBinding | vendor/assets/javascripts/store.js:276-298 | a findById of any type and id keeps every binding and its cached record |
| IdentityMapProps.CreateRecordKeepsBinding | vendor/assets/javascripts/store.js:84-159 | a createRecord that does not rebind an id keeps that binding and its cached record |
| IdentityMapProps.BindingSurvives | vendor/assets/javascripts/store.js:208-209 | every call but an unloadRecord or a createRecord that rebinds "" keeps a binding, its cached record and the invariant |
| IdentityMapProps.BindingSurvivesAll | vendor/assets/javascripts/store.js:208-209 | any sequence of such calls keeps a binding, its cached record and the invariant |
| IdentityMapProps.FindByIdStable | vendor/assets/javascripts/store.js:208-209 | after a findById of (type, id) and any calls that do not unbind the id (no unloadRecord, no createRecord rebinding ""), findById of (type, id) returns the first one's clientId and changes nothing |
| DataStore.Store.PushData | vendor/assets/javascripts/store.js:134 | once its assert has passed, the store's tables move as pushData does, and the returned clientId is new |
| DataStore.Store.MaterializeRecord | vendor/assets/javascripts/store.js:287 | a fresh record of the type, bound to the clientId, carrying the id and adopted into the default transaction, is cached under it |
| DataStore.Store.FindByClientId | vendor/assets/javascripts/store.js:342-361 | returns the cached object itself when there is one (nothing changes); otherwise a fresh record bound to the clientId, in the default transaction, cached, and `loaded` exactly when the slot holds an object |
| DataStore.Store.FindById | vendor/assets/javascripts/store.js:276-298 | the tables move as in IdentityMap.FindById and the record answers its clientId; a known id with a cached record returns that very object and changes nothing; a known id whose record was not cached gets a fresh record in the default transaction, `loaded` exactly when its slot holds an object; an unknown id leaves the LOADING record (of the type, with the id, in the default transaction, neither loaded nor set up) cached under the new clientId even when the assert throws, and returns it on success; every other cached record stays cached as the same object |
| DataStore.Store.LoadById | vendor/assets/javascripts/store.js:283-297 | a fresh record of the type, with the id, in the default transaction, neither loaded nor set up, is cached under the new LOADING clientId on both outcomes; it is returned with the adapter asked to find it, or the assert's error is returned; every other cached record stays |
| DataStore.Store.AllocateLoading | vendor/assets/javascripts/store.js:283-287 | the tables move as pushData of LOADING then materializeRecord, and the fresh record, in the default transaction, is cached under the new clientId |
| DataStore.Store.Find | vendor/assets/javascripts/store.js:247-258 | undefined and hash ids go to findAll and findQuery without touching the store; any other id goes to findById with the coerced id, returning the cached object on a cached hit, a fresh record `loaded` exactly when its slot holds an object on an uncached hit, and otherwise the LOADING record it caches under the new clientId even when the assert throws; every other cached record is kept |
| DataStore.Store.MaterializeData | vendor/assets/javascripts/store.js:44-64 | the record's slot becomes MATERIALIZED, the record has its data set up, and the tables move as in IdentityMap.MaterializeData |
| DataStore.Store.CreateRecord | vendor/assets/javascripts/store.js:84-159 | the tables move as in IdentityMap.CreateRecord; on success a fresh, loaded, set-up record of the type, cached under a new CREATED clientId, in the given or default transaction, carrying the caller's properties with any generated id written into the caller's own hash; on an id in use the error and an unchanged cache |
| DataStore.Store.CreateRecordWith | vendor/assets/javascripts/store.js:104-153 | createRecord once `properties` and `transaction` are resolved, with the same effect on the tables and the same error |
| DataStore.Store.ChooseRecordId | vendor/assets/javascripts/store.js:104-124 | the id and the updated properties hash are those of IdentityMap.ChooseId; the generator call is logged only when it was made |
| DataStore.Store.AllocateCreated | vendor/assets/javascripts/store.js:134-153 | once pushData's assert has passed, the tables move as pushData of CREATED and the end of createRecord do, and a fresh record of the type, loaded, set up, in the transaction and with the properties, is cached under the new clientId |
| DataStore.Store.CacheCreatedRecord | vendor/assets/javascripts/store.js:138-153 | a fresh record bound to the clientId, loaded, set up, in the transaction, with the properties, cached |
| DataStore.Store.ReloadRecord | vendor/assets/javascripts/store.js:304-314 | the log and outcome are those of IdentityMap.ReloadRecord on the record's `id` |
| DataStore.Store.DeleteRecord | vendor/assets/javascripts/store.js:171-173 | the record receives one delete request with the options; the store is untouched |
| DataStore.Store.UnloadRecord | vendor/assets/javascripts/store.js:181-183 | the record receives one unload request with the options; the store is untouched |
| DataStore.Perform | vendor/assets/javascripts/store.js:171-361 | any one call to the store moves the tables as IdentityMap.Apply says and keeps every cached record as the same object, except possibly under the next clientId; for unloadRecord this covers only store.js's forwarding, not the record's callback that empties the cache entry |
| DataStore.FindAcross | vendor/assets/javascripts/store.js:208-209 | a findById, then any call that does not unbind the id (no unloadRecord, no createRecord rebinding ""), then a findById of the same type and id: the second succeeds and returns the same object as the first when the first returned one |
| DataStore.FindBinding | vendor/assets/javascripts/store.js:276-298 | after a findById the id is bound to a cached clientId, and a record returned is the one cached there |
| DataStore.FindBound | vendor/assets/javascripts/store.js:276-281 | a findById of an id bound to a cached clientId returns that very record object and changes nothing |
| DataStore.PerformKeepingBinding | vendor/assets/javascripts/store.js:208-209 | a call that does not unbind an id (no unloadRecord, no createRecord rebinding "") keeps its binding and the very record object cached for it |

## Left out

- Host helpers are not part of this model. Each is given a body that meets the contract Ember Data documents for it:
  - `pushData` and `materializeRecord` (its adoption of the record into the default transaction is modelled as the record's `transaction` field)
  - `adapterForType`, modelled as a fixed map from type to adapter
  - `typeMapFor`, modelled as an identity map that starts empty
  - `coerceId`
  - the sentinel values
- What adapters and records do when called is left out: the asynchronous load after `adapter.find`, the attributes `adapter.materialize` writes, and the record state machine. Each call is recorded in the store's log.
- `findAll` and `findQuery` are answered by a value naming the call; the record arrays they return are not modelled.
- `load`/`loadMany` are not modelled, so the class never fills prematerialized data or adapter payloads. The functions of IdentityMap accept any such content.
- JavaScript numbers are modelled as the safe integers, those of magnitude below 2^53. Fractions, larger values, NaN, infinities and exponent forms are not modelled.
- Inherited object properties are not modelled: a lookup such as `idToCid["constructor"]` sees only the store's own entries.
- `Ember.assert` is modelled as in debug builds, where it throws. In a build with asserts stripped, `reloadRecord` without an id would still call `adapter.find`.
- DataStore.Store.CreateRecord: models `properties || {}` only for a null hash. Falsy non-object values such as `false` or `0` are not modelled.
- DataStore.Store.CreateRecord: the record object is built after `pushData` rather than before. Its clientId is fixed at construction. The calls the store makes are unchanged.
- DataStore.Store.CreateRecord: `transaction.adoptRecord` is modelled only as the record's `transaction` field.
- DataStore.Store.CreateRecord: `setProperties` is modelled as assigning the hash.
- DataStore.Store.CreateRecord: `Ember.run(record, 'resolve', record)` is not modelled, because promise resolution is outside the store.
- DataStore.Store.CreateRecord: the `options` argument is unused, as in the code.
- DataStore.Store.FindById: the same object is promised for a hit only when a record is already cached for the id. Every other cached record is kept, except possibly one under the next clientId to be handed out. The invariant does not rule out such a record, which the store would never have cached itself.
- DataStore.Store.PushData: its caller must have passed pushData's assert. `createRecord` checks the id itself and fails as the assert does. `findById` reaches pushData only with an id that is not bound, so the assert always passes there.
- DataStore.Store.CreateRecord: when pushData's assert throws, the record already built and adopted into the transaction is not modelled; the store's tables and cache are as the code leaves them.
- IdentityMapProps.BindingSurvives, IdentityMapProps.BindingSurvivesAll, IdentityMapProps.FindByIdStable, DataStore.FindAcross and DataStore.PerformKeepingBinding: exclude every unloadRecord, not just an unload of the bound record. The record's unload calls back into the store to drop it from the cache and the identity map; that callback is not part of this model.
- DataStore.Perform and DataStore.Store.UnloadRecord: the store is unchanged after an unload only as far as store.js's own forwarding goes; the record's callback that removes it from the store is not modelled.
- DataStore.FindAcross: takes one call between the two findById calls. Any sequence of calls is covered on the tables by IdentityMapProps.FindByIdStable.
- DataStore.Store.DeleteRecord and DataStore.Store.UnloadRecord: only the forwarded request is recorded. The record's own `deleteRecord`/`unloadRecord` lives in model.js and is not part of this model.
