# belongs-to relation accessor, modelled in Dafny

The repository adds "belongs-to" relations to a record modeller. A child
model registers a relation to a parent model. Every read of the relation
property on a child record then gives a fresh accessor bound to that record.
The read-only accessor (`BelongsTo`) offers `get`. The mutable one
(`BelongsToMutable`) adds `build`, `set`, `getOrCreate`, `create`,
`createOrUpdate`, `update` and `remove`. All of them read or write the
child's foreign-key column and delegate persistence to the parent model and
to the child's own `save`.

The model is functional. A `BelongsTo.State` holds:

- the child as it stands in memory (`child`);
- the child as its last `save` persisted it (`saved`);
- the parent store (`TargetModel.Store`, a map from identity to fields, plus
  the identity the store assigns next);
- the trace of writes that reached persistence (`Created`, `ChildSaved`,
  `Updated`, `Removed`).

Each accessor method is a function from a state to the next state and a
`Result`, which is either the value or an `Error`. The error is `NotFound`
(the "Record not found" rejection) or `Failed(call)`. Each function also
takes the set of collaborator calls that are rejected while it runs. A
rejection ends the method with that error. Writes already made stay made,
as `create` and `remove` do (index.js:33-37, index.js:50-56).

Modules:

- `Records`: shared values. This includes `Present`, the JavaScript
  truthiness of a foreign key: `undefined` and `0` are falsy.
- `TargetModel`: the parent model's `findById`, `build`, `create`,
  `updateById` and `removeById`, as an abstract map-based store.
- `BelongsTo`: the accessor methods. Each one's contract is given by a
  relational predicate: `Fetches`, `Creates`, `Updates`, or direct clauses.
- `AccessorProperties`: properties that relate several methods. Examples are
  create-then-get, remove-then-get, the detach-before-delete order, partial
  failures, and the truthiness dispatch.
- `PersistenceLog`: any sequence of calls, with any rejections along the
  way. Replaying the trace from the starting persisted state gives the final
  persisted state.
- `Repetition`: repeated `getOrCreate` and `createOrUpdate` calls.
- `Registration`: how `belongsTo(options)` resolves its defaults.
- `Scenarios`: the post-states asserted in `test.js`.

Two facts about the code shape the model:

- `getOrCreate` and `createOrUpdate` branch on the truthiness of the foreign
  key (index.js:30, index.js:41), so a key of `0` takes the create path
  (`AccessorProperties.ZeroKeyCountsAsAbsent`).
- `set` never checks its argument (index.js:22-26), so the model keeps no
  invariant that the foreign key names a stored parent.

## Model

| member | source | states |
|---|---|---|
| TargetModel.FindById | index.js:11-13 | `findById` succeeds exactly when the identity is present and stored, and then yields that stored parent; otherwise NotFound, or the rejection |
| TargetModel.Build | index.js:18-20 | `build` succeeds unless rejected; the built parent has no identity and carries exactly the given fields; a rejection is passed on |
| TargetModel.Create | index.js:34 | `create` stores exactly one new parent holding `data`, under an identity that was not stored and is truthy, and logs one `Created` write |
| TargetModel.UpdateById | index.js:47 | `updateById` succeeds exactly when the identity is stored; it merges the changes over that parent only, later keys winning; on failure nothing changes |
| TargetModel.RemoveById | index.js:55 | `removeById` succeeds exactly when the identity is stored and then deletes only that parent; on failure nothing changes |
| BelongsTo.Save | index.js:25 | the child's `save` persists the in-memory child and logs it, or, when rejected, changes nothing |
| BelongsTo.Get | index.js:10-14 | `get` changes nothing; it yields the parent whose identity equals the foreign key, and NotFound when no parent has it, an absent key included |
| BelongsTo.Build | index.js:18-20 | `build` leaves child and store as they are and yields an identity-less parent carrying `data`, or the target model's rejection unchanged |
| BelongsTo.Set | index.js:22-26 | `set(item)` makes the foreign key `item.id` without checking the store, leaves the store alone, and persists the child (or not, when the save is rejected) |
| BelongsTo.Create | index.js:33-37 | `create` adds exactly one parent holding `data` under a fresh truthy identity, links the child to it and returns it; `Created` precedes `ChildSaved` in the trace; a rejected save leaves the parent stored and the persisted child unlinked |
| BelongsTo.GetOrCreate | index.js:28-31 | with a truthy foreign key it meets `get`'s contract and ignores `data`; otherwise it meets `create`'s |
| BelongsTo.Update | index.js:44-48 | `update` leaves the child untouched, merges `changes` into the parent the foreign key names and into no other parent, and fails with NotFound when that parent does not exist |
| BelongsTo.CreateOrUpdate | index.js:39-42 | with a truthy foreign key it meets `update`'s contract; otherwise it meets `create`'s |
| BelongsTo.Remove | index.js:50-56 | `remove` clears the foreign key and persists the child before removing the parent by the old identity; the parent is deleted only when stored, otherwise NotFound; a rejected removal leaves the child detached |
| AccessorProperties.CreateThenGet | index.js:33-37 | after `create(data)`, the foreign key is the new parent's identity, and `get` returns the created parent |
| AccessorProperties.RemoveThenGet | index.js:50-56 | once `remove` has saved the detached child, `get` fails with NotFound, even if the parent's removal was rejected; a completed removal leaves the old parent out of the store |
| AccessorProperties.RemoveDetachesBeforeDeleting | index.js:52-55 | when `removeById` is rejected, the child is already detached in memory and in persistence, and the parent is still stored |
| AccessorProperties.CreateLeavesOrphanWhenSaveFails | index.js:34-35 | when the child's save is rejected after `create`, the new parent is stored, the in-memory child points at it, and the persisted child is unchanged |
| AccessorProperties.ZeroKeyCountsAsAbsent | index.js:28-31 | a foreign key of 0 naming a stored parent is found by `get`, yet `getOrCreate` creates a second parent and relinks the child |
| AccessorProperties.AbsentKeyReachesTargetModel | index.js:10-56 | an absent foreign key is not short-circuited: `get`, `update` and `remove` each call the target model, so a rejection of `findById`, `updateById` or `removeById` is what they report; otherwise they get NotFound and the store is unchanged |
| PersistenceLog.PerformLogged | index.js:10-56 | every accessor call, whatever is rejected, only appends to the trace, and the trace still replays to the persisted state |
| PersistenceLog.RunLogged | index.js:10-56 | the same holds for any sequence of accessor calls (by induction) |
| PersistenceLog.TraceAccountsForPersistence | index.js:22-56 | starting from an empty trace, the writes logged by any run of calls account for every change to the stored parents and the persisted foreign key |
| Repetition.MergedKeepsLatest | test.js:51-57 | after merging a sequence of changes, every key of the latest changes carries its latest value |
| Repetition.GetOrCreateEachLinked | index.js:28-31 | once the child is linked to a stored parent, any number of `getOrCreate` calls change nothing, and each returns that parent whatever its `data` |
| Repetition.GetOrCreateEachCreatesOnce | test.js:188-202 | on an unlinked child, any nonempty run of `getOrCreate` calls creates exactly one parent, from the first call's `data`, and every call returns it |
| Repetition.CreateOrUpdateEachLinked | index.js:39-48 | once linked, `createOrUpdate` calls leave the child alone and merge each `data` into the linked parent only; each returns that parent |
| Repetition.CreateOrUpdateEachCreatesOnce | test.js:236-250 | on an unlinked child, any nonempty run of `createOrUpdate` calls keeps one new parent, links the child once, and leaves the merge of all the `data` in that parent |
| Repetition.CreateOrUpdateEachTracksLatest | test.js:236-250 | the last of those calls returns the one parent, whose fields carry the latest `data`'s values |
| Registration.Methods | index.js:3-57 | every accessor offers `get`; the read-only variant offers nothing else, the mutable one more |
| Registration.Resolve | index.js:61-67 | `as` defaults to the target model's table name, `foreignKey` to the resolved `as` followed by `_id`, and the accessor is read-only exactly when `immutable` is true |
| Registration.DefaultsFollowTableName | index.js:61-67 | given only the model, the relation is named after its table; its key column is that name followed by `_id`, from which the name can be read back; the accessor is mutable |
| Registration.ImmutableOffersOnlyGet | index.js:67 | an immutable relation exposes `get` and nothing else |
| Scenarios.GetScenario | test.js:93-114 | the `get` test: the linked parent is returned; after the parents are cleared, NotFound |
| Scenarios.BuildScenario | test.js:135-153 | the `build` test: an identity-less parent, an empty store, an unlinked child |
| Scenarios.SetScenario | test.js:156-177 | the `set` test: the child persisted with `parent_id` 1, the store unchanged |
| Scenarios.CreateScenario | test.js:205-226 | the `create` test: parent 1 holding the data, the child persisted with `parent_id` 1 |
| Scenarios.GetOrCreateScenario | test.js:180-203 | the `getOrCreate` test: both calls return parent 1 with the first data, and only that parent is stored |
| Scenarios.CreateOrUpdateScenario | test.js:228-251 | the `createOrUpdate` test: after the first call, parent 1 holds the first data and is returned, and the child is persisted with `parent_id` 1; after the second, the one parent holds the second call's data and the child is still linked to it |
| Scenarios.UpdateScenario | test.js:253-276 | the `update` test: parent 1 renamed, and the child unchanged |
| Scenarios.RemoveScenario | test.js:278-297 | the `remove` test: the store emptied, and the child persisted with no parent |

## Left out

- The property plumbing is not modelled: `Object.defineProperty`, the getter
  that builds a new accessor on every read, and the `middleware` hook that
  wraps the driver (index.js:59-85). These are JavaScript metaprogramming.
  Only the option defaults are modelled (`Registration.Resolve`).
- Promises and `async` are not modelled. Each method is a sequential
  composition of its steps, and a rejection stops it with the error
  unchanged.
- The persistence backend's internals are not modelled. Its identity
  assignment is abstracted as a counter (`nextId`) that yields identities
  that are truthy and never reused. The test driver's `length + 1`
  assignment and its query iterator are test scaffolding.
- A rejected collaborator call is assumed to write nothing. Each method
  makes each kind of call at most once, so a set of rejected call kinds
  describes every failure pattern.
- BelongsTo.Set: what the child's `save()` resolves to is not modelled (the
  result is `()`). `set` returns that value (index.js:25), so the model does
  not state what callers receive.
- TargetModel.RemoveById: what `removeById` resolves to is not modelled (the
  result is `()`). `remove` returns that value, so the model does not state
  what callers receive.
- Identities are integers. String identities, and other falsy JavaScript
  values such as `NaN`, `null` or `''`, are not modelled.
- The child's other columns are carried unchanged and never inspected.
- Only the fields of the parent records are modelled. An `id` key inside
  `data` or `changes` is not given special treatment.
