/** The parent model the accessor delegates to, as an abstract map-based
    store. Only the contract the accessor relies on is modelled: lookup by
    identity, construction, creation with a fresh identity, merge-update and
    removal by identity, each failing with NotFound when no record has the
    identity, or with `Failed` when the call itself is rejected. A rejected
    call writes nothing. */
module TargetModel {
  import opened Records

  /** Stored parents by identity, and the identity the next `create` assigns. */
  datatype Db = Db(parents: map<int, Fields>, nextId: int)

  /** Identities the model assigns are truthy and never reused: every stored
      identity lies below `nextId`, and `nextId` is positive. */
  type Store = db: Db | 0 < db.nextId && forall id :: id in db.parents ==> id < db.nextId
    witness Db(map[], 1)

  /** A collaborator's answer: the store after the call, what the call
      yields, and the writes it completed. */
  datatype Reply<+T> = Reply(store: Store, result: Result<T>, events: seq<Event>)

  /** `findById(id)`. */
  function FindById(db: Store, id: Option<int>, faults: set<Call>): (r: Result<Parent>)
    ensures r.Ok? <==> FindCall !in faults && id.Some? && id.value in db.parents
    ensures r.Ok? ==> r.value == Parent(id, db.parents[id.value])
    ensures r.Err? ==> r.error == if FindCall in faults then Failed(FindCall) else NotFound
  {
    if FindCall in faults then Err(Failed(FindCall))
    else if id.Some? && id.value in db.parents then Ok(Parent(id, db.parents[id.value]))
    else Err(NotFound)
  }

  /** `build(data)`: an unpersisted instance, with no identity. */
  function Build(data: Fields, faults: set<Call>): (r: Result<Parent>)
    ensures r.Ok? <==> BuildCall !in faults
    ensures r.Ok? ==> r.value.id.None? && r.value.fields == data
    ensures r.Err? ==> r.error == Failed(BuildCall)
  {
    if BuildCall in faults then Err(Failed(BuildCall)) else Ok(Parent(None, data))
  }

  /** `create(data)`: persists `data` under a fresh, truthy identity. */
  function Create(db: Store, data: Fields, faults: set<Call>): (r: Reply<Parent>)
    ensures CreateCall in faults ==> r == Reply(db, Err(Failed(CreateCall)), [])
    ensures CreateCall !in faults ==>
      var id := db.nextId;
      && id !in db.parents
      && Present(Some(id))
      && r.result == Ok(Parent(Some(id), data))
      && r.store.parents == db.parents[id := data]
      && r.events == [Created(id, data)]
  {
    if CreateCall in faults then Reply(db, Err(Failed(CreateCall)), [])
    else
      var id := db.nextId;
      Reply(Db(db.parents[id := data], id + 1), Ok(Parent(Some(id), data)), [Created(id, data)])
  }

  /** `updateById(id, changes)`: merges `changes` over the stored fields,
      later keys winning, and yields the updated record. */
  function UpdateById(db: Store, id: Option<int>, changes: Fields, faults: set<Call>): (r: Reply<Parent>)
    ensures r.result.Ok? <==> UpdateCall !in faults && id.Some? && id.value in db.parents
    ensures r.result.Ok? ==>
      var merged := db.parents[id.value] + changes;
      && r.result.value == Parent(id, merged)
      && r.store.parents == db.parents[id.value := merged]
      && r.store.nextId == db.nextId
      && r.events == [Updated(id.value, changes)]
    ensures r.result.Err? ==>
      && r.store == db
      && r.events == []
      && r.result.error == if UpdateCall in faults then Failed(UpdateCall) else NotFound
  {
    if UpdateCall in faults then Reply(db, Err(Failed(UpdateCall)), [])
    else if id.Some? && id.value in db.parents then
      var merged := db.parents[id.value] + changes;
      Reply(db.(parents := db.parents[id.value := merged]), Ok(Parent(id, merged)), [Updated(id.value, changes)])
    else Reply(db, Err(NotFound), [])
  }

  /** `removeById(id)`. What it resolves to is not modelled. */
  function RemoveById(db: Store, id: Option<int>, faults: set<Call>): (r: Reply<()>)
    ensures r.result.Ok? <==> RemoveCall !in faults && id.Some? && id.value in db.parents
    ensures r.result.Ok? ==>
      && r.store.parents == db.parents - {id.value}
      && r.store.nextId == db.nextId
      && r.events == [Removed(id.value)]
    ensures r.result.Err? ==>
      && r.store == db
      && r.events == []
      && r.result.error == if RemoveCall in faults then Failed(RemoveCall) else NotFound
  {
    if RemoveCall in faults then Reply(db, Err(Failed(RemoveCall)), [])
    else if id.Some? && id.value in db.parents then
      Reply(db.(parents := db.parents - {id.value}), Ok(()), [Removed(id.value)])
    else Reply(db, Err(NotFound), [])
  }
}
