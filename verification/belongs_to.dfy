/** The belongs-to accessor: the read-only `get` and the mutable variant's
    `build`, `set`, `getOrCreate`, `create`, `createOrUpdate`, `update` and
    `remove`, each a step from one state to the next with its result.

    The state holds the bound child as it stands in memory (`child`), the
    child as last persisted by its own `save` (`saved`), the parent store,
    and the trace of completed writes. Each operation takes the set of
    collaborator calls that are rejected during it; a rejection ends the
    operation with that error and keeps every effect already made. */
module BelongsTo {
  import opened Records
  import TargetModel

  datatype State = State(child: Child, saved: Child, store: TargetModel.Store, trace: seq<Event>)

  datatype Step<+T> = Step(state: State, result: Result<T>)

  /** What `get` promises: nothing changes; the result is the parent whose
      identity is the foreign key, or NotFound when there is none. */
  ghost predicate Fetches(s: State, faults: set<Call>, r: Step<Parent>)
  {
    var fk := s.child.fk;
    && r.state == s
    && (r.result.Ok? <==> FindCall !in faults && fk.Some? && fk.value in s.store.parents)
    && (r.result.Ok? ==> r.result.value == Parent(fk, s.store.parents[fk.value]))
    && (r.result.Err? ==> r.result.error == if FindCall in faults then Failed(FindCall) else NotFound)
  }

  /** What `create(data)` promises: one new parent holding `data` under a
      fresh, truthy identity, created before the child is linked to it and
      saved. If the save is rejected the parent stays, unlinked in the
      persisted child. */
  ghost predicate Creates(s: State, data: Fields, faults: set<Call>, r: Step<Parent>)
  {
    if CreateCall in faults then r == Step(s, Err(Failed(CreateCall)))
    else
      var id := s.store.nextId;
      && id !in s.store.parents
      && Present(Some(id))
      && r.state.store.parents == s.store.parents[id := data]
      && r.state.child == s.child.(fk := Some(id))
      && if SaveCall in faults then
           && r.result == Err(Failed(SaveCall))
           && r.state.saved == s.saved
           && r.state.trace == s.trace + [Created(id, data)]
         else
           && r.result == Ok(Parent(Some(id), data))
           && r.state.saved == r.state.child
           && r.state.trace == s.trace + [Created(id, data), ChildSaved(Some(id))]
  }

  /** What `update(changes)` promises: the child is untouched; `changes` are
      merged into the parent the foreign key names and no other parent
      changes; NotFound when no parent has that identity. */
  ghost predicate Updates(s: State, changes: Fields, faults: set<Call>, r: Step<Parent>)
  {
    var fk := s.child.fk;
    && r.state.child == s.child
    && r.state.saved == s.saved
    && (r.result.Ok? <==> UpdateCall !in faults && fk.Some? && fk.value in s.store.parents)
    && (r.result.Ok? ==>
          var merged := s.store.parents[fk.value] + changes;
          && r.result.value == Parent(fk, merged)
          && r.state.store.parents == s.store.parents[fk.value := merged]
          && r.state.trace == s.trace + [Updated(fk.value, changes)])
    && (r.result.Err? ==>
          && r.state == s
          && r.result.error == if UpdateCall in faults then Failed(UpdateCall) else NotFound)
  }

  /** The child's own `save()`: persists the in-memory child. */
  function Save(s: State, faults: set<Call>): (r: Step<()>)
    ensures r.state.child == s.child && r.state.store == s.store
    ensures SaveCall in faults ==> r == Step(s, Err(Failed(SaveCall)))
    ensures SaveCall !in faults ==>
      && r.result.Ok?
      && r.state.saved == s.child
      && r.state.trace == s.trace + [ChildSaved(s.child.fk)]
  {
    if SaveCall in faults then Step(s, Err(Failed(SaveCall)))
    else Step(s.(saved := s.child, trace := s.trace + [ChildSaved(s.child.fk)]), Ok(()))
  }

  /** `get()`: looks the foreign key up unconditionally, absent or not. */
  function Get(s: State, faults: set<Call>): (r: Step<Parent>)
    ensures Fetches(s, faults, r)
  {
    Step(s, TargetModel.FindById(s.store, s.child.fk, faults))
  }

  /** `build(data)`: an unsaved parent; neither the child nor the store is
      read or written. */
  function Build(s: State, data: Fields, faults: set<Call>): (r: Step<Parent>)
    ensures r.state == s
    ensures r.result.Ok? <==> BuildCall !in faults
    ensures r.result.Ok? ==> r.result.value.id.None? && r.result.value.fields == data
    ensures r.result.Err? ==> r.result.error == Failed(BuildCall)
  {
    Step(s, TargetModel.Build(data, faults))
  }

  /** `set(item)`: writes `item`'s identity into the foreign key, whether or
      not such a parent exists, then saves the child. */
  function Set(s: State, item: Parent, faults: set<Call>): (r: Step<()>)
    ensures r.state.child == s.child.(fk := item.id)
    ensures r.state.store == s.store
    ensures SaveCall in faults ==>
      && r.result == Err(Failed(SaveCall))
      && r.state.saved == s.saved
      && r.state.trace == s.trace
    ensures SaveCall !in faults ==>
      && r.result.Ok?
      && r.state.saved.fk == item.id
      && r.state.saved == r.state.child
      && r.state.trace == s.trace + [ChildSaved(item.id)]
  {
    Save(s.(child := s.child.(fk := item.id)), faults)
  }

  /** `create(data)`: the target model creates the parent, then `set` links
      it; the created parent is the result. */
  function Create(s: State, data: Fields, faults: set<Call>): (r: Step<Parent>)
    ensures Creates(s, data, faults, r)
  {
    var made := TargetModel.Create(s.store, data, faults);
    if made.result.Err? then Step(s, Err(made.result.error))
    else
      var linked := Set(s.(store := made.store, trace := s.trace + made.events), made.result.value, faults);
      if linked.result.Err? then Step(linked.state, Err(linked.result.error))
      else Step(linked.state, Ok(made.result.value))
  }

  /** `getOrCreate(data)`: `get` when the foreign key is truthy, `create`
      otherwise. */
  function GetOrCreate(s: State, data: Fields, faults: set<Call>): (r: Step<Parent>)
    ensures Present(s.child.fk) ==> Fetches(s, faults, r)
    ensures !Present(s.child.fk) ==> Creates(s, data, faults, r)
  {
    if Present(s.child.fk) then Get(s, faults) else Create(s, data, faults)
  }

  /** `update(changes)`: the foreign key goes to `updateById` as it is. */
  function Update(s: State, changes: Fields, faults: set<Call>): (r: Step<Parent>)
    ensures Updates(s, changes, faults, r)
  {
    var changed := TargetModel.UpdateById(s.store, s.child.fk, changes, faults);
    Step(s.(store := changed.store, trace := s.trace + changed.events), changed.result)
  }

  /** `createOrUpdate(data)`: `update` when the foreign key is truthy,
      `create` otherwise. */
  function CreateOrUpdate(s: State, data: Fields, faults: set<Call>): (r: Step<Parent>)
    ensures Present(s.child.fk) ==> Updates(s, data, faults, r)
    ensures !Present(s.child.fk) ==> Creates(s, data, faults, r)
  {
    if Present(s.child.fk) then Update(s, data, faults) else Create(s, data, faults)
  }

  /** `remove()`: clears the foreign key and saves the child first, and only
      then removes the parent by the old identity. */
  function Remove(s: State, faults: set<Call>): (r: Step<()>)
    ensures r.state.child == s.child.(fk := None)
    ensures SaveCall in faults ==>
      && r.result == Err(Failed(SaveCall))
      && r.state.saved == s.saved
      && r.state.store == s.store
      && r.state.trace == s.trace
    ensures SaveCall !in faults ==>
      var fk := s.child.fk;
      && r.state.saved == r.state.child
      && (r.result.Ok? <==> RemoveCall !in faults && fk.Some? && fk.value in s.store.parents)
      && (r.result.Ok? ==>
            && r.state.store.parents == s.store.parents - {fk.value}
            && r.state.trace == s.trace + [ChildSaved(None), Removed(fk.value)])
      && (r.result.Err? ==>
            && r.state.store == s.store
            && r.state.trace == s.trace + [ChildSaved(None)]
            && r.result.error == if RemoveCall in faults then Failed(RemoveCall) else NotFound)
  {
    var fk := s.child.fk;
    var detached := Save(s.(child := s.child.(fk := None)), faults);
    if detached.result.Err? then detached
    else
      var gone := TargetModel.RemoveById(detached.state.store, fk, faults);
      Step(detached.state.(store := gone.store, trace := detached.state.trace + gone.events), gone.result)
  }
}
