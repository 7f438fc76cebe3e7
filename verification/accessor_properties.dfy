/** Properties that relate several accessor operations on the same child. */
module AccessorProperties {
  import opened Records
  import opened BelongsTo

  /** A parent created through the accessor is what `get` then returns, and
      the child's foreign key is its identity. */
  lemma CreateThenGet(s: State, data: Fields)
    ensures
      var made := Create(s, data, {});
      var fetched := Get(made.state, {});
      && made.result.Ok?
      && made.result.value.id.Some?
      && made.state.child.fk == made.result.value.id
      && made.result.value.fields == data
      && fetched.result == made.result
  {
    var made := Create(s, data, {});
    assert Creates(s, data, {}, made);
    assert Fetches(made.state, {}, Get(made.state, {}));
  }

  /** Once `remove` has saved the detached child, `get` fails with NotFound
      even when the removal of the parent itself was rejected; and when the
      removal went through, the old parent is gone from the store. */
  lemma RemoveThenGet(s: State, faults: set<Call>)
    requires SaveCall !in faults
    ensures
      var removed := Remove(s, faults);
      && Get(removed.state, {}).result == Err(NotFound)
      && removed.state.saved.fk.None?
      && (removed.result.Ok? ==> s.child.fk.value !in removed.state.store.parents)
  {
    var removed := Remove(s, faults);
    assert Fetches(removed.state, {}, Get(removed.state, {}));
  }

  /** The detach-before-delete order: when the parent's removal is rejected,
      the child is already detached in memory and in persistence while the
      parent is still stored. */
  lemma RemoveDetachesBeforeDeleting(s: State)
    requires s.child.fk.Some? && s.child.fk.value in s.store.parents
    ensures
      var halted := Remove(s, {RemoveCall});
      && halted.result == Err(Failed(RemoveCall))
      && halted.state.saved.fk.None?
      && s.child.fk.value in halted.state.store.parents
      && halted.state.trace == s.trace + [ChildSaved(None)]
  {
    var halted := Remove(s, {RemoveCall});
    assert SaveCall !in {RemoveCall};
  }

  /** `create` is not atomic: when the child's save is rejected, the new
      parent exists, the in-memory child points at it, and the persisted
      child still holds its old foreign key. */
  lemma CreateLeavesOrphanWhenSaveFails(s: State, data: Fields)
    ensures
      var halted := Create(s, data, {SaveCall});
      var id := s.store.nextId;
      && halted.result == Err(Failed(SaveCall))
      && id in halted.state.store.parents
      && halted.state.store.parents[id] == data
      && halted.state.child.fk == Some(id)
      && halted.state.saved == s.saved
  {
    var halted := Create(s, data, {SaveCall});
    assert CreateCall !in {SaveCall};
    assert Creates(s, data, {SaveCall}, halted);
  }

  /** Truthiness, not presence, picks the branch: a foreign key of 0 that
      names a stored parent is found by `get`, yet `getOrCreate` creates a
      second parent and relinks the child to it. */
  lemma ZeroKeyCountsAsAbsent(s: State, data: Fields)
    requires s.child.fk == Some(0) && 0 in s.store.parents
    ensures Get(s, {}).result == Ok(Parent(Some(0), s.store.parents[0]))
    ensures
      var r := GetOrCreate(s, data, {});
      && r.result == Ok(Parent(Some(s.store.nextId), data))
      && r.state.child.fk != s.child.fk
      && |r.state.store.parents| == |s.store.parents| + 1
  {
    assert Fetches(s, {}, Get(s, {}));
    var r := GetOrCreate(s, data, {});
    assert !Present(s.child.fk);
    assert Creates(s, data, {}, r);
  }

  /** An absent foreign key is not short-circuited: `get`, `update` and
      `remove` all reach the target model, so a rejection of that call is
      what they report, and otherwise they come back with NotFound, leaving
      the store as it was. */
  lemma AbsentKeyReachesTargetModel(s: State, data: Fields)
    requires s.child.fk.None?
    ensures Get(s, {FindCall}).result == Err(Failed(FindCall))
    ensures Update(s, data, {UpdateCall}).result == Err(Failed(UpdateCall))
    ensures Remove(s, {RemoveCall}).result == Err(Failed(RemoveCall))
    ensures Get(s, {}).result == Err(NotFound)
    ensures Update(s, data, {}) == Step(s, Err(NotFound))
    ensures
      var removed := Remove(s, {});
      && removed.result == Err(NotFound)
      && removed.state.store == s.store
      && removed.state.trace == s.trace + [ChildSaved(None)]
  {
    assert Fetches(s, {}, Get(s, {}));
    assert Updates(s, data, {}, Update(s, data, {}));
    assert Fetches(s, {FindCall}, Get(s, {FindCall}));
    assert Updates(s, data, {UpdateCall}, Update(s, data, {UpdateCall}));
    assert SaveCall !in {RemoveCall};
  }
}
