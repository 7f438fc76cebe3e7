/** Repeating `getOrCreate` or `createOrUpdate` on one child, with a fresh
    `data` argument each time and no rejected collaborator call. */
module Repetition {
  import opened Records
  import opened BelongsTo

  /** The final state of a run of calls, and each call's result in order. */
  datatype Runs = Runs(state: State, results: seq<Result<Parent>>)

  function GetOrCreateEach(s: State, ds: seq<Fields>): (r: Runs)
    ensures |r.results| == |ds|
    decreases |ds|
  {
    if ds == [] then Runs(s, [])
    else
      var first := GetOrCreate(s, ds[0], {});
      var rest := GetOrCreateEach(first.state, ds[1..]);
      Runs(rest.state, [first.result] + rest.results)
  }

  function CreateOrUpdateEach(s: State, ds: seq<Fields>): (r: Runs)
    ensures |r.results| == |ds|
    decreases |ds|
  {
    if ds == [] then Runs(s, [])
    else
      var first := CreateOrUpdate(s, ds[0], {});
      var rest := CreateOrUpdateEach(first.state, ds[1..]);
      Runs(rest.state, [first.result] + rest.results)
  }

  /** `base` with every `ds[i]` merged over it in turn, later keys winning. */
  function Merged(base: Fields, ds: seq<Fields>): Fields
    decreases |ds|
  {
    if ds == [] then base else Merged(base + ds[0], ds[1..])
  }

  /** Every key of the last merged map carries that map's value. */
  lemma {:induction false} MergedKeepsLatest(base: Fields, ds: seq<Fields>)
    requires ds != []
    ensures forall k :: k in ds[|ds| - 1] ==> k in Merged(base, ds) && Merged(base, ds)[k] == ds[|ds| - 1][k]
    decreases |ds|
  {
    if |ds| == 1 {
      assert ds[1..] == [];
    } else {
      MergedKeepsLatest(base + ds[0], ds[1..]);
    }
  }

  /** Once the child is linked to a stored parent, further `getOrCreate`
      calls change nothing and each returns that parent, whatever `data`
      they are given. */
  lemma {:induction false} GetOrCreateEachLinked(s: State, ds: seq<Fields>)
    requires Present(s.child.fk) && s.child.fk.value in s.store.parents
    ensures GetOrCreateEach(s, ds).state == s
    ensures forall i :: 0 <= i < |ds| ==>
      GetOrCreateEach(s, ds).results[i] == Ok(Parent(s.child.fk, s.store.parents[s.child.fk.value]))
    decreases |ds|
  {
    if ds != [] {
      var first := GetOrCreate(s, ds[0], {});
      assert Fetches(s, {}, first);
      GetOrCreateEachLinked(first.state, ds[1..]);
    }
  }

  /** On an unlinked child, a run of `getOrCreate` calls creates exactly one
      parent, from the first call's `data`, links the child to it, and every
      call returns that same parent. */
  lemma GetOrCreateEachCreatesOnce(s: State, ds: seq<Fields>)
    requires !Present(s.child.fk) && ds != []
    ensures
      var r := GetOrCreateEach(s, ds);
      var id := s.store.nextId;
      && id !in s.store.parents
      && r.state.store.parents == s.store.parents[id := ds[0]]
      && r.state.child.fk == Some(id)
      && r.state.saved == r.state.child
      && forall i :: 0 <= i < |ds| ==> r.results[i] == Ok(Parent(Some(id), ds[0]))
  {
    var first := GetOrCreate(s, ds[0], {});
    assert Creates(s, ds[0], {}, first);
    GetOrCreateEachLinked(first.state, ds[1..]);
  }

  /** Once the child is linked to a stored parent, further `createOrUpdate`
      calls leave the child alone and merge each `data` into that parent,
      and no other parent. */
  lemma {:induction false} CreateOrUpdateEachLinked(s: State, ds: seq<Fields>)
    requires Present(s.child.fk) && s.child.fk.value in s.store.parents
    ensures
      var r := CreateOrUpdateEach(s, ds);
      var id := s.child.fk.value;
      var fields := Merged(s.store.parents[id], ds);
      && r.state.child == s.child
      && r.state.saved == s.saved
      && r.state.store.parents == s.store.parents[id := fields]
      && (forall i :: 0 <= i < |ds| ==> r.results[i].Ok? && r.results[i].value.id == s.child.fk)
      && (ds != [] ==> r.results[|ds| - 1] == Ok(Parent(s.child.fk, fields)))
    decreases |ds|
  {
    if ds != [] {
      var id := s.child.fk.value;
      var first := CreateOrUpdate(s, ds[0], {});
      assert Updates(s, ds[0], {}, first);
      CreateOrUpdateEachLinked(first.state, ds[1..]);
      Overwrite(s.store.parents, id, first.state.store.parents[id], Merged(s.store.parents[id], ds));
    }
  }

  /** On an unlinked child, a run of `createOrUpdate` calls creates exactly
      one parent, links the child to it once and for all, and leaves in it
      the merge of every call's `data`. */
  lemma CreateOrUpdateEachCreatesOnce(s: State, ds: seq<Fields>)
    requires !Present(s.child.fk) && ds != []
    ensures
      var r := CreateOrUpdateEach(s, ds);
      var id := s.store.nextId;
      && id !in s.store.parents
      && r.state.store.parents == s.store.parents[id := Merged(map[], ds)]
      && r.state.child.fk == Some(id)
      && r.state.saved == r.state.child
  {
    var id := s.store.nextId;
    var first := FirstCreateOrUpdate(s, ds[0]);
    CreateOrUpdateEachLinked(first.state, ds[1..]);
    MergedFirst(ds);
    Overwrite(s.store.parents, id, ds[0], Merged(map[], ds));
  }

  lemma MergedFirst(ds: seq<Fields>)
    requires ds != []
    ensures Merged(map[], ds) == Merged(ds[0], ds[1..])
  {
    assert map[] + ds[0] == ds[0];
  }

  lemma Overwrite<K, V>(m: map<K, V>, k: K, a: V, b: V)
    ensures m[k := a][k := b] == m[k := b]
  {
  }

  /** The last of those calls returns the one parent, and each key of the
      latest `data` has the latest value in it. */
  lemma CreateOrUpdateEachTracksLatest(s: State, ds: seq<Fields>)
    requires !Present(s.child.fk) && ds != []
    ensures
      var r := CreateOrUpdateEach(s, ds);
      var fields := Merged(map[], ds);
      && (forall k :: k in ds[|ds| - 1] ==> k in fields && fields[k] == ds[|ds| - 1][k])
      && r.results[|ds| - 1] == Ok(Parent(Some(s.store.nextId), fields))
  {
    var first := FirstCreateOrUpdate(s, ds[0]);
    var rest := CreateOrUpdateEach(first.state, ds[1..]);
    var r := CreateOrUpdateEach(s, ds);
    assert r.results == [first.result] + rest.results;
    CreateOrUpdateEachLinked(first.state, ds[1..]);
    MergedFirst(ds);
    MergedKeepsLatest(map[], ds);
    if |ds| == 1 {
      assert ds[1..] == [];
    } else {
      assert r.results[|ds| - 1] == rest.results[|ds| - 2];
    }
  }

  /** The first `createOrUpdate` on an unlinked child creates and links. */
  lemma FirstCreateOrUpdate(s: State, data: Fields) returns (first: Step<Parent>)
    requires !Present(s.child.fk)
    ensures first == CreateOrUpdate(s, data, {})
    ensures
      var id := s.store.nextId;
      && id !in s.store.parents
      && first.state.store.parents == s.store.parents[id := data]
      && first.state.child == s.child.(fk := Some(id))
      && Present(first.state.child.fk)
      && first.state.saved == first.state.child
      && first.result == Ok(Parent(Some(id), data))
  {
    first := CreateOrUpdate(s, data, {});
    assert Creates(s, data, {}, first);
  }
}
