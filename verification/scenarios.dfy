/** The post-states the repository's tests assert, on the model: a child
    record `{ id: 1, name }`, and a parent table that assigns identities
    from 1 upwards. */
module Scenarios {
  import opened Records
  import opened BelongsTo
  import TargetModel
  import Repetition

  function Named(name: string): Fields
  {
    map["name" := name]
  }

  /** The child loaded from the table, holding foreign key `fk`, over a
      parent table holding `parents`. */
  function Loaded(name: string, fk: Option<int>, parents: map<int, Fields>, nextId: int): State
    requires 0 < nextId && forall id :: id in parents ==> id < nextId
  {
    var c := Child(Named(name), fk);
    State(c, c, TargetModel.Db(parents, nextId), [])
  }

  lemma GetScenario()
    ensures Get(Loaded("get", Some(1), map[1 := Named("get")], 2), {}).result == Ok(Parent(Some(1), Named("get")))
    ensures Get(Loaded("get", Some(1), map[], 2), {}).result == Err(NotFound)
  {
  }

  lemma BuildScenario()
    ensures
      var s := Loaded("build", None, map[], 1);
      var r := Build(s, Named("build"), {});
      && r.result == Ok(Parent(None, Named("build")))
      && r.state.store.parents == map[]
      && r.state.saved == Child(Named("build"), None)
  {
  }

  lemma SetScenario()
    ensures
      var r := Set(Loaded("set", None, map[1 := Named("set")], 2), Parent(Some(1), Named("set")), {});
      && r.state.child.fk == Some(1)
      && r.state.saved == Child(Named("set"), Some(1))
      && r.state.store.parents == map[1 := Named("set")]
  {
  }

  lemma CreateScenario()
    ensures
      var r := Create(Loaded("create", None, map[], 1), Named("create"), {});
      && r.result == Ok(Parent(Some(1), Named("create")))
      && r.state.store.parents == map[1 := Named("create")]
      && r.state.saved == Child(Named("create"), Some(1))
  {
    var s := Loaded("create", None, map[], 1);
    assert Creates(s, Named("create"), {}, Create(s, Named("create"), {}));
  }

  lemma GetOrCreateScenario()
    ensures
      var r := Repetition.GetOrCreateEach(Loaded("getOrCreate", None, map[], 1), [Named("getOrCreate 0"), Named("getOrCreate 1")]);
      && r.results == [Ok(Parent(Some(1), Named("getOrCreate 0"))), Ok(Parent(Some(1), Named("getOrCreate 0")))]
      && r.state.store.parents == map[1 := Named("getOrCreate 0")]
      && r.state.saved == Child(Named("getOrCreate"), Some(1))
  {
    var s := Loaded("getOrCreate", None, map[], 1);
    var ds := [Named("getOrCreate 0"), Named("getOrCreate 1")];
    Repetition.GetOrCreateEachCreatesOnce(s, ds);
  }

  lemma CreateOrUpdateScenario()
    ensures
      var s := Loaded("createOrUpdate", None, map[], 1);
      var r := Repetition.CreateOrUpdateEach(s, [Named("createOrUpdate 0"), Named("createOrUpdate 1")]);
      var first := CreateOrUpdate(s, Named("createOrUpdate 0"), {});
      && r.results[0] == Ok(Parent(Some(1), Named("createOrUpdate 0")))
      && first.state.store.parents == map[1 := Named("createOrUpdate 0")]
      && first.state.saved == Child(Named("createOrUpdate"), Some(1))
      && r.results[1] == Ok(Parent(Some(1), Named("createOrUpdate 1")))
      && r.state.child.fk == Some(1)
      && r.state.store.parents == map[1 := Named("createOrUpdate 1")]
      && r.state.saved == Child(Named("createOrUpdate"), Some(1))
  {
    var s := Loaded("createOrUpdate", None, map[], 1);
    var ds := [Named("createOrUpdate 0"), Named("createOrUpdate 1")];
    var first := Repetition.FirstCreateOrUpdate(s, ds[0]);
    assert first.state.saved == Child(Named("createOrUpdate"), Some(1));
    Repetition.CreateOrUpdateEachCreatesOnce(s, ds);
    Repetition.CreateOrUpdateEachTracksLatest(s, ds);
    assert Repetition.Merged(map[], ds) == Named("createOrUpdate 1");
  }

  lemma UpdateScenario()
    ensures
      var s := Loaded("update", Some(1), map[1 := Named("update")], 2);
      var r := Update(s, Named("updated"), {});
      && r.result == Ok(Parent(Some(1), Named("updated")))
      && r.state.store.parents == map[1 := Named("updated")]
      && r.state.child == s.child
      && r.state.saved == s.saved
  {
    var s := Loaded("update", Some(1), map[1 := Named("update")], 2);
    assert Updates(s, Named("updated"), {}, Update(s, Named("updated"), {}));
    assert Named("update") + Named("updated") == Named("updated");
  }

  lemma RemoveScenario()
    ensures
      var r := Remove(Loaded("remove", Some(1), map[1 := Named("remove")], 2), {});
      && r.result.Ok?
      && r.state.child.fk.None?
      && r.state.store.parents == map[]
      && r.state.saved == Child(Named("remove"), None)
  {
    var m := map[1 := Named("remove")];
    assert m - {1} == map[];
  }
}
