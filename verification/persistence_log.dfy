/** Sequences of accessor calls on one child, and the trace they leave.
    Calls are made one after another, as the accessor's methods await each
    collaborator before issuing the next; a rejected call does not stop the
    caller from making the next one.

    The trace is a faithful log: replaying its events over the persisted
    state it started from gives the persisted state the calls end in. */
module PersistenceLog {
  import opened Records
  import BelongsTo

  /** One accessor call, with its argument. */
  datatype Op =
    | Get
    | Build(data: Fields)
    | Set(item: Parent)
    | GetOrCreate(data: Fields)
    | Create(data: Fields)
    | CreateOrUpdate(data: Fields)
    | Update(changes: Fields)
    | Remove

  /** A call, and the collaborator calls that are rejected while it runs. */
  datatype Invocation = Invocation(op: Op, faults: set<Call>)

  /** What persistence holds: the stored parents and the persisted foreign key. */
  datatype Snapshot = Snapshot(parents: map<int, Fields>, savedFk: Option<int>)

  function SnapshotOf(s: BelongsTo.State): Snapshot
  {
    Snapshot(s.store.parents, s.saved.fk)
  }

  /** The effect of one completed write on persistence. */
  function ApplyEvent(p: Snapshot, e: Event): Snapshot
  {
    match e
    case Created(id, data) => p.(parents := p.parents[id := data])
    case Updated(id, changes) =>
      if id in p.parents then p.(parents := p.parents[id := p.parents[id] + changes]) else p
    case Removed(id) => p.(parents := p.parents - {id})
    case ChildSaved(fk) => p.(savedFk := fk)
  }

  function Replay(origin: Snapshot, events: seq<Event>): Snapshot
    decreases |events|
  {
    if events == [] then origin
    else ApplyEvent(Replay(origin, events[..|events| - 1]), events[|events| - 1])
  }

  /** `s`'s trace, replayed from `origin`, yields `s`'s persisted state. */
  ghost predicate Logged(origin: Snapshot, s: BelongsTo.State)
  {
    Replay(origin, s.trace) == SnapshotOf(s)
  }

  /** `s'` extends `s`'s trace, and the whole trace is still faithful. */
  ghost predicate LoggedStep(origin: Snapshot, s: BelongsTo.State, s': BelongsTo.State)
  {
    s.trace <= s'.trace && Logged(origin, s')
  }

  function Perform(s: BelongsTo.State, call: Invocation): BelongsTo.State
  {
    var f := call.faults;
    match call.op
    case Get => BelongsTo.Get(s, f).state
    case Build(data) => BelongsTo.Build(s, data, f).state
    case Set(item) => BelongsTo.Set(s, item, f).state
    case GetOrCreate(data) => BelongsTo.GetOrCreate(s, data, f).state
    case Create(data) => BelongsTo.Create(s, data, f).state
    case CreateOrUpdate(data) => BelongsTo.CreateOrUpdate(s, data, f).state
    case Update(changes) => BelongsTo.Update(s, changes, f).state
    case Remove => BelongsTo.Remove(s, f).state
  }

  function Run(s: BelongsTo.State, calls: seq<Invocation>): BelongsTo.State
    decreases |calls|
  {
    if calls == [] then s else Run(Perform(s, calls[0]), calls[1..])
  }

  lemma ReplaySnoc(origin: Snapshot, events: seq<Event>, e: Event)
    ensures Replay(origin, events + [e]) == ApplyEvent(Replay(origin, events), e)
  {
    assert (events + [e])[..|events|] == events;
  }

  /** Appending one write to a faithful trace keeps it faithful. */
  lemma LoggedSnoc(origin: Snapshot, s: BelongsTo.State, e: Event, s': BelongsTo.State)
    requires Logged(origin, s)
    requires s'.trace == s.trace + [e]
    requires SnapshotOf(s') == ApplyEvent(SnapshotOf(s), e)
    ensures Logged(origin, s')
  {
    ReplaySnoc(origin, s.trace, e);
  }

  /** Two writes in a row, as `create` and a completed `remove` make. */
  lemma LoggedSnoc2(origin: Snapshot, s: BelongsTo.State, e1: Event, e2: Event, s': BelongsTo.State)
    requires Logged(origin, s)
    requires s'.trace == s.trace + [e1, e2]
    requires SnapshotOf(s') == ApplyEvent(ApplyEvent(SnapshotOf(s), e1), e2)
    ensures Logged(origin, s')
  {
    ReplaySnoc(origin, s.trace, e1);
    assert s.trace + [e1, e2] == (s.trace + [e1]) + [e2];
    ReplaySnoc(origin, s.trace + [e1], e2);
  }

  lemma SetLogged(origin: Snapshot, s: BelongsTo.State, item: Parent, faults: set<Call>)
    requires Logged(origin, s)
    ensures LoggedStep(origin, s, BelongsTo.Set(s, item, faults).state)
  {
    if SaveCall !in faults {
      LoggedSnoc(origin, s, ChildSaved(item.id), BelongsTo.Set(s, item, faults).state);
    }
  }

  lemma CreateLogged(origin: Snapshot, s: BelongsTo.State, data: Fields, faults: set<Call>)
    requires Logged(origin, s)
    ensures LoggedStep(origin, s, BelongsTo.Create(s, data, faults).state)
  {
    var r := BelongsTo.Create(s, data, faults);
    assert BelongsTo.Creates(s, data, faults, r);
    if CreateCall !in faults {
      var id := s.store.nextId;
      if SaveCall in faults {
        LoggedSnoc(origin, s, Created(id, data), r.state);
      } else {
        LoggedSnoc2(origin, s, Created(id, data), ChildSaved(Some(id)), r.state);
      }
    }
  }

  lemma UpdateLogged(origin: Snapshot, s: BelongsTo.State, changes: Fields, faults: set<Call>)
    requires Logged(origin, s)
    ensures LoggedStep(origin, s, BelongsTo.Update(s, changes, faults).state)
  {
    var r := BelongsTo.Update(s, changes, faults);
    assert BelongsTo.Updates(s, changes, faults, r);
    if r.result.Ok? {
      LoggedSnoc(origin, s, Updated(s.child.fk.value, changes), r.state);
    }
  }

  lemma RemoveLogged(origin: Snapshot, s: BelongsTo.State, faults: set<Call>)
    requires Logged(origin, s)
    ensures LoggedStep(origin, s, BelongsTo.Remove(s, faults).state)
  {
    var r := BelongsTo.Remove(s, faults);
    if SaveCall !in faults {
      if r.result.Ok? {
        LoggedSnoc2(origin, s, ChildSaved(None), Removed(s.child.fk.value), r.state);
      } else {
        LoggedSnoc(origin, s, ChildSaved(None), r.state);
      }
    }
  }

  lemma GetLogged(origin: Snapshot, s: BelongsTo.State, faults: set<Call>)
    requires Logged(origin, s)
    ensures LoggedStep(origin, s, BelongsTo.Get(s, faults).state)
  {
    assert BelongsTo.Fetches(s, faults, BelongsTo.Get(s, faults));
  }

  lemma GetOrCreateLogged(origin: Snapshot, s: BelongsTo.State, data: Fields, faults: set<Call>)
    requires Logged(origin, s)
    ensures LoggedStep(origin, s, BelongsTo.GetOrCreate(s, data, faults).state)
  {
    if Present(s.child.fk) {
      GetLogged(origin, s, faults);
    } else {
      CreateLogged(origin, s, data, faults);
    }
  }

  lemma CreateOrUpdateLogged(origin: Snapshot, s: BelongsTo.State, data: Fields, faults: set<Call>)
    requires Logged(origin, s)
    ensures LoggedStep(origin, s, BelongsTo.CreateOrUpdate(s, data, faults).state)
  {
    if Present(s.child.fk) {
      UpdateLogged(origin, s, data, faults);
    } else {
      CreateLogged(origin, s, data, faults);
    }
  }

  /** Every accessor call extends the trace, and only by the writes it made. */
  lemma PerformLogged(origin: Snapshot, s: BelongsTo.State, call: Invocation)
    requires Logged(origin, s)
    ensures LoggedStep(origin, s, Perform(s, call))
  {
    var f := call.faults;
    match call.op
    case Get => GetLogged(origin, s, f);
    case Build(data) => assert BelongsTo.Build(s, data, f).state == s;
    case Set(item) => SetLogged(origin, s, item, f);
    case GetOrCreate(data) => GetOrCreateLogged(origin, s, data, f);
    case Create(data) => CreateLogged(origin, s, data, f);
    case CreateOrUpdate(data) => CreateOrUpdateLogged(origin, s, data, f);
    case Update(changes) => UpdateLogged(origin, s, changes, f);
    case Remove => RemoveLogged(origin, s, f);
  }

  /** Any sequence of accessor calls, with any rejections along the way,
      only appends to the trace, and the trace replays to the persisted
      state the calls end in. */
  lemma {:induction false} RunLogged(origin: Snapshot, s: BelongsTo.State, calls: seq<Invocation>)
    requires Logged(origin, s)
    ensures Logged(origin, Run(s, calls))
    ensures s.trace <= Run(s, calls).trace
    decreases |calls|
  {
    if calls != [] {
      var next := Perform(s, calls[0]);
      PerformLogged(origin, s, calls[0]);
      RunLogged(origin, next, calls[1..]);
    }
  }

  /** Starting from an empty trace, the writes the calls leave in the trace
      account for every change to persistence. */
  lemma TraceAccountsForPersistence(s: BelongsTo.State, calls: seq<Invocation>)
    requires s.trace == []
    ensures Replay(SnapshotOf(s), Run(s, calls).trace) == SnapshotOf(Run(s, calls))
  {
    RunLogged(SnapshotOf(s), s, calls);
  }
}
