/**
 * `WorkflowManager` and `Reconciler` in their own form: a registry and a health
 * tracker changed step by step under one lock, each call proved to be its step
 * of `WorkflowReconcile`.
 */
module WorkflowManager {
  import opened Options
  import opened WorkflowHealth
  import opened WorkflowReconcile

  class Manager {
    const health: HealthTracker
    var registry: map<Id, string>

    function Now(): World
      reads this, health
    {
      World(registry, health.Now())
    }

    constructor ()
      ensures fresh(health) && health.Valid() && Now() == World(map[], Tracker(map[], false, []))
    {
      registry := map[];
      health := new HealthTracker();
    }

    method Register(id: Id, def: string, engine: Engine) returns (failure: Option<string>)
      modifies this`registry
      ensures registry == Registered(old(registry), id, def, OutcomeOf(engine, id))
      ensures (if failure.Some? then Error(failure.value) else Ok) == HealthOf(OutcomeOf(engine, id))
    {
      match OutcomeOf(engine, id)
      case Loaded =>
        registry := registry[id := def];
        failure := None;
      case TriggerRefused(reason) =>
        registry := registry[id := def];
        failure := Some(reason);
      case Refused(reason) =>
        registry := registry - {id};
        failure := Some(reason);
    }

    method Unregister(id: Id, engine: Engine)
      modifies this`registry
      ensures registry == Unregistered(old(registry), id, engine)
    {
      if id !in engine.stuck {
        registry := registry - {id};
      }
    }

    /** `load`: whatever comes of it reaches the workflow's health. */
    method Load(row: Row, engine: Engine) returns (loaded: bool)
      requires health.Valid() && row.id != ""
      modifies this, health
      ensures health.Valid() && Now() == Loading(old(Now()), row, engine)
      ensures loaded == (row.definition.Readable? && OutcomeOf(engine, row.id).Loaded?)
    {
      var failure;
      match row.definition {
        case Unreadable(reason) => failure := Some(reason);
        case Readable(def) => failure := Register(row.id, def, engine);
      }
      var _ := health.Record(row.id, failure);
      loaded := failure.None?;
    }

    /** The start-up load; `rows` is none when the list could not be read. */
    method LoadWorkflowsFromDB(rows: Option<seq<Row>>, engine: Engine) returns (loadedCount: nat)
      requires health.Valid() && (rows.Some? ==> forall i :: 0 <= i < |rows.value| ==> rows.value[i].id != "")
      modifies this, health
      ensures health.Valid()
      ensures if rows.None? then Now() == old(Now()) else Now() == Step(old(Now()), Action.Load(rows.value, engine))
    {
      loadedCount := 0;
      if rows.None? {
        return;
      }
      var list, i := rows.value, 0;
      while i < |list|
        invariant 0 <= i <= |list| && health.Valid()
        invariant Now() == LoadingAll(old(Now()), list[..i], engine)
      {
        assert list[..i + 1][..i] == list[..i];
        if list[i].enabled {
          var loaded := Load(list[i], engine);
          if loaded {
            loadedCount := loadedCount + 1;
          }
        }
        i := i + 1;
      }
      assert list[..i] == list;
      health.AnnounceSnapshot();
    }

    /** A create or update event; `row` is none when the workflow could not be read or is not there. */
    method HandleWorkflowCreateOrUpdate(row: Option<Row>, engine: Engine) returns (ghost order: seq<Id>)
      requires health.Valid() && (row.Some? ==> row.value.id != "")
      modifies this, health
      ensures health.Valid()
      ensures if row.None? then Now() == old(Now())
              else Enabled(old(Now()), Change(row.value, engine, order))
                   && Now() == Step(old(Now()), Change(row.value, engine, order))
    {
      order := [];
      if row.None? {
        return;
      }
      if !row.value.enabled {
        Unregister(row.value.id, engine);
        order := health.Forget(row.value.id);
        return;
      }
      ghost var cleared := AnyOrder(ErrorsAmong(health.entries, {row.value.id}));
      var _ := Load(row.value, engine);
      order := cleared;
    }

    method HandleWorkflowDelete(id: Id, engine: Engine) returns (ghost order: seq<Id>)
      requires health.Valid()
      modifies this, health
      ensures health.Valid() && Enabled(old(Now()), Action.Delete(id, engine, order))
      ensures Now() == Step(old(Now()), Action.Delete(id, engine, order))
    {
      if id == "" {
        order := AnyOrder(ErrorsAmong(health.entries, {id}));
        return;
      }
      order := health.Forget(id);
      Unregister(id, engine);
    }

    /** `reconcileOnce`; `rows` is none when the list could not be read. */
    method ReconcileOnce(rows: Option<seq<Row>>, engine: Engine) returns (ghost orders: Orders3)
      requires health.Valid() && (rows.Some? ==> forall i :: 0 <= i < |rows.value| ==> rows.value[i].id != "")
      modifies this, health
      ensures health.Valid()
      ensures if rows.None? then Now() == old(Now())
              else Enabled(old(Now()), Reconcile(rows.value, engine, orders))
                   && Now() == Step(old(Now()), Reconcile(rows.value, engine, orders))
    {
      orders := Orders3([], [], []);
      if rows.None? {
        return;
      }
      var desired, enabled := Survey(rows.value);
      var inMem := registry;
      ghost var adds := AddMissing(desired, inMem, engine);
      ghost var all := RetryFailing(desired, inMem, engine);
      ghost var applied := Now();
      RemoveExtra(inMem.Keys - desired.Keys, engine);
      ghost var cleared := health.Retain(enabled);
      health.AnnounceSnapshot();
      orders := Orders3(adds, all, cleared);
    }

    /** What is enabled, what of it can be converted; what cannot is recorded. */
    method Survey(rows: seq<Row>) returns (desired: map<Id, string>, enabled: set<Id>)
      requires health.Valid() && forall i :: 0 <= i < |rows| ==> rows[i].id != ""
      modifies health
      ensures health.Valid() && desired == Desired(rows) && enabled == EnabledIds(rows)
      ensures health.Now() == RecordingUnreadable(old(health.Now()), rows)
      ensures forall id :: id in desired ==> id != ""
    {
      desired, enabled := map[], {};
      var i := 0;
      while i < |rows|
        invariant 0 <= i <= |rows| && health.Valid() && desired == Desired(rows[..i]) && enabled == EnabledIds(rows[..i])
        invariant health.Now() == RecordingUnreadable(old(health.Now()), rows[..i])
        invariant forall id :: id in desired ==> id != ""
      {
        assert rows[..i + 1][..i] == rows[..i];
        var row := rows[i];
        if row.enabled {
          enabled := enabled + {row.id};
          match row.definition
          case Unreadable(reason) => var _ := health.Record(row.id, Some(reason));
          case Readable(def) => desired := desired[row.id := def];
        }
        i := i + 1;
      }
      assert rows[..i] == rows;
    }

    method RegisterAndRecordOne(id: Id, def: string, engine: Engine)
      requires health.Valid() && id != ""
      modifies this`registry, health
      ensures health.Valid() && Now() == RegisterAndRecord(old(Now()), id, def, engine)
    {
      var failure := Register(id, def, engine);
      var _ := health.Record(id, failure);
    }

    method AddMissing(desired: map<Id, string>, inMem: map<Id, string>, engine: Engine) returns (ghost order: seq<Id>)
      requires health.Valid() && forall id :: id in desired ==> id != ""
      modifies this, health
      ensures health.Valid() && Orders(order, desired.Keys - inMem.Keys) && (forall id :: id in order ==> id in desired)
      ensures Now() == Adding(old(Now()), desired, order, engine)
    {
      var todo := desired.Keys;
      order := [];
      while todo != {}
        invariant todo <= desired.Keys && health.Valid()
        invariant Orders(order, desired.Keys - inMem.Keys - todo) && (forall id :: id in order ==> id in desired)
        invariant Now() == Adding(old(Now()), desired, order, engine)
        decreases todo
      {
        hide RegisterAndRecord, Mirrored;
        var id :| id in todo;
        if id !in inMem {
          ghost var next := order + [id];
          assert next[..|order|] == order && next[|order|] == id;
          RegisterAndRecordOne(id, desired[id], engine);
          order := next;
        }
        todo := todo - {id};
      }
      assert desired.Keys - inMem.Keys - {} == desired.Keys - inMem.Keys;
    }

    method RetryFailing(desired: map<Id, string>, inMem: map<Id, string>, engine: Engine) returns (ghost order: seq<Id>)
      requires health.Valid() && forall id :: id in desired ==> id != ""
      modifies this, health
      ensures health.Valid() && Orders(order, desired.Keys) && (forall id :: id in order ==> id in desired)
      ensures Now() == Retrying(old(Now()), desired, inMem, order, engine)
    {
      var todo := desired.Keys;
      order := [];
      while todo != {}
        invariant todo <= desired.Keys && health.Valid()
        invariant Orders(order, desired.Keys - todo) && (forall id :: id in order ==> id in desired)
        invariant Now() == Retrying(old(Now()), desired, inMem, order, engine)
        decreases todo
      {
        hide RegisterAndRecord, Mirrored;
        var id :| id in todo;
        ghost var next := order + [id];
        assert next[..|order|] == order && next[|order|] == id;
        if id in inMem && id in health.entries && health.entries[id].Error? {
          RegisterAndRecordOne(id, desired[id], engine);
        }
        order := next;
        todo := todo - {id};
      }
      assert desired.Keys - {} == desired.Keys;
    }

    method RemoveExtra(extra: set<Id>, engine: Engine)
      modifies this`registry
      ensures registry == Removing(old(registry), extra - engine.stuck)
    {
      var todo := extra;
      while todo != {}
        invariant todo <= extra && registry == Removing(old(registry), extra - todo - engine.stuck)
        decreases todo
      {
        var id :| id in todo;
        assert extra - (todo - {id}) - engine.stuck
            == (extra - todo - engine.stuck) + (if id in engine.stuck then {} else {id});
        Unregister(id, engine);
        todo := todo - {id};
      }
      assert extra - {} - engine.stuck == extra - engine.stuck;
    }
  }

  /** Some order of a finite set. */
  ghost function AnyOrder(keys: set<Id>): (order: seq<Id>)
    ensures Orders(order, keys)
  {
    if keys == {} then []
    else
      var id :| id in keys;
      AnyOrder(keys - {id}) + [id]
  }
}
