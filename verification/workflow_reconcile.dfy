/**
 * The manager's loads (`workflow/manager.go`) and the reconciler
 * (`workflow/reconcile.go`) over a registry and the health tracker. All of
 * them hold one lock, so each is a step. What the engine makes of a
 * registration and which removals fail are inputs.
 */
module WorkflowReconcile {
  import opened Options
  import opened WorkflowHealth

  /** A stored workflow's trigger and steps, as converted; or why they cannot be. */
  datatype Definition = Readable(def: string) | Unreadable(reason: string)

  datatype Row = Row(id: Id, enabled: bool, definition: Definition)

  /** A workflow whose trigger was refused is stored all the same; refusing one before that removes what was stored. */
  datatype Outcome = Loaded | TriggerRefused(reason: string) | Refused(reason: string)

  datatype World = World(registry: map<Id, string>, tracker: Tracker)

  /** What the engine answers to each registration, and the removals that fail. */
  datatype Engine = Engine(outcomes: map<Id, Outcome>, stuck: set<Id>)

  function OutcomeOf(engine: Engine, id: Id): Outcome {
    if id in engine.outcomes then engine.outcomes[id] else Loaded
  }

  function HealthOf(outcome: Outcome): Health {
    match outcome
    case Loaded => Ok
    case TriggerRefused(reason) => Error(reason)
    case Refused(reason) => Error(reason)
  }

  function Registered(registry: map<Id, string>, id: Id, def: string, outcome: Outcome): map<Id, string> {
    if outcome.Refused? then registry - {id} else registry[id := def]
  }

  function RegisterAndRecord(w: World, id: Id, def: string, engine: Engine): World {
    var outcome := OutcomeOf(engine, id);
    World(Registered(w.registry, id, def, outcome), Recorded(w.tracker, id, HealthOf(outcome)))
  }

  // ----- the manager --------------------------------------------------------------------------------------

  function Loading(w: World, row: Row, engine: Engine): World {
    match row.definition
    case Unreadable(reason) => w.(tracker := Recorded(w.tracker, row.id, Error(reason)))
    case Readable(def) => RegisterAndRecord(w, row.id, def, engine)
  }

  function LoadingAll(w: World, rows: seq<Row>, engine: Engine): World {
    if rows == [] then w
    else
      var last, before := rows[|rows| - 1], LoadingAll(w, rows[..|rows| - 1], engine);
      if last.enabled then Loading(before, last, engine) else before
  }

  function Unregistered(registry: map<Id, string>, id: Id, engine: Engine): map<Id, string> {
    if id in engine.stuck then registry else registry - {id}
  }

  /** A lifecycle event read its row: a disabled workflow stops, any other is loaded. */
  function Changing(w: World, row: Row, engine: Engine, order: seq<Id>): World {
    if row.enabled then Loading(w, row, engine)
    else World(Unregistered(w.registry, row.id, engine), Forgotten(w.tracker, {row.id}, order))
  }

  function Deleting(w: World, id: Id, engine: Engine, order: seq<Id>): World {
    if id == "" then w else World(Unregistered(w.registry, id, engine), Forgotten(w.tracker, {id}, order))
  }

  // ----- one reconcile pass ---------------------------------------------------------------------------------

  function EnabledIds(rows: seq<Row>): set<Id> {
    if rows == [] then {}
    else
      var last, before := rows[|rows| - 1], EnabledIds(rows[..|rows| - 1]);
      if last.enabled then before + {last.id} else before
  }

  function Desired(rows: seq<Row>): map<Id, string> {
    if rows == [] then map[]
    else
      var last, before := rows[|rows| - 1], Desired(rows[..|rows| - 1]);
      if last.enabled && last.definition.Readable? then before[last.id := last.definition.def] else before
  }

  function RecordingUnreadable(t: Tracker, rows: seq<Row>): Tracker {
    if rows == [] then t
    else
      var last, before := rows[|rows| - 1], RecordingUnreadable(t, rows[..|rows| - 1]);
      if last.enabled && last.definition.Unreadable? then Recorded(before, last.id, Error(last.definition.reason)) else before
  }

  /** Registers what is missing, in the order `adds`. */
  function Adding(w: World, desired: map<Id, string>, adds: seq<Id>, engine: Engine): World
    requires forall id :: id in adds ==> id in desired
  {
    if adds == [] then w
    else
      var init, last := adds[..|adds| - 1], adds[|adds| - 1];
      RegisterAndRecord(Adding(w, desired, init, engine), last, desired[last], engine)
  }

  /** Tries again what is stored but in error, in the order `all`; `before` is the registry the pass began with. */
  function Retrying(w: World, desired: map<Id, string>, before: map<Id, string>, all: seq<Id>, engine: Engine): World
    requires forall id :: id in all ==> id in desired
  {
    if all == [] then w
    else
      var init, last := all[..|all| - 1], all[|all| - 1];
      var w' := Retrying(w, desired, before, init, engine);
      if last in before && last in w'.tracker.entries && w'.tracker.entries[last].Error?
      then RegisterAndRecord(w', last, desired[last], engine) else w'
  }

  function Removing(registry: map<Id, string>, gone: set<Id>): map<Id, string> {
    map id | id in registry && id !in gone :: registry[id]
  }

  /** The orders Go's maps give their keys in during a pass. */
  datatype Orders3 = Orders3(adds: seq<Id>, all: seq<Id>, cleared: seq<Id>)

  /** Up to the removals: unreadable rows are recorded, missing workflows added, failing ones tried again. */
  function Applying(w: World, rows: seq<Row>, engine: Engine, adds: seq<Id>, all: seq<Id>): World
    requires forall id :: id in adds || id in all ==> id in Desired(rows)
  {
    var desired := Desired(rows);
    var recorded := w.(tracker := RecordingUnreadable(w.tracker, rows));
    Retrying(Adding(recorded, desired, adds, engine), desired, w.registry, all, engine)
  }

  function Reconciled(w: World, rows: seq<Row>, engine: Engine, orders: Orders3): World
    requires forall id :: id in orders.adds || id in orders.all ==> id in Desired(rows)
  {
    var applied := Applying(w, rows, engine, orders.adds, orders.all);
    var gone := w.registry.Keys - Desired(rows).Keys - engine.stuck;
    World(Removing(applied.registry, gone),
          Announced(Forgotten(applied.tracker, applied.tracker.entries.Keys - EnabledIds(rows), orders.cleared)))
  }

  ghost predicate PassOrders(w: World, rows: seq<Row>, engine: Engine, orders: Orders3) {
    && Orders(orders.adds, Desired(rows).Keys - w.registry.Keys) && Orders(orders.all, Desired(rows).Keys)
    && (forall id :: id in orders.adds || id in orders.all ==> id in Desired(rows))
    && var entries := Applying(w, rows, engine, orders.adds, orders.all).tracker.entries;
       Orders(orders.cleared, ErrorsAmong(entries, entries.Keys - EnabledIds(rows)))
  }

  // ----- what a pass makes of each workflow -----------------------------------------------------------------

  predicate DistinctRows(rows: seq<Row>) {
    forall i, j :: 0 <= i < j < |rows| ==> rows[i].id != rows[j].id
  }

  /** An unreadable row among the enabled ones, by id. */
  function Broken(rows: seq<Row>): map<Id, string> {
    if rows == [] then map[]
    else
      var last, before := rows[|rows| - 1], Broken(rows[..|rows| - 1]);
      if last.enabled && last.definition.Unreadable? then before[last.id := last.definition.reason] else before
  }

  lemma {:induction false} EnabledAreReadableOrBroken(rows: seq<Row>)
    ensures EnabledIds(rows) == Desired(rows).Keys + Broken(rows).Keys
  {
    if rows != [] {
      EnabledAreReadableOrBroken(rows[..|rows| - 1]);
    }
  }

  lemma {:induction false} NotAmongRows(rows: seq<Row>, id: Id)
    requires forall i :: 0 <= i < |rows| ==> rows[i].id != id
    ensures id !in EnabledIds(rows)
  {
    if rows != [] {
      NotAmongRows(rows[..|rows| - 1], id);
    }
  }

  /** An enabled workflow is readable or it is not. */
  lemma {:induction false} ReadableAreNotBroken(rows: seq<Row>)
    requires DistinctRows(rows)
    ensures Desired(rows).Keys !! Broken(rows).Keys
  {
    if rows != [] {
      var init, last := rows[..|rows| - 1], rows[|rows| - 1];
      ReadableAreNotBroken(init);
      EnabledAreReadableOrBroken(init);
      NotAmongRows(init, last.id);
    }
  }

  lemma {:induction false} RecordingUnreadableRecords(t: Tracker, rows: seq<Row>)
    ensures var t' := RecordingUnreadable(t, rows);
      && t'.announced == t.announced
      && t'.entries.Keys == t.entries.Keys + Broken(rows).Keys
      && forall id :: id in t'.entries ==>
           t'.entries[id] == if id in Broken(rows) then Error(Broken(rows)[id]) else t.entries[id]
  {
    if rows != [] {
      RecordingUnreadableRecords(t, rows[..|rows| - 1]);
    }
  }

  /** What registering one workflow does to each entry. */
  lemma RegisteringRecords(w: World, id: Id, def: string, engine: Engine)
    ensures var w', outcome := RegisterAndRecord(w, id, def, engine), OutcomeOf(engine, id);
      && (forall x :: x in w'.registry <==> if x == id then !outcome.Refused? else x in w.registry)
      && (forall x :: x in w'.registry ==> w'.registry[x] == if x == id then def else w.registry[x])
      && w'.tracker.entries.Keys == w.tracker.entries.Keys + {id}
      && (forall x :: x in w'.tracker.entries ==> w'.tracker.entries[x] == if x == id then HealthOf(outcome) else w.tracker.entries[x])
  {
    hide HealthOf;
  }

  /** Adding touches only what it adds. */
  lemma {:induction false} AddingAdds(w: World, desired: map<Id, string>, adds: seq<Id>, engine: Engine)
    requires forall id :: id in adds ==> id in desired
    ensures var w' := Adding(w, desired, adds, engine);
      && (forall id :: id in w'.registry <==> if id in adds then !OutcomeOf(engine, id).Refused? else id in w.registry)
      && (forall id :: id in w'.registry ==> w'.registry[id] == if id in adds then desired[id] else w.registry[id])
      && (forall id :: id in w'.tracker.entries <==> id in w.tracker.entries || id in adds)
      && (forall id :: id in w'.tracker.entries ==>
            w'.tracker.entries[id] == if id in adds then HealthOf(OutcomeOf(engine, id)) else w.tracker.entries[id])
  {
    if adds != [] {
      var init, last := adds[..|adds| - 1], adds[|adds| - 1];
      assert adds == init + [last];
      AddingAdds(w, desired, init, engine);
      RegisteringRecords(Adding(w, desired, init, engine), last, desired[last], engine);
      hide OutcomeOf, HealthOf, RegisterAndRecord;
    }
  }

  predicate Retried(w: World, before: map<Id, string>, all: seq<Id>, id: Id) {
    id in all && id in before && id in w.tracker.entries && w.tracker.entries[id].Error?
  }

  /** One more workflow's turn to be tried again. */
  lemma RetryingNext(w: World, desired: map<Id, string>, before: map<Id, string>, init: seq<Id>, last: Id, engine: Engine)
    requires forall id :: id in init || id == last ==> id in desired
    ensures var w' := Retrying(w, desired, before, init, engine);
      Retrying(w, desired, before, init + [last], engine)
      == if last in before && last in w'.tracker.entries && w'.tracker.entries[last].Error?
         then RegisterAndRecord(w', last, desired[last], engine) else w'
    ensures forall id :: Retried(w, before, init + [last], id)
                         <==> Retried(w, before, init, id) || (id == last && Retried(w, before, [last], id))
  {
    assert (init + [last])[..|init|] == init;
  }

  lemma {:induction false} RetryingRecords(w: World, desired: map<Id, string>, before: map<Id, string>, all: seq<Id>, engine: Engine)
    requires forall id :: id in all ==> id in desired
    ensures var w' := Retrying(w, desired, before, all, engine);
      && w'.tracker.entries.Keys == w.tracker.entries.Keys
      && (forall id :: id in w'.tracker.entries ==>
            w'.tracker.entries[id] == if Retried(w, before, all, id) then HealthOf(OutcomeOf(engine, id)) else w.tracker.entries[id])
  {
    if all != [] {
      var init, last := all[..|all| - 1], all[|all| - 1];
      assert all == init + [last];
      RetryingRecords(w, desired, before, init, engine);
      RetryingNext(w, desired, before, init, last, engine);
      RegisteringRecords(Retrying(w, desired, before, init, engine), last, desired[last], engine);
      hide OutcomeOf, HealthOf, RegisterAndRecord, Retrying;
    }
  }

  lemma {:induction false} RetryingStores(w: World, desired: map<Id, string>, before: map<Id, string>, all: seq<Id>, engine: Engine)
    requires forall id :: id in all ==> id in desired
    ensures var w' := Retrying(w, desired, before, all, engine);
      && (forall id :: id in w'.registry <==>
            if Retried(w, before, all, id) then !OutcomeOf(engine, id).Refused? else id in w.registry)
      && (forall id :: id in w'.registry ==>
            w'.registry[id] == if Retried(w, before, all, id) then desired[id] else w.registry[id])
  {
    if all != [] {
      var init, last := all[..|all| - 1], all[|all| - 1];
      assert all == init + [last];
      RetryingStores(w, desired, before, init, engine);
      RetryingRecords(w, desired, before, init, engine);
      RetryingNext(w, desired, before, init, last, engine);
      RegisteringRecords(Retrying(w, desired, before, init, engine), last, desired[last], engine);
      hide OutcomeOf, HealthOf, RegisterAndRecord, Retrying;
    }
  }

  /** Trying again touches only what was stored and in error. */
  lemma RetryingRetries(w: World, desired: map<Id, string>, before: map<Id, string>, all: seq<Id>, engine: Engine)
    requires forall id :: id in all ==> id in desired
    ensures var w' := Retrying(w, desired, before, all, engine);
      && (forall id :: id in w'.registry <==>
            if Retried(w, before, all, id) then !OutcomeOf(engine, id).Refused? else id in w.registry)
      && (forall id :: id in w'.registry ==>
            w'.registry[id] == if Retried(w, before, all, id) then desired[id] else w.registry[id])
      && w'.tracker.entries.Keys == w.tracker.entries.Keys
      && (forall id :: id in w'.tracker.entries ==>
            w'.tracker.entries[id] == if Retried(w, before, all, id) then HealthOf(OutcomeOf(engine, id)) else w.tracker.entries[id])
  {
    RetryingStores(w, desired, before, all, engine);
    RetryingRecords(w, desired, before, all, engine);
    hide Retrying, Retried, OutcomeOf, HealthOf;
  }

  /** Where the registry and the tracker stand once the stored workflows are reflected in both. */
  ghost predicate Reflects(w: World, rows: seq<Row>) {
    && w.registry.Keys == Desired(rows).Keys && w.tracker.entries.Keys == EnabledIds(rows) && w.tracker.announced
    && (forall id :: id in Desired(rows) ==> id in w.tracker.entries && w.tracker.entries[id] == Ok)
    && (forall id :: id in Broken(rows) ==> id in w.tracker.entries && w.tracker.entries[id] == Error(Broken(rows)[id]))
  }

  /** Every workflow the engine already runs and is meant to run has had its health recorded. */
  predicate StoredAreTracked(w: World, rows: seq<Row>) {
    forall id :: id in w.registry && id in Desired(rows) ==> id in w.tracker.entries
  }

  /** A pass registers a workflow that is missing or in error. */
  predicate Tried(w: World, id: Id) {
    id !in w.registry || (id in w.tracker.entries && w.tracker.entries[id].Error?)
  }

  /** The registry and entries after the first two phases. */
  lemma AddingAfterRecording(w: World, rows: seq<Row>, engine: Engine, adds: seq<Id>)
    requires DistinctRows(rows) && Orders(adds, Desired(rows).Keys - w.registry.Keys)
    requires forall id :: id in adds ==> id in Desired(rows)
    ensures var w' := Adding(w.(tracker := RecordingUnreadable(w.tracker, rows)), Desired(rows), adds, engine);
      && (forall id :: id in w'.registry <==> id in w.registry || (id in Desired(rows) && !OutcomeOf(engine, id).Refused?))
      && (forall id :: id in w'.registry ==> w'.registry[id] == if id in w.registry then w.registry[id] else Desired(rows)[id])
      && (forall id :: id in w'.tracker.entries <==> id in w.tracker.entries || id in adds || id in Broken(rows))
      && (forall id :: id in Broken(rows) ==> w'.tracker.entries[id] == Error(Broken(rows)[id]))
      && (forall id :: id in adds ==> w'.tracker.entries[id] == HealthOf(OutcomeOf(engine, id)))
      && (forall id :: id in w.tracker.entries && id !in adds && id !in Broken(rows) ==>
            w'.tracker.entries[id] == w.tracker.entries[id])
  {
    RecordingUnreadableRecords(w.tracker, rows);
    ReadableAreNotBroken(rows);
    AddingAdds(w.(tracker := RecordingUnreadable(w.tracker, rows)), Desired(rows), adds, engine);
    hide Adding, RecordingUnreadable, Desired, Broken, DistinctRows, OutcomeOf, HealthOf;
  }

  /** What the three phases before the removals leave in the registry. */
  lemma ApplyingStores(w: World, rows: seq<Row>, engine: Engine, adds: seq<Id>, all: seq<Id>)
    requires DistinctRows(rows) && Orders(adds, Desired(rows).Keys - w.registry.Keys) && Orders(all, Desired(rows).Keys)
    requires forall id :: id in adds || id in all ==> id in Desired(rows)
    ensures var w' := Applying(w, rows, engine, adds, all);
      && (forall id :: id in w'.registry ==> id in w.registry || id in Desired(rows))
      && (forall id :: id in Desired(rows) ==> (id in w'.registry <==> !(Tried(w, id) && OutcomeOf(engine, id).Refused?)))
      && (forall id :: id in Desired(rows) && id in w'.registry ==>
            w'.registry[id] == if Tried(w, id) then Desired(rows)[id] else w.registry[id])
  {
    AddingAfterRecording(w, rows, engine, adds);
    ReadableAreNotBroken(rows);
    var added := Adding(w.(tracker := RecordingUnreadable(w.tracker, rows)), Desired(rows), adds, engine);
    RetryingRetries(added, Desired(rows), w.registry, all, engine);
    assert Applying(w, rows, engine, adds, all) == Retrying(added, Desired(rows), w.registry, all, engine);
    hide Adding, Retrying, RecordingUnreadable, Desired, Broken, DistinctRows, Applying, OutcomeOf, HealthOf;
    forall id | id in Desired(rows) ensures Retried(added, w.registry, all, id) <==> id in w.registry && Tried(w, id) {
    }
  }

  /** What they leave in the tracker. */
  lemma ApplyingRecords(w: World, rows: seq<Row>, engine: Engine, adds: seq<Id>, all: seq<Id>)
    requires DistinctRows(rows) && Orders(adds, Desired(rows).Keys - w.registry.Keys) && Orders(all, Desired(rows).Keys)
    requires forall id :: id in adds || id in all ==> id in Desired(rows)
    ensures var w' := Applying(w, rows, engine, adds, all);
      && (forall id :: id in w'.tracker.entries <==> id in w.tracker.entries || id in adds || id in Broken(rows))
      && (forall id :: id in Broken(rows) ==> w'.tracker.entries[id] == Error(Broken(rows)[id]))
      && (forall id :: id in w'.tracker.entries && id in Desired(rows) ==>
            w'.tracker.entries[id] == if Tried(w, id) then HealthOf(OutcomeOf(engine, id)) else Ok)
  {
    AddingAfterRecording(w, rows, engine, adds);
    ReadableAreNotBroken(rows);
    var added := Adding(w.(tracker := RecordingUnreadable(w.tracker, rows)), Desired(rows), adds, engine);
    RetryingRetries(added, Desired(rows), w.registry, all, engine);
    assert Applying(w, rows, engine, adds, all) == Retrying(added, Desired(rows), w.registry, all, engine);
    hide Adding, Retrying, RecordingUnreadable, Desired, Broken, DistinctRows, Applying, OutcomeOf, HealthOf;
    assert forall id :: id in Broken(rows) ==> !Retried(added, w.registry, all, id);
    forall id | id in Desired(rows) && id in added.tracker.entries
      ensures Retried(added, w.registry, all, id) <==> id in w.registry && Tried(w, id)
      ensures id in adds || id in w.registry
    {
    }
  }

  /** What the last two phases of a pass make of the tracker. */
  lemma RetainingRetains(applied: Tracker, keep: set<Id>, order: seq<Id>)
    ensures var t := Announced(Forgotten(applied, applied.entries.Keys - keep, order));
      && t.announced && t.entries.Keys == applied.entries.Keys * keep
      && forall id :: id in t.entries ==> t.entries[id] == applied.entries[id]
  {
  }

  /** With removals succeeding, a pass stores the readable workflows but those refused when it tried them. */
  lemma PassStores(w: World, rows: seq<Row>, engine: Engine, orders: Orders3)
    requires DistinctRows(rows) && PassOrders(w, rows, engine, orders) && engine.stuck == {}
    ensures var w' := Reconciled(w, rows, engine, orders);
      && (forall id :: id in w'.registry <==> id in Desired(rows) && !(Tried(w, id) && OutcomeOf(engine, id).Refused?))
      && (forall id :: id in w'.registry ==> w'.registry[id] == if Tried(w, id) then Desired(rows)[id] else w.registry[id])
  {
    ApplyingStores(w, rows, engine, orders.adds, orders.all);
    hide Applying, Desired, EnabledIds, DistinctRows, Forgotten, Announced, OutcomeOf, Orders;
  }

  /** It tracks the unreadable workflows and the readable ones that were tracked or new, each with its outcome. */
  lemma PassTracks(w: World, rows: seq<Row>, engine: Engine, orders: Orders3)
    requires DistinctRows(rows) && PassOrders(w, rows, engine, orders)
    ensures var t := Reconciled(w, rows, engine, orders).tracker;
      && t.announced
      && (forall id :: id in t.entries <==>
            id in Broken(rows) || (id in Desired(rows) && (id in w.tracker.entries || id !in w.registry)))
      && (forall id :: id in t.entries && id in Desired(rows) ==>
            t.entries[id] == if Tried(w, id) then HealthOf(OutcomeOf(engine, id)) else Ok)
      && (forall id :: id in Broken(rows) ==> t.entries[id] == Error(Broken(rows)[id]))
  {
    var applied := Applying(w, rows, engine, orders.adds, orders.all);
    ApplyingRecords(w, rows, engine, orders.adds, orders.all);
    EnabledAreReadableOrBroken(rows);
    RetainingRetains(applied.tracker, EnabledIds(rows), orders.cleared);
    assert forall id :: id in orders.adds <==> id in Desired(rows) && id !in w.registry;
    hide PassOrders, Applying, Desired, Broken, EnabledIds, DistinctRows, Forgotten, Announced, OutcomeOf, HealthOf, Orders, Removing, Tried;
  }

  /**
   * With registrations and removals succeeding, one pass from any state leaves
   * the registry holding exactly the enabled readable workflows, and the tracker
   * exactly the enabled ones with their outcomes - the latter if and only if
   * every enabled workflow already stored was tracked.
   */
  lemma PassReflectsIfTracked(w: World, rows: seq<Row>, engine: Engine, orders: Orders3)
    requires DistinctRows(rows) && PassOrders(w, rows, engine, orders)
    requires engine.stuck == {} && forall id :: id in Desired(rows) ==> OutcomeOf(engine, id).Loaded?
    ensures Reconciled(w, rows, engine, orders).registry.Keys == Desired(rows).Keys
    ensures Reflects(Reconciled(w, rows, engine, orders), rows) <==> StoredAreTracked(w, rows)
  {
    PassStores(w, rows, engine, orders);
    PassTracks(w, rows, engine, orders);
    EnabledAreReadableOrBroken(rows);
    ReadableAreNotBroken(rows);
    assert forall id :: id in Desired(rows) ==> HealthOf(OutcomeOf(engine, id)) == Ok && !OutcomeOf(engine, id).Refused?;
    hide PassOrders, Desired, Broken, EnabledIds, DistinctRows, Reconciled, OutcomeOf, Tried, HealthOf;
    assert Reconciled(w, rows, engine, orders).registry.Keys == Desired(rows).Keys;
    TrackedReflects(w, Reconciled(w, rows, engine, orders), rows);
  }

  /** What a successful pass leaves reflects the list exactly when nothing stored was left out of the tracker. */
  lemma TrackedReflects(w: World, w': World, rows: seq<Row>)
    requires w'.registry.Keys == Desired(rows).Keys && w'.tracker.announced && EnabledIds(rows) == Desired(rows).Keys + Broken(rows).Keys
    requires Desired(rows).Keys !! Broken(rows).Keys
    requires forall id :: id in w'.tracker.entries <==>
      id in Broken(rows) || (id in Desired(rows) && (id in w.tracker.entries || id !in w.registry))
    requires forall id :: id in w'.tracker.entries && id in Desired(rows) ==> w'.tracker.entries[id] == Ok
    requires forall id :: id in Broken(rows) ==> w'.tracker.entries[id] == Error(Broken(rows)[id])
    ensures Reflects(w', rows) <==> StoredAreTracked(w, rows)
  {
    hide Desired, Broken, EnabledIds;
    if StoredAreTracked(w, rows) {
      assert w'.tracker.entries.Keys == EnabledIds(rows);
    }
  }

  // ----- a second pass --------------------------------------------------------------------------------------

  lemma {:induction false} RecordingAgainIsSilent(t: Tracker, rows: seq<Row>, all: seq<Row>)
    requires rows <= all && DistinctRows(all)
    requires forall id :: id in Broken(all) ==> id in t.entries && t.entries[id] == Error(Broken(all)[id])
    ensures RecordingUnreadable(t, rows) == t
  {
    if rows != [] {
      var init, last := rows[..|rows| - 1], rows[|rows| - 1];
      RecordingAgainIsSilent(t, init, all);
      if last.enabled && last.definition.Unreadable? {
        BrokenAt(all, |rows| - 1);
      }
    }
  }

  lemma {:induction false} BrokenAt(rows: seq<Row>, i: nat)
    requires DistinctRows(rows) && i < |rows| && rows[i].enabled && rows[i].definition.Unreadable?
    ensures rows[i].id in Broken(rows) && Broken(rows)[rows[i].id] == rows[i].definition.reason
  {
    if i < |rows| - 1 {
      BrokenAt(rows[..|rows| - 1], i);
    }
  }

  lemma {:induction false} RetryingNothing(w: World, desired: map<Id, string>, before: map<Id, string>, all: seq<Id>, engine: Engine)
    requires forall id :: id in all ==> id in desired && (id in w.tracker.entries ==> w.tracker.entries[id].Ok?)
    ensures Retrying(w, desired, before, all, engine) == w
  {
    if all != [] {
      RetryingNothing(w, desired, before, all[..|all| - 1], engine);
      assert all[|all| - 1] in all;
    }
  }

  /** A pass over the same list changes and publishes nothing, whatever the engine would answer. */
  lemma SecondPassIsSilent(w: World, rows: seq<Row>, engine: Engine, orders: Orders3)
    requires DistinctRows(rows) && Reflects(w, rows) && PassOrders(w, rows, engine, orders)
    ensures Reconciled(w, rows, engine, orders) == w
  {
    RecordingAgainIsSilent(w.tracker, rows, rows);
    NothingOrdered(orders.adds);
    RetryingNothing(w, Desired(rows), w.registry, orders.all, engine);
    assert Applying(w, rows, engine, orders.adds, orders.all) == w;
    NothingLeftToDrop(w, rows, engine, orders);
  }

  lemma NothingOrdered(order: seq<Id>)
    ensures Orders(order, {}) ==> order == []
  {
    if order != [] {
      assert order[0] in order;
    }
  }

  /**
   * Where a pass leaves things whatever the engine answers: a readable workflow
   * runs and is ok, or is in error for the engine's own reason and stored if it
   * was only its trigger that was refused.
   */
  ghost predicate Settled(w: World, rows: seq<Row>, engine: Engine) {
    && w.tracker.announced && w.tracker.entries.Keys == EnabledIds(rows) && w.registry.Keys <= Desired(rows).Keys
    && (forall id :: id in Broken(rows) ==> id in w.tracker.entries && w.tracker.entries[id] == Error(Broken(rows)[id]))
    && (forall id :: id in Desired(rows) ==> SettledAt(w, id, Desired(rows)[id], OutcomeOf(engine, id)))
  }

  predicate SettledAt(w: World, id: Id, def: string, outcome: Outcome) {
    && id in w.tracker.entries
    && (w.tracker.entries[id].Ok? ==> id in w.registry)
    && (w.tracker.entries[id].Error? ==>
          && w.tracker.entries[id] == HealthOf(outcome)
          && (id in w.registry <==> !outcome.Refused?) && (id in w.registry ==> w.registry[id] == def))
  }

  /** With removals succeeding, a pass over tracked workflows settles, whatever registrations do. */
  lemma PassSettles(w: World, rows: seq<Row>, engine: Engine, orders: Orders3)
    requires DistinctRows(rows) && PassOrders(w, rows, engine, orders) && engine.stuck == {} && StoredAreTracked(w, rows)
    ensures Settled(Reconciled(w, rows, engine, orders), rows, engine)
  {
    PassStores(w, rows, engine, orders);
    PassTracks(w, rows, engine, orders);
    EnabledAreReadableOrBroken(rows);
    hide PassOrders, Desired, Broken, EnabledIds, DistinctRows, Reconciled, OutcomeOf;
    var w' := Reconciled(w, rows, engine, orders);
    forall id | id in Desired(rows) ensures SettledAt(w', id, Desired(rows)[id], OutcomeOf(engine, id)) {
    }
    hide SettledAt, Tried;
  }

  lemma {:induction false} AddingNothing(w: World, desired: map<Id, string>, adds: seq<Id>, engine: Engine)
    requires forall id :: id in adds ==> id in desired && RegisterAndRecord(w, id, desired[id], engine) == w
    ensures Adding(w, desired, adds, engine) == w
  {
    if adds != [] {
      AddingNothing(w, desired, adds[..|adds| - 1], engine);
      assert adds[|adds| - 1] in adds;
    }
  }

  lemma {:induction false} RetryingTheSame(w: World, desired: map<Id, string>, before: map<Id, string>, all: seq<Id>, engine: Engine)
    requires forall id :: id in all ==> id in desired
    requires forall id :: Retried(w, before, all, id) ==> id in desired && RegisterAndRecord(w, id, desired[id], engine) == w
    ensures Retrying(w, desired, before, all, engine) == w
  {
    if all != [] {
      assert all[|all| - 1] in all;
      RetryingTheSame(w, desired, before, all[..|all| - 1], engine);
      hide RegisterAndRecord;
    }
  }

  /** Refusing a workflow again, for the same reason, changes and publishes nothing. */
  lemma TryingAgainChangesNothing(w: World, id: Id, def: string, engine: Engine)
    requires SettledAt(w, id, def, OutcomeOf(engine, id)) && w.tracker.entries[id].Error?
    ensures RegisterAndRecord(w, id, def, engine) == w
  {
  }

  /** Trying a settled list again, with the same answers, changes and publishes nothing. */
  lemma SettledPassIsSilent(w: World, rows: seq<Row>, engine: Engine, orders: Orders3)
    requires DistinctRows(rows) && Settled(w, rows, engine) && PassOrders(w, rows, engine, orders)
    ensures Reconciled(w, rows, engine, orders) == w
  {
    RecordingAgainIsSilent(w.tracker, rows, rows);
    forall id | id in Desired(rows) && (id !in w.registry || w.tracker.entries[id].Error?)
      ensures RegisterAndRecord(w, id, Desired(rows)[id], engine) == w
    {
      assert SettledAt(w, id, Desired(rows)[id], OutcomeOf(engine, id));
      TryingAgainChangesNothing(w, id, Desired(rows)[id], engine);
    }
    assert forall id :: id in Desired(rows) ==> SettledAt(w, id, Desired(rows)[id], OutcomeOf(engine, id)) && id in w.tracker.entries;
    hide RegisterAndRecord, SettledAt;
    AddingNothing(w, Desired(rows), orders.adds, engine);
    RetryingTheSame(w, Desired(rows), w.registry, orders.all, engine);
    assert Applying(w, rows, engine, orders.adds, orders.all) == w;
    NothingLeftToDrop(w, rows, engine, orders);
  }

  /** The last phases find nothing to remove or forget. */
  lemma NothingLeftToDrop(w: World, rows: seq<Row>, engine: Engine, orders: Orders3)
    requires PassOrders(w, rows, engine, orders) && Applying(w, rows, engine, orders.adds, orders.all) == w
    requires w.tracker.announced && w.tracker.entries.Keys == EnabledIds(rows) && w.registry.Keys <= Desired(rows).Keys
    ensures Reconciled(w, rows, engine, orders) == w
  {
    assert w.tracker.entries.Keys - EnabledIds(rows) == {};
    NothingOrdered(orders.cleared);
    assert Removing(w.registry, w.registry.Keys - Desired(rows).Keys - engine.stuck) == w.registry;
    assert Forgotten(w.tracker, {}, []) == w.tracker by {
      assert w.tracker.published + AllOk([]) == w.tracker.published;
    }
  }

  // ----- the mirror over every run --------------------------------------------------------------------------

  /** What holds the lock: the start-up load, a lifecycle event, a delete, or a reconcile pass; a failed read does nothing. */
  datatype Action =
    | Load(rows: seq<Row>, engine: Engine)
    | Change(row: Row, engine: Engine, order: seq<Id>)
    | Delete(id: Id, engine: Engine, order: seq<Id>)
    | Reconcile(rows: seq<Row>, engine: Engine, orders: Orders3)

  ghost predicate Enabled(w: World, a: Action) {
    match a
    case Load(_, _) => true
    case Change(row, _, order) => Orders(order, ErrorsAmong(w.tracker.entries, {row.id}))
    case Delete(id, _, order) => Orders(order, ErrorsAmong(w.tracker.entries, {id}))
    case Reconcile(rows, engine, orders) => PassOrders(w, rows, engine, orders)
  }

  ghost function Step(w: World, a: Action): World
    requires Enabled(w, a)
  {
    match a
    case Load(rows, engine) => var loaded := LoadingAll(w, rows, engine); loaded.(tracker := Announced(loaded.tracker))
    case Change(row, engine, order) => Changing(w, row, engine, order)
    case Delete(id, engine, order) => Deleting(w, id, engine, order)
    case Reconcile(rows, engine, orders) => Reconciled(w, rows, engine, orders)
  }

  lemma {:induction false} LoadingKeepsMirror(w: World, rows: seq<Row>, engine: Engine)
    requires Mirrored(w.tracker)
    ensures Mirrored(LoadingAll(w, rows, engine).tracker)
  {
    if rows != [] {
      LoadingKeepsMirror(w, rows[..|rows| - 1], engine);
      LoadKeepsMirror(LoadingAll(w, rows[..|rows| - 1], engine), rows[|rows| - 1], engine);
    }
  }

  lemma LoadKeepsMirror(w: World, row: Row, engine: Engine)
    requires Mirrored(w.tracker)
    ensures Mirrored(Loading(w, row, engine).tracker)
  {
    match row.definition
    case Unreadable(reason) => RecordKeepsMirror(w.tracker, row.id, Error(reason));
    case Readable(_) => RecordKeepsMirror(w.tracker, row.id, HealthOf(OutcomeOf(engine, row.id)));
  }

  lemma {:induction false} RecordingKeepsMirror(t: Tracker, rows: seq<Row>)
    requires Mirrored(t)
    ensures Mirrored(RecordingUnreadable(t, rows))
  {
    if rows != [] {
      var last, before := rows[|rows| - 1], RecordingUnreadable(t, rows[..|rows| - 1]);
      RecordingKeepsMirror(t, rows[..|rows| - 1]);
      if last.definition.Unreadable? {
        RecordKeepsMirror(before, last.id, Error(last.definition.reason));
      }
    }
  }

  lemma {:induction false} AddingKeepsMirror(w: World, desired: map<Id, string>, adds: seq<Id>, engine: Engine)
    requires Mirrored(w.tracker) && forall id :: id in adds ==> id in desired
    ensures Mirrored(Adding(w, desired, adds, engine).tracker)
  {
    if adds != [] {
      var init, last := adds[..|adds| - 1], adds[|adds| - 1];
      AddingKeepsMirror(w, desired, init, engine);
      RecordKeepsMirror(Adding(w, desired, init, engine).tracker, last, HealthOf(OutcomeOf(engine, last)));
      hide Mirrored;
    }
  }

  lemma {:induction false} RetryingKeepsMirror(w: World, desired: map<Id, string>, before: map<Id, string>, all: seq<Id>, engine: Engine)
    requires Mirrored(w.tracker) && forall id :: id in all ==> id in desired
    ensures Mirrored(Retrying(w, desired, before, all, engine).tracker)
  {
    if all != [] {
      var init, last := all[..|all| - 1], all[|all| - 1];
      RetryingKeepsMirror(w, desired, before, init, engine);
      RecordKeepsMirror(Retrying(w, desired, before, init, engine).tracker, last, HealthOf(OutcomeOf(engine, last)));
      hide Mirrored;
    }
  }

  lemma PassKeepsMirror(w: World, rows: seq<Row>, engine: Engine, orders: Orders3)
    requires Mirrored(w.tracker) && PassOrders(w, rows, engine, orders)
    ensures Mirrored(Reconciled(w, rows, engine, orders).tracker)
  {
    hide Mirrored, Orders, Adding, Retrying;
    var recorded := w.(tracker := RecordingUnreadable(w.tracker, rows));
    RecordingKeepsMirror(w.tracker, rows);
    AddingKeepsMirror(recorded, Desired(rows), orders.adds, engine);
    RetryingKeepsMirror(Adding(recorded, Desired(rows), orders.adds, engine), Desired(rows), w.registry, orders.all, engine);
    var applied := Applying(w, rows, engine, orders.adds, orders.all).tracker;
    hide Applying, Desired, Forgotten, Announced;
    ForgetKeepsMirror(applied, applied.entries.Keys - EnabledIds(rows), orders.cleared);
    AnnounceKeepsMirror(Forgotten(applied, applied.entries.Keys - EnabledIds(rows), orders.cleared));
  }

  ghost predicate IsRun(worlds: seq<World>, actions: seq<Action>) {
    && |worlds| == |actions| + 1 && worlds[0] == World(map[], Tracker(map[], false, []))
    && forall i :: 0 <= i < |actions| ==> Enabled(worlds[i], actions[i]) && worlds[i + 1] == Step(worlds[i], actions[i])
  }

  // ----- passes in every run --------------------------------------------------------------------------------

  /** What the registry holds without a health. */
  function Untracked(w: World): set<Id> { w.registry.Keys - w.tracker.entries.Keys }

  /** The removals the registry fails during a step. */
  function FailingRemovals(a: Action): set<Id> {
    if a.Load? || (a.Change? && a.row.enabled) then {} else a.engine.stuck
  }

  function FailedRemovals(actions: seq<Action>, n: nat): set<Id>
    requires n <= |actions|
  {
    if n == 0 then {} else FailedRemovals(actions, n - 1) + FailingRemovals(actions[n - 1])
  }

  /** Nothing stops being tracked, and whatever is newly stored is tracked. */
  predicate Covers(w: World, w': World) {
    && (forall id :: id in w.tracker.entries ==> id in w'.tracker.entries)
    && (forall id :: id in w'.registry ==> id in w.registry || id in w'.tracker.entries)
  }

  lemma LoadCovers(w: World, row: Row, engine: Engine)
    ensures Covers(w, Loading(w, row, engine))
  {
  }

  lemma {:induction false} LoadingCovers(w: World, rows: seq<Row>, engine: Engine)
    ensures Covers(w, LoadingAll(w, rows, engine))
  {
    if rows != [] {
      LoadingCovers(w, rows[..|rows| - 1], engine);
      LoadCovers(LoadingAll(w, rows[..|rows| - 1], engine), rows[|rows| - 1], engine);
      hide Loading;
    }
  }

  lemma {:induction false} RetryingCovers(w: World, desired: map<Id, string>, before: map<Id, string>, all: seq<Id>, engine: Engine)
    requires forall id :: id in all ==> id in desired
    ensures Covers(w, Retrying(w, desired, before, all, engine))
  {
    if all != [] {
      RetryingCovers(w, desired, before, all[..|all| - 1], engine);
    }
  }

  lemma ApplyingCovers(w: World, rows: seq<Row>, engine: Engine, adds: seq<Id>, all: seq<Id>)
    requires forall id :: id in adds || id in all ==> id in Desired(rows)
    ensures Covers(w, Applying(w, rows, engine, adds, all))
    ensures forall id :: id in Applying(w, rows, engine, adds, all).registry ==> id in w.registry || id in Desired(rows)
  {
    var recorded := w.(tracker := RecordingUnreadable(w.tracker, rows));
    RecordingUnreadableRecords(w.tracker, rows);
    AddingAdds(recorded, Desired(rows), adds, engine);
    RetryingCovers(Adding(recorded, Desired(rows), adds, engine), Desired(rows), w.registry, all, engine);
    RetryingRetries(Adding(recorded, Desired(rows), adds, engine), Desired(rows), w.registry, all, engine);
    hide RecordingUnreadable, Adding, Retrying, Desired, Broken, OutcomeOf, HealthOf;
  }

  lemma PassUntracks(w: World, rows: seq<Row>, engine: Engine, orders: Orders3)
    requires PassOrders(w, rows, engine, orders)
    ensures Untracked(Reconciled(w, rows, engine, orders)) <= Untracked(w) + engine.stuck
  {
    var applied := Applying(w, rows, engine, orders.adds, orders.all);
    ApplyingCovers(w, rows, engine, orders.adds, orders.all);
    EnabledAreReadableOrBroken(rows);
    RetainingRetains(applied.tracker, EnabledIds(rows), orders.cleared);
    hide PassOrders, Applying, Desired, Broken, EnabledIds, Forgotten, Announced;
  }

  /** Only a removal that fails leaves a workflow stored without its health. */
  lemma StepUntracks(w: World, a: Action)
    requires Enabled(w, a)
    ensures Untracked(Step(w, a)) <= Untracked(w) + FailingRemovals(a)
  {
    match a
    case Load(rows, engine) => LoadingCovers(w, rows, engine);
    case Change(row, engine, _) =>
      if row.enabled {
        LoadCovers(w, row, engine);
      }
    case Delete(_, _, _) =>
    case Reconcile(rows, engine, orders) =>
      PassUntracks(w, rows, engine, orders);
      hide Reconciled;
  }

  /** In every state of every run, what is stored without its health is what some removal failed on. */
  lemma {:induction false} UntrackedWereNotRemoved(worlds: seq<World>, actions: seq<Action>, n: nat)
    requires IsRun(worlds, actions) && n < |worlds|
    ensures Untracked(worlds[n]) <= FailedRemovals(actions, n)
  {
    if n > 0 {
      UntrackedWereNotRemoved(worlds, actions, n - 1);
      assert worlds[n - 1 + 1] == Step(worlds[n - 1], actions[n - 1]);
      StepUntracks(worlds[n - 1], actions[n - 1]);
      hide Step, Untracked;
    }
  }

  /**
   * In every run, a pass whose registrations and removals succeed, over a list
   * no workflow of which had a removal fail before, leaves the registry holding
   * exactly the enabled readable workflows and the tracker exactly the enabled
   * ones with their outcomes.
   */
  lemma OnePassConverges(worlds: seq<World>, actions: seq<Action>, n: nat, rows: seq<Row>, engine: Engine, orders: Orders3)
    requires IsRun(worlds, actions) && n < |actions| && actions[n] == Reconcile(rows, engine, orders) && DistinctRows(rows)
    requires FailedRemovals(actions, n) !! Desired(rows).Keys
    requires engine.stuck == {} && forall id :: id in Desired(rows) ==> OutcomeOf(engine, id).Loaded?
    ensures Reflects(worlds[n + 1], rows)
  {
    UntrackedWereNotRemoved(worlds, actions, n);
    assert PassOrders(worlds[n], rows, engine, orders) && worlds[n + 1] == Reconciled(worlds[n], rows, engine, orders);
    hide Desired, DistinctRows, Reconciled, PassOrders, Reflects, FailedRemovals;
    assert StoredAreTracked(worlds[n], rows);
    PassReflectsIfTracked(worlds[n], rows, engine, orders);
  }

  /**
   * In every run whose removals succeed, a pass and then another over the same
   * list: the second changes and publishes nothing, if the engine gives the
   * same answers, or gave good ones the first time.
   */
  lemma TwoPassesAreOne(worlds: seq<World>, actions: seq<Action>, n: nat, rows: seq<Row>, first: Engine, second: Engine,
                        orders: Orders3, orders': Orders3)
    requires IsRun(worlds, actions) && n + 1 < |actions| && DistinctRows(rows)
    requires actions[n] == Reconcile(rows, first, orders) && actions[n + 1] == Reconcile(rows, second, orders')
    requires FailedRemovals(actions, n) !! Desired(rows).Keys && first.stuck == {}
    requires second == first || forall id :: id in Desired(rows) ==> OutcomeOf(first, id).Loaded?
    ensures worlds[n + 2] == worlds[n + 1]
  {
    var w := worlds[n + 1];
    assert PassOrders(worlds[n], rows, first, orders) && w == Reconciled(worlds[n], rows, first, orders);
    assert PassOrders(w, rows, second, orders') && worlds[n + 1 + 1] == Reconciled(w, rows, second, orders');
    UntrackedWereNotRemoved(worlds, actions, n);
    hide Desired, DistinctRows, Reconciled, PassOrders, Reflects, Settled, FailedRemovals;
    assert StoredAreTracked(worlds[n], rows);
    if second == first {
      PassSettles(worlds[n], rows, first, orders);
      SettledPassIsSilent(w, rows, second, orders');
    } else {
      PassReflectsIfTracked(worlds[n], rows, first, orders);
      SecondPassIsSilent(w, rows, second, orders');
    }
  }

  // ----- a registry that could fail a removal -----------------------------------------------------------------

  /**
   * What the condition on earlier removals is for: a run in which a disable's
   * removal fails, the enable that follows is missed, and every later pass
   * leaves the workflow stored and without a health. The engine's own registry
   * fails no removal.
   */
  lemma UntrackedStaysUntracked() returns (worlds: seq<World>, actions: seq<Action>)
    ensures IsRun(worlds, actions) && |actions| == 4 && actions[2] == actions[3] && actions[3].Reconcile?
    ensures actions[3].rows == [Row("a", true, Readable("d"))] && actions[3].engine == Engine(map[], {})
    ensures worlds[4] == worlds[3] && worlds[4].registry == map["a" := "d"] && worlds[4].tracker.entries == map[]
  {
    var on, off := Row("a", true, Readable("d")), Row("a", false, Readable("d"));
    var good, bad := Engine(map[], {}), Engine(map[], {"a"});
    var loaded := World(map["a" := "d"], Tracker(map["a" := Ok], true, [Snapshot(map[])]));
    var stuck := World(map["a" := "d"], Tracker(map[], true, [Snapshot(map[])]));
    actions := [Load([on], good), Change(off, bad, []), Reconcile([on], good, Orders3([], ["a"], [])),
                Reconcile([on], good, Orders3([], ["a"], []))];
    worlds := [World(map[], Tracker(map[], false, [])), loaded, stuck, stuck, stuck];
    FirstLoad(on, good);
    DisableFails(off, bad);
    PassSkips(stuck, on, good);
    hide Step, Enabled;
  }

  lemma FirstLoad(on: Row, good: Engine)
    requires on == Row("a", true, Readable("d")) && good == Engine(map[], {})
    ensures Step(World(map[], Tracker(map[], false, [])), Load([on], good))
         == World(map["a" := "d"], Tracker(map["a" := Ok], true, [Snapshot(map[])]))
  {
    var empty := World(map[], Tracker(map[], false, []));
    assert [on][..0] == [] && LoadingAll(empty, [], good) == empty;
    assert LoadingAll(empty, [on], good) == Loading(empty, on, good) == World(map["a" := "d"], Tracker(map["a" := Ok], false, []));
    assert Errors(map["a" := Ok]) == map[];
  }

  lemma DisableFails(off: Row, bad: Engine)
    requires off == Row("a", false, Readable("d")) && bad == Engine(map[], {"a"})
    ensures var w := World(map["a" := "d"], Tracker(map["a" := Ok], true, [Snapshot(map[])]));
      && Enabled(w, Change(off, bad, []))
      && Step(w, Change(off, bad, [])) == World(map["a" := "d"], Tracker(map[], true, [Snapshot(map[])]))
  {
  }

  lemma PassSkips(w: World, on: Row, good: Engine)
    requires w == World(map["a" := "d"], Tracker(map[], true, [Snapshot(map[])]))
    requires on == Row("a", true, Readable("d")) && good == Engine(map[], {})
    ensures PassOrders(w, [on], good, Orders3([], ["a"], [])) && Reconciled(w, [on], good, Orders3([], ["a"], [])) == w
  {
    assert [on][..0] == [] && Desired([on]) == map["a" := "d"];
    assert EnabledIds([]) == {} && EnabledIds([on]) == EnabledIds([]) + {"a"} == {"a"};
    assert RecordingUnreadable(w.tracker, [on]) == w.tracker;
    assert ["a"][..0] == [];
    assert Retrying(w, Desired([on]), w.registry, ["a"], good) == w;
    assert Applying(w, [on], good, [], ["a"]) == w;
    assert Removing(w.registry, {}) == w.registry;
  }

  /** After the snapshot, a client that applies each message in order holds exactly the tracker's errors, in every run. */
  lemma {:induction false} ClientsHoldTheErrors(worlds: seq<World>, actions: seq<Action>, n: nat)
    requires IsRun(worlds, actions) && n < |worlds|
    ensures Mirrored(worlds[n].tracker)
  {
    if n > 0 {
      var w, a := worlds[n - 1], actions[n - 1];
      ClientsHoldTheErrors(worlds, actions, n - 1);
      assert worlds[n - 1 + 1] == Step(w, a);
      hide Mirrored;
      StepKeepsMirror(w, a);
    }
  }

  lemma StepKeepsMirror(w: World, a: Action)
    requires Mirrored(w.tracker) && Enabled(w, a)
    ensures Mirrored(Step(w, a).tracker)
  {
    hide Mirrored, Orders;
    match a
    case Load(rows, engine) =>
      LoadingKeepsMirror(w, rows, engine);
      AnnounceKeepsMirror(LoadingAll(w, rows, engine).tracker);
    case Change(row, engine, order) =>
      if row.enabled {
        LoadKeepsMirror(w, row, engine);
      } else {
        ForgetKeepsMirror(w.tracker, {row.id}, order);
      }
    case Delete(id, _, order) => ForgetKeepsMirror(w.tracker, {id}, order);
    case Reconcile(rows, engine, orders) => PassKeepsMirror(w, rows, engine, orders);
  }
}
