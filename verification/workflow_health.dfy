/**
 * `WorkflowHealthTracker` (`workflow/health.go`) and a client that mirrors what
 * it publishes: the snapshot is the whole truth, and each change is applied in
 * order.
 */
module WorkflowHealth {
  import opened Options

  type Id = string

  datatype Health = Ok | Error(reason: string)

  datatype Message = Snapshot(errors: map<Id, string>) | Changed(id: Id, health: Health)

  datatype Tracker = Tracker(entries: map<Id, Health>, announced: bool, published: seq<Message>)

  function Errors(entries: map<Id, Health>): (errors: map<Id, string>)
    ensures forall id :: id in errors <==> id in entries && entries[id].Error?
    ensures forall id :: id in errors ==> errors[id] == entries[id].reason
  {
    map id | id in entries && entries[id].Error? :: entries[id].reason
  }

  /** `Record`: a repeat is silent, and so is a first load that succeeds. */
  function Recorded(t: Tracker, id: Id, health: Health): Tracker {
    if id in t.entries && t.entries[id] == health then t
    else
      t.(entries := t.entries[id := health],
         published := if t.announced && (id in t.entries || health.Error?) then t.published + [Changed(id, health)] else t.published)
  }

  function ErrorsAmong(entries: map<Id, Health>, drop: set<Id>): set<Id> {
    set id | id in drop && id in entries && entries[id].Error?
  }

  function AllOk(order: seq<Id>): seq<Message> {
    if order == [] then [] else AllOk(order[..|order| - 1]) + [Changed(order[|order| - 1], Ok)]
  }

  /** `order` is the order a map's iteration takes its keys in: each of them once. */
  ghost predicate Orders(order: seq<Id>, keys: set<Id>) {
    && (forall i, j :: 0 <= i < j < |order| ==> order[i] != order[j])
    && (forall id :: id in order <==> id in keys)
  }

  /** `forget`: the dropped workflows go, and those in error are announced as ok. */
  function Forgotten(t: Tracker, drop: set<Id>, order: seq<Id>): Tracker {
    t.(entries := map id | id in t.entries && id !in drop :: t.entries[id],
       published := if t.announced then t.published + AllOk(order) else t.published)
  }

  function Announced(t: Tracker): Tracker {
    if t.announced then t else t.(announced := true, published := t.published + [Snapshot(Errors(t.entries))])
  }

  // ----- the client ---------------------------------------------------------------------------------------

  function Applied(mirror: map<Id, string>, message: Message): map<Id, string> {
    match message
    case Snapshot(errors) => errors
    case Changed(id, Ok) => mirror - {id}
    case Changed(id, Error(reason)) => mirror[id := reason]
  }

  /** What a client holds once it has applied every message. */
  function Mirror(published: seq<Message>): map<Id, string> {
    if published == [] then map[] else Applied(Mirror(published[..|published| - 1]), published[|published| - 1])
  }

  /** Nothing is published before the snapshot; from it on the client holds exactly the tracker's errors. */
  ghost predicate Mirrored(t: Tracker) {
    && (!t.announced ==> t.published == [])
    && (t.announced ==> Mirror(t.published) == Errors(t.entries))
  }

  lemma MirrorGrows(published: seq<Message>, message: Message)
    ensures Mirror(published + [message]) == Applied(Mirror(published), message)
  {
    assert (published + [message])[..|published|] == published;
  }

  lemma RecordKeepsMirror(t: Tracker, id: Id, health: Health)
    requires Mirrored(t)
    ensures Mirrored(Recorded(t, id, health))
  {
    var t' := Recorded(t, id, health);
    MirrorGrows(t.published, Changed(id, health));
    if t.announced {
      assert Errors(t'.entries) == if health.Ok? then Errors(t.entries) - {id} else Errors(t.entries)[id := health.reason];
    }
  }

  /** Repeating an outcome changes nothing and publishes nothing; a different one is published once the snapshot is out. */
  lemma RepeatsAreSilent(t: Tracker, id: Id, health: Health)
    ensures Recorded(Recorded(t, id, health), id, health) == Recorded(t, id, health)
    ensures t.announced ==>
      (Recorded(t, id, health).published != t.published <==>
         Errors(Recorded(t, id, health).entries) != Errors(t.entries))
  {
    var t' := Recorded(t, id, health);
    if t' != t {
      if health.Error? {
        assert id in Errors(t'.entries) && Errors(t'.entries)[id] == health.reason;
      } else if id in t.entries {
        assert id in Errors(t.entries) && id !in Errors(t'.entries);
      } else {
        assert Errors(t'.entries) == Errors(t.entries);
      }
    }
  }

  lemma {:induction false} MirrorClears(published: seq<Message>, order: seq<Id>)
    ensures Mirror(published + AllOk(order)) == Mirror(published) - (set id | id in order)
  {
    if order == [] {
      assert published + AllOk(order) == published;
    } else {
      var init, last := order[..|order| - 1], order[|order| - 1];
      MirrorClears(published, init);
      assert published + AllOk(order) == published + AllOk(init) + [Changed(last, Ok)];
      MirrorGrows(published + AllOk(init), Changed(last, Ok));
      assert order == init + [last];
      assert (set id | id in order) == (set id | id in init) + {last};
    }
  }

  lemma ForgetKeepsMirror(t: Tracker, drop: set<Id>, order: seq<Id>)
    requires Mirrored(t) && Orders(order, ErrorsAmong(t.entries, drop))
    ensures Mirrored(Forgotten(t, drop, order))
  {
    var t' := Forgotten(t, drop, order);
    if t.announced {
      MirrorClears(t.published, order);
      assert (set id | id in order) == ErrorsAmong(t.entries, drop);
      assert Errors(t'.entries) == Errors(t.entries) - ErrorsAmong(t.entries, drop);
    }
  }

  lemma AnnounceKeepsMirror(t: Tracker)
    requires Mirrored(t)
    ensures Mirrored(Announced(t)) && Announced(t).announced && Announced(Announced(t)) == Announced(t)
  {
    MirrorGrows(t.published, Snapshot(Errors(t.entries)));
  }

  // ----- the object ---------------------------------------------------------------------------------------

  class HealthTracker {
    var entries: map<Id, Health>
    var announced: bool
    /** What the bus was given, in order; every path that publishes holds the manager's lock. */
    var published: seq<Message>

    function Now(): Tracker
      reads this
    {
      Tracker(entries, announced, published)
    }

    ghost predicate Valid()
      reads this
    {
      Mirrored(Now())
    }

    constructor ()
      ensures Valid() && Now() == Tracker(map[], false, [])
    {
      entries, announced, published := map[], false, [];
    }

    /** Returns whether the health changed. An id that is empty is a programming error. */
    method Record(id: Id, failure: Option<string>) returns (changed: bool)
      requires Valid() && id != ""
      modifies this
      ensures Valid() && Now() == Recorded(old(Now()), id, if failure.Some? then Error(failure.value) else Ok)
      ensures changed == (Now() != old(Now()))
    {
      var next := Ok;
      if failure.Some? {
        next := Error(failure.value);
      }
      RecordKeepsMirror(Now(), id, next);
      hide Mirrored;
      var seen := id in entries;
      if seen && entries[id] == next {
        return false;
      }
      entries := entries[id := next];
      var announce := announced && (seen || next.Error?);
      if announce {
        published := published + [Changed(id, next)];
      }
      changed := true;
    }

    method Forget(id: Id) returns (ghost order: seq<Id>)
      requires Valid()
      modifies this
      ensures Valid() && Orders(order, old(ErrorsAmong(entries, {id}))) && Now() == Forgotten(old(Now()), {id}, order)
    {
      order := ForgetAll({id});
    }

    /** Forgets every workflow not in `keep`. */
    method Retain(keep: set<Id>) returns (ghost order: seq<Id>)
      requires Valid()
      modifies this
      ensures Valid() && Orders(order, old(ErrorsAmong(entries, entries.Keys - keep)))
      ensures Now() == Forgotten(old(Now()), old(entries.Keys) - keep, order)
    {
      order := ForgetAll(entries.Keys - keep);
    }

    /** `forget`: in whatever order the map gives its keys. */
    method ForgetAll(drop: set<Id>) returns (ghost order: seq<Id>)
      requires Valid()
      modifies this
      ensures Valid() && Orders(order, old(ErrorsAmong(entries, drop))) && Now() == Forgotten(old(Now()), drop, order)
    {
      ghost var start := Now();
      var todo := entries.Keys;
      var cleared: seq<Id> := [];
      while todo != {}
        invariant todo <= start.entries.Keys && announced == start.announced && published == start.published
        invariant entries == map id | id in start.entries && (id in todo || id !in drop) :: start.entries[id]
        invariant Orders(cleared, ErrorsAmong(start.entries, drop - todo))
        decreases todo
      {
        var id :| id in todo;
        assert ErrorsAmong(start.entries, drop - (todo - {id}))
            == ErrorsAmong(start.entries, drop - todo) + (if id in drop && start.entries[id].Error? then {id} else {});
        assert id !in ErrorsAmong(start.entries, drop - todo);
        if id in drop {
          var entry := entries[id];
          entries := entries - {id};
          if entry.Error? {
            cleared := cleared + [id];
          }
        }
        todo := todo - {id};
      }
      assert ErrorsAmong(start.entries, drop - {}) == ErrorsAmong(start.entries, drop);
      order := cleared;
      ForgetKeepsMirror(start, drop, order);
      hide Mirrored;
      if !announced {
        return;
      }
      PublishOk(cleared);
    }

    method PublishOk(cleared: seq<Id>)
      modifies this`published
      ensures published == old(published) + AllOk(cleared)
    {
      var i := 0;
      assert published == published + AllOk(cleared[..0]);
      while i < |cleared|
        invariant 0 <= i <= |cleared| && published == old(published) + AllOk(cleared[..i])
      {
        assert cleared[..i + 1][..i] == cleared[..i];
        published := published + [Changed(cleared[i], Ok)];
        i := i + 1;
      }
      assert cleared[..i] == cleared;
    }

    /** Publishes the errors once, and from then on each change. */
    method AnnounceSnapshot()
      requires Valid()
      modifies this
      ensures Valid() && Now() == Announced(old(Now()))
    {
      AnnounceKeepsMirror(Now());
      hide Mirrored;
      if announced {
        return;
      }
      announced := true;
      var errored := ListErrors();
      published := published + [Snapshot(errored)];
    }

    /** `snapshotLocked(true)`. */
    method ListErrors() returns (errored: map<Id, string>)
      ensures errored == Errors(entries)
    {
      var todo := entries.Keys;
      errored := map[];
      while todo != {}
        invariant todo <= entries.Keys
        invariant forall id :: id in errored <==> id in entries && id !in todo && entries[id].Error?
        invariant forall id :: id in errored ==> errored[id] == entries[id].reason
        decreases todo
      {
        var id :| id in todo;
        if entries[id].Error? {
          errored := errored[id := entries[id].reason];
        }
        todo := todo - {id};
      }
    }
  }
}
