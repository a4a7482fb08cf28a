/**
 * `recentDeliveries` (`workflow/trigger_deliveries.go`): a ring and a set that
 * stand for the list of the last `capacity` events accepted.
 */
module RecentDeliveries {
  const NUL := 0 as char

  function Key(source: string, id: string): (key: string)
    ensures key != ""
  {
    source + [NUL] + id
  }

  function BeforeNul(key: string): string {
    if key == [] || key[0] == NUL then [] else [key[0]] + BeforeNul(key[1..])
  }

  lemma {:induction false} SourceIsBeforeNul(source: string, id: string)
    requires NUL !in source
    ensures BeforeNul(Key(source, id)) == source
  {
    if source != [] {
      assert Key(source, id)[1..] == Key(source[1..], id);
      SourceIsBeforeNul(source[1..], id);
    }
  }

  /** Two events share a key only if they are one event, as long as sources hold no NUL. */
  lemma KeysAreDistinct(source: string, id: string, source': string, id': string)
    requires NUL !in source && NUL !in source'
    ensures Key(source, id) == Key(source', id') <==> source == source' && id == id'
  {
    SourceIsBeforeNul(source, id);
    SourceIsBeforeNul(source', id');
    assert Key(source, id)[|source| + 1..] == id && Key(source', id')[|source'| + 1..] == id';
  }

  // ----- the reference ------------------------------------------------------------------------------------

  function Last(keys: seq<string>, n: nat): seq<string> {
    if |keys| <= n then keys else keys[|keys| - n..]
  }

  /** A key already among the last `capacity` accepted is a copy; any other is accepted. */
  function Accepting(accepted: seq<string>, key: string, capacity: nat): seq<string> {
    if key in Last(accepted, capacity) then accepted else accepted + [key]
  }

  /** Everything accepted, in order, out of a history of deliveries. */
  function Accepted(history: seq<string>, capacity: nat): seq<string> {
    if history == [] then []
    else Accepting(Accepted(history[..|history| - 1], capacity), history[|history| - 1], capacity)
  }

  // ----- the ring -----------------------------------------------------------------------------------------

  /** The keys the ring holds, oldest first: it fills from the start, and once full the oldest is the next to go. */
  function Contents(ring: seq<string>, next: nat): seq<string>
    requires next < |ring|
  {
    if ring[next] == "" then ring[..next] else ring[next..] + ring[..next]
  }

  predicate Distinct(keys: seq<string>) {
    forall i, j :: 0 <= i < j < |keys| ==> keys[i] != keys[j]
  }

  /** The filled slots come first, and there are as many as keys unless the ring is full. */
  predicate Filled(ring: seq<string>, next: nat)
    requires next < |ring|
  {
    if ring[next] == "" then
      (forall i :: 0 <= i < next ==> ring[i] != "") && (forall i :: next <= i < |ring| ==> ring[i] == "")
    else forall i :: 0 <= i < |ring| ==> ring[i] != ""
  }

  ghost predicate Represents(ring: seq<string>, next: nat, seen: set<string>, accepted: seq<string>) {
    && next < |ring| && Filled(ring, next)
    && Contents(ring, next) == Last(accepted, |ring|) && Distinct(Contents(ring, next))
    && (forall key :: key in seen <==> key in Contents(ring, next))
  }

  /** The set's keys, no more than the ring's slots, are the ring's filled slots, no two the same. */
  lemma RingAndSetAgree(ring: seq<string>, next: nat, seen: set<string>, accepted: seq<string>)
    requires Represents(ring, next, seen, accepted)
    ensures forall key :: key in seen <==> key != "" && key in ring
    ensures forall i, j :: 0 <= i < j < |ring| && ring[i] != "" ==> ring[i] != ring[j]
    ensures |seen| <= |ring|
  {
    var held := Contents(ring, next);
    forall key ensures key in seen <==> key != "" && key in ring {
      if key in held {
        var i :| 0 <= i < |held| && held[i] == key;
      }
    }
    forall i, j | 0 <= i < j < |ring| && ring[i] != "" ensures ring[i] != ring[j] {
      if ring[next] != "" {
        var at := k => if k >= next then k - next else k + |ring| - next;
        assert held[at(i)] == ring[i] && held[at(j)] == ring[j];
      }
    }
    SetOfSeq(held, seen);
  }

  lemma {:induction false} SetOfSeq(keys: seq<string>, some: set<string>)
    requires forall key :: key in some ==> key in keys
    ensures |some| <= |keys|
  {
    if keys != [] {
      var last := keys[|keys| - 1];
      SetOfSeq(keys[..|keys| - 1], some - {last});
    }
  }

  lemma FilledMovesOn(ring: seq<string>, next: nat, key: string)
    requires next < |ring| && Filled(ring, next) && key != ""
    ensures Filled(ring[next := key], (next + 1) % |ring|)
  {
    if next + 1 == |ring| {
      assert (next + 1) % |ring| == 0;
    } else {
      assert (next + 1) % |ring| == next + 1;
    }
  }

  /** Writing a key over the next slot drops the oldest of a full ring and puts the key last. */
  lemma ContentsMoveOn(ring: seq<string>, next: nat, key: string)
    requires next < |ring| && Filled(ring, next) && key != ""
    ensures Contents(ring[next := key], (next + 1) % |ring|)
         == (if ring[next] == "" then Contents(ring, next) else Contents(ring, next)[1..]) + [key]
  {
    assert ring[next := key][..next + 1] == ring[..next] + [key];
    if next + 1 == |ring| {
      assert (next + 1) % |ring| == 0;
      ContentsWrap(ring, next, key);
    } else {
      assert (next + 1) % |ring| == next + 1;
      ContentsStep(ring, next, key);
    }
  }

  lemma ContentsWrap(ring: seq<string>, next: nat, key: string)
    requires next + 1 == |ring| && Filled(ring, next) && key != ""
    ensures Contents(ring[next := key], 0)
         == (if ring[next] == "" then Contents(ring, next) else Contents(ring, next)[1..]) + [key]
  {
    var ring' := ring[next := key];
    assert ring' == ring[..next] + [key];
    assert ring'[0..] == ring' && ring'[..0] == [];
    assert ring[next] != "" ==> Contents(ring, next) == [ring[next]] + ring[..next];
  }

  lemma ContentsStep(ring: seq<string>, next: nat, key: string)
    requires next + 1 < |ring| && Filled(ring, next) && key != ""
    ensures Contents(ring[next := key], next + 1)
         == (if ring[next] == "" then Contents(ring, next) else Contents(ring, next)[1..]) + [key]
  {
    var ring' := ring[next := key];
    assert ring'[..next + 1] == ring[..next] + [key] && ring'[next + 1] == ring[next + 1];
    if ring[next] != "" {
      assert ring[next + 1] != "";
      var front, rest := ring[..next], ring[next + 1..];
      assert ring[next..] == [ring[next]] + rest && ring'[next + 1..] == rest;
      Rotated(front, rest, ring[next], key);
    } else {
      assert ring[next + 1] == "";
    }
  }

  lemma Rotated(front: seq<string>, rest: seq<string>, oldest: string, key: string)
    ensures ([oldest] + rest + front)[1..] == rest + front && rest + (front + [key]) == rest + front + [key]
  {
  }

  lemma LastMovesOn(accepted: seq<string>, key: string, n: nat)
    requires n > 0
    ensures Last(accepted + [key], n) == (if |accepted| < n then accepted else Last(accepted, n)[1..]) + [key]
  {
  }

  /** The next slot holds the oldest key of a full ring, and nothing otherwise. */
  lemma NextIsOldest(ring: seq<string>, next: nat)
    requires next < |ring| && Filled(ring, next)
    ensures var held := Contents(ring, next);
      if ring[next] == "" then |held| == next && "" !in held else |held| == |ring| && held != [] && held[0] == ring[next]
  {
  }

  /** The window of accepted keys moves on by one. */
  lemma SlotOverwritten(ring: seq<string>, next: nat, seen: set<string>, accepted: seq<string>, key: string)
    requires Represents(ring, next, seen, accepted) && key !in seen && key != ""
    ensures Represents(ring[next := key], (next + 1) % |ring|, seen - {ring[next]} + {key}, accepted + [key])
  {
    hide Contents, Filled, Last, Distinct;
    var held := Contents(ring, next);
    NextIsOldest(ring, next);
    FilledMovesOn(ring, next, key);
    ContentsMoveOn(ring, next, key);
    LastMovesOn(accepted, key, |ring|);
    LastIsShort(accepted, |ring|);
    SetMovesOn(held, seen, ring[next], ring[next] != "", key);
  }

  lemma LastIsShort(keys: seq<string>, n: nat)
    ensures |Last(keys, n)| == (if |keys| < n then |keys| else n) && (|keys| <= n ==> Last(keys, n) == keys)
  {
  }

  /** Forgetting `evicted`, the oldest when the ring is full, and adding `key` keeps the set that of the list. */
  lemma SetMovesOn(held: seq<string>, seen: set<string>, evicted: string, full: bool, key: string)
    requires Distinct(held) && key !in held && (forall k :: k in seen <==> k in held)
    requires if full then held != [] && evicted == held[0] else evicted !in held
    ensures var kept := if full then held[1..] else held;
      Distinct(kept + [key]) && forall k :: k in seen - {evicted} + {key} <==> k in kept + [key]
  {
    var kept := if full then held[1..] else held;
    assert full ==> held == [evicted] + kept;
    forall k | k in kept ensures k != evicted && k in held {
    }
  }

  lemma LastHolds(keys: seq<string>, n: nat)
    ensures forall k :: 0 <= k < |keys| && |keys| - n <= k ==> keys[k] in Last(keys, n)
  {
    forall k | 0 <= k < |keys| && |keys| - n <= k ensures keys[k] in Last(keys, n) {
      assert keys[k] == Last(keys, n)[if |keys| <= n then k else k - (|keys| - n)];
    }
  }

  /** Two accepted events with one key are more than `capacity` acceptances apart. */
  lemma {:induction false} CopiesAreFarApart(history: seq<string>, capacity: nat, i: nat, j: nat)
    requires i < j < |Accepted(history, capacity)| && Accepted(history, capacity)[i] == Accepted(history, capacity)[j]
    ensures j - i > capacity
  {
    var before, key := Accepted(history[..|history| - 1], capacity), history[|history| - 1];
    if j < |before| {
      CopiesAreFarApart(history[..|history| - 1], capacity, i, j);
    } else {
      LastHolds(before, capacity);
      assert key !in Last(before, capacity);
    }
  }

  class Deliveries {
    var seen: set<string>
    const ring: array<string>
    var next: nat
    ghost var accepted: seq<string>

    ghost predicate Valid()
      reads this, ring
    {
      ring.Length > 0 && Represents(ring[..], next, seen, accepted)
    }

    constructor (capacity: nat)
      requires capacity > 0
      ensures Valid() && fresh(ring) && ring.Length == capacity && accepted == []
    {
      seen, next, accepted := {}, 0, [];
      ring := new string[capacity](_ => "");
    }

    /** Whether this is the first delivery of the event: no copy is among the last `capacity` accepted. */
    method First(source: string, id: string) returns (first: bool)
      requires Valid()
      modifies this, ring
      ensures Valid()
      ensures first == (Key(source, id) !in Last(old(accepted), ring.Length))
      ensures accepted == Accepting(old(accepted), Key(source, id), ring.Length)
    {
      hide Represents, Last;
      var key := Key(source, id);
      NoEmptyKey(ring[..], next, seen, accepted);
      if key in seen {
        return false;
      }
      ghost var slots := ring[..];
      SlotOverwritten(slots, next, seen, accepted, key);
      var evicted := ring[next];
      if evicted != "" {
        seen := seen - {evicted};
      }
      assert seen == old(seen) - {evicted};
      ring[next] := key;
      assert ring[..] == slots[next := key];
      next := (next + 1) % ring.Length;
      seen := seen + {key};
      accepted := accepted + [key];
      first := true;
    }
  }

  lemma NoEmptyKey(ring: seq<string>, next: nat, seen: set<string>, accepted: seq<string>)
    requires Represents(ring, next, seen, accepted)
    ensures next < |ring| && "" !in seen && forall key :: key in seen <==> key in Last(accepted, |ring|)
  {
    RingAndSetAgree(ring, next, seen, accepted);
    hide Filled, Distinct;
  }
}
