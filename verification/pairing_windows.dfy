/**
 * The start rate limits of `api/src/pairing.ts`: `StartWindow`, the maps of
 * windows, and what they admit over a whole history of starts.
 */
module PairingWindows {
  const RATE_WINDOW_MS := 60_000

  // ----- one window ---------------------------------------------------------------------------------------

  function Pruned(starts: seq<int>, now: int): seq<int> {
    if starts != [] && starts[0] + RATE_WINDOW_MS <= now then Pruned(starts[1..], now) else starts
  }

  function WaitOf(kept: seq<int>, limit: nat, now: int): int
    requires limit >= 1
  {
    if |kept| < limit then 0 else kept[0] + RATE_WINDOW_MS - now
  }

  predicate InOrder(times: seq<int>) {
    forall i, j :: 0 <= i < j < |times| ==> times[i] <= times[j]
  }

  /** Starts `limit` apart are a whole window apart. */
  predicate Spaced(times: seq<int>, limit: nat) {
    forall i, j :: 0 <= i && i + limit <= j < |times| ==> times[j] - times[i] >= RATE_WINDOW_MS
  }

  predicate UpTo(times: seq<int>, now: int) {
    forall i :: 0 <= i < |times| ==> times[i] <= now
  }

  /** Pruning keeps a suffix, which starts at the first time still within the window. */
  lemma {:induction false} PrunedIsSuffix(starts: seq<int>, now: int) returns (k: nat)
    ensures k <= |starts| && Pruned(starts, now) == starts[k..]
    ensures forall i :: 0 <= i < k ==> starts[i] + RATE_WINDOW_MS <= now
    ensures k < |starts| ==> starts[k] + RATE_WINDOW_MS > now
  {
    if starts != [] && starts[0] + RATE_WINDOW_MS <= now {
      k := PrunedIsSuffix(starts[1..], now);
      k := k + 1;
    } else {
      k := 0;
    }
  }

  lemma {:induction false} PrunedAgain(starts: seq<int>, before: int, now: int)
    requires before <= now
    ensures Pruned(Pruned(starts, before), now) == Pruned(starts, now)
  {
    if starts != [] && starts[0] + RATE_WINDOW_MS <= before {
      PrunedAgain(starts[1..], before, now);
    }
  }

  lemma {:induction false} PrunedRecords(starts: seq<int>, now: int, then': int)
    requires then' + RATE_WINDOW_MS > now
    ensures Pruned(starts + [then'], now) == Pruned(starts, now) + [then']
  {
    if starts != [] && starts[0] + RATE_WINDOW_MS <= now {
      assert (starts + [then'])[1..] == starts[1..] + [then'];
      PrunedRecords(starts[1..], now, then');
    }
  }

  /** A window never holds more than its limit. */
  lemma KeptFits(times: seq<int>, limit: nat, now: int)
    requires limit >= 1 && Spaced(times, limit) && UpTo(times, now)
    ensures |Pruned(times, now)| <= limit
  {
    var k := PrunedIsSuffix(times, now);
    if k < |times| {
      assert times[|times| - 1] - times[k] < RATE_WINDOW_MS;
    }
  }

  /** The wait is the least delay after which the window admits a start. */
  lemma WaitIsLeast(times: seq<int>, limit: nat, now: int, delay: nat)
    requires limit >= 1 && InOrder(times) && Spaced(times, limit) && UpTo(times, now)
    ensures |Pruned(times, now + delay)| < limit <==> WaitOf(Pruned(times, now), limit, now) <= delay
  {
    KeptFits(times, limit, now);
    var k := PrunedIsSuffix(times, now);
    var later := PrunedIsSuffix(times, now + delay);
    assert later >= k;
  }

  /** A start recorded when there was nothing to wait for keeps the spacing. */
  lemma RecordedKeepsSpaced(times: seq<int>, limit: nat, now: int)
    requires limit >= 1 && InOrder(times) && Spaced(times, limit) && UpTo(times, now)
    requires WaitOf(Pruned(times, now), limit, now) <= 0
    ensures InOrder(times + [now]) && Spaced(times + [now], limit) && UpTo(times + [now], now)
  {
    var k := PrunedIsSuffix(times, now);
    var times' := times + [now];
    forall i, j | 0 <= i && i + limit <= j < |times'| ensures times'[j] - times'[i] >= RATE_WINDOW_MS {
      if j == |times| {
        assert i < k;
      }
    }
  }

  /** The times within a half-open window of `RATE_WINDOW_MS` from `from`. */
  function Within(times: seq<int>, from: int): seq<int> {
    if times == [] then []
    else (if from <= times[0] < from + RATE_WINDOW_MS then [times[0]] else []) + Within(times[1..], from)
  }

  /** Any window of a minute holds at most the limit. */
  lemma {:induction false} AnyWindowHoldsTheLimit(times: seq<int>, limit: nat, from: int)
    requires limit >= 1 && InOrder(times) && Spaced(times, limit)
    ensures |Within(times, from)| <= limit
  {
    if times != [] {
      if times[0] < from {
        AnyWindowHoldsTheLimit(times[1..], limit, from);
      } else if |times| <= limit {
        WithinIsShorter(times, from);
      } else {
        assert times == times[..limit] + times[limit..];
        WithinConcat(times[..limit], times[limit..], from);
        WithinIsShorter(times[..limit], from);
        NoneWithin(times[limit..], from);
      }
    }
  }

  lemma {:induction false} WithinIsShorter(times: seq<int>, from: int)
    ensures |Within(times, from)| <= |times|
  {
    if times != [] {
      WithinIsShorter(times[1..], from);
    }
  }

  lemma {:induction false} NoneWithin(times: seq<int>, from: int)
    requires forall i :: 0 <= i < |times| ==> times[i] >= from + RATE_WINDOW_MS
    ensures Within(times, from) == []
  {
    if times != [] {
      NoneWithin(times[1..], from);
    }
  }

  lemma {:induction false} WithinConcat(a: seq<int>, b: seq<int>, from: int)
    ensures Within(a + b, from) == Within(a, from) + Within(b, from)
  {
    if a == [] {
      assert a + b == b;
    } else {
      assert (a + b)[1..] == a[1..] + b;
      WithinConcat(a[1..], b, from);
    }
  }

  // ----- the windows of a registry ------------------------------------------------------------------------

  datatype Limits = Limits(total: nat, perOrigin: nat, perAddress: nat)

  datatype Rates = Rates(total: seq<int>, origins: map<string, seq<int>>, addresses: map<string, seq<int>>)

  /** A start that was admitted. */
  datatype Start = Start(at: int, origin: string, address: string)

  datatype Counted = Everyone | FromOrigin(origin: string) | FromAddress(address: string)

  predicate Counts(c: Counted, start: Start) {
    match c
    case Everyone => true
    case FromOrigin(origin) => start.origin == origin
    case FromAddress(address) => start.address == address
  }

  /** When the starts a limit counts were. */
  function Times(log: seq<Start>, c: Counted): seq<int> {
    if log == [] then []
    else
      var last := log[|log| - 1];
      Times(log[..|log| - 1], c) + (if Counts(c, last) then [last.at] else [])
  }

  lemma TimesGrow(log: seq<Start>, start: Start, c: Counted)
    ensures Times(log + [start], c) == if Counts(c, start) then Times(log, c) + [start.at] else Times(log, c)
  {
    assert (log + [start])[..|log|] == log;
  }

  function LimitOf(limits: Limits, c: Counted): nat {
    match c
    case Everyone => limits.total
    case FromOrigin(_) => limits.perOrigin
    case FromAddress(_) => limits.perAddress
  }

  function WindowOf(windows: map<string, seq<int>>, key: string): seq<int> {
    if key in windows then windows[key] else []
  }

  function WindowFor(r: Rates, c: Counted): seq<int> {
    match c
    case Everyone => r.total
    case FromOrigin(origin) => WindowOf(r.origins, origin)
    case FromAddress(address) => WindowOf(r.addresses, address)
  }

  /** `emptyAt` on each window, forgetting those it empties. */
  function NonEmpty(windows: map<string, seq<int>>, now: int): map<string, seq<int>> {
    map key | key in windows && Pruned(windows[key], now) != [] :: Pruned(windows[key], now)
  }

  /** The windows of `pruneExpired`; the global one is not among them. */
  function Swept(r: Rates, now: int): Rates {
    r.(origins := NonEmpty(r.origins, now), addresses := NonEmpty(r.addresses, now))
  }

  /** The three windows a start asks, made if they were missing and pruned. */
  function Asked(r: Rates, origin: string, address: string, now: int): Rates {
    Rates(Pruned(r.total, now), r.origins[origin := Pruned(WindowOf(r.origins, origin), now)],
          r.addresses[address := Pruned(WindowOf(r.addresses, address), now)])
  }

  function Max(a: int, b: int): int { if a >= b then a else b }

  /** How long the three windows, just asked, make the start wait. */
  function RetryAfter(r: Rates, limits: Limits, origin: string, address: string, now: int): int
    requires limits.total >= 1 && limits.perOrigin >= 1 && limits.perAddress >= 1
  {
    Max(WaitOf(r.total, limits.total, now),
        Max(WaitOf(WindowOf(r.origins, origin), limits.perOrigin, now), WaitOf(WindowOf(r.addresses, address), limits.perAddress, now)))
  }

  function Counting(r: Rates, origin: string, address: string, now: int): Rates {
    Rates(r.total + [now], r.origins[origin := WindowOf(r.origins, origin) + [now]],
          r.addresses[address := WindowOf(r.addresses, address) + [now]])
  }

  /** A window holds what was left of the starts it counts when it was last pruned. */
  ghost predicate Tracks(starts: seq<int>, times: seq<int>, now: int) {
    exists t :: t <= now && starts == Pruned(times, t)
  }

  ghost predicate Kept(r: Rates, log: seq<Start>, limits: Limits, now: int) {
    && limits.total >= 1 && limits.perOrigin >= 1 && limits.perAddress >= 1
    && (forall c :: Tracks(WindowFor(r, c), Times(log, c), now))
    && (forall c :: Limited(log, c, limits, now))
    && |r.origins| <= limits.total + 1 && |r.addresses| <= limits.total + 1
  }

  /** Any minute of the history holds at most the limit of what `c` counts. */
  predicate Limited(log: seq<Start>, c: Counted, limits: Limits, now: int) {
    InOrder(Times(log, c)) && UpTo(Times(log, c), now) && Spaced(Times(log, c), LimitOf(limits, c))
  }

  lemma TracksLater(starts: seq<int>, times: seq<int>, now: int, later: int)
    requires Tracks(starts, times, now) && now <= later
    ensures Tracks(starts, times, later) && Pruned(starts, later) == Pruned(times, later)
    ensures Tracks(Pruned(starts, later), times, later)
  {
    var t :| t <= now && starts == Pruned(times, t);
    PrunedAgain(times, t, later);
  }

  lemma SweptPrunes(r: Rates, now: int, c: Counted)
    ensures WindowFor(Swept(r, now), c) == if c.Everyone? then WindowFor(r, c) else Pruned(WindowFor(r, c), now)
  {
    assert Pruned([], now) == [];
  }

  lemma SweptTracks(r: Rates, log: seq<Start>, limits: Limits, before: int, now: int, c: Counted)
    requires Kept(r, log, limits, before) && before <= now
    ensures Tracks(WindowFor(Swept(r, now), c), Times(log, c), now) && Limited(log, c, limits, now)
  {
    assert Limited(log, c, limits, before) && Tracks(WindowFor(r, c), Times(log, c), before);
    hide Kept, WindowFor, Swept, Times;
    TracksLater(WindowFor(r, c), Times(log, c), before, now);
    SweptPrunes(r, now, c);
    hide Tracks, Pruned;
  }

  lemma SweptKeeps(r: Rates, log: seq<Start>, limits: Limits, before: int, now: int)
    requires Kept(r, log, limits, before) && before <= now
    ensures Kept(Swept(r, now), log, limits, now)
  {
    FewerKeys(NonEmpty(r.origins, now), r.origins);
    FewerKeys(NonEmpty(r.addresses, now), r.addresses);
    hide Tracks, Limited, WindowFor, Times;
    forall c ensures Tracks(WindowFor(Swept(r, now), c), Times(log, c), now) && Limited(log, c, limits, now) {
      SweptTracks(r, log, limits, before, now, c);
    }
  }

  lemma FewerKeys(a: map<string, seq<int>>, b: map<string, seq<int>>)
    requires a.Keys <= b.Keys
    ensures |a| <= |b|
  {
    SubsetIsSmaller(a.Keys, b.Keys);
  }

  lemma {:induction false} SubsetIsSmaller(a: set<string>, b: set<string>)
    requires a <= b
    ensures |a| <= |b|
  {
    if a != {} {
      var x :| x in a;
      SubsetIsSmaller(a - {x}, b - {x});
    }
  }

  // ----- how many windows there can be --------------------------------------------------------------------

  /** The keys of the starts still within the last minute. */
  function RecentKeys(log: seq<Start>, byOrigin: bool, now: int): set<string> {
    if log == [] then {}
    else
      var last := log[|log| - 1];
      RecentKeys(log[..|log| - 1], byOrigin, now)
      + (if last.at + RATE_WINDOW_MS > now then {if byOrigin then last.origin else last.address} else {})
  }

  function Of(byOrigin: bool, key: string): Counted {
    if byOrigin then FromOrigin(key) else FromAddress(key)
  }

  lemma {:induction false} RecentKeysAreFew(log: seq<Start>, byOrigin: bool, now: int)
    ensures |RecentKeys(log, byOrigin, now)| <= |Pruned(Times(log, Everyone), now)|
  {
    if log != [] {
      var init, last := log[..|log| - 1], log[|log| - 1];
      RecentKeysAreFew(init, byOrigin, now);
      if last.at + RATE_WINDOW_MS > now {
        PrunedRecords(Times(init, Everyone), now, last.at);
      } else {
        PrunedGrows(Times(init, Everyone), now, last.at);
      }
    }
  }

  lemma {:induction false} PrunedGrows(starts: seq<int>, now: int, then': int)
    ensures |Pruned(starts + [then'], now)| >= |Pruned(starts, now)|
  {
    if starts != [] && starts[0] + RATE_WINDOW_MS <= now {
      assert (starts + [then'])[1..] == starts[1..] + [then'];
      PrunedGrows(starts[1..], now, then');
    }
  }

  lemma {:induction false} KeyWithStartsIsRecent(log: seq<Start>, byOrigin: bool, key: string, now: int)
    requires Pruned(Times(log, Of(byOrigin, key)), now) != []
    ensures key in RecentKeys(log, byOrigin, now)
  {
    assert log != [];
    var init, last := log[..|log| - 1], log[|log| - 1];
    var before := Times(init, Of(byOrigin, key));
    if Pruned(before, now) != [] {
      KeyWithStartsIsRecent(init, byOrigin, key, now);
    } else {
      AllStale(before, now, last.at);
      TimesGrow(init, last, Of(byOrigin, key));
      assert log == init + [last] && [last.at][1..] == [];
    }
  }

  /** When nothing of `starts` is left, only the one after it can be. */
  lemma {:induction false} AllStale(starts: seq<int>, now: int, then': int)
    requires Pruned(starts, now) == []
    ensures Pruned(starts + [then'], now) == Pruned([then'], now)
  {
    if starts == [] {
      assert starts + [then'] == [then'];
    } else {
      assert (starts + [then'])[1..] == starts[1..] + [then'];
      AllStale(starts[1..], now, then');
    }
  }

  /** Just swept, there are no more windows than the global limit: each holds a start of the last minute. */
  lemma SweptWindowsAreFew(r: Rates, log: seq<Start>, limits: Limits, before: int, now: int)
    requires Kept(r, log, limits, before) && before <= now
    ensures |Swept(r, now).origins| <= limits.total && |Swept(r, now).addresses| <= limits.total
  {
    assert Limited(log, Everyone, limits, before);
    KeptFits(Times(log, Everyone), limits.total, now);
    RecentKeysAreFew(log, true, now);
    RecentKeysAreFew(log, false, now);
    forall key | key in NonEmpty(r.origins, now) ensures key in RecentKeys(log, true, now) {
      assert Tracks(WindowFor(r, FromOrigin(key)), Times(log, FromOrigin(key)), before);
      TracksLater(WindowOf(r.origins, key), Times(log, FromOrigin(key)), before, now);
      KeyWithStartsIsRecent(log, true, key, now);
    }
    forall key | key in NonEmpty(r.addresses, now) ensures key in RecentKeys(log, false, now) {
      assert Tracks(WindowFor(r, FromAddress(key)), Times(log, FromAddress(key)), before);
      TracksLater(WindowOf(r.addresses, key), Times(log, FromAddress(key)), before, now);
      KeyWithStartsIsRecent(log, false, key, now);
    }
    SubsetIsSmaller(NonEmpty(r.origins, now).Keys, RecentKeys(log, true, now));
    SubsetIsSmaller(NonEmpty(r.addresses, now).Keys, RecentKeys(log, false, now));
  }

  // ----- asking and counting ------------------------------------------------------------------------------

  /** What a start sees once the windows are swept and asked. */
  function Met(r: Rates, origin: string, address: string, now: int): Rates {
    Asked(Swept(r, now), origin, address, now)
  }

  lemma OneMoreKey(windows: map<string, seq<int>>, key: string, starts: seq<int>)
    ensures |windows[key := starts]| <= |windows| + 1
  {
    assert windows[key := starts].Keys == windows.Keys + {key};
  }

  lemma AskedPrunes(r: Rates, origin: string, address: string, now: int, c: Counted)
    ensures WindowFor(Asked(r, origin, address, now), c) in {WindowFor(r, c), Pruned(WindowFor(r, c), now)}
  {
  }

  lemma MetTracks(r: Rates, log: seq<Start>, limits: Limits, origin: string, address: string, before: int, now: int, c: Counted)
    requires Kept(r, log, limits, before) && before <= now
    ensures Tracks(WindowFor(Met(r, origin, address, now), c), Times(log, c), now) && Limited(log, c, limits, now)
  {
    SweptKeeps(r, log, limits, before, now);
    assert Tracks(WindowFor(Swept(r, now), c), Times(log, c), now) && Limited(log, c, limits, now);
    hide Kept, Swept, Limited, WindowFor, Asked, Pruned, Times;
    TracksLater(WindowFor(Swept(r, now), c), Times(log, c), now, now);
    AskedPrunes(Swept(r, now), origin, address, now, c);
    hide Tracks;
  }

  lemma MetKeeps(r: Rates, log: seq<Start>, limits: Limits, origin: string, address: string, before: int, now: int)
    requires Kept(r, log, limits, before) && before <= now
    ensures Kept(Met(r, origin, address, now), log, limits, now)
  {
    var swept, met := Swept(r, now), Met(r, origin, address, now);
    SweptWindowsAreFew(r, log, limits, before, now);
    OneMoreKey(swept.origins, origin, met.origins[origin]);
    OneMoreKey(swept.addresses, address, met.addresses[address]);
    hide Swept, Limited, Tracks, WindowFor;
    forall c ensures Tracks(WindowFor(met, c), Times(log, c), now) && Limited(log, c, limits, now) {
      MetTracks(r, log, limits, origin, address, before, now, c);
    }
  }

  /** Each window a start asks holds exactly the starts of the last minute that it counts. */
  lemma MetIsTheLastMinute(r: Rates, log: seq<Start>, limits: Limits, origin: string, address: string, before: int, now: int, c: Counted)
    requires Kept(r, log, limits, before) && before <= now
    requires c in {Everyone, FromOrigin(origin), FromAddress(address)}
    ensures WindowFor(Met(r, origin, address, now), c) == Pruned(Times(log, c), now)
  {
    var swept := Swept(r, now);
    SweptKeeps(r, log, limits, before, now);
    assert Tracks(WindowFor(swept, c), Times(log, c), now);
    TracksLater(WindowFor(swept, c), Times(log, c), now, now);
  }

  /** All three limits would admit a start `delay` from now, if none is admitted before it. */
  predicate AdmitsAfter(log: seq<Start>, limits: Limits, origin: string, address: string, now: int, delay: nat) {
    && |Pruned(Times(log, Everyone), now + delay)| < limits.total
    && |Pruned(Times(log, FromOrigin(origin)), now + delay)| < limits.perOrigin
    && |Pruned(Times(log, FromAddress(address)), now + delay)| < limits.perAddress
  }

  /** `retryAfterMs` is exactly the least delay after which all three limits admit. */
  lemma RetryAfterIsLeast(r: Rates, log: seq<Start>, limits: Limits, origin: string, address: string, before: int, now: int, delay: nat)
    requires Kept(r, log, limits, before) && before <= now
    ensures AdmitsAfter(log, limits, origin, address, now, delay)
        <==> RetryAfter(Met(r, origin, address, now), limits, origin, address, now) <= delay
  {
    SweptKeeps(r, log, limits, before, now);
    forall c | c in {Everyone, FromOrigin(origin), FromAddress(address)}
      ensures WindowFor(Met(r, origin, address, now), c) == Pruned(Times(log, c), now)
      ensures |Pruned(Times(log, c), now + delay)| < LimitOf(limits, c)
          <==> WaitOf(Pruned(Times(log, c), now), LimitOf(limits, c), now) <= delay
    {
      MetIsTheLastMinute(r, log, limits, origin, address, before, now, c);
      assert Limited(log, c, limits, now);
      WaitIsLeast(Times(log, c), LimitOf(limits, c), now, delay);
    }
    assert Everyone in {Everyone, FromOrigin(origin), FromAddress(address)};
    assert FromOrigin(origin) in {Everyone, FromOrigin(origin), FromAddress(address)};
    assert FromAddress(address) in {Everyone, FromOrigin(origin), FromAddress(address)};
    hide Met, Pruned;
  }

  lemma CountingCounts(r: Rates, log: seq<Start>, origin: string, address: string, now: int, c: Counted)
    requires Tracks(WindowFor(r, c), Times(log, c), now)
    ensures Tracks(WindowFor(Counting(r, origin, address, now), c), Times(log + [Start(now, origin, address)], c), now)
  {
    var log' := log + [Start(now, origin, address)];
    TimesGrow(log, Start(now, origin, address), c);
    var t :| t <= now && WindowFor(r, c) == Pruned(Times(log, c), t);
    PrunedRecords(Times(log, c), t, now);
    WindowCounts(r, origin, address, now, c);
    assert Pruned(Times(log', c), t) == WindowFor(Counting(r, origin, address, now), c);
  }

  lemma WindowCounts(r: Rates, origin: string, address: string, now: int, c: Counted)
    ensures WindowFor(Counting(r, origin, address, now), c)
         == WindowFor(r, c) + (if Counts(c, Start(now, origin, address)) then [now] else [])
  {
  }

  lemma LimitsAreSet(r: Rates, log: seq<Start>, limits: Limits, now: int)
    requires Kept(r, log, limits, now)
    ensures forall c :: LimitOf(limits, c) >= 1
  {
  }

  lemma CountingLimits(r: Rates, log: seq<Start>, limits: Limits, origin: string, address: string, before: int, now: int, c: Counted)
    requires Kept(r, log, limits, before) && before <= now
    requires RetryAfter(Met(r, origin, address, now), limits, origin, address, now) <= 0
    ensures Limited(log + [Start(now, origin, address)], c, limits, now)
  {
    var log' := log + [Start(now, origin, address)];
    MetTracks(r, log, limits, origin, address, before, now, c);
    TimesGrow(log, Start(now, origin, address), c);
    hide Times, Kept;
    if Counts(c, Start(now, origin, address)) {
      MetIsTheLastMinute(r, log, limits, origin, address, before, now, c);
      hide Met, Pruned;
      LimitsAreSet(r, log, limits, before);
      RecordedKeepsSpaced(Times(log, c), LimitOf(limits, c), now);
    }
  }

  /** A start admitted with nothing to wait for keeps every limit over every window. */
  lemma CountingKeeps(r: Rates, log: seq<Start>, limits: Limits, origin: string, address: string, before: int, now: int)
    requires Kept(r, log, limits, before) && before <= now
    requires RetryAfter(Met(r, origin, address, now), limits, origin, address, now) <= 0
    ensures Kept(Counting(Met(r, origin, address, now), origin, address, now), log + [Start(now, origin, address)], limits, now)
  {
    var met, log' := Met(r, origin, address, now), log + [Start(now, origin, address)];
    MetKeeps(r, log, limits, origin, address, before, now);
    var counted := Counting(met, origin, address, now);
    assert counted.origins.Keys == met.origins.Keys && counted.addresses.Keys == met.addresses.Keys by {
      hide Kept;
    }
    FewerKeys(counted.origins, met.origins);
    FewerKeys(counted.addresses, met.addresses);
    hide Met, Limited, Tracks, Counting, RetryAfter, WindowFor;
    forall c ensures Tracks(WindowFor(counted, c), Times(log', c), now) && Limited(log', c, limits, now) {
      CountingLimits(r, log, limits, origin, address, before, now, c);
      CountingCounts(met, log, origin, address, now, c);
    }
  }

  /** Any minute, wherever it begins, holds at most the configured starts in all, per origin and per address. */
  lemma EveryMinuteWithinLimits(r: Rates, log: seq<Start>, limits: Limits, now: int, c: Counted, from: int)
    requires Kept(r, log, limits, now)
    ensures |Within(Times(log, c), from)| <= LimitOf(limits, c)
  {
    assert Limited(log, c, limits, now);
    AnyWindowHoldsTheLimit(Times(log, c), LimitOf(limits, c), from);
  }
}
