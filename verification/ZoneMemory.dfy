/** Zone memory: a sliding-window store, pruned whenever it is read, that must answer like the full history. */
module ZoneMemory {
  import opened Collections
  import opened Directions

  datatype Visit = Visit(ts: real, bouncePts: real)

  datatype ZoneKey = ZoneKey(bucket: int, direction: string, timeframe: string)

  datatype Policy = Policy(size: real, window: real, fastWindow: real, cautionN: int, blockN: int, compressN: int,
                           weakBounce: real, hierarchy: seq<string>, suppresses: map<string, seq<string>>)

  datatype Status = Ok | Caution | Blocked | Elevated

  datatype Phase = Fresh | Active | Exhausting

  type Store = map<ZoneKey, seq<Visit>>

  function NormaliseTf(tf: string): string {
    var key := Lower(Strip(tf));
    if key == "5" || key == "5m" then "5m"
    else if key == "15" || key == "15m" then "15m"
    else if key == "30" || key == "30m" then "30m"
    else if key == "1h" || key == "60" || key == "60m" then "1h"
    else if key == "4h" || key == "240" || key == "240m" then "4h"
    else key
  }

  function Bucket(p: Policy, price: real): int
    requires p.size > 0.0
  {
    Truncate(price / p.size) * Truncate(p.size)
  }

  function KeyOf(p: Policy, price: real, direction: string, tf: string): ZoneKey
    requires p.size > 0.0
  {
    ZoneKey(Bucket(p, price), Lower(direction), NormaliseTf(tf))
  }

  /** The visits after the cutoff, in order. */
  function Recent(visits: seq<Visit>, cutoff: real): (r: seq<Visit>)
    ensures |r| <= |visits|
  {
    if visits == [] then []
    else if visits[0].ts > cutoff then [visits[0]] + Recent(visits[1..], cutoff)
    else Recent(visits[1..], cutoff)
  }

  function At(store: Store, key: ZoneKey): seq<Visit> { if key in store then store[key] else [] }

  // ── what a query answers, from any store ──────────────────────────────────

  function Live(p: Policy, store: Store, key: ZoneKey, now: real): seq<Visit> {
    Recent(At(store, key), now - p.window)
  }

  predicate Exhausted(p: Policy, live: seq<Visit>, now: real) {
    |live| >= p.blockN || |Recent(live, now - p.fastWindow)| >= p.compressN
  }

  function Bounces(visits: seq<Visit>): seq<real> {
    if visits == [] then []
    else (if visits[0].bouncePts > 0.0 then [visits[0].bouncePts] else []) + Bounces(visits[1..])
  }

  function Sum(values: seq<real>): real {
    if values == [] then 0.0 else values[0] + Sum(values[1..])
  }

  function Mean(values: seq<real>): real { if values == [] then 0.0 else Sum(values) / |values| as real }

  function AverageBounce(visits: seq<Visit>): real { Mean(Bounces(visits)) }

  function IndexOf(s: seq<string>, x: string): int {
    if s == [] then -1 else if s[0] == x then 0 else var i := IndexOf(s[1..], x); if i < 0 then -1 else i + 1
  }

  /** The timeframes above tf, none if tf is not in the hierarchy. */
  function Above(p: Policy, tf: string): seq<string> {
    var rank := IndexOf(p.hierarchy, tf);
    if 0 <= rank < |p.hierarchy| then p.hierarchy[rank + 1..] else []
  }

  predicate Suppresses(p: Policy, htf: string, tf: string) {
    htf in p.suppresses && tf in p.suppresses[htf]
  }

  predicate Spent(p: Policy, store: Store, price: real, direction: string, tf: string, now: real)
    requires p.size > 0.0
  {
    Exhausted(p, Live(p, store, KeyOf(p, price, direction, tf), now), now)
  }

  /** How many visits the first spent suppressor above tf has, if there is one. */
  function SpentAbove(p: Policy, store: Store, price: real, direction: string, tf: string, above: seq<string>,
                      now: real): Option<nat>
    requires p.size > 0.0
  {
    if above == [] then None
    else if Suppresses(p, above[0], tf) && Spent(p, store, price, direction, above[0], now) then
      Some(|Live(p, store, KeyOf(p, price, direction, above[0]), now)|)
    else SpentAbove(p, store, price, direction, tf, above[1..], now)
  }

  function Opposite(direction: string): string { if Lower(direction) == "up" then "down" else "up" }

  function CheckOf(p: Policy, store: Store, price: real, direction: string, timeframe: string, now: real): (Status, nat)
    requires p.size > 0.0
  {
    var tf := NormaliseTf(timeframe);
    var own := Live(p, store, KeyOf(p, price, direction, tf), now);
    var above := SpentAbove(p, store, price, direction, tf, Above(p, tf), now);
    if above.Some? then (Blocked, above.value)
    else if Exhausted(p, own, now) then (Blocked, |own|)
    else if |own| >= p.cautionN then (Caution, |own|)
    else if 0.0 < AverageBounce(own) < p.weakBounce then (Caution, |own|)
    else if Spent(p, store, price, Opposite(direction), tf, now) then (Elevated, |own|)
    else (Ok, |own|)
  }

  function PhaseOf(p: Policy, store: Store, price: real, direction: string, timeframe: string, now: real): Phase
    requires p.size > 0.0
  {
    var n := |Live(p, store, KeyOf(p, price, direction, timeframe), now)|;
    if n >= p.blockN then Exhausting else if n >= p.cautionN then Active else Fresh
  }

  // ── pruning is invisible ──────────────────────────────────────────────────

  lemma {:induction false} RecentOfRecent(visits: seq<Visit>, earlier: real, later: real)
    requires earlier <= later
    ensures Recent(Recent(visits, earlier), later) == Recent(visits, later)
  {
    if visits != [] {
      RecentOfRecent(visits[1..], earlier, later);
      assert ([visits[0]] + Recent(visits[1..], earlier))[1..] == Recent(visits[1..], earlier);
    }
  }

  lemma {:induction false} RecentOfAppend(visits: seq<Visit>, v: Visit, cutoff: real)
    ensures Recent(visits + [v], cutoff) == Recent(visits, cutoff) + (if v.ts > cutoff then [v] else [])
  {
    if visits == [] {
      assert visits + [v] == [v];
    } else {
      RecentOfAppend(visits[1..], v, cutoff);
      assert (visits + [v])[1..] == visits[1..] + [v];
    }
  }

  /** The store answers like the history at every moment from since on. */
  ghost predicate Agree(store: Store, history: Store, cutoff: real) {
    forall key :: Recent(At(store, key), cutoff) == Recent(At(history, key), cutoff)
  }

  lemma AgreeLater(store: Store, history: Store, cutoff: real, later: real)
    requires Agree(store, history, cutoff) && cutoff <= later
    ensures Agree(store, history, later)
  {
    forall key ensures Recent(At(store, key), later) == Recent(At(history, key), later) {
      RecentOfRecent(At(store, key), cutoff, later);
      RecentOfRecent(At(history, key), cutoff, later);
    }
  }

  /** It is enough to look at the one key that changed. */
  lemma AgreeChanged(store: Store, history: Store, cutoff: real, key: ZoneKey, x: seq<Visit>, y: seq<Visit>)
    requires Agree(store, history, cutoff) && Recent(x, cutoff) == Recent(y, cutoff)
    ensures Agree(store[key := x], history[key := y], cutoff)
  {
    var store', history' := store[key := x], history[key := y];
    forall k ensures Recent(At(store', k), cutoff) == Recent(At(history', k), cutoff) {
      assert Recent(At(store, k), cutoff) == Recent(At(history, k), cutoff);
    }
  }

  lemma AgreePruned(store: Store, history: Store, cutoff: real, key: ZoneKey)
    requires Agree(store, history, cutoff)
    ensures Agree(store[key := Recent(At(store, key), cutoff)], history, cutoff)
  {
    RecentOfRecent(At(store, key), cutoff, cutoff);
    forall k ensures Recent(At(store[key := Recent(At(store, key), cutoff)], k), cutoff) ==
            Recent(At(history, k), cutoff) {
      assert Recent(At(store, k), cutoff) == Recent(At(history, k), cutoff);
    }
  }

  lemma AgreeRecorded(store: Store, history: Store, cutoff: real, key: ZoneKey, v: Visit)
    requires Agree(store, history, cutoff)
    ensures Agree(store[key := Recent(At(store, key), cutoff) + [v]], history[key := At(history, key) + [v]], cutoff)
  {
    RecentOfRecent(At(store, key), cutoff, cutoff);
    RecentOfAppend(Recent(At(store, key), cutoff), v, cutoff);
    RecentOfAppend(At(history, key), v, cutoff);
    AgreeChanged(store, history, cutoff, key, Recent(At(store, key), cutoff) + [v], At(history, key) + [v]);
  }

  lemma AgreeCleared(store: Store, history: Store, cutoff: real, bucket: int)
    requires Agree(store, history, cutoff)
    ensures Agree(Cleared(store, bucket), Cleared(history, bucket), cutoff)
  {
    forall k ensures Recent(At(Cleared(store, bucket), k), cutoff) == Recent(At(Cleared(history, bucket), k), cutoff) {
      assert Recent(At(store, k), cutoff) == Recent(At(history, k), cutoff);
    }
  }

  /** Every key of one bucket forgotten. */
  function Cleared(store: Store, bucket: int): (r: Store)
    ensures forall key :: At(r, key) == if key.bucket == bucket then [] else At(store, key)
  {
    map key | key in store && key.bucket != bucket :: store[key]
  }

  class ZoneTracker {
    const policy: Policy
    var entries: Store
    ghost var history: Store   // every visit since the last reset of its bucket, never pruned
    ghost var lastRead: real   // the latest clock reading

    ghost predicate Valid()
      reads this
    {
      policy.size > 0.0 && Agree(entries, history, lastRead - policy.window)
    }

    constructor (policy: Policy, now: real)
      requires policy.size > 0.0
      ensures Valid() && this.policy == policy && history == map[] && lastRead == now
    {
      this.policy, entries, history, lastRead := policy, map[], map[], now;
    }

    /** Reading a zone prunes it. */
    method ReadLive(key: ZoneKey, now: real) returns (live: seq<Visit>)
      requires Valid() && lastRead <= now
      modifies this`entries, this`lastRead
      ensures Valid() && lastRead == now
      ensures live == Live(policy, history, key, now)
    {
      AgreeLater(entries, history, lastRead - policy.window, now - policy.window);
      AgreePruned(entries, history, now - policy.window, key);
      live := Recent(At(entries, key), now - policy.window);
      entries := entries[key := live];
      lastRead := now;
    }

    /** The answer is the one that the whole history gives. */
    method Check(price: real, direction: string, timeframe: string, now: real) returns (status: Status, count: nat)
      requires Valid() && lastRead <= now
      modifies this`entries, this`lastRead
      ensures Valid() && lastRead == now
      ensures (status, count) == CheckOf(policy, history, price, direction, timeframe, now)
    {
      var tf := NormaliseTf(timeframe);
      var own := ReadLive(KeyOf(policy, price, direction, tf), now);
      var above := Above(policy, tf);
      var i := 0;
      while i < |above|
        invariant 0 <= i <= |above| && Valid() && lastRead == now
        invariant SpentAbove(policy, history, price, direction, tf, above, now)
               == SpentAbove(policy, history, price, direction, tf, above[i..], now)
      {
        assert above[i..][0] == above[i] && above[i..][1..] == above[i + 1..];
        if Suppresses(policy, above[i], tf) {
          var higher := ReadLive(KeyOf(policy, price, direction, above[i]), now);
          if Exhausted(policy, higher, now) {
            return Blocked, |higher|;
          }
        }
        i := i + 1;
      }
      if Exhausted(policy, own, now) {
        return Blocked, |own|;
      }
      if |own| >= policy.cautionN {
        return Caution, |own|;
      }
      if 0.0 < AverageBounce(own) < policy.weakBounce {
        return Caution, |own|;
      }
      var other := ReadLive(KeyOf(policy, price, Opposite(direction), tf), now);
      if Exhausted(policy, other, now) {
        return Elevated, |own|;
      }
      return Ok, |own|;
    }

    method PhaseAt(price: real, direction: string, timeframe: string, now: real) returns (phase: Phase)
      requires Valid() && lastRead <= now
      modifies this`entries, this`lastRead
      ensures Valid() && lastRead == now
      ensures phase == PhaseOf(policy, history, price, direction, timeframe, now)
    {
      var live := ReadLive(KeyOf(policy, price, direction, timeframe), now);
      phase := if |live| >= policy.blockN then Exhausting else if |live| >= policy.cautionN then Active else Fresh;
    }

    method RecordEntry(price: real, direction: string, timeframe: string, bouncePts: real, now: real)
      requires Valid() && lastRead <= now
      modifies this
      ensures Valid() && lastRead == now
      ensures var key := KeyOf(policy, price, direction, timeframe);
              history == old(history)[key := At(old(history), key) + [Visit(now, bouncePts)]]
    {
      var key, v := KeyOf(policy, price, direction, timeframe), Visit(now, bouncePts);
      AgreeLater(entries, history, lastRead - policy.window, now - policy.window);
      AgreeRecorded(entries, history, now - policy.window, key, v);
      entries := entries[key := Recent(At(entries, key), now - policy.window) + [v]];
      history := history[key := At(history, key) + [v]];
      lastRead := now;
    }

    /** A confirmed flip: the bucket's history no longer describes the market. */
    method ResetZone(price: real) returns (n: nat)
      requires Valid()
      modifies this`entries, this`history
      ensures Valid()
      ensures history == Cleared(old(history), Bucket(policy, price))
      ensures n == |set key | key in old(entries) && key.bucket == Bucket(policy, price)|
    {
      var bucket := Bucket(policy, price);
      AgreeCleared(entries, history, lastRead - policy.window, bucket);
      var keys := set key | key in entries && key.bucket == bucket;
      n := |keys|;
      entries := Cleared(entries, bucket);
      history := Cleared(history, bucket);
    }
  }

  // ── what the answers mean ─────────────────────────────────────────────────

  lemma {:induction false} SpentAboveIff(p: Policy, store: Store, price: real, direction: string, tf: string,
                                         above: seq<string>, now: real)
    requires p.size > 0.0
    ensures SpentAbove(p, store, price, direction, tf, above, now).Some? <==>
              exists htf :: htf in above && Suppresses(p, htf, tf) && Spent(p, store, price, direction, htf, now)
  {
    if above != [] {
      assert forall htf :: htf in above <==> htf == above[0] || htf in above[1..];
      SpentAboveIff(p, store, price, direction, tf, above[1..], now);
    }
  }

  /** Blocked, exactly when the zone itself or a suppressing timeframe above it is spent. */
  lemma BlockedIff(p: Policy, store: Store, price: real, direction: string, timeframe: string, now: real)
    requires p.size > 0.0
    ensures var tf := NormaliseTf(timeframe);
            CheckOf(p, store, price, direction, timeframe, now).0 == Blocked <==>
              || Spent(p, store, price, direction, tf, now)
              || exists htf ::
                   htf in Above(p, tf) && Suppresses(p, htf, tf) && Spent(p, store, price, direction, htf, now)
  {
    var tf := NormaliseTf(timeframe);
    SpentAboveIff(p, store, price, direction, tf, Above(p, tf), now);
  }

  // ── the answers, counted on the history itself ────────────────────────────

  /** Visits to a zone after both cutoffs. */
  ghost function Count(store: Store, key: ZoneKey, a: real, b: real): nat {
    |Indices(At(store, key), a, b)|
  }

  ghost function Indices(visits: seq<Visit>, a: real, b: real): set<int> {
    set i | 0 <= i < |visits| && visits[i].ts > a && visits[i].ts > b
  }

  /** The visits after the cutoff whose bounce was positive. */
  ghost function Bouncing(visits: seq<Visit>, cutoff: real): set<int> {
    set i | 0 <= i < |visits| && visits[i].ts > cutoff && visits[i].bouncePts > 0.0
  }

  ghost function TotalBounce(visits: seq<Visit>, cutoff: real): real {
    if visits == [] then 0.0
    else
      var n := |visits| - 1;
      TotalBounce(visits[..n], cutoff) +
              if visits[n].ts > cutoff && visits[n].bouncePts > 0.0 then visits[n].bouncePts else 0.0
  }

  /** Enough visits within the window, or enough of those within the fast window. */
  ghost predicate Worn(p: Policy, store: Store, key: ZoneKey, now: real) {
    || Count(store, key, now - p.window, now - p.window) >= p.blockN
    || Count(store, key, now - p.window, now - p.fastWindow) >= p.compressN
  }

  /** Some bounce within the window was positive, and the positive ones average below the weak mark. */
  ghost predicate Weak(p: Policy, store: Store, key: ZoneKey, now: real) {
    var visits, cutoff := At(store, key), now - p.window;
    AverageUnder(TotalBounce(visits, cutoff), |Bouncing(visits, cutoff)|, p.weakBounce)
  }

  /** There are n values, at least one, and their total leaves their average below the bound. */
  predicate AverageUnder(total: real, n: nat, bound: real) { n > 0 && total < bound * n as real }

  /** The j-th timeframe of the hierarchy is above tf, suppresses it, and its zone is worn. */
  ghost predicate SuppressedAt(p: Policy, store: Store, price: real, direction: string, tf: string, j: int, now: real)
    requires p.size > 0.0
  {
    && 0 <= j < |p.hierarchy| && tf in p.hierarchy[..j]
    && p.hierarchy[j] in p.suppresses && tf in p.suppresses[p.hierarchy[j]]
    && Worn(p, store, KeyOf(p, price, direction, p.hierarchy[j]), now)
  }

  ghost predicate FirstSuppressedAt(p: Policy, store: Store, price: real, direction: string, tf: string, j: int,
                                    now: real)
    requires p.size > 0.0
  {
    && SuppressedAt(p, store, price, direction, tf, j, now)
    && forall i :: 0 <= i < j ==> !SuppressedAt(p, store, price, direction, tf, i, now)
  }

  lemma {:induction false} RecentCounts(visits: seq<Visit>, a: real, b: real)
    ensures |Recent(Recent(visits, a), b)| == |Indices(visits, a, b)|
  {
    if visits != [] {
      var n := |visits| - 1;
      var init, v := visits[..n], visits[n];
      InitAndLast(visits);
      RecentCounts(init, a, b);
      RecentOfAppend(init, v, a);
      assert Recent(init, a) + [] == Recent(init, a);
      RecentOfAppend(Recent(init, a), v, b);
      assert Indices(visits, a, b) == Indices(init, a, b) + if v.ts > a && v.ts > b then {n} else {};
    }
  }

  lemma LiveCounts(p: Policy, store: Store, key: ZoneKey, now: real)
    ensures |Live(p, store, key, now)| == Count(store, key, now - p.window, now - p.window)
    ensures Exhausted(p, Live(p, store, key, now), now) <==> Worn(p, store, key, now)
  {
    var visits := At(store, key);
    RecentCounts(visits, now - p.window, now - p.window);
    RecentOfRecent(visits, now - p.window, now - p.window);
    RecentCounts(visits, now - p.window, now - p.fastWindow);
  }

  lemma {:induction false} BouncesOfAppend(visits: seq<Visit>, v: Visit)
    ensures Bounces(visits + [v]) == Bounces(visits) + (if v.bouncePts > 0.0 then [v.bouncePts] else [])
  {
    if visits == [] {
      assert visits + [v] == [v];
    } else {
      BouncesOfAppend(visits[1..], v);
      assert (visits + [v])[1..] == visits[1..] + [v];
    }
  }

  lemma {:induction false} SumOfAppend(values: seq<real>, x: real)
    ensures Sum(values + [x]) == Sum(values) + x
  {
    if values == [] {
      assert values + [x] == [x];
    } else {
      SumOfAppend(values[1..], x);
      assert (values + [x])[1..] == values[1..] + [x];
    }
  }

  lemma BouncesNext(init: seq<Visit>, v: Visit, cutoff: real)
    ensures Bounces(Recent(init + [v], cutoff)) ==
            Bounces(Recent(init, cutoff)) + if v.ts > cutoff && v.bouncePts > 0.0 then [v.bouncePts] else []
  {
    RecentOfAppend(init, v, cutoff);
    if v.ts > cutoff {
      BouncesOfAppend(Recent(init, cutoff), v);
    } else {
      assert Recent(init, cutoff) + [] == Recent(init, cutoff);
    }
  }

  lemma {:induction false} BouncesCount(visits: seq<Visit>, cutoff: real)
    ensures |Bounces(Recent(visits, cutoff))| == |Bouncing(visits, cutoff)|
  {
    if visits != [] {
      var n := |visits| - 1;
      InitAndLast(visits);
      BouncesCount(visits[..n], cutoff);
      BouncesNext(visits[..n], visits[n], cutoff);
      assert Bouncing(visits, cutoff) ==
              Bouncing(visits[..n], cutoff) + if n in Bouncing(visits, cutoff) then {n} else {};
    }
  }

  lemma {:induction false} BouncesAddUp(visits: seq<Visit>, cutoff: real)
    ensures Sum(Bounces(Recent(visits, cutoff))) == TotalBounce(visits, cutoff)
    ensures if Bounces(Recent(visits, cutoff)) == [] then TotalBounce(visits, cutoff) == 0.0
            else TotalBounce(visits, cutoff) > 0.0
  {
    if visits != [] {
      var n := |visits| - 1;
      InitAndLast(visits);
      BouncesAddUp(visits[..n], cutoff);
      BouncesNext(visits[..n], visits[n], cutoff);
      var before := Bounces(Recent(visits[..n], cutoff));
      assert before + [] == before;
      SumOfAppend(before, visits[n].bouncePts);
    }
  }

  lemma AverageIsWeak(p: Policy, store: Store, key: ZoneKey, now: real)
    ensures 0.0 < AverageBounce(Live(p, store, key, now)) < p.weakBounce <==> Weak(p, store, key, now)
  {
    var visits, cutoff := At(store, key), now - p.window;
    BouncesCount(visits, cutoff);
    BouncesAddUp(visits, cutoff);
    MeanBelow(Bounces(Recent(visits, cutoff)), TotalBounce(visits, cutoff), p.weakBounce);
  }

  lemma MeanBelow(values: seq<real>, total: real, bound: real)
    requires Sum(values) == total && (values != [] ==> total > 0.0)
    ensures 0.0 < Mean(values) < bound <==> AverageUnder(total, |values|, bound)
  {
    if values != [] {
      QuotientBelow(total, |values| as real, bound);
    }
  }

  lemma QuotientBelow(total: real, n: real, bound: real)
    requires n > 0.0 && total > 0.0
    ensures total / n > 0.0 && (total / n < bound <==> total < bound * n)
  {
    var x := total / n;
    assert x * n == total;
    if x < bound {
      TimesMore(x, bound, n);
    } else {
      TimesPositive(bound, x, n);
    }
    if x <= 0.0 {
      TimesPositive(x, 0.0, n);
    }
  }

  lemma {:induction false} IndexOfIsFirst(s: seq<string>, x: string)
    ensures x !in s ==> IndexOf(s, x) == -1
    ensures x in s ==> 0 <= IndexOf(s, x) < |s| && s[IndexOf(s, x)] == x && x !in s[..IndexOf(s, x)]
  {
    if s != [] && s[0] != x {
      IndexOfIsFirst(s[1..], x);
      assert x in s <==> x in s[1..];
      if x in s {
        var i := IndexOf(s, x);
        assert s[..i] == [s[0]] + s[1..][..i - 1];
      }
    }
  }

  /** found is the number of visits of the first worn suppressor above tf, if there is one. */
  ghost predicate WalksTo(p: Policy, store: Store, price: real, direction: string, tf: string, found: Option<nat>,
                          now: real)
    requires p.size > 0.0
  {
    match found
    case None => forall j :: !SuppressedAt(p, store, price, direction, tf, j, now)
    case Some(n) =>
      exists j :: FirstSuppressedAt(p, store, price, direction, tf, j, now)
        && n == Count(store, KeyOf(p, price, direction, p.hierarchy[j]), now - p.window, now - p.window)
  }

  /** One step of the walk upward. */
  lemma SpentAboveNext(p: Policy, store: Store, price: real, direction: string, tf: string, k: nat, now: real)
    requires p.size > 0.0 && k < |p.hierarchy| && tf in p.hierarchy[..k]
    ensures SpentAbove(p, store, price, direction, tf, p.hierarchy[k..], now) ==
            if SuppressedAt(p, store, price, direction, tf, k, now)
            then Some(Count(store, KeyOf(p, price, direction, p.hierarchy[k]), now - p.window, now - p.window))
            else SpentAbove(p, store, price, direction, tf, p.hierarchy[k + 1..], now)
  {
    var htf := p.hierarchy[k];
    LiveCounts(p, store, KeyOf(p, price, direction, htf), now);
    assert p.hierarchy[k..][0] == htf && p.hierarchy[k..][1..] == p.hierarchy[k + 1..];
  }

  /** From place k of the hierarchy on, what the walk upward finds is the first suppressor that is worn. */
  lemma {:induction false} SpentAboveIsFirst(p: Policy, store: Store, price: real, direction: string, tf: string,
                                             k: nat, now: real)
    requires p.size > 0.0 && k <= |p.hierarchy| && tf in p.hierarchy[..k]
    requires forall i :: 0 <= i < k ==> !SuppressedAt(p, store, price, direction, tf, i, now)
    ensures WalksTo(p, store, price, direction, tf,
                    SpentAbove(p, store, price, direction, tf, p.hierarchy[k..], now), now)
    decreases |p.hierarchy| - k
  {
    if k < |p.hierarchy| {
      SpentAboveNext(p, store, price, direction, tf, k, now);
      if SuppressedAt(p, store, price, direction, tf, k, now) {
        assert FirstSuppressedAt(p, store, price, direction, tf, k, now);
      } else {
        assert p.hierarchy[..k + 1] == p.hierarchy[..k] + [p.hierarchy[k]];
        SpentAboveIsFirst(p, store, price, direction, tf, k + 1, now);
      }
    }
  }

  lemma AboveIsFirst(p: Policy, store: Store, price: real, direction: string, tf: string, now: real)
    requires p.size > 0.0
    ensures WalksTo(p, store, price, direction, tf, SpentAbove(p, store, price, direction, tf, Above(p, tf), now), now)
  {
    var k := IndexOf(p.hierarchy, tf);
    IndexOfIsFirst(p.hierarchy, tf);
    if tf in p.hierarchy {
      assert p.hierarchy[..k + 1] == p.hierarchy[..k] + [tf];
      SpentAboveIsFirst(p, store, price, direction, tf, k + 1, now);
    }
  }

  /** The zone is blocked: worn itself, or under a worn suppressor. */
  ghost predicate IsBlocked(p: Policy, store: Store, price: real, direction: string, tf: string, now: real)
    requires p.size > 0.0
  {
    || Worn(p, store, KeyOf(p, price, direction, tf), now)
    || exists j :: SuppressedAt(p, store, price, direction, tf, j, now)
  }

  /** The zone is being worked: visited often enough, or its bounces are weak. */
  ghost predicate IsWorked(p: Policy, store: Store, key: ZoneKey, now: real) {
    Count(store, key, now - p.window, now - p.window) >= p.cautionN || Weak(p, store, key, now)
  }

  /**
   * Each status from the visits alone: cautioned exactly when not blocked but
   * worked, elevated exactly when neither but the opposite direction's zone is
   * worn, ok exactly when none of these.
   */
  lemma StatusIff(p: Policy, store: Store, price: real, direction: string, timeframe: string, now: real)
    requires p.size > 0.0
    ensures var status, tf := CheckOf(p, store, price, direction, timeframe, now).0, NormaliseTf(timeframe);
            var own := KeyOf(p, price, direction, tf);
            var other := KeyOf(p, price, if Lower(direction) == "up" then "down" else "up", tf);
            var blocked := IsBlocked(p, store, price, direction, tf, now);
            && (status == Blocked <==> blocked)
            && (status == Caution <==> !blocked && IsWorked(p, store, own, now))
            && (status == Elevated <==> !blocked && !IsWorked(p, store, own, now) && Worn(p, store, other, now))
            && (status == Ok <==> !blocked && !IsWorked(p, store, own, now) && !Worn(p, store, other, now))
  {
    var tf := NormaliseTf(timeframe);
    var own := KeyOf(p, price, direction, tf);
    AboveIsFirst(p, store, price, direction, tf, now);
    LiveCounts(p, store, own, now);
    LiveCounts(p, store, KeyOf(p, price, Opposite(direction), tf), now);
    AverageIsWeak(p, store, own, now);
  }

  /** The count is of the zone's own visits within the window, or of those of the first worn suppressor above it. */
  lemma CountIs(p: Policy, store: Store, price: real, direction: string, timeframe: string, now: real)
    requires p.size > 0.0
    ensures var n, tf := CheckOf(p, store, price, direction, timeframe, now).1, NormaliseTf(timeframe);
            if exists j :: SuppressedAt(p, store, price, direction, tf, j, now) then
              exists j :: FirstSuppressedAt(p, store, price, direction, tf, j, now)
                && n == Count(store, KeyOf(p, price, direction, p.hierarchy[j]), now - p.window, now - p.window)
            else n == Count(store, KeyOf(p, price, direction, tf), now - p.window, now - p.window)
  {
    var tf := NormaliseTf(timeframe);
    AboveIsFirst(p, store, price, direction, tf, now);
    LiveCounts(p, store, KeyOf(p, price, direction, tf), now);
  }

  /** Exhausting from the block count on, active from the caution count to there, fresh below both. */
  lemma PhaseIff(p: Policy, store: Store, price: real, direction: string, timeframe: string, now: real)
    requires p.size > 0.0
    ensures var n := Count(store, KeyOf(p, price, direction, timeframe), now - p.window, now - p.window);
            var phase := PhaseOf(p, store, price, direction, timeframe, now);
            && (phase == Exhausting <==> n >= p.blockN)
            && (phase == Active <==> p.cautionN <= n < p.blockN)
            && (phase == Fresh <==> n < p.cautionN && n < p.blockN)
  {
    LiveCounts(p, store, KeyOf(p, price, direction, timeframe), now);
  }

  // ── which prices share a zone ─────────────────────────────────────────────

  predicate Reaches(a: real, k: int, size: real) { k as real * size <= a }

  /** A multiple of the zone size lies above a and at or below b. */
  predicate Parts(k: int, size: real, a: real, b: real) { !Reaches(a, k, size) && Reaches(b, k, size) }

  lemma QuotientFloor(size: real, a: real, k: int)
    requires size > 0.0
    ensures k <= (a / size).Floor <==> Reaches(a, k, size)
  {
    var x := a / size;
    assert x * size == a;
    if k as real <= x {
      TimesPositive(k as real, x, size);
    } else {
      TimesMore(x, k as real, size);
    }
  }

  lemma TimesPositive(x: real, y: real, size: real)
    requires x <= y && size > 0.0
    ensures x * size <= y * size
  {
    assert (y - x) * size >= 0.0;
  }

  lemma TimesMore(x: real, y: real, size: real)
    requires x < y && size > 0.0
    ensures x * size < y * size
  {
    assert (y - x) * size > 0.0;
  }

  /** The number of whole zones below a price. */
  lemma BucketIs(p: Policy, a: real) returns (i: nat)
    requires p.size > 0.0 && 0.0 <= a
    ensures i == (a / p.size).Floor && Bucket(p, a) == i * p.size.Floor && p.size.Floor >= 0
    ensures forall k: int :: Reaches(a, k, p.size) <==> k <= i
  {
    QuotientFloor(p.size, a, 0);
    i := (a / p.size).Floor;
    forall k: int ensures Reaches(a, k, p.size) <==> k <= i {
      QuotientFloor(p.size, a, k);
    }
  }

  lemma SameProduct(i: int, j: int, unit: int)
    requires unit > 0
    ensures i * unit == j * unit <==> i == j
  {
    if i < j {
      assert (j - i) * unit > 0;
    } else if j < i {
      assert (i - j) * unit > 0;
    }
  }

  /**
   * Two prices share a zone if and only if no multiple of the zone size
   * separates them, or the size is below one and there is only one zone.
   */
  lemma SameBucketIff(p: Policy, a: real, b: real)
    requires p.size > 0.0 && 0.0 <= a <= b
    ensures Bucket(p, a) == Bucket(p, b) <==> p.size < 1.0 || forall k: int :: !Parts(k, p.size, a, b)
  {
    var i := BucketIs(p, a);
    var j := BucketIs(p, b);
    if p.size >= 1.0 {
      SameProduct(i, j, p.size.Floor);
    }
    forall k: int ensures Parts(k, p.size, a, b) <==> i < k <= j {}
    assert i < j ==> Parts(j, p.size, a, b);
    assert Reaches(a, i, p.size) && Reaches(b, i, p.size);
  }

  /** The names of each known timeframe are one; any other name stands for itself, trimmed and lower-cased. */
  lemma TimeframeNames(tf: string)
    ensures var word := Lower(Strip(tf));
            && (NormaliseTf(tf) == "5m" <==> word in {"5", "5m"})
            && (NormaliseTf(tf) == "15m" <==> word in {"15", "15m"})
            && (NormaliseTf(tf) == "30m" <==> word in {"30", "30m"})
            && (NormaliseTf(tf) == "1h" <==> word in {"1h", "60", "60m"})
            && (NormaliseTf(tf) == "4h" <==> word in {"4h", "240", "240m"})
            && (NormaliseTf(tf) !in {"5m", "15m", "30m", "1h", "4h"} ==> NormaliseTf(tf) == word)
  {
  }

  /** Keys agree exactly on the zone, the direction without case, and the timeframe under any of its names. */
  lemma SameKeyIff(p: Policy, a: real, d: string, s: string, b: real, e: string, t: string)
    requires p.size > 0.0 && 0.0 <= a <= b
    ensures KeyOf(p, a, d, s) == KeyOf(p, b, e, t) <==>
              && (p.size < 1.0 || forall k: int :: !Parts(k, p.size, a, b))
              && Lower(d) == Lower(e) && NormaliseTf(s) == NormaliseTf(t)
  {
    SameBucketIff(p, a, b);
  }

  lemma {:induction false} RecentShrinks(visits: seq<Visit>, earlier: real, later: real)
    requires earlier <= later
    ensures |Recent(visits, later)| <= |Recent(visits, earlier)|
  {
    if visits != [] {
      RecentShrinks(visits[1..], earlier, later);
    }
  }

  lemma SpentFades(p: Policy, store: Store, price: real, direction: string, tf: string, now: real, later: real)
    requires p.size > 0.0 && now <= later && Spent(p, store, price, direction, tf, later)
    ensures Spent(p, store, price, direction, tf, now)
  {
    var visits := At(store, KeyOf(p, price, direction, tf));
    RecentShrinks(visits, now - p.window, later - p.window);
    FastCount(visits, p, now, later);
  }

  lemma TwiceShrinks(visits: seq<Visit>, a: real, b: real, c: real, d: real)
    requires a <= c && b <= d
    ensures |Recent(Recent(visits, c), d)| <= |Recent(Recent(visits, a), b)|
  {
    RecentTwice(visits, a, b);
    RecentTwice(visits, c, d);
    RecentShrinks(visits, Max(a, b), Max(c, d));
  }

  lemma FastCount(visits: seq<Visit>, p: Policy, now: real, later: real)
    requires now <= later
    ensures |Recent(Recent(visits, later - p.window), later - p.fastWindow)|
         <= |Recent(Recent(visits, now - p.window), now - p.fastWindow)|
  {
    TwiceShrinks(visits, now - p.window, now - p.fastWindow, later - p.window, later - p.fastWindow);
  }

  lemma {:induction false} RecentTwice(visits: seq<Visit>, a: real, b: real)
    ensures Recent(Recent(visits, a), b) == Recent(visits, Max(a, b))
  {
    if visits != [] {
      RecentTwice(visits[1..], a, b);
      assert ([visits[0]] + Recent(visits[1..], a))[1..] == Recent(visits[1..], a);
    }
  }

  /** While nothing is recorded, a zone never becomes blocked. */
  lemma BlockedOnlyFades(p: Policy, store: Store, price: real, direction: string, timeframe: string, now: real,
                         later: real)
    requires p.size > 0.0 && now <= later
    requires CheckOf(p, store, price, direction, timeframe, later).0 == Blocked
    ensures CheckOf(p, store, price, direction, timeframe, now).0 == Blocked
  {
    var tf := NormaliseTf(timeframe);
    BlockedIff(p, store, price, direction, timeframe, now);
    BlockedIff(p, store, price, direction, timeframe, later);
    if Spent(p, store, price, direction, tf, later) {
      SpentFades(p, store, price, direction, tf, now, later);
    } else {
      var htf :| htf in Above(p, tf) && Suppresses(p, htf, tf) && Spent(p, store, price, direction, htf, later);
      SpentFades(p, store, price, direction, htf, now, later);
    }
  }

  /** A full window after the last visit, every zone is as if never traded. */
  lemma EverythingDecays(p: Policy, store: Store, price: real, direction: string, timeframe: string, now: real)
    requires p.size > 0.0 && p.blockN > 0 && p.compressN > 0 && p.cautionN > 0
    requires forall key, v :: key in store && v in store[key] ==> v.ts + p.window <= now
    ensures CheckOf(p, store, price, direction, timeframe, now) == (Ok, 0)
    ensures PhaseOf(p, store, price, direction, timeframe, now) == Fresh
  {
    forall key ensures Live(p, store, key, now) == [] {
      NothingRecent(At(store, key), now - p.window);
    }
    BlockedIff(p, store, price, direction, timeframe, now);
  }

  lemma {:induction false} NothingRecent(visits: seq<Visit>, cutoff: real)
    requires forall v :: v in visits ==> v.ts <= cutoff
    ensures Recent(visits, cutoff) == []
  {
    if visits != [] {
      assert visits[0] in visits && forall v :: v in visits[1..] ==> v in visits;
      NothingRecent(visits[1..], cutoff);
    }
  }
}
