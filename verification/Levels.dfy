/** Hourly swing levels: bucketing that ignores the order of bars, and window extremes that really occurred. */
module Levels {
  import opened Collections

  /** A minute bar as the broker sent it; one that cannot be read is skipped. */
  datatype RawBar = Unreadable | Bar(time: real, high: real, low: real)

  /** One hour's range. */
  datatype Candle = Candle(hour: int, high: real, low: real)

  function HourAt(time: real): int {
    var ts := Truncate(time);
    ts - ts % 3600
  }

  /** A bar belongs to the hour whose first second is at or before it and whose last is not. */
  lemma HourIff(time: real, hour: int)
    ensures HourAt(time) == hour <==> hour % 3600 == 0 && hour <= Truncate(time) < hour + 3600
    ensures time >= 0.0 ==>
              (HourAt(time) == hour <==> hour % 3600 == 0 && hour as real <= time < (hour + 3600) as real)
  {
    var ts := Truncate(time);
    assert ts == 3600 * (ts / 3600) + ts % 3600;
    if hour % 3600 == 0 && hour <= ts < hour + 3600 {
      assert hour == 3600 * (hour / 3600);
    }
  }

  /** A readable bar as a range in the hour it falls in. */
  function MarkOf(bar: RawBar): Candle
    requires bar.Bar?
  {
    Candle(HourAt(bar.time), bar.high, bar.low)
  }

  /** The readable bars, in the order they came. */
  function Marks(bars: seq<RawBar>): (marks: seq<Candle>)
    ensures forall m :: m in marks <==> exists bar | bar in bars :: bar.Bar? && MarkOf(bar) == m
  {
    if bars == [] then []
    else
      var rest := bars[..|bars| - 1];
      var last := bars[|bars| - 1];
      assert forall bar :: bar in bars <==> bar in rest || bar == last;
      if last.Bar? then Marks(rest) + [MarkOf(last)] else Marks(rest)
  }

  // ── what an hourly series is, whatever order the bars came in ─────────────

  /** c is the exact range of the bars of its hour. */
  ghost predicate IsRange(c: Candle, bars: seq<Candle>) {
    && (exists i :: 0 <= i < |bars| && bars[i].hour == c.hour && bars[i].high == c.high)
    && (exists i :: 0 <= i < |bars| && bars[i].hour == c.hour && bars[i].low == c.low)
    && forall i :: 0 <= i < |bars| && bars[i].hour == c.hour ==> c.low <= bars[i].low && bars[i].high <= c.high
  }

  ghost predicate Ascending(hourly: seq<Candle>) {
    forall i, j :: 0 <= i < j < |hourly| ==> hourly[i].hour < hourly[j].hour
  }

  ghost predicate Covers(hourly: seq<Candle>, bars: seq<Candle>) {
    forall i :: 0 <= i < |bars| ==> HasHour(hourly, bars[i].hour)
  }

  ghost predicate HasHour(hourly: seq<Candle>, hour: int) {
    hourly != [] && (hourly[|hourly| - 1].hour == hour || HasHour(hourly[..|hourly| - 1], hour))
  }

  lemma {:induction false} FindHour(hourly: seq<Candle>, hour: int) returns (c: nat)
    requires HasHour(hourly, hour)
    ensures c < |hourly| && hourly[c].hour == hour
  {
    c := |hourly| - 1;
    if hourly[c].hour != hour {
      c := FindHour(hourly[..c], hour);
    }
  }

  lemma {:induction false} HourAtIndex(hourly: seq<Candle>, c: nat)
    requires c < |hourly|
    ensures HasHour(hourly, hourly[c].hour)
  {
    if c < |hourly| - 1 {
      HourAtIndex(hourly[..|hourly| - 1], c);
    }
  }

  ghost predicate AllRanges(hourly: seq<Candle>, bars: seq<Candle>) {
    forall c :: 0 <= c < |hourly| ==> IsRange(hourly[c], bars)
  }

  /** One candle for every hour that has a bar, in order of time, each the exact range of its hour. */
  ghost predicate IsHourly(hourly: seq<Candle>, bars: seq<Candle>) {
    Ascending(hourly) && AllRanges(hourly, bars) && Covers(hourly, bars)
  }

  ghost predicate SameBars(a: seq<Candle>, b: seq<Candle>) {
    && (forall i :: 0 <= i < |a| ==> a[i] in b)
    && (forall i :: 0 <= i < |b| ==> b[i] in a)
  }

  lemma RangeOnlyDependsOnBars(c: Candle, a: seq<Candle>, b: seq<Candle>)
    requires IsRange(c, a) && SameBars(a, b)
    ensures IsRange(c, b)
  {
    var i :| 0 <= i < |a| && a[i].hour == c.hour && a[i].high == c.high;
    var j :| 0 <= j < |a| && a[j].hour == c.hour && a[j].low == c.low;
    var i' :| 0 <= i' < |b| && b[i'] == a[i];
    var j' :| 0 <= j' < |b| && b[j'] == a[j];
  }

  lemma RangeIsUnique(c: Candle, d: Candle, bars: seq<Candle>)
    requires c.hour == d.hour && IsRange(c, bars) && IsRange(d, bars)
    ensures c == d
  {
  }

  /** Every hour of one series is an hour of the other. */
  lemma HoursWithin(a: seq<Candle>, b: seq<Candle>, bars: seq<Candle>, i: nat) returns (j: nat)
    requires AllRanges(a, bars) && IsHourly(b, bars) && i < |a|
    ensures j < |b| && b[j] == a[i]
  {
    assert IsRange(a[i], bars);
    var k :| 0 <= k < |bars| && bars[k].hour == a[i].hour;
    j := FindHour(b, bars[k].hour);
    RangeIsUnique(a[i], b[j], bars);
  }

  lemma MembersWithin(a: seq<Candle>, b: seq<Candle>, bars: seq<Candle>)
    requires AllRanges(a, bars) && IsHourly(b, bars)
    ensures forall x :: x in a ==> x in b
  {
    forall x | x in a ensures x in b {
      var i :| 0 <= i < |a| && a[i] == x;
      var j := HoursWithin(a, b, bars, i);
    }
  }

  lemma LatestIsShared(a: seq<Candle>, b: seq<Candle>)
    requires Ascending(a) && Ascending(b) && a != [] && b != []
    requires a[|a| - 1] in b && b[|b| - 1] in a
    ensures a[|a| - 1] == b[|b| - 1]
  {
    var j :| 0 <= j < |b| && b[j] == a[|a| - 1];
    var i :| 0 <= i < |a| && a[i] == b[|b| - 1];
  }

  lemma SomeMember(s: seq<Candle>)
    ensures s == [] || s[0] in s
  {
  }

  lemma WithoutLatest(a: seq<Candle>) returns (rest: seq<Candle>)
    requires Ascending(a) && a != []
    ensures a == rest + [a[|a| - 1]] && Ascending(rest)
    ensures forall x :: x in rest <==> x in a && x != a[|a| - 1]
  {
    rest := a[..|a| - 1];
    assert a == rest + [a[|a| - 1]];
  }

  /** Two ascending series with the same members are the same series. */
  lemma {:induction false} AscendingIsUnique(a: seq<Candle>, b: seq<Candle>)
    requires Ascending(a) && Ascending(b) && forall x :: x in a <==> x in b
    ensures a == b
    decreases |a|
  {
    SomeMember(a);
    SomeMember(b);
    if a != [] && b != [] {
      LatestIsShared(a, b);
      var restA := WithoutLatest(a);
      var restB := WithoutLatest(b);
      forall x ensures x in restA <==> x in restB { assert x in a <==> x in b; }
      AscendingIsUnique(restA, restB);
    }
  }

  /** The hourly series is settled by which bars there are: their order and their repetitions say nothing. */
  lemma HourlyIgnoresOrder(a: seq<Candle>, barsA: seq<Candle>, b: seq<Candle>, barsB: seq<Candle>)
    requires IsHourly(a, barsA) && IsHourly(b, barsB) && SameBars(barsA, barsB)
    ensures a == b
  {
    forall c | 0 <= c < |b| ensures IsRange(b[c], barsA) { RangeOnlyDependsOnBars(b[c], barsB, barsA); }
    forall i | 0 <= i < |barsA| ensures HasHour(b, barsA[i].hour) {
      assert barsA[i] in barsB;
      var j :| 0 <= j < |barsB| && barsB[j] == barsA[i];
    }
    MembersWithin(a, b, barsA);
    MembersWithin(b, a, barsA);
    AscendingIsUnique(a, b);
  }

  /** Minute bars delivered in another order, or delivered twice, give the same hourly series. */
  lemma BarOrderDoesNotMatter(a: seq<Candle>, barsA: seq<RawBar>, b: seq<Candle>, barsB: seq<RawBar>)
    requires IsHourly(a, Marks(barsA)) && IsHourly(b, Marks(barsB)) && forall bar :: bar in barsA <==> bar in barsB
    ensures a == b
  {
    forall m ensures m in Marks(barsA) <==> m in Marks(barsB) { }
    forall i | 0 <= i < |Marks(barsA)| ensures Marks(barsA)[i] in Marks(barsB) {
      assert Marks(barsA)[i] in Marks(barsA);
    }
    forall i | 0 <= i < |Marks(barsB)| ensures Marks(barsB)[i] in Marks(barsA) {
      assert Marks(barsB)[i] in Marks(barsB);
    }
    HourlyIgnoresOrder(a, Marks(barsA), b, Marks(barsB));
  }

  // ── bucketing ─────────────────────────────────────────────────────────────

  /** The buckets after the first n bars. */
  ghost predicate Bucketed(buckets: map<int, Candle>, bars: seq<Candle>) {
    && (forall h | h in buckets :: buckets[h].hour == h && IsRange(buckets[h], bars))
    && (forall i :: 0 <= i < |bars| ==> bars[i].hour in buckets)
  }

  function Widened(c: Candle, bar: Candle): Candle
  {
    c.(high := Max(c.high, bar.high), low := Min(c.low, bar.low))
  }

  function Poured(buckets: map<int, Candle>, bar: Candle): map<int, Candle> {
    buckets[bar.hour := if bar.hour in buckets then Widened(buckets[bar.hour], bar) else bar]
  }

  lemma WidenedIsRange(c: Candle, bars: seq<Candle>, bar: Candle)
    requires IsRange(c, bars) && bar.hour == c.hour
    ensures IsRange(Widened(c, bar), bars + [bar])
  {
    var more := bars + [bar];
    var i :| 0 <= i < |bars| && bars[i].hour == c.hour && bars[i].high == c.high;
    var j :| 0 <= j < |bars| && bars[j].hour == c.hour && bars[j].low == c.low;
    assert more[i] == bars[i] && more[j] == bars[j] && more[|bars|] == bar;
    assert more[if bar.high > c.high then |bars| else i].hour == c.hour;
    assert more[if bar.low < c.low then |bars| else j].hour == c.hour;
  }

  lemma OtherHourKeepsRange(c: Candle, bars: seq<Candle>, bar: Candle)
    requires IsRange(c, bars) && bar.hour != c.hour
    ensures IsRange(c, bars + [bar])
  {
    var more := bars + [bar];
    var i :| 0 <= i < |bars| && bars[i].hour == c.hour && bars[i].high == c.high;
    var j :| 0 <= j < |bars| && bars[j].hour == c.hour && bars[j].low == c.low;
    assert more[i] == bars[i] && more[j] == bars[j];
  }

  lemma FirstIsRange(bars: seq<Candle>, bar: Candle)
    requires forall i :: 0 <= i < |bars| ==> bars[i].hour != bar.hour
    ensures IsRange(bar, bars + [bar])
  {
    assert (bars + [bar])[|bars|] == bar;
  }

  lemma PouredKeepsBucketed(buckets: map<int, Candle>, bars: seq<Candle>, bar: Candle)
    requires Bucketed(buckets, bars)
    ensures Bucketed(Poured(buckets, bar), bars + [bar])
  {
    var now := Poured(buckets, bar);
    forall h | h in now ensures now[h].hour == h && IsRange(now[h], bars + [bar]) {
      if bar.hour != h {
        OtherHourKeepsRange(buckets[h], bars, bar);
      } else if h in buckets {
        WidenedIsRange(buckets[h], bars, bar);
      } else {
        FirstIsRange(bars, bar);
      }
    }
  }

  predicate Rising(s: seq<int>) { forall i, j :: 0 <= i < j < |s| ==> s[i] < s[j] }

  lemma RisingFrom(x: int, rest: seq<int>)
    requires Rising(rest) && forall y :: y in rest ==> x < y
    ensures Rising([x] + rest)
  {
    forall i | 0 <= i < |rest| ensures x < rest[i] { assert rest[i] in rest; }
  }

  /** x put in its place. */
  function Placed(sorted: seq<int>, x: int): (r: seq<int>)
    requires Rising(sorted) && x !in sorted
    ensures Rising(r)
    ensures forall y :: y in r <==> y in sorted || y == x
  {
    if sorted == [] then [x]
    else if x < sorted[0] then [x] + sorted
    else
      assert forall y :: y in sorted <==> y == sorted[0] || y in sorted[1..];
      var rest := Placed(sorted[1..], x);
      RisingFrom(sorted[0], rest);
      [sorted[0]] + rest
  }

  function Sorted(s: seq<int>): (r: seq<int>)
    requires NoDup(s)
    ensures Rising(r)
    ensures forall y :: y in r <==> y in s
  {
    if s == [] then []
    else
      var n := |s| - 1;
      assert forall y :: y in s <==> y in s[..n] || y == s[n];
      Placed(Sorted(s[..n]), s[n])
  }

  lemma ReadingOneMore(bars: seq<RawBar>, n: nat)
    requires n < |bars|
    ensures Marks(bars[..n + 1]) == if bars[n].Bar? then Marks(bars[..n]) + [MarkOf(bars[n])] else Marks(bars[..n])
  {
    assert bars[..n + 1][..n] == bars[..n];
  }

  ghost predicate Listed(hourly: seq<Candle>, buckets: map<int, Candle>) {
    && (forall c :: 0 <= c < |hourly| ==> hourly[c].hour in buckets && hourly[c] == buckets[hourly[c].hour])
    && forall h | h in buckets :: HasHour(hourly, h)
  }

  lemma BucketsAreHourly(buckets: map<int, Candle>, hourly: seq<Candle>, bars: seq<Candle>)
    requires Bucketed(buckets, bars) && Ascending(hourly) && Listed(hourly, buckets)
    ensures IsHourly(hourly, bars)
  {
  }

  /** One candle per bucket, by hour. */
  method ByHour(buckets: Dict<int, Candle>) returns (hourly: seq<Candle>)
    requires buckets.Valid() && forall h | h in buckets.at :: buckets.at[h].hour == h
    ensures Ascending(hourly) && Listed(hourly, buckets.at)
  {
    var hours := Sorted(buckets.keys);
    hourly := seq(|hours|, i requires 0 <= i < |hours| => assert hours[i] in hours; buckets.at[hours[i]]);
    forall h | h in buckets.at ensures HasHour(hourly, h) {
      var c :| 0 <= c < |hours| && hours[c] == h;
      HourAtIndex(hourly, c);
    }
    forall c | 0 <= c < |hourly| ensures hourly[c].hour in buckets.at && hourly[c] == buckets.at[hourly[c].hour] {
      assert hours[c] in hours;
    }
  }

  /** Minute bars into hourly candles. */
  method ToHourly(bars: seq<RawBar>) returns (hourly: seq<Candle>)
    ensures IsHourly(hourly, Marks(bars))
  {
    var buckets: Dict<int, Candle> := Empty();
    for n := 0 to |bars|
      invariant buckets.Valid() && Bucketed(buckets.at, Marks(bars[..n]))
    {
      ReadingOneMore(bars, n);
      if bars[n].Bar? {
        var bar := MarkOf(bars[n]);
        PouredKeepsBucketed(buckets.at, Marks(bars[..n]), bar);
        if bar.hour in buckets.at {
          buckets := buckets.Set(bar.hour, Widened(buckets.at[bar.hour], bar));
        } else {
          buckets := buckets.Set(bar.hour, bar);
        }
      }
    }
    assert bars[..|bars|] == bars;
    hourly := ByHour(buckets);
    BucketsAreHourly(buckets.at, hourly, Marks(bars));
  }

  // ── swings ────────────────────────────────────────────────────────────────

  function Highest(s: seq<real>): (top: real)
    requires s != []
    ensures top in s && forall i :: 0 <= i < |s| ==> s[i] <= top
  {
    if |s| == 1 then s[0]
    else
      assert forall i :: 0 < i < |s| ==> s[i] == s[1..][i - 1];
      Max(s[0], Highest(s[1..]))
  }

  function Lowest(s: seq<real>): (bottom: real)
    requires s != []
    ensures bottom in s && forall i :: 0 <= i < |s| ==> bottom <= s[i]
  {
    if |s| == 1 then s[0]
    else
      assert forall i :: 0 < i < |s| ==> s[i] == s[1..][i - 1];
      Min(s[0], Lowest(s[1..]))
  }

  /** No candle within k either side goes higher, and there are k either side. */
  ghost predicate SwingHighAt(hourly: seq<Candle>, k: nat, i: int) {
    k <= i < |hourly| - k && forall j :: i - k <= j <= i + k ==> hourly[j].high <= hourly[i].high
  }

  ghost predicate SwingLowAt(hourly: seq<Candle>, k: nat, i: int) {
    k <= i < |hourly| - k && forall j :: i - k <= j <= i + k ==> hourly[i].low <= hourly[j].low
  }

  /** The swing highs among the first n candles, oldest first. */
  ghost function SwingHighs(hourly: seq<Candle>, k: nat, n: nat): seq<real>
    requires n <= |hourly|
  {
    if n == 0 then []
    else SwingHighs(hourly, k, n - 1) + if SwingHighAt(hourly, k, n - 1) then [hourly[n - 1].high] else []
  }

  ghost function SwingLows(hourly: seq<Candle>, k: nat, n: nat): seq<real>
    requires n <= |hourly|
  {
    if n == 0 then []
    else SwingLows(hourly, k, n - 1) + if SwingLowAt(hourly, k, n - 1) then [hourly[n - 1].low] else []
  }

  /** The reported highs are exactly the prices of the candles that dominate their window. */
  lemma {:induction false} HighsAreSwings(hourly: seq<Candle>, k: nat, n: nat, x: real)
    requires n <= |hourly|
    ensures x in SwingHighs(hourly, k, n) <==>
                  exists i :: 0 <= i < n && SwingHighAt(hourly, k, i) && hourly[i].high == x
  {
    if n > 0 {
      HighsAreSwings(hourly, k, n - 1, x);
    }
  }

  lemma {:induction false} LowsAreSwings(hourly: seq<Candle>, k: nat, n: nat, x: real)
    requires n <= |hourly|
    ensures x in SwingLows(hourly, k, n) <==> exists i :: 0 <= i < n && SwingLowAt(hourly, k, i) && hourly[i].low == x
  {
    if n > 0 {
      LowsAreSwings(hourly, k, n - 1, x);
    }
  }

  lemma {:induction false} NoSwingsAtTheEdge(hourly: seq<Candle>, k: nat, n: nat, m: nat)
    requires n <= m <= |hourly| && (m <= k || |hourly| - k <= n)
    ensures SwingHighs(hourly, k, m) == SwingHighs(hourly, k, n)
    ensures SwingLows(hourly, k, m) == SwingLows(hourly, k, n)
  {
    if n < m {
      NoSwingsAtTheEdge(hourly, k, n, m - 1);
    }
  }

  lemma WindowDecides(hourly: seq<Candle>, k: nat, i: nat, highs: seq<real>, lows: seq<real>)
    requires k <= i < |hourly| - k && |highs| == |lows| == 2 * k + 1
    requires forall j :: 0 <= j <= 2 * k ==> highs[j] == hourly[i - k + j].high && lows[j] == hourly[i - k + j].low
    ensures hourly[i].high == Highest(highs) <==> SwingHighAt(hourly, k, i)
    ensures hourly[i].low == Lowest(lows) <==> SwingLowAt(hourly, k, i)
  {
    assert highs[k] == hourly[i].high && lows[k] == hourly[i].low;
    forall j | i - k <= j <= i + k
      ensures hourly[j].high <= Highest(highs) && Lowest(lows) <= hourly[j].low
    {
      assert hourly[j].high == highs[j - i + k] && hourly[j].low == lows[j - i + k];
    }
  }

  /** One turn of the scan, with what it appends. */
  method Inspect(hourly: seq<Candle>, k: nat, i: nat, highs0: seq<real>, lows0: seq<real>)
      returns (highs1: seq<real>, lows1: seq<real>)
    requires k <= i < |hourly| - k && highs0 == SwingHighs(hourly, k, i) && lows0 == SwingLows(hourly, k, i)
    ensures highs1 == SwingHighs(hourly, k, i + 1) && lows1 == SwingLows(hourly, k, i + 1)
  {
    var highs := seq(2 * k + 1, j requires 0 <= j <= 2 * k => hourly[i - k + j].high);
    var lows := seq(2 * k + 1, j requires 0 <= j <= 2 * k => hourly[i - k + j].low);
    WindowDecides(hourly, k, i, highs, lows);
    highs1 := highs0 + if hourly[i].high == Highest(highs) then [hourly[i].high] else [];
    lows1 := lows0 + if hourly[i].low == Lowest(lows) then [hourly[i].low] else [];
  }

  method FindSwings(hourly: seq<Candle>, k: nat) returns (highs: seq<real>, lows: seq<real>)
    ensures highs == SwingHighs(hourly, k, |hourly|) && lows == SwingLows(hourly, k, |hourly|)
  {
    highs, lows := [], [];
    if |hourly| < 2 * k + 1 {
      NoSwingsWhenShort(hourly, k, |hourly|);
      return;
    }
    NoSwingsAtTheEdge(hourly, k, 0, k);
    for i := k to |hourly| - k
      invariant highs == SwingHighs(hourly, k, i) && lows == SwingLows(hourly, k, i)
    {
      highs, lows := Inspect(hourly, k, i, highs, lows);
    }
    NoSwingsAtTheEdge(hourly, k, |hourly| - k, |hourly|);
  }

  lemma {:induction false} NoSwingsWhenShort(hourly: seq<Candle>, k: nat, n: nat)
    requires n <= |hourly| < 2 * k + 1
    ensures SwingHighs(hourly, k, n) == [] && SwingLows(hourly, k, n) == []
  {
    if n > 0 {
      NoSwingsWhenShort(hourly, k, n - 1);
    }
  }

  // ── upside down ───────────────────────────────────────────────────────────

  function NegatedBar(bar: RawBar): RawBar { if bar.Bar? then Bar(bar.time, -bar.low, -bar.high) else Unreadable }

  function NegatedBars(bars: seq<RawBar>): seq<RawBar> {
    seq(|bars|, i requires 0 <= i < |bars| => NegatedBar(bars[i]))
  }

  function NegatedCandle(c: Candle): Candle { Candle(c.hour, -c.low, -c.high) }

  function NegatedCandles(hourly: seq<Candle>): (r: seq<Candle>)
    ensures |r| == |hourly|
  {
    seq(|hourly|, i requires 0 <= i < |hourly| => NegatedCandle(hourly[i]))
  }

  lemma {:induction false} NegatedMarks(bars: seq<RawBar>)
    ensures Marks(NegatedBars(bars)) == NegatedCandles(Marks(bars))
  {
    if bars != [] {
      var n := |bars| - 1;
      NegatedMarks(bars[..n]);
      assert NegatedBars(bars)[..n] == NegatedBars(bars[..n]);
      assert NegatedBars(bars)[n] == NegatedBar(bars[n]);
    }
  }

  function Negated(s: seq<real>): seq<real> { seq(|s|, i requires 0 <= i < |s| => -s[i]) }

  lemma NegatedRange(c: Candle, bars: seq<Candle>)
    requires IsRange(c, bars)
    ensures IsRange(NegatedCandle(c), NegatedCandles(bars))
  {
    var flipped := NegatedCandles(bars);
    var i :| 0 <= i < |bars| && bars[i].hour == c.hour && bars[i].high == c.high;
    var j :| 0 <= j < |bars| && bars[j].hour == c.hour && bars[j].low == c.low;
    assert flipped[i] == NegatedCandle(bars[i]) && flipped[j] == NegatedCandle(bars[j]);
  }

  /** Bars turned upside down give the hourly series turned upside down. */
  lemma NegatedHourly(hourly: seq<Candle>, bars: seq<Candle>)
    requires IsHourly(hourly, bars)
    ensures IsHourly(NegatedCandles(hourly), NegatedCandles(bars))
  {
    var upside := NegatedCandles(hourly);
    forall c | 0 <= c < |upside| ensures IsRange(upside[c], NegatedCandles(bars)) { NegatedRange(hourly[c], bars); }
    forall i | 0 <= i < |bars| ensures HasHour(upside, NegatedCandles(bars)[i].hour) {
      var c := FindHour(hourly, bars[i].hour);
      HourAtIndex(upside, c);
    }
  }

  /** Highs become negated lows and lows negated highs. */
  lemma {:induction false} NegationSwapsSwings(hourly: seq<Candle>, k: nat, n: nat)
    requires n <= |hourly|
    ensures SwingHighs(NegatedCandles(hourly), k, n) == Negated(SwingLows(hourly, k, n))
    ensures SwingLows(NegatedCandles(hourly), k, n) == Negated(SwingHighs(hourly, k, n))
  {
    if n > 0 {
      NegationSwapsSwings(hourly, k, n - 1);
      NegationSwapsSwingAt(hourly, k, n - 1);
    }
  }

  lemma NegationSwapsSwingAt(hourly: seq<Candle>, k: nat, i: int)
    ensures SwingHighAt(NegatedCandles(hourly), k, i) <==> SwingLowAt(hourly, k, i)
    ensures SwingLowAt(NegatedCandles(hourly), k, i) <==> SwingHighAt(hourly, k, i)
  {
    var upside := NegatedCandles(hourly);
    if k <= i < |hourly| - k {
      assert forall j :: 0 <= j < |hourly| ==> upside[j].high == -hourly[j].low && upside[j].low == -hourly[j].high;
      if SwingHighAt(upside, k, i) {
        forall j | i - k <= j <= i + k ensures hourly[i].low <= hourly[j].low {
          assert upside[j].high <= upside[i].high;
        }
      }
      if SwingLowAt(upside, k, i) {
        forall j | i - k <= j <= i + k ensures hourly[j].high <= hourly[i].high {
          assert upside[i].low <= upside[j].low;
        }
      }
    }
  }

  // ── from the level back to the bars ───────────────────────────────────────

  /** Every bar in the hours of candles from to to stays at or under x. */
  ghost predicate NoneAbove(hourly: seq<Candle>, bars: seq<Candle>, from: int, to: int, x: real)
    requires 0 <= from < |hourly| && 0 <= to < |hourly|
  {
    forall j :: 0 <= j < |bars| && hourly[from].hour <= bars[j].hour <= hourly[to].hour ==> bars[j].high <= x
  }

  ghost predicate NoneBelow(hourly: seq<Candle>, bars: seq<Candle>, from: int, to: int, x: real)
    requires 0 <= from < |hourly| && 0 <= to < |hourly|
  {
    forall j :: 0 <= j < |bars| && hourly[from].hour <= bars[j].hour <= hourly[to].hour ==> x <= bars[j].low
  }

  lemma CandleOf(hourly: seq<Candle>, bars: seq<Candle>, from: int, to: int, j: nat) returns (c: nat)
    requires IsHourly(hourly, bars) && 0 <= from <= to < |hourly| && j < |bars|
    requires hourly[from].hour <= bars[j].hour <= hourly[to].hour
    ensures from <= c <= to && bars[j].high <= hourly[c].high && hourly[c].low <= bars[j].low
  {
    c := FindHour(hourly, bars[j].hour);
    assert IsRange(hourly[c], bars);
  }

  lemma PeakOf(hourly: seq<Candle>, bars: seq<Candle>, c: nat) returns (at: nat)
    requires IsHourly(hourly, bars) && c < |hourly|
    ensures at < |bars| && bars[at].hour == hourly[c].hour && bars[at].high == hourly[c].high
  {
    assert IsRange(hourly[c], bars);
    at :| 0 <= at < |bars| && bars[at].hour == hourly[c].hour && bars[at].high == hourly[c].high;
  }

  /** A reported high was traded by some bar, and no bar of the hours around it went higher. */
  lemma HighIsGenuine(hourly: seq<Candle>, bars: seq<Candle>, k: nat, x: real) returns (i: nat, at: nat)
    requires IsHourly(hourly, bars) && x in SwingHighs(hourly, k, |hourly|)
    ensures k <= i < |hourly| - k && at < |bars| && bars[at].hour == hourly[i].hour && bars[at].high == x
    ensures NoneAbove(hourly, bars, i - k, i + k, x)
  {
    i := SwingOf(hourly, k, |hourly|, x);
    at := PeakOf(hourly, bars, i);
    forall j | 0 <= j < |bars| && hourly[i - k].hour <= bars[j].hour <= hourly[i + k].hour ensures bars[j].high <= x {
      var c := CandleOf(hourly, bars, i - k, i + k, j);
    }
  }

  lemma SwingOf(hourly: seq<Candle>, k: nat, n: nat, x: real) returns (i: nat)
    requires n <= |hourly| && x in SwingHighs(hourly, k, n)
    ensures i < n && SwingHighAt(hourly, k, i) && hourly[i].high == x
  {
    HighsAreSwings(hourly, k, n, x);
    i :| 0 <= i < n && SwingHighAt(hourly, k, i) && hourly[i].high == x;
  }

  lemma TroughOf(hourly: seq<Candle>, bars: seq<Candle>, c: nat) returns (at: nat)
    requires IsHourly(hourly, bars) && c < |hourly|
    ensures at < |bars| && bars[at].hour == hourly[c].hour && bars[at].low == hourly[c].low
  {
    assert IsRange(hourly[c], bars);
    at :| 0 <= at < |bars| && bars[at].hour == hourly[c].hour && bars[at].low == hourly[c].low;
  }

  lemma SwingLowOf(hourly: seq<Candle>, k: nat, n: nat, x: real) returns (i: nat)
    requires n <= |hourly| && x in SwingLows(hourly, k, n)
    ensures i < n && SwingLowAt(hourly, k, i) && hourly[i].low == x
  {
    LowsAreSwings(hourly, k, n, x);
    i :| 0 <= i < n && SwingLowAt(hourly, k, i) && hourly[i].low == x;
  }

  /** A reported low was traded too, and no bar of the hours around it went lower. */
  lemma LowIsGenuine(hourly: seq<Candle>, bars: seq<Candle>, k: nat, x: real) returns (i: nat, at: nat)
    requires IsHourly(hourly, bars) && x in SwingLows(hourly, k, |hourly|)
    ensures k <= i < |hourly| - k && at < |bars| && bars[at].hour == hourly[i].hour && bars[at].low == x
    ensures NoneBelow(hourly, bars, i - k, i + k, x)
  {
    i := SwingLowOf(hourly, k, |hourly|, x);
    at := TroughOf(hourly, bars, i);
    forall j | 0 <= j < |bars| && hourly[i - k].hour <= bars[j].hour <= hourly[i + k].hour ensures x <= bars[j].low {
      var c := CandleOf(hourly, bars, i - k, i + k, j);
    }
  }

  /** Conversely, a candle that no bar of the hours around it beats is reported. */
  lemma DominantHighIsReported(hourly: seq<Candle>, bars: seq<Candle>, k: nat, i: nat)
    requires IsHourly(hourly, bars) && k <= i < |hourly| - k && NoneAbove(hourly, bars, i - k, i + k, hourly[i].high)
    ensures hourly[i].high in SwingHighs(hourly, k, |hourly|)
  {
    forall c | i - k <= c <= i + k ensures hourly[c].high <= hourly[i].high {
      var at := PeakOf(hourly, bars, c);
    }
    HighsAreSwings(hourly, k, |hourly|, hourly[i].high);
  }

  lemma DominantLowIsReported(hourly: seq<Candle>, bars: seq<Candle>, k: nat, i: nat)
    requires IsHourly(hourly, bars) && k <= i < |hourly| - k && NoneBelow(hourly, bars, i - k, i + k, hourly[i].low)
    ensures hourly[i].low in SwingLows(hourly, k, |hourly|)
  {
    forall c | i - k <= c <= i + k ensures hourly[i].low <= hourly[c].low {
      var at := TroughOf(hourly, bars, c);
    }
    LowsAreSwings(hourly, k, |hourly|, hourly[i].low);
  }

  // ── and to the bars as they were sent ─────────────────────────────────────

  /** The bar was sent, can be read, and falls into this hour. */
  predicate SentIn(bar: RawBar, raw: seq<RawBar>, hour: int) {
    bar in raw && bar.Bar? && hour % 3600 == 0 && hour <= Truncate(bar.time) < hour + 3600
  }

  lemma MarkSent(raw: seq<RawBar>, m: Candle) returns (bar: RawBar)
    requires m in Marks(raw)
    ensures SentIn(bar, raw, m.hour) && bar.high == m.high && bar.low == m.low
  {
    bar :| bar in raw && bar.Bar? && MarkOf(bar) == m;
    HourIff(bar.time, m.hour);
  }

  lemma SentIsMarked(raw: seq<RawBar>, bar: RawBar) returns (j: nat)
    requires bar in raw && bar.Bar?
    ensures j < |Marks(raw)| && SentIn(bar, raw, Marks(raw)[j].hour)
    ensures Marks(raw)[j].high == bar.high && Marks(raw)[j].low == bar.low
  {
    assert MarkOf(bar) in Marks(raw);
    j :| 0 <= j < |Marks(raw)| && Marks(raw)[j] == MarkOf(bar);
    HourIff(bar.time, HourAt(bar.time));
  }

  lemma HourWithin(ts: int, hour: int, from: int, to: int)
    requires hour % 3600 == from % 3600 == to % 3600 == 0
    requires hour <= ts < hour + 3600 && from <= ts < to + 3600
    ensures from <= hour <= to
  {
    var h, f, t := hour / 3600, from / 3600, to / 3600;
    assert hour == 3600 * h && from == 3600 * f && to == 3600 * t;
  }

  lemma CandleHour(hourly: seq<Candle>, raw: seq<RawBar>, i: nat)
    requires IsHourly(hourly, Marks(raw)) && i < |hourly|
    ensures hourly[i].hour % 3600 == 0
  {
    assert IsRange(hourly[i], Marks(raw));
    var j :| 0 <= j < |Marks(raw)| && Marks(raw)[j].hour == hourly[i].hour;
    var bar := MarkSent(raw, Marks(raw)[j]);
  }

  /** The bar was sent within the hours of candles from to to. */
  predicate SentWithin(bar: RawBar, raw: seq<RawBar>, hourly: seq<Candle>, from: int, to: int)
    requires 0 <= from <= to < |hourly|
  {
    bar in raw && bar.Bar? && hourly[from].hour <= Truncate(bar.time) < hourly[to].hour + 3600
  }

  lemma SentAmongMarks(hourly: seq<Candle>, raw: seq<RawBar>, from: nat, to: nat, bar: RawBar) returns (j: nat)
    requires IsHourly(hourly, Marks(raw)) && from <= to < |hourly| && SentWithin(bar, raw, hourly, from, to)
    ensures j < |Marks(raw)| && hourly[from].hour <= Marks(raw)[j].hour <= hourly[to].hour
    ensures Marks(raw)[j].high == bar.high && Marks(raw)[j].low == bar.low
  {
    j := SentIsMarked(raw, bar);
    CandleHour(hourly, raw, from);
    CandleHour(hourly, raw, to);
    HourWithin(Truncate(bar.time), Marks(raw)[j].hour, hourly[from].hour, hourly[to].hour);
  }

  ghost predicate NoneSentAbove(raw: seq<RawBar>, hourly: seq<Candle>, from: int, to: int, x: real)
    requires 0 <= from <= to < |hourly|
  {
    forall b | b in raw :: SentWithin(b, raw, hourly, from, to) ==> b.high <= x
  }

  ghost predicate NoneSentBelow(raw: seq<RawBar>, hourly: seq<Candle>, from: int, to: int, x: real)
    requires 0 <= from <= to < |hourly|
  {
    forall b | b in raw :: SentWithin(b, raw, hourly, from, to) ==> x <= b.low
  }

  lemma NoneSentAboveSwing(hourly: seq<Candle>, raw: seq<RawBar>, k: nat, i: nat)
    requires IsHourly(hourly, Marks(raw)) && SwingHighAt(hourly, k, i)
    ensures NoneSentAbove(raw, hourly, i - k, i + k, hourly[i].high)
  {
    forall b | b in raw && SentWithin(b, raw, hourly, i - k, i + k) ensures b.high <= hourly[i].high {
      var j := SentAmongMarks(hourly, raw, i - k, i + k, b);
      var c := CandleOf(hourly, Marks(raw), i - k, i + k, j);
    }
  }

  lemma NoneSentBelowSwing(hourly: seq<Candle>, raw: seq<RawBar>, k: nat, i: nat)
    requires IsHourly(hourly, Marks(raw)) && SwingLowAt(hourly, k, i)
    ensures NoneSentBelow(raw, hourly, i - k, i + k, hourly[i].low)
  {
    forall b | b in raw && SentWithin(b, raw, hourly, i - k, i + k) ensures hourly[i].low <= b.low {
      var j := SentAmongMarks(hourly, raw, i - k, i + k, b);
      var c := CandleOf(hourly, Marks(raw), i - k, i + k, j);
    }
  }

  lemma EndsSent(hourly: seq<Candle>, raw: seq<RawBar>, i: nat) returns (top: RawBar, bottom: RawBar)
    requires IsHourly(hourly, Marks(raw)) && i < |hourly|
    ensures SentIn(top, raw, hourly[i].hour) && top.high == hourly[i].high
    ensures SentIn(bottom, raw, hourly[i].hour) && bottom.low == hourly[i].low
  {
    var at := PeakOf(hourly, Marks(raw), i);
    top := MarkSent(raw, Marks(raw)[at]);
    at := TroughOf(hourly, Marks(raw), i);
    bottom := MarkSent(raw, Marks(raw)[at]);
  }

  /** A reported high is the high of a bar that the broker sent, and no bar sent in the hours around it went higher. */
  lemma HighWasSent(hourly: seq<Candle>, raw: seq<RawBar>, k: nat, x: real) returns (i: nat, bar: RawBar)
    requires IsHourly(hourly, Marks(raw)) && x in SwingHighs(hourly, k, |hourly|)
    ensures k <= i < |hourly| - k && SentIn(bar, raw, hourly[i].hour) && bar.high == x
    ensures NoneSentAbove(raw, hourly, i - k, i + k, x)
  {
    i := SwingOf(hourly, k, |hourly|, x);
    NoneSentAboveSwing(hourly, raw, k, i);
    var bottom;
    bar, bottom := EndsSent(hourly, raw, i);
  }

  /** And a reported low is the low of a bar that was sent. */
  lemma LowWasSent(hourly: seq<Candle>, raw: seq<RawBar>, k: nat, x: real) returns (i: nat, bar: RawBar)
    requires IsHourly(hourly, Marks(raw)) && x in SwingLows(hourly, k, |hourly|)
    ensures k <= i < |hourly| - k && SentIn(bar, raw, hourly[i].hour) && bar.low == x
    ensures NoneSentBelow(raw, hourly, i - k, i + k, x)
  {
    i := SwingLowOf(hourly, k, |hourly|, x);
    NoneSentBelowSwing(hourly, raw, k, i);
    var top;
    top, bar := EndsSent(hourly, raw, i);
  }

  // ── the cache and its queries ─────────────────────────────────────────────

  function Under(levels: seq<real>, price: real): (r: seq<real>)
    ensures forall x :: x in r <==> x in levels && x < price
  {
    if levels == [] then []
    else
      assert forall x :: x in levels <==> x == levels[0] || x in levels[1..];
      (if levels[0] < price then [levels[0]] else []) + Under(levels[1..], price)
  }

  function Over(levels: seq<real>, price: real): (r: seq<real>)
    ensures forall x :: x in r <==> x in levels && x > price
  {
    if levels == [] then []
    else
      assert forall x :: x in levels <==> x == levels[0] || x in levels[1..];
      (if levels[0] > price then [levels[0]] else []) + Over(levels[1..], price)
  }

  /** The closest level strictly below the price, or none exactly when there is none. */
  ghost predicate IsNearestBelow(found: Option<real>, levels: seq<real>, price: real) {
    match found
    case None => forall x | x in levels :: x >= price
    case Some(level) => level in levels && level < price && forall x | x in levels :: x < price ==> x <= level
  }

  ghost predicate IsNearestAbove(found: Option<real>, levels: seq<real>, price: real) {
    match found
    case None => forall x | x in levels :: x <= price
    case Some(level) => level in levels && level > price && forall x | x in levels :: x > price ==> level <= x
  }

  class HourlyLevels {
    const k: nat
    const refreshSeconds: real
    var highs: seq<real>
    var lows: seq<real>
    var refreshedAt: real
    /** The bars behind the cached levels and their hourly series. */
    ghost var bars: seq<RawBar>
    ghost var hourly: seq<Candle>

    /** The cache is what the bars it was built from say. */
    ghost predicate Valid()
      reads this
    {
      && IsHourly(hourly, Marks(bars))
      && highs == SwingHighs(hourly, k, |hourly|)
      && lows == SwingLows(hourly, k, |hourly|)
    }

    constructor (k: nat, refreshSeconds: real)
      ensures Valid() && this.k == k && this.refreshSeconds == refreshSeconds
      ensures bars == [] && refreshedAt == 0.0
    {
      this.k := k;
      this.refreshSeconds := refreshSeconds;
      highs, lows, refreshedAt := [], [], 0.0;
      bars, hourly := [], [];
    }

    /** Whether a refresh at this time with this answer replaces the cache. */
    predicate Takes(now: real, rates: Option<seq<RawBar>>, force: bool)
      reads this
    {
      (force || now - refreshedAt >= refreshSeconds) && rates.Some? && rates.value != []
    }

    /** rates is the broker's answer, or none if the call failed. */
    method Refresh(now: real, rates: Option<seq<RawBar>>, force: bool) returns (replaced: bool)
      requires Valid()
      modifies this
      ensures Valid() && replaced == old(Takes(now, rates, force))
      ensures replaced <==> (force || now - old(refreshedAt) >= refreshSeconds) && rates !in {None, Some([])}
      ensures replaced ==> bars == rates.value && refreshedAt == now
      ensures !replaced ==>
                bars == old(bars) && refreshedAt == old(refreshedAt) && highs == old(highs) && lows == old(lows)
    {
      if !force && now - refreshedAt < refreshSeconds {
        return false;
      }
      if rates.None? || rates.value == [] {
        return false;
      }
      var series := ToHourly(rates.value);
      highs, lows := FindSwings(series, k);
      refreshedAt := now;
      bars, hourly := rates.value, series;
      replaced := true;
    }

    method NearestSupport(price: real, now: real, rates: Option<seq<RawBar>>) returns (level: Option<real>)
      requires Valid()
      modifies this
      ensures Valid() && bars == if old(Takes(now, rates, false)) then rates.value else old(bars)
      ensures IsNearestBelow(level, lows, price)
    {
      var _ := Refresh(now, rates, false);
      var below := Under(lows, price);
      level := if below == [] then None else Some(Highest(below));
      assert below == [] ==> forall x | x in lows :: x !in below;
    }

    method NearestResistance(price: real, now: real, rates: Option<seq<RawBar>>) returns (level: Option<real>)
      requires Valid()
      modifies this
      ensures Valid() && bars == if old(Takes(now, rates, false)) then rates.value else old(bars)
      ensures IsNearestAbove(level, highs, price)
    {
      var _ := Refresh(now, rates, false);
      var above := Over(highs, price);
      level := if above == [] then None else Some(Lowest(above));
      assert above == [] ==> forall x | x in highs :: x !in above;
    }
  }
}
