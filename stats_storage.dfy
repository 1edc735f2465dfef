/**
 * The stats store: per platform (lower-cased) a current record that
 * expires after the cache TTL, and a history sorted set of snapshots scored
 * by their timestamp. `saveStats` overwrites, appends and prunes in one
 * call; a failing store call leaves the effects of the calls before it.
 */
module StatsStorage {
  import opened Wrappers
  import opened Text
  import opened SortedSet
  import Config

  const Hour: int := 60 * 60 * 1000
  const DayMs: int := 24 * 60 * 60 * 1000

  datatype Extra = Extra(views: Option<int>, videos: Option<int>)

  /** The current record as written (the `source: 'cache'` tag is added on read). */
  datatype Current = Current(platform: string, count: int, views: Option<int>, videos: Option<int>, lastFetched: int)

  /** A current record together with the instant its key expires. */
  datatype CurrentEntry = CurrentEntry(stats: Current, expiresAt: int)

  datatype StatSnapshot = StatSnapshot(platform: string, count: int, views: Option<int>, videos: Option<int>, timestamp: int)

  /** A history member: a snapshot this code wrote, or text that does not parse. */
  datatype HistoryMember = Snapshot(snap: StatSnapshot) | Unparsable(text: string)

  /** Where `saveStats` throws, if anywhere: at the SET, the ZADD or the ZREMRANGEBYSCORE. */
  datatype SaveFault = NoFault | FailSet | FailAdd | FailPrune

  /** A history whose snapshot members carry their own score as timestamp. */
  predicate ScoredByTimestamp(h: seq<Entry<HistoryMember>>) {
    forall e :: e in h && e.member.Snapshot? ==> e.member.snap.timestamp == e.score
  }

  predicate HistoryOk(h: seq<Entry<HistoryMember>>) {
    Valid(h) && ScoredByTimestamp(h)
  }

  /** The parsable members, in order; the others are dropped. */
  function Parsed(h: seq<Entry<HistoryMember>>): (r: seq<StatSnapshot>)
    ensures |r| <= |h|
  {
    if h == [] then []
    else if h[0].member.Snapshot? then [h[0].member.snap] + Parsed(h[1..])
    else Parsed(h[1..])
  }

  predicate Chronological(r: seq<StatSnapshot>) {
    forall i, j :: 0 <= i < j < |r| ==> r[i].timestamp <= r[j].timestamp
  }

  /** In a history whose snapshots are scored by their timestamps, parsing keeps exactly the stored snapshots. */
  lemma {:induction false} ParsedMembers(h: seq<Entry<HistoryMember>>)
    requires ScoredByTimestamp(h)
    ensures forall x :: x in Parsed(h) <==> Entry(x.timestamp, Snapshot(x)) in h
  {
    if h != [] {
      assert h == [h[0]] + h[1..];
      assert ScoredByTimestamp(h[1..]) by {
        assert forall e :: e in h[1..] ==> e in h;
      }
      ParsedMembers(h[1..]);
    }
  }

  lemma ChronologicalCons(x: StatSnapshot, rest: seq<StatSnapshot>)
    requires Chronological(rest) && forall y :: y in rest ==> x.timestamp <= y.timestamp
    ensures Chronological([x] + rest)
  {
    var r := [x] + rest;
    assert forall j :: 1 <= j < |r| ==> r[j] == rest[j - 1] && r[j] in rest;
  }

  /** A lower bound on the scores bounds the parsed timestamps. */
  lemma ParsedFrom(h: seq<Entry<HistoryMember>>, t: int)
    requires ScoredByTimestamp(h) && forall e :: e in h ==> t <= e.score
    ensures forall y :: y in Parsed(h) ==> t <= y.timestamp
  {
    ParsedMembers(h);
  }

  lemma TailOk(h: seq<Entry<HistoryMember>>)
    requires h != [] && Sorted(h) && ScoredByTimestamp(h)
    ensures Sorted(h[1..]) && ScoredByTimestamp(h[1..])
    ensures forall e :: e in h[1..] ==> h[0].score <= e.score
  {
    assert forall e :: e in h[1..] ==> e in h;
    HeadBeforeRest(h);
  }

  /** Parsing a score-ordered history gives its snapshots in timestamp order. */
  lemma {:induction false} ParsedChronological(h: seq<Entry<HistoryMember>>)
    requires Sorted(h) && ScoredByTimestamp(h)
    ensures Chronological(Parsed(h))
  {
    if h != [] {
      TailOk(h);
      ParsedChronological(h[1..]);
      if h[0].member.Snapshot? {
        ParsedFrom(h[1..], h[0].score);
        ChronologicalCons(h[0].member.snap, Parsed(h[1..]));
      }
    }
  }

  /** `x || fallback` for a number argument: undefined and 0 both take the fallback. */
  function OrNumber(x: Option<int>, fallback: int): int {
    if x.None? || x.value == 0 then fallback else x.value
  }

  /** `Math.round(STATS_CACHE_TTL / 1000)`, the EX argument of the SET, in seconds. */
  function ExpirySeconds(cacheTtl: int): int {
    Config.RoundDiv(cacheTtl, 1000)
  }

  /** The current map after `saveStats` (Redis refuses an EX that is not positive). */
  function SavedCurrent(current: map<string, CurrentEntry>, cacheTtl: int, platform: string,
                        count: int, extra: Extra, now: int, fault: SaveFault): map<string, CurrentEntry>
  {
    if fault == FailSet || ExpirySeconds(cacheTtl) <= 0 then current
    else
      current[Lower(platform) := CurrentEntry(
        Current(platform, count, extra.views, extra.videos, now), now + ExpirySeconds(cacheTtl) * 1000)]
  }

  function SnapshotOf(platform: string, count: int, extra: Extra, now: int): StatSnapshot {
    StatSnapshot(platform, count, extra.views, extra.videos, now)
  }

  function HistoryOf(history: map<string, seq<Entry<HistoryMember>>>, key: string): seq<Entry<HistoryMember>> {
    if key in history then history[key] else []
  }

  /** The history map after `saveStats`: ZADD the snapshot, then prune [0, now - retention]. */
  function SavedHistory(history: map<string, seq<Entry<HistoryMember>>>, cacheTtl: int, retention: int,
                        platform: string, count: int, extra: Extra, now: int, fault: SaveFault)
    : map<string, seq<Entry<HistoryMember>>>
  {
    var key := Lower(platform);
    if fault == FailSet || fault == FailAdd || ExpirySeconds(cacheTtl) <= 0 then history
    else
      var added := Add(HistoryOf(history, key), now, Snapshot(SnapshotOf(platform, count, extra, now)));
      if fault == FailPrune then history[key := added]
      else history[key := RemoveRangeByScore(added, 0, now - retention)]
  }

  /** `getStatsHistory`'s resolved window: `startTime || now - 24h` and `endTime || now`. */
  function Window(startTime: Option<int>, endTime: Option<int>, now: int): (int, int) {
    (OrNumber(startTime, now - DayMs), OrNumber(endTime, now))
  }

  datatype TimeRange = DayRange | WeekRange | MonthRange

  function RangeLength(range: TimeRange): int {
    match range
    case DayRange => DayMs
    case WeekRange => 7 * DayMs
    case MonthRange => 30 * DayMs
  }

  datatype Point = Point(timestamp: int, count: int)

  /** `Math.floor(timestamp / 3,600,000)`. */
  function HourOf(timestamp: int): int {
    timestamp / 3_600_000
  }

  /** `hour * 60 * 60 * 1000`, the first instant of an hour. */
  function HourStart(hour: int): int {
    hour * 3_600_000
  }

  lemma HourStartFacts(h: int, k: int)
    ensures HourOf(HourStart(h)) == h
    ensures h < k ==> HourStart(h) < HourStart(k)
  {
  }

  function HoursOf(xs: seq<StatSnapshot>): set<int> {
    set x | x in xs :: HourOf(x.timestamp)
  }

  /** The counts of the snapshots in hour `h`, in the order they were pushed. */
  function CountsIn(xs: seq<StatSnapshot>, h: int): (r: seq<int>)
    ensures h in HoursOf(xs) ==> |r| > 0
    ensures h !in HoursOf(xs) ==> r == []
  {
    if xs == [] then []
    else
      var last := xs[|xs| - 1];
      var init := xs[..|xs| - 1];
      assert xs == init + [last];
      assert HoursOf(xs) == HoursOf(init) + {HourOf(last.timestamp)};
      CountsIn(init, h) + (if HourOf(last.timestamp) == h then [last.count] else [])
  }

  function Sum(s: seq<int>): int {
    if s == [] then 0 else Sum(s[..|s| - 1]) + s[|s| - 1]
  }

  /** The mean of a non-empty list of counts rounded half up, as `Math.round(sum / length)`. */
  function RoundedMean(s: seq<int>): (m: int)
    requires |s| > 0
    ensures 2 * |s| * m <= 2 * Sum(s) + |s| < 2 * |s| * (m + 1)
  {
    Config.RoundDiv(Sum(s), |s|)
  }

  predicate StrictlyIncreasing(s: seq<int>) {
    forall i, j :: 0 <= i < j < |s| ==> s[i] < s[j]
  }

  lemma ConsIncreasing(x: int, s: seq<int>)
    requires StrictlyIncreasing(s) && forall y :: y in s ==> x < y
    ensures StrictlyIncreasing([x] + s)
  {
    forall i, j | 0 <= i < j < |[x] + s| ensures ([x] + s)[i] < ([x] + s)[j] {
      assert ([x] + s)[j] == s[j - 1];
      if i > 0 {
        assert ([x] + s)[i] == s[i - 1];
      } else {
        assert s[j - 1] in s;
      }
    }
  }

  /** Insert `x` into an ascending list, keeping one copy of each value. */
  function InsertHour(x: int, s: seq<int>): (r: seq<int>)
    ensures forall y :: y in r <==> y == x || y in s
    ensures StrictlyIncreasing(s) ==> StrictlyIncreasing(r)
  {
    if s == [] then [x]
    else if x < s[0] then
      assert StrictlyIncreasing(s) ==> forall y :: y in s ==> x < y;
      if StrictlyIncreasing(s) then ConsIncreasing(x, s); [x] + s else [x] + s
    else if x == s[0] then s
    else
      var rest := InsertHour(x, s[1..]);
      assert forall y :: y in s[1..] ==> y in s;
      if StrictlyIncreasing(s) then
        assert StrictlyIncreasing(s[1..]);
        assert forall y :: y in rest ==> s[0] < y;
        ConsIncreasing(s[0], rest);
        [s[0]] + rest
      else [s[0]] + rest
  }

  /** The values of `xs` in strictly ascending order, as the final sort of the series does. */
  function SortHours(xs: seq<int>): (r: seq<int>)
    ensures StrictlyIncreasing(r)
    ensures forall y :: y in r <==> y in xs
  {
    if xs == [] then []
    else
      var r := InsertHour(xs[|xs| - 1], SortHours(xs[..|xs| - 1]));
      assert xs == xs[..|xs| - 1] + [xs[|xs| - 1]];
      r
  }

  /** History stays well formed when a snapshot is added under its own timestamp. */
  lemma AddSnapshotOk(h: seq<Entry<HistoryMember>>, snap: StatSnapshot)
    requires HistoryOk(h)
    ensures HistoryOk(Add(h, snap.timestamp, Snapshot(snap)))
  {
  }

  lemma PruneOk(h: seq<Entry<HistoryMember>>, lo: int, hi: int)
    requires HistoryOk(h)
    ensures HistoryOk(RemoveRangeByScore(h, lo, hi))
  {
  }

  predicate AllOk(hm: map<string, seq<Entry<HistoryMember>>>) {
    forall k :: k in hm ==> HistoryOk(hm[k])
  }

  lemma UpdateOk(hm: map<string, seq<Entry<HistoryMember>>>, key: string, h: seq<Entry<HistoryMember>>)
    requires AllOk(hm) && HistoryOk(h)
    ensures AllOk(hm[key := h])
  {
  }

  /** Every outcome of `saveStats` keeps each history well formed. */
  lemma SavedHistoryOk(history: map<string, seq<Entry<HistoryMember>>>, cacheTtl: int, retention: int,
                       platform: string, count: int, extra: Extra, now: int, fault: SaveFault)
    requires AllOk(history)
    ensures AllOk(SavedHistory(history, cacheTtl, retention, platform, count, extra, now, fault))
  {
    var key := Lower(platform);
    var snap := SnapshotOf(platform, count, extra, now);
    if !(fault == FailSet || fault == FailAdd || ExpirySeconds(cacheTtl) <= 0) {
      var added := Add(HistoryOf(history, key), now, Snapshot(snap));
      AddSnapshotOk(HistoryOf(history, key), snap);
      PruneOk(added, 0, now - retention);
      UpdateOk(history, key, added);
      UpdateOk(history, key, RemoveRangeByScore(added, 0, now - retention));
    }
  }

  /** `Date.now() - maxAgeDays * 24 * 60 * 60 * 1000`. */
  function AgeCutoff(now: int, maxAgeDays: int): int {
    now - maxAgeDays * DayMs
  }

  /** Every history with the scores in [0, cutoff] removed. */
  function PrunedAll(hm: map<string, seq<Entry<HistoryMember>>>, cutoff: int): map<string, seq<Entry<HistoryMember>>> {
    map k | k in hm :: RemoveRangeByScore(hm[k], 0, cutoff)
  }

  lemma PrunedAllOk(hm: map<string, seq<Entry<HistoryMember>>>, cutoff: int)
    requires AllOk(hm)
    ensures AllOk(PrunedAll(hm, cutoff))
  {
    forall k | k in hm ensures HistoryOk(RemoveRangeByScore(hm[k], 0, cutoff)) {
      PruneOk(hm[k], 0, cutoff);
    }
  }

  /** The histories after a cleanup whose loop reached only the keys in `ks`: those are pruned, the rest kept. */
  function PrunedFor(hm: map<string, seq<Entry<HistoryMember>>>, cutoff: int, ks: set<string>)
    : map<string, seq<Entry<HistoryMember>>>
  {
    map k | k in hm :: if k in ks then RemoveRangeByScore(hm[k], 0, cutoff) else hm[k]
  }

  /** A partial cleanup keeps every history well formed. */
  lemma PrunedForOk(hm: map<string, seq<Entry<HistoryMember>>>, cutoff: int, ks: set<string>)
    requires AllOk(hm)
    ensures AllOk(PrunedFor(hm, cutoff, ks))
  {
    forall k | k in hm && k in ks ensures HistoryOk(RemoveRangeByScore(hm[k], 0, cutoff)) {
      PruneOk(hm[k], 0, cutoff);
    }
  }

  /** A loop that reaches every key is the full cleanup; one that reaches none changes nothing. */
  lemma PrunedForBounds(hm: map<string, seq<Entry<HistoryMember>>>, cutoff: int, ks: set<string>)
    ensures hm.Keys <= ks ==> PrunedFor(hm, cutoff, ks) == PrunedAll(hm, cutoff)
    ensures hm.Keys !! ks ==> PrunedFor(hm, cutoff, ks) == hm
  {
  }

  /** The loop's result is the partial cleanup, and it is well formed; with every key reached it is the full one. */
  lemma PrunedForIs(hm: map<string, seq<Entry<HistoryMember>>>, cutoff: int, ks: set<string>,
                    r: map<string, seq<Entry<HistoryMember>>>)
    requires AllOk(hm)
    requires r == map k | k in hm :: if k in ks then RemoveRangeByScore(hm[k], 0, cutoff) else hm[k]
    ensures r == PrunedFor(hm, cutoff, ks) && AllOk(r)
    ensures hm.Keys <= ks ==> r == PrunedAll(hm, cutoff)
  {
    PrunedForOk(hm, cutoff, ks);
    PrunedForBounds(hm, cutoff, ks);
  }

  /**
   * The loop of `cleanupOldStatsHistory`: one store call per key it
   * reaches (those in `ks`), replacing the key's value by `f` of it.
   */
  method UpdateEach<K(==), V>(hm: map<K, V>, ks: set<K>, f: V -> V) returns (r: map<K, V>)
    ensures r == map k | k in hm :: if k in ks then f(hm[k]) else hm[k]
  {
    r := hm;
    var keys := hm.Keys * ks;
    var done: set<K> := {};
    while done != keys
      invariant done <= keys <= hm.Keys == r.Keys
      invariant forall k :: k in done ==> r[k] == f(hm[k])
      invariant forall k :: k in hm && k !in done ==> r[k] == hm[k]
      decreases |keys - done|
    {
      var k :| k in keys - done;
      r := r[k := f(r[k])];
      done := done + {k};
    }
  }

  /**
   * The grouping loop of `getStatsTimeSeries`: the counts pushed per hour,
   * and the hours in the order their first snapshot appears.
   */
  method GroupByHour(w: seq<StatSnapshot>) returns (grouped: map<int, seq<int>>, hours: seq<int>)
    ensures grouped.Keys == HoursOf(w)
    ensures forall h :: h in grouped ==> grouped[h] == CountsIn(w, h)
    ensures forall h :: h in hours <==> h in grouped
  {
    grouped := map[];
    hours := [];
    for i := 0 to |w|
      invariant grouped.Keys == HoursOf(w[..i])
      invariant forall h :: h in grouped ==> grouped[h] == CountsIn(w[..i], h)
      invariant forall h :: h in hours <==> h in grouped
    {
      var h := HourOf(w[i].timestamp);
      assert w[..i + 1][..i] == w[..i];
      assert HoursOf(w[..i + 1]) == HoursOf(w[..i]) + {h};
      if h !in grouped {
        grouped := grouped[h := []];
        hours := hours + [h];
      }
      grouped := grouped[h := grouped[h] + [w[i].count]];
    }
    assert w[..|w|] == w;
  }

  /**
   * What `getStatsTimeSeries` promises of its points for the window `w`:
   * strictly ascending hour starts, one for every hour `w` touches and no
   * other, each carrying the rounded mean of that hour's counts.
   */
  predicate IsSeries(r: seq<Point>, w: seq<StatSnapshot>) {
    && (forall i, j :: 0 <= i < j < |r| ==> r[i].timestamp < r[j].timestamp)
    && (forall i :: 0 <= i < |r| ==>
          r[i].timestamp == HourStart(HourOf(r[i].timestamp)) && HourOf(r[i].timestamp) in HoursOf(w))
    && (forall x :: x in w ==> exists i :: 0 <= i < |r| && r[i].timestamp == HourStart(HourOf(x.timestamp)))
    && (forall i :: 0 <= i < |r| ==> r[i].count == RoundedMean(CountsIn(w, HourOf(r[i].timestamp))))
  }

  /** One point per hour, stamped with the hour's start and carrying the hour's rounded mean. */
  function Points(grouped: map<int, seq<int>>, hours: seq<int>): (r: seq<Point>)
    requires forall k :: 0 <= k < |hours| ==> hours[k] in grouped && grouped[hours[k]] != []
    ensures |r| == |hours|
  {
    seq(|hours|, k requires 0 <= k < |hours| => Point(HourStart(hours[k]), RoundedMean(grouped[hours[k]])))
  }

  /** Each point is stamped with the start of its own hour and carries that hour's rounded mean. */
  lemma PointsStamped(w: seq<StatSnapshot>, grouped: map<int, seq<int>>, hours: seq<int>)
    requires grouped.Keys == HoursOf(w) && forall h :: h in grouped ==> grouped[h] == CountsIn(w, h)
    requires forall h :: h in hours <==> h in grouped
    ensures forall k :: 0 <= k < |hours| ==> hours[k] in grouped && grouped[hours[k]] != []
    ensures var r := Points(grouped, hours);
      forall i :: 0 <= i < |r| ==>
        && r[i].timestamp == HourStart(HourOf(r[i].timestamp)) && HourOf(r[i].timestamp) == hours[i]
        && hours[i] in HoursOf(w) && r[i].count == RoundedMean(CountsIn(w, hours[i]))
  {
    forall k | 0 <= k < |hours| ensures hours[k] in grouped && grouped[hours[k]] != [] {
      var h := hours[k];
      assert h in hours;
      assert h in grouped.Keys;
    }
    var r := Points(grouped, hours);
    forall i | 0 <= i < |r|
      ensures r[i].timestamp == HourStart(HourOf(r[i].timestamp)) && HourOf(r[i].timestamp) == hours[i]
    {
      HourStartFacts(hours[i], hours[i]);
    }
  }

  /** Every hour of the window has its point. */
  lemma PointsCover(w: seq<StatSnapshot>, grouped: map<int, seq<int>>, hours: seq<int>)
    requires grouped.Keys == HoursOf(w) && forall h :: h in hours <==> h in grouped
    requires forall k :: 0 <= k < |hours| ==> hours[k] in grouped && grouped[hours[k]] != []
    ensures var r := Points(grouped, hours);
      forall x :: x in w ==> exists i :: 0 <= i < |r| && r[i].timestamp == HourStart(HourOf(x.timestamp))
  {
    var r := Points(grouped, hours);
    forall x | x in w ensures exists i :: 0 <= i < |r| && r[i].timestamp == HourStart(HourOf(x.timestamp)) {
      assert HourOf(x.timestamp) in HoursOf(w);
      var i :| 0 <= i < |hours| && hours[i] == HourOf(x.timestamp);
      assert r[i].timestamp == HourStart(HourOf(x.timestamp));
    }
  }

  /** Ascending hours give strictly ascending hour starts. */
  lemma PointsAscending(grouped: map<int, seq<int>>, hours: seq<int>)
    requires StrictlyIncreasing(hours)
    requires forall k :: 0 <= k < |hours| ==> hours[k] in grouped && grouped[hours[k]] != []
    ensures var r := Points(grouped, hours);
      forall i, j :: 0 <= i < j < |r| ==> r[i].timestamp < r[j].timestamp
  {
    var r := Points(grouped, hours);
    forall i, j | 0 <= i < j < |r| ensures r[i].timestamp < r[j].timestamp {
      HourStartFacts(hours[i], hours[j]);
    }
  }

  /** The grouped counts, listed by ascending hour, form the series of `w`. */
  lemma PointsSeries(w: seq<StatSnapshot>, grouped: map<int, seq<int>>, hours: seq<int>)
    requires grouped.Keys == HoursOf(w) && forall h :: h in grouped ==> grouped[h] == CountsIn(w, h)
    requires StrictlyIncreasing(hours) && forall h :: h in hours <==> h in grouped
    ensures forall k :: 0 <= k < |hours| ==> hours[k] in grouped && grouped[hours[k]] != []
    ensures IsSeries(Points(grouped, hours), w)
  {
    PointsStamped(w, grouped, hours);
    PointsCover(w, grouped, hours);
    PointsAscending(grouped, hours);
  }

  class StatsStore {
    /** `stats:current:<platform>`, with its expiry instant. */
    var current: map<string, CurrentEntry>
    /** `stats:history:<platform>`, a sorted set of snapshots scored by timestamp. */
    var history: map<string, seq<Entry<HistoryMember>>>
    /** `STATS_CACHE_TTL` and `STATS_HISTORY_RETENTION`, in milliseconds. */
    const cacheTtl: int
    const retention: int

    ghost predicate Valid()
      reads this
    {
      AllOk(history)
    }

    constructor (ttl: int, keep: int, initialHistory: map<string, seq<Entry<HistoryMember>>>)
      requires AllOk(initialHistory)
      ensures Valid()
      ensures cacheTtl == ttl && retention == keep
      ensures current == map[] && history == initialHistory
    {
      cacheTtl := ttl;
      retention := keep;
      current := map[];
      history := initialHistory;
    }

    /** `getCurrentStats`: the record under the lower-cased name while its key lives; errors read as null. */
    function CurrentStats(platform: string, now: int, readFails: bool): (r: Option<Current>)
      reads this
      ensures r.Some? <==> !readFails && Lower(platform) in current && now <= current[Lower(platform)].expiresAt
      ensures r.Some? ==> r.value == current[Lower(platform)].stats
    {
      var key := Lower(platform);
      if readFails || key !in current || now > current[key].expiresAt then None
      else Some(current[key].stats)
    }

    /**
     * `getStatsHistory`: exactly the parsable snapshots scored inside the
     * resolved window, in timestamp order; an error gives the empty list.
     */
    function StatsHistory(platform: string, startTime: Option<int>, endTime: Option<int>, now: int, readFails: bool)
      : (r: seq<StatSnapshot>)
      reads this
      requires Valid()
      ensures readFails ==> r == []
      ensures !readFails ==> forall x :: x in r <==>
        Window(startTime, endTime, now).0 <= x.timestamp <= Window(startTime, endTime, now).1 &&
        Entry(x.timestamp, Snapshot(x)) in HistoryOf(history, Lower(platform))
      ensures Chronological(r)
    {
      if readFails then []
      else
        var (start, end) := Window(startTime, endTime, now);
        var h := HistoryOf(history, Lower(platform));
        var g := RangeByScore(h, start, end);
        assert ScoredByTimestamp(g);
        ParsedMembers(g);
        ParsedChronological(g);
        Parsed(g)
    }

    /** `shouldRefreshStats`: refresh when there is no live record or it is older than the interval. */
    function ShouldRefresh(platform: string, interval: int, now: int, readFails: bool): (b: bool)
      reads this
      ensures b <==> CurrentStats(platform, now, readFails).None? ||
                     now - CurrentStats(platform, now, readFails).value.lastFetched > interval
    {
      match CurrentStats(platform, now, readFails)
      case None => true
      case Some(s) => now - s.lastFetched > interval
    }

    /** `saveStats`: overwrite the current record, add one snapshot, prune the history. */
    method SaveStats(platform: string, count: int, extra: Extra, now: int, fault: SaveFault)
      requires Valid()
      modifies this
      ensures Valid()
      ensures current == SavedCurrent(old(current), cacheTtl, platform, count, extra, now, fault)
      ensures history == SavedHistory(old(history), cacheTtl, retention, platform, count, extra, now, fault)
    {
      var key := Lower(platform);
      var ex := ExpirySeconds(cacheTtl);
      if fault != FailSet && ex > 0 {
        current := current[key := CurrentEntry(Current(platform, count, extra.views, extra.videos, now), now + ex * 1000)];
        if fault != FailAdd {
          var added := Add(HistoryOf(history, key), now, Snapshot(SnapshotOf(platform, count, extra, now)));
          if fault != FailPrune {
            history := history[key := RemoveRangeByScore(added, 0, now - retention)];
          } else {
            history := history[key := added];
          }
        }
      }
      assert current == SavedCurrent(old(current), cacheTtl, platform, count, extra, now, fault);
      assert history == SavedHistory(old(history), cacheTtl, retention, platform, count, extra, now, fault);
      SavedHistoryOk(old(history), cacheTtl, retention, platform, count, extra, now, fault);
    }

    /**
     * `getStatsTimeSeries`: the window's snapshots grouped by hour, one
     * point per distinct hour in ascending order, stamped with the hour's
     * start and carrying the hour's mean count rounded half up.
     */
    method StatsTimeSeries(platform: string, range: TimeRange, now: int, readFails: bool) returns (r: seq<Point>)
      requires Valid()
      ensures var w := StatsHistory(platform, Some(now - RangeLength(range)), Some(now), now, readFails);
        (w == [] ==> r == []) && IsSeries(r, w)
    {
      var w := StatsHistory(platform, Some(now - RangeLength(range)), Some(now), now, readFails);
      if |w| == 0 {
        return [];
      }
      var grouped, seen := GroupByHour(w);
      var hours := SortHours(seen);
      PointsSeries(w, grouped, hours);
      r := Points(grouped, hours);
    }

    /**
     * `getStatsWithAutoRefresh`: fetch and save only when a refresh is
     * due, then return the current record; `fetched` is the fetcher's result,
     * None when it throws (the cached record is returned then). The two
     * reads of the current record fail independently: `checkReadFails` for
     * the one inside `shouldRefreshStats` (a failure there forces a
     * refresh), `finalReadFails` for the one whose record is returned.
     */
    method StatsWithAutoRefresh(platform: string, fetched: Option<(int, Extra)>, interval: int, now: int,
                                fault: SaveFault, checkReadFails: bool, finalReadFails: bool)
      returns (r: Option<Current>, fetcherCalled: bool)
      requires Valid()
      modifies this
      ensures Valid()
      ensures fetcherCalled == old(ShouldRefresh(platform, interval, now, checkReadFails))
      ensures fetcherCalled && fetched.Some? && fault == NoFault && ExpirySeconds(cacheTtl) > 0 && !finalReadFails ==>
        r == Some(Current(platform, fetched.value.0, fetched.value.1.views, fetched.value.1.videos, now))
      ensures fetcherCalled && fetched.Some? ==>
        current == SavedCurrent(old(current), cacheTtl, platform, fetched.value.0, fetched.value.1, now, fault) &&
        history == SavedHistory(old(history), cacheTtl, retention, platform, fetched.value.0, fetched.value.1, now, fault)
      ensures !(fetcherCalled && fetched.Some?) ==> current == old(current) && history == old(history)
      ensures r == CurrentStats(platform, now, finalReadFails)
    {
      fetcherCalled := ShouldRefresh(platform, interval, now, checkReadFails);
      ghost var before := current;
      if fetcherCalled && fetched.Some? {
        SaveStats(platform, fetched.value.0, fetched.value.1, now, fault);
        if fault == NoFault && ExpirySeconds(cacheTtl) > 0 {
          SaveThenCurrent(before, cacheTtl, platform, platform, fetched.value.0, fetched.value.1, now);
        }
      }
      r := CurrentStats(platform, now, finalReadFails);
    }

    /**
     * `cleanupOldStatsHistory`: prune every history to scores outside
     * [0, now - maxAgeDays days]. `keysFail` says that listing the keys
     * throws; `pruneThrows` is Some(done) when one key's ZREMRANGEBYSCORE
     * throws, `done` being the keys pruned before it in the order KEYS
     * answered them. A throw leaves the loop, so the later keys stay as
     * they were.
     */
    method CleanupOldHistory(maxAgeDays: int, now: int, keysFail: bool, pruneThrows: Option<set<string>>)
      requires Valid()
      modifies this
      ensures Valid()
      ensures current == old(current)
      ensures keysFail ==> history == old(history)
      ensures !keysFail && pruneThrows.None? ==> history == PrunedAll(old(history), AgeCutoff(now, maxAgeDays))
      ensures !keysFail && pruneThrows.Some? ==>
        history == PrunedFor(old(history), AgeCutoff(now, maxAgeDays), pruneThrows.value)
    {
      if keysFail {
        return;
      }
      var cutoff := AgeCutoff(now, maxAgeDays);
      var reached := if pruneThrows.Some? then pruneThrows.value else history.Keys;
      var r := UpdateEach(history, reached, (h: seq<Entry<HistoryMember>>) => RemoveRangeByScore(h, 0, cutoff));
      PrunedForIs(history, cutoff, reached, r);
      history := r;
    }
  }

  /**
   * After a fault-free save, every name equal to `platform` up to case reads
   * back the record just written, stamped `now`, until the key expires.
   */
  lemma SaveThenCurrent(current: map<string, CurrentEntry>, cacheTtl: int, platform: string, other: string,
                        count: int, extra: Extra, now: int)
    requires ExpirySeconds(cacheTtl) > 0 && Lower(other) == Lower(platform)
    ensures var c := SavedCurrent(current, cacheTtl, platform, count, extra, now, NoFault);
      Lower(other) in c && c[Lower(other)].stats == Current(platform, count, extra.views, extra.videos, now) &&
      now < c[Lower(other)].expiresAt
  {
  }

  /** A save touches no other platform's current record or history. */
  lemma SaveLeavesOthers(current: map<string, CurrentEntry>, history: map<string, seq<Entry<HistoryMember>>>,
                         cacheTtl: int, retention: int, platform: string, count: int, extra: Extra,
                         now: int, fault: SaveFault, key: string)
    requires key != Lower(platform)
    ensures var c := SavedCurrent(current, cacheTtl, platform, count, extra, now, fault);
      (key in c <==> key in current) && (key in c ==> c[key] == current[key])
    ensures var h := SavedHistory(history, cacheTtl, retention, platform, count, extra, now, fault);
      (key in h <==> key in history) && (key in h ==> h[key] == history[key])
  {
  }

  /**
   * After a fault-free save no remaining snapshot is scored in
   * [0, now - retention]; older entries above the cutoff survive; and the
   * new snapshot is present exactly when it is above the cutoff, so a
   * retention of zero or less discards it at once.
   */
  lemma SaveHistoryShape(history: map<string, seq<Entry<HistoryMember>>>, cacheTtl: int, retention: int,
                         platform: string, count: int, extra: Extra, now: int)
    requires ExpirySeconds(cacheTtl) > 0 && now >= 0
    ensures var h := SavedHistory(history, cacheTtl, retention, platform, count, extra, now, NoFault)[Lower(platform)];
      var snap := Entry(now, Snapshot(SnapshotOf(platform, count, extra, now)));
      && (forall e :: e in h ==> !(0 <= e.score <= now - retention))
      && (snap in h <==> retention > 0)
      && (forall e :: (e in HistoryOf(history, Lower(platform)) && e.score > now - retention &&
            e.member != snap.member) ==> e in h)
  {
  }

  /** With the default retention the snapshot just saved is kept. */
  lemma DefaultRetentionKeepsSnapshot(history: map<string, seq<Entry<HistoryMember>>>, platform: string,
                                      count: int, extra: Extra, now: int)
    requires now >= 0
    ensures Entry(now, Snapshot(SnapshotOf(platform, count, extra, now))) in
      SavedHistory(history, 86_400_000, 90 * DayMs, platform, count, extra, now, NoFault)[Lower(platform)]
  {
    Config.RoundDivExact(86_400, 1000);
    SaveHistoryShape(history, 86_400_000, 90 * DayMs, platform, count, extra, now);
  }
}
