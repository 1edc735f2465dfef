/**
 * The statistics charts: the per-platform histories are merged into one
 * series of chart points by index, and each platform's growth over the
 * shown range is its last count minus its first. The stats page and the
 * stats modal carry the same two helpers.
 */
module Charts {
  import opened Wrappers

  /** One history entry of a platform. */
  datatype HistoryPoint = HistoryPoint(timestamp: int, count: int, time: string)

  /** One platform's statistics, as far as the charts read them. */
  datatype Stat = Stat(platform: string, history: seq<HistoryPoint>)

  /** A value of a chart point's dictionary: the time label or a platform's count. */
  datatype Cell = Label(time: string) | Count(n: int)

  /** A chart point: `{ time, [platform]: count, ... }`. */
  type Point = map<string, Cell>

  /** Stat `s` has an entry for platform `p` at `index`. */
  predicate Has(s: Stat, p: string, index: nat) {
    s.platform == p && index < |s.history|
  }

  /**
   * The `forEach` over the platforms: starting from `m`, each platform with
   * an entry at `index` sets its name to that entry's count, later ones
   * overwriting earlier ones.
   */
  function Fill(stats: seq<Stat>, index: nat, m: Point): Point {
    if stats == [] then m
    else
      var s := stats[|stats| - 1];
      var before := Fill(stats[..|stats| - 1], index, m);
      if index < |s.history| then before[s.platform := Count(s.history[index].count)] else before
  }

  /** Point `index` of the chart: the first platform's time, then every platform's count there. */
  function PointAt(stats: seq<Stat>, index: nat): Point
    requires |stats| > 0 && index < |stats[0].history|
  {
    Fill(stats, index, map["time" := Label(stats[0].history[index].time)])
  }

  /** `buildChartData()`. */
  function Chart(stats: seq<Stat>): seq<Point> {
    if |stats| == 0 || |stats[0].history| == 0 then []
    else seq(|stats[0].history|, i requires 0 <= i < |stats[0].history| => PointAt(stats, i))
  }

  /** `buildChartData`: one point per entry of the first platform's history. */
  method BuildChartData(stats: seq<Stat>) returns (points: seq<Point>)
    ensures points == Chart(stats)
  {
    if |stats| == 0 || |stats[0].history| == 0 {
      return [];
    }
    var base := stats[0].history;
    points := [];
    var index := 0;
    while index < |base|
      invariant 0 <= index <= |base|
      invariant |points| == index
      invariant forall i :: 0 <= i < index ==> points[i] == PointAt(stats, i)
    {
      var dataPoint := FillPoint(stats, index, map["time" := Label(base[index].time)]);
      points := points + [dataPoint];
      index := index + 1;
    }
  }

  /** The `forEach` that fills one chart point. */
  method FillPoint(stats: seq<Stat>, index: nat, start: Point) returns (dataPoint: Point)
    ensures dataPoint == Fill(stats, index, start)
  {
    dataPoint := start;
    var k := 0;
    while k < |stats|
      invariant 0 <= k <= |stats|
      invariant dataPoint == Fill(stats[..k], index, start)
    {
      assert stats[..k + 1][..k] == stats[..k];
      var stat := stats[k];
      if index < |stat.history| {
        dataPoint := dataPoint[stat.platform := Count(stat.history[index].count)];
      }
      k := k + 1;
    }
    assert stats[..k] == stats;
  }

  /** The chart is empty exactly when there are no stats or the first history is empty; else it has one point per entry. */
  lemma ChartShape(stats: seq<Stat>)
    ensures Chart(stats) == [] <==> |stats| == 0 || |stats[0].history| == 0
    ensures |stats| > 0 ==> |Chart(stats)| == |stats[0].history|
  {
  }

  /** A name is set by the `forEach` exactly when it was set before or some platform of that name has an entry at `index`. */
  lemma {:induction false} FillKeys(stats: seq<Stat>, index: nat, m: Point, p: string)
    ensures p in Fill(stats, index, m) <==> p in m || exists j :: 0 <= j < |stats| && Has(stats[j], p, index)
  {
    if stats != [] {
      var init := stats[..|stats| - 1];
      FillKeys(init, index, m, p);
      if exists j :: 0 <= j < |init| && Has(init[j], p, index) {
        var j :| 0 <= j < |init| && Has(init[j], p, index);
        assert stats[j] == init[j];
      }
      if exists j :: 0 <= j < |stats| && Has(stats[j], p, index) {
        var j :| 0 <= j < |stats| && Has(stats[j], p, index);
        if j < |init| {
          assert init[j] == stats[j];
        }
      }
    }
  }

  /** The value under a platform's name is the count of the last platform of that name with an entry at `index`. */
  lemma {:induction false} FillLast(stats: seq<Stat>, index: nat, m: Point, j: nat)
    requires j < |stats| && index < |stats[j].history|
    requires forall k :: j < k < |stats| ==> !Has(stats[k], stats[j].platform, index)
    ensures var p := stats[j].platform;
      p in Fill(stats, index, m) && Fill(stats, index, m)[p] == Count(stats[j].history[index].count)
  {
    var init, s := stats[..|stats| - 1], stats[|stats| - 1];
    if j < |init| {
      assert init[j] == stats[j];
      forall k | j < k < |init| ensures !Has(init[k], init[j].platform, index) {
        assert init[k] == stats[k];
      }
      FillLast(init, index, m, j);
      assert !Has(s, stats[j].platform, index);
    }
  }

  /** A name no platform sets at `index` keeps its value from the start. */
  lemma {:induction false} FillUntouched(stats: seq<Stat>, index: nat, m: Point, p: string)
    requires forall k :: 0 <= k < |stats| ==> !Has(stats[k], p, index)
    requires p in m
    ensures p in Fill(stats, index, m) && Fill(stats, index, m)[p] == m[p]
  {
    if stats != [] {
      var init := stats[..|stats| - 1];
      forall k | 0 <= k < |init| ensures !Has(init[k], p, index) {
        assert init[k] == stats[k];
      }
      FillUntouched(init, index, m, p);
      assert !Has(stats[|stats| - 1], p, index);
    }
  }

  /**
   * Alignment by index: point `i` holds the first platform's time at `i`
   * (unless a platform is itself named "time"), and a platform appears in
   * it exactly when it has an entry at `i`, with the count of that entry.
   */
  lemma ChartPoint(stats: seq<Stat>, i: nat, p: string)
    requires i < |Chart(stats)|
    ensures (forall k :: 0 <= k < |stats| ==> !Has(stats[k], "time", i)) ==>
      "time" in Chart(stats)[i] && Chart(stats)[i]["time"] == Label(stats[0].history[i].time)
    ensures p != "time" ==>
      (p in Chart(stats)[i] <==> exists j :: 0 <= j < |stats| && Has(stats[j], p, i))
  {
    var m := map["time" := Label(stats[0].history[i].time)];
    assert Chart(stats)[i] == Fill(stats, i, m);
    if forall k :: 0 <= k < |stats| ==> !Has(stats[k], "time", i) {
      FillUntouched(stats, i, m, "time");
    }
    FillKeys(stats, i, m, p);
  }

  /** With one stat per platform, point `i` shows each platform's own count at `i`. */
  lemma ChartCount(stats: seq<Stat>, i: nat, j: nat)
    requires i < |Chart(stats)| && j < |stats| && i < |stats[j].history|
    requires forall k :: j < k < |stats| ==> stats[k].platform != stats[j].platform
    ensures stats[j].platform in Chart(stats)[i]
    ensures Chart(stats)[i][stats[j].platform] == Count(stats[j].history[i].count)
  {
    var m := map["time" := Label(stats[0].history[i].time)];
    assert Chart(stats)[i] == Fill(stats, i, m);
    FillLast(stats, i, m, j);
  }

  /** A platform whose history ends before `i` is absent from point `i`. */
  lemma ShortHistoryAbsent(stats: seq<Stat>, i: nat, p: string)
    requires i < |Chart(stats)| && p != "time"
    requires forall k :: 0 <= k < |stats| && stats[k].platform == p ==> |stats[k].history| <= i
    ensures p !in Chart(stats)[i]
  {
    ChartPoint(stats, i, p);
  }

  /** `stats.find(s => s.platform === platform)`: the first stat of that platform. */
  function Find(stats: seq<Stat>, p: string): (r: Option<Stat>)
    ensures r.None? <==> forall k :: 0 <= k < |stats| ==> stats[k].platform != p
    ensures r.Some? ==> exists j :: (
      && 0 <= j < |stats| && stats[j] == r.value && stats[j].platform == p
      && forall k :: 0 <= k < j ==> stats[k].platform != p)
  {
    if stats == [] then None
    else if stats[0].platform == p then Some(stats[0])
    else
      var r := Find(stats[1..], p);
      assert forall k :: 1 <= k < |stats| ==> stats[k] == stats[1..][k - 1];
      if r.Some? then
        var j :| (
          && 0 <= j < |stats[1..]| && stats[1..][j] == r.value && stats[1..][j].platform == p
          && forall k :: 0 <= k < j ==> stats[1..][k].platform != p);
        assert stats[j + 1] == r.value;
        r
      else r
  }

  /** `getGrowth(platform)`. */
  function Growth(stats: seq<Stat>, p: string): int {
    match Find(stats, p)
    case None => 0
    case Some(s) =>
      var h := s.history;
      if |h| < 2 then 0 else h[|h| - 1].count - h[0].count
  }

  /** The sum of the step-by-step changes of a history. */
  function StepChanges(h: seq<HistoryPoint>): int {
    if |h| < 2 then 0 else StepChanges(h[..|h| - 1]) + (h[|h| - 1].count - h[|h| - 2].count)
  }

  /** The growth of a history of two or more entries is the sum of its step changes. */
  lemma {:induction false} GrowthTelescopes(h: seq<HistoryPoint>)
    requires |h| >= 2
    ensures StepChanges(h) == h[|h| - 1].count - h[0].count
  {
    if |h| > 2 {
      var init := h[..|h| - 1];
      GrowthTelescopes(init);
      assert init[0] == h[0] && init[|init| - 1] == h[|h| - 2];
    }
  }

  /** `getGrowth` is 0 for a missing platform or a short history, and otherwise the sum of the history's step changes. */
  lemma GrowthSpec(stats: seq<Stat>, p: string)
    ensures Find(stats, p).None? ==> Growth(stats, p) == 0
    ensures Find(stats, p).Some? && |Find(stats, p).value.history| < 2 ==> Growth(stats, p) == 0
    ensures Find(stats, p).Some? && |Find(stats, p).value.history| >= 2 ==>
      Growth(stats, p) == StepChanges(Find(stats, p).value.history)
  {
    if Find(stats, p).Some? && |Find(stats, p).value.history| >= 2 {
      GrowthTelescopes(Find(stats, p).value.history);
    }
  }

  /** Counts that never fall give a growth that is not negative. */
  lemma {:induction false} NonDecreasingGrowth(h: seq<HistoryPoint>)
    requires forall i :: 0 < i < |h| ==> h[i - 1].count <= h[i].count
    ensures StepChanges(h) >= 0
  {
    if |h| >= 2 {
      var init := h[..|h| - 1];
      forall i | 0 < i < |init| ensures init[i - 1].count <= init[i].count {
        assert init[i - 1] == h[i - 1] && init[i] == h[i];
      }
      NonDecreasingGrowth(init);
    }
  }
}
