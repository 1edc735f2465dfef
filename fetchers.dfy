/**
 * `fetchAndSaveAllStats`: walk the settled results of the three platform
 * fetchers in order, save every fulfilled non-null one to the stats store
 * and return the ones saved.
 */
module Fetchers {
  import opened Wrappers
  import opened Text
  import StatsStorage

  /** What a platform fetcher resolves to when it finds a count. */
  datatype FetchedStats = FetchedStats(platform: string, count: int, extraInfo: Option<StatsStorage.Extra>)

  /** A settled fetch: rejected, or fulfilled with a value that may be null. */
  datatype Settled = Rejected | Fulfilled(value: Option<FetchedStats>)

  predicate Saveable(s: Settled) {
    s.Fulfilled? && s.value.Some?
  }

  function ExtraOf(f: FetchedStats): StatsStorage.Extra {
    f.extraInfo.GetOr(StatsStorage.Extra(None, None))
  }

  /** The fulfilled non-null values, in the order the fetchers were listed. */
  function Kept(rs: seq<Settled>): (r: seq<FetchedStats>)
    ensures |r| <= |rs|
    ensures forall f :: f in r <==> Fulfilled(Some(f)) in rs
  {
    if rs == [] then []
    else
      var init := Kept(rs[..|rs| - 1]);
      assert rs == rs[..|rs| - 1] + [rs[|rs| - 1]];
      if Saveable(rs[|rs| - 1]) then init + [rs[|rs| - 1].value.value] else init
  }

  /** The current-stats map after saving `ss` one after another. */
  function CurrentAfter(current: map<string, StatsStorage.CurrentEntry>, cacheTtl: int, ss: seq<FetchedStats>,
                        now: int, fault: string -> StatsStorage.SaveFault): map<string, StatsStorage.CurrentEntry>
  {
    if ss == [] then current
    else
      var f := ss[|ss| - 1];
      StatsStorage.SavedCurrent(CurrentAfter(current, cacheTtl, ss[..|ss| - 1], now, fault),
                                cacheTtl, f.platform, f.count, ExtraOf(f), now, fault(f.platform))
  }

  /** The history map after saving `ss` one after another. */
  function HistoryAfter(history: map<string, seq<StatsStorage.SortedSet.Entry<StatsStorage.HistoryMember>>>,
                        cacheTtl: int, retention: int, ss: seq<FetchedStats>, now: int, fault: string -> StatsStorage.SaveFault)
    : map<string, seq<StatsStorage.SortedSet.Entry<StatsStorage.HistoryMember>>>
  {
    if ss == [] then history
    else
      var f := ss[|ss| - 1];
      StatsStorage.SavedHistory(HistoryAfter(history, cacheTtl, retention, ss[..|ss| - 1], now, fault),
                                cacheTtl, retention, f.platform, f.count, ExtraOf(f), now, fault(f.platform))
  }

  /** Saving one more result applies one more `saveStats` to both maps. */
  lemma AfterOneMore(current: map<string, StatsStorage.CurrentEntry>,
                     history: map<string, seq<StatsStorage.SortedSet.Entry<StatsStorage.HistoryMember>>>,
                     cacheTtl: int, retention: int, ss: seq<FetchedStats>, f: FetchedStats,
                     now: int, fault: string -> StatsStorage.SaveFault)
    ensures CurrentAfter(current, cacheTtl, ss + [f], now, fault) ==
      StatsStorage.SavedCurrent(CurrentAfter(current, cacheTtl, ss, now, fault),
                                cacheTtl, f.platform, f.count, ExtraOf(f), now, fault(f.platform))
    ensures HistoryAfter(history, cacheTtl, retention, ss + [f], now, fault) ==
      StatsStorage.SavedHistory(HistoryAfter(history, cacheTtl, retention, ss, now, fault),
                                cacheTtl, retention, f.platform, f.count, ExtraOf(f), now, fault(f.platform))
  {
    assert (ss + [f])[..|ss|] == ss;
  }

  /**
   * `saveStats` traps its own errors, so every fulfilled non-null result is
   * saved once, in order, and returned; rejected and null results are skipped.
   * `fault` says how each platform's save fails, if it does.
   */
  method FetchAndSaveAllStats(store: StatsStorage.StatsStore, results: seq<Settled>, now: int,
                              fault: string -> StatsStorage.SaveFault) returns (saved: seq<FetchedStats>)
    requires store.Valid()
    modifies store
    ensures store.Valid()
    ensures saved == Kept(results)
    ensures store.current == CurrentAfter(old(store.current), store.cacheTtl, saved, now, fault)
    ensures store.history == HistoryAfter(old(store.history), store.cacheTtl, store.retention, saved, now, fault)
  {
    saved := [];
    for i := 0 to |results|
      invariant store.Valid()
      invariant saved == Kept(results[..i])
      invariant store.current == CurrentAfter(old(store.current), store.cacheTtl, saved, now, fault)
      invariant store.history == HistoryAfter(old(store.history), store.cacheTtl, store.retention, saved, now, fault)
    {
      assert results[..i + 1][..i] == results[..i];
      if Saveable(results[i]) {
        var stats := results[i].value.value;
        AfterOneMore(old(store.current), old(store.history), store.cacheTtl, store.retention, saved, stats, now, fault);
        store.SaveStats(stats.platform, stats.count, ExtraOf(stats), now, fault(stats.platform));
        saved := saved + [stats];
      }
    }
    assert results[..|results|] == results;
  }

  /**
   * Results are handled independently: a rejected or null result between
   * two stretches contributes nothing and does not stop the later ones.
   */
  lemma {:induction false} KeptAppend(a: seq<Settled>, b: seq<Settled>)
    ensures Kept(a + b) == Kept(a) + Kept(b)
    decreases |b|
  {
    if b == [] {
      assert a + b == a;
    } else {
      var b' := b[..|b| - 1];
      assert (a + b)[..|a + b| - 1] == a + b';
      assert (a + b)[|a + b| - 1] == b[|b| - 1];
      KeptAppend(a, b');
    }
  }

  /** The three fetchers give at most three saved results, in fetcher order. */
  lemma ThreeFetchers(youtube: Settled, telegram: Settled, instagram: Settled)
    ensures var k := Kept([youtube, telegram, instagram]);
      && |k| <= 3
      && k == Kept([youtube]) + Kept([telegram]) + Kept([instagram])
      && (Saveable(youtube) ==> k[0] == youtube.value.value)
  {
    KeptAppend([youtube], [telegram]);
    KeptAppend([youtube, telegram], [instagram]);
    assert [youtube] + [telegram] == [youtube, telegram];
    assert [youtube, telegram] + [instagram] == [youtube, telegram, instagram];
  }

  predicate LowerDistinct(ss: seq<FetchedStats>) {
    forall i, j :: 0 <= i < j < |ss| ==> Lower(ss[i].platform) != Lower(ss[j].platform)
  }

  /** A platform whose name matches none of the saved ones keeps its current record and its history. */
  lemma {:induction false} OtherPlatformsUntouched(current: map<string, StatsStorage.CurrentEntry>,
      history: map<string, seq<StatsStorage.SortedSet.Entry<StatsStorage.HistoryMember>>>,
      cacheTtl: int, retention: int, ss: seq<FetchedStats>, now: int, fault: string -> StatsStorage.SaveFault, key: string)
    requires forall i :: 0 <= i < |ss| ==> Lower(ss[i].platform) != key
    ensures var c := CurrentAfter(current, cacheTtl, ss, now, fault);
      (key in c <==> key in current) && (key in current ==> c[key] == current[key])
    ensures var h := HistoryAfter(history, cacheTtl, retention, ss, now, fault);
      (key in h <==> key in history) && (key in history ==> h[key] == history[key])
  {
    if ss != [] {
      var init := ss[..|ss| - 1];
      var f := ss[|ss| - 1];
      OtherPlatformsUntouched(current, history, cacheTtl, retention, init, now, fault, key);
      StatsStorage.SaveLeavesOthers(CurrentAfter(current, cacheTtl, init, now, fault),
                                    HistoryAfter(history, cacheTtl, retention, init, now, fault),
                                    cacheTtl, retention, f.platform, f.count, ExtraOf(f), now, fault(f.platform), key);
    }
  }

  /**
   * Each platform's save fails or succeeds on its own: with distinct
   * platform names, every saved result whose own save succeeds is its
   * platform's current record afterwards, whatever the other saves did.
   */
  lemma {:induction false} EverySavedReadsBack(current: map<string, StatsStorage.CurrentEntry>, cacheTtl: int,
                                               ss: seq<FetchedStats>, now: int,
                                               fault: string -> StatsStorage.SaveFault)
    requires LowerDistinct(ss) && StatsStorage.ExpirySeconds(cacheTtl) > 0
    ensures var c := CurrentAfter(current, cacheTtl, ss, now, fault);
      forall i :: 0 <= i < |ss| && fault(ss[i].platform) == StatsStorage.NoFault ==>
        Lower(ss[i].platform) in c &&
        c[Lower(ss[i].platform)].stats ==
          StatsStorage.Current(ss[i].platform, ss[i].count, ExtraOf(ss[i]).views, ExtraOf(ss[i]).videos, now)
  {
    if ss != [] {
      var init := ss[..|ss| - 1];
      var f := ss[|ss| - 1];
      assert LowerDistinct(init);
      EverySavedReadsBack(current, cacheTtl, init, now, fault);
      var before := CurrentAfter(current, cacheTtl, init, now, fault);
      var after := CurrentAfter(current, cacheTtl, ss, now, fault);
      forall i | 0 <= i < |ss| && fault(ss[i].platform) == StatsStorage.NoFault
        ensures Lower(ss[i].platform) in after &&
          after[Lower(ss[i].platform)].stats ==
            StatsStorage.Current(ss[i].platform, ss[i].count, ExtraOf(ss[i]).views, ExtraOf(ss[i]).videos, now)
      {
        if i < |init| {
          assert init[i] == ss[i];
          StatsStorage.SaveLeavesOthers(before, map[], cacheTtl, 0, f.platform, f.count, ExtraOf(f), now,
                                        fault(f.platform), Lower(ss[i].platform));
        } else {
          StatsStorage.SaveThenCurrent(before, cacheTtl, f.platform, f.platform, f.count, ExtraOf(f), now);
        }
      }
    }
  }
}
