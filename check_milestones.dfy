/**
 * The milestone check endpoint: fetch the three platforms' counts, then for
 * each one save it, read its cursor, and broadcast when the gate opens; the
 * cursor advances only when at least one send was fulfilled.
 */
module CheckMilestones {
  import opened Wrappers
  import opened Text
  import opened Milestones
  import MilestoneStorage
  import StatsStorage
  import Subscribers
  import SortedSet

  /** How one send settled: fulfilled with an HTTP status (any status), or rejected. */
  datatype SendOutcome = Fulfilled(status: int) | Rejected

  datatype Tally = Tally(total: int, successful: int, failed: int)

  /** The number of recipients whose send was fulfilled. */
  function CountFulfilled(ids: seq<int>, send: int -> SendOutcome): (n: nat)
    ensures n <= |ids|
  {
    if ids == [] then 0 else (if send(ids[0]).Fulfilled? then 1 else 0) + CountFulfilled(ids[1..], send)
  }

  /**
   * `sendTelegramBroadcast`: None when the call throws, which it does when
   * the bot token is unset or when reading the subscriber set fails
   * (`readFails`); otherwise one send per subscriber, tallied.
   */
  function Broadcast(tokenPresent: bool, readFails: bool, subscribers: seq<int>, send: int -> SendOutcome)
    : (r: Option<Tally>)
    ensures r.None? <==> !tokenPresent || readFails
    ensures r.Some? ==> r.value.total == |subscribers| && r.value.successful + r.value.failed == r.value.total
    ensures r.Some? ==> 0 <= r.value.successful <= r.value.total
    ensures r.Some? && subscribers == [] ==> r.value == Tally(0, 0, 0)
  {
    if !tokenPresent || readFails then None
    else if |subscribers| == 0 then Some(Tally(0, 0, 0))
    else
      var ok := CountFulfilled(subscribers, send);
      Some(Tally(|subscribers|, ok, |subscribers| - ok))
  }

  /** Fulfilled sends count as successful whatever their status. */
  lemma {:induction false} ErrorStatusesCountAsSuccessful(ids: seq<int>, send: int -> SendOutcome)
    requires forall i :: 0 <= i < |ids| ==> send(ids[i]).Fulfilled?
    ensures CountFulfilled(ids, send) == |ids|
  {
    if ids != [] {
      assert forall i :: 0 <= i < |ids[1..]| ==> ids[1..][i] == ids[i + 1];
      ErrorStatusesCountAsSuccessful(ids[1..], send);
    }
  }

  /** Only rejected sends count as failed. */
  lemma {:induction false} RejectedSendsFail(ids: seq<int>, send: int -> SendOutcome)
    requires forall i :: 0 <= i < |ids| ==> send(ids[i]).Rejected?
    ensures CountFulfilled(ids, send) == 0
  {
    if ids != [] {
      assert forall i :: 0 <= i < |ids[1..]| ==> ids[1..][i] == ids[i + 1];
      RejectedSendsFail(ids[1..], send);
    }
  }

  /** How one platform endpoint settled; `body` is None when `json()` throws. */
  datatype FetchOutcome = FetchRejected | Response(ok: bool, body: Option<map<string, int>>)

  datatype PlatformStats = PlatformStats(platform: string, count: int, extra: Option<StatsStorage.Extra>)

  predicate Usable(o: FetchOutcome) {
    o.Response? && o.ok
  }

  predicate JsonThrows(o: FetchOutcome) {
    Usable(o) && o.body.None?
  }

  /** `data[name] || 0` for a numeric field. */
  function Field(body: map<string, int>, name: string): int {
    if name in body then body[name] else 0
  }

  /** What one usable response contributes, with missing count fields read as 0. */
  function Report(o: FetchOutcome, platform: string, field: string, withExtra: bool): (r: seq<PlatformStats>)
    requires !JsonThrows(o)
    ensures |r| <= 1 && (r != [] <==> Usable(o))
    ensures r != [] ==> r[0].platform == platform && r[0].count == Field(o.body.value, field)
    ensures r != [] ==> (r[0].extra.Some? <==> withExtra)
  {
    if !Usable(o) then []
    else
      var b := o.body.value;
      var extra := if withExtra then Some(StatsStorage.Extra(Some(Field(b, "viewCount")), Some(Field(b, "videoCount"))))
                   else None;
      [PlatformStats(platform, Field(b, field), extra)]
  }

  function Rank(platform: string): int {
    if platform == "YouTube" then 0 else if platform == "Telegram" then 1 else 2
  }

  /** The three reports in fetch order. */
  function Reports(youtube: FetchOutcome, telegram: FetchOutcome, instagram: FetchOutcome): seq<PlatformStats>
    requires !JsonThrows(youtube) && !JsonThrows(telegram) && !JsonThrows(instagram)
  {
    Report(youtube, "YouTube", "subscriberCount", true) +
    Report(telegram, "Telegram", "membersCount", false) +
    Report(instagram, "Instagram", "followersCount", false)
  }

  /**
   * `fetchPlatformStats`: YouTube, Telegram, Instagram in that order, one
   * entry per fulfilled ok response; a body that fails to parse makes the
   * whole result empty.
   */
  method FetchPlatformStats(youtube: FetchOutcome, telegram: FetchOutcome, instagram: FetchOutcome)
    returns (stats: seq<PlatformStats>)
    ensures JsonThrows(youtube) || JsonThrows(telegram) || JsonThrows(instagram) ==> stats == []
    ensures !(JsonThrows(youtube) || JsonThrows(telegram) || JsonThrows(instagram)) ==>
      stats == Reports(youtube, telegram, instagram)
  {
    stats := [];
    if Usable(youtube) {
      if youtube.body.None? {
        return [];
      }
      var data := youtube.body.value;
      stats := stats + [PlatformStats("YouTube", Field(data, "subscriberCount"),
        Some(StatsStorage.Extra(Some(Field(data, "viewCount")), Some(Field(data, "videoCount")))))];
    }
    ghost var y := stats;
    assert y == Report(youtube, "YouTube", "subscriberCount", true);
    if Usable(telegram) {
      if telegram.body.None? {
        return [];
      }
      stats := stats + [PlatformStats("Telegram", Field(telegram.body.value, "membersCount"), None)];
    }
    ghost var yt := stats;
    assert yt == y + Report(telegram, "Telegram", "membersCount", false);
    if Usable(instagram) {
      if instagram.body.None? {
        return [];
      }
      stats := stats + [PlatformStats("Instagram", Field(instagram.body.value, "followersCount"), None)];
    }
    assert stats == yt + Report(instagram, "Instagram", "followersCount", false);
  }

  /** One entry at most, for `platform`, carrying extra info exactly when `withExtra`. */
  predicate Slot(r: seq<PlatformStats>, platform: string, withExtra: bool) {
    |r| <= 1 && (r != [] ==> r[0].platform == platform && (r[0].extra.Some? <==> withExtra))
  }

  /** At most one entry per platform, in the order YouTube, Telegram, Instagram. */
  predicate InOrder(s: seq<PlatformStats>) {
    && |s| <= 3
    && (forall i, j :: 0 <= i < j < |s| ==> Rank(s[i].platform) < Rank(s[j].platform))
    && (forall i :: 0 <= i < |s| ==> (s[i].extra.Some? <==> s[i].platform == "YouTube"))
  }

  lemma SlotsInOrder(a: seq<PlatformStats>, b: seq<PlatformStats>, d: seq<PlatformStats>)
    requires Slot(a, "YouTube", true) && Slot(b, "Telegram", false) && Slot(d, "Instagram", false)
    ensures InOrder(a + b + d)
  {
    assert Rank("YouTube") == 0 && Rank("Telegram") == 1 && Rank("Instagram") == 2;
    var s := a + b + d;
    forall i | 0 <= i < |s|
      ensures Rank(s[i].platform) == (if i < |a| then 0 else if i < |a| + |b| then 1 else 2)
      ensures s[i].extra.Some? <==> s[i].platform == "YouTube"
    {
      if i < |a| { assert s[i] == a[0]; }
      else if i < |a| + |b| { assert s[i] == b[0]; }
      else { assert s[i] == d[0]; }
    }
  }

  /** At most one entry per platform, in the order YouTube, Telegram, Instagram. */
  lemma ReportsInOrder(youtube: FetchOutcome, telegram: FetchOutcome, instagram: FetchOutcome)
    requires !JsonThrows(youtube) && !JsonThrows(telegram) && !JsonThrows(instagram)
    ensures InOrder(Reports(youtube, telegram, instagram))
  {
    SlotsInOrder(Report(youtube, "YouTube", "subscriberCount", true),
                 Report(telegram, "Telegram", "membersCount", false),
                 Report(instagram, "Instagram", "followersCount", false));
  }

  /** The row pushed into `currentStats` for one platform. */
  datatype Row = Row(platform: string, count: int, lastNotified: Option<int>, extra: Option<StatsStorage.Extra>)

  datatype Notification = Notification(platform: string, milestone: string, delivered: int)

  /**
   * Everything one call reads that it does not change. Each platform's
   * `saveStats`, cursor read and cursor write catch their own failures, so
   * the faults are given per platform; each broadcast reads the subscriber
   * set anew, and `subscribersReadFails` says for which platform's
   * broadcast that read throws.
   */
  datatype Ctx = Ctx(
    cacheTtl: int, retention: int, now: int,
    saveFault: string -> StatsStorage.SaveFault, cursorReadFails: string -> bool, cursorWriteFails: string -> bool,
    tokenPresent: bool, subscribersReadFails: string -> bool, subscribers: seq<int>,
    send: (string, int) -> SendOutcome)

  /** The stores and the response lists after some platforms; `aborted` when a broadcast threw. */
  datatype RunState = RunState(
    kv: map<string, int>,
    current: map<string, StatsStorage.CurrentEntry>,
    history: map<string, seq<SortedSet.Entry<StatsStorage.HistoryMember>>>,
    rows: seq<Row>, notes: seq<Notification>, aborted: bool)

  /** `saveStats(platform, count, extraInfo)` with an absent `extraInfo`: no views, no videos. */
  function ExtraOf(p: PlatformStats): StatsStorage.Extra {
    p.extra.GetOr(StatsStorage.Extra(None, None))
  }

  function CursorRead(kv: map<string, int>, platform: string, c: Ctx): Option<int> {
    if c.cursorReadFails(platform) then None else MilestoneStorage.Lookup(kv, platform)
  }

  function PlatformSend(c: Ctx, platform: string): int -> SendOutcome {
    (id: int) => c.send(platform, id)
  }

  /** One iteration of the loop over fetched platforms. */
  function Step(st: RunState, p: PlatformStats, c: Ctx): RunState {
    if st.aborted then st
    else
      var fault := c.saveFault(p.platform);
      var current := StatsStorage.SavedCurrent(st.current, c.cacheTtl, p.platform, p.count, ExtraOf(p), c.now, fault);
      var history := StatsStorage.SavedHistory(st.history, c.cacheTtl, c.retention, p.platform, p.count, ExtraOf(p), c.now, fault);
      var last := CursorRead(st.kv, p.platform, c);
      var rows := st.rows + [Row(p.platform, p.count, last, p.extra)];
      match ShouldNotifyMilestone(p.count, last)
      case None => RunState(st.kv, current, history, rows, st.notes, false)
      case Some(m) =>
        match Broadcast(c.tokenPresent, c.subscribersReadFails(p.platform), c.subscribers, PlatformSend(c, p.platform))
        case None => RunState(st.kv, current, history, rows, st.notes, true)
        case Some(t) =>
          if t.successful > 0 then
            var kv := if c.cursorWriteFails(p.platform) then st.kv else st.kv[MilestoneStorage.CursorKey(p.platform) := m.value];
            RunState(kv, current, history, rows, st.notes + [Notification(p.platform, m.formatted, t.successful)], false)
          else RunState(st.kv, current, history, rows, st.notes, false)
  }

  function Run(st: RunState, ps: seq<PlatformStats>, c: Ctx): RunState {
    if ps == [] then st else Step(Run(st, ps[..|ps| - 1], c), ps[|ps| - 1], c)
  }

  function Message(notified: nat): string {
    if notified > 0 then NatToString(notified) + " milestone notification(s) sent"
    else "No new milestones detected"
  }

  datatype Outcome =
    | Checked(checked: nat, stats: seq<Row>, notifications: seq<Notification>, message: string)
    | Failed

  function OutcomeOf(st: RunState, fetched: nat): Outcome {
    if st.aborted then Failed else Checked(fetched, st.rows, st.notes, Message(|st.notes|))
  }

  function Start(kv: map<string, int>, current: map<string, StatsStorage.CurrentEntry>,
                 history: map<string, seq<SortedSet.Entry<StatsStorage.HistoryMember>>>): RunState {
    RunState(kv, current, history, [], [], false)
  }

  /** Once a broadcast has thrown, the remaining platforms change nothing. */
  lemma {:induction false} AbortSticks(st: RunState, ps: seq<PlatformStats>, k: nat, c: Ctx)
    requires k <= |ps| && Run(st, ps[..k], c).aborted
    ensures Run(st, ps, c) == Run(st, ps[..k], c)
    decreases |ps|
  {
    if k < |ps| {
      assert ps[..|ps| - 1][..k] == ps[..k];
      AbortSticks(st, ps[..|ps| - 1], k, c);
    } else {
      assert ps[..k] == ps;
    }
  }

  /** One iteration of the loop of `GET`: save, read the cursor, gate, broadcast, advance. */
  method CheckPlatform(store: StatsStorage.StatsStore, cursors: MilestoneStorage.CursorStore, p: PlatformStats,
                       c: Ctx, rows: seq<Row>, notes: seq<Notification>)
    returns (rows': seq<Row>, notes': seq<Notification>, aborted: bool)
    requires store.Valid() && c.cacheTtl == store.cacheTtl && c.retention == store.retention
    modifies store, cursors
    ensures store.Valid()
    ensures Step(RunState(old(cursors.kv), old(store.current), old(store.history), rows, notes, false), p, c)
         == RunState(cursors.kv, store.current, store.history, rows', notes', aborted)
  {
    store.SaveStats(p.platform, p.count, ExtraOf(p), c.now, c.saveFault(p.platform));
    var last := cursors.GetLastNotifiedMilestone(p.platform, c.cursorReadFails(p.platform));
    rows' := rows + [Row(p.platform, p.count, last, p.extra)];
    notes' := notes;
    aborted := false;
    var milestone := ShouldNotifyMilestone(p.count, last);
    if milestone.Some? {
      var result := Broadcast(c.tokenPresent, c.subscribersReadFails(p.platform), c.subscribers, PlatformSend(c, p.platform));
      if result.None? {
        aborted := true;
      } else if result.value.successful > 0 {
        cursors.SetLastNotifiedMilestone(p.platform, milestone.value.value, c.cursorWriteFails(p.platform));
        notes' := notes + [Notification(p.platform, milestone.value.formatted, result.value.successful)];
      }
    }
  }

  /**
   * `GET /api/check-milestones` after the fetch: the stores end as the run
   * over the fetched platforms leaves them, and the response reports it
   * (a 500 once a broadcast throws; earlier effects remain).
   */
  method CheckAll(store: StatsStorage.StatsStore, cursors: MilestoneStorage.CursorStore,
                  registry: Subscribers.SubscriberRegistry, fetched: seq<PlatformStats>, now: int,
                  saveFault: string -> StatsStorage.SaveFault, cursorReadFails: string -> bool,
                  cursorWriteFails: string -> bool,
                  tokenPresent: bool, subscribersReadFails: string -> bool, send: (string, int) -> SendOutcome)
    returns (resp: Outcome)
    requires store.Valid()
    modifies store, cursors
    ensures store.Valid()
    ensures var c := Ctx(store.cacheTtl, store.retention, now, saveFault, cursorReadFails, cursorWriteFails,
                         tokenPresent, subscribersReadFails, registry.GetSubscribers(), send);
      var st := Run(Start(old(cursors.kv), old(store.current), old(store.history)), fetched, c);
      cursors.kv == st.kv && store.current == st.current && store.history == st.history &&
      resp == OutcomeOf(st, |fetched|)
  {
    var c := Ctx(store.cacheTtl, store.retention, now, saveFault, cursorReadFails, cursorWriteFails,
                 tokenPresent, subscribersReadFails, registry.GetSubscribers(), send);
    ghost var st0 := Start(cursors.kv, store.current, store.history);
    var rows: seq<Row> := [];
    var notes: seq<Notification> := [];
    for i := 0 to |fetched|
      invariant store.Valid()
      invariant Run(st0, fetched[..i], c) == RunState(cursors.kv, store.current, store.history, rows, notes, false)
    {
      assert fetched[..i + 1][..i] == fetched[..i];
      var aborted;
      rows, notes, aborted := CheckPlatform(store, cursors, fetched[i], c, rows, notes);
      if aborted {
        AbortSticks(st0, fetched, i + 1, c);
        return Failed;
      }
    }
    assert fetched[..|fetched|] == fetched;
    resp := Checked(|fetched|, rows, notes, Message(|notes|));
  }

  /**
   * Counts: a completed run pushes one row per fetched platform, at most
   * one notification per row, and each notification reports a positive
   * number of deliveries.
   */
  lemma {:induction false} RunCounts(st: RunState, ps: seq<PlatformStats>, c: Ctx)
    requires st.rows == [] && st.notes == [] && !st.aborted
    ensures var r := Run(st, ps, c);
      && |r.rows| <= |ps| && (!r.aborted ==> |r.rows| == |ps|)
      && |r.notes| <= |r.rows|
      && (forall j :: 0 <= j < |r.notes| ==> r.notes[j].delivered > 0)
  {
    if ps != [] {
      RunCounts(st, ps[..|ps| - 1], c);
    }
  }

  /**
   * The cursor rule of one platform: a notification is recorded exactly
   * when the gate opens and at least one send is fulfilled, and only then
   * is the cursor set to the milestone's value; otherwise it is unchanged.
   */
  lemma StepCursorRule(st: RunState, p: PlatformStats, c: Ctx)
    requires !st.aborted
    ensures var r := Step(st, p, c);
      var m := ShouldNotifyMilestone(p.count, CursorRead(st.kv, p.platform, c));
      var t := Broadcast(c.tokenPresent, c.subscribersReadFails(p.platform), c.subscribers, PlatformSend(c, p.platform));
      var advanced := m.Some? && t.Some? && t.value.successful > 0;
      && (|r.notes| == |st.notes| + 1 <==> advanced)
      && (!advanced ==> r.notes == st.notes && r.kv == st.kv)
      && (advanced ==> r.notes == st.notes + [Notification(p.platform, FormatMilestone(p.count), t.value.successful)])
      && (advanced && !c.cursorWriteFails(p.platform) ==> MilestoneStorage.Lookup(r.kv, p.platform) == Some(p.count))
      && (advanced && c.cursorWriteFails(p.platform) ==> r.kv == st.kv)
      && (r.aborted <==> m.Some? && (!c.tokenPresent || c.subscribersReadFails(p.platform)))
  {
    var key := MilestoneStorage.CursorKey(p.platform);
    MilestoneStorage.SetThenLookup(st.kv, p.platform, p.count, p.platform);
  }

  predicate LowerDistinct(ps: seq<PlatformStats>) {
    forall i, j :: 0 <= i < j < |ps| ==> Lower(ps[i].platform) != Lower(ps[j].platform)
  }

  /** A platform the run never visited keeps its cursor. */
  lemma {:induction false} UnvisitedCursorKept(st: RunState, ps: seq<PlatformStats>, c: Ctx, q: string)
    requires forall j :: 0 <= j < |ps| ==> Lower(ps[j].platform) != Lower(q)
    ensures MilestoneStorage.Lookup(Run(st, ps, c).kv, q) == MilestoneStorage.Lookup(st.kv, q)
  {
    if ps != [] {
      var init := ps[..|ps| - 1];
      var p := ps[|ps| - 1];
      UnvisitedCursorKept(st, init, c, q);
      var r := Run(st, init, c);
      MilestoneStorage.SetThenLookup(r.kv, p.platform, p.count, q);
    }
  }

  /** Each row reports its platform's fetched count and the cursor as `kv` held it. */
  predicate RowsReport(rows: seq<Row>, ps: seq<PlatformStats>, kv: map<string, int>, c: Ctx)
    requires |rows| <= |ps|
  {
    forall i :: 0 <= i < |rows| ==>
      rows[i] == Row(ps[i].platform, ps[i].count, CursorRead(kv, ps[i].platform, c), ps[i].extra)
  }

  lemma RowsReportOfPrefix(rows: seq<Row>, init: seq<PlatformStats>, ps: seq<PlatformStats>,
                           kv: map<string, int>, c: Ctx)
    requires |rows| <= |init| <= |ps| && init == ps[..|init|] && RowsReport(rows, init, kv, c)
    ensures RowsReport(rows, ps, kv, c)
  {
    forall i | 0 <= i < |rows|
      ensures rows[i] == Row(ps[i].platform, ps[i].count, CursorRead(kv, ps[i].platform, c), ps[i].extra)
    {
      assert init[i] == ps[i];
    }
  }

  /** The row of the last platform of `ps` reports the cursor `kv` holds when the step reads the same. */
  lemma RowStep(r: RunState, ps: seq<PlatformStats>, kv: map<string, int>, c: Ctx)
    requires |ps| > 0 && !r.aborted && |r.rows| == |ps| - 1 && RowsReport(r.rows, ps, kv, c)
    requires CursorRead(r.kv, ps[|ps| - 1].platform, c) == CursorRead(kv, ps[|ps| - 1].platform, c)
    ensures var r' := Step(r, ps[|ps| - 1], c); |r'.rows| == |ps| && RowsReport(r'.rows, ps, kv, c)
  {
    var p := ps[|ps| - 1];
    StepRow(r, p, c);
    var rows := Step(r, p, c).rows;
    forall i | 0 <= i < |rows|
      ensures rows[i] == Row(ps[i].platform, ps[i].count, CursorRead(kv, ps[i].platform, c), ps[i].extra)
    {
      if i < |r.rows| {
        assert rows[i] == r.rows[i];
      }
    }
  }

  /**
   * With distinct platform names, each row reports the cursor as it was
   * before the call, not one advanced earlier in the same call.
   */
  lemma {:induction false} RowsReportInitialCursor(st: RunState, ps: seq<PlatformStats>, c: Ctx)
    requires st.rows == [] && !st.aborted && LowerDistinct(ps)
    ensures var r := Run(st, ps, c);
      |r.rows| <= |ps| && (!r.aborted ==> |r.rows| == |ps|) && RowsReport(r.rows, ps, st.kv, c)
  {
    if ps != [] {
      var init := ps[..|ps| - 1];
      var p := ps[|ps| - 1];
      assert LowerDistinct(init);
      RowsReportInitialCursor(st, init, c);
      var r := Run(st, init, c);
      assert Run(st, ps, c) == Step(r, p, c);
      RowsReportOfPrefix(r.rows, init, ps, st.kv, c);
      if !r.aborted {
        assert forall j :: 0 <= j < |init| ==> init[j] == ps[j];
        UnvisitedCursorKept(st, init, c, p.platform);
        RowStep(r, ps, st.kv, c);
      }
    }
  }

  /** A step that does not abort earlier appends the row of its platform. */
  lemma StepRow(r: RunState, p: PlatformStats, c: Ctx)
    requires !r.aborted
    ensures Step(r, p, c).rows == r.rows + [Row(p.platform, p.count, CursorRead(r.kv, p.platform, c), p.extra)]
  {
  }

  /** One successful save: the step appends the row and the platform's record is the new one. */
  lemma StepSaves(r: RunState, p: PlatformStats, c: Ctx)
    requires !r.aborted && c.saveFault(p.platform) == StatsStorage.NoFault && StatsStorage.ExpirySeconds(c.cacheTtl) > 0
    ensures var r' := Step(r, p, c);
      && r'.rows == r.rows + [Row(p.platform, p.count, CursorRead(r.kv, p.platform, c), p.extra)]
      && Lower(p.platform) in r'.current
      && r'.current[Lower(p.platform)].stats ==
           StatsStorage.Current(p.platform, p.count, ExtraOf(p).views, ExtraOf(p).videos, c.now)
  {
    assert Step(r, p, c).current ==
      StatsStorage.SavedCurrent(r.current, c.cacheTtl, p.platform, p.count, ExtraOf(p), c.now, c.saveFault(p.platform));
    StatsStorage.SaveThenCurrent(r.current, c.cacheTtl, p.platform, p.platform, p.count, ExtraOf(p), c.now);
  }

  /** A step keeps the current record of every other platform. */
  lemma StepKeepsOther(r: RunState, p: PlatformStats, c: Ctx, key: string)
    requires !r.aborted && key in r.current && key != Lower(p.platform)
    ensures key in Step(r, p, c).current && Step(r, p, c).current[key] == r.current[key]
  {
    assert Step(r, p, c).current ==
      StatsStorage.SavedCurrent(r.current, c.cacheTtl, p.platform, p.count, ExtraOf(p), c.now, c.saveFault(p.platform));
    StatsStorage.SaveLeavesOthers(r.current, r.history, c.cacheTtl, c.retention, p.platform, p.count,
                                  ExtraOf(p), c.now, c.saveFault(p.platform), key);
  }

  /** Each of the first `n` platforms of `ps` whose save succeeds has its fetched stats, stamped `now`, as current record. */
  predicate AllSaved(current: map<string, StatsStorage.CurrentEntry>, ps: seq<PlatformStats>, n: nat, c: Ctx)
    requires n <= |ps|
  {
    forall i :: 0 <= i < n && c.saveFault(ps[i].platform) == StatsStorage.NoFault ==>
      Lower(ps[i].platform) in current &&
      current[Lower(ps[i].platform)].stats ==
        StatsStorage.Current(ps[i].platform, ps[i].count, ExtraOf(ps[i]).views, ExtraOf(ps[i]).videos, c.now)
  }

  lemma AllSavedOfPrefix(current: map<string, StatsStorage.CurrentEntry>, init: seq<PlatformStats>,
                         ps: seq<PlatformStats>, n: nat, c: Ctx)
    requires n <= |init| <= |ps| && init == ps[..|init|] && AllSaved(current, init, n, c)
    ensures AllSaved(current, ps, n, c)
  {
    forall i | 0 <= i < n && c.saveFault(ps[i].platform) == StatsStorage.NoFault
      ensures Lower(ps[i].platform) in current &&
        current[Lower(ps[i].platform)].stats ==
          StatsStorage.Current(ps[i].platform, ps[i].count, ExtraOf(ps[i]).views, ExtraOf(ps[i]).videos, c.now)
    {
      assert init[i] == ps[i];
    }
  }

  /** Saving the last platform of `ps` keeps the records of the distinct ones before it, whatever its own save does. */
  lemma SavedStep(r: RunState, ps: seq<PlatformStats>, c: Ctx)
    requires |ps| > 0 && LowerDistinct(ps) && !r.aborted && |r.rows| == |ps| - 1
    requires StatsStorage.ExpirySeconds(c.cacheTtl) > 0
    requires AllSaved(r.current, ps, |ps| - 1, c)
    ensures var r' := Step(r, ps[|ps| - 1], c); |r'.rows| == |ps| && AllSaved(r'.current, ps, |ps|, c)
  {
    var p := ps[|ps| - 1];
    StepRow(r, p, c);
    if c.saveFault(p.platform) == StatsStorage.NoFault {
      StepSaves(r, p, c);
    }
    var r' := Step(r, p, c);
    forall i | 0 <= i < |ps| && c.saveFault(ps[i].platform) == StatsStorage.NoFault
      ensures Lower(ps[i].platform) in r'.current &&
        r'.current[Lower(ps[i].platform)].stats ==
          StatsStorage.Current(ps[i].platform, ps[i].count, ExtraOf(ps[i]).views, ExtraOf(ps[i]).videos, c.now)
    {
      if i < |ps| - 1 {
        StepKeepsOther(r, p, c, Lower(ps[i].platform));
      }
    }
  }

  /**
   * Each platform's save fails or succeeds on its own: with distinct
   * platform names, every visited platform whose save succeeds has its
   * count, stamped `now`, as its current record, whatever the other
   * platforms' saves did.
   */
  lemma {:induction false} EveryVisitedPlatformSaved(st: RunState, ps: seq<PlatformStats>, c: Ctx)
    requires st.rows == [] && !st.aborted && LowerDistinct(ps)
    requires StatsStorage.ExpirySeconds(c.cacheTtl) > 0
    ensures var r := Run(st, ps, c);
      |r.rows| <= |ps| && (!r.aborted ==> |r.rows| == |ps|) && AllSaved(r.current, ps, |r.rows|, c)
  {
    if ps != [] {
      var init := ps[..|ps| - 1];
      assert LowerDistinct(init);
      EveryVisitedPlatformSaved(st, init, c);
      var r := Run(st, init, c);
      assert Run(st, ps, c) == Step(r, ps[|ps| - 1], c);
      AllSavedOfPrefix(r.current, init, ps, |r.rows|, c);
      if !r.aborted {
        SavedStep(r, ps, c);
      }
    }
  }

  /** The response message tells only whether any notification was sent. */
  lemma MessageOnlyTellsWhetherNotified(k: nat)
    ensures Message(k) == "No new milestones detected" <==> k == 0
  {
    if k > 0 {
      assert Message(k)[0] == NatToString(k)[0];
    }
  }
}
