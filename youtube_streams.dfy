/**
 * `fetchYouTubeStreams`: unless forced, skip while the stream cache is
 * fresh; otherwise search the channel, read the videos' details, turn every
 * live, upcoming or once-live video into a stream record, save each one,
 * then set the fetch marker and prune old streams.
 */
module YouTubeStreams {
  import opened Wrappers
  import opened Text
  import opened SortedSet
  import opened StreamStorage

  /** `liveStreamingDetails`; each instant is the parsed time of a non-empty string. */
  datatype LiveDetails = LiveDetails(
    actualStartTime: Option<int>, actualEndTime: Option<int>, scheduledStartTime: Option<int>)

  /** One item of the videos response, with `publishedAt` already parsed. */
  datatype Video = Video(
    id: string, title: string, publishedAt: int, liveBroadcastContent: string,
    details: Option<LiveDetails>, viewCount: Option<string>)

  /** The videos that become stream records: live, upcoming, or carrying live-streaming details. */
  predicate IsStream(v: Video) {
    v.liveBroadcastContent == "live" || v.liveBroadcastContent == "upcoming" || v.details.Some?
  }

  function ActualStart(v: Video): Option<int> {
    if v.details.Some? then v.details.value.actualStartTime else None
  }

  function ActualEnd(v: Video): Option<int> {
    if v.details.Some? then v.details.value.actualEndTime else None
  }

  function ScheduledStart(v: Video): Option<int> {
    if v.details.Some? then v.details.value.scheduledStartTime else None
  }

  /** `parseInt(viewCount)` when the count is a non-empty string (None stands for NaN too). */
  function Views(v: Video): Option<int> {
    if v.viewCount.Some? && v.viewCount.value != "" then JsParseInt(v.viewCount.value) else None
  }

  /** The stream record for a video. */
  function RecordOf(v: Video): (r: StreamRecord)
    ensures r.videoId == v.id && r.title == v.title
    ensures r.isLive <==> v.liveBroadcastContent == "live"
    ensures r.startTime == ActualStart(v).GetOr(v.publishedAt)
    ensures r.endTime == ActualEnd(v)
  {
    StreamRecord(
      v.id, v.title,
      match ActualStart(v) case Some(t) => t case None => v.publishedAt,
      ActualEnd(v),
      v.liveBroadcastContent == "live",
      Views(v),
      ScheduledStart(v))
  }

  /** The records of the stream videos, in item order. */
  function Records(items: seq<Video>): (r: seq<StreamRecord>)
    ensures |r| <= |items|
  {
    if items == [] then []
    else
      var v := items[|items| - 1];
      Records(items[..|items| - 1]) + (if IsStream(v) then [RecordOf(v)] else [])
  }

  /**
   * The set after saving `rs` one after the other. `saveStreamRecord`
   * catches its own failure, so `saveFails(k)` says whether the `k`-th save
   * changed nothing.
   */
  function SavedAll(s: seq<Entry<StreamMember>>, rs: seq<StreamRecord>, saveFails: nat -> bool): seq<Entry<StreamMember>> {
    if rs == [] then s
    else
      var r := rs[|rs| - 1];
      var before := SavedAll(s, rs[..|rs| - 1], saveFails);
      if saveFails(|rs| - 1) then before else Add(before, r.startTime, Stored(r))
  }

  lemma {:induction false} SavedAllOk(s: seq<Entry<StreamMember>>, rs: seq<StreamRecord>, saveFails: nat -> bool)
    requires StreamsOk(s)
    ensures StreamsOk(SavedAll(s, rs, saveFails))
  {
    if rs != [] {
      SavedAllOk(s, rs[..|rs| - 1], saveFails);
      var r := rs[|rs| - 1];
      assert ScoredByStart(Add(SavedAll(s, rs[..|rs| - 1], saveFails), r.startTime, Stored(r)));
    }
  }

  /** Every record whose own save succeeded is in the set at its start time afterwards. */
  lemma {:induction false} SavedAllPresent(s: seq<Entry<StreamMember>>, rs: seq<StreamRecord>, saveFails: nat -> bool, k: nat)
    requires k < |rs| && !saveFails(k)
    ensures Entry(rs[k].startTime, Stored(rs[k])) in SavedAll(s, rs, saveFails)
  {
    var init, r := rs[..|rs| - 1], rs[|rs| - 1];
    var e := Entry(rs[k].startTime, Stored(rs[k]));
    if k < |init| {
      SavedAllPresent(s, init, saveFails, k);
      assert rs[k] == init[k];
    }
    if !saveFails(|rs| - 1) {
      AddKeeps(SavedAll(s, init, saveFails), r.startTime, Stored(r), e);
    }
  }

  /** When every save fails the set is as it was: none of the returned records was stored. */
  lemma {:induction false} SavedAllFailed(s: seq<Entry<StreamMember>>, rs: seq<StreamRecord>, saveFails: nat -> bool)
    requires forall k :: 0 <= k < |rs| ==> saveFails(k)
    ensures SavedAll(s, rs, saveFails) == s
  {
    if rs != [] {
      SavedAllFailed(s, rs[..|rs| - 1], saveFails);
    }
  }

  /** The stream set after a full run: the saves, then the cleanup unless that call fails. */
  function AfterRun(s: seq<Entry<StreamMember>>, rs: seq<StreamRecord>, saveFails: nat -> bool,
                    now: int, cleanupFails: bool): seq<Entry<StreamMember>> {
    var saved := SavedAll(s, rs, saveFails);
    if cleanupFails then saved else RemoveRangeByScore(saved, 0, Cutoff(now))
  }

  /** ZADD keeps every other member's entry and holds the new one. */
  lemma AddKeeps(s: seq<Entry<StreamMember>>, score: int, m: StreamMember, e: Entry<StreamMember>)
    requires e in s || e == Entry(score, m)
    requires e.member == m ==> e.score == score
    ensures e in Add(s, score, m)
  {
  }

  /** The records of a concatenation are the records of each part, in order. */
  lemma {:induction false} RecordsAppend(a: seq<Video>, b: seq<Video>)
    ensures Records(a + b) == Records(a) + Records(b)
    decreases |b|
  {
    if b == [] {
      assert a + b == a;
    } else {
      var init, v := b[..|b| - 1], b[|b| - 1];
      var x := if IsStream(v) then [RecordOf(v)] else [];
      SplitLast(a, b);
      calc {
        Records(a + b);
        Records((a + init) + [v]);
        { RecordsSnoc(a + init, v); }
        Records(a + init) + x;
        { RecordsAppend(a, init); }
        (Records(a) + Records(init)) + x;
        Records(a) + (Records(init) + x);
        { RecordsSnoc(init, v); }
        Records(a) + Records(init + [v]);
        Records(a) + Records(b);
      }
    }
  }

  lemma SplitLast<T>(a: seq<T>, b: seq<T>)
    requires b != []
    ensures a + b == (a + b[..|b| - 1]) + [b[|b| - 1]]
    ensures b == b[..|b| - 1] + [b[|b| - 1]]
  {
  }

  lemma RecordsSnoc(xs: seq<Video>, v: Video)
    ensures Records(xs + [v]) == Records(xs) + (if IsStream(v) then [RecordOf(v)] else [])
  {
    assert (xs + [v])[..|xs|] == xs;
  }

  /** A single video yields its record exactly when it is a stream. */
  lemma RecordsOne(v: Video)
    ensures Records([v]) == if IsStream(v) then [RecordOf(v)] else []
  {
    assert [v][..0] == [];
  }

  /** What came back from one API call: None when the call failed, was not ok, or did not parse. */
  datatype Fetch<T> = Failed | Fetched(items: seq<T>)

  /**
   * `fetchYouTubeStreams(force)`. `configured` says both the API key and
   * the channel id are set; `search` and `videos` are the two API answers.
   * The store calls catch their own failures: `saveFails(k)` for the `k`-th
   * record's save, `markFails` and `cleanupFails` for the last two writes.
   * Returns the records, stored or not, and the number of API calls made.
   */
  method FetchYouTubeStreams(store: StreamStore, force: bool, readFails: bool, configured: bool,
                             search: Fetch<string>, videos: Fetch<Video>, now: int,
                             saveFails: nat -> bool, markFails: bool, cleanupFails: bool)
    returns (r: seq<StreamRecord>, apiCalls: nat)
    requires store.Valid()
    modifies store
    ensures store.Valid()
    ensures !Proceeds(old(store.FetchDue(now, readFails)), force, configured, search, videos) ==>
      r == [] && store.streams == old(store.streams) && store.marker == old(store.marker)
    ensures Proceeds(old(store.FetchDue(now, readFails)), force, configured, search, videos) ==>
      && r == Records(videos.items)
      && store.streams == AfterRun(old(store.streams), r, saveFails, now, cleanupFails)
      && store.marker == (if markFails then old(store.marker) else Some(MarkerAt(now)))
    ensures apiCalls == Calls(old(store.FetchDue(now, readFails)), force, configured, search)
  {
    var due := store.FetchDue(now, readFails);
    apiCalls := 0;
    r := [];
    if !force && !due {
      return;
    }
    if !configured {
      return;
    }
    apiCalls := 1;
    if search.Failed? || search.items == [] {
      return;
    }
    apiCalls := 2;
    if videos.Failed? {
      return;
    }
    r := SaveRecords(store, videos.items, saveFails);
    store.MarkFetched(now, markFails);
    store.Cleanup(now, cleanupFails);
  }

  /**
   * The loop over the video items: keep the record of every stream video, in
   * order, and save it; a failed save is caught and the record is kept all the same.
   */
  method SaveRecords(store: StreamStore, items: seq<Video>, saveFails: nat -> bool) returns (r: seq<StreamRecord>)
    requires store.Valid()
    modifies store
    ensures store.Valid()
    ensures r == Records(items)
    ensures store.streams == SavedAll(old(store.streams), r, saveFails) && store.marker == old(store.marker)
  {
    r := [];
    var i := 0;
    while i < |items|
      invariant 0 <= i <= |items|
      invariant r == Records(items[..i])
      invariant store.streams == SavedAll(old(store.streams), r, saveFails) && store.marker == old(store.marker)
      invariant store.Valid()
    {
      var video := items[i];
      RecordsStep(items, i);
      if IsStream(video) {
        var streamRecord := RecordOf(video);
        SavedStep(old(store.streams), r, streamRecord, saveFails);
        store.Save(streamRecord, saveFails(|r|));
        r := r + [streamRecord];
      }
      i := i + 1;
    }
    assert items[..i] == items;
  }

  lemma RecordsStep(items: seq<Video>, i: nat)
    requires i < |items|
    ensures Records(items[..i + 1]) == Records(items[..i]) + (if IsStream(items[i]) then [RecordOf(items[i])] else [])
  {
    assert items[..i + 1][..i] == items[..i];
  }

  lemma SavedStep(s: seq<Entry<StreamMember>>, rs: seq<StreamRecord>, x: StreamRecord, saveFails: nat -> bool)
    ensures SavedAll(s, rs + [x], saveFails) ==
      if saveFails(|rs|) then SavedAll(s, rs, saveFails) else Add(SavedAll(s, rs, saveFails), x.startTime, Stored(x))
  {
    assert (rs + [x])[..|rs|] == rs;
  }

  /** The fetch gets past every early return. */
  predicate Proceeds(due: bool, force: bool, configured: bool, search: Fetch<string>, videos: Fetch<Video>) {
    (force || due) && configured && search.Fetched? && search.items != [] && videos.Fetched?
  }

  /** The API calls made: none while the cache is fresh or credentials are missing, one more after a useful search. */
  function Calls(due: bool, force: bool, configured: bool, search: Fetch<string>): nat {
    if !(force || due) || !configured then 0
    else if search.Failed? || search.items == [] then 1
    else 2
  }

  /** Only a full run sets the marker: after a fresh-cache skip or any failed call it is as before. */
  lemma MarkerOnlyAfterVideos(due: bool, force: bool, configured: bool, search: Fetch<string>, videos: Fetch<Video>)
    ensures Proceeds(due, force, configured, search, videos) ==> Calls(due, force, configured, search) == 2
    ensures !force && !due ==> Calls(due, force, configured, search) == 0
    ensures !force && !due ==> !Proceeds(due, force, configured, search, videos)
  {
  }

  /**
   * A record returned by a full run is stored at its start time afterwards
   * when its own save succeeded and the cleanup either failed or keeps it.
   */
  lemma FetchedAreStored(s: seq<Entry<StreamMember>>, items: seq<Video>, saveFails: nat -> bool,
                         now: int, cleanupFails: bool, k: nat)
    requires StreamsOk(s) && k < |Records(items)|
    ensures var r := Records(items)[k];
      !saveFails(k) && (cleanupFails || r.startTime > Cutoff(now)) ==>
        Entry(r.startTime, Stored(r)) in AfterRun(s, Records(items), saveFails, now, cleanupFails)
  {
    if !saveFails(k) {
      SavedAllPresent(s, Records(items), saveFails, k);
    }
  }
}
