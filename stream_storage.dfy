/**
 * The stream store: one sorted set of stream records scored by their start
 * time, plus a "last fetch" marker that lives for one hour. Reads decode the
 * members and skip the ones that do not parse; every store call swallows
 * its own errors.
 */
module StreamStorage {
  import opened Wrappers
  import opened SortedSet

  /** `STREAM_CACHE_TTL`: one hour, in seconds. */
  const CacheTtlSeconds: int := 3600
  /** The freshness window in milliseconds: `STREAM_CACHE_TTL * 1000`. */
  const CacheTtlMs: int := 3600000
  /** `STREAM_RETENTION_DAYS * 24 * 60 * 60 * 1000`: ninety days in milliseconds. */
  const RetentionMs: int := 7776000000

  datatype StreamRecord = StreamRecord(
    videoId: string, title: string, startTime: int, endTime: Option<int>,
    isLive: bool, viewCount: Option<int>, scheduledStartTime: Option<int>)

  /** A member of the set: a record this code wrote, or text that does not parse. */
  datatype StreamMember = Stored(record: StreamRecord) | Unparsable(text: string)

  /** The fetch marker: the instant it holds and the instant its key expires. */
  datatype Marker = Marker(value: int, expiresAt: int)

  predicate ScoredByStart(s: seq<Entry<StreamMember>>) {
    forall e :: e in s && e.member.Stored? ==> e.score == e.member.record.startTime
  }

  predicate StreamsOk(s: seq<Entry<StreamMember>>) {
    Valid(s) && ScoredByStart(s)
  }

  /** `stream.endTime || Date.now()`: a missing (or zero) end means the stream is still going. */
  function StreamEnd(r: StreamRecord, now: int): int {
    if r.endTime.Some? && r.endTime.value != 0 then r.endTime.value else now
  }

  /** The overlap test of `getStreamsInRange`. */
  predicate Overlaps(r: StreamRecord, lo: int, hi: int, now: int) {
    || (lo <= r.startTime <= hi)
    || (lo <= StreamEnd(r, now) <= hi)
    || (r.startTime <= lo && StreamEnd(r, now) >= hi)
  }

  /** The records of the parsable members, in order. */
  function Decoded(s: seq<Entry<StreamMember>>): (r: seq<StreamRecord>)
    ensures |r| <= |s|
  {
    if s == [] then []
    else
      var e := s[|s| - 1];
      Decoded(s[..|s| - 1]) + (if e.member.Stored? then [e.member.record] else [])
  }

  /** The records that pass the overlap test, in order. */
  function Overlapping(rs: seq<StreamRecord>, lo: int, hi: int, now: int): (r: seq<StreamRecord>)
    ensures |r| <= |rs|
  {
    if rs == [] then []
    else
      var x := rs[|rs| - 1];
      Overlapping(rs[..|rs| - 1], lo, hi, now) + (if Overlaps(x, lo, hi, now) then [x] else [])
  }

  /** Decoding keeps exactly the records stored in the members. */
  lemma {:induction false} DecodedMembers(s: seq<Entry<StreamMember>>)
    ensures forall r :: r in Decoded(s) <==> exists e :: e in s && e.member == Stored(r)
  {
    if s != [] {
      var init, e := s[..|s| - 1], s[|s| - 1];
      DecodedMembers(init);
      assert s == init + [e];
      forall r | r in Decoded(s) ensures exists x :: x in s && x.member == Stored(r) {
        if r in Decoded(init) {
          var x :| x in init && x.member == Stored(r);
          assert x in s;
        } else {
          assert e.member == Stored(r);
        }
      }
    }
  }

  /** In a set scored by start time, a decoded record is stored with its start time as score. */
  lemma StoredEntry(s: seq<Entry<StreamMember>>, r: StreamRecord)
    requires ScoredByStart(s) && r in Decoded(s)
    ensures Entry(r.startTime, Stored(r)) in s
  {
    DecodedMembers(s);
    var e :| e in s && e.member == Stored(r);
    assert e == Entry(r.startTime, Stored(r));
  }

  /** Records that all pass the test come through the filter unchanged. */
  lemma {:induction false} OverlappingAll(rs: seq<StreamRecord>, lo: int, hi: int, now: int)
    requires forall k :: 0 <= k < |rs| ==> Overlaps(rs[k], lo, hi, now)
    ensures Overlapping(rs, lo, hi, now) == rs
  {
    if rs != [] {
      OverlappingAll(rs[..|rs| - 1], lo, hi, now);
      assert rs == rs[..|rs| - 1] + [rs[|rs| - 1]];
    }
  }

  /** Decoding a score-ordered set gives its records in start-time order. */
  lemma {:induction false} DecodedAscending(s: seq<Entry<StreamMember>>)
    requires Sorted(s) && ScoredByStart(s)
    ensures Ascending(Decoded(s))
  {
    if s != [] {
      var init, e := s[..|s| - 1], s[|s| - 1];
      assert forall x :: x in init ==> x in s;
      assert Sorted(init);
      DecodedAscending(init);
      if e.member.Stored? {
        forall r | r in Decoded(init) ensures r.startTime <= e.member.record.startTime {
          StoredEntry(init, r);
          var k :| 0 <= k < |init| && init[k] == Entry(r.startTime, Stored(r));
          assert s[k] == init[k];
        }
        AscendingSnoc(Decoded(init), e.member.record);
      }
    }
  }

  predicate Ascending(rs: seq<StreamRecord>) {
    forall i, j :: 0 <= i < j < |rs| ==> rs[i].startTime <= rs[j].startTime
  }

  lemma AscendingSnoc(rs: seq<StreamRecord>, x: StreamRecord)
    requires Ascending(rs) && forall r :: r in rs ==> r.startTime <= x.startTime
    ensures Ascending(rs + [x])
  {
    var t := rs + [x];
    assert forall i :: 0 <= i < |rs| ==> t[i] == rs[i] && rs[i] in rs;
  }

  /**
   * What `getStreamsInRange` returns from a well-formed set: exactly the
   * records whose start time lies in the range, in start-time order. The
   * overlap test never removes one of them, and a stream that began before
   * `lo` is not returned even when it is still running inside the range.
   */
  lemma InRangeByStart(s: seq<Entry<StreamMember>>, lo: int, hi: int, now: int)
    requires StreamsOk(s)
    ensures var r := Overlapping(Decoded(RangeByScore(s, lo, hi)), lo, hi, now);
      && (forall x :: x in r <==> lo <= x.startTime <= hi && Entry(x.startTime, Stored(x)) in s)
      && Ascending(r)
  {
    var g := RangeByScore(s, lo, hi);
    var d := Decoded(g);
    assert ScoredByStart(g);
    forall k | 0 <= k < |d| ensures lo <= d[k].startTime <= hi {
      assert d[k] in d;
      StoredEntry(g, d[k]);
    }
    OverlappingAll(d, lo, hi, now);
    DecodedMembers(g);
    forall x: StreamRecord | lo <= x.startTime <= hi && Entry(x.startTime, Stored(x)) in s ensures x in d {
      assert Entry(x.startTime, Stored(x)) in g;
    }
    forall x | x in d ensures Entry(x.startTime, Stored(x)) in s {
      StoredEntry(g, x);
    }
    DecodedAscending(g);
  }

  /** `shouldFetchStreams`: fetch when the marker is unreadable, gone or zero, or older than an hour. */
  function ShouldFetch(marker: Option<Marker>, now: int, readFails: bool): bool {
    if readFails then true
    else if marker.None? || now > marker.value.expiresAt || marker.value.value == 0 then true
    else now - marker.value.value > CacheTtlMs
  }

  /** The marker `markStreamsFetched` writes at `now`: the instant, expiring after the TTL. */
  function MarkerAt(now: int): Marker {
    Marker(now, now + CacheTtlSeconds * 1000)
  }

  /**
   * After a mark at `t`, fetching is due again exactly once more than an
   * hour has passed: the key lives until its expiry instant is past, and the
   * age test `> STREAM_CACHE_TTL * 1000` agrees with it.
   */
  lemma FreshForAnHour(t: int, now: int)
    requires t != 0
    ensures ShouldFetch(Some(MarkerAt(t)), now, false) <==> now > t + CacheTtlMs
  {
  }

  /** The first parsable record with this `videoId`. */
  function FirstWithId(s: seq<Entry<StreamMember>>, videoId: string): (r: Option<nat>)
    ensures r.Some? ==> r.value < |s| && HasId(s[r.value], videoId)
    ensures r.Some? ==> forall j :: 0 <= j < r.value ==> !HasId(s[j], videoId)
    ensures r.None? ==> forall j :: 0 <= j < |s| ==> !HasId(s[j], videoId)
  {
    if s == [] then None
    else if HasId(s[0], videoId) then Some(0)
    else
      match FirstWithId(s[1..], videoId)
      case None => None
      case Some(k) => Some(k + 1)
  }

  predicate HasId(e: Entry<StreamMember>, videoId: string) {
    e.member.Stored? && e.member.record.videoId == videoId
  }

  /** A record marked finished at `endTime`. */
  function Finished(r: StreamRecord, endTime: int): StreamRecord {
    r.(endTime := Some(endTime), isLive := false)
  }

  /** `updateStreamEndTime`: replace the first matching record by its finished form, at the same score. */
  function Ended(s: seq<Entry<StreamMember>>, videoId: string, endTime: int): seq<Entry<StreamMember>> {
    match FirstWithId(s, videoId)
    case None => s
    case Some(k) =>
      var r := s[k].member.record;
      Add(Without(s, Stored(r)), r.startTime, Stored(Finished(r, endTime)))
  }

  /** Ending a stream keeps the set well formed. */
  lemma EndedOk(s: seq<Entry<StreamMember>>, videoId: string, endTime: int)
    requires StreamsOk(s)
    ensures StreamsOk(Ended(s, videoId, endTime))
  {
    match FirstWithId(s, videoId)
    case None =>
    case Some(k) =>
      var r := s[k].member.record;
      assert s[k] in s;
      var w := Without(s, Stored(r));
      assert ScoredByStart(w);
      var t := Add(w, r.startTime, Stored(Finished(r, endTime)));
      assert ScoredByStart(t);
  }

  /**
   * Without a matching record nothing changes. Otherwise the first matching
   * record is replaced by its finished form at the score it had, and every
   * entry holding neither of the two is kept or absent as before.
   */
  lemma EndedEffect(s: seq<Entry<StreamMember>>, videoId: string, endTime: int)
    requires StreamsOk(s)
    ensures FirstWithId(s, videoId).None? ==> Ended(s, videoId, endTime) == s
    ensures FirstWithId(s, videoId).Some? ==>
      var k := FirstWithId(s, videoId).value; var r := s[k].member.record;
      && Entry(s[k].score, Stored(Finished(r, endTime))) in Ended(s, videoId, endTime)
      && forall e: Entry<StreamMember> :: e.member != Stored(r) && e.member != Stored(Finished(r, endTime)) ==>
           (e in Ended(s, videoId, endTime) <==> e in s)
  {
    match FirstWithId(s, videoId)
    case None =>
    case Some(k) =>
      assert s[k] in s;
  }

  /** How the two writes for one matching record went: `zrem` threw, `zadd` threw after the removal, or both succeeded. */
  datatype EndWrite = RemoveFails | AddFails | Written

  /**
   * The loop of `updateStreamEndTime` from position `i` of the list it read,
   * acting on the set `cur`. Each write failure is caught inside the loop: a
   * matching record whose `zrem` throws stays and the scan goes on; one whose
   * `zadd` throws after the removal is lost and the scan goes on; the first
   * whose two writes succeed is replaced by its finished form and ends the scan.
   */
  function EndFrom(cur: seq<Entry<StreamMember>>, all: seq<Entry<StreamMember>>, i: nat, videoId: string,
                   endTime: int, writes: nat -> EndWrite): seq<Entry<StreamMember>>
    decreases |all| - i
  {
    if i >= |all| then cur
    else if !HasId(all[i], videoId) then EndFrom(cur, all, i + 1, videoId, endTime, writes)
    else
      var r := all[i].member.record;
      match writes(i)
      case RemoveFails => EndFrom(cur, all, i + 1, videoId, endTime, writes)
      case AddFails => EndFrom(Without(cur, Stored(r)), all, i + 1, videoId, endTime, writes)
      case Written => Add(Without(cur, Stored(r)), r.startTime, Stored(Finished(r, endTime)))
  }

  /** One position of the scan. */
  lemma EndFromUnfold(cur: seq<Entry<StreamMember>>, all: seq<Entry<StreamMember>>, i: nat, videoId: string,
                      endTime: int, writes: nat -> EndWrite)
    requires i < |all|
    ensures var e := EndFrom(cur, all, i, videoId, endTime, writes); var next := EndFrom(cur, all, i + 1, videoId, endTime, writes);
      && (!HasId(all[i], videoId) ==> e == next)
      && (HasId(all[i], videoId) && writes(i) == RemoveFails ==> e == next)
      && (HasId(all[i], videoId) && writes(i) == AddFails ==>
            e == EndFrom(Without(cur, Stored(all[i].member.record)), all, i + 1, videoId, endTime, writes))
      && (HasId(all[i], videoId) && writes(i) == Written ==>
            var r := all[i].member.record; e == Add(Without(cur, Stored(r)), r.startTime, Stored(Finished(r, endTime))))
  {
  }

  /** Removing a record, and adding its finished form at its start time, keep the set well formed. */
  lemma FinishStepOk(cur: seq<Entry<StreamMember>>, r: StreamRecord, endTime: int)
    requires StreamsOk(cur)
    ensures StreamsOk(Without(cur, Stored(r)))
    ensures StreamsOk(Add(Without(cur, Stored(r)), r.startTime, Stored(Finished(r, endTime))))
  {
    var w := Without(cur, Stored(r));
    assert ScoredByStart(w);
    var t := Add(w, r.startTime, Stored(Finished(r, endTime)));
    assert ScoredByStart(t);
  }

  /** Whatever the writes do, the scan keeps the set well formed. */
  lemma {:induction false} EndFromOk(cur: seq<Entry<StreamMember>>, all: seq<Entry<StreamMember>>, i: nat,
                                     videoId: string, endTime: int, writes: nat -> EndWrite)
    requires StreamsOk(cur)
    ensures StreamsOk(EndFrom(cur, all, i, videoId, endTime, writes))
    decreases |all| - i
  {
    if i < |all| {
      if !HasId(all[i], videoId) {
        EndFromOk(cur, all, i + 1, videoId, endTime, writes);
      } else {
        var r := all[i].member.record;
        FinishStepOk(cur, r, endTime);
        EndFromOk(cur, all, i + 1, videoId, endTime, writes);
        EndFromOk(Without(cur, Stored(r)), all, i + 1, videoId, endTime, writes);
      }
    }
  }

  /** A scan that meets no record with the id from `i` on changes nothing. */
  lemma {:induction false} EndFromNoMatch(cur: seq<Entry<StreamMember>>, all: seq<Entry<StreamMember>>, i: nat,
                                          videoId: string, endTime: int, writes: nat -> EndWrite)
    requires forall j :: i <= j < |all| ==> !HasId(all[j], videoId)
    ensures EndFrom(cur, all, i, videoId, endTime, writes) == cur
    decreases |all| - i
  {
    if i < |all| {
      EndFromNoMatch(cur, all, i + 1, videoId, endTime, writes);
    }
  }

  /**
   * When every write succeeds the scan is `Ended`: the first record with the
   * id is finished and nothing else changes.
   */
  lemma {:induction false} EndFromWritten(s: seq<Entry<StreamMember>>, i: nat, videoId: string, endTime: int,
                                          writes: nat -> EndWrite)
    requires forall j :: 0 <= j < i && j < |s| ==> !HasId(s[j], videoId)
    requires forall j :: i <= j < |s| ==> writes(j) == Written
    ensures EndFrom(s, s, i, videoId, endTime, writes) == Ended(s, videoId, endTime)
    decreases |s| - i
  {
    if i >= |s| {
      assert FirstWithId(s, videoId).None?;
    } else if !HasId(s[i], videoId) {
      EndFromWritten(s, i + 1, videoId, endTime, writes);
    } else {
      var k := FirstWithId(s, videoId);
      assert k.Some?;
      assert k.value == i;
    }
  }

  /**
   * A `zadd` that throws after its `zrem` succeeded loses the record: when
   * that record is the last one with the id, it is gone from the set and no
   * finished form is added.
   */
  lemma LostOnAddFailure(cur: seq<Entry<StreamMember>>, all: seq<Entry<StreamMember>>, i: nat,
                         videoId: string, endTime: int, writes: nat -> EndWrite)
    requires i < |all| && HasId(all[i], videoId) && writes(i) == AddFails
    requires forall j :: i < j < |all| ==> !HasId(all[j], videoId)
    ensures var r := all[i].member.record;
      EndFrom(cur, all, i, videoId, endTime, writes) == Without(cur, Stored(r))
      && forall e :: e in EndFrom(cur, all, i, videoId, endTime, writes) ==> e.member != Stored(r)
  {
    EndFromNoMatch(Without(cur, Stored(all[i].member.record)), all, i + 1, videoId, endTime, writes);
  }

  /** A `zrem` that throws leaves that record in place and hands on to the next record with the id. */
  lemma RemoveFailureSkips(cur: seq<Entry<StreamMember>>, all: seq<Entry<StreamMember>>, i: nat,
                           videoId: string, endTime: int, writes: nat -> EndWrite)
    requires i < |all| && HasId(all[i], videoId) && writes(i) == RemoveFails
    ensures EndFrom(cur, all, i, videoId, endTime, writes) == EndFrom(cur, all, i + 1, videoId, endTime, writes)
  {
  }

  /** The retention cut-off at `now`. */
  function Cutoff(now: int): int {
    now - RetentionMs
  }

  class StreamStore {
    /** `streams:youtube:all`. */
    var streams: seq<Entry<StreamMember>>
    /** `stream:cache:last_fetch`. */
    var marker: Option<Marker>

    ghost predicate Valid()
      reads this
    {
      StreamsOk(streams)
    }

    constructor (initial: seq<Entry<StreamMember>>, initialMarker: Option<Marker>)
      requires StreamsOk(initial)
      ensures Valid()
      ensures streams == initial && marker == initialMarker
    {
      streams := initial;
      marker := initialMarker;
    }

    /** `saveStreamRecord`: ZADD the record at its start time; a failing call changes nothing. */
    method Save(stream: StreamRecord, fails: bool)
      requires Valid()
      modifies this
      ensures Valid()
      ensures streams == (if fails then old(streams) else Add(old(streams), stream.startTime, Stored(stream)))
      ensures marker == old(marker)
    {
      if !fails {
        var added := Add(streams, stream.startTime, Stored(stream));
        assert ScoredByStart(added);
        streams := added;
      }
    }

    /**
     * `getStreamsInRange`: the parsable members scored in [lo, hi] that
     * pass the overlap test, in set order; an error gives the empty list.
     */
    method StreamsInRange(lo: int, hi: int, now: int, readFails: bool) returns (r: seq<StreamRecord>)
      ensures r == (if readFails then [] else Overlapping(Decoded(RangeByScore(streams, lo, hi)), lo, hi, now))
    {
      if readFails {
        return [];
      }
      var results := RangeByScore(streams, lo, hi);
      r := [];
      var i := 0;
      while i < |results|
        invariant 0 <= i <= |results|
        invariant r == Overlapping(Decoded(results[..i]), lo, hi, now)
      {
        RangeStep(results, i, lo, hi, now);
        var data := results[i];
        if data.member.Stored? && Overlaps(data.member.record, lo, hi, now) {
          r := r + [data.member.record];
        }
        i := i + 1;
      }
      assert results[..i] == results;
    }

    /** `shouldFetchStreams`: due on a read error, with no marker, or once a marker's hour has passed. */
    function FetchDue(now: int, readFails: bool): (b: bool)
      reads this
      ensures readFails || marker.None? ==> b
      ensures !readFails && marker.Some? && marker.value == MarkerAt(marker.value.value) && marker.value.value != 0 ==>
        (b <==> now > marker.value.value + CacheTtlMs)
    {
      ShouldFetch(marker, now, readFails)
    }

    /** `markStreamsFetched`: set the marker to `now`, expiring after one hour. */
    method MarkFetched(now: int, fails: bool)
      modifies this
      ensures marker == (if fails then old(marker) else Some(MarkerAt(now)))
      ensures streams == old(streams)
    {
      if !fails {
        marker := Some(MarkerAt(now));
      }
    }

    /**
     * `updateStreamEndTime`: scan the set as read, in order; `writes(i)` says
     * how the writes for the record at position `i` go, should it match.
     */
    method UpdateEndTime(videoId: string, endTime: int, readFails: bool, writes: nat -> EndWrite)
      requires Valid()
      modifies this
      ensures Valid()
      ensures streams == (if readFails then old(streams) else EndFrom(old(streams), old(streams), 0, videoId, endTime, writes))
      ensures marker == old(marker)
    {
      if !readFails {
        var all := streams;
        ghost var goal := EndFrom(all, all, 0, videoId, endTime, writes);
        var i := 0;
        var done := false;
        while i < |all| && !done
          invariant 0 <= i <= |all| && StreamsOk(streams) && marker == old(marker)
          invariant done ==> streams == goal
          invariant !done ==> EndFrom(streams, all, i, videoId, endTime, writes) == goal
        {
          var data := all[i];
          EndFromUnfold(streams, all, i, videoId, endTime, writes);
          if data.member.Stored? && data.member.record.videoId == videoId {
            var stream := data.member.record;
            FinishStepOk(streams, stream, endTime);
            var w := writes(i);
            if w == AddFails {
              streams := Without(streams, Stored(stream));
            } else if w == Written {
              streams := Add(Without(streams, Stored(stream)), stream.startTime, Stored(Finished(stream, endTime)));
              done := true;
            }
          }
          i := i + 1;
        }
        if !done {
          assert EndFrom(streams, all, i, videoId, endTime, writes) == streams;
        }
      }
    }

    /** `cleanupOldStreams`: ZREMRANGEBYSCORE from 0 to ninety days before `now`. */
    method Cleanup(now: int, fails: bool)
      requires Valid()
      modifies this
      ensures Valid()
      ensures streams == (if fails then old(streams) else RemoveRangeByScore(old(streams), 0, Cutoff(now)))
      ensures marker == old(marker)
    {
      if !fails {
        var kept := RemoveRangeByScore(streams, 0, Cutoff(now));
        assert ScoredByStart(kept);
        streams := kept;
      }
    }
  }

  /** One pass of the range loop. */
  lemma RangeStep(results: seq<Entry<StreamMember>>, i: nat, lo: int, hi: int, now: int)
    requires i < |results|
    ensures var e := results[i]; var d := Decoded(results[..i]);
      Overlapping(Decoded(results[..i + 1]), lo, hi, now)
      == Overlapping(d, lo, hi, now)
         + (if e.member.Stored? && Overlaps(e.member.record, lo, hi, now) then [e.member.record] else [])
  {
    var e := results[i];
    var d := Decoded(results[..i]);
    assert results[..i + 1][..i] == results[..i];
    if e.member.Stored? {
      assert (d + [e.member.record])[..|d|] == d;
    } else {
      assert Decoded(results[..i + 1]) == d;
    }
  }

  /** A saved record is in the set at its start time, and no other entry holds it. */
  lemma SaveThenPresent(s: seq<Entry<StreamMember>>, r: StreamRecord)
    requires StreamsOk(s)
    ensures Entry(r.startTime, Stored(r)) in Add(s, r.startTime, Stored(r))
    ensures forall e :: e in Add(s, r.startTime, Stored(r)) && e.member == Stored(r) ==> e.score == r.startTime
  {
  }

  /**
   * Saving a record with the same `videoId` but any other field changed
   * (a new view count, say) adds a second member instead of updating the
   * first: both are then in the set.
   */
  lemma SaveKeepsOlderVersion(s: seq<Entry<StreamMember>>, earlier: StreamRecord, later: StreamRecord)
    requires StreamsOk(s) && Entry(earlier.startTime, Stored(earlier)) in s
    requires later.videoId == earlier.videoId && later != earlier
    ensures Entry(earlier.startTime, Stored(earlier)) in Add(s, later.startTime, Stored(later))
    ensures Entry(later.startTime, Stored(later)) in Add(s, later.startTime, Stored(later))
  {
  }

  /** Cleanup keeps exactly the records that started after the cut-off (or before time zero). */
  lemma CleanupKeeps(s: seq<Entry<StreamMember>>, now: int, r: StreamRecord)
    requires StreamsOk(s) && Entry(r.startTime, Stored(r)) in s
    ensures Entry(r.startTime, Stored(r)) in RemoveRangeByScore(s, 0, Cutoff(now))
      <==> r.startTime > now - RetentionMs || r.startTime < 0
  {
  }
}
