/**
 * A Redis sorted set (ZSET) as a score-ordered sequence of entries with
 * distinct members: ZADD, ZREM, ZRANGE ... BYSCORE and ZREMRANGEBYSCORE.
 * Among equal scores Redis orders members lexicographically; the model only
 * keeps scores non-decreasing and places a new entry after existing entries
 * with an equal score.
 */
module SortedSet {

  datatype Entry<T> = Entry(score: int, member: T)

  predicate Sorted<T>(s: seq<Entry<T>>) {
    forall i, j :: 0 <= i < j < |s| ==> s[i].score <= s[j].score
  }

  predicate Distinct<T(==,!new)>(s: seq<Entry<T>>) {
    forall i, j :: 0 <= i < j < |s| ==> s[i].member != s[j].member
  }

  predicate Valid<T(==,!new)>(s: seq<Entry<T>>) {
    Sorted(s) && Distinct(s)
  }

  /** The entries satisfying `keep`, in their original order. */
  function Keep<T(==,!new)>(s: seq<Entry<T>>, keep: Entry<T> -> bool): (r: seq<Entry<T>>)
    ensures forall e :: e in r <==> e in s && keep(e)
    ensures |r| <= |s|
  {
    if s == [] then [] else if keep(s[0]) then [s[0]] + Keep(s[1..], keep) else Keep(s[1..], keep)
  }

  /** Filtering keeps the score order. */
  lemma {:induction false} KeepSorted<T(!new)>(s: seq<Entry<T>>, keep: Entry<T> -> bool)
    requires Sorted(s)
    ensures Sorted(Keep(s, keep))
  {
    if s != [] {
      KeepSorted(s[1..], keep);
      HeadBeforeRest(s);
      Cons(s[0], Keep(s[1..], keep));
    }
  }

  /** Filtering keeps the members distinct. */
  lemma {:induction false} KeepDistinct<T(!new)>(s: seq<Entry<T>>, keep: Entry<T> -> bool)
    requires Distinct(s)
    ensures Distinct(Keep(s, keep))
  {
    if s != [] {
      KeepDistinct(s[1..], keep);
      HeadBeforeRest(s);
      Cons(s[0], Keep(s[1..], keep));
    }
  }

  lemma KeepValid<T(!new)>(s: seq<Entry<T>>, keep: Entry<T> -> bool)
    ensures Valid(s) ==> Valid(Keep(s, keep))
  {
    if Valid(s) {
      KeepSorted(s, keep);
      KeepDistinct(s, keep);
    }
  }

  /** The first entry of a sorted, distinct sequence precedes every later one. */
  lemma HeadBeforeRest<T(!new)>(s: seq<Entry<T>>)
    requires s != []
    ensures Sorted(s) ==> forall x :: x in s[1..] ==> s[0].score <= x.score
    ensures Distinct(s) ==> forall x :: x in s[1..] ==> x.member != s[0].member
  {
    forall x | x in s[1..] ensures exists k :: 1 <= k < |s| && s[k] == x {
      var k :| 0 <= k < |s[1..]| && s[1..][k] == x;
      assert s[k + 1] == x;
    }
  }

  /** Putting `x` in front keeps the order and the distinct members when `x` fits before `rest`. */
  lemma Cons<T(!new)>(x: Entry<T>, rest: seq<Entry<T>>)
    ensures forall e :: e in [x] + rest <==> e == x || e in rest
    ensures Sorted(rest) && (forall y :: y in rest ==> x.score <= y.score) ==> Sorted([x] + rest)
    ensures Distinct(rest) && (forall y :: y in rest ==> y.member != x.member) ==> Distinct([x] + rest)
  {
    var s := [x] + rest;
    assert forall j :: 1 <= j < |s| ==> s[j] == rest[j - 1] && s[j] in rest;
  }

  /** ZREM: drop the entry whose member is `m`, if any. */
  function Without<T(==,!new)>(s: seq<Entry<T>>, m: T): (r: seq<Entry<T>>)
    ensures forall e :: e in r <==> e in s && e.member != m
    ensures Valid(s) ==> Valid(r)
  {
    KeepValid(s, (e: Entry<T>) => e.member != m);
    Keep(s, (e: Entry<T>) => e.member != m)
  }

  /** ZRANGE key lo hi BYSCORE: the entries with lo <= score <= hi, in score order. */
  function RangeByScore<T(==,!new)>(s: seq<Entry<T>>, lo: int, hi: int): (r: seq<Entry<T>>)
    ensures forall e :: e in r <==> e in s && lo <= e.score <= hi
    ensures Valid(s) ==> Valid(r)
  {
    KeepValid(s, (e: Entry<T>) => lo <= e.score <= hi);
    Keep(s, (e: Entry<T>) => lo <= e.score <= hi)
  }

  /** ZREMRANGEBYSCORE key lo hi: drop every entry with lo <= score <= hi. */
  function RemoveRangeByScore<T(==,!new)>(s: seq<Entry<T>>, lo: int, hi: int): (r: seq<Entry<T>>)
    ensures forall e :: e in r <==> e in s && !(lo <= e.score <= hi)
    ensures Valid(s) ==> Valid(r)
  {
    KeepValid(s, (e: Entry<T>) => !(lo <= e.score <= hi));
    Keep(s, (e: Entry<T>) => !(lo <= e.score <= hi))
  }

  /** The number of leading entries whose score is at most `score`. */
  function InsertPos<T>(s: seq<Entry<T>>, score: int): (k: nat)
    ensures k <= |s|
    ensures forall i :: 0 <= i < k ==> s[i].score <= score
    ensures Sorted(s) ==> forall i :: k <= i < |s| ==> s[i].score > score
  {
    if s == [] || s[0].score > score then 0 else 1 + InsertPos(s[1..], score)
  }

  /** Insert `e` after every entry whose score is at most `e.score`. */
  function Insert<T(==,!new)>(s: seq<Entry<T>>, e: Entry<T>): (r: seq<Entry<T>>)
    ensures forall x :: x in r <==> x == e || x in s
    ensures |r| == |s| + 1
  {
    if s == [] || s[0].score > e.score then [e] + s else [s[0]] + Insert(s[1..], e)
  }

  /** Insertion keeps the score order. */
  lemma {:induction false} InsertSorted<T(!new)>(s: seq<Entry<T>>, e: Entry<T>)
    requires Sorted(s)
    ensures Sorted(Insert(s, e))
  {
    if s == [] || s[0].score > e.score {
      HeadBeforeRest([e] + s);
      Cons(e, s);
    } else {
      InsertSorted(s[1..], e);
      HeadBeforeRest(s);
      Cons(s[0], Insert(s[1..], e));
    }
  }

  /** Inserting a member not yet present keeps the members distinct. */
  lemma {:induction false} InsertDistinct<T(!new)>(s: seq<Entry<T>>, e: Entry<T>)
    requires Distinct(s) && forall x :: x in s ==> x.member != e.member
    ensures Distinct(Insert(s, e))
  {
    if s == [] || s[0].score > e.score {
      Cons(e, s);
    } else {
      HeadBeforeRest(s);
      InsertDistinct(s[1..], e);
      Cons(s[0], Insert(s[1..], e));
    }
  }

  lemma InsertValid<T(!new)>(s: seq<Entry<T>>, e: Entry<T>)
    ensures Valid(s) && (forall x :: x in s ==> x.member != e.member) ==> Valid(Insert(s, e))
  {
    if Valid(s) && forall x :: x in s ==> x.member != e.member {
      InsertSorted(s, e);
      InsertDistinct(s, e);
    }
  }

  /** ZADD key score m: insert `m`, or move it to `score` when it is already a member. */
  function Add<T(==,!new)>(s: seq<Entry<T>>, score: int, m: T): (r: seq<Entry<T>>)
    ensures forall e :: e in r <==> e == Entry(score, m) || (e in s && e.member != m)
    ensures Valid(s) ==> Valid(r)
  {
    var w := Without(s, m);
    InsertValid(w, Entry(score, m));
    Insert(w, Entry(score, m))
  }

  /** After ZADD the member is present exactly once, with the new score. */
  lemma AddThenRange<T(!new)>(s: seq<Entry<T>>, score: int, m: T, lo: int, hi: int)
    requires Valid(s) && lo <= score <= hi
    ensures Entry(score, m) in RangeByScore(Add(s, score, m), lo, hi)
    ensures forall e :: e in Add(s, score, m) && e.member == m ==> e.score == score
  {
  }
}
