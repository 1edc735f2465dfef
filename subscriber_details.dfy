/**
 * The admin subscriber-details route: after the token checks it lists
 * every subscriber, taking cached user info where there is some and asking
 * the Telegram API for the rest in batches of five, with a placeholder for
 * any lookup that fails.
 */
module SubscriberDetails {
  import opened Wrappers
  import opened Text

  /** The user fields the route returns. */
  datatype User = User(
    id: int, firstName: string, lastName: Option<string>, username: Option<string>,
    photoUrl: Option<string>, isBot: Option<bool>)

  /** The stand-in for a user the API could not describe. */
  function Placeholder(id: int): (u: User)
    ensures u.id == id && u.firstName == "User" && u.isBot == Some(false)
    ensures u.lastName == Some("#" + IntToString(id)) && u.username.None? && u.photoUrl.None?
  {
    User(id, "User", Some("#" + IntToString(id)), None, None, Some(false))
  }

  /** One API lookup: the user found, else the placeholder (a null or a thrown lookup alike). */
  function Resolve(id: int, lookup: int -> Option<User>): User {
    lookup(id).GetOr(Placeholder(id))
  }

  function ResolveAll(ids: seq<int>, lookup: int -> Option<User>): (r: seq<User>)
    ensures |r| == |ids| && forall k :: 0 <= k < |ids| ==> r[k] == Resolve(ids[k], lookup)
  {
    seq(|ids|, k requires 0 <= k < |ids| => Resolve(ids[k], lookup))
  }

  /** The ids with cached info, in their original order. */
  function CachedIds(ids: seq<int>, cache: map<int, User>): seq<int> {
    if ids == [] then []
    else
      var x := ids[|ids| - 1];
      CachedIds(ids[..|ids| - 1], cache) + (if x in cache then [x] else [])
  }

  /** The ids without cached info, in their original order. */
  function UncachedIds(ids: seq<int>, cache: map<int, User>): seq<int> {
    if ids == [] then []
    else
      var x := ids[|ids| - 1];
      UncachedIds(ids[..|ids| - 1], cache) + (if x in cache then [] else [x])
  }

  /** The cached info of the cached ids, in their original order. */
  function CachedUsers(ids: seq<int>, cache: map<int, User>): (r: seq<User>)
    ensures |r| == |CachedIds(ids, cache)|
  {
    if ids == [] then []
    else
      var x := ids[|ids| - 1];
      CachedUsers(ids[..|ids| - 1], cache) + (if x in cache then [cache[x]] else [])
  }

  /** The cached list takes, position by position, the cached info of the cached ids; the uncached ids have none. */
  lemma {:induction false} CachedUsersOfIds(ids: seq<int>, cache: map<int, User>)
    ensures var c := CachedIds(ids, cache);
      && |CachedUsers(ids, cache)| == |c|
      && forall k :: 0 <= k < |c| ==> c[k] in cache && CachedUsers(ids, cache)[k] == cache[c[k]]
    ensures forall k :: 0 <= k < |UncachedIds(ids, cache)| ==> UncachedIds(ids, cache)[k] !in cache
  {
    if ids != [] {
      CachedUsersOfIds(ids[..|ids| - 1], cache);
    }
  }

  /** The two lists split the ids: every id lands in exactly one of them, as often as it occurs. */
  lemma {:induction false} PartitionCovers(ids: seq<int>, cache: map<int, User>)
    ensures multiset(CachedIds(ids, cache)) + multiset(UncachedIds(ids, cache)) == multiset(ids)
  {
    if ids != [] {
      var init, x := ids[..|ids| - 1], ids[|ids| - 1];
      PartitionCovers(init, cache);
      PartitionLast(ids, cache);
      MultisetLast(ids);
      AddOne(multiset(CachedIds(init, cache)), multiset(UncachedIds(init, cache)), multiset(init),
             multiset(CachedIds(ids, cache)), multiset(UncachedIds(ids, cache)), multiset(ids), x);
    }
  }

  lemma PartitionLast(ids: seq<int>, cache: map<int, User>)
    requires ids != []
    ensures var init, x := ids[..|ids| - 1], ids[|ids| - 1];
      (x in cache && multiset(CachedIds(ids, cache)) == multiset(CachedIds(init, cache)) + multiset{x}
        && multiset(UncachedIds(ids, cache)) == multiset(UncachedIds(init, cache)))
      || (x !in cache && multiset(CachedIds(ids, cache)) == multiset(CachedIds(init, cache))
        && multiset(UncachedIds(ids, cache)) == multiset(UncachedIds(init, cache)) + multiset{x})
  {
  }

  lemma MultisetLast(s: seq<int>)
    requires s != []
    ensures multiset(s) == multiset(s[..|s| - 1]) + multiset{s[|s| - 1]}
  {
    assert s == s[..|s| - 1] + [s[|s| - 1]];
  }

  /** One more element goes to one side of a split. */
  lemma AddOne(c: multiset<int>, u: multiset<int>, all: multiset<int>,
               c': multiset<int>, u': multiset<int>, all': multiset<int>, x: int)
    requires c + u == all && all' == all + multiset{x}
    requires (c' == c + multiset{x} && u' == u) || (c' == c && u' == u + multiset{x})
    ensures c' + u' == all'
  {
  }

  lemma PartitionLength(ids: seq<int>, cache: map<int, User>)
    ensures |CachedIds(ids, cache)| + |UncachedIds(ids, cache)| == |ids|
  {
    PartitionCovers(ids, cache);
    assert |multiset(ids)| == |ids|;
  }

  /** `uncachedIds.slice(i, i + 5)` for `i = 0, 5, 10, …`. */
  function Batches(ids: seq<int>): (r: seq<seq<int>>)
    decreases |ids|
  {
    if ids == [] then []
    else if |ids| <= 5 then [ids]
    else [ids[..5]] + Batches(ids[5..])
  }

  function Flatten(bs: seq<seq<int>>): seq<int> {
    if bs == [] then [] else bs[0] + Flatten(bs[1..])
  }

  /** The batches cover the ids in order, each holds one to five, and all but the last hold five. */
  lemma {:induction false} BatchesCover(ids: seq<int>)
    ensures Flatten(Batches(ids)) == ids
    ensures forall k :: 0 <= k < |Batches(ids)| ==> 1 <= |Batches(ids)[k]| <= 5
    ensures forall k :: 0 <= k < |Batches(ids)| - 1 ==> |Batches(ids)[k]| == 5
    decreases |ids|
  {
    if |ids| > 5 {
      BatchesCover(ids[5..]);
      assert ids == ids[..5] + ids[5..];
    }
  }

  /** What `GET` answers; `NoSubscribers` is the success with count 0 and an empty list. */
  datatype Details =
    | Failure(status: nat, error: string)
    | NoSubscribers
    | Listing(count: nat, subscribers: seq<User>, cached: nat, fetched: nat)

  /** The users listed: the cached ones first, then the uncached ones as the API resolves them. */
  function Listed(ids: seq<int>, cache: map<int, User>, lookup: int -> Option<User>): seq<User> {
    CachedUsers(ids, cache) + ResolveAll(UncachedIds(ids, cache), lookup)
  }

  predicate Unset(s: Option<string>) {
    s.None? || s.value == ""
  }

  function Min(a: int, b: int): int {
    if a <= b then a else b
  }

  /** The first loop: cached info goes to the list, the other ids to `uncached`, both in id order. */
  method Partition(ids: seq<int>, cache: map<int, User>) returns (subscribers: seq<User>, uncached: seq<int>)
    ensures subscribers == CachedUsers(ids, cache)
    ensures uncached == UncachedIds(ids, cache)
  {
    subscribers := [];
    uncached := [];
    var n := 0;
    while n < |ids|
      invariant 0 <= n <= |ids|
      invariant uncached == UncachedIds(ids[..n], cache)
      invariant subscribers == CachedUsers(ids[..n], cache)
    {
      var chatId := ids[n];
      PartitionStep(ids, n, cache);
      if chatId in cache {
        subscribers := subscribers + [cache[chatId]];
      } else {
        uncached := uncached + [chatId];
      }
      n := n + 1;
    }
    assert ids[..n] == ids;
  }

  lemma PartitionStep(ids: seq<int>, n: nat, cache: map<int, User>)
    requires n < |ids|
    ensures var x := ids[n];
      && UncachedIds(ids[..n + 1], cache) == UncachedIds(ids[..n], cache) + (if x in cache then [] else [x])
      && CachedUsers(ids[..n + 1], cache) == CachedUsers(ids[..n], cache) + (if x in cache then [cache[x]] else [])
  {
    assert ids[..n + 1][..n] == ids[..n];
  }

  /** The second loop: the uncached ids, five at a time, each resolved by the API or a placeholder. */
  method FetchBatches(uncached: seq<int>, lookup: int -> Option<User>)
    returns (results: seq<User>, batches: seq<seq<int>>)
    ensures results == ResolveAll(uncached, lookup)
    ensures batches == Batches(uncached)
  {
    results := [];
    batches := [];
    var i := 0;
    while i < |uncached|
      invariant 0 <= i && i % 5 == 0
      invariant results == ResolveAll(uncached[..Min(i, |uncached|)], lookup)
      invariant batches + Batches(uncached[Min(i, |uncached|)..]) == Batches(uncached)
      decreases |uncached| - i
    {
      var end := Min(i + 5, |uncached|);
      var batch := uncached[i..end];
      BatchStep(uncached, i, end, lookup);
      results := results + ResolveAll(batch, lookup);
      batches := batches + [batch];
      i := i + 5;
    }
    BatchesDone(uncached, i, lookup);
    assert batches + [] == batches;
  }

  lemma BatchesDone(u: seq<int>, i: int, lookup: int -> Option<User>)
    requires i >= |u|
    ensures u[..Min(i, |u|)] == u && Batches(u[Min(i, |u|)..]) == []
  {
  }

  /** One pass of the batch loop. */
  lemma BatchStep(u: seq<int>, i: nat, end: nat, lookup: int -> Option<User>)
    requires i < |u| && end == Min(i + 5, |u|)
    ensures ResolveAll(u[..i], lookup) + ResolveAll(u[i..end], lookup) == ResolveAll(u[..end], lookup)
    ensures Batches(u[i..]) == [u[i..end]] + Batches(u[end..])
  {
    assert u[..i] + u[i..end] == u[..end];
    ResolveAppend(u[..i], u[i..end], lookup);
    var v := u[i..];
    if end < |u| {
      assert v[..5] == u[i..end] && v[5..] == u[end..];
    } else {
      assert v == u[i..end] && u[end..] == [];
    }
  }

  lemma ResolveAppend(a: seq<int>, b: seq<int>, lookup: int -> Option<User>)
    ensures ResolveAll(a, lookup) + ResolveAll(b, lookup) == ResolveAll(a + b, lookup)
  {
    var l, r := ResolveAll(a, lookup) + ResolveAll(b, lookup), ResolveAll(a + b, lookup);
    forall k | 0 <= k < |a| + |b| ensures l[k] == r[k] {
      if k < |a| { assert (a + b)[k] == a[k]; } else { assert (a + b)[k] == b[k - |a|]; }
    }
  }

  /** The checks in order: admin token set, token matches, bot token set. */
  function Authorize(adminToken: Option<string>, provided: Option<string>, botToken: Option<string>): (r: Option<Details>)
    ensures r.Some? <==> Unset(adminToken) || provided != adminToken || Unset(botToken)
    ensures Unset(adminToken) ==> r == Some(Failure(500, "Admin token not set"))
    ensures !Unset(adminToken) && provided != adminToken ==> r == Some(Failure(401, "Unauthorized"))
    ensures r.Some? && !Unset(adminToken) && provided == adminToken ==>
      r == Some(Failure(500, "Telegram bot token not configured"))
  {
    if Unset(adminToken) then Some(Failure(500, "Admin token not set"))
    else if provided != adminToken then Some(Failure(401, "Unauthorized"))
    else if Unset(botToken) then Some(Failure(500, "Telegram bot token not configured"))
    else None
  }

  const FetchFailed := "Failed to fetch subscriber details"

  /**
   * `GET`. `adminToken` and `botToken` are the configured tokens, `provided`
   * the `token` query parameter; `ids` is None when reading the subscribers
   * throws, `cache` None when the cache lookup throws; `lookup` answers
   * `getTelegramUserInfo` (None for null or a throw). Also returns the
   * batches the API was asked in.
   */
  method Get(adminToken: Option<string>, provided: Option<string>, botToken: Option<string>,
             ids: Option<seq<int>>, cache: Option<map<int, User>>, lookup: int -> Option<User>)
    returns (r: Details, batches: seq<seq<int>>)
    ensures Authorize(adminToken, provided, botToken).Some? ==>
      r == Authorize(adminToken, provided, botToken).value && batches == []
    ensures Authorize(adminToken, provided, botToken).None? ==> Served(ids, cache, lookup, r, batches)
  {
    var denied := Authorize(adminToken, provided, botToken);
    if denied.Some? {
      r, batches := denied.value, [];
    } else if ids.None? || (ids.value != [] && cache.None?) {
      r, batches := Failure(500, FetchFailed), [];
    } else if ids.value == [] {
      r, batches := NoSubscribers, [];
    } else {
      var subscribers, uncached, fetched;
      subscribers, uncached := Partition(ids.value, cache.value);
      fetched, batches := FetchBatches(uncached, lookup);
      subscribers := subscribers + fetched;
      r := Listing(|subscribers|, subscribers, |cache.value|, |uncached|);
      ListingCounts(ids.value, cache.value, lookup);
    }
  }

  /** What an authorized request gets: a failure when a read throws, else the listing of every id. */
  predicate Served(ids: Option<seq<int>>, cache: Option<map<int, User>>, lookup: int -> Option<User>,
                   r: Details, batches: seq<seq<int>>)
  {
    if ids.None? then r == Failure(500, FetchFailed) && batches == []
    else if ids.value == [] then r == NoSubscribers && batches == []
    else if cache.None? then r == Failure(500, FetchFailed) && batches == []
    else
      var u := UncachedIds(ids.value, cache.value);
      && r == Listing(|ids.value|, Listed(ids.value, cache.value, lookup), |cache.value|, |u|)
      && batches == Batches(u)
  }

  /** The answer lists one user per subscriber id, and only ids without cached info are fetched. */
  lemma ListingCounts(ids: seq<int>, cache: map<int, User>, lookup: int -> Option<User>)
    ensures |Listed(ids, cache, lookup)| == |ids|
    ensures |UncachedIds(ids, cache)| <= |ids|
  {
    PartitionLength(ids, cache);
  }

  /** The cached ids come first with their cached info; the uncached ones follow, fetched or placeholders. */
  lemma ListingOrder(ids: seq<int>, cache: map<int, User>, lookup: int -> Option<User>)
    ensures var c, u := CachedIds(ids, cache), UncachedIds(ids, cache); var l := Listed(ids, cache, lookup);
      && (forall k :: 0 <= k < |c| ==> c[k] in cache && l[k] == cache[c[k]])
      && (forall k :: 0 <= k < |u| ==> u[k] !in cache && l[|c| + k] == Resolve(u[k], lookup))
  {
    CachedUsersOfIds(ids, cache);
  }

  /** A lookup that yields nothing gives the placeholder for that id. */
  lemma FailedLookupIsPlaceholder(id: int, lookup: int -> Option<User>)
    requires lookup(id).None?
    ensures Resolve(id, lookup) == User(id, "User", Some("#" + IntToString(id)), None, None, Some(false))
  {
  }
}
