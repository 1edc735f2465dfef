/**
 * The admin subscribers page: the search box filters the listed users by
 * name, username or id, and each card links to the user on Telegram.
 */
module SubscribersPage {
  import opened Wrappers
  import opened Text
  import opened SubscriberDetails

  /** `x || ''` for an optional string. */
  function OrEmpty(s: Option<string>): string {
    s.GetOr("")
  }

  /** `${first_name} ${last_name || ''}`, lower-cased. */
  function FullName(u: User): string {
    Lower(u.firstName + " " + OrEmpty(u.lastName))
  }

  /**
   * The filter's test: the lower-cased term (not trimmed) occurs in the
   * lower-cased full name, in the lower-cased username, or in the decimal id.
   */
  predicate Matches(u: User, term: string) {
    var t := Lower(term);
    Includes(FullName(u), t) || Includes(Lower(OrEmpty(u.username)), t) || Includes(IntToString(u.id), t)
  }

  /** `subscribers.filter(...)`: the matching users, in order. */
  function Kept(subs: seq<User>, term: string): (r: seq<User>)
    ensures |r| <= |subs|
  {
    if subs == [] then []
    else (if Matches(subs[0], term) then [subs[0]] else []) + Kept(subs[1..], term)
  }

  /** `filteredSubscribers`: every subscriber for a blank term, else the matching ones. */
  function Filtered(subs: seq<User>, term: string): seq<User> {
    if Trim(term) == "" then subs else Kept(subs, term)
  }

  /** `xs` is `ys` with some elements left out, the rest in their order. */
  predicate Subsequence(xs: seq<User>, ys: seq<User>)
    decreases |ys|
  {
    if xs == [] then true
    else if ys == [] then false
    else (xs[0] == ys[0] && Subsequence(xs[1..], ys[1..])) || Subsequence(xs, ys[1..])
  }

  lemma {:induction false} KeptSubsequence(subs: seq<User>, term: string)
    ensures Subsequence(Kept(subs, term), subs)
  {
    if subs != [] {
      KeptSubsequence(subs[1..], term);
      var rest := Kept(subs[1..], term);
      if Matches(subs[0], term) {
        assert ([subs[0]] + rest)[1..] == rest;
      } else {
        assert Kept(subs, term) == rest;
        SubsequenceOfTail(rest, subs);
      }
    }
  }

  lemma SubsequenceOfTail(xs: seq<User>, ys: seq<User>)
    requires ys != [] && Subsequence(xs, ys[1..])
    ensures Subsequence(xs, ys)
  {
  }

  lemma {:induction false} SubsequenceRefl(xs: seq<User>)
    ensures Subsequence(xs, xs)
  {
    if xs != [] {
      SubsequenceRefl(xs[1..]);
    }
  }

  /** The kept users are exactly the matching ones, each as often as it appears. */
  lemma {:induction false} KeptMembers(subs: seq<User>, term: string)
    ensures forall u :: u in Kept(subs, term) <==> u in subs && Matches(u, term)
  {
    if subs != [] {
      KeptMembers(subs[1..], term);
      assert subs == [subs[0]] + subs[1..];
    }
  }

  /**
   * The filtered list keeps the subscribers' order and drops only users
   * that do not match; a blank or white-space-only term keeps everyone.
   */
  lemma FilteredSpec(subs: seq<User>, term: string)
    ensures Subsequence(Filtered(subs, term), subs)
    ensures (forall i :: 0 <= i < |term| ==> IsSpace(term[i])) ==> Filtered(subs, term) == subs
    ensures !(forall i :: 0 <= i < |term| ==> IsSpace(term[i])) ==>
      forall u :: u in Filtered(subs, term) <==> u in subs && Matches(u, term)
  {
    TrimEmptyIffBlank(term);
    if Trim(term) == "" {
      SubsequenceRefl(subs);
    } else {
      KeptSubsequence(subs, term);
      KeptMembers(subs, term);
    }
  }

  /** Every user's own decimal id finds it. */
  lemma IdFindsUser(u: User)
    ensures Matches(u, IntToString(u.id))
  {
    var s := IntToString(u.id);
    LowerOfIntToString(u.id);
    assert OccursAt(s, s, 0);
  }

  lemma LowerOfIntToString(i: int)
    ensures Lower(IntToString(i)) == IntToString(i)
  {
    var s := IntToString(i);
    forall k | 0 <= k < |s| ensures !('A' <= s[k] <= 'Z') {
      assert s[k] == '-' || IsDigit(s[k]) by { IntToStringChars(i, k); }
    }
    LowerOfLowercase(s);
  }

  lemma IntToStringChars(i: int, k: nat)
    requires k < |IntToString(i)|
    ensures IntToString(i)[k] == '-' || IsDigit(IntToString(i)[k])
  {
    if i < 0 {
      var d := NatToString(-i);
      assert IntToString(i) == "-" + d;
      if k > 0 {
        assert IntToString(i)[k] == d[k - 1];
      }
    }
  }

  /** `https://t.me/<username>` when there is a username, else `tg://user?id=<id>`. */
  function TelegramLink(u: User): (link: string)
    ensures u.username.Some? && u.username.value != "" ==> link == "https://t.me/" + u.username.value
    ensures !(u.username.Some? && u.username.value != "") ==> link == "tg://user?id=" + IntToString(u.id)
  {
    if u.username.Some? && u.username.value != "" then "https://t.me/" + u.username.value
    else "tg://user?id=" + IntToString(u.id)
  }

  /** The two link forms never coincide: the scheme tells which one a card uses. */
  lemma LinkScheme(u: User)
    ensures StartsWith(TelegramLink(u), "https://") <==> u.username.Some? && u.username.value != ""
  {
    var l := TelegramLink(u);
    if !(u.username.Some? && u.username.value != "") {
      assert l[0] == 't';
      assert "https://"[0] == 'h';
    }
  }
}
