/**
 * The Redis subscriber registry read by the milestone broadcaster: one set
 * `telegram:subscribers` of chat-id strings. The set is kept as a sequence
 * of distinct members in insertion order; Redis returns members in an
 * unspecified order and no property below depends on it.
 */
module Subscribers {
  import opened Wrappers
  import opened Text

  predicate Distinct(ms: seq<string>) {
    forall i, j :: 0 <= i < j < |ms| ==> ms[i] != ms[j]
  }

  /** SADD of one member. */
  function AddMember(ms: seq<string>, m: string): (r: seq<string>)
    ensures forall x :: x in r <==> x == m || x in ms
    ensures Distinct(ms) ==> Distinct(r)
  {
    if m in ms then ms else ms + [m]
  }

  /** SREM of one member. */
  function RemoveMember(ms: seq<string>, m: string): (r: seq<string>)
    ensures forall x :: x in r <==> x != m && x in ms
    ensures |r| <= |ms|
    ensures Distinct(ms) ==> Distinct(r)
  {
    if ms == [] then []
    else
      var rest := RemoveMember(ms[1..], m);
      assert forall x :: x in ms[1..] ==> x in ms;
      assert Distinct(ms) ==> Distinct(ms[1..]) && forall x :: x in rest ==> x != ms[0];
      if ms[0] == m then rest
      else
        if Distinct(ms) then ConsDistinct(ms[0], rest); [ms[0]] + rest else [ms[0]] + rest
  }

  lemma ConsDistinct(x: string, s: seq<string>)
    requires Distinct(s) && x !in s
    ensures Distinct([x] + s)
  {
    forall i, j | 0 <= i < j < |[x] + s| ensures ([x] + s)[i] != ([x] + s)[j] {
      assert ([x] + s)[j] == s[j - 1];
      if i > 0 {
        assert ([x] + s)[i] == s[i - 1];
      }
    }
  }

  /** `members.map(Number)`, with None for NaN. */
  function Numbers(ms: seq<string>): (r: seq<Option<int>>)
    ensures |r| == |ms| && forall i :: 0 <= i < |ms| ==> r[i] == JsNumber(ms[i])
  {
    seq(|ms|, i requires 0 <= i < |ms| => JsNumber(ms[i]))
  }

  /** `.filter(n => !isNaN(n))`: the numbers, in order. */
  function Present(os: seq<Option<int>>): (r: seq<int>)
    ensures |r| <= |os|
  {
    if os == [] then []
    else if os[0].Some? then [os[0].value] + Present(os[1..])
    else Present(os[1..])
  }

  lemma {:induction false} PresentContents(os: seq<Option<int>>)
    ensures forall x :: x in Present(os) <==> Some(x) in os
  {
    if os != [] {
      PresentContents(os[1..]);
      assert os == [os[0]] + os[1..];
    }
  }

  /** `members.map(Number).filter(n => !isNaN(n))`. */
  function ParseMembers(ms: seq<string>): (r: seq<int>)
    ensures |r| <= |ms|
  {
    Present(Numbers(ms))
  }

  /** Exactly the numbers some member parses to are listed. */
  lemma ParseMembersContents(ms: seq<string>)
    ensures forall x :: x in ParseMembers(ms) <==> Some(x) in Numbers(ms)
  {
    PresentContents(Numbers(ms));
  }

  class SubscriberRegistry {
    var members: seq<string>

    ghost predicate Valid()
      reads this
    {
      Distinct(members)
    }

    constructor ()
      ensures Valid() && members == []
    {
      members := [];
    }

    /** `addSubscriber`: SADD of the id's decimal string; the reply is always true. */
    method AddSubscriber(chatId: int) returns (ok: bool)
      requires Valid()
      modifies this
      ensures Valid() && ok
      ensures members == AddMember(old(members), IntToString(chatId))
    {
      var m := IntToString(chatId);
      if m !in members {
        members := members + [m];
      }
      ok := true;
    }

    /** `removeSubscriber`: SREM of the id's decimal string; the reply is always true. */
    method RemoveSubscriber(chatId: int) returns (ok: bool)
      requires Valid()
      modifies this
      ensures Valid() && ok
      ensures members == RemoveMember(old(members), IntToString(chatId))
    {
      members := RemoveMember(members, IntToString(chatId));
      ok := true;
    }

    /** `getSubscribers`: the members that parse as numbers, by value. */
    function GetSubscribers(): (r: seq<int>)
      reads this
      ensures |r| <= SubscriberCount()
    {
      ParseMembers(members)
    }

    /** `isSubscribed`: SISMEMBER of the id's decimal string. */
    function IsSubscribed(chatId: int): (b: bool)
      reads this
      ensures b ==> chatId in GetSubscribers()
    {
      if IntToString(chatId) in members then
        var i :| 0 <= i < |members| && members[i] == IntToString(chatId);
        JsNumberOfIntToString(chatId);
        assert Numbers(members)[i] == Some(chatId);
        ParseMembersContents(members);
        true
      else false
    }

    /** `getSubscriberCount`: SCARD. */
    function SubscriberCount(): nat
      reads this
    {
      |members|
    }
  }

  /** After adding an id it is a member and is listed by value (the string encoding round-trips). */
  lemma AddThenListed(ms: seq<string>, chatId: int)
    ensures IntToString(chatId) in AddMember(ms, IntToString(chatId))
    ensures chatId in ParseMembers(AddMember(ms, IntToString(chatId)))
  {
    var r := AddMember(ms, IntToString(chatId));
    var i :| 0 <= i < |r| && r[i] == IntToString(chatId);
    JsNumberOfIntToString(chatId);
    ParseMembersContents(r);
  }

  /** SADD adds one to SCARD exactly when the member was new. */
  lemma AddCount(ms: seq<string>, m: string)
    ensures |AddMember(ms, m)| == if m in ms then |ms| else |ms| + 1
  {
  }

  /** SREM takes one from SCARD exactly when the member was there. */
  lemma {:induction false} RemoveCount(ms: seq<string>, m: string)
    requires Distinct(ms)
    ensures |RemoveMember(ms, m)| == if m in ms then |ms| - 1 else |ms|
  {
    if ms != [] {
      assert Distinct(ms[1..]);
      RemoveCount(ms[1..], m);
      assert m in ms <==> m == ms[0] || m in ms[1..];
      if m == ms[0] {
        assert m !in ms[1..];
      }
    }
  }

  /** Adding an id already present leaves the set as it was. */
  lemma AddExistingIsIdentity(ms: seq<string>, chatId: int)
    requires IntToString(chatId) in ms
    ensures AddMember(ms, IntToString(chatId)) == ms
  {
  }

  /** After removing an id it is no longer a member and every other member stays. */
  lemma RemoveThenAbsent(ms: seq<string>, chatId: int, other: string)
    ensures IntToString(chatId) !in RemoveMember(ms, IntToString(chatId))
    ensures other != IntToString(chatId) ==> (other in RemoveMember(ms, IntToString(chatId)) <==> other in ms)
  {
  }
}
