/**
 * Hand-written scanners for the few regular expressions the Telegram page
 * scrapers use. Every one of them has the shape
 *
 *     prefix  digits (sep digits)* or +  tail
 *
 * matched case-insensitively, where the tail is `\s+(?:subscribers|members)`,
 * that followed by `"`, or a lone `"`. Because a separator class never
 * contains a digit, a digit run can only be taken whole, and because a tail
 * never starts with a digit, the greedy chain of groups is the only one that
 * can be followed by the tail; so a match at a position is decided without
 * backtracking. Case folding of a non-unicode JavaScript regular expression
 * never maps a non-ASCII character onto an ASCII letter, so ASCII lowering
 * is exact for these ASCII patterns.
 */
module PageScan {
  import opened Wrappers
  import opened Text

  /** Which characters separate digit groups: none, `\s`, `,` or `[\s,]`. */
  datatype Sep = NoSep | Space | Comma | SpaceOrComma

  predicate IsSep(sep: Sep, c: char) {
    match sep
    case NoSep => false
    case Space => IsSpace(c)
    case Comma => c == ','
    case SpaceOrComma => IsSpace(c) || c == ','
  }

  /** What must follow the digits: `\s+(?:subscribers|members)`, that and `"`, or `"`. */
  datatype Tail = Word | QuotedWord | Quote

  /**
   * A pattern: a lower-case literal prefix, the group separator, whether at
   * least one further group is required (`+`) rather than allowed (`*`),
   * and the tail.
   */
  datatype Pattern = Pattern(prefix: string, sep: Sep, grouped: bool, tail: Tail)

  /** `"subscriberCount":"(\d+)"`, the meta-data fallback both scrapers share. */
  const SubscriberCountMeta := Pattern("\"subscribercount\":\"", NoSep, false, Quote)

  /** The public channel page as fetched: the request threw, or a response with its `ok` flag and text. */
  datatype Page = Unreachable | Page(ok: bool, html: string)

  /**
   * The page requested for a configured channel name: `https://t.me/` and
   * the name with its first '@' removed; an unset or empty name requests nothing.
   */
  function ChannelPageUrl(channel: Option<string>): (r: Option<string>)
    ensures r.Some? <==> channel.Some? && channel.value != ""
  {
    if channel.None? || channel.value == "" then None
    else Some("https://t.me/" + ReplaceFirst(channel.value, "@", ""))
  }

  /** Only the first '@' goes: `@name` requests `https://t.me/name` whatever `name` holds. */
  lemma ChannelPageUrlDropsFirstAt(name: string)
    ensures ChannelPageUrl(Some("@" + name)) == Some("https://t.me/" + name)
  {
    var s := "@" + name;
    assert OccursAt(s, "@", 0);
    assert s[..0] + "" + s[1..] == name;
  }

  /** A name without '@' is used as it is. */
  lemma ChannelPageUrlPlainName(name: string)
    requires name != "" && forall k :: 0 <= k < |name| ==> name[k] != '@'
    ensures ChannelPageUrl(Some(name)) == Some("https://t.me/" + name)
  {
    IndexOfAbsentChar(name, '@', 0);
    assert "@" == ['@'];
  }

  /** A match: where it starts, the digits captured (separators included) and where it ends. */
  datatype Match = Match(start: nat, capture: string, end: nat)

  predicate DigitsOrSep(c: string, sep: Sep) {
    forall k :: 0 <= k < |c| ==> IsDigit(c[k]) || IsSep(sep, c[k])
  }

  /** `word` occurs at `k`, ignoring the case of ASCII letters; `word` is lower case. */
  predicate LowerAt(s: string, k: nat, word: string) {
    k + |word| <= |s| && Lower(s[k..k + |word|]) == word
  }

  /** The end of the maximal run of digits starting at `i`. */
  function DigitRunEnd(s: string, i: nat): (e: nat)
    requires i <= |s|
    ensures i <= e <= |s|
    ensures forall k :: i <= k < e ==> IsDigit(s[k])
    ensures e < |s| ==> !IsDigit(s[e])
    decreases |s| - i
  {
    if i < |s| && IsDigit(s[i]) then DigitRunEnd(s, i + 1) else i
  }

  /** The end of the maximal run of white space starting at `j`. */
  function SpaceRunEnd(s: string, j: nat): (e: nat)
    requires j <= |s|
    ensures j <= e <= |s|
    ensures forall k :: j <= k < e ==> IsSpace(s[k])
    ensures e < |s| ==> !IsSpace(s[e])
    decreases |s| - j
  {
    if j < |s| && IsSpace(s[j]) then SpaceRunEnd(s, j + 1) else j
  }

  /**
   * The end of the chain of groups after a group ending at `e`: another
   * group follows while one separator and a digit come next.
   */
  function ChainEnd(s: string, sep: Sep, e: nat): (r: nat)
    requires 0 < e <= |s| && IsDigit(s[e - 1])
    ensures e <= r <= |s| && IsDigit(s[r - 1])
    ensures forall k :: e <= k < r ==> IsDigit(s[k]) || IsSep(sep, s[k])
    ensures !(r + 1 < |s| && IsSep(sep, s[r]) && IsDigit(s[r + 1]))
    decreases |s| - e
  {
    if e + 1 < |s| && IsSep(sep, s[e]) && IsDigit(s[e + 1]) then ChainEnd(s, sep, DigitRunEnd(s, e + 1))
    else e
  }

  /** `\s+(?:subscribers|members)` at `j`, giving the index after the word. */
  function MembersWordAt(s: string, j: nat): (r: Option<nat>)
    requires j <= |s|
    ensures r.Some? ==> j < r.value <= |s|
  {
    var w := SpaceRunEnd(s, j);
    if w == j then None
    else if LowerAt(s, w, "subscribers") then Some(w + 11)
    else if LowerAt(s, w, "members") then Some(w + 7)
    else None
  }

  function TailAt(s: string, j: nat, tail: Tail): (r: Option<nat>)
    requires j <= |s|
    ensures r.Some? ==> j < r.value <= |s|
  {
    match tail
    case Word => MembersWordAt(s, j)
    case QuotedWord =>
      (match MembersWordAt(s, j)
       case Some(k) => if k < |s| && s[k] == '"' then Some(k + 1) else None
       case None => None)
    case Quote => if j < |s| && s[j] == '"' then Some(j + 1) else None
  }

  /**
   * Where the digit groups of `p` end when the prefix and a first digit
   * stand at `i`; a grouped pattern needs at least two groups.
   */
  function GroupsEnd(s: string, p: Pattern, i: nat): (r: Option<nat>)
    requires i <= |s|
    ensures r.Some? ==> var d := i + |p.prefix|;
      && d < r.value <= |s| && IsDigit(s[d]) && IsDigit(s[r.value - 1])
      && forall k :: d <= k < r.value ==> IsDigit(s[k]) || IsSep(p.sep, s[k])
  {
    var d := i + |p.prefix|;
    if !LowerAt(s, i, p.prefix) || !(d < |s| && IsDigit(s[d])) then None
    else
      var first := DigitRunEnd(s, d);
      var e := ChainEnd(s, p.sep, first);
      if p.grouped && e == first then None else Some(e)
  }

  /** The slice between two digits over which only digits and separators stand. */
  lemma CaptureOf(s: string, sep: Sep, d: nat, e: nat)
    requires d < e <= |s| && IsDigit(s[d]) && IsDigit(s[e - 1])
    requires forall k :: d <= k < e ==> IsDigit(s[k]) || IsSep(sep, s[k])
    ensures var c := s[d..e]; |c| > 0 && IsDigit(c[0]) && IsDigit(c[|c| - 1]) && DigitsOrSep(c, sep)
  {
    var c := s[d..e];
    forall k | 0 <= k < |c| ensures IsDigit(c[k]) || IsSep(sep, c[k]) {
      assert c[k] == s[d + k];
    }
  }

  /** The groups found at `i` form a capture of digits and separators, from a digit to a digit. */
  lemma GroupsCapture(s: string, p: Pattern, i: nat, e: nat)
    requires i <= |s| && GroupsEnd(s, p, i) == Some(e)
    ensures i + |p.prefix| < e <= |s|
    ensures var c := s[i + |p.prefix|..e]; |c| > 0 && IsDigit(c[0]) && IsDigit(c[|c| - 1]) && DigitsOrSep(c, p.sep)
  {
    CaptureOf(s, p.sep, i + |p.prefix|, e);
  }

  /** The match of `p` starting exactly at `i`, if there is one. */
  function MatchAt(s: string, p: Pattern, i: nat): (r: Option<Match>)
    requires i <= |s|
    ensures r.Some? ==> r.value.start == i && i < r.value.end <= |s|
    ensures r.Some? ==> var c := r.value.capture;
      && |c| > 0 && IsDigit(c[0]) && IsDigit(c[|c| - 1]) && DigitsOrSep(c, p.sep)
      && i + |p.prefix| + |c| <= |s| && c == s[i + |p.prefix|..i + |p.prefix| + |c|]
  {
    match GroupsEnd(s, p, i)
    case None => None
    case Some(e) =>
      match TailAt(s, e, p.tail)
      case None => None
      case Some(end) =>
        GroupsCapture(s, p, i, e);
        Some(Match(i, s[i + |p.prefix|..e], end))
  }

  /** `s.match(p)` from `from` on: the leftmost match. */
  function FirstMatch(s: string, p: Pattern, from: nat): (r: Option<Match>)
    requires from <= |s|
    ensures r.Some? ==> from <= r.value.start < r.value.end <= |s| && MatchAt(s, p, r.value.start) == r
    ensures r.Some? ==> DigitsOrSep(r.value.capture, p.sep) && |r.value.capture| > 0
    ensures forall k :: from <= k <= |s| && (r.None? || k < r.value.start) ==> MatchAt(s, p, k).None?
    decreases |s| - from
  {
    match MatchAt(s, p, from)
    case Some(m) => Some(m)
    case None => if from == |s| then None else FirstMatch(s, p, from + 1)
  }

  /**
   * Matches as a global search returns them: non-empty digit captures,
   * inside `[from, n]`, each ending before the next starts.
   */
  predicate Scanned(ms: seq<Match>, sep: Sep, from: nat, n: nat) {
    && (forall i :: 0 <= i < |ms| ==> DigitsOrSep(ms[i].capture, sep) && |ms[i].capture| > 0)
    && (forall i :: 0 <= i < |ms| ==> from <= ms[i].start < ms[i].end <= n)
    && (forall i, j :: 0 <= i < j < |ms| ==> ms[i].end <= ms[j].start)
  }

  lemma ScannedCons(m: Match, rest: seq<Match>, sep: Sep, from: nat, n: nat)
    requires DigitsOrSep(m.capture, sep) && |m.capture| > 0 && from <= m.start < m.end <= n
    requires Scanned(rest, sep, m.end, n)
    ensures Scanned([m] + rest, sep, from, n)
  {
    var r := [m] + rest;
    assert forall i :: 1 <= i < |r| ==> r[i] == rest[i - 1];
  }

  /**
   * `s.match(p)` with the global flag: the search tries each position from
   * `from` on and, after a match, resumes where that match ended.
   */
  function AllMatches(s: string, p: Pattern, from: nat): (r: seq<Match>)
    requires from <= |s|
    ensures Scanned(r, p.sep, from, |s|)
    decreases |s| - from
  {
    match MatchAt(s, p, from)
    case Some(m) =>
      var rest := AllMatches(s, p, m.end);
      ScannedCons(m, rest, p.sep, from, |s|);
      [m] + rest
    case None => if from == |s| then [] else AllMatches(s, p, from + 1)
  }

  /** `capture.replace(cls, '')` with the global flag: every character of the class removed. */
  function Remove(c: string, cls: Sep): (r: string)
    ensures |r| <= |c|
    ensures DigitsOrSep(c, cls) ==> AllDigits(r)
  {
    if c == [] then []
    else
      var rest := Remove(c[1..], cls);
      assert DigitsOrSep(c, cls) ==> DigitsOrSep(c[1..], cls) by {
        if DigitsOrSep(c, cls) {
          forall k | 0 <= k < |c[1..]| ensures IsDigit(c[1..][k]) || IsSep(cls, c[1..][k]) {
            assert c[1..][k] == c[k + 1];
          }
        }
      }
      if IsSep(cls, c[0]) then rest else [c[0]] + rest
  }

  /** The number a capture stands for once the characters of `cls` are removed: `parseInt(cleaned, 10)`. */
  function Count(c: string, cls: Sep): nat
    requires DigitsOrSep(c, cls)
  {
    DigitsValue(Remove(c, cls))
  }

  lemma {:induction false} RemoveAppend(x: string, y: string, cls: Sep)
    ensures Remove(x + y, cls) == Remove(x, cls) + Remove(y, cls)
  {
    if x != [] {
      var h, t := x[0], x[1..];
      ConsSplit(x, y);
      RemoveCons(h, t + y, cls);
      RemoveCons(h, t, cls);
      RemoveAppend(t, y, cls);
      Associative(if IsSep(cls, h) then [] else [h], Remove(t, cls), Remove(y, cls));
    } else {
      assert x + y == y;
    }
  }

  lemma ConsSplit<T>(x: seq<T>, y: seq<T>)
    requires x != []
    ensures x == [x[0]] + x[1..] && x + y == [x[0]] + (x[1..] + y)
  {
  }

  lemma Associative<T>(a: seq<T>, b: seq<T>, c: seq<T>)
    ensures a + (b + c) == (a + b) + c
  {
  }

  lemma RemoveCons(h: char, t: string, cls: Sep)
    ensures Remove([h] + t, cls) == (if IsSep(cls, h) then [] else [h]) + Remove(t, cls)
  {
    assert ([h] + t)[0] == h && ([h] + t)[1..] == t;
  }

  /** A string of digits has nothing to remove. */
  lemma {:induction false} RemoveNothing(x: string, cls: Sep)
    requires AllDigits(x)
    ensures Remove(x, cls) == x
  {
    if x != [] {
      assert !IsSep(cls, x[0]);
      RemoveNothing(x[1..], cls);
    }
  }

  /** The cleaned capture is a non-empty digit string, and `parseInt` gives `Count`. */
  lemma CountIsParseInt(c: string, cls: Sep)
    requires DigitsOrSep(c, cls) && |c| > 0 && IsDigit(c[0])
    ensures var d := Remove(c, cls); |d| > 0 && JsParseInt(d) == Some(Count(c, cls))
  {
    assert c == [c[0]] + c[1..];
    RemoveAppend([c[0]], c[1..], cls);
    assert !IsSep(cls, c[0]);
    assert Remove([c[0]], cls) == [c[0]];
    JsParseIntOfDigits(Remove(c, cls));
  }

  lemma {:induction false} DigitRunEndIs(s: string, i: nat, j: nat)
    requires i <= j <= |s|
    requires forall k :: i <= k < j ==> IsDigit(s[k])
    requires j < |s| ==> !IsDigit(s[j])
    ensures DigitRunEnd(s, i) == j
    decreases j - i
  {
    if i < j {
      DigitRunEndIs(s, i + 1, j);
    }
  }

  /** The leftmost match is the one at `j` when nothing matches in `[from, j)`. */
  lemma FirstMatchIs(s: string, p: Pattern, from: nat, j: nat)
    requires from <= j <= |s|
    requires forall k :: from <= k < j ==> MatchAt(s, p, k).None?
    requires MatchAt(s, p, j).Some?
    ensures FirstMatch(s, p, from) == MatchAt(s, p, j)
  {
  }

  /** A group followed by a space and a letter ends the chain. */
  lemma ChainStops(s: string, sep: Sep, e: nat)
    requires 0 < e && e + 1 < |s| && IsDigit(s[e - 1]) && !IsDigit(s[e + 1])
    ensures ChainEnd(s, sep, e) == e
  {
  }

  /** " members" at `e` is the `Word` tail. */
  lemma MembersWord(s: string, e: nat)
    requires e + 8 <= |s| && s[e..e + 8] == " members"
    ensures TailAt(s, e, Word) == Some(e + 8)
  {
    assert s[e] == s[e..e + 8][0] && s[e + 1] == s[e..e + 8][1];
    assert SpaceRunEnd(s, e + 1) == e + 1;
    assert SpaceRunEnd(s, e) == e + 1;
    if e + 1 + 11 <= |s| {
      assert Lower(s[e + 1..e + 12])[0] == LowerChar(s[e + 1]);
    }
    assert s[e + 1..e + 8] == "members";
    LowerOfLowercase("members");
  }

  /** White space followed by a digit is not the `Word` tail. */
  lemma NoWordBeforeDigit(s: string, j: nat, w: nat)
    requires j <= w < |s| && SpaceRunEnd(s, j) == w && IsDigit(s[w])
    ensures TailAt(s, j, Word).None?
  {
    if w + 11 <= |s| {
      assert Lower(s[w..w + 11])[0] == LowerChar(s[w]);
    }
    if w + 7 <= |s| {
      assert Lower(s[w..w + 7])[0] == LowerChar(s[w]);
    }
  }

  /** A digit run ended by " members" meets the `Word` tail there, and no further group. */
  lemma MembersAfter(s: string, sep: Sep, e: nat)
    requires 0 < e && e + 8 <= |s| && IsDigit(s[e - 1]) && s[e..e + 8] == " members"
    ensures ChainEnd(s, sep, e) == e
    ensures TailAt(s, e, Word) == Some(e + 8)
  {
    assert s[e + 1] == s[e..e + 8][1];
    ChainStops(s, sep, e);
    MembersWord(s, e);
  }

  /** One more group: a separator and a digit follow the group ending at `e`. */
  lemma ChainStep(s: string, sep: Sep, e: nat)
    requires 0 < e && e + 1 < |s| && IsDigit(s[e - 1]) && IsSep(sep, s[e]) && IsDigit(s[e + 1])
    ensures ChainEnd(s, sep, e) == ChainEnd(s, sep, DigitRunEnd(s, e + 1))
  {
  }

  /** The groups at `i` when the chain is known. */
  lemma GroupsEndIs(s: string, p: Pattern, i: nat, e: nat)
    requires i + |p.prefix| < |s| && LowerAt(s, i, p.prefix) && IsDigit(s[i + |p.prefix|])
    requires var first := DigitRunEnd(s, i + |p.prefix|);
      ChainEnd(s, p.sep, first) == e && !(p.grouped && e == first)
    ensures GroupsEnd(s, p, i) == Some(e)
  {
  }

  /** The match at `i` when the groups and the tail are known. */
  lemma MatchAtIs(s: string, p: Pattern, i: nat, e: nat, end: nat)
    requires i <= |s| && GroupsEnd(s, p, i) == Some(e) && TailAt(s, e, p.tail) == Some(end)
    ensures MatchAt(s, p, i) == Some(Match(i, s[i + |p.prefix|..e], end))
  {
  }

  /** No match at `i` when `p` has no prefix and a non-digit stands there. */
  lemma NoMatchAtNonDigit(s: string, p: Pattern, i: nat)
    requires p.prefix == "" && i <= |s| && (i < |s| ==> !IsDigit(s[i]))
    ensures MatchAt(s, p, i).None?
  {
  }

  /** No match at `i` when a required second group is missing. */
  lemma NoMatchUngrouped(s: string, p: Pattern, i: nat)
    requires p.prefix == "" && p.grouped && i < |s| && IsDigit(s[i])
    requires ChainEnd(s, p.sep, DigitRunEnd(s, i)) == DigitRunEnd(s, i)
    ensures MatchAt(s, p, i).None?
  {
  }

  /** No match at `i` when the tail fails after the chain. */
  lemma NoMatchTail(s: string, p: Pattern, i: nat, e: nat)
    requires p.prefix == "" && i < |s| && IsDigit(s[i])
    requires ChainEnd(s, p.sep, DigitRunEnd(s, i)) == e && TailAt(s, e, p.tail).None?
    ensures MatchAt(s, p, i).None?
  {
  }

  /** A lone digit run followed by " members" is a match of an ungrouped `Word` pattern with no prefix. */
  lemma SingleGroupMatch(s: string, p: Pattern, d: nat, e: nat)
    requires p.prefix == "" && !p.grouped && p.tail == Word
    requires d < e && e + 8 <= |s| && s[e..e + 8] == " members" && DigitRunEnd(s, d) == e
    ensures MatchAt(s, p, d) == Some(Match(d, s[d..e], e + 8))
  {
    MembersAfter(s, p.sep, e);
    GroupsEndIs(s, p, d, e);
    MatchAtIs(s, p, d, e, e + 8);
  }

  /** Nothing matches `p` at a position before `j`. */
  predicate NoMatchBefore(s: string, p: Pattern, j: nat)
    requires j <= |s|
  {
    forall k :: 0 <= k < j ==> MatchAt(s, p, k).None?
  }

  /** The lone digit run of `SingleGroupMatch` is the leftmost match when nothing matches before it. */
  lemma FirstSingleGroup(s: string, p: Pattern, d: nat, e: nat)
    requires p.prefix == "" && !p.grouped && p.tail == Word
    requires d < e && e + 8 <= |s| && s[e..e + 8] == " members" && DigitRunEnd(s, d) == e
    requires NoMatchBefore(s, p, d)
    ensures FirstMatch(s, p, 0) == Some(Match(d, s[d..e], e + 8))
  {
    SingleGroupMatch(s, p, d, e);
    FirstMatchIs(s, p, 0, d);
  }

  lemma RemoveSeparator(c: char, cls: Sep)
    requires IsSep(cls, c)
    ensures Remove([c], cls) == []
  {
    assert [c][1..] == [];
  }

  /** The shape of `a + [c] + b + " members"`, with digit strings `a` and `b`. */
  lemma Layout(a: string, c: char, b: string)
    requires |a| > 0 && |b| > 0 && AllDigits(a) && AllDigits(b) && !IsDigit(c)
    ensures var html := a + [c] + b + " members"; var e := |a| + 1 + |b|;
      && |html| == e + 8
      && (forall k :: 0 <= k < |a| ==> html[k] == a[k])
      && html[|a|] == c
      && (forall k :: 0 <= k < |b| ==> html[|a| + 1 + k] == b[k])
      && html[e..e + 8] == " members"
      && (forall k :: e <= k < e + 8 ==> !IsDigit(html[k]))
      && DigitRunEnd(html, 0) == |a| && DigitRunEnd(html, |a| + 1) == e
  {
    var html := a + [c] + b + " members";
    var e := |a| + 1 + |b|;
    assert html[e..e + 8] == " members";
    assert forall k :: e <= k < e + 8 ==> html[k] == " members"[k - e];
    DigitRunEndIs(html, 0, |a|);
    DigitRunEndIs(html, |a| + 1, e);
  }

  lemma RemoveSplit(a: string, c: char, b: string, cls: Sep)
    ensures Remove(a + [c] + b, cls) == Remove(a, cls) + Remove([c], cls) + Remove(b, cls)
  {
    RemoveAppend(a + [c], b, cls);
    RemoveAppend(a, [c], cls);
  }

  lemma RemoveParts(a: string, c: char, b: string, cls: Sep)
    requires AllDigits(a) && AllDigits(b) && IsSep(cls, c)
    ensures Remove(a, cls) + Remove([c], cls) + Remove(b, cls) == a + b
  {
    RemoveNothing(a, cls);
    RemoveNothing(b, cls);
    RemoveSeparator(c, cls);
    calc {
      Remove(a, cls) + Remove([c], cls) + Remove(b, cls);
      a + [] + b;
      { assert a + [] == a; }
      a + b;
    }
  }

  /** Removing the separator of `a + [c] + b` leaves the digits `a + b`. */
  lemma RemoveJoined(a: string, c: char, b: string, cls: Sep)
    requires AllDigits(a) && AllDigits(b) && IsSep(cls, c)
    ensures Remove(a + [c] + b, cls) == a + b
  {
    RemoveSplit(a, c, b, cls);
    RemoveParts(a, c, b, cls);
  }
}
