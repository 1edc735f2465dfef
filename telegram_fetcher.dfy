/**
 * `fetchTelegramStats`: read the member count of the public channel page,
 * trying four extraction rules in a fixed order and taking the first that
 * yields a number.
 */
module TelegramFetcher {
  import opened Wrappers
  import opened Text
  import opened PageScan
  import Fetchers

  /** `(\d+(?:\s\d+)+)\s+(?:subscribers|members)`, e.g. "1 120 members". */
  const SpaceGrouped := Pattern("", Space, true, Word)

  /** `(\d+(?:,\d+)+)\s+(?:subscribers|members)`, e.g. "1,120 members". */
  const CommaGrouped := Pattern("", Comma, true, Word)

  /** `(\d+)\s+(?:subscribers|members)`, searched globally. */
  const PlainNumber := Pattern("", NoSep, false, Word)

  /** `data-before="(\d+(?:[\s,]\d+)*)\s+(?:subscribers|members)"`. */
  const DataBefore := Pattern("data-before=\"", SpaceOrComma, false, QuotedWord)

  /** The number each plain match stands for. */
  function Numbers(ms: seq<Match>): (r: seq<nat>)
    requires forall i :: 0 <= i < |ms| ==> DigitsOrSep(ms[i].capture, NoSep)
    ensures |r| == |ms| && forall i :: 0 <= i < |ms| ==> r[i] == Count(ms[i].capture, NoSep)
  {
    seq(|ms|, i requires 0 <= i < |ms| => Count(ms[i].capture, NoSep))
  }

  /** `filter(n => n > 0)`: the positive numbers, in order. */
  function Positive(ns: seq<nat>): (r: seq<nat>)
    ensures |r| <= |ns|
    ensures forall j :: 0 <= j < |r| ==> r[j] > 0 && r[j] in ns
    ensures forall i :: 0 <= i < |ns| && ns[i] > 0 ==> ns[i] in r
  {
    if ns == [] then []
    else
      var rest := Positive(ns[1..]);
      assert forall i :: 1 <= i < |ns| ==> ns[i] == ns[1..][i - 1];
      if ns[0] > 0 then
        var r := [ns[0]] + rest;
        assert forall j :: 1 <= j < |r| ==> r[j] == rest[j - 1];
        r
      else rest
  }

  /** `Math.max(...ns)`. */
  function Max(ns: seq<nat>): (m: nat)
    requires ns != []
    ensures m in ns && forall i :: 0 <= i < |ns| ==> ns[i] <= m
  {
    if |ns| == 1 then ns[0]
    else
      var rest := Max(ns[1..]);
      assert forall i :: 1 <= i < |ns| ==> ns[i] == ns[1..][i - 1];
      if ns[0] >= rest then ns[0] else rest
  }

  /** The numbers in front of "members"/"subscribers" anywhere in the page. */
  function PlainNumbers(html: string): seq<nat> {
    Numbers(AllMatches(html, PlainNumber, 0))
  }

  /**
   * The plain-number rule: the largest positive number found; zeros are
   * discarded, and when no positive number is left the rule yields nothing.
   */
  function PlainCount(html: string): (r: Option<nat>)
    ensures var ns := PlainNumbers(html);
      && (r.Some? <==> exists i :: 0 <= i < |ns| && ns[i] > 0)
      && (r.Some? ==> r.value > 0 && r.value in ns && forall i :: 0 <= i < |ns| ==> ns[i] <= r.value)
  {
    var ns := Positive(PlainNumbers(html));
    if ns == [] then None else Some(Max(ns))
  }

  /** The meta-data rule: the quoted `subscriberCount`, else the `data-before` attribute. */
  function MetaCapture(html: string): Option<Match> {
    match FirstMatch(html, SubscriberCountMeta, 0)
    case Some(m) => Some(m)
    case None => FirstMatch(html, DataBefore, 0)
  }

  /**
   * The four rules in order: space-grouped, comma-grouped, largest plain
   * number, meta data. A grouped capture counts with its separators removed.
   */
  function ExtractCount(html: string): (r: Option<nat>)
    ensures r.None? <==>
      && FirstMatch(html, SpaceGrouped, 0).None? && FirstMatch(html, CommaGrouped, 0).None?
      && PlainCount(html).None? && MetaCapture(html).None?
    ensures FirstMatch(html, SpaceGrouped, 0).Some? ==>
      r == Some(Count(FirstMatch(html, SpaceGrouped, 0).value.capture, Space))
    ensures FirstMatch(html, SpaceGrouped, 0).None? && FirstMatch(html, CommaGrouped, 0).Some? ==>
      r == Some(Count(FirstMatch(html, CommaGrouped, 0).value.capture, Comma))
    ensures FirstMatch(html, SpaceGrouped, 0).None? && FirstMatch(html, CommaGrouped, 0).None? ==>
      (PlainCount(html).Some? ==> r == PlainCount(html))
    ensures && FirstMatch(html, SpaceGrouped, 0).None? && FirstMatch(html, CommaGrouped, 0).None?
            && PlainCount(html).None? && MetaCapture(html).Some? ==>
      && DigitsOrSep(MetaCapture(html).value.capture, SpaceOrComma)
      && r == Some(Count(MetaCapture(html).value.capture, SpaceOrComma))
  {
    match FirstMatch(html, SpaceGrouped, 0)
    case Some(m) => Some(Count(m.capture, Space))
    case None =>
      match FirstMatch(html, CommaGrouped, 0)
      case Some(m) => Some(Count(m.capture, Comma))
      case None =>
        match PlainCount(html)
        case Some(n) => Some(n)
        case None =>
          match MetaCapture(html)
          case Some(m) =>
            assert DigitsOrSep(m.capture, SpaceOrComma);
            Some(Count(m.capture, SpaceOrComma))
          case None => None
  }

  /**
   * The stats the fetcher resolves to: null when the channel is not
   * configured (no request is made and `page` plays no part), when the
   * request fails or is not ok, or when no rule yields a number.
   */
  function FetchTelegramStats(channel: Option<string>, page: Page): (r: Option<Fetchers.FetchedStats>)
    ensures r.Some? <==> ChannelPageUrl(channel).Some? && page.Page? && page.ok && ExtractCount(page.html).Some?
    ensures r.Some? ==> r.value == Fetchers.FetchedStats("Telegram", ExtractCount(page.html).value, None)
  {
    if ChannelPageUrl(channel).None? then None
    else if page.Unreachable? || !page.ok then None
    else
      match ExtractCount(page.html)
      case None => None
      case Some(n) => Some(Fetchers.FetchedStats("Telegram", n, None))
  }

  /** The grouped number at the start of `a + [c] + b + " members"` matches there. */
  lemma SpaceGroupedLayout(html: string, a: string, b: string)
    requires |a| > 0 && |b| > 0 && AllDigits(a) && AllDigits(b) && html == a + [' '] + b + " members"
    ensures MatchAt(html, SpaceGrouped, 0) == Some(Match(0, a + [' '] + b, |a| + 1 + |b| + 8))
  {
    var e := |a| + 1 + |b|;
    Layout(a, ' ', b);
    MembersAfter(html, Space, e);
    ChainStep(html, Space, |a|);
    GroupsEndIs(html, SpaceGrouped, 0, e);
    MatchAtIs(html, SpaceGrouped, 0, e, e + 8);
    assert html[0..e] == a + [' '] + b;
  }

  lemma SpaceGroupedFirst(html: string, a: string, b: string)
    requires |a| > 0 && |b| > 0 && AllDigits(a) && AllDigits(b) && html == a + [' '] + b + " members"
    ensures FirstMatch(html, SpaceGrouped, 0) == Some(Match(0, a + [' '] + b, |a| + 1 + |b| + 8))
  {
    SpaceGroupedLayout(html, a, b);
    FirstMatchIs(html, SpaceGrouped, 0, 0);
  }

  /** "1 120 members" style text counts every group: the digits with the space removed. */
  lemma SpaceGroupedCount(a: string, b: string)
    requires |a| > 0 && |b| > 0 && AllDigits(a) && AllDigits(b)
    ensures ExtractCount(a + " " + b + " members") == Some(DigitsValue(a + b))
  {
    assert a + " " + b + " members" == a + [' '] + b + " members";
    SpaceGroupedFirst(a + " " + b + " members", a, b);
    RemoveJoined(a, ' ', b, Space);
  }

  lemma CommaNotSpaceGrouped(a: string, b: string)
    requires |a| > 0 && |b| > 0 && AllDigits(a) && AllDigits(b)
    ensures FirstMatch(a + [','] + b + " members", SpaceGrouped, 0).None?
  {
    var html := a + [','] + b + " members";
    var e := |a| + 1 + |b|;
    Layout(a, ',', b);
    MembersAfter(html, Space, e);
    forall k | 0 <= k <= |html| ensures MatchAt(html, SpaceGrouped, k).None? {
      if k < |a| {
        DigitRunEndIs(html, k, |a|);
        NoMatchUngrouped(html, SpaceGrouped, k);
      } else if |a| < k < e {
        DigitRunEndIs(html, k, e);
        NoMatchUngrouped(html, SpaceGrouped, k);
      } else {
        NoMatchAtNonDigit(html, SpaceGrouped, k);
      }
    }
  }

  /** The grouped number at the start of `a + [c] + b + " members"` matches there. */
  lemma CommaGroupedLayout(html: string, a: string, b: string)
    requires |a| > 0 && |b| > 0 && AllDigits(a) && AllDigits(b) && html == a + [','] + b + " members"
    ensures MatchAt(html, CommaGrouped, 0) == Some(Match(0, a + [','] + b, |a| + 1 + |b| + 8))
  {
    var e := |a| + 1 + |b|;
    Layout(a, ',', b);
    MembersAfter(html, Comma, e);
    ChainStep(html, Comma, |a|);
    GroupsEndIs(html, CommaGrouped, 0, e);
    MatchAtIs(html, CommaGrouped, 0, e, e + 8);
    assert html[0..e] == a + [','] + b;
  }

  lemma CommaGroupedFirst(html: string, a: string, b: string)
    requires |a| > 0 && |b| > 0 && AllDigits(a) && AllDigits(b) && html == a + [','] + b + " members"
    ensures FirstMatch(html, CommaGrouped, 0) == Some(Match(0, a + [','] + b, |a| + 1 + |b| + 8))
  {
    CommaGroupedLayout(html, a, b);
    FirstMatchIs(html, CommaGrouped, 0, 0);
  }

  /** "1,120 members" style text is not space-grouped and counts the digits with the comma removed. */
  lemma CommaGroupedCount(a: string, b: string)
    requires |a| > 0 && |b| > 0 && AllDigits(a) && AllDigits(b)
    ensures ExtractCount(a + "," + b + " members") == Some(DigitsValue(a + b))
  {
    assert a + "," + b + " members" == a + [','] + b + " members";
    CommaNotSpaceGrouped(a, b);
    CommaGroupedFirst(a + "," + b + " members", a, b);
    RemoveJoined(a, ',', b, Comma);
  }
}
