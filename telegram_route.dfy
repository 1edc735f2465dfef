/**
 * The Telegram route: `GET` scrapes the public page of the configured
 * channel for its member count and answers with the count, or with a 500
 * error when no channel is configured or no count can be read.
 */
module TelegramRoute {
  import opened Wrappers
  import opened Text
  import opened PageScan

  /** `(\d+(?:,\d+)*)\s+(?:subscribers|members)`: comma groups, allowed but not required. */
  const Primary := Pattern("", Comma, false, Word)

  /** `data-before="(\d+(?:,\d+)*)\s+(?:subscribers|members)"`. */
  const DataBefore := Pattern("data-before=\"", Comma, false, QuotedWord)

  /** A capture with every comma removed, read by `parseInt(count, 10)`. */
  function Cleaned(m: Match): (n: nat)
    requires DigitsOrSep(m.capture, Comma)
  {
    Count(m.capture, Comma)
  }

  /** The meta-data fallback: the quoted `subscriberCount`, else the `data-before` attribute. */
  function MetaMatch(html: string): (r: Option<Match>)
    ensures r.Some? ==> DigitsOrSep(r.value.capture, Comma) && |r.value.capture| > 0
    ensures r.None? <==> FirstMatch(html, SubscriberCountMeta, 0).None? && FirstMatch(html, DataBefore, 0).None?
  {
    match FirstMatch(html, SubscriberCountMeta, 0)
    case Some(m) =>
      assert DigitsOrSep(m.capture, NoSep);
      assert DigitsOrSep(m.capture, Comma) by {
        forall k | 0 <= k < |m.capture| ensures IsDigit(m.capture[k]) || IsSep(Comma, m.capture[k]) {
          assert IsDigit(m.capture[k]) || IsSep(NoSep, m.capture[k]);
        }
      }
      Some(m)
    case None => FirstMatch(html, DataBefore, 0)
  }

  /**
   * The count read from a fetched page: the first primary match wins, and
   * the meta data is consulted only when there is none.
   */
  function ExtractMembers(html: string): (r: Option<nat>)
    ensures FirstMatch(html, Primary, 0).Some? ==> r == Some(Cleaned(FirstMatch(html, Primary, 0).value))
    ensures FirstMatch(html, Primary, 0).None? && MetaMatch(html).Some? ==> r == Some(Cleaned(MetaMatch(html).value))
    ensures r.None? <==> FirstMatch(html, Primary, 0).None? && MetaMatch(html).None?
  {
    match FirstMatch(html, Primary, 0)
    case Some(m) => Some(Cleaned(m))
    case None =>
      match MetaMatch(html)
      case Some(m) => Some(Cleaned(m))
      case None => None
  }

  /**
   * `getChannelMembersFromPublicPage`: null when the request throws (a
   * time-out included) or the response is not ok, else the count the page yields.
   */
  function PublicPageMembers(page: Page): (r: Option<nat>)
    ensures r.Some? <==> page.Page? && page.ok && ExtractMembers(page.html).Some?
    ensures r.Some? ==> r == ExtractMembers(page.html)
  {
    if page.Unreachable? || !page.ok then None else ExtractMembers(page.html)
  }

  /** The body and status `GET` answers with. */
  datatype Reply =
    | Failure(status: nat, error: string)
    | Success(membersCount: nat, username: string)

  const NotConfigured := "Telegram channel not configured"
  const NoCount := "Could not fetch member count"

  /**
   * `GET`: `channel` is `TELEGRAM_CHANNEL_USERNAME` and `page` what the
   * request to `ChannelPageUrl(channel)` returned; without a channel no
   * request is made and `page` plays no part.
   */
  function Get(channel: Option<string>, page: Page): (r: Reply)
    ensures ChannelPageUrl(channel).None? ==> r == Failure(500, NotConfigured)
    ensures r.Success? <==> ChannelPageUrl(channel).Some? && PublicPageMembers(page).Some?
    ensures r.Success? ==>
      r.membersCount == PublicPageMembers(page).value && r.username == ReplaceFirst(channel.value, "@", "")
    ensures r.Failure? ==> r.status == 500
  {
    if ChannelPageUrl(channel).None? then Failure(500, NotConfigured)
    else
      match PublicPageMembers(page)
      case None => Failure(500, NoCount)
      case Some(n) => Success(n, ReplaceFirst(channel.value, "@", ""))
  }

  /** The answer does not depend on the page when no channel is configured. */
  lemma UnconfiguredFetchesNothing(channel: Option<string>, p: Page, q: Page)
    requires channel.None? || channel == Some("")
    ensures Get(channel, p) == Get(channel, q) == Failure(500, NotConfigured)
  {
  }

  /** A configured channel whose page yields no count answers 500 "Could not fetch member count". */
  lemma NoCountIsServerError(name: string, page: Page)
    requires name != "" && PublicPageMembers(page).None?
    ensures Get(Some(name), page) == Failure(500, NoCount)
  {
  }

  /** The reported count is `parseInt` of the cleaned capture of the winning pattern. */
  lemma ExtractedIsParseInt(html: string)
    requires ExtractMembers(html).Some?
    ensures var m := if FirstMatch(html, Primary, 0).Some? then FirstMatch(html, Primary, 0).value
                     else MetaMatch(html).value;
      DigitsOrSep(m.capture, Comma) && JsParseInt(Remove(m.capture, Comma)) == ExtractMembers(html)
  {
    var m := if FirstMatch(html, Primary, 0).Some? then FirstMatch(html, Primary, 0).value
             else MetaMatch(html).value;
    assert IsDigit(m.capture[0]) by {
      if FirstMatch(html, Primary, 0).Some? {
        assert MatchAt(html, Primary, m.start) == Some(m);
      } else if FirstMatch(html, SubscriberCountMeta, 0).Some? {
        assert MatchAt(html, SubscriberCountMeta, m.start) == Some(m);
      } else {
        assert MatchAt(html, DataBefore, m.start) == Some(m);
      }
    }
    CountIsParseInt(m.capture, Comma);
  }

  /** No match of the primary pattern starts inside `a` or at the space of `a + " " + b + " members"`. */
  lemma PrimaryMissesFirstGroup(html: string, a: string, b: string)
    requires |a| > 0 && |b| > 0 && AllDigits(a) && AllDigits(b) && html == a + [' '] + b + " members"
    ensures NoMatchBefore(html, Primary, |a| + 1)
  {
    Layout(a, ' ', b);
    assert SpaceRunEnd(html, |a| + 1) == |a| + 1;
    assert SpaceRunEnd(html, |a|) == |a| + 1;
    NoWordBeforeDigit(html, |a|, |a| + 1);
    assert ChainEnd(html, Comma, |a|) == |a|;
    forall k | 0 <= k <= |a| ensures MatchAt(html, Primary, k).None? {
      if k < |a| {
        DigitRunEndIs(html, k, |a|);
        NoMatchTail(html, Primary, k, |a|);
      } else {
        NoMatchAtNonDigit(html, Primary, k);
      }
    }
  }

  /** Where the last group of `a + " " + b + " members"` stands, and that nothing matches before it. */
  lemma LastGroupStands(html: string, a: string, b: string)
    requires |a| > 0 && |b| > 0 && AllDigits(a) && AllDigits(b) && html == a + [' '] + b + " members"
    ensures var d, e := |a| + 1, |a| + 1 + |b|;
      && e + 8 <= |html| && html[d..e] == b && DigitRunEnd(html, d) == e && html[e..e + 8] == " members"
      && NoMatchBefore(html, Primary, d)
  {
    Layout(a, ' ', b);
    assert html[|a| + 1..|a| + 1 + |b|] == b;
    PrimaryMissesFirstGroup(html, a, b);
  }

  /**
   * The primary pattern knows no space groups: "1 120 members" reads as
   * 120, the last group alone.
   */
  lemma SpaceGroupedReadsLastGroup(a: string, b: string)
    requires |a| > 0 && |b| > 0 && AllDigits(a) && AllDigits(b)
    ensures var m := FirstMatch(a + " " + b + " members", Primary, 0);
      m.Some? && m.value.capture == b && Cleaned(m.value) == DigitsValue(b)
  {
    var html := a + " " + b + " members";
    assert html == a + [' '] + b + " members";
    LastGroupStands(html, a, b);
    FirstSingleGroup(html, Primary, |a| + 1, |a| + 1 + |b|);
    RemoveNothing(b, Comma);
  }

  /** The comma-grouped number at the start of `a + "," + b + " members"` matches there. */
  lemma PrimaryMatchesCommaGroups(html: string, a: string, b: string)
    requires |a| > 0 && |b| > 0 && AllDigits(a) && AllDigits(b) && html == a + [','] + b + " members"
    ensures MatchAt(html, Primary, 0) == Some(Match(0, a + [','] + b, |html|))
  {
    var e := |a| + 1 + |b|;
    Layout(a, ',', b);
    MembersAfter(html, Comma, e);
    ChainStep(html, Comma, |a|);
    GroupsEndIs(html, Primary, 0, e);
    MatchAtIs(html, Primary, 0, e, e + 8);
    assert html[0..e] == a + [','] + b;
  }

  /** "1,120 members" reads as 1120: the comma is removed before parsing. */
  lemma CommaGroupedReadsWhole(a: string, b: string)
    requires |a| > 0 && |b| > 0 && AllDigits(a) && AllDigits(b)
    ensures ExtractMembers(a + "," + b + " members") == Some(DigitsValue(a + b))
  {
    var html := a + "," + b + " members";
    assert html == a + [','] + b + " members";
    PrimaryMatchesCommaGroups(html, a, b);
    FirstMatchIs(html, Primary, 0, 0);
    RemoveJoined(a, ',', b, Comma);
  }
}
