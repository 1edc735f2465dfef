/**
 * Milestone detection: an exact-match lookup in a fixed ascending table of
 * thresholds, a "K"/"M" formatter, and the gate that lets a milestone through
 * only when it lies above the platform's stored cursor.
 */
module Milestones {
  import opened Wrappers
  import opened Text

  datatype Milestone = Milestone(value: int, formatted: string, platform: string)

  /** The notable counts, in ascending order. */
  const Thresholds: seq<int> := [
    1000, 2000, 3000, 4000, 5000, 6000, 7000, 8000, 9000, 10000,
    15000, 20000, 25000, 30000, 35000, 40000, 45000, 50000,
    75000, 100000, 150000, 200000, 250000, 500000, 750000,
    1000000, 1500000, 2000000, 2500000, 5000000, 10000000
  ]

  predicate StrictlyAscending(s: seq<int>) {
    forall i, j :: 0 <= i < j < |s| ==> s[i] < s[j]
  }

  /** Each value is below the next one. */
  predicate StepsUp(s: seq<int>) {
    forall i :: 0 <= i < |s| - 1 ==> s[i] < s[i + 1]
  }

  lemma {:induction false} StepsUpBelow(s: seq<int>, i: nat, j: nat)
    requires StepsUp(s) && i < j < |s|
    ensures s[i] < s[j]
    decreases j - i
  {
    if i + 1 < j {
      StepsUpBelow(s, i + 1, j);
    }
  }

  /** Ascending step by step is ascending throughout. */
  lemma StepsUpAscending(s: seq<int>)
    requires StepsUp(s)
    ensures StrictlyAscending(s)
  {
    forall i, j | 0 <= i < j < |s| ensures s[i] < s[j] {
      StepsUpBelow(s, i, j);
    }
  }

  lemma ThresholdTableShape()
    ensures |Thresholds| == 31 && Thresholds[0] == 1000 && Thresholds[30] == 10000000
    ensures StrictlyAscending(Thresholds)
  {
    assert StepsUp(Thresholds);
    StepsUpAscending(Thresholds);
  }

  /** The table starts at a thousand. */
  lemma ThresholdsFromAThousand(count: int)
    requires count < 1000
    ensures count !in Thresholds
  {
    ThresholdTableShape();
    forall k | 0 < k < |Thresholds| ensures Thresholds[0] < Thresholds[k] {
    }
  }

  /**
   * `formatMilestone`: whole thousands and millions print as integers; any
   * other value of a thousand or more gets one decimal, its tenths rounded
   * half up. That agrees with `toFixed(1)` on the table's values, whose
   * quotients (whole, or ending in .5) are exact in binary; for other values
   * the double's own rounding can differ (1450 / 1000 is just below 1.45).
   */
  function FormatMilestone(count: int): (r: string)
    ensures count < 1000 ==> r == IntToString(count)
    ensures count >= 1000 ==> |r| > 0 && r[|r| - 1] == (if count >= 1000000 then 'M' else 'K')
  {
    if count >= 1000000 then Scaled(count, 1000000) + "M"
    else if count >= 1000 then Scaled(count, 1000) + "K"
    else IntToString(count)
  }

  /** `count / unit` printed as an integer when exact, else with one decimal rounded half up. */
  function Scaled(count: nat, unit: nat): string
    requires unit >= 10 && unit % 10 == 0
  {
    if count % unit == 0 then NatToString(count / unit)
    else
      var tenths := (count * 10 + unit / 2) / unit;
      NatToString(tenths / 10) + "." + NatToString(tenths % 10)
  }

  /** `detectMilestone`: a milestone exactly when the count is one of the table's values. */
  function DetectMilestone(count: int): (r: Option<Milestone>)
    ensures r.Some? <==> count in Thresholds
    ensures count < 1000 ==> r.None?
    ensures r.Some? ==> r.value == Milestone(count, FormatMilestone(count), "")
  {
    if count < 1000 then
      ThresholdsFromAThousand(count);
      None
    else if count in Thresholds then Some(Milestone(count, FormatMilestone(count), ""))
    else None
  }

  /** `shouldNotifyMilestone`: the detected milestone, unless the cursor is already at or above it. */
  function ShouldNotifyMilestone(currentCount: int, lastNotified: Option<int>): (r: Option<Milestone>)
    ensures r.Some? ==> r == DetectMilestone(currentCount)
    ensures r.Some? <==> currentCount in Thresholds && (lastNotified.None? || currentCount > lastNotified.value)
  {
    var m := DetectMilestone(currentCount);
    if m.None? then None
    else if lastNotified.None? || m.value.value > lastNotified.value then m
    else None
  }

  lemma FirstCheckNotifiesDetected(count: int)
    ensures ShouldNotifyMilestone(count, None) == DetectMilestone(count)
  {
  }

  /** Re-checking the value the cursor already holds notifies nothing. */
  lemma RecheckIsSilent(v: int)
    ensures ShouldNotifyMilestone(v, Some(v)).None?
  {
  }

  /** A whole number of thousands below a million prints as that number and "K". */
  lemma FormatWholeThousands(k: nat)
    requires 1 <= k < 1000
    ensures FormatMilestone(k * 1000) == NatToString(k) + "K"
  {
    assert (k * 1000) % 1000 == 0 && (k * 1000) / 1000 == k;
  }

  /** A whole number of millions prints as that number and "M". */
  lemma FormatWholeMillions(k: nat)
    requires k >= 1
    ensures FormatMilestone(k * 1000000) == NatToString(k) + "M"
  {
    assert (k * 1000000) % 1000000 == 0 && (k * 1000000) / 1000000 == k;
  }

  /** Half a million more prints with the decimal ".5". */
  lemma FormatHalfMillions(k: nat)
    requires k >= 1
    ensures FormatMilestone(k * 1000000 + 500000) == NatToString(k) + ".5M"
  {
    HalfMillionDivMod(k);
    ScaledHalfMillion(k * 1000000 + 500000);
    assert NatToString(5) == "5";
    HalfSuffix(NatToString(k));
  }

  lemma HalfMillionDivMod(k: nat)
    ensures (k * 1000000 + 500000) % 1000000 == 500000 && (k * 1000000 + 500000) / 1000000 == k
  {
  }

  lemma HalfSuffix(a: string)
    ensures a + "." + "5" + "M" == a + ".5M"
  {
  }

  /**
   * The formatted text of a table value determines the value: reading the
   * digits back and scaling by "K" or "M" (".5" adding half a million).
   */
  function ParseFormatted(s: string): Option<int> {
    if |s| >= 2 && s[|s| - 1] == 'K' && AllDigits(s[..|s| - 1]) then
      Some(DigitsValue(s[..|s| - 1]) * 1000)
    else if |s| >= 2 && s[|s| - 1] == 'M' && AllDigits(s[..|s| - 1]) then
      Some(DigitsValue(s[..|s| - 1]) * 1000000)
    else if |s| >= 4 && s[|s| - 1] == 'M' && s[|s| - 3..|s| - 1] == ".5" && AllDigits(s[..|s| - 3]) then
      Some(DigitsValue(s[..|s| - 3]) * 1000000 + 500000)
    else None
  }

  lemma ParseWhole(n: nat, suffix: char, unit: int)
    requires suffix == 'K' || suffix == 'M'
    requires unit == if suffix == 'K' then 1000 else 1000000
    ensures ParseFormatted(NatToString(n) + [suffix]) == Some(n * unit)
  {
    var s := NatToString(n) + [suffix];
    assert s[..|s| - 1] == NatToString(n);
    NatToStringRoundTrip(n);
  }

  lemma ParseHalf(n: nat)
    ensures ParseFormatted(NatToString(n) + ".5M") == Some(n * 1000000 + 500000)
  {
    var s := NatToString(n) + ".5M";
    assert s[..|s| - 1] == NatToString(n) + ".5";
    assert !AllDigits(s[..|s| - 1]) by { assert s[..|s| - 1][|s| - 3] == '.'; }
    assert s[|s| - 3..|s| - 1] == ".5";
    assert s[..|s| - 3] == NatToString(n);
    NatToStringRoundTrip(n);
  }

  /** A whole number of thousands, and from a million on a whole or half number of millions. */
  predicate RoundShape(t: int) {
    1000 <= t && (t < 1000000 ==> t % 1000 == 0) && (t >= 1000000 ==> t % 1000000 == 0 || t % 1000000 == 500000)
  }

  lemma TableMembers(t: int)
    requires t in Thresholds
    ensures || t == 1000 || t == 2000 || t == 3000 || t == 4000 || t == 5000
            || t == 6000 || t == 7000 || t == 8000 || t == 9000 || t == 10000
            || t == 15000 || t == 20000 || t == 25000 || t == 30000 || t == 35000
            || t == 40000 || t == 45000 || t == 50000 || t == 75000 || t == 100000
            || t == 150000 || t == 200000 || t == 250000 || t == 500000 || t == 750000
            || t == 1000000 || t == 1500000 || t == 2000000 || t == 2500000
            || t == 5000000 || t == 10000000
  {
  }

  lemma TableValueShape(t: int)
    requires t in Thresholds
    ensures RoundShape(t)
  {
    TableMembers(t);
  }

  lemma ScaledHalfMillion(count: nat)
    requires count % 1000000 == 500000
    ensures Scaled(count, 1000000) == NatToString(count / 1000000) + "." + NatToString(5)
  {
    var q := count / 1000000;
    assert count == q * 1000000 + 500000;
    assert (count * 10 + 500000) / 1000000 == q * 10 + 5;
  }

  /** Formatting loses nothing on the table: the value can be read back from its text. */
  lemma FormatTableRoundTrip(t: int)
    requires t in Thresholds
    ensures ParseFormatted(FormatMilestone(t)) == Some(t)
  {
    TableValueShape(t);
    if t >= 1000000 {
      var k := t / 1000000;
      if t % 1000000 == 0 {
        assert t == k * 1000000;
        FormatWholeMillions(k);
        ParseWhole(k, 'M', 1000000);
      } else {
        assert t == k * 1000000 + 500000;
        FormatHalfMillions(k);
        ParseHalf(k);
      }
    } else {
      var k := t / 1000;
      assert t == k * 1000;
      FormatWholeThousands(k);
      ParseWhole(k, 'K', 1000);
    }
  }

  /** Distinct table values are announced with distinct texts. */
  lemma FormatTableInjective(a: int, b: int)
    requires a in Thresholds && b in Thresholds && a != b
    ensures FormatMilestone(a) != FormatMilestone(b)
  {
    FormatTableRoundTrip(a);
    FormatTableRoundTrip(b);
  }

  /**
   * The milestones announced over a run of checks of one platform when every
   * announcement is delivered, so that the cursor advances each time.
   */
  function NotifiedOver(counts: seq<int>, cursor: Option<int>): seq<int> {
    if counts == [] then []
    else
      match ShouldNotifyMilestone(counts[0], cursor)
      case Some(m) => [m.value] + NotifiedOver(counts[1..], Some(m.value))
      case None => NotifiedOver(counts[1..], cursor)
  }

  /** Announcements climb strictly above the cursor, so no threshold is announced twice. */
  lemma {:induction false} NotifiedAscending(counts: seq<int>, cursor: Option<int>)
    ensures StrictlyAscending(NotifiedOver(counts, cursor))
    ensures forall v :: v in NotifiedOver(counts, cursor) ==> v in Thresholds && (cursor.None? || v > cursor.value)
  {
    if counts != [] {
      match ShouldNotifyMilestone(counts[0], cursor)
      case Some(m) =>
        NotifiedAscending(counts[1..], Some(m.value));
        var rest := NotifiedOver(counts[1..], Some(m.value));
        assert NotifiedOver(counts, cursor) == [m.value] + rest;
        forall i | 0 <= i < |rest| ensures m.value < rest[i] {
          assert rest[i] in rest;
        }
      case None =>
        NotifiedAscending(counts[1..], cursor);
    }
  }

  predicate NonDecreasing(s: seq<int>) {
    forall i, j :: 0 <= i < j < |s| ==> s[i] <= s[j]
  }

  /**
   * A non-decreasing run that is observed exactly at threshold `t`, starting
   * from a cursor below `t`, announces `t`.
   */
  lemma {:induction false} ObservedThresholdIsNotified(counts: seq<int>, cursor: Option<int>, t: int)
    requires NonDecreasing(counts) && t in counts && t in Thresholds
    requires cursor.None? || cursor.value < t
    ensures t in NotifiedOver(counts, cursor)
  {
    if counts[0] == t {
    } else {
      assert t in counts[1..] by {
        var k :| 0 <= k < |counts| && counts[k] == t;
        assert k > 0 && counts[1..][k - 1] == t;
      }
      assert counts[0] < t by {
        var k :| 0 <= k < |counts| && counts[k] == t;
      }
      assert NonDecreasing(counts[1..]) by {
        forall i, j | 0 <= i < j < |counts[1..]| ensures counts[1..][i] <= counts[1..][j] {
          assert counts[1..][i] == counts[i + 1] && counts[1..][j] == counts[j + 1];
        }
      }
      match ShouldNotifyMilestone(counts[0], cursor)
      case Some(m) =>
        ObservedThresholdIsNotified(counts[1..], Some(m.value), t);
      case None =>
        ObservedThresholdIsNotified(counts[1..], cursor, t);
    }
  }

  /**
   * Detection is by equality: a count that jumps from 999 to 1001 between two
   * checks never announces 1000.
   */
  lemma SkippedThresholdIsNeverNotified()
    ensures NotifiedOver([999, 1001], None) == []
  {
    assert 1001 !in Thresholds;
    assert [999, 1001][1..] == [1001];
  }
}
