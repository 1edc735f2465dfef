/**
 * The manual notify route: a request with a message, a platform and a
 * milestone is formatted into one broadcast text and sent to every chat
 * id listed in the subscriber file.
 */
module Notify {
  import opened Wrappers
  import opened Text
  import opened SubscriberFile
  import CheckMilestones

  /** A JSON field as `request.json()` yields it. */
  datatype Json = Absent | Null | Str(s: string) | Num(n: int) | Bool(b: bool)

  /** JavaScript truthiness of a field. */
  predicate Truthy(v: Json) {
    match v
    case Str(s) => s != ""
    case Num(n) => n != 0
    case Bool(b) => b
    case _ => false
  }

  /** `${v}` in a template literal. */
  function Interpolate(v: Json): string {
    match v
    case Absent => "undefined"
    case Null => "null"
    case Str(s) => s
    case Num(n) => IntToString(n)
    case Bool(b) => if b then "true" else "false"
  }

  const Header := "🎉 <b>New Milestone Reached!</b>\n\n"
  const Footer := "\n\nCheck it out: https://fesistats.vercel.app"

  function PlatformLine(platform: Json): string {
    "📱 Platform: <b>" + Interpolate(platform) + "</b>\n"
  }

  function MilestoneLine(milestone: Json): string {
    "🎯 Milestone: <b>" + Interpolate(milestone) + "</b>\n\n"
  }

  /** The broadcast text: header, platform line, milestone line, the caller's message, footer. */
  function FormatMessage(message: Json, platform: Json, milestone: Json): string {
    Header + PlatformLine(platform) + MilestoneLine(milestone) + Interpolate(message) + Footer
  }

  lemma Frame(a: string, b: string, c: string, d: string, e: string)
    ensures var r := a + b + c + d + e;
      && |r| == |a| + |b| + |c| + |d| + |e|
      && r[..|a|] == a && r[|a|..|a| + |b|] == b && r[|a| + |b|..|a| + |b| + |c|] == c
      && r[|r| - |e| - |d|..|r| - |e|] == d && r[|r| - |e|..] == e
  {
    var r := a + b + c + d + e;
    assert r == a + (b + (c + (d + e)));
  }

  /** The text opens with the header and the platform and milestone lines, and closes with the caller's message and the footer. */
  lemma FormatMessageLayout(message: Json, platform: Json, milestone: Json)
    ensures var r := FormatMessage(message, platform, milestone);
      var h, p, m := |Header|, |PlatformLine(platform)|, |MilestoneLine(milestone)|;
      var x, f := |Interpolate(message)|, |Footer|;
      && |r| == h + p + m + x + f
      && r[..h] == Header && r[h..h + p] == PlatformLine(platform) && r[h + p..h + p + m] == MilestoneLine(milestone)
      && r[|r| - f - x..|r| - f] == Interpolate(message) && r[|r| - f..] == Footer
  {
    Frame(Header, PlatformLine(platform), MilestoneLine(milestone), Interpolate(message), Footer);
  }

  /** `getSubscribers` of this route: the parsed array as it is (no de-duplication), [] on a missing or unreadable file. */
  function Recipients(f: JsonFile): (r: seq<int>)
    reads f
    ensures f.content.None? ==> r == []
  {
    f.Ids()
  }

  /** What `broadcastMessage` returns. */
  datatype Result = Result(total: nat, successful: nat, failed: nat)

  /** The sends fulfilled and rejected, per `Promise.allSettled`. */
  function BroadcastMessage(ids: seq<int>, send: int -> CheckMilestones.SendOutcome): (r: Result)
    ensures r.total == |ids| && r.successful + r.failed == r.total
    ensures r.successful == CheckMilestones.CountFulfilled(ids, send)
  {
    var ok := CheckMilestones.CountFulfilled(ids, send);
    Result(|ids|, ok, |ids| - ok)
  }

  datatype Request = Request(message: Json, platform: Json, milestone: Json)

  /** `message && platform && milestone`, each truthy. */
  predicate Complete(q: Request) {
    Truthy(q.message) && Truthy(q.platform) && Truthy(q.milestone)
  }

  datatype Response =
    | BadRequest
    | Sent(result: Result, text: string)
    | ServerError

  /** The HTTP status of a response. */
  function Status(r: Response): nat {
    match r
    case BadRequest => 400
    case Sent(_, _) => 200
    case ServerError => 500
  }

  /**
   * `POST`: `request` is None when the body is not JSON. A falsy field gives
   * 400 and nothing is sent; otherwise the broadcast is reported with
   * `success: true` whatever its counts.
   */
  function Post(request: Option<Request>, f: JsonFile, send: int -> CheckMilestones.SendOutcome): (r: Response)
    reads f
    ensures request.None? ==> r == ServerError
    ensures request.Some? && !Complete(request.value) ==> r == BadRequest
    ensures r.Sent? <==> request.Some? && Complete(request.value)
    ensures r.Sent? ==>
      && r.result.total == |Recipients(f)| && r.result.successful + r.result.failed == r.result.total
      && r.result.successful == CheckMilestones.CountFulfilled(Recipients(f), send)
      && r.text == FormatMessage(request.value.message, request.value.platform, request.value.milestone)
  {
    if request.None? then ServerError
    else
      var q := request.value;
      if !Complete(q) then BadRequest
      else
        var text := FormatMessage(q.message, q.platform, q.milestone);
        Sent(BroadcastMessage(Recipients(f), send), text)
  }

  /** A missing file means nobody to send to: all three counts are 0. */
  lemma MissingFileSendsNothing(request: Request, f: JsonFile, send: int -> CheckMilestones.SendOutcome)
    requires f.content.None? && Complete(request)
    ensures Post(Some(request), f, send) == Sent(Result(0, 0, 0), FormatMessage(request.message, request.platform, request.milestone))
  {
  }

  /** Ids listed twice in the file are sent to twice and counted twice. */
  lemma DuplicatesCountTwice(id: int, f: JsonFile, send: int -> CheckMilestones.SendOutcome)
    requires f.content == Some(Encode([id, id]))
    ensures BroadcastMessage(Recipients(f), send).total == 2
  {
    DecodeEncode([id, id]);
  }

  /** The dashboard's custom mode sends no milestone, which this route rejects. */
  lemma NoMilestoneIsRejected(message: string, platform: string, f: JsonFile, send: int -> CheckMilestones.SendOutcome)
    ensures Post(Some(Request(Str(message), Str(platform), Absent)), f, send) == BadRequest
  {
  }
}
