/**
 * The admin broadcast dashboard: the form checks the message (and, in
 * template mode, the milestone), builds the payload for the notify route,
 * sends it with the admin token, and reports the route's counts.
 */
module Dashboard {
  import opened Wrappers
  import opened Text
  import Notify
  import CheckMilestones
  import SubscriberFile

  /** The characters of `s` are all white space, so `s.trim()` is falsy. */
  predicate Blank(s: string) {
    forall i :: 0 <= i < |s| ==> IsSpace(s[i])
  }

  /** The body posted to the notify route. */
  datatype Payload = Payload(
    platform: string, message: string, milestone: Option<string>, template: bool, imageUrl: Option<string>)

  /** A refused submission: "Please enter a message." or "Please fill milestone when using template.". */
  datatype Missing = MissingMessage | MissingMilestone

  /** Why the form refuses to send, if it does: a blank message first, then a blank milestone in template mode. */
  function Rejection(message: string, useTemplate: bool, milestone: string): Option<Missing> {
    if Blank(message) then Some(MissingMessage)
    else if useTemplate && Blank(milestone) then Some(MissingMilestone)
    else None
  }

  /**
   * The form's checks on `trim()`: a message that trims to nothing is refused
   * first, then, in template mode, a milestone that trims to nothing; only a
   * form passing both is sent.
   */
  lemma RejectionSpec(message: string, useTemplate: bool, milestone: string)
    ensures Trim(message) == "" ==> Rejection(message, useTemplate, milestone) == Some(MissingMessage)
    ensures Trim(message) != "" && useTemplate && Trim(milestone) == "" ==>
      Rejection(message, useTemplate, milestone) == Some(MissingMilestone)
    ensures Rejection(message, useTemplate, milestone).None? <==>
      Trim(message) != "" && (useTemplate ==> Trim(milestone) != "")
  {
    TrimEmptyIffBlank(message);
    TrimEmptyIffBlank(milestone);
  }

  /**
   * The payload: platform and message as typed; in template mode the milestone
   * and `template: true`; otherwise `template: false` and the image URL, untrimmed,
   * only when it is not blank.
   */
  function BuildPayload(platform: string, message: string, useTemplate: bool, milestone: string, imageUrl: string): (p: Payload)
    ensures p.platform == platform && p.message == message && p.template == useTemplate
    ensures p.milestone.Some? <==> useTemplate
    ensures p.milestone.Some? ==> p.milestone.value == milestone
    ensures p.imageUrl.Some? ==> p.imageUrl.value == imageUrl
  {
    if useTemplate then Payload(platform, message, Some(milestone), true, None)
    else Payload(platform, message, None, false, if !Blank(imageUrl) then Some(imageUrl) else None)
  }

  /** The image URL goes out only in custom mode, and only when it does not trim to nothing. */
  lemma PayloadImage(platform: string, message: string, useTemplate: bool, milestone: string, imageUrl: string)
    ensures BuildPayload(platform, message, useTemplate, milestone, imageUrl).imageUrl.Some? <==>
      !useTemplate && Trim(imageUrl) != ""
  {
    TrimEmptyIffBlank(imageUrl);
  }

  /** How the notify route reads the payload's three fields (`template` and `imageUrl` are ignored there). */
  function AsRequest(p: Payload): Notify.Request {
    Notify.Request(
      Notify.Str(p.message), Notify.Str(p.platform),
      match p.milestone case Some(m) => Notify.Str(m) case None => Notify.Absent)
  }

  /** A custom-mode payload carries no milestone, so the notify route answers 400 and sends nothing. */
  lemma CustomPayloadRejected(platform: string, message: string, milestone: string, imageUrl: string,
                              f: SubscriberFile.JsonFile, send: int -> CheckMilestones.SendOutcome)
    ensures var p := BuildPayload(platform, message, false, milestone, imageUrl);
      Notify.Status(Notify.Post(Some(AsRequest(p)), f, send)) == 400
  {
  }

  /** A template payload that passed the form's checks, for a named platform, is broadcast. */
  lemma TemplatePayloadSent(platform: string, message: string, milestone: string, imageUrl: string,
                            f: SubscriberFile.JsonFile, send: int -> CheckMilestones.SendOutcome)
    requires platform != "" && Rejection(message, true, milestone).None?
    ensures var p := BuildPayload(platform, message, true, milestone, imageUrl);
      Notify.Post(Some(AsRequest(p)), f, send).Sent?
  {
    var p := BuildPayload(platform, message, true, milestone, imageUrl);
    PostedAreValid(message, true, milestone);
    assert Notify.Complete(AsRequest(p));
  }

  /** The submit button is disabled while sending or when the message is over 500 UTF-16 units. */
  function SubmitDisabled(sending: bool, message: string): bool {
    sending || Utf16Length(message) > 500
  }

  /** Over 500 characters always disables; 250 or fewer never does unless a send is running. */
  lemma SubmitDisabledBounds(sending: bool, message: string)
    ensures |message| > 500 ==> SubmitDisabled(sending, message)
    ensures !sending && |message| <= 250 ==> !SubmitDisabled(sending, message)
    ensures sending ==> SubmitDisabled(sending, message)
  {
  }

  /** The route's JSON answer, as the delivery report reads it. */
  datatype ApiResult = ApiResult(success: bool, total: int, successful: int, failed: int, message: string)

  /** The report's "Pending/Failed" figure. */
  function Pending(r: ApiResult): int {
    r.total - r.successful
  }

  /** The answer of the notify route for a broadcast. */
  function Reported(r: Notify.Result, message: string): ApiResult {
    ApiResult(true, r.total, r.successful, r.failed, message)
  }

  /** For an answer of the notify route, the pending figure is exactly its failed count. */
  lemma PendingIsFailed(ids: seq<int>, send: int -> CheckMilestones.SendOutcome, message: string)
    ensures var r := Reported(Notify.BroadcastMessage(ids, send), message);
      Pending(r) == r.failed && 0 <= Pending(r) <= r.total
  {
  }

  /** What the fetch to the notify route gives: it threw (or the body was not JSON), or an answer. */
  datatype Reply = Threw | Answered(ok: bool, data: ApiResult)

  /** The answer reports a delivery to at least one subscriber, which triggers the count refresh. */
  predicate Delivered(reply: Reply) {
    reply.Answered? && reply.ok && reply.data.success && reply.data.total != 0
  }

  /** The refresh of the subscriber count: it threw, or gave the answer's `count` field. */
  datatype Refresh = RefreshFailed | Counted(count: Option<int>)

  /** `countData.count || 0`. */
  function CountOr0(c: Option<int>): int {
    c.GetOr(0)
  }

  /** The dashboard's form state. */
  class DashboardForm {
    var adminToken: Option<string>
    var platform: string
    var milestone: string
    var message: string
    var sending: bool
    var result: Option<ApiResult>
    var subscriberCount: Option<int>
    var useTemplate: bool
    var imageUrl: string

    /** The initial form: YouTube, template mode, empty fields. */
    constructor (token: Option<string>)
      ensures adminToken == token && platform == "YouTube" && useTemplate
      ensures milestone == "" && message == "" && imageUrl == ""
      ensures !sending && result.None? && subscriberCount.None?
    {
      adminToken := token;
      platform := "YouTube";
      milestone := "";
      message := "";
      sending := false;
      result := None;
      subscriberCount := None;
      useTemplate := true;
      imageUrl := "";
    }

    /**
     * `handleSubmit`: without a token it does nothing; otherwise it clears the
     * report, refuses a blank message or milestone, or posts the payload and
     * keeps the answer, refreshing the count after a delivery. Returns the
     * payload posted, if any.
     */
    method HandleSubmit(reply: Reply, refresh: Refresh) returns (sent: Option<Payload>)
      modifies this
      ensures adminToken == old(adminToken) && platform == old(platform) && milestone == old(milestone)
      ensures message == old(message) && useTemplate == old(useTemplate) && imageUrl == old(imageUrl)
      ensures old(adminToken).None? ==>
        sent.None? && sending == old(sending) && result == old(result) && subscriberCount == old(subscriberCount)
      ensures old(adminToken).Some? ==>
        && !sending
        && sent == (if Rejection(message, useTemplate, milestone).None?
                    then Some(BuildPayload(platform, message, useTemplate, milestone, imageUrl)) else None)
        && result == (if sent.Some? && reply.Answered? then Some(reply.data) else None)
        && subscriberCount == (if sent.Some? && Delivered(reply) && refresh.Counted?
                               then Some(CountOr0(refresh.count)) else old(subscriberCount))
    {
      sent := None;
      if adminToken.Some? {
        sending := true;
        result := None;
        var rejection := Rejection(message, useTemplate, milestone);
        if rejection.None? {
          var payload := BuildPayload(platform, message, useTemplate, milestone, imageUrl);
          sent := Some(payload);
          if reply.Answered? {
            var data := reply.data;
            result := Some(data);
            if reply.ok && data.success && data.total != 0 && refresh.Counted? {
              subscriberCount := Some(CountOr0(refresh.count));
            }
          }
        }
        sending := false;
      }
    }
  }

  /** Only a message that is not blank is ever posted, and in template mode only with a milestone. */
  lemma PostedAreValid(message: string, useTemplate: bool, milestone: string)
    requires Rejection(message, useTemplate, milestone).None?
    ensures message != "" && (useTemplate ==> milestone != "")
  {
    assert !Blank(message);
    assert useTemplate ==> !Blank(milestone);
  }
}
