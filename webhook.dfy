/**
 * The Telegram bot webhook: each message update is a command over the
 * subscriber file. `/start` adds the chat, `/stop` removes it, `/status`
 * reports, anything else gets the help text; exactly one reply goes back.
 */
module Webhook {
  import opened Wrappers
  import opened Text
  import opened SubscriberFile

  /** The fields of `body.message` the handler reads. */
  datatype Message = Message(chatId: int, text: Option<string>, firstName: Option<string>)

  datatype Command = Start | Stop | Status | Help

  /** Dispatch by prefix, in the order /start, /stop, /status; missing text is "". */
  function CommandOf(text: Option<string>): (c: Command)
    ensures c == Start <==> StartsWith(text.GetOr(""), "/start")
    ensures c == Stop <==> !StartsWith(text.GetOr(""), "/start") && StartsWith(text.GetOr(""), "/stop")
    ensures c == Status <==>
      !StartsWith(text.GetOr(""), "/start") && !StartsWith(text.GetOr(""), "/stop") && StartsWith(text.GetOr(""), "/status")
  {
    var t := text.GetOr("");
    if StartsWith(t, "/start") then Start
    else if StartsWith(t, "/stop") then Stop
    else if StartsWith(t, "/status") then Status
    else Help
  }

  /** `first_name || 'there'`. */
  function Greeting(firstName: Option<string>): string {
    if firstName.None? || firstName.value == "" then "there" else firstName.value
  }

  /** Which reply text is sent back. */
  datatype Reply =
    | Welcome(name: string)
    | WelcomeBack(name: string)
    | Unsubscribed
    | NotSubscribed
    | StatusReport(subscribed: bool, total: nat)
    | Commands(name: string)

  /** `Set.add`: the id is appended when it is new. */
  function AddId(ids: seq<int>, id: int): (r: seq<int>)
    ensures id in r && forall x :: x in ids ==> x in r
    ensures Distinct(ids) ==> Distinct(r)
  {
    if id in ids then ids else ids + [id]
  }

  /** `Set.delete`: the id is taken out, everything else stays in order. */
  function DeleteId(ids: seq<int>, id: int): (r: seq<int>)
    ensures |r| <= |ids|
  {
    if ids == [] then []
    else (if ids[0] == id then [] else [ids[0]]) + DeleteId(ids[1..], id)
  }

  lemma {:induction false} DeleteIdMembers(ids: seq<int>, id: int)
    ensures forall x :: x in DeleteId(ids, id) <==> x in ids && x != id
    ensures Distinct(ids) ==> Distinct(DeleteId(ids, id))
  {
    if ids != [] {
      var rest := DeleteId(ids[1..], id);
      DeleteIdMembers(ids[1..], id);
      assert ids == [ids[0]] + ids[1..];
      if Distinct(ids) {
        assert Distinct(ids[1..]) by {
          forall i, j | 0 <= i < j < |ids[1..]| ensures ids[1..][i] != ids[1..][j] {
            assert ids[1..][i] == ids[i + 1] && ids[1..][j] == ids[j + 1];
          }
        }
        forall j | 0 <= j < |ids[1..]| ensures ids[1..][j] != ids[0] {
          assert ids[1..][j] == ids[j + 1];
        }
        var r := (if ids[0] == id then [] else [ids[0]]) + rest;
        forall i, j | 0 <= i < j < |r| ensures r[i] != r[j] {
          if ids[0] != id && i == 0 {
            assert r[j] == rest[j - 1];
            assert r[j] in ids[1..];
          }
        }
      }
    }
  }

  /** The set after the command. */
  function Updated(m: Message, ids: seq<int>): seq<int> {
    match CommandOf(m.text)
    case Start => AddId(ids, m.chatId)
    case Stop => DeleteId(ids, m.chatId)
    case _ => ids
  }

  /** Whether the command writes the file: /start of a new chat, /stop of a subscribed one. */
  predicate Rewrites(m: Message, ids: seq<int>) {
    (CommandOf(m.text) == Start && m.chatId !in ids) || (CommandOf(m.text) == Stop && m.chatId in ids)
  }

  /** The reply to a message, given the set as read before the command. */
  function ReplyTo(m: Message, ids: seq<int>): Reply {
    var name := Greeting(m.firstName);
    match CommandOf(m.text)
    case Start => if m.chatId in ids then WelcomeBack(name) else Welcome(name)
    case Stop => if m.chatId in ids then Unsubscribed else NotSubscribed
    case Status => StatusReport(m.chatId in ids, |ids|)
    case Help => Commands(name)
  }

  /**
   * The reply tells the truth about the command's effect: a first welcome
   * exactly when `/start` adds the chat, an unsubscribe notice exactly when
   * `/stop` removes it, and the status reply reports membership and size of
   * the set it read.
   */
  lemma ReplyReportsOutcome(m: Message, ids: seq<int>)
    ensures ReplyTo(m, ids).Welcome? <==> CommandOf(m.text) == Start && Rewrites(m, ids)
    ensures ReplyTo(m, ids).Unsubscribed? <==> CommandOf(m.text) == Stop && Rewrites(m, ids)
    ensures (ReplyTo(m, ids).Welcome? || ReplyTo(m, ids).WelcomeBack?) ==> m.chatId in Updated(m, ids)
    ensures (ReplyTo(m, ids).Unsubscribed? || ReplyTo(m, ids).NotSubscribed?) ==> m.chatId !in Updated(m, ids)
    ensures ReplyTo(m, ids).StatusReport? ==>
      ReplyTo(m, ids).subscribed == (m.chatId in ids) && ReplyTo(m, ids).total == |ids| && Updated(m, ids) == ids
  {
    DeleteIdMembers(ids, m.chatId);
  }

  /** `getSubscribers`: `new Set(JSON.parse(file))`, the empty set when the file is missing or unreadable. */
  function Subscribers(f: JsonFile): (r: seq<int>)
    reads f
    ensures Distinct(r)
  {
    DedupMembers(f.Ids());
    Dedup(f.Ids())
  }

  /**
   * `POST`: without a message nothing happens and no reply is sent;
   * otherwise the command runs over the file and one reply goes back.
   * `writeOk` tells whether writing the file succeeds (a failure is
   * caught) and `sendOk` whether the reply request succeeds (a failure
   * makes the response a 500).
   */
  method Post(f: JsonFile, update: Option<Message>, writeOk: bool, sendOk: bool)
    returns (reply: Option<Reply>, ok: bool)
    modifies f
    ensures reply.Some? <==> update.Some?
    ensures update.Some? ==> reply.value == ReplyTo(update.value, old(Subscribers(f)))
    ensures f.content == if update.Some? && Rewrites(update.value, old(Subscribers(f))) && writeOk
      then Some(Encode(Updated(update.value, old(Subscribers(f))))) else old(f.content)
    ensures ok == (update.None? || sendOk)
  {
    reply, ok := None, true;
    if update.Some? {
      var m := update.value;
      var subscribers := Subscribers(f);
      var name := Greeting(m.firstName);
      var cmd := CommandOf(m.text);
      if cmd == Start {
        if m.chatId !in subscribers {
          subscribers := subscribers + [m.chatId];
          f.Save(subscribers, writeOk);
          reply := Some(Welcome(name));
        } else {
          reply := Some(WelcomeBack(name));
        }
      } else if cmd == Stop {
        if m.chatId in subscribers {
          subscribers := DeleteId(subscribers, m.chatId);
          f.Save(subscribers, writeOk);
          reply := Some(Unsubscribed);
        } else {
          reply := Some(NotSubscribed);
        }
      } else if cmd == Status {
        reply := Some(StatusReport(m.chatId in subscribers, |subscribers|));
      } else {
        reply := Some(Commands(name));
      }
      ok := sendOk;
    }
  }

  /** After a /start the chat is subscribed, and the file is written only when it was not. */
  lemma StartSubscribes(m: Message, ids: seq<int>)
    requires CommandOf(m.text) == Start
    ensures m.chatId in Updated(m, ids)
    ensures Rewrites(m, ids) <==> m.chatId !in ids
    ensures forall x :: x in ids ==> x in Updated(m, ids)
  {
  }

  /** After a /stop the chat is not subscribed, every other chat stays, and the file is written only when it was. */
  lemma StopUnsubscribes(m: Message, ids: seq<int>)
    requires CommandOf(m.text) == Stop
    ensures m.chatId !in Updated(m, ids)
    ensures forall x :: x != m.chatId ==> (x in Updated(m, ids) <==> x in ids)
    ensures Rewrites(m, ids) <==> m.chatId in ids
  {
    DeleteIdMembers(ids, m.chatId);
  }

  /** /status and any other text leave the set and the file alone. */
  lemma OthersKeepSet(m: Message, ids: seq<int>)
    requires CommandOf(m.text) == Status || CommandOf(m.text) == Help
    ensures Updated(m, ids) == ids && !Rewrites(m, ids)
  {
  }

  /** Dispatch is by prefix: "/startx" counts as /start; no text or empty text gets the help reply. */
  lemma PrefixDispatch(rest: string)
    ensures CommandOf(Some("/start" + rest)) == Start
    ensures CommandOf(Some("/stop" + rest)) == Stop
    ensures CommandOf(Some("/status" + rest)) == Status
    ensures CommandOf(None) == Help && CommandOf(Some("")) == Help
  {
    assert ("/start" + rest)[..6] == "/start";
    var p := "/stop" + rest;
    assert p[..5] == "/stop";
    assert |p| >= 6 ==> p[..6][3] == 'o';
    var s := "/status" + rest;
    assert s[..7] == "/status";
    assert s[..6][4] == 't' && s[..5][3] == 'a';
  }

  /** After a rewrite, reading the file gives the updated set: saving round-trips through the JSON text. */
  lemma RewriteReadsBack(f: JsonFile, m: Message, ids: seq<int>)
    requires Distinct(ids) && f.content == Some(Encode(Updated(m, ids)))
    ensures Subscribers(f) == Updated(m, ids)
  {
    DecodeEncode(Updated(m, ids));
    DeleteIdMembers(ids, m.chatId);
    DedupOfDistinct(Updated(m, ids));
  }
}
