/**
 * The Flask server's `/webhook` route: a ClickUp payload becomes a single
 * Telegram message, the comment message when the latest comment has both a
 * text and an author, the activity message otherwise; a bare `body` key gets
 * the test message. The server carries its own copy of the calendar conversion.
 */
module App {
  import opened Wrappers
  import opened Text
  import opened Comments
  import Jalali

  /** `gregorian_to_jalali` as the server writes it, one binding per reassignment. */
  function GregorianToJalali(gy: int, gm: int, gd: int): (r: (int, int, int))
    requires 1 <= gm <= 12
    ensures 1 <= r.1 <= 12 && 1 <= r.2 <= 31
    ensures r.1 >= 7 ==> r.2 <= 30
  {
    var gDM := [0, 31, 59, 90, 120, 151, 181, 212, 243, 273, 304, 334];
    var (jy0, gy1) := if gy > 1600 then (979, gy - 1600) else (0, gy - 621);
    var gy2 := if gm > 2 then gy1 + 1 else gy1;
    var days0 := (365 * gy1) + (gy2 + 3) / 4 - (gy2 + 99) / 100 + (gy2 + 399) / 400 - 80 + gd + gDM[gm - 1];
    var jy1 := jy0 + 33 * (days0 / 12053);
    var days1 := days0 % 12053;
    var jy2 := jy1 + 4 * (days1 / 1461);
    var days2 := days1 % 1461;
    var (jy, days) := if days2 > 365 then (jy2 + (days2 - 1) / 365, (days2 - 1) % 365) else (jy2, days2);
    if days < 186 then (jy, 1 + days / 31, 1 + days % 31)
    else (jy, 7 + (days - 186) / 30, 1 + (days - 186) % 30)
  }

  /** The two copies of the conversion agree on every date. */
  lemma ConversionsAgree(gy: int, gm: int, gd: int)
    requires 1 <= gm <= 12
    ensures GregorianToJalali(gy, gm, gd) == Jalali.GregorianToJalali(gy, gm, gd)
  {
  }

  /** The `payload` of a ClickUp webhook: its `name` (None when absent) and its `id` ("" when absent). */
  datatype Payload = Payload(name: Option<string>, id: string)

  /** The decoded JSON: its `payload`, if any, and whether it has a `body` key. */
  datatype Request = Request(payload: Option<Payload>, hasBody: bool)

  /** What the server reads of the latest comment: its `comment_text` ("" when absent) and its author. */
  datatype LatestComment = LatestComment(commentText: string, user: User)

  /** Whether the latest comment is asked for, the one message sent (if any), and the status. */
  datatype Reply = Reply(fetchesComment: bool, message: Option<string>, status: int)

  const UnknownTask: string := "نامشخص"

  const CommentHead: string := "📋 **در تسک «"
  const ActivityHead: string := "🔔 **فعالیت جدید در ClickUp**\n\n📋 **تسک:** "
  const TestHead: string := "🧪 **تست Webhook**\n\n✅ سرور فعال است!\n\n🕐 "

  /** The comment message: it opens with the task line and closes with the comment date. */
  function CommentMessage(taskName: string, username: string, commentText: string, date: string): (r: string)
    ensures StartsWith(r, CommentHead) && EndsWith(r, date)
  {
    var s1 := CommentHead + taskName + "»**\n\n👤 **";
    var s2 := s1 + username + "** نوشته:\n\n💬 ";
    var s3 := s2 + commentText + "\n\n🕐 ";
    StartsWithExtend(CommentHead, taskName, CommentHead);
    StartsWithExtend(CommentHead + taskName, "»**\n\n👤 **", CommentHead);
    StartsWithExtend(s1, username, CommentHead);
    StartsWithExtend(s1 + username, "** نوشته:\n\n💬 ", CommentHead);
    StartsWithExtend(s2, commentText, CommentHead);
    StartsWithExtend(s2 + commentText, "\n\n🕐 ", CommentHead);
    StartsWithExtend(s3, date, CommentHead);
    s3 + date
  }

  /** The activity message: it opens with the activity head and closes with the current time. */
  function ActivityMessage(taskName: string, now: string): (r: string)
    ensures StartsWith(r, ActivityHead) && EndsWith(r, now)
  {
    StartsWithExtend(ActivityHead, taskName, ActivityHead);
    StartsWithExtend(ActivityHead + taskName, "\n\n🕐 ", ActivityHead);
    StartsWithExtend(ActivityHead + taskName + "\n\n🕐 ", now, ActivityHead);
    ActivityHead + taskName + "\n\n🕐 " + now
  }

  /** The test message: the test head, then the current time. */
  function TestMessage(now: string): (r: string)
    ensures StartsWith(r, TestHead) && EndsWith(r, now)
  {
    TestHead + now
  }

  /** Whether the comment is fetched: `task_id and CLICKUP_API_TOKEN`. */
  predicate Fetches(p: Payload, tokenSet: bool) {
    p.id != "" && tokenSet
  }

  /** The comment text and author the message is chosen on: both empty when nothing was fetched. */
  function CommentFields(p: Payload, tokenSet: bool, latest: Option<LatestComment>): (string, string) {
    if Fetches(p, tokenSet) && latest.Some? then (latest.value.commentText, Author(latest.value.user, "")) else ("", "")
  }

  /**
   * `webhook()`: `latest` is what `get_latest_comment` returns if it is
   * called, `dateText` the formatted comment date and `nowText` the formatted
   * current time.
   */
  function Webhook(req: Request, tokenSet: bool, latest: Option<LatestComment>, dateText: string, nowText: string): (r: Reply)
    ensures r.status == 200
    ensures r.message.Some? <==> req.payload.Some? || req.hasBody
    ensures r.fetchesComment ==> req.payload.Some? && req.payload.value.id != "" && tokenSet
  {
    if req.payload.Some? then
      var p := req.payload.value;
      var taskName := p.name.GetOr(UnknownTask);
      var (commentText, username) := CommentFields(p, tokenSet, latest);
      var message := if commentText != "" && username != "" then CommentMessage(taskName, username, commentText, dateText)
                     else ActivityMessage(taskName, nowText);
      Reply(Fetches(p, tokenSet), Some(message), 200)
    else if req.hasBody then Reply(false, Some(TestMessage(nowText)), 200)
    else Reply(false, None, 200)
  }

  /** The comment message and the activity message never coincide: they open differently. */
  lemma MessagesDiffer(taskName: string, username: string, commentText: string, date: string, name': string, now: string)
    ensures CommentMessage(taskName, username, commentText, date) != ActivityMessage(name', now)
  {
    assert CommentMessage(taskName, username, commentText, date)[0] == CommentHead[0];
    assert ActivityMessage(name', now)[0] == ActivityHead[0];
  }

  /**
   * A payload gets the comment message exactly when the fetched latest comment
   * has a non-empty text and a non-empty author; otherwise the activity message.
   */
  lemma CommentMessageIff(p: Payload, hasBody: bool, tokenSet: bool, latest: Option<LatestComment>, dateText: string, nowText: string)
    ensures var r := Webhook(Request(Some(p), hasBody), tokenSet, latest, dateText, nowText);
      var name := p.name.GetOr(UnknownTask);
      && (r.message.value == ActivityMessage(name, nowText) || exists t, u :: r.message.value == CommentMessage(name, u, t, dateText))
      && ((exists t, u :: r.message.value == CommentMessage(name, u, t, dateText)) <==>
            Fetches(p, tokenSet) && latest.Some? && latest.value.commentText != "" && Author(latest.value.user, "") != "")
    ensures var r := Webhook(Request(Some(p), hasBody), tokenSet, latest, dateText, nowText);
      var name := p.name.GetOr(UnknownTask);
      if Fetches(p, tokenSet) && latest.Some? && latest.value.commentText != "" && Author(latest.value.user, "") != "" then
        r.message == Some(CommentMessage(name, Author(latest.value.user, ""), latest.value.commentText, dateText))
      else r.message == Some(ActivityMessage(name, nowText))
  {
    var name := p.name.GetOr(UnknownTask);
    var r := Webhook(Request(Some(p), hasBody), tokenSet, latest, dateText, nowText);
    var (t, u) := CommentFields(p, tokenSet, latest);
    if t != "" && u != "" {
      assert r.message.value == CommentMessage(name, u, t, dateText);
    } else {
      forall t', u' ensures r.message.value != CommentMessage(name, u', t', dateText) {
        MessagesDiffer(name, u', t', dateText, name, nowText);
      }
    }
  }

  /**
   * Without a task id or without the ClickUp token nothing is fetched, and the
   * activity message is sent whatever the latest comment would have been.
   */
  lemma NoFetchMeansActivity(p: Payload, hasBody: bool, tokenSet: bool, latest: Option<LatestComment>, dateText: string, nowText: string)
    requires p.id == "" || !tokenSet
    ensures var r := Webhook(Request(Some(p), hasBody), tokenSet, latest, dateText, nowText);
      && !r.fetchesComment
      && r.message == Some(ActivityMessage(p.name.GetOr(UnknownTask), nowText))
      && r == Webhook(Request(Some(p), hasBody), tokenSet, None, dateText, nowText)
  {
  }

  /** A request with a payload is handled as a ClickUp event whether or not it also has a `body`. */
  lemma PayloadBeforeBody(p: Payload, tokenSet: bool, latest: Option<LatestComment>, dateText: string, nowText: string)
    ensures Webhook(Request(Some(p), true), tokenSet, latest, dateText, nowText)
         == Webhook(Request(Some(p), false), tokenSet, latest, dateText, nowText)
    ensures Webhook(Request(None, true), tokenSet, latest, dateText, nowText).message == Some(TestMessage(nowText))
  {
  }

  /** The comment message names the task, the author and the comment text. */
  lemma CommentMessageNames(taskName: string, username: string, commentText: string, date: string)
    ensures Contains(CommentMessage(taskName, username, commentText, date), taskName)
    ensures Contains(CommentMessage(taskName, username, commentText, date), username)
    ensures Contains(CommentMessage(taskName, username, commentText, date), commentText)
  {
    var b, c, d := "»**\n\n👤 **", "** نوشته:\n\n💬 ", "\n\n🕐 ";
    var m1 := CommentHead + taskName;
    var m2 := m1 + b + username;
    var m3 := m2 + c + commentText;
    ContainsEnd(CommentHead, taskName);
    ContainsExtend(m1, b, taskName);
    ContainsExtend(m1 + b, username, taskName);
    ContainsEnd(m1 + b, username);
    ContainsExtend(m2, c, taskName);
    ContainsExtend(m2, c, username);
    ContainsExtend(m2 + c, commentText, taskName);
    ContainsExtend(m2 + c, commentText, username);
    ContainsEnd(m2 + c, commentText);
    ContainsExtend(m3, d, taskName);
    ContainsExtend(m3, d, username);
    ContainsExtend(m3, d, commentText);
    ContainsExtend(m3 + d, date, taskName);
    ContainsExtend(m3 + d, date, username);
    ContainsExtend(m3 + d, date, commentText);
  }

  /** The activity message names the task; without a `name` that is the "unknown" placeholder. */
  lemma ActivityMessageNames(p: Payload, now: string)
    ensures Contains(ActivityMessage(p.name.GetOr(UnknownTask), now), p.name.GetOr(UnknownTask))
    ensures p.name.None? ==> Contains(ActivityMessage(p.name.GetOr(UnknownTask), now), UnknownTask)
  {
    var name := p.name.GetOr(UnknownTask);
    assert ActivityMessage(name, now) == ActivityHead + name + ("\n\n🕐 " + now);
    ContainsMiddle(ActivityHead, name, "\n\n🕐 " + now);
    assert p.name.None? ==> p.name.GetOr(UnknownTask) == UnknownTask;
  }
}
