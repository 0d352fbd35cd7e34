/**
 * The POST branch of the serverless webhook: a Telegram update (an inline
 * button press, or a reply to an edit prompt) or a ClickUp event (a new comment
 * or some other task activity), dispatched to an ordered burst of Bot API calls.
 *
 * Each operation is specified by a function of the decoded body, of what the
 * ClickUp API returned and of the delivery of the one send whose result is
 * used; the methods that append to the bot's log are proved against it.
 */
module Handler {
  import opened Wrappers
  import opened Text
  import opened Teams
  import opened Comments
  import opened Tokens
  import opened Telegram

  /** The `message` of a callback query: absent strings are empty, `photo` lists the file ids of its sizes. */
  datatype CallbackMessage = CallbackMessage(chat: string, messageId: int, text: string, caption: string, photo: seq<string>)

  /** A `callback_query`: its id, its `data` token and the message that carried the button. */
  datatype CallbackQuery = CallbackQuery(id: string, data: string, message: CallbackMessage)

  /** A `reply_to_message`; `text` is None when the key is absent. */
  datatype ReplyTo = ReplyTo(text: Option<string>)

  /**
   * A `message` update: the id of the chat it came from (None when `chat` or
   * its `id` is missing), its text and what it replies to.
   */
  datatype ChatMessage = ChatMessage(chat: Option<string>, text: string, replyTo: Option<ReplyTo>)

  /** The `id` and `name` of a ClickUp webhook payload (None when absent). */
  datatype TaskRef = TaskRef(id: Option<string>, name: Option<string>)

  /**
   * The decoded JSON body: which of `update_id`, `callback_query`, `message`,
   * `payload` and `event` it has, and the payload fields of the body itself
   * (`root`), read when it has `event` but no `payload`.
   */
  datatype Body = Body(
    hasUpdateId: bool,
    callbackQuery: Option<CallbackQuery>,
    message: Option<ChatMessage>,
    payload: Option<TaskRef>,
    hasEvent: bool,
    root: TaskRef)

  /** What `get_task_details` and `get_latest_comment` return for the payload's task id. */
  datatype Fetched = Fetched(task: Option<Task>, comment: Option<Comment>)

  datatype Response = Response(status: int, body: Option<string>)

  /** The calls an invocation makes, in order, and its response. */
  datatype Outcome = Outcome(calls: seq<Call>, response: Response)

  const OkResponse: Response := Response(200, Some("ok"))
  const BareResponse: Response := Response(200, None)
  const NotAllowedResponse: Response := Response(405, Some("Method not allowed"))

  const NotFoundText: string := "❌ تیم یافت نشد"
  const SentText: string := "✅ ارسال شد"
  const FailedText: string := "❌ خطا در ارسال"
  const WaitingText: string := "📝 منتظر متن جدید..."
  const EditedText: string := "✅ پیام ویرایش شده ارسال شد."
  const PhotoPlaceholder: string := "📷 تصویر جدید"
  const DefaultTaskName: string := "تسک"
  const DefaultAuthor: string := "کاربر"

  // ---------------------------------------------------------------- messages

  /** `f"{task_id}"`: a missing id prints as "None". */
  function ShowId(id: Option<string>): string {
    id.GetOr("None")
  }

  function TaskLink(taskId: string): string {
    "🔗 [مشاهده تسک](https://app.clickup.com/t/" + taskId + ")"
  }

  /** The new-comment notification, one `+=` line at a time. */
  function CommentMessage(taskName: string, commentText: string, username: string, date: string, taskId: string): (r: string)
    ensures EndsWith(r, TaskLink(taskId))
  {
    "💬 **کامنت جدید**\n\n"
    + ("📋 **تسک:** " + taskName + "\n\n")
    + ("💬 **کامنت:** " + commentText + "\n\n")
    + ("👤 **نوشته:** " + username + "\n\n")
    + ("🕐 **تاریخ:** " + date + "\n\n")
    + TaskLink(taskId)
  }

  /** The notification for task activity without a comment. */
  function ActivityMessage(taskName: string, now: string, taskId: string): (r: string)
    ensures EndsWith(r, TaskLink(taskId))
  {
    "🔔 **فعالیت جدید**\n\n📋 **تسک:** " + taskName + "\n\n🕐 " + now + "\n\n" + TaskLink(taskId)
  }

  // ----------------------------------------------------------- specification

  /** The send that a "send" press makes: the last photo size with the text as caption, else the text. */
  function SendAttempt(team: Team, m: CallbackMessage, defaultChat: string): Call {
    var text := if m.text != "" then m.text else m.caption;
    if |m.photo| > 0 then SendPhoto(Route(team.chatId, defaultChat), m.photo[|m.photo| - 1], text, NoMarkup)
    else SendMessage(Route(team.chatId, defaultChat), text, NoMarkup)
  }

  /** A button press; `sendOk` is whether the send it makes, its first call, is delivered. */
  function CallbackOutcome(teams: Registry, cb: CallbackQuery, defaultChat: string, sendOk: bool): (o: Outcome)
    ensures o.response.status == 200
    ensures |o.calls| <= 3
    ensures !Contains(cb.data, ":") ==> o.calls == []
    ensures forall c :: c in o.calls && c.AnswerCallback? ==> c.callbackId == cb.id
  {
    if !Contains(cb.data, ":") then Outcome([], OkResponse)
    else
      var (action, key) := SplitToken(cb.data);
      match Lookup(teams, key)
      case None => Outcome([AnswerCallback(cb.id, NotFoundText)], BareResponse)
      case Some(team) =>
        if action == SendAction then
          var attempt := SendAttempt(team, cb.message, defaultChat);
          if sendOk then
            Outcome([attempt, AnswerCallback(cb.id, SentText), EditMarkup(cb.message.chat, cb.message.messageId)], OkResponse)
          else
            Outcome([attempt, AnswerCallback(cb.id, FailedText)], OkResponse)
        else if action == EditAction then
          Outcome([SendMessage(Route(cb.message.chat, defaultChat), EditPrompt(team.name, key), ForceReply(PromptPlaceholder(team.name))),
                   AnswerCallback(cb.id, WaitingText)], OkResponse)
        else Outcome([], OkResponse)
  }

  /** A message update: only a non-empty reply to an edit prompt of a known team is forwarded. */
  function ReplyCalls(teams: Registry, m: ChatMessage, defaultChat: string): (r: seq<Call>)
    ensures |r| <= 2
    ensures forall c :: c in r ==> c.SendMessage? && c.markup == NoMarkup
  {
    if m.replyTo.None? || m.replyTo.value.text.None? then []
    else
      var rt := m.replyTo.value.text.value;
      if !Contains(rt, IdMarker) then []
      else
        match Lookup(teams, ExtractKey(rt))
        case None => []
        case Some(team) =>
          if m.text == "" then []
          else
            var forward := SendMessage(Route(team.chatId, defaultChat), m.text, NoMarkup);
            // Without a chat id the confirmation raises, and the `except` around it swallows the error.
            if m.chat.Some? then [forward, SendMessage(Route(m.chat.value, defaultChat), EditedText, NoMarkup)]
            else [forward]
  }

  /** The send and edit buttons of a classified task (`team_key and team_conf`). */
  function TeamButtons(team: Option<(string, Team)>): Markup {
    if team.Some? && team.value.0 != "" then Buttons(Token(SendAction, team.value.0), Token(EditAction, team.value.0))
    else NoMarkup
  }

  /** One photo per image, in order, each with the same caption and buttons, to the default chat. */
  function PhotoCalls(images: seq<string>, caption: string, markup: Markup, defaultChat: string): seq<Call> {
    if images == [] then []
    else PhotoCalls(images[..|images| - 1], caption, markup, defaultChat)
         + [SendPhoto(defaultChat, images[|images| - 1], caption, markup)]
  }

  /** The comment text shown: the parsed text, or the photo placeholder when only images came. */
  function ShownText(comment: Option<Comment>): string {
    var text := ParsedText(comment);
    if text == "" && |ParsedImages(comment)| > 0 then PhotoPlaceholder else text
  }

  /** Whether the payload names a task (`if task_id`): only then is ClickUp asked about it. */
  predicate HasTaskId(ev: TaskRef) {
    ev.id.Some? && ev.id.value != ""
  }

  /** The notification burst for a ClickUp event. */
  function ClickUpCalls(teams: Registry, ev: TaskRef, fetched: Fetched, dateText: string, nowText: string, defaultChat: string): (r: seq<Call>)
    ensures |r| >= 1
    ensures forall c :: c in r ==> (c.SendMessage? || c.SendPhoto?) && c.chat == defaultChat
  {
    var taskName := ev.name.GetOr(DefaultTaskName);
    var task := if HasTaskId(ev) then fetched.task else None;
    var comment := if HasTaskId(ev) then fetched.comment else None;
    match comment
    case Some(c) => CommentCalls(taskName, c, Classify(teams, task), dateText, ShowId(ev.id), defaultChat)
    case None =>
      [SendMessage(defaultChat, ActivityMessage(taskName, nowText, ShowId(ev.id)), NoMarkup)]
  }

  /** The notification of a fetched comment: one photo per image, or one message, with the team's buttons. */
  function CommentCalls(taskName: string, c: Comment, team: Option<(string, Team)>, dateText: string, taskId: string,
                        defaultChat: string): (r: seq<Call>)
    ensures |r| >= 1
    ensures forall call :: call in r ==> (call.SendMessage? || call.SendPhoto?) && call.chat == defaultChat
  {
    var images := ParsedImages(Some(c));
    var msg := CommentMessage(taskName, ShownText(Some(c)), Author(c.user, DefaultAuthor), dateText, taskId);
    var markup := TeamButtons(team);
    PhotoCallsAt(images, msg, markup, defaultChat);
    if |images| > 0 then PhotoCalls(images, msg, markup, defaultChat)
    else [SendMessage(defaultChat, msg, markup)]
  }

  /** The event a ClickUp body describes: its `payload`, or the body itself. */
  function EventOf(body: Body): TaskRef {
    if body.payload.Some? then body.payload.value else body.root
  }

  /** The whole POST branch. `sendOk` is the delivery of the first call of the invocation. */
  function Dispatch(teams: Registry, body: Body, fetched: Fetched, dateText: string, nowText: string,
                    defaultChat: string, sendOk: bool): (o: Outcome)
    ensures o.response.status == 200 || o.response == NotAllowedResponse
    ensures o.response == NotAllowedResponse <==> !body.hasUpdateId && body.payload.None? && !body.hasEvent
    ensures o.response == NotAllowedResponse ==> o.calls == []
  {
    if body.hasUpdateId then
      if body.callbackQuery.Some? then CallbackOutcome(teams, body.callbackQuery.value, defaultChat, sendOk)
      else if body.message.Some? then Outcome(ReplyCalls(teams, body.message.value, defaultChat), OkResponse)
      else Outcome([], OkResponse)
    else if body.payload.Some? || body.hasEvent then
      Outcome(ClickUpCalls(teams, EventOf(body), fetched, dateText, nowText, defaultChat), OkResponse)
    else Outcome([], NotAllowedResponse)
  }

  // ----------------------------------------------------------------- methods

  /** The `callback_query` branch. */
  method HandleCallback(teams: Registry, cb: CallbackQuery, bot: Bot) returns (resp: Response)
    modifies bot
    ensures bot.log == old(bot.log) + CallbackOutcome(teams, cb, bot.defaultChat, bot.delivered(|old(bot.log)|)).calls
    ensures resp == CallbackOutcome(teams, cb, bot.defaultChat, bot.delivered(|old(bot.log)|)).response
  {
    var msg := cb.message;
    if Contains(cb.data, ":") {
      var (action, teamKey) := SplitToken(cb.data);
      var team := Lookup(teams, teamKey);
      if team.None? {
        bot.Answer(cb.id, NotFoundText);
        return BareResponse;
      }
      if action == SendAction {
        ForwardPressed(team.value, cb, bot);
      } else if action == EditAction {
        var teamName := team.value.name;
        var prompt := EditPrompt(teamName, teamKey);
        var _ := bot.Send(prompt, msg.chat, ForceReply(PromptPlaceholder(teamName)));
        bot.Answer(cb.id, WaitingText);
      }
    }
    return OkResponse;
  }

  /** The "send" press: the pressed message goes to the team, and the press is answered by the outcome. */
  method ForwardPressed(team: Team, cb: CallbackQuery, bot: Bot)
    modifies bot
    ensures var attempt := SendAttempt(team, cb.message, bot.defaultChat);
      bot.log == old(bot.log) +
        if bot.delivered(|old(bot.log)|) then [attempt, AnswerCallback(cb.id, SentText), EditMarkup(cb.message.chat, cb.message.messageId)]
        else [attempt, AnswerCallback(cb.id, FailedText)]
  {
    var msg := cb.message;
    var text := if msg.text != "" then msg.text else msg.caption;
    var sent;
    if |msg.photo| > 0 {
      var fileId := msg.photo[|msg.photo| - 1];
      sent := bot.SendImage(fileId, text, team.chatId, NoMarkup);
    } else {
      sent := bot.Send(text, team.chatId, NoMarkup);
    }
    if sent {
      bot.Answer(cb.id, SentText);
      bot.ClearButtons(msg.chat, msg.messageId);
    } else {
      bot.Answer(cb.id, FailedText);
    }
  }

  /** The `message` branch: a reply to an edit prompt. */
  method HandleReply(teams: Registry, m: ChatMessage, bot: Bot)
    modifies bot
    ensures bot.log == old(bot.log) + ReplyCalls(teams, m, bot.defaultChat)
  {
    var reply := m.replyTo;
    if reply.Some? && reply.value.text.Some? {
      var rt := reply.value.text.value;
      if Contains(rt, IdMarker) {
        var teamKey := ExtractKey(rt);
        var team := Lookup(teams, teamKey);
        var newText := m.text;
        if team.Some? && newText != "" {
          var _ := bot.Send(newText, team.value.chatId, NoMarkup);
          if m.chat.Some? {
            var _ := bot.Send(EditedText, m.chat.value, NoMarkup);
          }
        }
      }
    }
  }

  /** The ClickUp branch: classify the task, parse its latest comment and notify the default chat. */
  method HandleClickUp(teams: Registry, ev: TaskRef, fetched: Fetched, dateText: string, nowText: string, bot: Bot)
    modifies bot
    ensures bot.log == old(bot.log) + ClickUpCalls(teams, ev, fetched, dateText, nowText, bot.defaultChat)
  {
    var taskId := ev.id;
    var taskName := if ev.name.Some? then ev.name.value else DefaultTaskName;
    var taskData := if taskId.Some? && taskId.value != "" then fetched.task else None;
    var commentData := if taskId.Some? && taskId.value != "" then fetched.comment else None;
    var team := TeamFromTask(teams, taskData);
    if commentData.Some? {
      NotifyComment(taskName, commentData.value, team, dateText, ShowId(taskId), bot);
    } else {
      var msg := ActivityMessage(taskName, nowText, ShowId(taskId));
      var _ := bot.Send(msg, "", NoMarkup);
    }
  }

  /** The comment part of the ClickUp branch: parse the comment, build the message, send it or its photos. */
  method NotifyComment(taskName: string, c: Comment, team: Option<(string, Team)>, dateText: string, taskId: string, bot: Bot)
    modifies bot
    ensures bot.log == old(bot.log) + CommentCalls(taskName, c, team, dateText, taskId, bot.defaultChat)
  {
    var username := Author(c.user, DefaultAuthor);
    var commentText, images := ParseComment(Some(c));
    if commentText == "" && |images| > 0 {
      commentText := PhotoPlaceholder;
    }
    var msg := CommentMessage(taskName, commentText, username, dateText, taskId);
    var markup := NoMarkup;
    if team.Some? && team.value.0 != "" {
      markup := Buttons(Token(SendAction, team.value.0), Token(EditAction, team.value.0));
    }
    if |images| > 0 {
      SendPhotos(images, msg, markup, bot);
    } else {
      var _ := bot.Send(msg, "", markup);
    }
  }

  /** The loop over the comment's images: one photo each, to the default chat. */
  method SendPhotos(images: seq<string>, caption: string, markup: Markup, bot: Bot)
    modifies bot
    ensures bot.log == old(bot.log) + PhotoCalls(images, caption, markup, bot.defaultChat)
  {
    for i := 0 to |images|
      invariant bot.log == old(bot.log) + PhotoCalls(images[..i], caption, markup, bot.defaultChat)
    {
      assert images[..i + 1][..i] == images[..i];
      var _ := bot.SendImage(images[i], caption, "", markup);
    }
    assert images[..|images|] == images;
  }

  /** `handler(request)` for a POST whose body decoded to `body`. */
  method HandlePost(teams: Registry, body: Body, fetched: Fetched, dateText: string, nowText: string, bot: Bot)
    returns (resp: Response)
    modifies bot
    ensures bot.log == old(bot.log)
      + Dispatch(teams, body, fetched, dateText, nowText, bot.defaultChat, bot.delivered(|old(bot.log)|)).calls
    ensures resp == Dispatch(teams, body, fetched, dateText, nowText, bot.defaultChat, bot.delivered(|old(bot.log)|)).response
  {
    if body.hasUpdateId {
      if body.callbackQuery.Some? {
        resp := HandleCallback(teams, body.callbackQuery.value, bot);
        return;
      } else if body.message.Some? {
        HandleReply(teams, body.message.value, bot);
      }
      return OkResponse;
    }
    if body.payload.Some? || body.hasEvent {
      var payload := if body.payload.Some? then body.payload.value else body.root;
      HandleClickUp(teams, payload, fetched, dateText, nowText, bot);
      return OkResponse;
    }
    return NotAllowedResponse;
  }

  // -------------------------------------------------------------- properties

  /** The text a send shows: a message's text or a photo's caption. */
  function CallText(c: Call): string {
    match c
    case SendMessage(_, text, _) => text
    case SendPhoto(_, _, caption, _) => caption
    case AnswerCallback(_, text) => text
    case EditMarkup(_, _) => ""
  }

  /**
   * A body with `update_id` is a Telegram update: what it says about ClickUp,
   * what ClickUp would return and both clocks are never read, and it answers 200.
   */
  lemma TelegramUpdateFirst(teams: Registry, body: Body, fetched: Fetched, dateText: string, nowText: string,
                            defaultChat: string, sendOk: bool,
                            payload: Option<TaskRef>, hasEvent: bool, root: TaskRef,
                            fetched': Fetched, dateText': string, nowText': string)
    requires body.hasUpdateId
    ensures Dispatch(teams, body, fetched, dateText, nowText, defaultChat, sendOk)
         == Dispatch(teams, body.(payload := payload, hasEvent := hasEvent, root := root), fetched', dateText', nowText', defaultChat, sendOk)
    ensures Dispatch(teams, body, fetched, dateText, nowText, defaultChat, sendOk).response.status == 200
  {
  }

  /** In an update that has both, the callback query is handled and the message ignored. */
  lemma CallbackBeforeMessage(teams: Registry, body: Body, fetched: Fetched, dateText: string, nowText: string,
                              defaultChat: string, sendOk: bool, message: Option<ChatMessage>)
    requires body.hasUpdateId && body.callbackQuery.Some?
    ensures Dispatch(teams, body, fetched, dateText, nowText, defaultChat, sendOk)
         == Dispatch(teams, body.(message := message), fetched, dateText, nowText, defaultChat, sendOk)
  {
  }

  /** A body that is neither a Telegram update nor a ClickUp event makes no call and ends at the 405. */
  lemma UnrecognisedBody(teams: Registry, body: Body, fetched: Fetched, dateText: string, nowText: string,
                         defaultChat: string, sendOk: bool)
    requires !body.hasUpdateId && body.payload.None? && !body.hasEvent
    ensures Dispatch(teams, body, fetched, dateText, nowText, defaultChat, sendOk) == Outcome([], NotAllowedResponse)
  {
  }

  /** Only a "send" press reads whether a send was delivered; every other body makes the same calls either way. */
  lemma DeliveryReadOnlyBySend(teams: Registry, body: Body, fetched: Fetched, dateText: string, nowText: string, defaultChat: string)
    requires !(body.hasUpdateId && body.callbackQuery.Some? && Contains(body.callbackQuery.value.data, ":")
               && SplitToken(body.callbackQuery.value.data).0 == SendAction)
    ensures Dispatch(teams, body, fetched, dateText, nowText, defaultChat, true)
         == Dispatch(teams, body, fetched, dateText, nowText, defaultChat, false)
  {
  }

  /** Callback data without a colon is ignored. */
  lemma PressWithoutColon(teams: Registry, cb: CallbackQuery, defaultChat: string, sendOk: bool)
    requires !Contains(cb.data, ":")
    ensures CallbackOutcome(teams, cb, defaultChat, sendOk) == Outcome([], OkResponse)
  {
  }

  /** A press for a key that is not in the registry is only answered "team not found", with a bare 200. */
  lemma PressForUnknownTeam(teams: Registry, id: string, action: string, key: string, m: CallbackMessage,
                            defaultChat: string, sendOk: bool)
    requires !Contains(action, ":")
    requires Lookup(teams, key).None?
    ensures CallbackOutcome(teams, CallbackQuery(id, Token(action, key), m), defaultChat, sendOk)
         == Outcome([AnswerCallback(id, NotFoundText)], BareResponse)
  {
    TokenRoundTrip(action, key);
  }

  /** A press with an action other than "send" and "edit" on a known team makes no call. */
  lemma PressOtherAction(teams: Registry, id: string, action: string, key: string, m: CallbackMessage,
                         defaultChat: string, sendOk: bool)
    requires !Contains(action, ":") && action != SendAction && action != EditAction
    requires Lookup(teams, key).Some?
    ensures CallbackOutcome(teams, CallbackQuery(id, Token(action, key), m), defaultChat, sendOk) == Outcome([], OkResponse)
  {
    TokenRoundTrip(action, key);
  }

  /**
   * Pressing "send" for team `key` forwards the message to that team's chat:
   * the largest photo size with the text (else the caption) as caption, or the
   * text. Only a delivered send is confirmed and has its buttons removed from
   * the message that carried them; a failed one is answered with the failure text.
   */
  lemma SendPress(teams: Registry, id: string, key: string, team: Team, m: CallbackMessage,
                  defaultChat: string, sendOk: bool)
    requires Lookup(teams, key) == Some(team)
    ensures var o := CallbackOutcome(teams, CallbackQuery(id, Token(SendAction, key), m), defaultChat, sendOk);
      && o.response == OkResponse
      && |o.calls| == (if sendOk then 3 else 2)
      && o.calls[0] == (if |m.photo| > 0
                        then SendPhoto(Route(team.chatId, defaultChat), m.photo[|m.photo| - 1], if m.text != "" then m.text else m.caption, NoMarkup)
                        else SendMessage(Route(team.chatId, defaultChat), if m.text != "" then m.text else m.caption, NoMarkup))
      && o.calls[1] == AnswerCallback(id, if sendOk then SentText else FailedText)
      && (sendOk ==> o.calls[2] == EditMarkup(m.chat, m.messageId))
      && (forall i :: 0 <= i < |o.calls| ==> !o.calls[i].EditMarkup? || sendOk)
  {
    MissingFirstChar(SendAction, ":");
    TokenRoundTrip(SendAction, key);
  }

  /**
   * Pressing "edit" for team `key` sends exactly one force-reply prompt, to the
   * chat of the press, naming the team and carrying the key, then the waiting
   * answer, whether or not the prompt was delivered.
   */
  lemma EditPress(teams: Registry, id: string, key: string, team: Team, m: CallbackMessage, defaultChat: string, sendOk: bool)
    requires Lookup(teams, key) == Some(team)
    ensures var o := CallbackOutcome(teams, CallbackQuery(id, Token(EditAction, key), m), defaultChat, sendOk);
      && o == CallbackOutcome(teams, CallbackQuery(id, Token(EditAction, key), m), defaultChat, !sendOk)
      && o.response == OkResponse
      && |o.calls| == 2
      && o.calls[0] == SendMessage(Route(m.chat, defaultChat), EditPrompt(team.name, key), ForceReply(PromptPlaceholder(team.name)))
      && o.calls[1] == AnswerCallback(id, WaitingText)
  {
    MissingFirstChar(EditAction, ":");
    TokenRoundTrip(EditAction, key);
  }

  /**
   * A message update is forwarded exactly when it replies to a text holding
   * the marker, the key after the marker names a team and the message has text;
   * then the new text goes to that team's chat and the confirmation to the
   * replier's chat, the confirmation whatever became of the first send. A
   * message without a chat id gets no confirmation: reading the id raises after
   * the first send, and the error is swallowed.
   */
  lemma ReplyForwarding(teams: Registry, m: ChatMessage, defaultChat: string)
    ensures var calls := ReplyCalls(teams, m, defaultChat);
      && |calls| <= 2
      && (|calls| > 0 <==>
            && m.replyTo.Some? && m.replyTo.value.text.Some?
            && Contains(m.replyTo.value.text.value, IdMarker)
            && Lookup(teams, ExtractKey(m.replyTo.value.text.value)).Some?
            && m.text != "")
      && (|calls| == 2 <==> |calls| > 0 && m.chat.Some?)
      && (|calls| > 0 ==>
            calls[0] == SendMessage(Route(Lookup(teams, ExtractKey(m.replyTo.value.text.value)).value.chatId, defaultChat), m.text, NoMarkup))
      && (|calls| == 2 ==> calls[1] == SendMessage(Route(m.chat.value, defaultChat), EditedText, NoMarkup))
  {
  }

  /**
   * The approval round trip: the reply to the prompt that an "edit" press
   * sent is forwarded to the team the button was pressed for, when the key
   * holds neither ")" nor the marker and the team name does not hold the marker.
   */
  lemma EditThenReply(teams: Registry, id: string, key: string, team: Team, pressed: CallbackMessage,
                      defaultChat: string, sendOk: bool, replyChat: string, newText: string)
    requires Lookup(teams, key) == Some(team)
    requires !Contains(key, ")") && !Contains(key, IdMarker) && !Contains(team.name, IdMarker)
    requires newText != ""
    ensures |CallbackOutcome(teams, CallbackQuery(id, Token(EditAction, key), pressed), defaultChat, sendOk).calls| == 2
    ensures var prompt := CallbackOutcome(teams, CallbackQuery(id, Token(EditAction, key), pressed), defaultChat, sendOk).calls[0];
      && prompt.SendMessage?
      && ReplyCalls(teams, ChatMessage(Some(replyChat), newText, Some(ReplyTo(Some(prompt.text)))), defaultChat)
         == [SendMessage(Route(team.chatId, defaultChat), newText, NoMarkup),
             SendMessage(Route(replyChat, defaultChat), EditedText, NoMarkup)]
  {
    EditPress(teams, id, key, team, pressed, defaultChat, sendOk);
    ReplyToPrompt(teams, key, team, replyChat, newText, defaultChat);
  }

  /**
   * The buttons put on a classified task's notification come back, when
   * pressed, as the action and the very team the classifier chose.
   */
  lemma ButtonsResolveToTeam(teams: Registry, task: Option<Task>)
    requires UniqueKeys(teams)
    requires Classify(teams, task).Some? && Classify(teams, task).value.0 != ""
    ensures TeamButtons(Classify(teams, task)).Buttons?
    ensures var b := TeamButtons(Classify(teams, task));
      && Contains(b.sendData, ":") && Contains(b.editData, ":")
      && SplitToken(b.sendData) == (SendAction, Classify(teams, task).value.0)
      && SplitToken(b.editData) == (EditAction, Classify(teams, task).value.0)
      && Lookup(teams, Classify(teams, task).value.0) == Some(Classify(teams, task).value.1)
  {
    var key := Classify(teams, task).value.0;
    ClassifySound(teams, task);
    MissingFirstChar(SendAction, ":");
    MissingFirstChar(EditAction, ":");
    TokenRoundTrip(SendAction, key);
    TokenRoundTrip(EditAction, key);
  }

  /** Buttons are attached exactly when the classifier found a team (with a non-empty key). */
  lemma ButtonsIffTeam(team: Option<(string, Team)>)
    ensures TeamButtons(team).Buttons? <==> team.Some? && team.value.0 != ""
    ensures !TeamButtons(team).Buttons? ==> TeamButtons(team) == NoMarkup
  {
  }

  /** The photo burst has one photo per image, in order, all alike but for the photo. */
  lemma {:induction false} PhotoCallsAt(images: seq<string>, caption: string, markup: Markup, defaultChat: string)
    ensures |PhotoCalls(images, caption, markup, defaultChat)| == |images|
    ensures forall i :: 0 <= i < |images| ==>
      PhotoCalls(images, caption, markup, defaultChat)[i] == SendPhoto(defaultChat, images[i], caption, markup)
    decreases |images|
  {
    if images != [] {
      PhotoCallsAt(images[..|images| - 1], caption, markup, defaultChat);
    }
  }

  /** The value of a labelled line occurs in any text around that line. */
  lemma LineValue(before: string, tag: string, x: string, n: string)
    ensures Contains(before + (tag + x + n), x)
  {
    ContainsEnd(tag, x);
    ContainsExtend(tag + x, n, x);
    ContainsPrepend(before, tag + x + n, x);
  }

  /** Each value of a message made of four labelled lines occurs in it. */
  lemma LinesContainValues(h: string, n: string, t: string,
                           p1: string, x1: string, p2: string, x2: string, p3: string, x3: string, p4: string, x4: string)
    ensures var msg := h + (p1 + x1 + n) + (p2 + x2 + n) + (p3 + x3 + n) + (p4 + x4 + n) + t;
      Contains(msg, x1) && Contains(msg, x2) && Contains(msg, x3) && Contains(msg, x4)
  {
    var l1, l2, l3, l4 := p1 + x1 + n, p2 + x2 + n, p3 + x3 + n, p4 + x4 + n;
    LineValue(h, p1, x1, n);
    ContainsExtend(h + l1, l2, x1);
    ContainsExtend(h + l1 + l2, l3, x1);
    ContainsExtend(h + l1 + l2 + l3, l4, x1);
    ContainsExtend(h + l1 + l2 + l3 + l4, t, x1);
    LineValue(h + l1, p2, x2, n);
    ContainsExtend(h + l1 + l2, l3, x2);
    ContainsExtend(h + l1 + l2 + l3, l4, x2);
    ContainsExtend(h + l1 + l2 + l3 + l4, t, x2);
    LineValue(h + l1 + l2, p3, x3, n);
    ContainsExtend(h + l1 + l2 + l3, l4, x3);
    ContainsExtend(h + l1 + l2 + l3 + l4, t, x3);
    LineValue(h + l1 + l2 + l3, p4, x4, n);
    ContainsExtend(h + l1 + l2 + l3 + l4, t, x4);
  }

  /** The comment notification names the task, shows the comment text and the author, and the date. */
  lemma CommentMessageNames(taskName: string, commentText: string, username: string, date: string, taskId: string)
    ensures Contains(CommentMessage(taskName, commentText, username, date, taskId), taskName)
    ensures Contains(CommentMessage(taskName, commentText, username, date, taskId), commentText)
    ensures Contains(CommentMessage(taskName, commentText, username, date, taskId), username)
    ensures Contains(CommentMessage(taskName, commentText, username, date, taskId), date)
  {
    LinesContainValues("💬 **کامنت جدید**\n\n", "\n\n", TaskLink(taskId),
                       "📋 **تسک:** ", taskName, "💬 **کامنت:** ", commentText,
                       "👤 **نوشته:** ", username, "🕐 **تاریخ:** ", date);
  }

  /** The activity notice names the task and shows the time. */
  lemma ActivityMessageNames(taskName: string, now: string, taskId: string)
    ensures Contains(ActivityMessage(taskName, now, taskId), taskName)
    ensures Contains(ActivityMessage(taskName, now, taskId), now)
  {
    var a, b, c := "🔔 **فعالیت جدید**\n\n📋 **تسک:** ", "\n\n🕐 ", "\n\n" + TaskLink(taskId);
    assert ActivityMessage(taskName, now, taskId) == a + taskName + b + now + c;
    TwoValues(a, taskName, b, now, c);
  }

  /** Both values of a two-field message occur in it. */
  lemma TwoValues(a: string, x: string, b: string, y: string, c: string)
    ensures Contains(a + x + b + y + c, x) && Contains(a + x + b + y + c, y)
  {
    assert a + x + b + y + c == a + x + (b + y + c);
    ContainsMiddle(a, x, b + y + c);
    ContainsMiddle(a + x + b, y, c);
  }

  /** The text shown for a comment is its parsed text, or the placeholder when only images came. */
  lemma ShownTextChoice(comment: Option<Comment>)
    ensures ParsedText(comment) != "" ==> ShownText(comment) == ParsedText(comment)
    ensures ShownText(comment) == "" <==> ParsedText(comment) == "" && ParsedImages(comment) == []
    ensures ParsedText(comment) == "" && |ParsedImages(comment)| > 0 ==> ShownText(comment) == PhotoPlaceholder
  {
  }

  /**
   * A ClickUp event whose task has a latest comment: one photo per image, or
   * one message when there is none, all to the default chat, all with the same
   * text, which names the task, shows the comment text (or the placeholder) and
   * the author, and all with the buttons of the classified team, if any.
   */
  lemma CommentNotification(teams: Registry, ev: TaskRef, fetched: Fetched, dateText: string, nowText: string,
                            defaultChat: string, c: Comment)
    requires HasTaskId(ev) && fetched.comment == Some(c)
    ensures var calls := ClickUpCalls(teams, ev, fetched, dateText, nowText, defaultChat);
      var images := ParsedImages(Some(c));
      var text := CommentMessage(ev.name.GetOr(DefaultTaskName), ShownText(Some(c)), Author(c.user, DefaultAuthor), dateText, ShowId(ev.id));
      && |calls| == (if |images| > 0 then |images| else 1)
      && (forall i :: 0 <= i < |calls| ==>
            && (calls[i].SendPhoto? || calls[i].SendMessage?)
            && calls[i].chat == defaultChat
            && calls[i].markup == TeamButtons(Classify(teams, fetched.task))
            && CallText(calls[i]) == text
            && (calls[i].SendPhoto? <==> |images| > 0)
            && (calls[i].SendPhoto? ==> calls[i].photo == images[i]))
      && Contains(text, ev.name.GetOr(DefaultTaskName))
      && Contains(text, ShownText(Some(c)))
      && Contains(text, Author(c.user, DefaultAuthor))
  {
    var text := CommentMessage(ev.name.GetOr(DefaultTaskName), ShownText(Some(c)), Author(c.user, DefaultAuthor), dateText, ShowId(ev.id));
    PhotoCallsAt(ParsedImages(Some(c)), text, TeamButtons(Classify(teams, fetched.task)), defaultChat);
    CommentMessageNames(ev.name.GetOr(DefaultTaskName), ShownText(Some(c)), Author(c.user, DefaultAuthor), dateText, ShowId(ev.id));
  }

  /**
   * A ClickUp event without a task id, or whose task has no comment, makes
   * exactly one activity notice to the default chat, without buttons, naming the task.
   */
  lemma ActivityNotification(teams: Registry, ev: TaskRef, fetched: Fetched, dateText: string, nowText: string, defaultChat: string)
    requires !HasTaskId(ev) || fetched.comment.None?
    ensures var calls := ClickUpCalls(teams, ev, fetched, dateText, nowText, defaultChat);
      && |calls| == 1
      && calls[0].SendMessage? && calls[0].chat == defaultChat && calls[0].markup == NoMarkup
      && Contains(calls[0].text, ev.name.GetOr(DefaultTaskName))
      && Contains(calls[0].text, nowText)
  {
    ActivityMessageNames(ev.name.GetOr(DefaultTaskName), nowText, ShowId(ev.id));
  }

  // --------------------------------------------------------------- scenarios

  /**
   * A comment made of a single text segment, such as "Done", on a task that no
   * team claims: exactly one text message, to the default chat, showing that
   * text, without buttons, and nothing to any team's chat.
   */
  lemma SingleTextScenario(teams: Registry, ev: TaskRef, fetched: Fetched, dateText: string, nowText: string,
                           defaultChat: string, c: Comment, text: string)
    requires HasTaskId(ev) && fetched.comment == Some(c)
    requires c.segments == [Segment("text", text, "", "")]
    requires text != "" && !IsSpace(text[0]) && !IsSpace(text[|text| - 1])
    requires Classify(teams, fetched.task).None?
    ensures var calls := ClickUpCalls(teams, ev, fetched, dateText, nowText, defaultChat);
      && |calls| == 1
      && calls[0].SendMessage? && calls[0].chat == defaultChat && calls[0].markup == NoMarkup
      && Contains(calls[0].text, text)
  {
    SingleTextSegment(c, text);
    CommentNotification(teams, ev, fetched, dateText, nowText, defaultChat, c);
  }

  /**
   * A comment made of one image and no text, on a task classified as
   * "facility": one photo to the default chat, captioned with the image
   * placeholder and carrying the facility buttons.
   */
  lemma ImageOnlyScenario(ev: TaskRef, fetched: Fetched, dateText: string, nowText: string,
                          defaultChat: string, c: Comment, image: string)
    requires HasTaskId(ev) && fetched.comment == Some(c)
    requires c.segments == [Segment("image", "", image, "")] && image != "" && c.commentText == ""
    requires Classify(DefaultTeams, fetched.task) == Some(DefaultTeams[0])
    ensures var calls := ClickUpCalls(DefaultTeams, ev, fetched, dateText, nowText, defaultChat);
      && |calls| == 1
      && calls[0].SendPhoto? && calls[0].chat == defaultChat && calls[0].photo == image
      && Contains(calls[0].caption, PhotoPlaceholder)
      && calls[0].markup == Buttons(Token(SendAction, "facility"), Token(EditAction, "facility"))
  {
    ImageOnlyComment(c);
    assert ParsedImages(Some(c)) == [image] by {
      assert c.segments[..0] == [];
    }
    CommentNotification(DefaultTeams, ev, fetched, dateText, nowText, defaultChat, c);
  }

  /**
   * A "send" press for "facility" while that team is marked disabled still
   * forwards the message to its chat: the flag is never read.
   */
  lemma DisabledTeamStillReceives(id: string, m: CallbackMessage, defaultChat: string, sendOk: bool)
    ensures var teams := [("facility", DefaultTeams[0].1.(enabled := false))];
      var o := CallbackOutcome(teams, CallbackQuery(id, Token(SendAction, "facility"), m), defaultChat, sendOk);
      && |o.calls| >= 2
      && (o.calls[0].SendMessage? || o.calls[0].SendPhoto?)
      && o.calls[0].chat == "-1002914241474"
  {
    var teams := [("facility", DefaultTeams[0].1.(enabled := false))];
    assert Lookup(teams, "facility") == Some(teams[0].1);
    SendPress(teams, id, "facility", teams[0].1, m, defaultChat, sendOk);
  }

  /** A reply to a text without the marker makes no call at all. */
  lemma ReplyWithoutMarker(teams: Registry, chat: string, newText: string, replied: string, defaultChat: string)
    requires !Contains(replied, IdMarker)
    ensures ReplyCalls(teams, ChatMessage(Some(chat), newText, Some(ReplyTo(Some(replied)))), defaultChat) == []
  {
  }

  /**
   * "Updated answer" in reply to the facility edit prompt: one send of it to
   * the facility chat, then the confirmation to the replier's chat.
   */
  lemma ReplyToFacilityPrompt(chat: string, defaultChat: string)
    ensures var prompt := EditPrompt(DefaultTeams[0].1.name, "facility");
      ReplyCalls(DefaultTeams, ChatMessage(Some(chat), "Updated answer", Some(ReplyTo(Some(prompt)))), defaultChat)
        == [SendMessage("-1002914241474", "Updated answer", NoMarkup),
            SendMessage(Route(chat, defaultChat), EditedText, NoMarkup)]
  {
    FacilityPromptable();
    ReplyToPrompt(DefaultTeams, "facility", DefaultTeams[0].1, chat, "Updated answer", defaultChat);
  }

  /** The configured facility team can be prompted for: its key and name survive the prompt round trip. */
  lemma FacilityPromptable()
    ensures Lookup(DefaultTeams, "facility") == Some(DefaultTeams[0].1)
    ensures !Contains("facility", ")") && !Contains("facility", IdMarker) && !Contains(DefaultTeams[0].1.name, IdMarker)
  {
    FacilityKeyClean();
    FacilityNameClean();
  }

  /** The facility key holds neither ")" nor the marker. */
  lemma FacilityKeyClean()
    ensures !Contains("facility", ")") && !Contains("facility", IdMarker)
  {
    MissingFirstChar("facility", ")");
    MissingFirstChar("facility", IdMarker);
  }

  /** The facility team's name holds no marker. */
  lemma FacilityNameClean()
    ensures !Contains(DefaultTeams[0].1.name, IdMarker)
  {
    MissingFirstChar(DefaultTeams[0].1.name, IdMarker);
  }

  /** A reply to the prompt built for a registered key goes to that key's team, then the confirmation back. */
  lemma ReplyToPrompt(teams: Registry, key: string, team: Team, chat: string, text: string, defaultChat: string)
    requires Lookup(teams, key) == Some(team)
    requires !Contains(key, ")") && !Contains(key, IdMarker) && !Contains(team.name, IdMarker)
    requires text != ""
    ensures ReplyCalls(teams, ChatMessage(Some(chat), text, Some(ReplyTo(Some(EditPrompt(team.name, key))))), defaultChat)
        == [SendMessage(Route(team.chatId, defaultChat), text, NoMarkup),
            SendMessage(Route(chat, defaultChat), EditedText, NoMarkup)]
  {
    PromptRoundTrip(team.name, key);
  }
}
