/**
 * The outbound Telegram Bot API calls the webhook makes, recorded in order.
 * Whether a send is delivered is not modelled: it comes from an oracle, because
 * the transport returns nothing on any failure (no token, network error,
 * non-200 status) and the webhook only tests the result for truth.
 */
module Telegram {

  /** The `reply_markup` of a message, reduced to what the webhook sets. */
  datatype Markup =
    | NoMarkup
    | ForceReply(placeholder: string)
    | Buttons(sendData: string, editData: string)

  /** One Bot API request, with the chat already resolved. */
  datatype Call =
    | SendMessage(chat: string, text: string, markup: Markup)
    | SendPhoto(chat: string, photo: string, caption: string, markup: Markup)
    | AnswerCallback(callbackId: string, text: string)
    | EditMarkup(chat: string, messageId: int)

  /** `chat_id or TELEGRAM_CHAT_ID`: an empty chat id means the default chat. */
  function Route(chat: string, defaultChat: string): (r: string)
    ensures r != "" || defaultChat == ""
    ensures chat != "" ==> r == chat
    ensures chat == "" ==> r == defaultChat
  {
    if chat != "" then chat else defaultChat
  }

  /** The bot: its default chat, the delivery oracle and the log of the requests made so far. */
  class Bot {
    const defaultChat: string
    /** Whether the request at this position of the log is answered with status 200. */
    const delivered: nat -> bool
    var log: seq<Call>

    constructor (defaultChat: string, delivered: nat -> bool)
      ensures this.defaultChat == defaultChat && this.delivered == delivered
      ensures log == []
    {
      this.defaultChat := defaultChat;
      this.delivered := delivered;
      log := [];
    }

    /** `send_message(text, chat_id, reply_markup)`; `ok` is its result's truth. */
    method Send(text: string, chat: string, markup: Markup) returns (ok: bool)
      modifies this
      ensures log == old(log) + [SendMessage(Route(chat, defaultChat), text, markup)]
      ensures ok == delivered(|old(log)|)
    {
      ok := delivered(|log|);
      log := log + [SendMessage(Route(chat, defaultChat), text, markup)];
    }

    /** `send_photo(photo, caption, chat_id, reply_markup)`. */
    method SendImage(photo: string, caption: string, chat: string, markup: Markup) returns (ok: bool)
      modifies this
      ensures log == old(log) + [SendPhoto(Route(chat, defaultChat), photo, caption, markup)]
      ensures ok == delivered(|old(log)|)
    {
      ok := delivered(|log|);
      log := log + [SendPhoto(Route(chat, defaultChat), photo, caption, markup)];
    }

    /** `answer_callback(callback_query_id, text)`; its result is never used. */
    method Answer(callbackId: string, text: string)
      modifies this
      ensures log == old(log) + [AnswerCallback(callbackId, text)]
    {
      log := log + [AnswerCallback(callbackId, text)];
    }

    /** `edit_message_reply_markup(chat_id, message_id, None)`: removes the inline buttons. */
    method ClearButtons(chat: string, messageId: int)
      modifies this
      ensures log == old(log) + [EditMarkup(chat, messageId)]
    {
      log := log + [EditMarkup(chat, messageId)];
    }
  }
}
