/**
 * The message handler of handlers/message_handler.py: it rejects a chat
 * without an id, stands a "[TYPE]" placeholder in for a message without
 * text, notifies the administrator without letting a notification failure
 * stop it, and counts what it processed.
 *
 * The repository's Database class has no `save_message`, so the guarded
 * save is never attempted and is not part of this model.
 */
module Messages {
  import opened Common
  import opened Text
  import Telegram

  /**
   * The `last_message_text` attribute: missing or empty, a string, or a
   * truthy value that is not a string (slicing it for the log raises).
   */
  datatype TextAttr = Missing | Str(s: string) | NotSliceable

  /** What get_stats reports. */
  datatype HandlerStats = HandlerStats(messagesProcessed: nat, autoresponsesSent: nat, errors: nat)

  /** A truthy chat id: present and not 0. */
  predicate HasChatId(chatId: Option<int>)
  {
    chatId.Some? && chatId.value != 0
  }

  /** The stand-in for a message without text: "[" + upper(str(type)) + "]", "[UNKNOWN]" without a type. */
  function Placeholder(messageType: Option<string>): (p: string)
    ensures |p| >= 2 && p[0] == '[' && p[|p| - 1] == ']'
    ensures messageType.None? || messageType == Some("") ==> p == "[UNKNOWN]"
    ensures messageType.Some? && messageType.value != "" ==> p[1..|p| - 1] == Upper(messageType.value)
  {
    "[" + (if messageType.Some? && messageType.value != "" then Upper(messageType.value) else "UNKNOWN") + "]"
  }

  /** The text the handler passes on: the message text, or the placeholder when there is none. */
  function DisplayText(text: TextAttr, messageType: Option<string>): (d: string)
    requires !text.NotSliceable?
    ensures d != ""
    ensures text.Str? && text.s != "" ==> d == text.s
    ensures text.Missing? || text == Str("") ==> d == Placeholder(messageType)
  {
    if text.Str? && text.s != "" then text.s else Placeholder(messageType)
  }

  class MessageHandler {
    var messagesProcessed: nat
    var autoresponsesSent: nat
    var errors: nat
    const bot: Telegram.TelegramBot?

    constructor (bot: Telegram.TelegramBot?)
      ensures this.bot == bot && messagesProcessed == autoresponsesSent == errors == 0
    {
      this.bot := bot;
      messagesProcessed, autoresponsesSent, errors := 0, 0, 0;
    }

    /** The bot as a set of objects, empty when none is wired. */
    function Notifier(): set<Telegram.TelegramBot>
    {
      if bot == null then {} else {bot}
    }

    function Stats(): (s: HandlerStats)
      reads this
      ensures s.messagesProcessed == messagesProcessed && s.errors == errors
    {
      HandlerStats(messagesProcessed, autoresponsesSent, errors)
    }

    /**
     * handle: a text that cannot be sliced raises while being logged, which
     * is counted as an error (false). Otherwise a falsy chat id gives false
     * with nothing changed. Otherwise the administrator is notified (a
     * missing bot raises there, which is contained), the message is counted
     * and true returned.
     */
    method Handle(chatId: Option<int>, username: string, text: TextAttr, messageType: Option<string>,
                  notifyFails: bool) returns (ok: bool)
      modifies this`messagesProcessed, this`errors, Notifier()`notificationsSent, Notifier()`sent
      ensures ok <==> !text.NotSliceable? && HasChatId(chatId)
      ensures errors == old(errors) + (if text.NotSliceable? then 1 else 0)
      ensures messagesProcessed == old(messagesProcessed) + (if ok then 1 else 0)
      ensures !ok && bot != null ==> bot.sent == old(bot.sent) && bot.notificationsSent == old(bot.notificationsSent)
      ensures ok && bot != null ==>
        bot.sent == old(bot.sent) + (if bot.hasApp && !notifyFails
          then [Telegram.Notice(Telegram.MessageNotice(username, DisplayText(text, messageType)),
                                Some(Telegram.CallbackData(chatId.value)))]
          else [])
    {
      if text.NotSliceable? {
        errors := errors + 1;
        return false;
      }
      if !HasChatId(chatId) {
        return false;
      }
      var shown := DisplayText(text, messageType);
      if bot != null {
        bot.SendMessageNotification(chatId.value, username, shown, notifyFails);
      }
      messagesProcessed := messagesProcessed + 1;
      return true;
    }
  }
}
