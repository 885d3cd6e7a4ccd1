/**
 * The administrator's Telegram bot of core/telegram_bot.py: the active-chat
 * selection driven by "select_chat:<id>" buttons, replies forwarded to the
 * marketplace through the client, the /start, /help, /stats and /chats
 * commands, the two notifications, and the counters.
 *
 * Every Telegram API call (answering a query, replying, sending to the
 * administrator) is a boolean "it raised" oracle; the messages the API
 * accepted for the administrator are logged.
 */
module Telegram {
  import opened Common
  import opened Text
  import Helpers
  import FunPay
  import Retry

  /** The part of the callback data before its colon. */
  const ChatTag := "select_chat"

  /** The callback data of a button that selects the chat: "select_chat:<id>". */
  function CallbackData(chatId: int): (d: string)
    ensures StartsWith(d, ChatTag + ":")
  {
    ChatTag + ":" + IntToStr(chatId)
  }

  /** `data.split(":")[1]`: the text between the first and the second colon; None (IndexError) without a colon. */
  function SecondField(data: string): (f: Option<string>)
    ensures f.Some? ==> ':' !in f.value
  {
    match Helpers.IndexOf(data, ':')
    case None => None
    case Some(i) =>
      var rest := data[i + 1..];
      match Helpers.IndexOf(rest, ':')
      case None => Some(rest)
      case Some(j) => Some(rest[..j])
  }

  /** The chat a callback selects: a "select_chat:" prefix and an integer second field. */
  function SelectedChat(data: string): (r: Option<int>)
    ensures r.Some? ==> StartsWith(data, ChatTag + ":")
  {
    if !StartsWith(data, ChatTag + ":") then None
    else match SecondField(data)
      case None => None
      case Some(f) => ParseInt(f)
  }

  /** The data of a button for a chat selects exactly that chat again. */
  lemma CallbackRoundTrip(chatId: int)
    ensures SelectedChat(CallbackData(chatId)) == Some(chatId)
  {
    var digits := IntToStr(chatId);
    var data := CallbackData(chatId);
    Helpers.ColonAt(ChatTag, digits);
    assert data[|ChatTag| + 1..] == digits;
    IntToStrRoundTrip(chatId);
  }

  /** A chat as `account.get_chats()` lists it; the name attribute may be missing. */
  datatype ChatRef = ChatRef(id: int, name: Option<string>)

  /** An inline keyboard button. */
  datatype Button = Button(caption: string, data: string)

  /** What /chats answers. */
  datatype ChatsReply = NotInitialised | NoChats | Keyboard(buttons: seq<Button>) | FetchFailed

  /** A message the Telegram API accepted for the administrator, with its reply button if any. */
  datatype Notice = Notice(body: string, replyData: Option<string>)

  /** What get_stats reports and /stats shows. */
  datatype BotStats = BotStats(notificationsSent: nat, repliesSent: nat, commandsProcessed: nat)

  /** The maximum number of chat buttons /chats offers. */
  const MaxChatButtons := 10

  function ChatButton(chat: ChatRef): Button
  {
    var name := if chat.name.Some? then chat.name.value else "Chat " + IntToStr(chat.id);
    Button("💬 " + name, CallbackData(chat.id))
  }

  /** The /chats keyboard: one button for each of the first ten chats, in order. */
  function ChatButtons(chats: seq<ChatRef>): (r: seq<Button>)
    ensures |r| <= MaxChatButtons
    ensures |r| == if |chats| < MaxChatButtons then |chats| else MaxChatButtons
  {
    var shown := if |chats| < MaxChatButtons then chats else chats[..MaxChatButtons];
    seq(|shown|, i requires 0 <= i < |shown| => ChatButton(shown[i]))
  }

  /** Pressing the i-th /chats button selects the i-th listed chat. */
  lemma ChatButtonsSelect(chats: seq<ChatRef>)
    ensures forall i :: 0 <= i < |ChatButtons(chats)| ==> SelectedChat(ChatButtons(chats)[i].data) == Some(chats[i].id)
  {
    forall i | 0 <= i < |ChatButtons(chats)|
      ensures SelectedChat(ChatButtons(chats)[i].data) == Some(chats[i].id)
    {
      assert ChatButtons(chats)[i] == ChatButton(chats[i]);
      CallbackRoundTrip(chats[i].id);
    }
  }

  const MessageHeader := "💬 Новое сообщение от <b>"

  /** The notification of a marketplace message: the sender and at most 200 characters of the text. */
  function MessageNotice(username: string, text: string): (body: string)
    ensures var head := MessageHeader + username + "</b>\n\n";
      |head| <= |body| && |body| - |head| == (if |text| < 200 then |text| else 200) &&
      body[..|head|] == head && body[|head|..] == text[..|body| - |head|]
  {
    MessageHeader + username + "</b>\n\n" + Helpers.SliceTo(text, 200)
  }

  /** The notification of a new order; the price is always missing from its only caller. */
  function OrderNotice(orderId: string, buyerUsername: string, description: string): string
  {
    "🛒 Новый заказ!\n\nID: " + orderId + "\nПокупатель: " + buyerUsername + "\nОписание: " + description +
    "\nЦена: не указана"
  }

  /** A truthy chat id: present and not 0. */
  predicate IsSelected(chat: Option<int>)
  {
    chat.Some? && chat.value != 0
  }

  class TelegramBot {
    /** Whether start() has built the application. */
    var hasApp: bool
    /** The chat the next administrator message is forwarded to. */
    var activeChat: Option<int>
    var notificationsSent: nat
    var repliesSent: nat
    var commandsProcessed: nat
    /** Messages the Telegram API accepted for the administrator, in order. */
    var sent: seq<Notice>
    /** The marketplace client replies go through, if wired. */
    const client: FunPay.FunPayClient?

    /** The client as a set of objects, empty when none is wired. */
    function Client(): set<FunPay.FunPayClient>
    {
      if client == null then {} else {client}
    }

    constructor (client: FunPay.FunPayClient?)
      ensures this.client == client && !hasApp && activeChat.None?
      ensures notificationsSent == repliesSent == commandsProcessed == 0 && sent == []
    {
      this.client := client;
      hasApp := false;
      activeChat := None;
      notificationsSent, repliesSent, commandsProcessed := 0, 0, 0;
      sent := [];
    }

    /** start: the application exists from the moment it is built, even if starting it then raises. */
    method Start(startFails: bool) returns (ok: bool)
      modifies this`hasApp
      ensures hasApp && ok == !startFails
    {
      hasApp := true;
      return !startFails;
    }

    function Stats(): (s: BotStats)
      reads this
      ensures s.notificationsSent == notificationsSent && s.repliesSent == repliesSent &&
              s.commandsProcessed == commandsProcessed
    {
      BotStats(notificationsSent, repliesSent, commandsProcessed)
    }

    /** /start and /help: the command is counted whether or not the reply goes through. */
    method Command()
      modifies this`commandsProcessed
      ensures commandsProcessed == old(commandsProcessed) + 1
    {
      commandsProcessed := commandsProcessed + 1;
    }

    /** /stats: counted first, so the report includes this command. */
    method CmdStats() returns (report: BotStats, active: Option<int>)
      modifies this`commandsProcessed
      ensures commandsProcessed == old(commandsProcessed) + 1
      ensures report == Stats() && (active.Some? <==> IsSelected(activeChat)) && (active.Some? ==> active == activeChat)
    {
      commandsProcessed := commandsProcessed + 1;
      report := Stats();
      active := if IsSelected(activeChat) then activeChat else None;
    }

    /**
     * /chats: counted; without a client or account it says so; a failing
     * `get_chats` is reported; no chats is reported; otherwise the first
     * ten chats become buttons.
     */
    method CmdChats(hasAccount: bool, chats: Option<seq<ChatRef>>) returns (reply: ChatsReply)
      modifies this`commandsProcessed
      ensures commandsProcessed == old(commandsProcessed) + 1
      ensures client == null || !hasAccount ==> reply == NotInitialised
      ensures client != null && hasAccount ==>
        reply == (if chats.None? then FetchFailed else if chats.value == [] then NoChats else Keyboard(ChatButtons(chats.value)))
    {
      commandsProcessed := commandsProcessed + 1;
      if client == null || !hasAccount {
        return NotInitialised;
      }
      if chats.None? {
        return FetchFailed;
      }
      if chats.value == [] {
        return NoChats;
      }
      return Keyboard(ChatButtons(chats.value));
    }

    /**
     * _handle_callback: once the query is answered, a "select_chat:<id>"
     * callback with an integer id makes that chat active; a malformed id or
     * any other data leaves the selection alone.
     */
    method HandleCallback(data: string, answerFails: bool)
      modifies this`activeChat
      ensures activeChat == if !answerFails && SelectedChat(data).Some? then SelectedChat(data) else old(activeChat)
    {
      if answerFails {
        return;
      }
      if StartsWith(data, ChatTag + ":") {
        var chat := SelectedChat(data);
        if chat.Some? {
          activeChat := chat;
        }
      }
    }

    /**
     * _handle_message: with a selected chat and a client, the text is sent
     * through the client; a completed send is counted as a reply and, once
     * the confirmation reply goes through, the selection is cleared. A
     * failed send changes neither; without a selection nothing is sent.
     */
    method HandleMessage(text: string, accountSend: nat -> bool, confirmFails: bool) returns (forwarded: bool)
      modifies this`repliesSent, this`activeChat, Client()`messagesSent, Client()`outbox, Client()`now
      ensures forwarded <==> IsSelected(old(activeChat)) && client != null &&
                             SucceedsWithin(FunPay.Completes(accountSend), 3)
      ensures !IsSelected(old(activeChat)) || client == null ==> client == null || unchanged(client)
      ensures forwarded ==>
        client.outbox == old(client.outbox) + [(old(activeChat).value, Helpers.SanitizeForFunPay(Some(text)))] &&
        client.messagesSent == old(client.messagesSent) + 1
      ensures !forwarded && client != null ==>
        client.outbox == old(client.outbox) && client.messagesSent == old(client.messagesSent)
      ensures IsSelected(old(activeChat)) && client != null ==>
        client.now == old(client.now) + Sum(Retry.Delays(2000, 2, Attempts(FunPay.Completes(accountSend), 3) - 1))
      ensures repliesSent == old(repliesSent) + (if forwarded then 1 else 0)
      ensures activeChat == if forwarded && !confirmFails then None else old(activeChat)
    {
      forwarded := false;
      if IsSelected(activeChat) && client != null {
        forwarded := client.SendMessage(activeChat.value, text, accountSend);
        if forwarded {
          repliesSent := repliesSent + 1;
          if !confirmFails {
            activeChat := None;
          }
        }
      }
    }

    /**
     * send_message_notification: nothing before the application exists;
     * otherwise the notice with a reply button for the chat, counted when
     * the API accepts it. Its own failures are swallowed.
     */
    method SendMessageNotification(chatId: int, username: string, text: string, apiFails: bool)
      modifies this`notificationsSent, this`sent
      ensures hasApp && !apiFails ==>
        sent == old(sent) + [Notice(MessageNotice(username, text), Some(CallbackData(chatId)))] &&
        notificationsSent == old(notificationsSent) + 1
      ensures !hasApp || apiFails ==> sent == old(sent) && notificationsSent == old(notificationsSent)
    {
      if !hasApp || apiFails {
        return;
      }
      sent := sent + [Notice(MessageNotice(username, text), Some(CallbackData(chatId)))];
      notificationsSent := notificationsSent + 1;
    }

    /** send_order_notification: as above, without a reply button. */
    method SendOrderNotification(orderId: string, buyerUsername: string, description: string, apiFails: bool)
      modifies this`notificationsSent, this`sent
      ensures hasApp && !apiFails ==>
        sent == old(sent) + [Notice(OrderNotice(orderId, buyerUsername, description), None)] &&
        notificationsSent == old(notificationsSent) + 1
      ensures !hasApp || apiFails ==> sent == old(sent) && notificationsSent == old(notificationsSent)
    {
      if !hasApp || apiFails {
        return;
      }
      sent := sent + [Notice(OrderNotice(orderId, buyerUsername, description), None)];
      notificationsSent := notificationsSent + 1;
    }
  }
}
