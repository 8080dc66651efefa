/**
 * The Telegram Bot API as the gate sees it.  The platform's answers are fixed
 * in an `Env` (who is a member of what, which calls fail and how); what the
 * bot's calls change is a `World`: send permissions per (chat, user), the
 * message pinned in each chat, the messages the bot has sent, the next
 * message id, and the trace of every call the bot has made, in order.
 */
module Telegram {
  import opened Wrappers
  import opened Settings

  type ChatId = int
  type UserId = int
  type MessageId = int

  /**
   * Errors the Bot API client raises.  `Forbidden` and `BadRequest` are the
   * two the bot catches by name; `OtherError` stands for every other
   * exception (network failure, flood control, server error).
   */
  datatype ApiError = Forbidden | BadRequest | OtherError

  /** The statuses a chat member can have. */
  datatype ChatMemberStatus = Creator | Administrator | Member | Restricted | Left | Kicked

  /** A `get_chat_member` answer; `isMember` is the `is_member` attribute where the answer has one. */
  datatype ChatMember = ChatMember(status: ChatMemberStatus, isMember: Option<bool>)

  /** What `get_chat_member` does: answer, or raise. */
  datatype Lookup = Found(member: ChatMember) | LookupFailed(error: ApiError)

  datatype User = User(id: UserId, isBot: bool, fullName: string)

  /** An incoming message: its chat, id, sender, and the join/leave service fields. */
  datatype IncomingMessage = IncomingMessage(
    chat: ChatId,
    id: MessageId,
    from: Option<User>,
    newChatMembers: seq<User>,
    leftChatMember: Option<User>)

  /** A press of the recheck button: who pressed it, its data, and the chat of the message it was under. */
  datatype CallbackQuery = CallbackQuery(from: UserId, data: string, chat: ChatId)

  /** The inline keyboard: a link to join the next group and the recheck button's callback data. */
  datatype Keyboard = Keyboard(joinLink: string, recheckData: string)

  /** The notices the bot sends; `NoticeText` gives the text of each. */
  datatype Notice =
    | MustJoinNext              // a gated message was removed
    | Welcome(user: UserId, fullName: string)  // a new member was muted
    | AdminUnlocked             // recheck by an admin, unlock succeeded
    | AdminUnlockFailed         // recheck by an admin, unlock refused
    | Confirmed                 // recheck passed and the user is unlocked
    | ConfirmedNotUnlocked      // recheck passed but the unlock was refused
    | NotSubscribed(groupTitle: string)  // recheck failed; names the group to join
    | GateInstructions          // the text of the pinned gate message

  /** The text the bot sends for a notice. */
  function NoticeText(n: Notice): string {
    match n
    case MustJoinNext => MustJoinNextText
    case Welcome(_, fullName) => "\U{1F44B} " + fullName + "\n" + WelcomeInstruction
    case AdminUnlocked => AdminUnlockedText
    case AdminUnlockFailed => AdminUnlockFailedText
    case Confirmed => ConfirmedText
    case ConfirmedNotUnlocked => ConfirmedNotUnlockedText
    case NotSubscribed(title) => NotSubscribedPrefix + title
    case GateInstructions => PinText
  }

  datatype CallbackAnswer = InvalidDataAlert | Acknowledge

  /** What a message says: nothing (a photo, a sticker), a text someone wrote, or one of the bot's notices. */
  datatype Body = NoText | Plain(s: string) | BotNotice(notice: Notice)
  {
    /** The text the platform reports for the message. */
    function Text(): (t: Option<string>)
      ensures this.NoText? <==> t.None?
    {
      match this
      case NoText => None
      case Plain(s) => Some(s)
      case BotNotice(n) => Some(NoticeText(n))
    }
  }

  /** A message as the platform keeps it, and as `get_chat` reports a chat's pinned message. */
  datatype Message = Message(
    id: MessageId,
    author: Option<UserId>,
    body: Body,
    keyboard: Option<Keyboard>)

  /** One call the bot makes; `ScheduleDelete` is the detached `delete_later` task. */
  datatype Call =
    | GetChatMember(chat: ChatId, user: UserId)
    | RestrictChatMember(chat: ChatId, user: UserId, canSendMessages: bool)
    | DeleteMessage(chat: ChatId, message: MessageId)
    | SendMessage(chat: ChatId, notice: Notice, keyboard: Option<Keyboard>)
    | ScheduleDelete(chat: ChatId, message: MessageId, seconds: nat)
    | AnswerCallback(answer: CallbackAnswer)
    | GetChat(chat: ChatId)
    | EditReplyMarkup(chat: ChatId, message: MessageId, markup: Keyboard)
    | PinChatMessage(chat: ChatId, message: MessageId)

  /** How the platform answers: fixed for the duration of a handler. */
  datatype Env = Env(
    me: UserId,
    members: map<(ChatId, UserId), Lookup>,
    restrictFaults: map<(ChatId, UserId), ApiError>,
    sendFaults: map<ChatId, ApiError>,
    chatFaults: map<ChatId, ApiError>,
    editFaults: set<ChatId>,
    pinFaults: set<ChatId>,
    answerFault: Option<ApiError>)
  {
    /** A user the member table does not list is reported as having left. */
    function MemberLookup(chat: ChatId, user: UserId): Lookup {
      if (chat, user) in members then members[(chat, user)] else Found(ChatMember(Left, None))
    }

    function RestrictFault(chat: ChatId, user: UserId): Option<ApiError> {
      if (chat, user) in restrictFaults then Some(restrictFaults[(chat, user)]) else None
    }

    function SendFault(chat: ChatId): Option<ApiError> {
      if chat in sendFaults then Some(sendFaults[chat]) else None
    }

    function ChatFault(chat: ChatId): Option<ApiError> {
      if chat in chatFaults then Some(chatFaults[chat]) else None
    }
  }

  datatype World = World(
    canSend: map<(ChatId, UserId), bool>,
    pinned: map<ChatId, Message>,
    sent: map<(ChatId, MessageId), Message>,
    nextId: MessageId,
    trace: seq<Call>)

  /** How a handler ended: normally, or by an exception it does not catch. */
  datatype Outcome = Completed | Propagated(error: ApiError)

  datatype Run = Run(world: World, outcome: Outcome)

  /** The message a successful send stores: written by the bot, saying the notice, with the keyboard. */
  function SentMessage(me: UserId, id: MessageId, notice: Notice, keyboard: Option<Keyboard>): Message {
    Message(id, Some(me), BotNotice(notice), keyboard)
  }

  /**
   * The effect of one call.  It is always recorded; a restrict that does not
   * fail sets the send permission; a send that does not fail stores the
   * message under a fresh id; an edit that does not fail refreshes the
   * keyboard of the message it names, pinned or stored; a pin that does not
   * fail makes the stored message with that id the chat's pinned message.
   */
  function Perform(env: Env, w: World, c: Call): (w': World)
    ensures w'.trace == w.trace + [c]
    ensures !c.RestrictChatMember? ==> w'.canSend == w.canSend
    ensures !c.SendMessage? ==> w'.nextId == w.nextId
    ensures !c.EditReplyMarkup? && !c.PinChatMessage? ==> w'.pinned == w.pinned
    ensures !c.SendMessage? && !c.EditReplyMarkup? ==> w'.sent == w.sent
  {
    var logged := w.(trace := w.trace + [c]);
    match c
    case RestrictChatMember(chat, user, allow) =>
      if env.RestrictFault(chat, user).None? then logged.(canSend := w.canSend[(chat, user) := allow]) else logged
    case SendMessage(chat, notice, keyboard) =>
      if env.SendFault(chat).None?
      then logged.(nextId := w.nextId + 1, sent := w.sent[(chat, w.nextId) := SentMessage(env.me, w.nextId, notice, keyboard)])
      else logged
    case EditReplyMarkup(chat, message, markup) =>
      if chat in env.editFaults then logged
      else
        logged.(
          pinned := if chat in w.pinned && w.pinned[chat].id == message
                    then w.pinned[chat := w.pinned[chat].(keyboard := Some(markup))] else w.pinned,
          sent := if (chat, message) in w.sent
                  then w.sent[(chat, message) := w.sent[(chat, message)].(keyboard := Some(markup))] else w.sent)
    case PinChatMessage(chat, message) =>
      if chat !in env.pinFaults && (chat, message) in w.sent
      then logged.(pinned := w.pinned[chat := w.sent[(chat, message)]])
      else logged
    case _ => logged
  }

  /** The platform, as the object the bot's calls act upon. */
  class Platform {
    const env: Env
    var canSend: map<(ChatId, UserId), bool>
    var pinned: map<ChatId, Message>
    var sent: map<(ChatId, MessageId), Message>
    var nextMessageId: MessageId
    var trace: seq<Call>

    function State(): World
      reads this
    {
      World(canSend, pinned, sent, nextMessageId, trace)
    }

    constructor (env: Env, start: World)
      ensures this.env == env && State() == start
    {
      this.env := env;
      canSend := start.canSend;
      pinned := start.pinned;
      sent := start.sent;
      nextMessageId := start.nextId;
      trace := start.trace;
    }

    method GetChatMember(chat: ChatId, user: UserId) returns (r: Lookup)
      modifies this
      ensures State() == Perform(env, old(State()), Call.GetChatMember(chat, user))
      ensures r == env.MemberLookup(chat, user)
    {
      trace := trace + [Call.GetChatMember(chat, user)];
      r := env.MemberLookup(chat, user);
    }

    method RestrictChatMember(chat: ChatId, user: UserId, canSendMessages: bool) returns (fault: Option<ApiError>)
      modifies this
      ensures State() == Perform(env, old(State()), Call.RestrictChatMember(chat, user, canSendMessages))
      ensures fault == env.RestrictFault(chat, user)
    {
      trace := trace + [Call.RestrictChatMember(chat, user, canSendMessages)];
      fault := env.RestrictFault(chat, user);
      if fault.None? {
        canSend := canSend[(chat, user) := canSendMessages];
      }
    }

    method DeleteMessage(chat: ChatId, message: MessageId)
      modifies this
      ensures State() == Perform(env, old(State()), Call.DeleteMessage(chat, message))
    {
      trace := trace + [Call.DeleteMessage(chat, message)];
    }

    method SendMessage(chat: ChatId, notice: Notice, keyboard: Option<Keyboard>) returns (r: Result<MessageId, ApiError>)
      modifies this
      ensures State() == Perform(env, old(State()), Call.SendMessage(chat, notice, keyboard))
      ensures r == match env.SendFault(chat)
                   case Some(e) => Failure(e)
                   case None => Success(old(nextMessageId))
    {
      trace := trace + [Call.SendMessage(chat, notice, keyboard)];
      match env.SendFault(chat)
      case Some(e) =>
        r := Failure(e);
      case None =>
        r := Success(nextMessageId);
        sent := sent[(chat, nextMessageId) := SentMessage(env.me, nextMessageId, notice, keyboard)];
        nextMessageId := nextMessageId + 1;
    }

    method ScheduleDelete(chat: ChatId, message: MessageId, seconds: nat)
      modifies this
      ensures State() == Perform(env, old(State()), Call.ScheduleDelete(chat, message, seconds))
    {
      trace := trace + [Call.ScheduleDelete(chat, message, seconds)];
    }

    method AnswerCallback(answer: CallbackAnswer) returns (fault: Option<ApiError>)
      modifies this
      ensures State() == Perform(env, old(State()), Call.AnswerCallback(answer))
      ensures fault == env.answerFault
    {
      trace := trace + [Call.AnswerCallback(answer)];
      fault := env.answerFault;
    }

    method GetChat(chat: ChatId) returns (r: Result<Option<Message>, ApiError>)
      modifies this
      ensures State() == Perform(env, old(State()), Call.GetChat(chat))
      ensures r == match env.ChatFault(chat)
                   case Some(e) => Failure(e)
                   case None => Success(if chat in old(pinned) then Some(old(pinned)[chat]) else None)
    {
      trace := trace + [Call.GetChat(chat)];
      match env.ChatFault(chat)
      case Some(e) =>
        r := Failure(e);
      case None =>
        r := Success(if chat in pinned then Some(pinned[chat]) else None);
    }

    method EditReplyMarkup(chat: ChatId, message: MessageId, markup: Keyboard) returns (ok: bool)
      modifies this
      ensures State() == Perform(env, old(State()), Call.EditReplyMarkup(chat, message, markup))
      ensures ok == (chat !in env.editFaults)
    {
      trace := trace + [Call.EditReplyMarkup(chat, message, markup)];
      ok := chat !in env.editFaults;
      if ok && chat in pinned && pinned[chat].id == message {
        pinned := pinned[chat := pinned[chat].(keyboard := Some(markup))];
      }
      if ok && (chat, message) in sent {
        sent := sent[(chat, message) := sent[(chat, message)].(keyboard := Some(markup))];
      }
    }

    /** Pins the bot's message `message`; a refused pin, or an id the chat does not hold, raises (false). */
    method PinChatMessage(chat: ChatId, message: MessageId) returns (ok: bool)
      modifies this
      ensures State() == Perform(env, old(State()), Call.PinChatMessage(chat, message))
      ensures ok == (chat !in env.pinFaults && (chat, message) in old(sent))
    {
      trace := trace + [Call.PinChatMessage(chat, message)];
      ok := chat !in env.pinFaults && (chat, message) in sent;
      if ok {
        pinned := pinned[chat := sent[(chat, message)]];
      }
    }
  }
}
