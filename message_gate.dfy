/** `gate_on_every_message`: the check run on every message posted in a gated group. */
module MessageGate {
  import opened Wrappers
  import opened Telegram
  import opened Settings
  import opened Cycle
  import opened GroupRegistry
  import opened Membership
  import opened Permissions

  /**
   * The messages the gate leaves alone: outside the registered groups,
   * join/leave service messages, messages without a sender, and messages from
   * bots or admins.
   */
  predicate Skips(reg: Registry, admins: set<UserId>, m: IncomingMessage) {
    || m.chat !in reg.indexOf
    || |m.newChatMembers| > 0
    || m.leftChatMember.Some?
    || m.from.None?
    || m.from.value.isBot
    || m.from.value.id in admins
  }

  /** The chat whose membership unlocks the chat a message was posted in. */
  function RequiredChat(reg: Registry, chat: ChatId): ChatId
    requires reg.Valid() && chat in reg.indexOf
  {
    reg.chatIds[NextIndex(reg.indexOf[chat], |reg.groups|)]
  }

  /** What the handler does to the platform, and how it ends. */
  function GateRun(env: Env, reg: Registry, admins: set<UserId>, m: IncomingMessage, w: World): Run
    requires reg.Valid()
  {
    if Skips(reg, admins, m) then Run(w, Completed)
    else
      var user := m.from.value.id;
      var cur := reg.indexOf[m.chat];
      var required := RequiredChat(reg, m.chat);
      var w1 := Perform(env, w, GetChatMember(required, user));
      match Classify(env.MemberLookup(required, user))
      case Failure(e) => Run(w1, Propagated(e))
      case Success(member) =>
        if member then
          var w2 := Perform(env, w1, RestrictChatMember(m.chat, user, true));
          Run(w2, if Caught(env.RestrictFault(m.chat, user)).Failure? then Propagated(OtherError) else Completed)
        else
          var w2 := Perform(env, w1, DeleteMessage(m.chat, m.id));
          var w3 := Perform(env, w2, RestrictChatMember(m.chat, user, false));
          if Caught(env.RestrictFault(m.chat, user)).Failure? then Run(w3, Propagated(OtherError))
          else
            var w4 := Perform(env, w3, SendMessage(m.chat, MustJoinNext, Some(BuildKb(reg, cur))));
            match env.SendFault(m.chat)
            case Some(e) => Run(w4, Propagated(e))
            case None => Run(Perform(env, w4, ScheduleDelete(m.chat, w3.nextId, DeleteOnFailSeconds)), Completed)
  }

  /** `gate_on_every_message`. */
  method GateOnEveryMessage(tg: Platform, reg: Registry, admins: set<UserId>, m: IncomingMessage) returns (outcome: Outcome)
    requires reg.Valid()
    modifies tg
    ensures Run(tg.State(), outcome) == GateRun(tg.env, reg, admins, m, old(tg.State()))
  {
    if m.chat !in reg.indexOf {
      return Completed;
    }
    if |m.newChatMembers| > 0 || m.leftChatMember.Some? {
      return Completed;
    }
    if m.from.None? {
      return Completed;
    }
    var user := m.from.value.id;
    if m.from.value.isBot || user in admins {
      return Completed;
    }
    var cur := reg.indexOf[m.chat];
    var nxt := NextIndex(cur, |reg.groups|);
    var required := reg.chatIds[nxt];
    var ok := IsMember(tg, required, user);
    if ok.Failure? {
      return Propagated(ok.error);
    }
    if ok.value {
      var unlocked := UnlockUser(tg, m.chat, user);
      if unlocked.Failure? {
        return Propagated(unlocked.error);
      }
      return Completed;
    }
    tg.DeleteMessage(m.chat, m.id);
    var restricted := RestrictUser(tg, m.chat, user);
    if restricted.Failure? {
      return Propagated(restricted.error);
    }
    var sent := tg.SendMessage(m.chat, MustJoinNext, Some(BuildKb(reg, cur)));
    if sent.Failure? {
      return Propagated(sent.error);
    }
    tg.ScheduleDelete(m.chat, sent.value, DeleteOnFailSeconds);
    return Completed;
  }

  /** Messages the gate skips leave the platform untouched: in particular no chat outside the registry is ever touched. */
  lemma SkippedMessagesChangeNothing(env: Env, reg: Registry, admins: set<UserId>, m: IncomingMessage, w: World)
    requires reg.Valid() && Skips(reg, admins, m)
    ensures GateRun(env, reg, admins, m, w) == Run(w, Completed)
  {
  }

  /** Since `w`, the first call was `q` and no later call is a membership query. */
  predicate QueriedOnce(w: World, w1: World, q: Call) {
    && |w.trace| < |w1.trace|
    && w1.trace[..|w.trace|] == w.trace
    && w1.trace[|w.trace|] == q
    && forall k :: |w.trace| < k < |w1.trace| ==> !w1.trace[k].GetChatMember?
  }

  lemma QueriedOnceStep(env: Env, w: World, w1: World, q: Call, c: Call)
    requires QueriedOnce(w, w1, q) && !c.GetChatMember?
    ensures QueriedOnce(w, Perform(env, w1, c), q)
  {
  }

  /**
   * Otherwise the first call asks about membership of the successor group,
   * and that is the only membership query; with distinct group ids it is never
   * the chat the message was posted in.
   */
  lemma GateQueriesSuccessorOnly(env: Env, reg: Registry, admins: set<UserId>, m: IncomingMessage, w: World)
    requires reg.Valid() && !Skips(reg, admins, m)
    ensures QueriedOnce(w, GateRun(env, reg, admins, m, w).world, GetChatMember(RequiredChat(reg, m.chat), m.from.value.id))
    ensures Distinct(reg.chatIds) ==> RequiredChat(reg, m.chat) != m.chat
  {
    var user := m.from.value.id;
    var q := GetChatMember(RequiredChat(reg, m.chat), user);
    var w1 := Perform(env, w, q);
    assert QueriedOnce(w, w1, q);
    match Classify(env.MemberLookup(RequiredChat(reg, m.chat), user))
    case Failure(_) =>
    case Success(member) =>
      if member {
        QueriedOnceStep(env, w, w1, q, RestrictChatMember(m.chat, user, true));
      } else {
        var w2 := Perform(env, w1, DeleteMessage(m.chat, m.id));
        var w3 := Perform(env, w2, RestrictChatMember(m.chat, user, false));
        var w4 := Perform(env, w3, SendMessage(m.chat, MustJoinNext, Some(BuildKb(reg, reg.indexOf[m.chat]))));
        QueriedOnceStep(env, w, w1, q, DeleteMessage(m.chat, m.id));
        QueriedOnceStep(env, w, w2, q, RestrictChatMember(m.chat, user, false));
        QueriedOnceStep(env, w, w3, q, SendMessage(m.chat, MustJoinNext, Some(BuildKb(reg, reg.indexOf[m.chat]))));
        QueriedOnceStep(env, w, w4, q, ScheduleDelete(m.chat, w3.nextId, DeleteOnFailSeconds));
      }
    if Distinct(reg.chatIds) {
      SuccessorIsAnotherChat(reg, reg.indexOf[m.chat]);
    }
  }

  /** A member is only unlocked in the current chat: no delete, no mute, no notice. */
  lemma MemberIsOnlyUnlocked(env: Env, reg: Registry, admins: set<UserId>, m: IncomingMessage, w: World)
    requires reg.Valid() && !Skips(reg, admins, m)
    requires Classify(env.MemberLookup(RequiredChat(reg, m.chat), m.from.value.id)) == Success(true)
    ensures var r := GateRun(env, reg, admins, m, w);
      var user := m.from.value.id;
      && r.world.trace == w.trace + [GetChatMember(RequiredChat(reg, m.chat), user), RestrictChatMember(m.chat, user, true)]
      && r.world.pinned == w.pinned && r.world.nextId == w.nextId
      && (env.RestrictFault(m.chat, user).None? ==> r.world.canSend == w.canSend[(m.chat, user) := true])
  {
  }

  /**
   * A non-member gets in order: the message deleted, a mute in the current
   * chat, a notice carrying the current group's keyboard, and that notice's
   * deletion scheduled after the failure delay.  A mute refused with
   * Forbidden or BadRequest does not stop the notice; it only leaves the
   * permissions as they were.
   */
  lemma NonMemberIsBlocked(env: Env, reg: Registry, admins: set<UserId>, m: IncomingMessage, w: World)
    requires reg.Valid() && !Skips(reg, admins, m)
    requires Classify(env.MemberLookup(RequiredChat(reg, m.chat), m.from.value.id)) == Success(false)
    requires env.RestrictFault(m.chat, m.from.value.id) != Some(OtherError) && env.SendFault(m.chat).None?
    ensures var r := GateRun(env, reg, admins, m, w);
      var user := m.from.value.id;
      && r.outcome == Completed
      && r.world.trace == w.trace + [
           GetChatMember(RequiredChat(reg, m.chat), user),
           DeleteMessage(m.chat, m.id),
           RestrictChatMember(m.chat, user, false),
           SendMessage(m.chat, MustJoinNext, Some(BuildKb(reg, reg.indexOf[m.chat]))),
           ScheduleDelete(m.chat, w.nextId, DeleteOnFailSeconds)]
      && (env.RestrictFault(m.chat, user).None? ==> r.world.canSend == w.canSend[(m.chat, user) := false])
      && (env.RestrictFault(m.chat, user).Some? ==> r.world.canSend == w.canSend)
      && r.world.nextId == w.nextId + 1
  {
  }

  /** Since `w`, `w1` has only added calls, and none of them unlocks `user` in `chat`. */
  predicate NoUnlockSince(w: World, w1: World, chat: ChatId, user: UserId) {
    && |w.trace| <= |w1.trace|
    && w1.trace[..|w.trace|] == w.trace
    && RestrictChatMember(chat, user, true) !in w1.trace[|w.trace|..]
  }

  lemma NoUnlockStep(env: Env, w: World, w1: World, c: Call, chat: ChatId, user: UserId)
    requires NoUnlockSince(w, w1, chat, user) && c != RestrictChatMember(chat, user, true)
    ensures NoUnlockSince(w, Perform(env, w1, c), chat, user)
  {
    assert Perform(env, w1, c).trace[|w.trace|..] == w1.trace[|w.trace|..] + [c];
  }

  /**
   * Fail-closed: when the membership query fails with Forbidden or
   * BadRequest the user is treated as a non-member and muted, never unlocked.
   */
  lemma UnknownMembershipIsBlocked(env: Env, reg: Registry, admins: set<UserId>, m: IncomingMessage, w: World)
    requires reg.Valid() && !Skips(reg, admins, m)
    requires VerdictOf(env.MemberLookup(RequiredChat(reg, m.chat), m.from.value.id)) == Unknown
    requires env.MemberLookup(RequiredChat(reg, m.chat), m.from.value.id) != LookupFailed(OtherError)
    ensures var r := GateRun(env, reg, admins, m, w);
      && RestrictChatMember(m.chat, m.from.value.id, false) in r.world.trace[|w.trace|..]
      && RestrictChatMember(m.chat, m.from.value.id, true) !in r.world.trace[|w.trace|..]
  {
    var user := m.from.value.id;
    var r := GateRun(env, reg, admins, m, w);
    ClassifyIsFailClosed(env.MemberLookup(RequiredChat(reg, m.chat), user));
    assert Classify(env.MemberLookup(RequiredChat(reg, m.chat), user)) == Success(false);
    var w1 := Perform(env, w, GetChatMember(RequiredChat(reg, m.chat), user));
    var w2 := Perform(env, w1, DeleteMessage(m.chat, m.id));
    var w3 := Perform(env, w2, RestrictChatMember(m.chat, user, false));
    var w4 := Perform(env, w3, SendMessage(m.chat, MustJoinNext, Some(BuildKb(reg, reg.indexOf[m.chat]))));
    assert w.trace[|w.trace|..] == [];
    NoUnlockStep(env, w, w, GetChatMember(RequiredChat(reg, m.chat), user), m.chat, user);
    NoUnlockStep(env, w, w1, DeleteMessage(m.chat, m.id), m.chat, user);
    NoUnlockStep(env, w, w2, RestrictChatMember(m.chat, user, false), m.chat, user);
    NoUnlockStep(env, w, w3, SendMessage(m.chat, MustJoinNext, Some(BuildKb(reg, reg.indexOf[m.chat]))), m.chat, user);
    NoUnlockStep(env, w, w4, ScheduleDelete(m.chat, w3.nextId, DeleteOnFailSeconds), m.chat, user);
    assert r.world.trace[|w.trace|..][2] == RestrictChatMember(m.chat, user, false);
  }

  /** Every mute or unlock among `calls` targets `user` in `chat`, and every deletion is of `message` in `chat`. */
  predicate TouchesOnly(calls: seq<Call>, chat: ChatId, user: UserId, message: MessageId) {
    forall k :: 0 <= k < |calls| ==>
      && (calls[k].RestrictChatMember? ==> calls[k].chat == chat && calls[k].user == user)
      && (calls[k].DeleteMessage? ==> calls[k] == DeleteMessage(chat, message))
  }

  /** `w1` extends `w`'s trace by calls that touch only `user` and `message` in `chat`, and keeps the pins. */
  predicate TouchedOnly(w: World, w1: World, chat: ChatId, user: UserId, message: MessageId) {
    && |w.trace| <= |w1.trace|
    && w1.trace[..|w.trace|] == w.trace
    && w1.pinned == w.pinned
    && TouchesOnly(w1.trace[|w.trace|..], chat, user, message)
  }

  /** One call that touches only `user` and `message` in `chat` extends a run that touched only them. */
  lemma TouchedOnlyStep(env: Env, w: World, w1: World, c: Call, chat: ChatId, user: UserId, message: MessageId)
    requires TouchedOnly(w, w1, chat, user, message)
    requires !c.EditReplyMarkup? && !c.PinChatMessage?
    requires c.RestrictChatMember? ==> c.chat == chat && c.user == user
    requires c.DeleteMessage? ==> c == DeleteMessage(chat, message)
    ensures TouchedOnly(w, Perform(env, w1, c), chat, user, message)
  {
    var w2 := Perform(env, w1, c);
    assert w2.trace[|w.trace|..] == w1.trace[|w.trace|..] + [c];
  }

  lemma TouchedOnlyStart(w: World, chat: ChatId, user: UserId, message: MessageId)
    ensures TouchedOnly(w, w, chat, user, message)
  {
    assert w.trace[|w.trace|..] == [];
  }

  /** The non-member branch: delete, mute, notice and its scheduled deletion, all in the current chat. */
  lemma NonMemberTouchesOnlySender(env: Env, reg: Registry, admins: set<UserId>, m: IncomingMessage, w: World)
    requires reg.Valid() && !Skips(reg, admins, m)
    requires Classify(env.MemberLookup(RequiredChat(reg, m.chat), m.from.value.id)) == Success(false)
    ensures TouchedOnly(w, GateRun(env, reg, admins, m, w).world, m.chat, m.from.value.id, m.id)
  {
    var user := m.from.value.id;
    var w1 := Perform(env, w, GetChatMember(RequiredChat(reg, m.chat), user));
    var w2 := Perform(env, w1, DeleteMessage(m.chat, m.id));
    var w3 := Perform(env, w2, RestrictChatMember(m.chat, user, false));
    var w4 := Perform(env, w3, SendMessage(m.chat, MustJoinNext, Some(BuildKb(reg, reg.indexOf[m.chat]))));
    TouchedOnlyStart(w, m.chat, user, m.id);
    TouchedOnlyStep(env, w, w, GetChatMember(RequiredChat(reg, m.chat), user), m.chat, user, m.id);
    TouchedOnlyStep(env, w, w1, DeleteMessage(m.chat, m.id), m.chat, user, m.id);
    TouchedOnlyStep(env, w, w2, RestrictChatMember(m.chat, user, false), m.chat, user, m.id);
    TouchedOnlyStep(env, w, w3, SendMessage(m.chat, MustJoinNext, Some(BuildKb(reg, reg.indexOf[m.chat]))), m.chat, user, m.id);
    TouchedOnlyStep(env, w, w4, ScheduleDelete(m.chat, w3.nextId, DeleteOnFailSeconds), m.chat, user, m.id);
  }

  /**
   * The gate only ever mutes or unlocks the sender, and only in the chat the
   * message was posted in, which is a registered group; it never touches a pin.
   */
  lemma GateTouchesOnlySenderInChat(env: Env, reg: Registry, admins: set<UserId>, m: IncomingMessage, w: World)
    requires reg.Valid()
    ensures var r := GateRun(env, reg, admins, m, w);
      || r.world == w
      || (m.chat in reg.indexOf && m.from.Some? && TouchedOnly(w, r.world, m.chat, m.from.value.id, m.id))
  {
    if !Skips(reg, admins, m) {
      var user := m.from.value.id;
      var w1 := Perform(env, w, GetChatMember(RequiredChat(reg, m.chat), user));
      TouchedOnlyStart(w, m.chat, user, m.id);
      TouchedOnlyStep(env, w, w, GetChatMember(RequiredChat(reg, m.chat), user), m.chat, user, m.id);
      match Classify(env.MemberLookup(RequiredChat(reg, m.chat), user))
      case Failure(_) =>
      case Success(member) =>
        if member {
          TouchedOnlyStep(env, w, w1, RestrictChatMember(m.chat, user, true), m.chat, user, m.id);
        } else {
          NonMemberTouchesOnlySender(env, reg, admins, m, w);
        }
    }
  }

  /**
   * The scenario of a two-group cycle: a user posts in group 0 without
   * belonging to group 1; the message is deleted, the user muted in group 0,
   * and a notice linking to group 1 with the recheck data "check:0" sent and
   * scheduled for deletion after 30 seconds.
   */
  lemma TwoGroupScenario(env: Env, g0: GroupSpec, g1: GroupSpec, user: UserId, msgId: MessageId, w: World)
    requires env.MemberLookup(200, user) == Found(ChatMember(Left, None))
    requires env.RestrictFault(100, user) != Some(OtherError) && env.SendFault(100).None?
    ensures var reg := Registry([g0, g1], [100, 200], map[100 := 0, 200 := 1]);
      var m := IncomingMessage(100, msgId, Some(User(user, false, "Ann")), [], None);
      reg.Valid() &&
      GateRun(env, reg, {}, m, w).world.trace == w.trace + [
        GetChatMember(200, user),
        DeleteMessage(100, msgId),
        RestrictChatMember(100, user, false),
        SendMessage(100, MustJoinNext, Some(Keyboard(g1.link, "check:0"))),
        ScheduleDelete(100, w.nextId, 30)]
  {
    var reg := Registry([g0, g1], [100, 200], map[100 := 0, 200 := 1]);
    var m := IncomingMessage(100, msgId, Some(User(user, false, "Ann")), [], None);
    assert reg.Valid();
    assert CheckData.EncodeCheck(0) == "check:0";
    NonMemberIsBlocked(env, reg, {}, m, w);
  }
}
