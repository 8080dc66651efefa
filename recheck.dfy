/** `check_sub`: the recheck button. */
module Recheck {
  import opened Wrappers
  import opened Telegram
  import opened Settings
  import opened Cycle
  import opened CheckData
  import opened GroupRegistry
  import opened Membership
  import opened Permissions

  /** `call.answer(...)`: the last call of every path. */
  function Answer(env: Env, w: World, a: CallbackAnswer): Run {
    Run(Perform(env, w, AnswerCallback(a)), if env.answerFault.Some? then Propagated(env.answerFault.value) else Completed)
  }

  /** A notice in the chat the button was pressed in, its deletion after `delay`, then the plain answer. */
  function NoticeThenAnswer(env: Env, w: World, chat: ChatId, notice: Notice, kb: Option<Keyboard>, delay: nat): Run {
    var w1 := Perform(env, w, SendMessage(chat, notice, kb));
    match env.SendFault(chat)
    case Some(e) => Run(w1, Propagated(e))
    case None => Answer(env, Perform(env, w1, ScheduleDelete(chat, w.nextId, delay)), Acknowledge)
  }

  /** The group index the data names, when it parses and lies in range. */
  function RecheckIndex(data: string, n: nat): Option<nat> {
    match ParseCheck(data)
    case None => None
    case Some(idx) => if idx < 0 || idx >= n then None else Some(idx)
  }

  /** An admin's recheck: unlock in the named group, then a notice that goes after the success delay. */
  function AdminRecheck(env: Env, target: ChatId, q: CallbackQuery, w: World): Run {
    var w1 := Perform(env, w, RestrictChatMember(target, q.from, true));
    match Caught(env.RestrictFault(target, q.from))
    case Failure(e) => Run(w1, Propagated(e))
    case Success(unlocked) =>
      NoticeThenAnswer(env, w1, q.chat, if unlocked then AdminUnlocked else AdminUnlockFailed, None, DeleteOnSuccessSeconds)
  }

  /** A confirmed member's unlock in the named group, and the notice that reports how it went. */
  function ConfirmedUnlock(env: Env, target: ChatId, q: CallbackQuery, w: World): Run {
    var w1 := Perform(env, w, RestrictChatMember(target, q.from, true));
    match Caught(env.RestrictFault(target, q.from))
    case Failure(e) => Run(w1, Propagated(e))
    case Success(unlocked) =>
      if unlocked then NoticeThenAnswer(env, w1, q.chat, Confirmed, None, DeleteOnSuccessSeconds)
      else NoticeThenAnswer(env, w1, q.chat, ConfirmedNotUnlocked, None, DeleteOnFailSeconds)
  }

  /** Anyone else's recheck: ask about the successor group, then unlock or remind. */
  function MemberRecheck(env: Env, reg: Registry, idx: nat, q: CallbackQuery, w: World): Run
    requires reg.Valid() && idx < |reg.groups|
  {
    var nxt := NextIndex(idx, |reg.groups|);
    var required := reg.chatIds[nxt];
    var w1 := Perform(env, w, GetChatMember(required, q.from));
    match Classify(env.MemberLookup(required, q.from))
    case Failure(e) => Run(w1, Propagated(e))
    case Success(member) =>
      if member then ConfirmedUnlock(env, reg.chatIds[idx], q, w1)
      else NoticeThenAnswer(env, w1, q.chat, NotSubscribed(reg.groups[nxt].title), Some(BuildKb(reg, idx)), DeleteOnFailSeconds)
  }

  function RecheckRun(env: Env, reg: Registry, admins: set<UserId>, q: CallbackQuery, w: World): Run
    requires reg.Valid()
  {
    match RecheckIndex(q.data, |reg.groups|)
    case None => Answer(env, w, InvalidDataAlert)
    case Some(idx) =>
      if q.from in admins then AdminRecheck(env, reg.chatIds[idx], q, w)
      else MemberRecheck(env, reg, idx, q, w)
  }

  /** Sends a notice, schedules its deletion, and answers the button. */
  method NotifyAndAnswer(tg: Platform, chat: ChatId, notice: Notice, kb: Option<Keyboard>, delay: nat) returns (outcome: Outcome)
    modifies tg
    ensures Run(tg.State(), outcome) == NoticeThenAnswer(tg.env, old(tg.State()), chat, notice, kb, delay)
  {
    var sent := tg.SendMessage(chat, notice, kb);
    if sent.Failure? {
      return Propagated(sent.error);
    }
    tg.ScheduleDelete(chat, sent.value, delay);
    var fault := tg.AnswerCallback(Acknowledge);
    outcome := if fault.Some? then Propagated(fault.value) else Completed;
  }

  /** `check_sub`. */
  method CheckSub(tg: Platform, reg: Registry, admins: set<UserId>, q: CallbackQuery) returns (outcome: Outcome)
    requires reg.Valid()
    modifies tg
    ensures Run(tg.State(), outcome) == RecheckRun(tg.env, reg, admins, q, old(tg.State()))
  {
    var user := q.from;
    var parsed := ParseCheck(q.data);
    if parsed.None? {
      var fault := tg.AnswerCallback(InvalidDataAlert);
      return if fault.Some? then Propagated(fault.value) else Completed;
    }
    var idx := parsed.value;
    if idx < 0 || idx >= |reg.groups| {
      var fault := tg.AnswerCallback(InvalidDataAlert);
      return if fault.Some? then Propagated(fault.value) else Completed;
    }
    if user in admins {
      var unlocked := UnlockUser(tg, reg.chatIds[idx], user);
      if unlocked.Failure? {
        return Propagated(unlocked.error);
      }
      var notice := if unlocked.value then AdminUnlocked else AdminUnlockFailed;
      outcome := NotifyAndAnswer(tg, q.chat, notice, None, DeleteOnSuccessSeconds);
      return;
    }
    var nxt := NextIndex(idx, |reg.groups|);
    var required := reg.chatIds[nxt];
    var ok := IsMember(tg, required, user);
    if ok.Failure? {
      return Propagated(ok.error);
    }
    if ok.value {
      var unlocked := UnlockUser(tg, reg.chatIds[idx], user);
      if unlocked.Failure? {
        return Propagated(unlocked.error);
      }
      if unlocked.value {
        outcome := NotifyAndAnswer(tg, q.chat, Confirmed, None, DeleteOnSuccessSeconds);
      } else {
        outcome := NotifyAndAnswer(tg, q.chat, ConfirmedNotUnlocked, None, DeleteOnFailSeconds);
      }
    } else {
      outcome := NotifyAndAnswer(tg, q.chat, NotSubscribed(reg.groups[nxt].title), Some(BuildKb(reg, idx)), DeleteOnFailSeconds);
    }
  }

  /** The index read back from a keyboard built for a group is that group's. */
  lemma KeyboardDataIsAccepted(reg: Registry, idx: nat)
    requires reg.Valid() && idx < |reg.groups|
    ensures RecheckIndex(BuildKb(reg, idx).recheckData, |reg.groups|) == Some(idx)
  {
  }

  /** An accepted index is always a valid group position. */
  lemma AcceptedIndexInRange(data: string, n: nat)
    ensures RecheckIndex(data, n).Some? ==> RecheckIndex(data, n).value < n && ParseCheck(data) == Some(RecheckIndex(data, n).value as int)
  {
  }

  /**
   * Data that does not parse, or names no group, gets only an "invalid data"
   * alert: no restrict, no unlock, no notice, nothing else changed.
   */
  lemma InvalidDataOnlyAlerts(env: Env, reg: Registry, admins: set<UserId>, q: CallbackQuery, w: World)
    requires reg.Valid()
    requires ParseCheck(q.data).None? || ParseCheck(q.data).value < 0 || ParseCheck(q.data).value >= |reg.groups|
    ensures var r := RecheckRun(env, reg, admins, q, w);
      && r.world == w.(trace := w.trace + [AnswerCallback(InvalidDataAlert)])
      && r.outcome == (if env.answerFault.Some? then Propagated(env.answerFault.value) else Completed)
  {
  }

  /** The two-group case of "check:99": refused as invalid data, nothing else changes. */
  lemma OutOfRangeScenario(env: Env, reg: Registry, admins: set<UserId>, user: UserId, chat: ChatId, w: World)
    requires reg.Valid() && |reg.groups| == 2
    ensures RecheckRun(env, reg, admins, CallbackQuery(user, "check:99", chat), w).world
      == w.(trace := w.trace + [AnswerCallback(InvalidDataAlert)])
  {
    assert Decimal(99) == "99";
    assert EncodeCheck(99) == "check:99";
    CheckDataRoundTrip(99);
    InvalidDataOnlyAlerts(env, reg, admins, CallbackQuery(user, "check:99", chat), w);
  }

  /**
   * An admin is unlocked in the named group without any membership query,
   * and the notice's deletion is scheduled after the success delay whether or
   * not the unlock went through.
   */
  lemma AdminSkipsMembershipQuery(env: Env, reg: Registry, admins: set<UserId>, q: CallbackQuery, w: World)
    requires reg.Valid() && q.from in admins && RecheckIndex(q.data, |reg.groups|).Some?
    requires env.RestrictFault(reg.chatIds[RecheckIndex(q.data, |reg.groups|).value], q.from) != Some(OtherError)
    requires env.SendFault(q.chat).None?
    ensures var idx := RecheckIndex(q.data, |reg.groups|).value;
      var r := RecheckRun(env, reg, admins, q, w);
      var unlocked := env.RestrictFault(reg.chatIds[idx], q.from).None?;
      r.world.trace == w.trace + [
        RestrictChatMember(reg.chatIds[idx], q.from, true),
        SendMessage(q.chat, if unlocked then AdminUnlocked else AdminUnlockFailed, None),
        ScheduleDelete(q.chat, w.nextId, DeleteOnSuccessSeconds),
        AnswerCallback(Acknowledge)]
  {
  }

  /** A confirmed member whose unlock goes through is unlocked and told so; the notice goes after the success delay. */
  lemma MemberIsUnlocked(env: Env, reg: Registry, admins: set<UserId>, q: CallbackQuery, w: World)
    requires reg.Valid() && q.from !in admins && RecheckIndex(q.data, |reg.groups|).Some?
    requires var idx := RecheckIndex(q.data, |reg.groups|).value;
      Classify(env.MemberLookup(reg.chatIds[NextIndex(idx, |reg.groups|)], q.from)) == Success(true)
      && env.RestrictFault(reg.chatIds[idx], q.from).None?
    requires env.SendFault(q.chat).None?
    ensures var idx := RecheckIndex(q.data, |reg.groups|).value;
      var r := RecheckRun(env, reg, admins, q, w);
      && r.world.trace == w.trace + [
           GetChatMember(reg.chatIds[NextIndex(idx, |reg.groups|)], q.from),
           RestrictChatMember(reg.chatIds[idx], q.from, true),
           SendMessage(q.chat, Confirmed, None),
           ScheduleDelete(q.chat, w.nextId, DeleteOnSuccessSeconds),
           AnswerCallback(Acknowledge)]
      && r.world.canSend == w.canSend[(reg.chatIds[idx], q.from) := true]
  {
  }

  /**
   * A confirmed member whose unlock is refused (Forbidden or BadRequest)
   * gets the distinct "confirmed but not unlocked" notice, deleted after the
   * failure delay, and its permissions stay as they were.
   */
  lemma RefusedUnlockIsReported(env: Env, reg: Registry, admins: set<UserId>, q: CallbackQuery, w: World)
    requires reg.Valid() && q.from !in admins && RecheckIndex(q.data, |reg.groups|).Some?
    requires var idx := RecheckIndex(q.data, |reg.groups|).value;
      Classify(env.MemberLookup(reg.chatIds[NextIndex(idx, |reg.groups|)], q.from)) == Success(true)
      && env.RestrictFault(reg.chatIds[idx], q.from) in {Some(Forbidden), Some(BadRequest)}
    requires env.SendFault(q.chat).None?
    ensures var idx := RecheckIndex(q.data, |reg.groups|).value;
      var r := RecheckRun(env, reg, admins, q, w);
      && r.world.trace == w.trace + [
           GetChatMember(reg.chatIds[NextIndex(idx, |reg.groups|)], q.from),
           RestrictChatMember(reg.chatIds[idx], q.from, true),
           SendMessage(q.chat, ConfirmedNotUnlocked, None),
           ScheduleDelete(q.chat, w.nextId, DeleteOnFailSeconds),
           AnswerCallback(Acknowledge)]
      && r.world.canSend == w.canSend
  {
  }

  /** A non-member is told which group to join and given the keyboard again; nothing is unlocked. */
  lemma NonMemberIsReminded(env: Env, reg: Registry, admins: set<UserId>, q: CallbackQuery, w: World)
    requires reg.Valid() && q.from !in admins && RecheckIndex(q.data, |reg.groups|).Some?
    requires var idx := RecheckIndex(q.data, |reg.groups|).value;
      Classify(env.MemberLookup(reg.chatIds[NextIndex(idx, |reg.groups|)], q.from)) == Success(false)
    requires env.SendFault(q.chat).None?
    ensures var idx := RecheckIndex(q.data, |reg.groups|).value;
      var nxt := NextIndex(idx, |reg.groups|);
      var r := RecheckRun(env, reg, admins, q, w);
      && r.world.trace == w.trace + [
           GetChatMember(reg.chatIds[nxt], q.from),
           SendMessage(q.chat, NotSubscribed(reg.groups[nxt].title), Some(BuildKb(reg, idx))),
           ScheduleDelete(q.chat, w.nextId, DeleteOnFailSeconds),
           AnswerCallback(Acknowledge)]
      && r.world.canSend == w.canSend
  {
  }

  /** The shape of the closing notice: a send, then (if it went through) the scheduled deletion and the plain answer. */
  lemma NoticeThenAnswerShape(env: Env, w: World, chat: ChatId, notice: Notice, kb: Option<Keyboard>, delay: nat)
    ensures var r := NoticeThenAnswer(env, w, chat, notice, kb, delay);
      && r.world.canSend == w.canSend && r.world.pinned == w.pinned
      && r.world.trace == w.trace + (
           if env.SendFault(chat).Some? then [SendMessage(chat, notice, kb)]
           else [SendMessage(chat, notice, kb), ScheduleDelete(chat, w.nextId, delay), AnswerCallback(Acknowledge)])
      && (r.outcome == Completed ==> env.SendFault(chat).None?)
  {
  }

  /** What a completed run past validation ends with, and what it never does. */
  predicate WellEnded(r: Run, w: World, target: ChatId, user: UserId) {
    && |r.world.trace| > |w.trace|
    && r.world.trace[..|w.trace|] == w.trace
    && (r.outcome == Completed ==> r.world.trace[|r.world.trace| - 1] == AnswerCallback(Acknowledge))
    && r.world.pinned == w.pinned
    && forall c :: c in r.world.trace[|w.trace|..] ==> RecheckCall(c, target, user)
  }

  lemma NoticeIsWellEnded(env: Env, w: World, chat: ChatId, notice: Notice, kb: Option<Keyboard>, delay: nat, target: ChatId, user: UserId)
    ensures WellEnded(NoticeThenAnswer(env, w, chat, notice, kb, delay), w, target, user)
  {
    var r := NoticeThenAnswer(env, w, chat, notice, kb, delay);
    NoticeThenAnswerShape(env, w, chat, notice, kb, delay);
    assert r.world.trace[|w.trace|..] == r.world.trace[|w.trace|..];
  }

  lemma {:induction false} ExtendWellEnded(r: Run, w1: World, w: World, c: Call, target: ChatId, user: UserId)
    requires w1.trace == w.trace + [c] && w1.pinned == w.pinned && RecheckCall(c, target, user)
    requires WellEnded(r, w1, target, user)
    ensures WellEnded(r, w, target, user)
  {
    assert r.world.trace[|w.trace|..] == [c] + r.world.trace[|w1.trace|..];
  }

  lemma ConfirmedUnlockShape(env: Env, target: ChatId, q: CallbackQuery, w: World)
    ensures WellEnded(ConfirmedUnlock(env, target, q, w), w, target, q.from)
  {
    var c := RestrictChatMember(target, q.from, true);
    var w1 := Perform(env, w, c);
    var r := ConfirmedUnlock(env, target, q, w);
    match Caught(env.RestrictFault(target, q.from))
    case Failure(e) =>
      assert r.world.trace[|w.trace|..] == [c];
    case Success(unlocked) =>
      if unlocked {
        NoticeIsWellEnded(env, w1, q.chat, Confirmed, None, DeleteOnSuccessSeconds, target, q.from);
      } else {
        NoticeIsWellEnded(env, w1, q.chat, ConfirmedNotUnlocked, None, DeleteOnFailSeconds, target, q.from);
      }
      ExtendWellEnded(r, w1, w, c, target, q.from);
  }

  lemma AdminRecheckShape(env: Env, target: ChatId, q: CallbackQuery, w: World)
    ensures WellEnded(AdminRecheck(env, target, q, w), w, target, q.from)
  {
    var c := RestrictChatMember(target, q.from, true);
    var w1 := Perform(env, w, c);
    var r := AdminRecheck(env, target, q, w);
    match Caught(env.RestrictFault(target, q.from))
    case Failure(e) =>
      assert r.world.trace[|w.trace|..] == [c];
    case Success(unlocked) =>
      NoticeIsWellEnded(env, w1, q.chat, if unlocked then AdminUnlocked else AdminUnlockFailed, None, DeleteOnSuccessSeconds, target, q.from);
      ExtendWellEnded(r, w1, w, c, target, q.from);
  }

  lemma MemberRecheckShape(env: Env, reg: Registry, idx: nat, q: CallbackQuery, w: World)
    requires reg.Valid() && idx < |reg.groups|
    ensures WellEnded(MemberRecheck(env, reg, idx, q, w), w, reg.chatIds[idx], q.from)
  {
    var nxt := NextIndex(idx, |reg.groups|);
    var required := reg.chatIds[nxt];
    var c := GetChatMember(required, q.from);
    var w1 := Perform(env, w, c);
    var r := MemberRecheck(env, reg, idx, q, w);
    var target := reg.chatIds[idx];
    match Classify(env.MemberLookup(required, q.from))
    case Failure(e) =>
      assert r.world.trace[|w.trace|..] == [c];
    case Success(member) =>
      if member {
        ConfirmedUnlockShape(env, target, q, w1);
      } else {
        NoticeIsWellEnded(env, w1, q.chat, NotSubscribed(reg.groups[nxt].title), Some(BuildKb(reg, idx)), DeleteOnFailSeconds, target, q.from);
      }
      ExtendWellEnded(r, w1, w, c, target, q.from);
  }

  /** A call the recheck may make past validation: anything but a delete, and no restrict but the unlock of `user` in `target`. */
  predicate RecheckCall(c: Call, target: ChatId, user: UserId) {
    !c.DeleteMessage? && (c.RestrictChatMember? ==> c == RestrictChatMember(target, user, true))
  }

  /**
   * Every path past validation that is not cut short by an exception ends
   * with the plain answer; the recheck never deletes a message, only ever
   * unlocks, and only in the group the data names, which is a registered chat.
   */
  lemma RecheckEndsWithAnswer(env: Env, reg: Registry, admins: set<UserId>, q: CallbackQuery, w: World)
    requires reg.Valid() && RecheckIndex(q.data, |reg.groups|).Some?
    ensures var idx := RecheckIndex(q.data, |reg.groups|).value;
      && reg.chatIds[idx] in reg.indexOf
      && WellEnded(RecheckRun(env, reg, admins, q, w), w, reg.chatIds[idx], q.from)
  {
    var idx := RecheckIndex(q.data, |reg.groups|).value;
    var target := reg.chatIds[idx];
    if q.from in admins {
      AdminRecheckShape(env, target, q, w);
    } else {
      MemberRecheckShape(env, reg, idx, q, w);
    }
  }
}
