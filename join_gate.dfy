/** `on_new_members`: every new human member who is not an admin is muted on arrival. */
module JoinGate {
  import opened Wrappers
  import opened Telegram
  import opened Settings
  import opened GroupRegistry
  import opened Permissions

  /** The joiners the handler acts on: neither bots nor admins. */
  predicate Eligible(u: User, admins: set<UserId>) {
    !u.isBot && u.id !in admins
  }

  /** One joiner: mute it in the chat, then a welcome notice with the keyboard, deleted after the failure delay. */
  function JoinOne(env: Env, chat: ChatId, kb: Keyboard, admins: set<UserId>, u: User, w: World): Run {
    if !Eligible(u, admins) then Run(w, Completed)
    else
      var w1 := Perform(env, w, RestrictChatMember(chat, u.id, false));
      if Caught(env.RestrictFault(chat, u.id)).Failure? then Run(w1, Propagated(OtherError))
      else
        var w2 := Perform(env, w1, SendMessage(chat, Welcome(u.id, u.fullName), Some(kb)));
        match env.SendFault(chat)
        case Some(e) => Run(w2, Propagated(e))
        case None => Run(Perform(env, w2, ScheduleDelete(chat, w1.nextId, DeleteOnFailSeconds)), Completed)
  }

  /** The joiners in order; an exception stops the loop. */
  function JoinSteps(env: Env, chat: ChatId, kb: Keyboard, admins: set<UserId>, users: seq<User>, w: World): Run
    decreases |users|
  {
    if users == [] then Run(w, Completed)
    else
      var r := JoinSteps(env, chat, kb, admins, users[..|users| - 1], w);
      if r.outcome.Propagated? then r else JoinOne(env, chat, kb, admins, users[|users| - 1], r.world)
  }

  function JoinRun(env: Env, reg: Registry, admins: set<UserId>, m: IncomingMessage, w: World): Run
    requires reg.Valid()
  {
    if m.chat !in reg.indexOf then Run(w, Completed)
    else JoinSteps(env, m.chat, BuildKb(reg, reg.indexOf[m.chat]), admins, m.newChatMembers, w)
  }

  /** Once an exception has stopped the loop, later joiners change nothing. */
  lemma {:induction false} AbortIsFinal(env: Env, chat: ChatId, kb: Keyboard, admins: set<UserId>, users: seq<User>, k: nat, w: World)
    requires k <= |users|
    requires JoinSteps(env, chat, kb, admins, users[..k], w).outcome.Propagated?
    ensures JoinSteps(env, chat, kb, admins, users, w) == JoinSteps(env, chat, kb, admins, users[..k], w)
    decreases |users|
  {
    if k < |users| {
      var front := users[..|users| - 1];
      assert front[..k] == users[..k];
      AbortIsFinal(env, chat, kb, admins, front, k, w);
    } else {
      assert users[..k] == users;
    }
  }

  /** The loop's next iteration: the joiners up to `i` inclusive are those before `i`, then joiner `i`. */
  lemma JoinStepsNext(env: Env, chat: ChatId, kb: Keyboard, admins: set<UserId>, users: seq<User>, i: nat, w: World)
    requires i < |users|
    ensures var r := JoinSteps(env, chat, kb, admins, users[..i], w);
      JoinSteps(env, chat, kb, admins, users[..i + 1], w)
        == if r.outcome.Propagated? then r else JoinOne(env, chat, kb, admins, users[i], r.world)
  {
    assert users[..i + 1][..i] == users[..i];
  }

  /** `on_new_members`. */
  method OnNewMembers(tg: Platform, reg: Registry, admins: set<UserId>, m: IncomingMessage) returns (outcome: Outcome)
    requires reg.Valid()
    modifies tg
    ensures Run(tg.State(), outcome) == JoinRun(tg.env, reg, admins, m, old(tg.State()))
  {
    if m.chat !in reg.indexOf {
      return Completed;
    }
    var cur := reg.indexOf[m.chat];
    var kb := BuildKb(reg, cur);
    var users := m.newChatMembers;
    ghost var start := tg.State();
    for i := 0 to |users|
      invariant JoinSteps(tg.env, m.chat, kb, admins, users[..i], start) == Run(tg.State(), Completed)
    {
      JoinStepsNext(tg.env, m.chat, kb, admins, users, i, start);
      ghost var before := tg.State();
      var u := users[i];
      if u.isBot {
        continue;
      }
      if u.id in admins {
        continue;
      }
      var restricted := RestrictUser(tg, m.chat, u.id);
      if restricted.Failure? {
        AbortIsFinal(tg.env, m.chat, kb, admins, users, i + 1, start);
        return Propagated(restricted.error);
      }
      var sent := tg.SendMessage(m.chat, Welcome(u.id, u.fullName), Some(kb));
      if sent.Failure? {
        AbortIsFinal(tg.env, m.chat, kb, admins, users, i + 1, start);
        return Propagated(sent.error);
      }
      tg.ScheduleDelete(m.chat, sent.value, DeleteOnFailSeconds);
      assert JoinOne(tg.env, m.chat, kb, admins, u, before) == Run(tg.State(), Completed);
    }
    assert users[..|users|] == users;
    return Completed;
  }

  /** The calls the handler may make for a joiner list: mute an eligible joiner, welcome it, schedule the welcome's deletion. */
  predicate JoinCall(c: Call, chat: ChatId, kb: Keyboard, admins: set<UserId>, users: seq<User>) {
    match c
    case RestrictChatMember(ch, user, allow) =>
      ch == chat && !allow && exists u :: u in users && Eligible(u, admins) && u.id == user
    case SendMessage(ch, notice, keyboard) =>
      ch == chat && keyboard == Some(kb) && exists u :: u in users && Eligible(u, admins) && notice == Welcome(u.id, u.fullName)
    case ScheduleDelete(ch, _, seconds) =>
      ch == chat && seconds == DeleteOnFailSeconds
    case _ => false
  }

  /** Permissions only ever go from whatever they were to "cannot send", and only in `chat`. */
  predicate OnlyMutesIn(before: map<(ChatId, UserId), bool>, after: map<(ChatId, UserId), bool>, chat: ChatId) {
    && before.Keys <= after.Keys
    && forall k :: k in after ==> (k in before && after[k] == before[k]) || (k.0 == chat && !after[k])
  }

  /** One joiner's calls are join calls for any joiner list holding it. */
  lemma JoinOneMakesJoinCalls(env: Env, chat: ChatId, kb: Keyboard, admins: set<UserId>, users: seq<User>, u: User, w: World)
    requires u in users
    ensures var r := JoinOne(env, chat, kb, admins, u, w);
      && |w.trace| <= |r.world.trace|
      && r.world.trace[..|w.trace|] == w.trace
      && (forall k :: |w.trace| <= k < |r.world.trace| ==> JoinCall(r.world.trace[k], chat, kb, admins, users))
      && r.world.pinned == w.pinned
      && OnlyMutesIn(w.canSend, r.world.canSend, chat)
  {
    if Eligible(u, admins) {
      assert JoinCall(RestrictChatMember(chat, u.id, false), chat, kb, admins, users);
      assert JoinCall(SendMessage(chat, Welcome(u.id, u.fullName), Some(kb)), chat, kb, admins, users);
    }
  }

  lemma OnlyMutesInChains(a: map<(ChatId, UserId), bool>, b: map<(ChatId, UserId), bool>, c: map<(ChatId, UserId), bool>, chat: ChatId)
    requires OnlyMutesIn(a, b, chat) && OnlyMutesIn(b, c, chat)
    ensures OnlyMutesIn(a, c, chat)
  {
  }

  /**
   * No membership query is ever made for joiners: every call is a mute of an
   * eligible joiner in the chat, a welcome notice with the chat's keyboard,
   * or the scheduled deletion of one; the pinned messages are untouched and
   * permissions only move to "cannot send" in this chat.
   */
  lemma {:induction false} JoinMakesOnlyJoinCalls(env: Env, chat: ChatId, kb: Keyboard, admins: set<UserId>, users: seq<User>, w: World)
    ensures var r := JoinSteps(env, chat, kb, admins, users, w);
      && |w.trace| <= |r.world.trace|
      && r.world.trace[..|w.trace|] == w.trace
      && (forall k :: |w.trace| <= k < |r.world.trace| ==> JoinCall(r.world.trace[k], chat, kb, admins, users))
      && r.world.pinned == w.pinned
      && OnlyMutesIn(w.canSend, r.world.canSend, chat)
    decreases |users|
  {
    if users != [] {
      var front := users[..|users| - 1];
      var last := users[|users| - 1];
      JoinMakesOnlyJoinCalls(env, chat, kb, admins, front, w);
      var r0 := JoinSteps(env, chat, kb, admins, front, w);
      assert forall u :: u in front ==> u in users;
      forall k | |w.trace| <= k < |r0.world.trace|
        ensures JoinCall(r0.world.trace[k], chat, kb, admins, users)
      {
        assert JoinCall(r0.world.trace[k], chat, kb, admins, front);
      }
      if r0.outcome.Completed? {
        var r1 := JoinOne(env, chat, kb, admins, last, r0.world);
        JoinOneMakesJoinCalls(env, chat, kb, admins, users, last, r0.world);
        OnlyMutesInChains(w.canSend, r0.world.canSend, r1.world.canSend, chat);
        assert r1.world.trace[..|r0.world.trace|] == r0.world.trace;
      }
    }
  }

  /** A bot or an admin joining gets nothing: no mute, no welcome, no call at all. */
  lemma IneligibleJoinerUntouched(env: Env, chat: ChatId, kb: Keyboard, admins: set<UserId>, u: User, w: World)
    requires !Eligible(u, admins)
    ensures JoinOne(env, chat, kb, admins, u, w) == Run(w, Completed)
  {
  }

  /** A completed step for an eligible joiner: exactly the mute, the welcome and its scheduled deletion. */
  lemma JoinOneCompleted(env: Env, chat: ChatId, kb: Keyboard, admins: set<UserId>, u: User, w: World)
    requires Eligible(u, admins) && JoinOne(env, chat, kb, admins, u, w).outcome == Completed
    ensures var r := JoinOne(env, chat, kb, admins, u, w);
      && r.world.trace == w.trace + [RestrictChatMember(chat, u.id, false), SendMessage(chat, Welcome(u.id, u.fullName), Some(kb)),
                                     ScheduleDelete(chat, w.nextId, DeleteOnFailSeconds)]
      && (env.RestrictFault(chat, u.id).None? ==> (chat, u.id) in r.world.canSend && !r.world.canSend[(chat, u.id)])
  {
  }

  /** A call made since `w` is still there once the trace has grown further. */
  lemma {:induction false} StillInSuffix(w: World, t1: seq<Call>, t2: seq<Call>, c: Call)
    requires |w.trace| <= |t1| <= |t2| && t2[..|t1|] == t1
    requires c in t1[|w.trace|..]
    ensures c in t2[|w.trace|..]
  {
    var i :| 0 <= i < |t1[|w.trace|..]| && t1[|w.trace|..][i] == c;
    assert t2[|w.trace|..][i] == c;
  }

  /**
   * Since `start`, joiner `u` has been muted in the chat and welcomed with a
   * notice carrying the chat's keyboard, and stays muted unless the mute was
   * refused.
   */
  predicate Welcomed(env: Env, chat: ChatId, kb: Keyboard, u: User, start: World, now: World) {
    && |start.trace| <= |now.trace|
    && RestrictChatMember(chat, u.id, false) in now.trace[|start.trace|..]
    && SendMessage(chat, Welcome(u.id, u.fullName), Some(kb)) in now.trace[|start.trace|..]
    && (env.RestrictFault(chat, u.id).None? ==> (chat, u.id) in now.canSend && !now.canSend[(chat, u.id)])
  }

  lemma JoinOneWelcomes(env: Env, chat: ChatId, kb: Keyboard, admins: set<UserId>, u: User, w: World)
    requires Eligible(u, admins) && JoinOne(env, chat, kb, admins, u, w).outcome == Completed
    ensures Welcomed(env, chat, kb, u, w, JoinOne(env, chat, kb, admins, u, w).world)
  {
    JoinOneCompleted(env, chat, kb, admins, u, w);
    var added := JoinOne(env, chat, kb, admins, u, w).world.trace[|w.trace|..];
    assert added[0] == RestrictChatMember(chat, u.id, false);
    assert added[1] == SendMessage(chat, Welcome(u.id, u.fullName), Some(kb));
  }

  /** A welcome since `mid` is a welcome since any earlier `start`. */
  lemma WelcomedSinceEarlier(env: Env, chat: ChatId, kb: Keyboard, u: User, start: World, mid: World, now: World)
    requires |start.trace| <= |mid.trace| && Welcomed(env, chat, kb, u, mid, now)
    ensures Welcomed(env, chat, kb, u, start, now)
  {
    assert now.trace[|start.trace|..] == now.trace[|start.trace|..|mid.trace|] + now.trace[|mid.trace|..];
  }

  /** A welcome stays a welcome while the loop only adds calls and mutes. */
  lemma WelcomedPersists(env: Env, chat: ChatId, kb: Keyboard, u: User, start: World, mid: World, now: World)
    requires Welcomed(env, chat, kb, u, start, mid)
    requires |mid.trace| <= |now.trace| && now.trace[..|mid.trace|] == mid.trace
    requires OnlyMutesIn(mid.canSend, now.canSend, chat)
    ensures Welcomed(env, chat, kb, u, start, now)
  {
    StillInSuffix(start, mid.trace, now.trace, RestrictChatMember(chat, u.id, false));
    StillInSuffix(start, mid.trace, now.trace, SendMessage(chat, Welcome(u.id, u.fullName), Some(kb)));
  }

  /**
   * When the handler completes, every eligible joiner has been muted in the
   * chat and welcomed with a notice carrying the chat's keyboard.
   */
  lemma {:induction false} JoinMutesEveryEligible(env: Env, chat: ChatId, kb: Keyboard, admins: set<UserId>, users: seq<User>, w: World)
    ensures var r := JoinSteps(env, chat, kb, admins, users, w);
      |w.trace| <= |r.world.trace| &&
      (r.outcome == Completed ==> forall u :: u in users && Eligible(u, admins) ==> Welcomed(env, chat, kb, u, w, r.world))
    decreases |users|
  {
    JoinMakesOnlyJoinCalls(env, chat, kb, admins, users, w);
    if users != [] {
      var front := users[..|users| - 1];
      var last := users[|users| - 1];
      var r0 := JoinSteps(env, chat, kb, admins, front, w);
      var r := JoinSteps(env, chat, kb, admins, users, w);
      if r.outcome == Completed {
        JoinMutesEveryEligible(env, chat, kb, admins, front, w);
        JoinMakesOnlyJoinCalls(env, chat, kb, admins, front, w);
        assert r0.outcome == Completed;
        var r1 := JoinOne(env, chat, kb, admins, last, r0.world);
        assert r == r1;
        JoinOneMakesJoinCalls(env, chat, kb, admins, users, last, r0.world);
        forall u | u in users && Eligible(u, admins)
          ensures Welcomed(env, chat, kb, u, w, r.world)
        {
          if u == last {
            JoinOneWelcomes(env, chat, kb, admins, u, r0.world);
            WelcomedSinceEarlier(env, chat, kb, u, w, r0.world, r.world);
          } else {
            assert u in front;
            WelcomedPersists(env, chat, kb, u, w, r0.world, r.world);
          }
        }
      }
    }
  }

  /** A join in a chat outside the registry changes nothing. */
  lemma UnregisteredChatUntouched(env: Env, reg: Registry, admins: set<UserId>, m: IncomingMessage, w: World)
    requires reg.Valid() && m.chat !in reg.indexOf
    ensures JoinRun(env, reg, admins, m, w) == Run(w, Completed)
  {
  }
}
