/**
 * `ensure_pinned_gate`: in every group, refresh the keyboard of the bot's own
 * marked pinned message, or send a new marked message and pin it.
 */
module PinMaintainer {
  import opened Wrappers
  import opened Telegram
  import opened Settings
  import opened GroupRegistry

  /** `s` contains `sub` as a contiguous piece (Python's `sub in s`). */
  predicate Contains(s: string, sub: string) {
    |sub| <= |s| && (s[..|sub|] == sub || (|s| > 0 && Contains(s[1..], sub)))
  }

  /** A pin the bot recognises as its own gate: written by the bot, with a non-empty text holding the marker. */
  predicate IsOwnGate(p: Message, me: UserId) {
    var text := p.body.Text();
    p.author == Some(me) && text.Some? && |text.value| > 0 && Contains(text.value, PinMark)
  }

  /** The message the platform stores when the bot sends the gate instructions is recognised as its own gate. */
  lemma SentGateIsOwn(me: UserId, id: MessageId, kb: Keyboard)
    ensures IsOwnGate(SentMessage(me, id, GateInstructions, Some(kb)), me)
  {
    assert PinText[..|PinMark|] == PinMark;
  }

  /** One group: `get_chat`, then edit the own gate's keyboard, or send and pin a new gate. */
  function PinOne(env: Env, reg: Registry, idx: nat, w: World): Run
    requires reg.Valid() && idx < |reg.groups|
  {
    var chat := reg.chatIds[idx];
    var kb := BuildKb(reg, idx);
    var w1 := Perform(env, w, GetChat(chat));
    match env.ChatFault(chat)
    case Some(e) => Run(w1, Propagated(e))
    case None =>
      if chat in w.pinned && IsOwnGate(w.pinned[chat], env.me) then
        Run(Perform(env, w1, EditReplyMarkup(chat, w.pinned[chat].id, kb)), Completed)
      else
        var w2 := Perform(env, w1, SendMessage(chat, GateInstructions, Some(kb)));
        match env.SendFault(chat)
        case Some(e) => Run(w2, Propagated(e))
        case None => Run(Perform(env, w2, PinChatMessage(chat, w1.nextId)), Completed)
  }

  /**
   * Only `get_chat` and the send can end the loop: whether the keyboard edit
   * or the pin is refused never changes how a group's step ends, and a step
   * ends in an exception exactly when one of those two calls failed.
   */
  lemma EditAndPinFailuresAreCaught(env: Env, reg: Registry, idx: nat, w: World)
    requires reg.Valid() && idx < |reg.groups|
    ensures var chat := reg.chatIds[idx];
      var r := PinOne(env, reg, idx, w);
      && r.outcome == PinOne(env.(editFaults := {}, pinFaults := {}), reg, idx, w).outcome
      && (r.outcome.Propagated? <==>
            env.ChatFault(chat).Some?
            || (!(chat in w.pinned && IsOwnGate(w.pinned[chat], env.me)) && env.SendFault(chat).Some?))
  {
  }

  /** The first `k` groups in cycle order; an exception stops the loop. */
  function PinRun(env: Env, reg: Registry, k: nat, w: World): Run
    requires reg.Valid() && k <= |reg.groups|
  {
    if k == 0 then Run(w, Completed)
    else
      var r := PinRun(env, reg, k - 1, w);
      if r.outcome.Propagated? then r else PinOne(env, reg, k - 1, r.world)
  }

  lemma {:induction false} PinAbortIsFinal(env: Env, reg: Registry, j: nat, k: nat, w: World)
    requires reg.Valid() && j <= k <= |reg.groups|
    requires PinRun(env, reg, j, w).outcome.Propagated?
    ensures PinRun(env, reg, k, w) == PinRun(env, reg, j, w)
    decreases k
  {
    if j < k {
      PinAbortIsFinal(env, reg, j, k - 1, w);
    }
  }

  /** `ensure_pinned_gate`. */
  method EnsurePinnedGate(tg: Platform, reg: Registry) returns (outcome: Outcome)
    requires reg.Valid()
    modifies tg
    ensures Run(tg.State(), outcome) == PinRun(tg.env, reg, |reg.groups|, old(tg.State()))
  {
    var me := tg.env.me;
    ghost var start := tg.State();
    for idx := 0 to |reg.chatIds|
      invariant PinRun(tg.env, reg, idx, start) == Run(tg.State(), Completed)
    {
      ghost var before := tg.State();
      assert PinRun(tg.env, reg, idx + 1, start) == PinOne(tg.env, reg, idx, before);
      var chat := reg.chatIds[idx];
      var kb := BuildKb(reg, idx);
      var info := tg.GetChat(chat);
      if info.Failure? {
        PinAbortIsFinal(tg.env, reg, idx + 1, |reg.groups|, start);
        return Propagated(info.error);
      }
      var pinned := info.value;
      if pinned.Some? && IsOwnGate(pinned.value, me) {
        var _ := tg.EditReplyMarkup(chat, pinned.value.id, kb);
        continue;
      }
      var sent := tg.SendMessage(chat, GateInstructions, Some(kb));
      if sent.Failure? {
        PinAbortIsFinal(tg.env, reg, idx + 1, |reg.groups|, start);
        return Propagated(sent.error);
      }
      var _ := tg.PinChatMessage(chat, sent.value);
    }
    return Completed;
  }

  /** Every group chat carries the bot's own gate. */
  predicate AllOwnGates(reg: Registry, pinned: map<ChatId, Message>, me: UserId) {
    forall i :: 0 <= i < |reg.chatIds| ==> reg.chatIds[i] in pinned && IsOwnGate(pinned[reg.chatIds[i]], me)
  }

  /** One group's step never spoils an own gate anywhere. */
  lemma PinOneKeepsOwnGates(env: Env, reg: Registry, idx: nat, w: World, c: ChatId)
    requires reg.Valid() && idx < |reg.groups|
    requires c in w.pinned && IsOwnGate(w.pinned[c], env.me)
    ensures var r := PinOne(env, reg, idx, w);
      c in r.world.pinned && IsOwnGate(r.world.pinned[c], env.me)
  {
    SentGateIsOwn(env.me, w.nextId, BuildKb(reg, idx));
  }

  /** One group's step leaves the pinned message of every other chat as it was. */
  lemma PinOneElsewhere(env: Env, reg: Registry, idx: nat, w: World, c: ChatId)
    requires reg.Valid() && idx < |reg.groups| && c != reg.chatIds[idx]
    ensures var r := PinOne(env, reg, idx, w);
      (c in r.world.pinned <==> c in w.pinned) && (c in w.pinned ==> r.world.pinned[c] == w.pinned[c])
  {
  }

  /** Group `idx` carries the bot's own gate, and that gate carries the group's keyboard. */
  predicate GateInstalled(reg: Registry, me: UserId, idx: nat, pinned: map<ChatId, Message>)
    requires reg.Valid() && idx < |reg.groups|
  {
    var chat := reg.chatIds[idx];
    chat in pinned && IsOwnGate(pinned[chat], me) && pinned[chat].keyboard == Some(BuildKb(reg, idx))
  }

  /**
   * A step that completes leaves its group with an own gate, unless pinning
   * was refused there; unless the keyboard edit was refused too, that gate
   * carries the group's keyboard.
   */
  lemma PinOneEstablishes(env: Env, reg: Registry, idx: nat, w: World)
    requires reg.Valid() && idx < |reg.groups| && reg.chatIds[idx] !in env.pinFaults
    ensures var r := PinOne(env, reg, idx, w);
      r.outcome == Completed ==> reg.chatIds[idx] in r.world.pinned && IsOwnGate(r.world.pinned[reg.chatIds[idx]], env.me)
    ensures var r := PinOne(env, reg, idx, w);
      r.outcome == Completed && reg.chatIds[idx] !in env.editFaults ==> GateInstalled(reg, env.me, idx, r.world.pinned)
  {
    var chat := reg.chatIds[idx];
    var kb := BuildKb(reg, idx);
    if env.ChatFault(chat).None? && !(chat in w.pinned && IsOwnGate(w.pinned[chat], env.me)) && env.SendFault(chat).None? {
      var w2 := Perform(env, Perform(env, w, GetChat(chat)), SendMessage(chat, GateInstructions, Some(kb)));
      assert w2.sent[(chat, w.nextId)] == SentMessage(env.me, w.nextId, GateInstructions, Some(kb));
      SentGateIsOwn(env.me, w.nextId, kb);
    }
  }

  /** An installed gate stays installed while another group's step runs. */
  lemma InstalledElsewhere(env: Env, reg: Registry, idx: nat, w: World, i: nat)
    requires reg.Valid() && idx < |reg.groups| && i < |reg.groups| && reg.chatIds[i] != reg.chatIds[idx]
    requires GateInstalled(reg, env.me, i, w.pinned)
    ensures GateInstalled(reg, env.me, i, PinOne(env, reg, idx, w).world.pinned)
  {
    PinOneElsewhere(env, reg, idx, w, reg.chatIds[i]);
  }

  /** The first `k` groups all carry an own gate with their keyboard. */
  predicate InstalledUpTo(reg: Registry, me: UserId, k: nat, pinned: map<ChatId, Message>)
    requires reg.Valid() && k <= |reg.groups|
  {
    forall i :: 0 <= i < k ==> GateInstalled(reg, me, i, pinned)
  }

  /** The first `k` groups all carry an own gate. */
  predicate OwnUpTo(reg: Registry, me: UserId, k: nat, pinned: map<ChatId, Message>)
    requires reg.Valid() && k <= |reg.groups|
  {
    forall i :: 0 <= i < k ==> reg.chatIds[i] in pinned && IsOwnGate(pinned[reg.chatIds[i]], me)
  }

  /** Every group chat id appears once, and no group refuses the keyboard edit. */
  predicate EditsLand(env: Env, reg: Registry) {
    Distinct(reg.chatIds) && forall i :: 0 <= i < |reg.chatIds| ==> reg.chatIds[i] !in env.editFaults
  }

  /** A completed step on group `idx` extends what the groups before it carry to group `idx` itself. */
  lemma PinOneExtends(env: Env, reg: Registry, idx: nat, w: World)
    requires reg.Valid() && idx < |reg.groups| && reg.chatIds[idx] !in env.pinFaults
    requires OwnUpTo(reg, env.me, idx, w.pinned)
    requires EditsLand(env, reg) ==> InstalledUpTo(reg, env.me, idx, w.pinned)
    ensures var r := PinOne(env, reg, idx, w);
      r.outcome == Completed ==>
        && OwnUpTo(reg, env.me, idx + 1, r.world.pinned)
        && (EditsLand(env, reg) ==> InstalledUpTo(reg, env.me, idx + 1, r.world.pinned))
  {
    var r := PinOne(env, reg, idx, w);
    if r.outcome == Completed {
      PinOneEstablishes(env, reg, idx, w);
      forall i | 0 <= i < idx
        ensures reg.chatIds[i] in r.world.pinned && IsOwnGate(r.world.pinned[reg.chatIds[i]], env.me)
      {
        PinOneKeepsOwnGates(env, reg, idx, w, reg.chatIds[i]);
      }
      if EditsLand(env, reg) {
        forall i | 0 <= i < idx
          ensures GateInstalled(reg, env.me, i, r.world.pinned)
        {
          InstalledElsewhere(env, reg, idx, w, i);
        }
      }
    }
  }

  /**
   * When the loop completes and no group refuses the pin, every group it
   * has visited carries the bot's own gate; when, besides, the group ids are
   * distinct and no group refuses the keyboard edit, each of those gates
   * carries its own group's keyboard.
   */
  lemma {:induction false} PinRunEstablishes(env: Env, reg: Registry, k: nat, w: World)
    requires reg.Valid() && k <= |reg.groups|
    requires forall i :: 0 <= i < |reg.chatIds| ==> reg.chatIds[i] !in env.pinFaults
    ensures var r := PinRun(env, reg, k, w);
      r.outcome == Completed ==> OwnUpTo(reg, env.me, k, r.world.pinned)
    ensures var r := PinRun(env, reg, k, w);
      r.outcome == Completed && EditsLand(env, reg) ==> InstalledUpTo(reg, env.me, k, r.world.pinned)
  {
    if k > 0 {
      PinRunEstablishes(env, reg, k - 1, w);
      var r0 := PinRun(env, reg, k - 1, w);
      if r0.outcome == Completed {
        PinOneExtends(env, reg, k - 1, r0.world);
      }
    }
  }

  /** Calls that neither send nor pin: chat lookups and keyboard edits. */
  predicate EditsOnly(calls: seq<Call>) {
    forall c :: c in calls ==> c.GetChat? || c.EditReplyMarkup?
  }

  /** `w1` extends `w` by edits only, keeps every own gate and sends nothing. */
  predicate EditedFrom(reg: Registry, me: UserId, w: World, w1: World) {
    && |w.trace| <= |w1.trace|
    && w1.trace[..|w.trace|] == w.trace
    && EditsOnly(w1.trace[|w.trace|..])
    && AllOwnGates(reg, w1.pinned, me)
    && w1.nextId == w.nextId
  }

  lemma EditedFromChains(reg: Registry, me: UserId, w: World, w1: World, w2: World)
    requires EditedFrom(reg, me, w, w1) && EditedFrom(reg, me, w1, w2)
    ensures EditedFrom(reg, me, w, w2)
  {
    assert w2.trace[|w.trace|..] == w1.trace[|w.trace|..] + w2.trace[|w1.trace|..];
  }

  /** One step on a group when every group carries an own gate: a `get_chat`, then at most a keyboard edit. */
  lemma PinOneOnOwnGate(env: Env, reg: Registry, idx: nat, w: World)
    requires reg.Valid() && idx < |reg.groups| && AllOwnGates(reg, w.pinned, env.me)
    ensures EditedFrom(reg, env.me, w, PinOne(env, reg, idx, w).world)
  {
    var r := PinOne(env, reg, idx, w);
    forall i | 0 <= i < |reg.chatIds|
      ensures reg.chatIds[i] in r.world.pinned && IsOwnGate(r.world.pinned[reg.chatIds[i]], env.me)
    {
      PinOneKeepsOwnGates(env, reg, idx, w, reg.chatIds[i]);
    }
    var chat := reg.chatIds[idx];
    var added := if env.ChatFault(chat).Some? then [GetChat(chat)]
                 else [GetChat(chat), EditReplyMarkup(chat, w.pinned[chat].id, BuildKb(reg, idx))];
    assert r.world.trace == w.trace + added;
    assert r.world.trace[|w.trace|..] == added;
  }

  /**
   * When every group already carries an own gate, the loop sends and pins
   * nothing: each group costs one `get_chat` and one keyboard edit, and the
   * own gates stay in place.
   */
  lemma {:induction false} OwnGatesAreOnlyEdited(env: Env, reg: Registry, k: nat, w: World)
    requires reg.Valid() && k <= |reg.groups| && AllOwnGates(reg, w.pinned, env.me)
    ensures EditedFrom(reg, env.me, w, PinRun(env, reg, k, w).world)
  {
    if k == 0 {
      assert w.trace[|w.trace|..] == [];
    } else {
      var r0 := PinRun(env, reg, k - 1, w);
      OwnGatesAreOnlyEdited(env, reg, k - 1, w);
      if r0.outcome == Completed {
        PinOneOnOwnGate(env, reg, k - 1, r0.world);
        EditedFromChains(reg, env.me, w, r0.world, PinOne(env, reg, k - 1, r0.world).world);
      }
    }
  }

  /**
   * Running the maintainer twice: when the first run completes and no group
   * refuses the pin, the second run sends nothing and pins nothing, it only
   * refreshes keyboards.
   */
  lemma SecondRunOnlyEdits(env: Env, reg: Registry, w: World)
    requires reg.Valid()
    requires forall i :: 0 <= i < |reg.chatIds| ==> reg.chatIds[i] !in env.pinFaults
    requires PinRun(env, reg, |reg.groups|, w).outcome == Completed
    ensures var w1 := PinRun(env, reg, |reg.groups|, w).world;
      var w2 := PinRun(env, reg, |reg.groups|, w1).world;
      && |w1.trace| <= |w2.trace|
      && forall c :: c in w2.trace[|w1.trace|..] ==> !c.SendMessage? && !c.PinChatMessage?
  {
    var w1 := PinRun(env, reg, |reg.groups|, w).world;
    PinRunEstablishes(env, reg, |reg.groups|, w);
    OwnGatesAreOnlyEdited(env, reg, |reg.groups|, w1);
    var w2 := PinRun(env, reg, |reg.groups|, w1).world;
    assert EditsOnly(w2.trace[|w1.trace|..]);
  }
}
