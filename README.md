# Cyclic group gate — a Dafny model

`Bot.py` is a Telegram bot that guards a ring of N ≥ 2 groups. To write in
group *i* a user must be a member of group *(i + 1) mod N*. This project
models the bot's core:

- the successor rule;
- the registry of groups resolved at startup;
- the inline keyboard and its `check:<idx>` callback payload;
- the membership test;
- the two permission helpers;
- the four handlers: the message gate, the new-member mute, the recheck button and the pinned-gate maintainer.

It then proves what these promise.

The Telegram platform is the class `Telegram.Platform`:

- Its constant `env` fixes how the platform answers: the membership table, which restricts, sends and `get_chat` calls fail and with which error, which edits and pins are refused, and the bot's own id.
- Its mutable fields are the send permissions, the pinned message of each chat, the messages the bot has sent (keyed by chat and message id), the next message id and the trace of calls made.
- A message the bot sends is stored with the bot as author, the notice it says and its keyboard. `Telegram.NoticeText` gives each notice's text as Bot.py writes it. A pin names a stored message by id, as `pin_chat_message` does.

Every platform method appends its call to the trace. `Telegram.Perform`
gives the effect of one call as a pure function.

Each handler is an imperative method over the platform. Its `ensures`
ties the final state and its outcome to a pure run function of the starting
state (`GateRun`, `JoinRun`, `RecheckRun`, `PinRun`), and the properties
are lemmas about those run functions. An exception the source does not
catch ends the run as `Propagated(error)` and stops the handler where the
Python coroutine would stop.

Modules and files:

| file | module | models |
|---|---|---|
| `wrappers.dfy` | `Wrappers` | `Option`, `Result` |
| `settings.dfy` | `Settings` | notice delays, pin marker, notice texts |
| `telegram.dfy` | `Telegram` | platform entities, calls, `Platform` |
| `cycle.dfy` | `Cycle` | `next_index` |
| `checkdata.dfy` | `CheckData` | `"check:<idx>"`, `str`, `split`, `int` |
| `registry.dfy` | `GroupRegistry` | registry loop of `main`, `build_kb` |
| `membership.dfy` | `Membership` | `is_member` |
| `permissions.dfy` | `Permissions` | `restrict_user`, `unlock_user` |
| `message_gate.dfy` | `MessageGate` | `gate_on_every_message` |
| `join_gate.dfy` | `JoinGate` | `on_new_members` |
| `recheck.dfy` | `Recheck` | `check_sub` |
| `pin_maintainer.dfy` | `PinMaintainer` | `ensure_pinned_gate` |

## Model

| member | source | states |
|---|---|---|
| Cycle.NextIndex | Bot.py:57-58 | The successor lies in `[0, n)`. It is `i + 1` before the last group and 0 after it. |
| Cycle.AdvanceWraps | Bot.py:57-58 | Within one turn, k successor steps from i reach `i + k`, wrapping once past the last group. |
| Cycle.CycleCloses | Bot.py:57-58 | N successor steps lead back to the starting group. |
| Cycle.NoSelfRequirement | Bot.py:314-315 | With at least two groups, no group is its own requirement. |
| Cycle.NextIndexInjective | Bot.py:57-58 | Two groups with the same requirement are the same group. |
| CheckData.Decimal | Bot.py:66 | `str(idx)` is a non-empty run of decimal digits. |
| CheckData.DecimalValue | Bot.py:66 | The digits written for n read back as n. |
| CheckData.DecimalRoundTrip | Bot.py:266 | `int(str(n)) == n` for every non-negative n. |
| CheckData.NegativeDecimal | Bot.py:266 | `int("-" + str(n))` is −n, which is then refused by the range check. |
| CheckData.SplitNoColon | Bot.py:266 | Splitting text without a colon yields the text alone. |
| CheckData.SplitAfterPrefix | Bot.py:266 | Splitting `p:rest` with a colon-free `p` yields `p` followed by the pieces of `rest`. |
| CheckData.CheckDataRoundTrip | Bot.py:66 | The payload `check:<idx>` parses back to `idx`. |
| CheckData.EncodeCheckInjective | Bot.py:66 | Distinct groups get distinct payloads. |
| CheckData.NoColonIsRefused | Bot.py:266-269 | Data without a second `:` field makes the parse fail, so it takes the "invalid data" path. |
| GroupRegistry.BuildRegistry | Bot.py:314-325 | Fewer than two groups is refused. Resolution succeeds iff every handle resolves; otherwise it reports the first handle that does not. On success: ids in config order, each position indexed, a repeated id indexed at its last position, and index keys exactly the resolved ids. |
| GroupRegistry.DistinctIdsInvert | Bot.py:322-325 | With distinct ids, the index map inverts the id list. |
| GroupRegistry.SuccessorIsAnotherChat | Bot.py:207-209 | With distinct ids, the required chat is never the gated chat. |
| GroupRegistry.BuildKb | Bot.py:61-68 | The keyboard links to the successor group. Its recheck payload parses back to the current index. |
| Membership.ClassifyCases | Bot.py:79-98 | Member, administrator and creator count. Restricted counts only with `is_member` true. Left and kicked do not count. Forbidden/BadRequest read as "no". Any other error propagates. |
| Membership.ClassifyIsFailClosed | Bot.py:79-98 | Against the three-way verdict: "member" exactly when Present. Unknown never admits. Only an error other than Forbidden/BadRequest escapes. |
| Membership.IsMember | Bot.py:79-98 | One `get_chat_member` call; the result is its classification. |
| Permissions.Caught | Bot.py:102-112 | True iff the call went through. False iff it raised Forbidden or BadRequest. Any other error propagates. |
| Permissions.RestrictUser | Bot.py:102-112 | One restrict call denying sending in the chat; its reply as caught. |
| Permissions.UnlockUser | Bot.py:115-136 | One restrict call granting sending in the chat; its reply as caught. |
| Permissions.PermissionSetRegardlessOfPrior | Bot.py:105-109 | A successful call sets the permission whatever it was and touches no other (chat, user). A failed one changes nothing. |
| Permissions.RepeatIsIdempotent | Bot.py:115-136 | Repeating a mute or unlock leaves the state as one call did. |
| Telegram.Platform.GetChatMember | Bot.py:86 | Records the query; answers from the membership table. |
| Telegram.Platform.RestrictChatMember | Bot.py:105-109 | Records the call. Sets the permission unless the call fails. |
| Telegram.Platform.DeleteMessage | Bot.py:220 | Records the deletion. |
| Telegram.Platform.SendMessage | Bot.py:226-229 | Records the send. On success, stores the bot's message saying the notice, with its keyboard, under a fresh id, and returns that id. |
| Telegram.Platform.ScheduleDelete | Bot.py:230 | Records the detached deletion with its delay. |
| Telegram.Platform.AnswerCallback | Bot.py:268 | Records the answer; reports its fault. |
| Telegram.Platform.GetChat | Bot.py:147-148 | Records the call; reports the chat's pinned message or the fault. |
| Telegram.Platform.EditReplyMarkup | Bot.py:159-163 | Records the edit. Unless refused, replaces the keyboard of the named message, both as pinned and as stored. |
| Telegram.Platform.PinChatMessage | Bot.py:178 | Records the pin. Unless refused, or the id names no message the bot sent in that chat, the stored message with that id becomes the chat's pinned message. Reports whether that happened. |
| MessageGate.GateOnEveryMessage | Bot.py:187-230 | The handler's final state and outcome are those of `GateRun` from its starting state. |
| MessageGate.SkippedMessagesChangeNothing | Bot.py:189-205 | These messages cause no call and no change: unregistered chats, join/leave service messages, no sender, bots, admins. |
| MessageGate.QueriedOnceStep | Bot.py:213-230 | A call that is not a membership query keeps "one query, first". |
| MessageGate.GateQueriesSuccessorOnly | Bot.py:207-211 | The first call asks about the successor group's membership. It is the only membership query. With distinct ids it is a different chat. |
| MessageGate.MemberIsOnlyUnlocked | Bot.py:213-216 | A member gets exactly the query and an unlock in the current chat. There is no delete, mute or notice. |
| MessageGate.NonMemberIsBlocked | Bot.py:218-230 | A non-member gets exactly, in order: query, delete, mute, notice with the keyboard, and its deletion after 30 s. This holds even when the mute is refused with Forbidden/BadRequest. A mute that goes through takes effect; a refused one leaves permissions unchanged. |
| MessageGate.UnknownMembershipIsBlocked | Bot.py:97-98 | A membership query refused with Forbidden/BadRequest leads to a mute, never an unlock. |
| MessageGate.TouchedOnlyStep | Bot.py:187-230 | A call that mutes or unlocks only the sender in the chat, and deletes only the sender's message, preserves "touched only the sender and the message". |
| MessageGate.NoUnlockStep | Bot.py:213-230 | A call that is not the sender's unlock keeps "no unlock since the start" true. |
| MessageGate.NonMemberTouchesOnlySender | Bot.py:218-230 | On the non-member path, every mute is of the sender in the current chat and every delete is of the incoming message. |
| MessageGate.GateTouchesOnlySenderInChat | Bot.py:187-230 | Either nothing happens, or the chat is registered, every mute or unlock is of the sender in that chat, and every delete is of the incoming message itself. Pins are untouched. |
| MessageGate.TwoGroupScenario | Bot.py:187-230 | Two groups, a non-member writing in group 0: delete, mute, a notice linking to group 1 with `check:0`, deletion after 30 s. |
| JoinGate.AbortIsFinal | Bot.py:243-256 | Once an exception stops the loop, later joiners change nothing. |
| JoinGate.JoinStepsNext | Bot.py:243-256 | The joiners up to i inclusive run as the joiners before i, then joiner i unless an exception stopped the loop. |
| JoinGate.OnNewMembers | Bot.py:236-256 | The handler's final state and outcome are those of `JoinRun` from its starting state. |
| JoinGate.JoinOneMakesJoinCalls | Bot.py:244-256 | One joiner's calls are join calls. Pins are untouched and permissions only move to "cannot send" in the chat. |
| JoinGate.OnlyMutesInChains | Bot.py:249 | Two mute-only stretches compose. |
| JoinGate.JoinMakesOnlyJoinCalls | Bot.py:243-256 | Each call mutes an eligible joiner in the chat, welcomes an eligible joiner (by its own id and name) with the chat's keyboard, or schedules a deletion after 30 s. So bots and admins get neither mute nor welcome, and there are no membership queries. Pins are untouched and permissions only move to "cannot send" in this chat. |
| JoinGate.IneligibleJoinerUntouched | Bot.py:244-247 | A bot or admin joiner gets no call at all: no mute and no welcome. |
| JoinGate.JoinOneCompleted | Bot.py:249-256 | A completed step for an eligible joiner is exactly: mute, welcome with the keyboard, deletion after 30 s. |
| JoinGate.StillInSuffix | Bot.py:243-256 | A call already made stays in the trace as the loop goes on. |
| JoinGate.JoinOneWelcomes | Bot.py:249-256 | A completed step for an eligible joiner mutes it in the chat (effective unless refused) and welcomes it with the chat's keyboard. |
| JoinGate.WelcomedSinceEarlier | Bot.py:243-256 | A welcome made since a later point counts as made since any earlier point. |
| JoinGate.WelcomedPersists | Bot.py:243-256 | A welcome and an effective mute stay in place while the loop only adds calls and further mutes. |
| JoinGate.JoinMutesEveryEligible | Bot.py:243-256 | On completion, every non-bot, non-admin joiner has been muted in the chat (effective unless refused) and welcomed with a notice carrying the chat's keyboard. |
| JoinGate.UnregisteredChatUntouched | Bot.py:238-239 | A join in an unregistered chat changes nothing. |
| Recheck.NotifyAndAnswer | Bot.py:302-308 | Notice, its scheduled deletion, then the plain answer, as `NoticeThenAnswer`. |
| Recheck.CheckSub | Bot.py:262-308 | The handler's final state and outcome are those of `RecheckRun` from its starting state. |
| Recheck.KeyboardDataIsAccepted | Bot.py:266-273 | The payload of a keyboard built for a group is accepted as that group's index. |
| Recheck.AcceptedIndexInRange | Bot.py:271-273 | An accepted index is the parsed value and lies in `[0, N)`. |
| Recheck.InvalidDataOnlyAlerts | Bot.py:265-273 | Unparsable or out-of-range data gets only the alert answer. Nothing else changes. |
| Recheck.OutOfRangeScenario | Bot.py:271-273 | With two groups, `check:99` gets only the alert. |
| Recheck.AdminSkipsMembershipQuery | Bot.py:276-282 | An admin gets an unlock in the named group without a membership query. The notice goes after 3 s either way. |
| Recheck.MemberIsUnlocked | Bot.py:289-293 | A confirmed member is unlocked in the named group and told so. The notice goes after 3 s. |
| Recheck.RefusedUnlockIsReported | Bot.py:294-299 | A refused unlock gives the distinct "confirmed, not unlocked" notice after 30 s. Permissions are unchanged. |
| Recheck.NonMemberIsReminded | Bot.py:300-306 | A non-member gets the successor's title and the keyboard again. Nothing is unlocked. |
| Recheck.NoticeThenAnswerShape | Bot.py:302-308 | The exact calls of a closing notice. A failed send stops before the answer. |
| Recheck.NoticeIsWellEnded | Bot.py:302-308 | A closing notice ends with the plain answer and neither deletes nor restricts. |
| Recheck.ExtendWellEnded | Bot.py:284-290 | Prefixing an allowed call keeps a run well ended. |
| Recheck.ConfirmedUnlockShape | Bot.py:289-299 | The confirmed-member branch is well ended. |
| Recheck.AdminRecheckShape | Bot.py:276-282 | The admin branch is well ended. |
| Recheck.MemberRecheckShape | Bot.py:284-308 | The non-admin branch is well ended. |
| Recheck.RecheckEndsWithAnswer | Bot.py:275-308 | Past validation, a completed run ends with the plain answer. It never deletes and only ever unlocks the presser in the named group, which is registered. Pins are untouched. |
| PinMaintainer.SentGateIsOwn | Bot.py:150-174 | The message the platform stores for the sent gate instructions passes the ownership test, so once pinned it is recognised as the bot's own gate on the next run. |
| PinMaintainer.EditAndPinFailuresAreCaught | Bot.py:157-181 | Edit or pin refusals never change a group's outcome. A step ends in an exception iff `get_chat`, or the send of a new gate, failed. |
| PinMaintainer.PinAbortIsFinal | Bot.py:146-181 | Once an exception stops the loop, later groups change nothing. |
| PinMaintainer.EnsurePinnedGate | Bot.py:139-181 | The maintainer's final state and outcome are those of `PinRun` over all groups. |
| PinMaintainer.PinOneKeepsOwnGates | Bot.py:146-181 | A group's step never spoils an own gate in any chat. |
| PinMaintainer.PinOneElsewhere | Bot.py:146-181 | A group's step leaves every other chat's pinned message as it was. |
| PinMaintainer.PinOneEstablishes | Bot.py:150-181 | A completed step whose pin is not refused leaves its group with an own gate. If the keyboard edit is not refused either, that gate carries the group's own keyboard: the next group's link and `check:<idx>`. |
| PinMaintainer.InstalledElsewhere | Bot.py:146-181 | An own gate with its group's keyboard stays so while another group's step runs. |
| PinMaintainer.PinOneExtends | Bot.py:146-181 | A completed step on group idx extends "own gate" (and, with distinct ids and no refused edits, "own gate with its keyboard") from the groups before idx to idx itself. |
| PinMaintainer.PinRunEstablishes | Bot.py:146-181 | A completed run with no refused pins leaves every group with an own gate. If the group ids are also distinct and no edit is refused, each group's gate carries that group's own keyboard. |
| PinMaintainer.EditedFromChains | Bot.py:146-165 | Two edit-only stretches compose. |
| PinMaintainer.PinOneOnOwnGate | Bot.py:150-165 | When all groups carry own gates, a step only reads the chat and edits a keyboard. Gates stay own and no id is used. |
| PinMaintainer.OwnGatesAreOnlyEdited | Bot.py:150-165 | When all groups carry own gates, the whole run sends and pins nothing and keeps the gates. |
| PinMaintainer.SecondRunOnlyEdits | Bot.py:139-181 | After a completed run with no refused pins, a second run neither sends nor pins. |

## Left out

- Bot token check, logging, `Dispatcher` wiring and `start_polling` are not modelled.
- The model does not order the handlers. In aiogram the first matching handler consumes an update, and the catch-all message handler is registered before the new-member handler. Each handler is modelled as if it received the update.
- Timers: `delete_later` is recorded as a `ScheduleDelete` call carrying its delay. The sleep and the later deletion (whose failure is ignored) are not modelled. No claim is made about what the chat looks like after the delay.
- Message deletion in the gate is recorded only. Its failure is caught, and the model treats a delete as having no other effect.
- `bot.get_me()` is the constant `env.me`; its failure is not modelled. `call.message` being absent (an `AttributeError`) is not modelled: notices go to the chat the button was pressed in.
- Keyboard layout is not modelled: a keyboard is the join link plus the recheck payload, and button labels and `adjust(1)` are left out. `disable_notification` and the platform's text formatting are not modelled. The welcome notice uses the joiner's `full_name` as given; how Telegram builds it from first and last name is not modelled.
- `int()` is modelled for ASCII only: non-ASCII digits and Unicode white space are not recognised.
- Membership answers come from a fixed table. A pair missing from it answers status "left". Consistency delays and rate limits of the real platform are not modelled.
- The permission set is one boolean per (chat, user), "can send messages". The other `ChatPermissions` fields set by `unlock_user`, and the platform's defaults for omitted fields, are not modelled.
- Concurrency is not modelled. Each handler runs alone from start to finish: handlers are modelled as not interleaving, and the platform (memberships, refusals, the bot's id) is treated as unchanging during a handler. Under `start_polling` (Bot.py:332) aiogram handles updates as separate tasks, so two handlers can interleave at any `await`. For example, a gate mute could land between `check_sub`'s membership query and its unlock (Bot.py:287-290). Every handler's `Run(...) == ...Run(...)` contract relies on this assumption.
- A chat has at most one pinned message, the one `get_chat` reports. Telegram's multiple pins are not modelled.
- Only two errors get their own constructors: Forbidden and BadRequest. Every other exception, including network errors, is the single error `OtherError`.
- In these places the model follows what Bot.py does:
  - `is_member`, `restrict_user` and `unlock_user` let errors other than Forbidden/BadRequest propagate.
  - The notice sends are not wrapped, so their failure stops the handler: in the gate (Bot.py:226), for new members (Bot.py:251), and in `check_sub` (Bot.py:279, 292, 295, 302).
  - `call.answer` is not wrapped either (Bot.py:268, 272, 281, 308); its failure ends `check_sub`.
  - In `ensure_pinned_gate`, a failing `get_chat` or send of a new gate stops the loop for the remaining groups. Only edit and pin failures are skipped.
  - A pin that is not the bot's own is not left alone: a new gate is sent and pinned over it.
- PinMaintainer.PinRunEstablishes: states one own gate per group only when no group refuses the pin, and each gate's keyboard only when the group ids are distinct and no edit is refused. A refused pin leaves the new message unpinned, and a refused edit leaves the old keyboard, as in the code. With a repeated id, a later group's step rewrites the keyboard an earlier group's step set.
