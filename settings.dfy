/** The bot's fixed configuration constants. */
module Settings {

  /** Seconds before a success notice is deleted. */
  const DeleteOnSuccessSeconds: nat := 3

  /** Seconds before a failure or instruction notice is deleted. */
  const DeleteOnFailSeconds: nat := 30

  /** The marker that identifies the bot's own pinned gate message. */
  const PinMark: string := "\U{1F513} Разблокировка доступа (gate)"

  /** The text of the pinned gate message: the marker, a blank line, the instruction. */
  const PinText: string :=
    PinMark + "\n\n" + "Если тебе запрещено писать — вступи в следующую группу и нажми «Проверить подписку»."

  /** Sent in place of a removed message from a user who may not write yet. */
  const MustJoinNextText: string :=
    "\U{274C} Чтобы писать в этом чате — вступи в следующую группу и нажми «Проверить подписку» (кнопки также в закрепе)."

  /** The line after a new member's name in the welcome notice. */
  const WelcomeInstruction: string :=
    "Чтобы писать — вступи в следующую группу и нажми «Проверить подписку» (кнопки есть в закрепе)."

  const AdminUnlockedText: string := "\U{2705} Админ-доступ: ограничения сняты."

  const AdminUnlockFailedText: string := "\U{26A0}\U{FE0F} Не смог снять ограничения (проверь права бота)."

  const ConfirmedText: string := "\U{2705} Подписка подтверждена! Доступ открыт — можешь писать."

  const ConfirmedNotUnlockedText: string :=
    "\U{2705} Подписка подтверждена, но я не смог открыть доступ.\n" + "Проверь, что бот админ в этой группе и у него есть Restrict users."

  /** Followed by the title of the group to join. */
  const NotSubscribedPrefix: string := "\U{274C} Подписки нет.\nНужно вступить в следующую группу: "
}
