/**
 * `is_member`: whether a user counts as a member of a chat, from the
 * platform's `get_chat_member` answer.
 */
module Membership {
  import opened Wrappers
  import opened Telegram

  /**
   * The classification `is_member` applies.  Creator, administrator and
   * member count; a restricted user counts only when the answer says it is
   * still in the chat (a missing attribute reads as false); every other status
   * does not count; `Forbidden` and `BadRequest` read as "not a member"; any
   * other error propagates.
   */
  function Classify(l: Lookup): Result<bool, ApiError> {
    match l
    case Found(m) =>
      if m.status == Member || m.status == Administrator || m.status == Creator then Success(true)
      else if m.status == Restricted then Success(m.isMember == Some(true))
      else Success(false)
    case LookupFailed(e) =>
      if e == Forbidden || e == BadRequest then Success(false) else Failure(e)
  }

  lemma ClassifyCases(l: Lookup)
    ensures l.Found? && l.member.status in {Creator, Administrator, Member} ==> Classify(l) == Success(true)
    ensures l.Found? && l.member.status == Restricted ==> Classify(l) == Success(l.member.isMember == Some(true))
    ensures l.Found? && l.member.status in {Left, Kicked} ==> Classify(l) == Success(false)
    ensures l == LookupFailed(Forbidden) || l == LookupFailed(BadRequest) ==> Classify(l) == Success(false)
    ensures l == LookupFailed(OtherError) ==> Classify(l) == Failure(OtherError)
  {
  }

  /** The three-way verdict of a membership query: present, absent, or unknown because the query failed. */
  datatype Verdict = Present | Absent | Unknown

  /** The verdict an honest oracle reports for an answer. */
  function VerdictOf(l: Lookup): Verdict {
    match l
    case Found(m) =>
      (match m.status
       case Creator => Present
       case Administrator => Present
       case Member => Present
       case Restricted => if m.isMember == Some(true) then Present else Absent
       case Left => Absent
       case Kicked => Absent)
    case LookupFailed(_) => Unknown
  }

  /**
   * `is_member` is the fail-closed reading of the verdict: it says "member"
   * exactly when the verdict is Present, and an Unknown verdict never admits.
   * Only an error other than Forbidden/BadRequest escapes it.
   */
  lemma ClassifyIsFailClosed(l: Lookup)
    ensures l != LookupFailed(OtherError) ==> Classify(l) == Success(VerdictOf(l) == Present)
    ensures VerdictOf(l) == Unknown ==> Classify(l) != Success(true)
    ensures Classify(l).Failure? <==> l == LookupFailed(OtherError)
  {
  }

  /** `is_member(bot, chat, user)`: one `get_chat_member` call, classified. */
  method IsMember(tg: Platform, chat: ChatId, user: UserId) returns (r: Result<bool, ApiError>)
    modifies tg
    ensures tg.State() == Perform(tg.env, old(tg.State()), GetChatMember(chat, user))
    ensures r == Classify(tg.env.MemberLookup(chat, user))
  {
    var l := tg.GetChatMember(chat, user);
    r := Classify(l);
  }
}
