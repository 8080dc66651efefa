/** `restrict_user` and `unlock_user`: set whether a user may send messages in a chat. */
module Permissions {
  import opened Wrappers
  import opened Telegram

  /**
   * What the two helpers return for the platform's reply: true when the
   * call went through, false when it raised Forbidden or BadRequest, and any
   * other error propagates.
   */
  function Caught(fault: Option<ApiError>): (r: Result<bool, ApiError>)
    ensures r == Success(true) <==> fault == None
    ensures r == Success(false) <==> fault == Some(Forbidden) || fault == Some(BadRequest)
    ensures r.Failure? <==> fault == Some(OtherError)
    ensures r.Failure? ==> r.error == OtherError
  {
    match fault
    case None => Success(true)
    case Some(Forbidden) => Success(false)
    case Some(BadRequest) => Success(false)
    case Some(OtherError) => Failure(OtherError)
  }

  /** `restrict_user`: deny sending messages in `chat`. */
  method RestrictUser(tg: Platform, chat: ChatId, user: UserId) returns (r: Result<bool, ApiError>)
    modifies tg
    ensures tg.State() == Perform(tg.env, old(tg.State()), RestrictChatMember(chat, user, false))
    ensures r == Caught(tg.env.RestrictFault(chat, user))
  {
    var fault := tg.RestrictChatMember(chat, user, false);
    r := Caught(fault);
  }

  /** `unlock_user`: grant the send permissions in `chat`. */
  method UnlockUser(tg: Platform, chat: ChatId, user: UserId) returns (r: Result<bool, ApiError>)
    modifies tg
    ensures tg.State() == Perform(tg.env, old(tg.State()), RestrictChatMember(chat, user, true))
    ensures r == Caught(tg.env.RestrictFault(chat, user))
  {
    var fault := tg.RestrictChatMember(chat, user, true);
    r := Caught(fault);
  }

  /**
   * A restrict or unlock that goes through sets the permission whatever it
   * was before and touches no other (chat, user) pair; one that fails changes
   * nothing.
   */
  lemma PermissionSetRegardlessOfPrior(env: Env, w: World, chat: ChatId, user: UserId, allow: bool)
    ensures var w' := Perform(env, w, RestrictChatMember(chat, user, allow));
      && (env.RestrictFault(chat, user).None? ==> (chat, user) in w'.canSend && w'.canSend[(chat, user)] == allow)
      && (env.RestrictFault(chat, user).Some? ==> w'.canSend == w.canSend)
      && (forall k :: k != (chat, user) ==> (k in w'.canSend <==> k in w.canSend))
      && (forall k :: k != (chat, user) && k in w.canSend ==> w'.canSend[k] == w.canSend[k])
  {
  }

  /** Repeating a restrict, or an unlock, leaves the permissions as one call left them. */
  lemma RepeatIsIdempotent(env: Env, w: World, chat: ChatId, user: UserId, allow: bool)
    ensures var c := RestrictChatMember(chat, user, allow);
      var once := Perform(env, w, c);
      var twice := Perform(env, once, c);
      twice.canSend == once.canSend && twice.pinned == once.pinned && twice.nextId == once.nextId
  {
  }
}
