/**
 * The group registry built at startup: the configured groups in cycle
 * order, the chat id each resolves to (`GROUP_CHAT_IDS`), and the map back
 * from chat id to cycle position (`CHAT_ID_TO_INDEX`).  Also the inline
 * keyboard, which is built from the registry.
 */
module GroupRegistry {
  import opened Wrappers
  import opened Telegram
  import opened Cycle
  import opened CheckData

  /** A configured group: its handle, its invite link, its title. */
  datatype GroupSpec = GroupSpec(chat: string, link: string, title: string)

  datatype StartupError = TooFewGroups | Unresolvable(handle: string)

  datatype Registry = Registry(groups: seq<GroupSpec>, chatIds: seq<ChatId>, indexOf: map<ChatId, nat>) {

    /**
     * At least two groups, one resolved id per group, and the index map
     * covers exactly the resolved ids, each pointing at a position holding it.
     */
    predicate Valid() {
      && |groups| >= 2
      && |chatIds| == |groups|
      && (forall i :: 0 <= i < |chatIds| ==> chatIds[i] in indexOf)
      && (forall c :: c in indexOf ==> indexOf[c] < |chatIds| && chatIds[indexOf[c]] == c)
    }

    /** On a repeated id the later position wins. */
    predicate IndexesLastOccurrence() {
      forall c :: c in indexOf ==> forall j :: indexOf[c] < j < |chatIds| ==> chatIds[j] != c
    }
  }

  predicate Distinct(ids: seq<ChatId>) {
    forall i, j :: 0 <= i < j < |ids| ==> ids[i] != ids[j]
  }

  /**
   * The registry part of `main`: refuse fewer than two groups, then resolve
   * each group's handle in order (`resolve` stands for `get_chat` by handle;
   * a handle it does not know makes startup fail), appending the id and
   * recording its position.
   */
  method BuildRegistry(groups: seq<GroupSpec>, resolve: map<string, ChatId>) returns (r: Result<Registry, StartupError>)
    ensures |groups| < 2 ==> r == Failure(TooFewGroups)
    ensures r.Success? <==> |groups| >= 2 && forall i :: 0 <= i < |groups| ==> groups[i].chat in resolve
    ensures r.Failure? && |groups| >= 2 ==>
      exists k :: 0 <= k < |groups| && r.error == Unresolvable(groups[k].chat) && groups[k].chat !in resolve
        && forall j :: 0 <= j < k ==> groups[j].chat in resolve
    ensures r.Success? ==>
      && r.value.groups == groups
      && r.value.Valid()
      && r.value.IndexesLastOccurrence()
      && (forall i :: 0 <= i < |groups| ==> r.value.chatIds[i] == resolve[groups[i].chat])
      && (forall c :: c in r.value.indexOf <==> c in r.value.chatIds)
  {
    if |groups| < 2 {
      return Failure(TooFewGroups);
    }
    var ids: seq<ChatId> := [];
    var index: map<ChatId, nat> := map[];
    for i := 0 to |groups|
      invariant |ids| == i
      invariant forall k :: 0 <= k < i ==> groups[k].chat in resolve && ids[k] == resolve[groups[k].chat]
      invariant forall c :: c in index <==> c in ids
      invariant forall c :: c in index ==> index[c] < i && ids[index[c]] == c
      invariant forall c :: c in index ==> forall j :: index[c] < j < i ==> ids[j] != c
    {
      var handle := groups[i].chat;
      if handle !in resolve {
        return Failure(Unresolvable(handle));
      }
      var id := resolve[handle];
      ids := ids + [id];
      index := index[id := i];
    }
    r := Success(Registry(groups, ids, index));
  }

  /** With distinct ids the index map inverts the id list exactly. */
  lemma DistinctIdsInvert(reg: Registry)
    requires reg.Valid() && Distinct(reg.chatIds)
    ensures forall i :: 0 <= i < |reg.chatIds| ==> reg.indexOf[reg.chatIds[i]] == i
  {
    forall i | 0 <= i < |reg.chatIds|
      ensures reg.indexOf[reg.chatIds[i]] == i
    {
      var j := reg.indexOf[reg.chatIds[i]];
      assert reg.chatIds[j] == reg.chatIds[i];
    }
  }

  /** With distinct ids, the group a user must join is never the chat being gated. */
  lemma SuccessorIsAnotherChat(reg: Registry, idx: nat)
    requires reg.Valid() && Distinct(reg.chatIds) && idx < |reg.groups|
    ensures reg.chatIds[NextIndex(idx, |reg.groups|)] != reg.chatIds[idx]
  {
    NoSelfRequirement(idx, |reg.groups|);
  }

  /**
   * `build_kb(idx)`: a link to the successor group and a recheck button whose
   * data names `idx` again.
   */
  function BuildKb(reg: Registry, idx: nat): (kb: Keyboard)
    requires reg.Valid() && idx < |reg.groups|
    ensures kb.joinLink == reg.groups[NextIndex(idx, |reg.groups|)].link
    ensures ParseCheck(kb.recheckData) == Some(idx)
  {
    CheckDataRoundTrip(idx);
    Keyboard(reg.groups[NextIndex(idx, |reg.groups|)].link, EncodeCheck(idx))
  }
}
