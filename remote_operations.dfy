/** The two endpoints of the OCPP operations controller: remote start and
    remote stop of a charging transaction on one charge box. The repositories
    and the task store are given as data; the dispatch of a request is an
    output value, and the dispatched task is an input in the state the
    controller's polling loop leaves it. */
module RemoteOperations {
  import opened OcppTypes
  import opened TagGroups

  /** What a remote start did: the request it dispatched, and whether the
      charge box accepted it. */
  datatype StartOutcome = StartOutcome(sent: RemoteStartParams, status: Result<()>)

  /** What an authorized remote stop does: the request it dispatches and the
      transaction ids it hands to the transaction stop service. */
  datatype StopEffect = StopEffect(sent: RemoteStopParams, finalized: seq<int>)

  /** `idTag` may stop a transaction started with `ownerTag`: the owner is
      `idTag` itself or a listed tag whose parent is `idTag`. */
  predicate MayStop(tags: TagRepository, idTag: TagId, ownerTag: TagId)
  {
    ownerTag == idTag || (ownerTag in tags.idTags && IsChildOf(tags.parents, ownerTag, idTag))
  }

  /** Classifies the charge box's entry in a task's result map: a missing
      entry, a null response, a response other than "Accepted", or
      acceptance. */
  function ClassifyResponse(result: Option<RequestResult>): (r: Result<()>)
    ensures r.Ok? <==> result.Some? && result.value.response == Some(Accepted)
    ensures r == Err(NoResult) <==> result.None?
    ensures r == Err(NullResponse) <==> result.Some? && result.value.response.None?
    ensures r == Err(NotAccepted) <==>
      result.Some? && result.value.response.Some? && result.value.response.value != Accepted
  {
    match result
    case None => Err(NoResult)
    case Some(res) =>
      match res.response
      case None => Err(NullResponse)
      case Some(code) => if code == Accepted then Ok(()) else Err(NotAccepted)
  }

  /** Remote start for `idTag` at `chargeBoxId`: a request on connector 0 to
      that one charge box over JSON, judged by the charge box's entry in the
      finished task. */
  function RemoteStartTransaction(task: TaskState, chargeBoxId: string, idTag: TagId): (o: StartOutcome)
    requires WaitIsOver(task)
    ensures o.sent.idTag == idTag && o.sent.connectorId == 0
    ensures |o.sent.targets| == 1
    ensures o.sent.targets[0].transport == Json && o.sent.targets[0].chargeBoxId == chargeBoxId
    ensures o.status.Ok? <==>
      chargeBoxId in task.results && task.results[chargeBoxId].response == Some(Accepted)
    ensures o.status == Err(NullResponse) <==>
      chargeBoxId in task.results && task.results[chargeBoxId].response == None
    ensures o.status == Err(NotAccepted) <==>
      chargeBoxId in task.results && task.results[chargeBoxId].response.Some? &&
      task.results[chargeBoxId].response.value != Accepted
    ensures o.status == Err(NoResult) <==> chargeBoxId !in task.results
  {
    var params := RemoteStartParams(idTag, 0, JsonTarget(chargeBoxId));
    var ocppResult := if chargeBoxId in task.results then Some(task.results[chargeBoxId]) else None;
    StartOutcome(params, ClassifyResponse(ocppResult))
  }

  /** Remote stop at `chargeBoxId` on behalf of `idTag`. `activeIds` are the
      charge box's active transaction ids as the transaction repository lists
      them, `owner` gives the tag each transaction was started with, and
      `task` is the dispatched stop task once finished; nothing in the
      outcome depends on it. The last active
      transaction is the one stopped; it may be stopped by its own tag or by
      that tag's parent. An authorized stop finalizes every active
      transaction, whatever the charge box answered. */
  method RemoteStopTransaction(
    tags: TagRepository, activeIds: seq<int>, owner: map<int, TagId>, task: TaskState,
    chargeBoxId: string, idTag: TagId)
    returns (r: Result<StopEffect>)
    ensures r == Err(NoTransactions) <==> activeIds == []
    ensures activeIds != [] && !AllRecorded(tags, GroupTags(tags, idTag)) ==> r == Err(MissingRecord)
    ensures (activeIds != [] && AllRecorded(tags, GroupTags(tags, idTag)) &&
             activeIds[|activeIds| - 1] !in owner) ==> r == Err(UnknownTransaction)
    ensures r.Ok? <==>
      activeIds != [] && AllRecorded(tags, GroupTags(tags, idTag)) &&
      activeIds[|activeIds| - 1] in owner &&
      MayStop(tags, idTag, owner[activeIds[|activeIds| - 1]])
    ensures r == Err(NotAssociated) <==>
      activeIds != [] && AllRecorded(tags, GroupTags(tags, idTag)) &&
      activeIds[|activeIds| - 1] in owner &&
      !MayStop(tags, idTag, owner[activeIds[|activeIds| - 1]])
    ensures r.Ok? ==> r.value.finalized == activeIds
    ensures r.Ok? ==> r.value.sent.transactionId == activeIds[|activeIds| - 1]
    ensures r.Ok? ==> (|r.value.sent.targets| == 1 &&
      r.value.sent.targets[0].transport == Json && r.value.sent.targets[0].chargeBoxId == chargeBoxId)
  {
    if |activeIds| > 0 {
      var group := GetTokenList(tags, idTag);
      if group.Err? {
        return Err(group.error);
      }
      var tokens := group.value;
      var tokenList: seq<TagId> := [];
      var i := 0;
      while i < |tokens|
        invariant 0 <= i <= |tokens|
        invariant tokenList == GroupTags(tags, idTag)[..i]
      {
        tokenList := tokenList + [tokens[i].idTag];
        i := i + 1;
      }
      assert tokenList == GroupTags(tags, idTag);
      var selected := activeIds[|activeIds| - 1];
      if selected !in owner {
        return Err(UnknownTransaction);
      }
      GroupIsSelfAndDirectChildren(tags, idTag, owner[selected]);
      if owner[selected] in tokenList {
        // The charge box's answer in `task` is only logged, never inspected.
        var params := RemoteStopParams(selected, JsonTarget(chargeBoxId));
        r := Ok(StopEffect(params, activeIds));
      } else {
        r := Err(NotAssociated);
      }
    } else {
      r := Err(NoTransactions);
    }
  }

  /** Two siblings cannot stop each other's transactions: a tag whose parent
      is another tag is not in the group of a sibling. */
  lemma SiblingNotAuthorized(tags: TagRepository, parent: TagId, a: TagId, b: TagId)
    requires IsChildOf(tags.parents, a, parent) && IsChildOf(tags.parents, b, parent)
    requires a != b && b != parent
    ensures a !in GroupTags(tags, b) && !MayStop(tags, b, a)
  {
    GroupIsSelfAndDirectChildren(tags, b, a);
  }
}
