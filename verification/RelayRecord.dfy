/**
 The relay's record of one request, and the lifecycle updates that run inside
 its transactions. Each update is a function of the record that was read; what
 commits it is modelled in RelayDatabase.
 */
module RelayRecord {
  import opened Base
  import opened Protocol

  const MAXIMUM_ANSWER_BYTES := 128 * 1024
  const MAXIMUM_ERROR_BYTES := 4 * 1024

  /** What CreateRequest fixes once and no lifecycle update touches. */
  datatype RequestMeta = RequestMeta(
    requestId: string,
    conversationId: string,
    requesterAgentId: string,
    requesterMemberId: string,
    requesterDisplayName: string,
    targetAgentId: string,
    title: string,
    prompt: string,
    requestedAccess: seq<RequestedAccess>,
    attachments: seq<ArtifactDescriptor>,
    createdAt: nat,
    expiresAt: nat,
    idempotencyKey: string)

  datatype ResultDigest = ResultDigest(result: ResultPayload)

  datatype StoredRequest = StoredRequest(
    meta: RequestMeta,
    status: RequestStatus,
    version: nat,
    updatedAt: nat,
    answer: string,
    failure: string,
    resultFiles: seq<AttachmentInput>,
    decisionID: Option<DecisionID>,
    decision: Option<Decision>,
    claim: Option<ClaimID>,
    resultDigest: Option<ResultDigest>)

  datatype RelayError = Forbidden | Conflict | Invalid | NotAwaitingExpiry

  datatype LifecycleOp =
    | Decide(agent: string, decisionID: DecisionID, decision: Decision)
    | MarkRunning(agent: string, claim: ClaimID)
    | SubmitResult(agent: string, result: ResultPayload)
    | Cancel(agent: string)
    | ExpireAwaiting(agent: string)

  function Created(meta: RequestMeta): StoredRequest {
    StoredRequest(meta, AwaitingApproval, 1, meta.createdAt, "", "", [], None, None, None, None)
  }

  function NoticeOf(stored: StoredRequest): RequestNotice {
    var meta := stored.meta;
    RequestNotice(
      meta.requestId, meta.conversationId, stored.status, meta.requesterAgentId, meta.requesterMemberId,
      meta.requesterDisplayName, meta.title, ByteLength(meta.prompt), Sha256(meta.prompt), meta.requestedAccess,
      meta.attachments, meta.createdAt, meta.expiresAt)
  }

  function FetchExecution(stored: StoredRequest, agent: string): Result<ExecutionPayload, RelayError> {
    if stored.meta.targetAgentId != agent then Err(Forbidden)
    else if stored.status != Accepted && stored.status != Running then Err(Conflict)
    else
      var meta := stored.meta;
      Ok(ExecutionPayload(
           meta.requestId, meta.conversationId, meta.requesterAgentId, meta.requesterMemberId,
           meta.requesterDisplayName, meta.title, meta.prompt, meta.requestedAccess, meta.attachments,
           meta.expiresAt))
  }

  // --- the updates -------------------------------------------------------------

  function TotalBytes(files: seq<AttachmentInput>): int {
    if files == [] then 0 else files[0].sizeBytes + TotalBytes(files[1..])
  }

  predicate ArtifactsAccepted(files: seq<AttachmentInput>) {
    && (forall i | 0 <= i < |files| ::
          files[i].wellFormed && 0 <= files[i].sizeBytes <= MAX_ATTACHMENT_BYTES)
    && (forall i, j | 0 <= i < j < |files| :: files[i].foldedName != files[j].foldedName)
    && TotalBytes(files) <= MAX_REQUEST_PAYLOAD_BYTES
  }

  /** The checks SubmitResult makes before it looks at the request. */
  predicate ResultFieldsAccepted(result: ResultPayload) {
    && result.state in {Completed, Failed, Cancelled}
    && ByteLength(result.answer) <= MAXIMUM_ANSWER_BYTES
    && ByteLength(result.failure) <= MAXIMUM_ERROR_BYTES
    && |result.files| <= MAX_ATTACHMENTS
    && (result.state == Completed ==> result.failure == "")
    && (result.state != Completed ==> result.answer == "" && result.files == [])
  }

  predicate ExactResultReplay(stored: StoredRequest, result: ResultPayload) {
    && stored.status == result.state
    && stored.claim == Some(result.claim)
    && stored.resultDigest == Some(ResultDigest(result))
  }

  function DecideUpdate(stored: StoredRequest, agent: string, decisionID: DecisionID, decision: Decision,
                        clock: nat, requesterRevoked: bool): Result<StoredRequest, RelayError>
  {
    if stored.meta.targetAgentId != agent then Err(Forbidden)
    else if stored.decisionID.Some? then
      if stored.decisionID == Some(decisionID) && stored.decision == Some(decision) then Ok(stored)
      else Err(Conflict)
    else if stored.status != AwaitingApproval then Err(Conflict)
    else
      var decided := stored.(decisionID := Some(decisionID), decision := Some(decision));
      if clock >= stored.meta.expiresAt then Ok(decided.(status := Expired))
      else if decision == AllowOnce && requesterRevoked then Ok(decided.(status := Cancelled))
      else Ok(decided.(status := if decision == Deny then Rejected else Accepted))
  }

  function MarkRunningUpdate(stored: StoredRequest, agent: string, claim: ClaimID): Result<StoredRequest, RelayError> {
    if stored.meta.targetAgentId != agent then Err(Forbidden)
    else if stored.status == Accepted then Ok(stored.(claim := Some(claim), status := Running))
    else if stored.status == Running && stored.claim == Some(claim) then Ok(stored)
    else Err(Conflict)
  }

  function SubmitResultUpdate(stored: StoredRequest, agent: string, result: ResultPayload): Result<StoredRequest, RelayError> {
    if !ResultFieldsAccepted(result) then Err(Invalid)
    else if stored.meta.targetAgentId != agent then Err(Forbidden)
    else if Terminal(stored.status) then
      if ExactResultReplay(stored, result) then Ok(stored) else Err(Conflict)
    else if stored.status != Running || stored.claim != Some(result.claim) then Err(Conflict)
    else if !ArtifactsAccepted(result.files) then Err(Invalid)
    else
      Ok(stored.(status := result.state, answer := result.answer, failure := result.failure,
                 resultFiles := result.files, resultDigest := Some(ResultDigest(result))))
  }

  function CancelUpdate(stored: StoredRequest, agent: string): Result<StoredRequest, RelayError> {
    if stored.meta.requesterAgentId != agent then Err(Forbidden)
    else if stored.status == Cancelled then Ok(stored)
    else if Terminal(stored.status) then Err(Conflict)
    else Ok(stored.(status := Cancelled))
  }

  function ExpireUpdate(stored: StoredRequest, agent: string, clock: nat): Result<StoredRequest, RelayError> {
    if stored.meta.targetAgentId != agent then Err(Forbidden)
    else if stored.status != AwaitingApproval || clock < stored.meta.expiresAt then Err(NotAwaitingExpiry)
    else Ok(stored.(status := Expired))
  }

  function Update(stored: StoredRequest, op: LifecycleOp, clock: nat, requesterRevoked: bool): Result<StoredRequest, RelayError> {
    match op
    case Decide(agent, decisionID, decision) => DecideUpdate(stored, agent, decisionID, decision, clock, requesterRevoked)
    case MarkRunning(agent, claim) => MarkRunningUpdate(stored, agent, claim)
    case SubmitResult(agent, result) => SubmitResultUpdate(stored, agent, result)
    case Cancel(agent) => CancelUpdate(stored, agent)
    case ExpireAwaiting(agent) => ExpireUpdate(stored, agent, clock)
  }

  /** One transition: an update that changed nothing is not written and keeps its version. */
  function Transition(stored: StoredRequest, op: LifecycleOp, clock: nat, requesterRevoked: bool): Result<StoredRequest,
          RelayError> {
    match Update(stored, op, clock, requesterRevoked)
    case Err(error) => Err(error)
    case Ok(next) =>
      if next == stored then Ok(stored)
      else Ok(next.(version := next.version + 1, updatedAt := clock))
  }

  // --- the lifecycle ---------------------------------------------------------------

  function Rank(status: RequestStatus): nat {
    if Terminal(status) then 3
    else if status == Running then 2
    else if status == Accepted then 1
    else 0
  }

  /** What every stored request satisfies from creation to the end of its retention. */
  predicate Lifecycle(stored: StoredRequest) {
    && stored.status != Preparing
    && 1 <= stored.version <= Rank(stored.status) + 1
    && (stored.decisionID.Some? <==> stored.decision.Some?)
    && (stored.status == AwaitingApproval ==> stored.decisionID == None)
    && (stored.status in {Accepted, Running} || stored.claim.Some? ==> stored.decision == Some(AllowOnce))
    && (stored.status == Running ==> stored.claim.Some?)
    && (stored.claim.Some? ==> Rank(stored.status) >= 2)
    && (stored.status == Rejected ==> stored.decision == Some(Deny))
    && (stored.status in {Completed, Failed} ==> stored.resultDigest.Some?)
    && (stored.resultDigest.Some? ==> PublishedResult(stored, stored.resultDigest.value.result))
  }

  /** The record is terminal under exactly this result. */
  predicate PublishedResult(stored: StoredRequest, result: ResultPayload) {
    && Terminal(stored.status)
    && ExactResultReplay(stored, result)
    && ResultFieldsAccepted(result)
    && ArtifactsAccepted(result.files)
    && stored.answer == result.answer
    && stored.failure == result.failure
    && stored.resultFiles == result.files
  }

  /** A field that, once written, keeps its value. */
  predicate WrittenOnce<T(==)>(before: Option<T>, after: Option<T>) {
    before.Some? ==> after == before
  }

  /** What one transition may do to a record. */
  predicate Advances(before: StoredRequest, after: StoredRequest) {
    || after == before
    || (&& Rank(before.status) < Rank(after.status)
        && after.version == before.version + 1
        && after.meta == before.meta
        && WrittenOnce(before.decisionID, after.decisionID)
        && WrittenOnce(before.decision, after.decision)
        && WrittenOnce(before.claim, after.claim)
        && WrittenOnce(before.resultDigest, after.resultDigest))
  }

  lemma TransitionAdvances(stored: StoredRequest, op: LifecycleOp, clock: nat, requesterRevoked: bool)
    requires Lifecycle(stored)
    ensures var next := Transition(stored, op, clock, requesterRevoked);
            next.Ok? ==> Lifecycle(next.value) && Advances(stored, next.value)
  {
    var updated := Update(stored, op, clock, requesterRevoked);
    if updated.Ok? && updated.value != stored {
      assert Rank(stored.status) < Rank(updated.value.status);
    }
  }

  /** Acceptance comes only from an allow that saw its requester unrevoked, before the deadline. */
  lemma OnlyUnrevokedRequestersAreAccepted(stored: StoredRequest, op: LifecycleOp, clock: nat, requesterRevoked: bool)
    requires stored.status != Accepted
    requires Transition(stored, op, clock, requesterRevoked).Ok?
        && Transition(stored, op, clock, requesterRevoked).value.status == Accepted
    ensures op.Decide? && op.decision == AllowOnce && !requesterRevoked && clock < stored.meta.expiresAt
    ensures stored.status == AwaitingApproval
  {
  }

  // --- whole histories of one record ---------------------------------------------------

  datatype Call = Call(op: LifecycleOp, clock: nat, requesterRevoked: bool)

  function After(stored: StoredRequest, call: Call): StoredRequest {
    var next := Transition(stored, call.op, call.clock, call.requesterRevoked);
    if next.Ok? then next.value else stored
  }

  function AfterAll(stored: StoredRequest, calls: seq<Call>): StoredRequest
    decreases |calls|
  {
    if calls == [] then stored else AfterAll(After(stored, calls[0]), calls[1..])
  }

  function Changes(stored: StoredRequest, calls: seq<Call>): nat
    decreases |calls|
  {
    if calls == [] then 0
    else (if After(stored, calls[0]) == stored then 0 else 1) + Changes(After(stored, calls[0]), calls[1..])
  }

  /** From creation on, a record changes at most three times and its version counts the changes. */
  lemma {:induction false} VersionCountsChanges(stored: StoredRequest, calls: seq<Call>)
    requires Lifecycle(stored)
    ensures var last := AfterAll(stored, calls);
            && Lifecycle(last)
            && last.version == stored.version + Changes(stored, calls)
            && Rank(stored.status) + Changes(stored, calls) <= Rank(last.status) <= 3
            && last.meta == stored.meta
            && WrittenOnce(stored.decisionID, last.decisionID)
            && WrittenOnce(stored.decision, last.decision)
            && WrittenOnce(stored.claim, last.claim)
            && WrittenOnce(stored.resultDigest, last.resultDigest)
            && (Changes(stored, calls) == 0 ==> last == stored)
    decreases |calls|
  {
    if calls != [] {
      TransitionAdvances(stored, calls[0].op, calls[0].clock, calls[0].requesterRevoked);
      VersionCountsChanges(After(stored, calls[0]), calls[1..]);
    }
  }

  /** Terminal is absorbing: nothing that arrives later changes a terminal record. */
  lemma TerminalIsAbsorbing(stored: StoredRequest, calls: seq<Call>)
    requires Lifecycle(stored) && Terminal(stored.status)
    ensures AfterAll(stored, calls) == stored
  {
  }

  /**
   Exact replays. Whatever happened since a call was answered, repeating it
   leaves the record identical; a decision and a result are acknowledged for
   ever, a claim exactly while the request is still running.
   */
  lemma ReplaysAreHarmless(stored: StoredRequest, call: Call, later: seq<Call>, again: Call)
    requires Lifecycle(stored)
    requires Transition(stored, call.op, call.clock, call.requesterRevoked).Ok?
    requires again.op == call.op
    ensures var now := AfterAll(After(stored, call), later);
            var answer := Transition(now, again.op, again.clock, again.requesterRevoked);
            && After(now, again) == now
            && (call.op.Decide? || call.op.SubmitResult? ==> answer == Ok(now))
            && (call.op.MarkRunning? ==> (answer == Ok(now) <==> now.status == Running))
  {
    var committed := After(stored, call);
    TransitionAdvances(stored, call.op, call.clock, call.requesterRevoked);
    VersionCountsChanges(committed, later);
    var now := AfterAll(committed, later);
    if Terminal(committed.status) {
      TerminalIsAbsorbing(committed, later);
    }
    ReplayOnLaterRecord(stored, call, now, again);
  }

  lemma ReplayOnLaterRecord(stored: StoredRequest, call: Call, now: StoredRequest, again: Call)
    requires Lifecycle(stored)
    requires Transition(stored, call.op, call.clock, call.requesterRevoked).Ok?
    requires again.op == call.op
    requires var committed := After(stored, call);
             && Lifecycle(now)
             && now.meta == committed.meta
             && Rank(committed.status) <= Rank(now.status)
             && WrittenOnce(committed.decisionID, now.decisionID)
             && WrittenOnce(committed.decision, now.decision)
             && WrittenOnce(committed.claim, now.claim)
             && (Terminal(committed.status) ==> now == committed)
    ensures var answer := Transition(now, again.op, again.clock, again.requesterRevoked);
            && After(now, again) == now
            && (call.op.Decide? || call.op.SubmitResult? ==> answer == Ok(now))
            && (call.op.MarkRunning? ==> (answer == Ok(now) <==> now.status == Running))
  {
    hide PublishedResult, ArtifactsAccepted;
    var committed := After(stored, call);
    match call.op
    case Decide(_, decisionID, decision) =>
      assert committed.decisionID == Some(decisionID) && committed.decision == Some(decision);
    case MarkRunning(_, claim) =>
      assert committed.claim == Some(claim) && Rank(committed.status) == 2;
    case SubmitResult(_, result) =>
      assert now == committed && ExactResultReplay(now, result);
    case Cancel(_) =>
      assert now == committed && now.status == Cancelled;
    case ExpireAwaiting(_) =>
      assert now == committed && now.status == Expired;
  }

  /** Another decision, another claim or another result is refused and changes nothing. */
  lemma DifferentIdentityIsRefused(stored: StoredRequest, call: Call)
    requires Lifecycle(stored)
    requires match call.op
             case Decide(_, decisionID, decision) =>
               stored.decisionID.Some? && !(stored.decisionID == Some(decisionID) && stored.decision == Some(decision))
             case MarkRunning(_, claim) => stored.claim.Some? && stored.claim != Some(claim)
             case SubmitResult(_, result) => stored.resultDigest.Some? && stored.resultDigest != Some(ResultDigest(result))
             case _ => false
    ensures Transition(stored, call.op, call.clock, call.requesterRevoked).Err?
  {
  }
}
