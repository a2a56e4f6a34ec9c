/**
 One request, the relay that holds it, and any number of receiver processes
 that share a device credential but keep separate state directories. Messages
 may be delayed, repeated and reordered, replies may be lost, any write may
 fail, and a receiver may crash, with or without power loss, between any two
 steps. A status that recovery acts on may be arbitrarily stale.
 */
module ReceiverProtocol {
  import opened Base
  import opened Protocol
  import opened RelayRecord
  import opened Approvals
  import opened DurableFile
  import opened MutationStore
  import Revocation

  // --- what a recipient binds and what a runtime is given ------------------------------

  function BindingFor(notice: RequestNotice): Option<ApprovedNotice> {
    var binding := ApprovedNotice(
                     notice.requestId, notice.conversationId, notice.requesterAgentId, notice.requesterMemberId,
                     notice.requesterDisplayName, notice.title, notice.expiresAt, notice.requestedAccess,
                     notice.attachments, notice.promptBytes, notice.promptSha256);
    if ValidBinding(binding, notice.requestId) then Some(binding) else None
  }

  predicate PayloadMatches(binding: ApprovedNotice, payload: ExecutionPayload) {
    && payload.requestId == binding.requestId
    && payload.conversationId == binding.conversationId
    && payload.requesterAgentId == binding.requesterAgentId
    && payload.requesterMemberId == binding.requesterMemberId
    && payload.requesterDisplayName == binding.requesterDisplayName
    && payload.title == binding.title
    && payload.expiresAt == binding.expiresAt
    && payload.requestedAccess == binding.requestedAccess
    && payload.attachments == binding.attachments
    && ByteLength(payload.prompt) == binding.promptBytes
    && binding.promptSha256 == Sha256(payload.prompt)
  }

  function AttachmentBytes(attachments: seq<ArtifactDescriptor>): int {
    if attachments == [] then 0 else attachments[0].sizeBytes + AttachmentBytes(attachments[1..])
  }

  /** The standing-approval candidate a notice stands for. */
  function CandidateFor(notice: RequestNotice): Candidate {
    Candidate(TrimSpace(notice.requesterMemberId), TrimSpace(notice.requesterDisplayName), TrimSpace(notice.conversationId),
              AccessScope(notice.requestedAccess, |notice.attachments|, AttachmentBytes(notice.attachments)))
  }

  // --- state --------------------------------------------------------------------------

  /** A recipient's own decision, or a grant found in an approval store with this history. */
  datatype Source = Human | Matched(grant: Grant, history: seq<Revocation.Event>, at: nat)

  /** A local approval or denial as it was first written, and where it came from. */
  datatype Birth = Birth(record: MutationRecord, source: Source, notice: RequestNotice)

  datatype Message =
    | DecideMessage(decisionID: DecisionID, decision: Decision)
    | MarkMessage(claim: ClaimID)
    | SubmitMessage(result: ResultPayload)

  datatype Start = Start(claim: ClaimID, payload: ExecutionPayload, under: Option<Authority>)

  /** The relay's record, everything ever sent, and the history the properties speak of. */
  datatype World = World(
    relay: Option<StoredRequest>,
    sent: set<Message>,
    draws: nat,
    births: map<DecisionID, Birth>,
    decided: Option<(DecisionID, Decision)>,
    claimed: Option<ClaimID>,
    crossed: set<ClaimID>,
    journal: map<ClaimID, ResultPayload>,
    starts: seq<Start>)

  /** The sequential control flow under the approval lock. */
  datatype Flow =
    | Idle
    | Prepared(op: MutationRecord, denying: bool, checked: bool)
    | Deciding(op: MutationRecord, denying: bool)
    | Decided(op: MutationRecord, denying: bool, status: RequestStatus)
    | Starting(status: RequestStatus)
    | Replaying(op: MutationRecord)
    | Submitting(op: MutationRecord)
    | Removing

  /** The goroutine that executes the request, at most one per process; `under` is the authority its check saw. */
  datatype Exec =
    | NoExec
    | ExecBegun
    | ExecFetching(op: MutationRecord, under: Option<Authority>)
    | ExecMarking(op: MutationRecord, under: Option<Authority>, payload: ExecutionPayload)
    | ExecMarked(op: MutationRecord, under: Option<Authority>, payload: ExecutionPayload)
    | ExecCrossed(op: MutationRecord, under: Option<Authority>, payload: ExecutionPayload)
    | ExecRunning(op: MutationRecord)
    | ExecJournaling(op: MutationRecord, result: ResultPayload)
    | ExecReplaying(op: MutationRecord)
    | ExecSubmitting(op: MutationRecord)
    | ExecRemoving

  datatype Receiver = Receiver(
    up: bool,
    slot: Slot,
    pending: Option<RequestNotice>,
    authority: Option<Authority>,
    flow: Flow,
    exec: Exec)

  /** `honest` says that every notice a receiver is shown is the relay's own. */
  datatype System = System(meta: RequestMeta, honest: bool, world: World, receivers: map<nat, Receiver>)

  // --- checks and dispatch ----------------------------------------------------------------

  predicate AuthorityCurrent(rc: Receiver, op: MutationRecord) {
    op.authority.Some? && rc.authority == op.authority
  }

  predicate NoticeCurrent(rc: Receiver, op: MutationRecord) {
    && op.approvedNotice.Some?
    && rc.pending.Some?
    && BindingFor(rc.pending.value) == op.approvedNotice
  }

  datatype Action =
    | Nothing
    | Inconsistent
    | Discard
    | Confirm(op: MutationRecord)
    | StartIt
    | ReplayIt(op: MutationRecord)
    | RemoveIt

  /** What recovery does with one request: relay status against local phase. */
  function RecoverAction(status: RequestStatus, operation: Option<MutationRecord>, current: bool, otherActive: bool): Action {
    match status
    case AwaitingApproval =>
      if operation == None then Nothing
      else if operation.value.phase != DecisionPrepared then Inconsistent
      else if operation.value.decision == AllowOnce && otherActive then Nothing
      else if operation.value.decision == AllowOnce && !current then Discard
      else Confirm(operation.value)
    case Accepted =>
      if operation == None then Nothing
      else if operation.value.phase == DecisionPrepared then (if current then Confirm(operation.value) else Nothing)
      else if operation.value.phase == RuntimeStarted then Nothing
      else if operation.value.phase != ClaimPrepared then Inconsistent
      else if current then StartIt else Nothing
    case Running =>
      if operation == None then Nothing
      else
        (match operation.value.phase
         case DecisionPrepared => if current then Confirm(operation.value) else Nothing
         case ClaimPrepared => if current then StartIt else Nothing
         case ResultPrepared => StartIt
         case RuntimeStarted => Nothing)
    case Completed => ReplayOrRemove(status, operation)
    case Failed => ReplayOrRemove(status, operation)
    case Cancelled => ReplayOrRemove(status, operation)
    case Rejected => RemoveIt
    case Expired => RemoveIt
    case Preparing => Inconsistent
  }

  function FlowFor(action: Action, status: RequestStatus): Flow {
    match action
    case Nothing => Idle
    case Inconsistent => Idle
    case Discard => Removing
    case Confirm(op) => Prepared(op, false, true)
    case StartIt => Starting(status)
    case ReplayIt(op) => Replaying(op)
    case RemoveIt => Removing
  }

  function ReplayOrRemove(status: RequestStatus, operation: Option<MutationRecord>): Action {
    if operation.Some? && operation.value.phase == ResultPrepared && operation.value.result.Some?
        && operation.value.result.value.state == status
    then ReplayIt(operation.value)
    else RemoveIt
  }

  /** What a decision reply leads to, given the record after the claim was made durable. */
  function AfterDecision(status: RequestStatus, current: MutationRecord): Flow {
    match current.phase
    case ClaimPrepared => Starting(status)
    case ResultPrepared => if status == Running then Starting(status) else Idle
    case _ => Idle
  }

  predicate MayStart(rc: Receiver, status: RequestStatus) {
    && status in {Accepted, Running}
    && rc.slot.memory.Some?
    && var operation := rc.slot.memory.value;
    && operation.phase in {ClaimPrepared, ResultPrepared}
    && (status == Accepted ==> operation.phase == ClaimPrepared)
    && (operation.phase == ClaimPrepared ==> AuthorityCurrent(rc, operation) && NoticeCurrent(rc, operation))
    && rc.exec == NoExec
  }

  // --- the relay's side -----------------------------------------------------------------

  function OpOf(meta: RequestMeta, message: Message): LifecycleOp {
    match message
    case DecideMessage(decisionID, decision) => Decide(meta.targetAgentId, decisionID, decision)
    case MarkMessage(claim) => MarkRunning(meta.targetAgentId, claim)
    case SubmitMessage(result) => SubmitResult(meta.targetAgentId, result)
  }

  function WithRelay(w: World, next: StoredRequest): World {
    w.(relay := Some(next),
       decided := if next.decisionID.Some?
           && next.decision.Some? then Some((next.decisionID.value, next.decision.value)) else w.decided,
       claimed := if next.claim.Some? then next.claim else w.claimed)
  }

  /** The relay's answer to one operation: its new state, and the status it replies with unless it refuses. */
  function Answer(w: World, op: LifecycleOp, clock: nat, revoked: bool): (World, Option<RequestStatus>) {
    if w.relay == None then (w, None)
    else
      match Transition(w.relay.value, op, clock, revoked)
      case Err(_) => (w, None)
      case Ok(next) => (WithRelay(w, next), Some(next.status))
  }

  // --- steps ------------------------------------------------------------------------------

  datatype Step =
    // the machine around the receiver
    | Boot(authority: Option<Authority>)
    | Crash(powerLost: bool)
    | SetAuthority(authority: Option<Authority>)
    | SetPending(pending: Option<RequestNotice>)
    | WriteForAnotherRequest(outcome: WriteOutcome)
    | SettleDisk
    | ForgetRecord(outcome: WriteOutcome)
    // the locked flow
    | BeginDecision(decision: Decision, level: Option<ApprovalLevel>, grantId: Option<GrantID>, source: Source, now: nat,
        outcome: WriteOutcome)
    | ConfirmPersisted(now: nat, outcome: WriteOutcome)
    | SendDecision
    | DecisionReply(clock: nat, revoked: bool)
    | HandleDecision(now: nat, outcome: WriteOutcome)
    | StartExecution
    | Recover(status: RequestStatus, otherActive: bool)
    | SendResult
    | ResultReply(clock: nat)
    | RemoveRecord(outcome: WriteOutcome)
    | FlowFails
    // the executing goroutine
    | ExecLoad
    | ExecFetch
    | ExecMarkReply(clock: nat)
    | ExecCross(now: nat, outcome: WriteOutcome)
    | ExecLaunch
    | ExecFinish(result: ResultPayload)
    | ExecJournal(now: nat, outcome: WriteOutcome)
    | ExecSendResult
    | ExecResultReply(clock: nat)
    | ExecRemove(outcome: WriteOutcome)
    | ExecAborts

  /** The world and one receiver; a step of that receiver touches nothing else. */
  datatype Local = Local(w: World, rc: Receiver)

  function NewRecord(rc: Receiver, r: nat, draw: nat, notice: RequestNotice, decision: Decision,
                     level: Option<ApprovalLevel>, grantId: Option<GrantID>, persisted: bool): MutationRecord
  {
    var id := DecisionID(r, draw);
    if decision == Deny then
      MutationRecord(notice.requestId, notice.conversationId, id, Deny, None, None, false, None, None, None,
          DecisionPrepared, None, 0)
    else
      MutationRecord(notice.requestId, notice.conversationId, id, AllowOnce, level, grantId, persisted, rc.authority,
                     BindingFor(notice), Some(ClaimID(r, draw)), DecisionPrepared, None, 0)
  }

  /**
   A recipient's own standing approval plans the grant of this very notice; an
   auto-approval names the grant that the approval store, whatever had happened
   to it, returned for this very notice. Both are under the current authority.
   */
  predicate Justified(source: Source, authority: Authority, notice: RequestNotice, level: ApprovalLevel,
          grantId: Option<GrantID>) {
    var candidate := CandidateFor(notice);
    match source
    case Human =>
      grantId == if Standing(level) then Some(StableGrantID(authority, level, candidate.memberId,
          candidate.conversationId)) else None
    case Matched(grant, history, at) =>
      && level == grant.level && grantId == Some(grant.grantId)
      && NormalizeCandidate(candidate, false).Some?
      && (forall i | 0 <= i < |history| :: Revocation.Clocked(history[i]))
      && Lookup(Prune(Revocation.Run(Revocation.EmptyStore, history).memory.grants, authority, at), authority,
                NormalizeCandidate(candidate, false).value) == Some(grant)
  }

  /** An existing durable operation may stand in for a new decision only if it is the same one. */
  predicate SameIntent(existing: MutationRecord, rc: Receiver, notice: RequestNotice, decision: Decision,
                       level: Option<ApprovalLevel>, grantId: Option<GrantID>)
  {
    && existing.conversationId == notice.conversationId
    && existing.decision == decision
    && existing.level == level
    && existing.grantId == grantId
    && (decision == AllowOnce ==> existing.authority == rc.authority && existing.approvedNotice == BindingFor(notice))
  }

  function WriteMemory(rc: Receiver, next: Option<MutationRecord>, outcome: WriteOutcome): Receiver {
    rc.(slot := WriteSlot(rc.slot, next, outcome))
  }

  function Removed(rc: Receiver, outcome: WriteOutcome): Receiver {
    if rc.slot.memory == None then rc else WriteMemory(rc, None, outcome)
  }

  predicate HonestNotice(meta: RequestMeta, notice: RequestNotice) {
    notice == NoticeOf(Created(meta)).(status := notice.status)
  }

  function MachineNext(meta: RequestMeta, honest: bool, l: Local, step: Step): Option<Local> {
    var rc := l.rc;
    match step
    case Boot(authority) =>
      if rc.up then None
      else Some(l.(rc := rc.(up := true, authority := authority, slot := rc.slot.(memory := rc.slot.visible))))
    case Crash(powerLost) =>
      var kept := if powerLost then rc.slot.durable else rc.slot.visible;
      Some(l.(rc := rc.(up := false, authority := None, flow := Idle, exec := NoExec, slot := Slot(None, kept, rc.slot.durable))))
    case SetAuthority(authority) => if rc.up then Some(l.(rc := rc.(authority := authority))) else None
    case SetPending(pending) =>
      if pending.Some? && (pending.value.requestId != meta.requestId || (honest && !HonestNotice(meta, pending.value))) then None
      else Some(l.(rc := rc.(pending := pending)))
    case WriteForAnotherRequest(outcome) => if rc.up then Some(l.(rc := WriteMemory(rc, rc.slot.memory, outcome))) else None
    case SettleDisk => Some(l.(rc := rc.(slot := rc.slot.(durable := rc.slot.visible))))
    case ForgetRecord(outcome) => if rc.up then Some(l.(rc := Removed(rc, outcome))) else None
    case _ => None
  }

  function BeginNext(r: nat, l: Local, step: Step): Option<Local>
    requires step.BeginDecision?
  {
    var rc := l.rc;
    if !rc.up || rc.flow != Idle || rc.pending == None || rc.pending.value.status != AwaitingApproval then None
    else if step.decision == AllowOnce && (rc.authority == None || BindingFor(rc.pending.value) == None
        || step.level == None) then None
    else
      var notice := rc.pending.value;
      if rc.slot.memory.Some? then
        if SameIntent(rc.slot.memory.value, rc, notice, step.decision, step.level, step.grantId)
        then Some(l.(rc := rc.(flow := Prepared(rc.slot.memory.value, step.decision == Deny, step.decision == Deny))))
        else None
      else
        var record := NewRecord(rc, r, l.w.draws, notice, step.decision, step.level, step.grantId, step.source.Matched?);
        if !ValidRecord(record) || (step.decision == AllowOnce
            && !Justified(step.source, rc.authority.value, notice, step.level.value, step.grantId)) then None
        else
          var w := l.w.(draws := l.w.draws + 1, births := l.w.births[record.decisionID := Birth(record, step.source, notice)]);
          var written := WriteMemory(rc, Some(record.(updatedAt := step.now)), step.outcome);
          Some(Local(w, if step.outcome == Written then written.(flow := Prepared(record, step.decision == Deny,
              step.decision == Deny)) else written))
  }

  /** One durable Update of the record in memory; the edit must apply. */
  function UpdateMemory(rc: Receiver, edit: Edit, now: nat, outcome: WriteOutcome): (Receiver, Option<MutationRecord>) {
    if rc.slot.memory == None || Edited(rc.slot.memory.value, edit, now) == None then (rc, None)
    else
      var next := Edited(rc.slot.memory.value, edit, now);
      (WriteMemory(rc, next, outcome), if outcome == Written then next else None)
  }

  function HandleNext(l: Local, op: MutationRecord, denying: bool, status: RequestStatus, now: nat,
          outcome: WriteOutcome): Receiver {
    var rc := l.rc;
    if denying then rc.(flow := if status in {Rejected, Expired, Cancelled} then Removing else Idle)
    else if status in {Accepted, Running} then
      if op.decision != AllowOnce || op.claim == None || !AuthorityCurrent(rc, op)
          || !NoticeCurrent(rc, op) then rc.(flow := Idle)
      else
        var updated := UpdateMemory(rc, PrepareClaim(op.decisionID, op.decision, op.claim), now, outcome);
        updated.0.(flow := if updated.1 == None then Idle else AfterDecision(status, updated.1.value))
    else if status in {Completed, Failed, Cancelled} then
      rc.(flow := if ReplayOrRemove(status, Some(op)).ReplayIt? then Replaying(op) else Removing)
    else rc.(flow := if status == Expired then Removing else Idle)
  }

  function FlowNext(meta: RequestMeta, r: nat, l: Local, step: Step): Option<Local> {
    var rc := l.rc;
    match (step, rc.flow)
    case (BeginDecision(_, _, _, _, _, _), _) => BeginNext(r, l, step)
    case (ConfirmPersisted(now, outcome), Prepared(op, denying, checked)) =>
      if op.level == None || !Standing(op.level.value) then None
      else
        var updated := UpdateMemory(rc, ConfirmGrant(op.decisionID, op.level, op.grantId), now, outcome);
        Some(l.(rc := updated.0.(flow := if updated.1 == None then Idle else Prepared(updated.1.value, denying, checked))))
    case (SendDecision, Prepared(op, denying, checked)) =>
      if !checked && (!AuthorityCurrent(rc, op) || !NoticeCurrent(rc, op)) then None
      else Some(Local(l.w.(sent := l.w.sent + {DecideMessage(op.decisionID, op.decision)}), rc.(flow := Deciding(op, denying))))
    case (DecisionReply(clock, revoked), Deciding(op, denying)) =>
      var answer := Answer(l.w, OpOf(meta, DecideMessage(op.decisionID, op.decision)), clock, revoked);
      Some(Local(answer.0, rc.(flow := if answer.1 == None then Idle else Decided(op, denying, answer.1.value))))
    case (HandleDecision(now, outcome), Decided(op, denying, status)) =>
      Some(l.(rc := HandleNext(l, op, denying, status, now, outcome)))
    case (StartExecution, Starting(status)) =>
      Some(l.(rc := rc.(flow := Idle, exec := if MayStart(rc, status) then ExecBegun else rc.exec)))
    case (Recover(status, otherActive), Idle) =>
      if !rc.up then None
      else
        var current := rc.slot.memory.Some? && AuthorityCurrent(rc, rc.slot.memory.value)
            && NoticeCurrent(rc, rc.slot.memory.value);
        var flow := FlowFor(RecoverAction(status, rc.slot.memory, current, otherActive), status);
        Some(l.(rc := rc.(flow := flow)))
    case (SendResult, Replaying(op)) =>
      if op.phase != ResultPrepared || op.result == None || Some(op.result.value.claim) != op.claim then None
      else Some(Local(l.w.(sent := l.w.sent + {SubmitMessage(op.result.value)}), rc.(flow := Submitting(op))))
    case (ResultReply(clock), Submitting(op)) =>
      if op.result == None then None
      else
        var answer := Answer(l.w, OpOf(meta, SubmitMessage(op.result.value)), clock, false);
        Some(Local(answer.0, rc.(flow := if answer.1 == Some(op.result.value.state) then Removing else Idle)))
    case (RemoveRecord(outcome), Removing) => Some(l.(rc := Removed(rc, outcome).(flow := Idle)))
    case (FlowFails, _) => Some(l.(rc := rc.(flow := Idle)))
    case _ => None
  }

  function ExecNext(meta: RequestMeta, l: Local, step: Step): Option<Local> {
    var rc := l.rc;
    match (step, rc.exec)
    case (ExecLoad, ExecBegun) =>
      var exec :=
        if rc.slot.memory == None then NoExec
        else
          var op := rc.slot.memory.value;
          if op.phase == ResultPrepared then ExecReplaying(op)
          else if op.phase == ClaimPrepared && op.claim.Some? && AuthorityCurrent(rc, op)
              && NoticeCurrent(rc, op) then ExecFetching(op, rc.authority)
          else NoExec;
      Some(l.(rc := rc.(exec := exec)))
    case (ExecFetch, ExecFetching(op, under)) =>
      if l.w.relay == None || op.claim == None || op.approvedNotice == None then Some(l.(rc := rc.(exec := NoExec)))
      else
        (match FetchExecution(l.w.relay.value, meta.targetAgentId)
         case Err(_) => Some(l.(rc := rc.(exec := NoExec)))
         case Ok(payload) =>
           if !PayloadMatches(op.approvedNotice.value, payload) then Some(l.(rc := rc.(exec := NoExec)))
           else Some(Local(l.w.(sent := l.w.sent + {MarkMessage(op.claim.value)}), rc.(exec := ExecMarking(op, under, payload)))))
    case (ExecMarkReply(clock), ExecMarking(op, under, payload)) =>
      if op.claim == None then None
      else
        var answer := Answer(l.w, OpOf(meta, MarkMessage(op.claim.value)), clock, false);
        Some(Local(answer.0, rc.(exec := if answer.1 == Some(Running) then ExecMarked(op, under, payload) else NoExec)))
    case (ExecCross(now, outcome), ExecMarked(op, under, payload)) =>
      if op.claim == None then None
      else
        var updated := UpdateMemory(rc, StartRuntime(op.claim.value), now, outcome);
        if updated.1 == None then Some(l.(rc := updated.0.(exec := NoExec)))
        else Some(Local(l.w.(crossed := l.w.crossed + {op.claim.value}), updated.0.(exec := ExecCrossed(updated.1.value,
            under, payload))))
    case (ExecLaunch, ExecCrossed(op, under, payload)) =>
      if op.claim == None then None
      else Some(Local(l.w.(starts := l.w.starts + [Start(op.claim.value, payload, under)]), rc.(exec := ExecRunning(op))))
    case (ExecFinish(result), ExecCrossed(op, _, _)) =>
      if Some(result.claim) == op.claim
          && result.state == Failed then Some(l.(rc := rc.(exec := ExecJournaling(op, result)))) else None
    case (ExecFinish(result), ExecRunning(op)) =>
      if Some(result.claim) == op.claim
          && result.state in {Completed, Failed} then Some(l.(rc := rc.(exec := ExecJournaling(op, result)))) else None
    case (ExecJournal(now, outcome), ExecJournaling(op, result)) =>
      var updated := UpdateMemory(rc, PrepareResult(result), now, outcome);
      var journaled := rc.slot.memory.Some? && Edited(rc.slot.memory.value, PrepareResult(result), now).Some?
          && outcome in {Written, Unsynced};
      var w := if journaled then l.w.(journal := l.w.journal[result.claim := result]) else l.w;
      Some(Local(w, updated.0.(exec := if updated.1 == None then NoExec else ExecReplaying(updated.1.value))))
    case (ExecSendResult, ExecReplaying(op)) =>
      if op.phase != ResultPrepared || op.result == None || Some(op.result.value.claim) != op.claim then None
      else Some(Local(l.w.(sent := l.w.sent + {SubmitMessage(op.result.value)}), rc.(exec := ExecSubmitting(op))))
    case (ExecResultReply(clock), ExecSubmitting(op)) =>
      if op.result == None then None
      else
        var answer := Answer(l.w, OpOf(meta, SubmitMessage(op.result.value)), clock, false);
        Some(Local(answer.0, rc.(exec := if answer.1 == Some(op.result.value.state) then ExecRemoving else NoExec)))
    case (ExecRemove(outcome), ExecRemoving) => Some(l.(rc := Removed(rc, outcome).(exec := NoExec)))
    case (ExecAborts, _) => Some(l.(rc := rc.(exec := NoExec)))
    case _ => None
  }

  predicate OfMachine(step: Step) {
    || step.Boot? || step.Crash? || step.SetAuthority? || step.SetPending?
    || step.WriteForAnotherRequest? || step.SettleDisk? || step.ForgetRecord?
  }

  predicate OfExec(step: Step) {
    || step.ExecLoad? || step.ExecFetch? || step.ExecMarkReply? || step.ExecCross? || step.ExecLaunch? || step.ExecFinish?
    || step.ExecJournal? || step.ExecSendResult? || step.ExecResultReply? || step.ExecRemove? || step.ExecAborts?
  }

  function ReceiverNext(meta: RequestMeta, honest: bool, r: nat, l: Local, step: Step): Option<Local> {
    if OfMachine(step) then MachineNext(meta, honest, l, step)
    else if OfExec(step) then ExecNext(meta, l, step)
    else FlowNext(meta, r, l, step)
  }

  // --- the system ------------------------------------------------------------------------

  datatype SystemStep =
    | ReceiverSteps(r: nat, step: Step)
    | Deliver(message: Message, clock: nat, revoked: bool)
    | RequesterCancels(clock: nat)
    | DeadlinePasses(clock: nat)
    | RetentionEnds

  function Next(s: System, step: SystemStep): Option<System> {
    match step
    case ReceiverSteps(r, inner) =>
      if r !in s.receivers then None
      else
        (match ReceiverNext(s.meta, s.honest, r, Local(s.world, s.receivers[r]), inner)
         case None => None
         case Some(l) => Some(s.(world := l.w, receivers := s.receivers[r := l.rc])))
    case Deliver(message, clock, revoked) =>
      if message !in s.world.sent then None
      else Some(s.(world := Answer(s.world, OpOf(s.meta, message), clock, revoked).0))
    case RequesterCancels(clock) => Some(s.(world := Answer(s.world, Cancel(s.meta.requesterAgentId), clock, false).0))
    case DeadlinePasses(clock) => Some(s.(world := Answer(s.world, ExpireAwaiting(s.meta.targetAgentId), clock, false).0))
    case RetentionEnds => Some(s.(world := s.world.(relay := None)))
  }

  const Fresh := Receiver(false, Slot(None, None, None), None, None, Idle, NoExec)

  /** A newly created request and receivers that have never heard of it. */
  predicate Initial(s: System) {
    && s.meta.requestId != ""
    && s.world == World(Some(Created(s.meta)), {}, 0, map[], None, None, {}, map[], [])
    && (forall r | r in s.receivers :: s.receivers[r] == Fresh)
  }

  ghost predicate Run(states: seq<System>, steps: seq<SystemStep>) {
    && |states| == |steps| + 1
    && Initial(states[0])
    && (forall i | 0 <= i < |steps| :: Next(states[i], steps[i]) == Some(states[i + 1]))
  }
}
