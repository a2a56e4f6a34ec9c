/**
 The inductive invariant of the receiver protocol: what the relay, every
 message ever sent, every stored copy of a write-ahead record and every
 in-flight copy say about each other.
 */
module ReceiverInvariant {
  import opened Base
  import opened Protocol
  import opened RelayRecord
  import opened Approvals
  import opened DurableFile
  import opened MutationStore
  import opened ReceiverProtocol

  function PhaseRank(phase: Phase): nat {
    match phase
    case DecisionPrepared => 0
    case ClaimPrepared => 1
    case RuntimeStarted => 2
    case ResultPrepared => 3
  }

  /** Two copies of one operation, possibly at different phases. */
  predicate SameOperation(x: MutationRecord, y: MutationRecord) {
    x.(grantPersisted := y.grantPersisted, phase := y.phase, result := y.result, updatedAt := y.updatedAt) == y
  }

  // --- the world -----------------------------------------------------------------------

  ghost predicate BirthOk(meta: RequestMeta, honest: bool, draws: nat, id: DecisionID, birth: Birth) {
    var x := birth.record;
    && x.decisionID == id && id.draw < draws
    && x.phase == DecisionPrepared && ValidRecord(x)
    && x.requestId == meta.requestId
    && (x.decision == Deny ==> x.claim == None)
    && (x.decision == AllowOnce ==>
          && x.claim == Some(ClaimID(id.owner, id.draw))
          && x.authority.Some? && x.level.Some? && x.approvedNotice.Some?
          && x.approvedNotice == BindingFor(birth.notice)
          && Justified(birth.source, x.authority.value, birth.notice, x.level.value, x.grantId)
          && (honest ==> x.approvedNotice == BindingFor(NoticeOf(Created(meta)))))
  }

  ghost predicate MessageOk(w: World, message: Message) {
    match message
    case DecideMessage(id, decision) => id in w.births && w.births[id].record.decision == decision
    case MarkMessage(claim) => w.decided == Some((DecisionID(claim.owner, claim.draw), AllowOnce))
    case SubmitMessage(result) => result.claim in w.journal && w.journal[result.claim] == result
  }

  ghost predicate StartOk(w: World, start: Start) {
    var id := DecisionID(start.claim.owner, start.claim.draw);
    && start.claim in w.crossed
    && id in w.births
    && var x := w.births[id].record;
       x.decision == AllowOnce && x.authority == start.under
       && x.approvedNotice.Some? && PayloadMatches(x.approvedNotice.value, start.payload)
  }

  /** The relay's identities are the ones history remembers, and its result is the journaled one. */
  ghost predicate RelayOk(meta: RequestMeta, w: World) {
    w.relay.Some? ==>
      var stored := w.relay.value;
      && stored.meta == meta
      && Lifecycle(stored)
      && w.decided == (if stored.decisionID.Some?
          && stored.decision.Some? then Some((stored.decisionID.value, stored.decision.value)) else None)
      && w.claimed == stored.claim
      && (stored.resultDigest.Some? ==>
            var result := stored.resultDigest.value.result;
            result.claim in w.journal && w.journal[result.claim] == result)
  }

  ghost predicate HistoryOk(w: World) {
    && (forall message | message in w.sent :: MessageOk(w, message))
    && (w.decided.Some? ==> w.decided.value.0 in w.births && w.births[w.decided.value.0].record.decision == w.decided.value.1)
    && (w.claimed.Some? ==> MarkMessage(w.claimed.value) in w.sent)
    && (forall claim | claim in w.crossed :: w.claimed == Some(claim))
    && (forall claim | claim in w.journal :: claim in w.crossed && w.journal[claim].claim == claim && w.journal[claim].state in {Completed, Failed})
    && (forall i | 0 <= i < |w.starts| :: StartOk(w, w.starts[i]))
    && (forall i, j | 0 <= i < j < |w.starts| :: w.starts[i].claim != w.starts[j].claim)
  }

  ghost predicate WorldOk(meta: RequestMeta, honest: bool, w: World) {
    && (forall id | id in w.births :: BirthOk(meta, honest, w.draws, id, w.births[id]))
    && HistoryOk(w)
    && RelayOk(meta, w)
  }

  // --- one receiver --------------------------------------------------------------------

  /** What any copy of a record, stored or in flight, may claim about the world. */
  ghost predicate CopyOk(w: World, r: nat, x: MutationRecord) {
    && x.decisionID.owner == r
    && x.decisionID in w.births
    && SameOperation(x, w.births[x.decisionID].record)
    && ValidRecord(x)
    && (PhaseRank(x.phase) >= 1 ==> w.decided == Some((x.decisionID, AllowOnce)))
    && (PhaseRank(x.phase) >= 2 ==> w.claimed == x.claim)
    && (x.phase == ResultPrepared ==>
          x.claim.Some? && x.result.Some? && x.claim.value in w.journal && w.journal[x.claim.value] == x.result.value)
  }

  /** A stored copy is moreover past the boundary once its claim has crossed it. */
  ghost predicate StoredOk(w: World, r: nat, x: Option<MutationRecord>) {
    x.Some? ==>
      && CopyOk(w, r, x.value)
      && (x.value.claim.Some? && x.value.claim.value in w.crossed ==> PhaseRank(x.value.phase) >= 2)
  }

  /** Of two copies of one operation, the second is at least as far as the first. */
  predicate Ahead(x: Option<MutationRecord>, y: Option<MutationRecord>) {
    x.Some? && y.Some? && x.value.decisionID == y.value.decisionID ==> PhaseRank(x.value.phase) <= PhaseRank(y.value.phase)
  }

  ghost predicate SlotOk(w: World, r: nat, slot: Slot) {
    && StoredOk(w, r, slot.memory)
    && StoredOk(w, r, slot.visible)
    && StoredOk(w, r, slot.durable)
    && Ahead(slot.memory, slot.visible)
  }

  ghost predicate FlowOk(w: World, r: nat, flow: Flow) {
    match flow
    case Prepared(op, _, _) => CopyOk(w, r, op)
    case Deciding(op, _) => CopyOk(w, r, op) && DecideMessage(op.decisionID, op.decision) in w.sent
    case Decided(op, _, status) => CopyOk(w, r, op) && w.decided == Some((op.decisionID, op.decision))
    case Replaying(op) => CopyOk(w, r, op)
    case Submitting(op) => CopyOk(w, r, op) && (op.result.Some? ==> SubmitMessage(op.result.value) in w.sent)
    case _ => true
  }

  predicate Authorized(op: MutationRecord, under: Option<Authority>) {
    op.decision == AllowOnce && op.claim.Some? && op.approvedNotice.Some? && op.authority == under
  }

  predicate Bound(op: MutationRecord, under: Option<Authority>, payload: ExecutionPayload) {
    Authorized(op, under) && PayloadMatches(op.approvedNotice.value, payload)
  }

  /** A claim past the boundary for which no result has been journaled. */
  predicate Crossed(w: World, op: MutationRecord) {
    op.phase == RuntimeStarted && op.claim.Some? && op.claim.value in w.crossed && op.claim.value !in w.journal
  }

  predicate Unstarted(w: World, claim: ClaimID) {
    forall i | 0 <= i < |w.starts| :: w.starts[i].claim != claim
  }

  ghost predicate ExecOk(w: World, r: nat, slot: Slot, exec: Exec) {
    match exec
    case ExecFetching(op, under) =>
      CopyOk(w, r, op) && op.phase == ClaimPrepared && Authorized(op, under) && Ahead(Some(op), slot.memory)
          && Ahead(Some(op), slot.visible)
    case ExecMarking(op, under, payload) =>
      CopyOk(w, r, op) && op.phase == ClaimPrepared && Bound(op, under, payload) && MarkMessage(op.claim.value) in w.sent
    case ExecMarked(op, under, payload) =>
      CopyOk(w, r, op) && op.phase == ClaimPrepared && Bound(op, under, payload) && w.claimed == op.claim
    case ExecCrossed(op, under, payload) =>
      CopyOk(w, r, op) && Bound(op, under, payload) && Crossed(w, op) && Unstarted(w, op.claim.value)
    case ExecRunning(op) => CopyOk(w, r, op) && Crossed(w, op)
    case ExecJournaling(op, result) => CopyOk(w, r, op) && Crossed(w, op) && Some(result.claim) == op.claim
        && result.state in {Completed, Failed}
    case ExecReplaying(op) => CopyOk(w, r, op)
    case ExecSubmitting(op) => CopyOk(w, r, op) && (op.result.Some? ==> SubmitMessage(op.result.value) in w.sent)
    case _ => true
  }

  ghost predicate ReceiverOk(meta: RequestMeta, honest: bool, w: World, r: nat, rc: Receiver) {
    && SlotOk(w, r, rc.slot)
    && FlowOk(w, r, rc.flow)
    && ExecOk(w, r, rc.slot, rc.exec)
    && (!rc.up ==> rc.slot.memory == None && rc.exec == NoExec)
    && (rc.pending.Some? ==> rc.pending.value.requestId == meta.requestId && (honest ==> HonestNotice(meta, rc.pending.value)))
  }

  ghost predicate Inv(s: System) {
    && s.meta.requestId != ""
    && WorldOk(s.meta, s.honest, s.world)
    && (forall r | r in s.receivers :: ReceiverOk(s.meta, s.honest, s.world, r, s.receivers[r]))
  }

  // --- growth ---------------------------------------------------------------------------

  /** What is known stays known. */
  ghost predicate Keeps(w: World, v: World) {
    && w.draws <= v.draws
    && (forall id | id in w.births :: id in v.births && v.births[id] == w.births[id])
    && w.sent <= v.sent
    && WrittenOnce(w.decided, v.decided)
    && WrittenOnce(w.claimed, v.claimed)
    && w.crossed <= v.crossed
    && (forall claim | claim in w.journal :: claim in v.journal && v.journal[claim] == w.journal[claim])
  }

  /** What a step of receiver `r` adds carries identifiers that `r` itself drew. */
  ghost predicate AddsOwn(w: World, v: World, r: nat) {
    && (forall claim | MarkMessage(claim) in v.sent && MarkMessage(claim) !in w.sent :: claim.owner == r)
    && (forall claim | claim in v.crossed && claim !in w.crossed :: claim.owner == r)
    && (forall claim | claim in v.journal && claim !in w.journal :: claim.owner == r)
    && |w.starts| <= |v.starts|
    && (forall i | 0 <= i < |v.starts| :: if i < |w.starts| then v.starts[i] == w.starts[i] else v.starts[i].claim.owner == r)
  }

  ghost predicate Grows(w: World, v: World, r: nat) {
    Keeps(w, v) && AddsOwn(w, v, r)
  }

  lemma CopyKept(w: World, v: World, r: nat, x: MutationRecord)
    requires CopyOk(w, r, x) && Keeps(w, v)
    ensures CopyOk(v, r, x)
  {
  }

  lemma FlowKept(w: World, v: World, r: nat, flow: Flow)
    requires FlowOk(w, r, flow) && Keeps(w, v)
    ensures FlowOk(v, r, flow)
  {
  }

  /** The claim of a copy is its own receiver's. */
  lemma ClaimIsOwn(meta: RequestMeta, honest: bool, w: World, r: nat, x: MutationRecord)
    requires WorldOk(meta, honest, w) && CopyOk(w, r, x)
    ensures x.claim.Some? ==> x.claim == Some(ClaimID(r, x.decisionID.draw)) && x.decision == AllowOnce
  {
  }

  lemma StoredKept(meta: RequestMeta, honest: bool, w: World, v: World, q: nat, r: nat, x: Option<MutationRecord>)
    requires WorldOk(meta, honest, w) && StoredOk(w, q, x) && Grows(w, v, r) && q != r
    ensures StoredOk(v, q, x)
  {
  }

  lemma ExecKept(meta: RequestMeta, honest: bool, w: World, v: World, q: nat, r: nat, slot: Slot, exec: Exec)
    requires WorldOk(meta, honest, w) && ExecOk(w, q, slot, exec) && Grows(w, v, r) && q != r
    ensures ExecOk(v, q, slot, exec)
  {
    hide WorldOk, CopyOk, PayloadMatches, Ahead;
    match exec
    case ExecFetching(op, _) => CopyKept(w, v, q, op);
    case ExecMarking(op, _, _) => CopyKept(w, v, q, op);
    case ExecMarked(op, _, _) => CopyKept(w, v, q, op);
    case ExecCrossed(op, _, _) => CopyKept(w, v, q, op); ClaimIsOwn(meta, honest, w, q, op);
    case ExecRunning(op) => CopyKept(w, v, q, op); ClaimIsOwn(meta, honest, w, q, op);
    case ExecJournaling(op, _) => CopyKept(w, v, q, op); ClaimIsOwn(meta, honest, w, q, op);
    case ExecReplaying(op) => CopyKept(w, v, q, op);
    case ExecSubmitting(op) => CopyKept(w, v, q, op);
    case _ =>
  }

  /** A step of one receiver, or of the relay, leaves every other receiver's invariant standing. */
  lemma OthersKept(meta: RequestMeta, honest: bool, w: World, v: World, q: nat, r: nat, rc: Receiver)
    requires WorldOk(meta, honest, w) && ReceiverOk(meta, honest, w, q, rc) && Grows(w, v, r) && q != r
    ensures ReceiverOk(meta, honest, v, q, rc)
  {
    hide WorldOk, StoredOk, FlowOk, ExecOk, Ahead;
    StoredKept(meta, honest, w, v, q, r, rc.slot.memory);
    StoredKept(meta, honest, w, v, q, r, rc.slot.visible);
    StoredKept(meta, honest, w, v, q, r, rc.slot.durable);
    FlowKept(w, v, q, rc.flow);
    ExecKept(meta, honest, w, v, q, r, rc.slot, rc.exec);
  }
}
