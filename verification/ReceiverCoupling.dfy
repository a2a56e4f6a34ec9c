/**
 The order of the claim phase and the relay's claim: when a receiver's copies
 are coupled to the relay, and the one step that can uncouple them.
 */
module ReceiverCoupling {
  import opened Base
  import opened Protocol
  import opened RelayRecord
  import opened Approvals
  import opened DurableFile
  import opened MutationStore
  import opened ReceiverProtocol
  import opened ReceiverInvariant
  import opened ReceiverSteps

  /** Once a claim has been sent to the relay, the record that holds it is at the claim phase. */
  predicate ClaimCoupled(w: World, x: Option<MutationRecord>) {
    x.Some? && x.value.claim.Some? && MarkMessage(x.value.claim.value) in w.sent ==> PhaseRank(x.value.phase) >= 1
  }

  /** That of the copies a receiver acts on, now or after a restart. */
  predicate Coupled(w: World, slot: Slot) {
    ClaimCoupled(w, slot.memory) && ClaimCoupled(w, slot.visible)
  }

  /**
   A power loss that brings back a decision-phase record whose claim has been
   sent: the directory sync of its claim phase had failed, and nothing was
   written since.
   */
  predicate LosesClaim(l: Local, step: Step) {
    && step == Crash(true)
    && l.rc.slot.durable.Some?
    && l.rc.slot.durable.value.phase == DecisionPrepared
    && l.rc.slot.durable.value.claim.Some?
    && MarkMessage(l.rc.slot.durable.value.claim.value) in l.w.sent
  }

  lemma WriteCoupled(w: World, slot: Slot, next: Option<MutationRecord>, outcome: WriteOutcome)
    requires Coupled(w, slot) && ClaimCoupled(w, next)
    ensures Coupled(w, WriteSlot(slot, next, outcome))
  {
  }

  lemma EditCoupled(w: World, slot: Slot, edit: Edit, now: nat, outcome: WriteOutcome)
    requires Coupled(w, slot) && slot.memory.Some? && Edited(slot.memory.value, edit, now).Some?
    ensures Coupled(w, WriteSlot(slot, Edited(slot.memory.value, edit, now), outcome))
  {
    hide Edited;
    EditedFacts(slot.memory.value, edit, now);
  }

  lemma UpdateCoupled(w: World, rc: Receiver, edit: Edit, now: nat, outcome: WriteOutcome)
    requires Coupled(w, rc.slot)
    ensures Coupled(w, UpdateMemory(rc, edit, now, outcome).0.slot)
  {
    hide Edited, Coupled, WriteSlot;
    if rc.slot.memory.Some? && Edited(rc.slot.memory.value, edit, now).Some? {
      EditCoupled(w, rc.slot, edit, now, outcome);
    }
  }

  /** Only messages matter to the coupling. */
  lemma SameSentCoupled(w: World, v: World, slot: Slot)
    requires forall claim | MarkMessage(claim) in v.sent :: MarkMessage(claim) in w.sent
    requires Coupled(w, slot)
    ensures Coupled(v, slot)
  {
  }

  lemma MachineCoupled(meta: RequestMeta, honest: bool, l: Local, step: Step)
    requires MachineNext(meta, honest, l, step).Some? && Coupled(l.w, l.rc.slot)
    ensures var next := MachineNext(meta, honest, l, step).value; Coupled(next.w, next.rc.slot) <==> !LosesClaim(l, step)
  {
    hide HonestNotice;
  }

  /** A claim that has not been drawn has not been sent. */
  lemma UndrawnIsUnsent(meta: RequestMeta, honest: bool, w: World, r: nat)
    requires WorldOk(meta, honest, w)
    ensures MarkMessage(ClaimID(r, w.draws)) !in w.sent
  {
    hide RelayOk, StartOk, ValidRecordWithLegacy, BindingFor, Justified;
    assert MarkMessage(ClaimID(r, w.draws)) in w.sent ==> MessageOk(w, MarkMessage(ClaimID(r, w.draws)));
    assert w.decided.Some? ==> BirthOk(meta, honest, w.draws, w.decided.value.0, w.births[w.decided.value.0]);
  }

  lemma BeginCoupled(meta: RequestMeta, honest: bool, r: nat, l: Local, step: Step)
    requires LocalOk(meta, honest, r, l) && step.BeginDecision? && BeginNext(r, l, step).Some? && Coupled(l.w, l.rc.slot)
    ensures var next := BeginNext(r, l, step).value; Coupled(next.w, next.rc.slot)
  {
    UndrawnIsUnsent(meta, honest, l.w, r);
    hide LocalOk, SameIntent, Justified, BindingFor, ValidRecord, Coupled, WriteSlot;
    SameSentCoupled(l.w, BeginNext(r, l, step).value.w, l.rc.slot);
    if l.rc.slot.memory == None {
      var record := NewRecord(l.rc, r, l.w.draws, l.rc.pending.value, step.decision, step.level, step.grantId, step.source.Matched?);
      WriteCoupled(BeginNext(r, l, step).value.w, l.rc.slot, Some(record.(updatedAt := step.now)), step.outcome);
    }
  }

  lemma FlowCoupled(meta: RequestMeta, honest: bool, r: nat, l: Local, step: Step)
    requires LocalOk(meta, honest, r, l) && FlowNext(meta, r, l, step).Some? && Coupled(l.w, l.rc.slot)
    ensures var next := FlowNext(meta, r, l, step).value; Coupled(next.w, next.rc.slot)
  {
    hide LocalOk, BeginNext, UpdateMemory, Coupled, WriteSlot, Edited, Answer, RecoverAction, AuthorityCurrent, NoticeCurrent;
    FlowSends(meta, r, l, step);
    SameSentCoupled(l.w, FlowNext(meta, r, l, step).value.w, l.rc.slot);
    match step
    case BeginDecision(_, _, _, _, _, _) => BeginCoupled(meta, honest, r, l, step);
    case ConfirmPersisted(now, outcome) =>
      var op := l.rc.flow.op;
      UpdateCoupled(l.w, l.rc, ConfirmGrant(op.decisionID, op.level, op.grantId), now, outcome);
    case HandleDecision(now, outcome) =>
      var op := l.rc.flow.op;
      UpdateCoupled(l.w, l.rc, PrepareClaim(op.decisionID, op.decision, op.claim), now, outcome);
    case RemoveRecord(outcome) => RemovedCoupled(l.w, l.rc, outcome);
    case _ =>
  }

  lemma RemovedCoupled(w: World, rc: Receiver, outcome: WriteOutcome)
    requires Coupled(w, rc.slot)
    ensures Coupled(w, Removed(rc, outcome).slot)
  {
  }

  lemma AnswerSends(w: World, op: LifecycleOp, clock: nat, revoked: bool)
    ensures Answer(w, op, clock, revoked).0.sent == w.sent
  {
    hide Transition;
  }

  /** The locked flow sends no claim. */
  lemma FlowSends(meta: RequestMeta, r: nat, l: Local, step: Step)
    requires FlowNext(meta, r, l, step).Some?
    ensures forall claim | MarkMessage(claim) in FlowNext(meta, r, l, step).value.w.sent :: MarkMessage(claim) in l.w.sent
  {
    hide BeginNext, UpdateMemory, HandleNext, RecoverAction, AuthorityCurrent, NoticeCurrent, Answer;
    if step.DecisionReply? && l.rc.flow.Deciding? {
      AnswerSends(l.w, OpOf(meta, DecideMessage(l.rc.flow.op.decisionID, l.rc.flow.op.decision)), step.clock, step.revoked);
    }
    if step.ResultReply? && l.rc.flow.Submitting? && l.rc.flow.op.result.Some? {
      AnswerSends(l.w, OpOf(meta, SubmitMessage(l.rc.flow.op.result.value)), step.clock, false);
    }
    if step.BeginDecision? {
      BeginSends(r, l, step);
    }
  }

  lemma BeginSends(r: nat, l: Local, step: Step)
    requires step.BeginDecision? && BeginNext(r, l, step).Some?
    ensures BeginNext(r, l, step).value.w.sent == l.w.sent
  {
    hide SameIntent, Justified, BindingFor, ValidRecordWithLegacy, NewRecord;
  }

  /** The record whose claim is sent was at the claim phase when it was loaded, and no copy has fallen behind. */
  lemma ClaimSentCoupled(meta: RequestMeta, honest: bool, w: World, v: World, r: nat, op: MutationRecord, x: Option<MutationRecord>)
    requires WorldOk(meta, honest, w) && CopyOk(w, r, op) && op.phase == ClaimPrepared && op.claim.Some?
    requires StoredOk(w, r, x) && Ahead(Some(op), x) && ClaimCoupled(w, x)
    requires v.sent == w.sent + {MarkMessage(op.claim.value)}
    ensures ClaimCoupled(v, x)
  {
    hide WorldOk, CopyOk;
    if x.Some? && x.value.claim == op.claim {
      SameClaimSameOperation(meta, honest, w, r, op, x.value);
    }
  }

  lemma ExecCoupled(meta: RequestMeta, honest: bool, r: nat, l: Local, step: Step)
    requires LocalOk(meta, honest, r, l) && ExecNext(meta, l, step).Some? && Coupled(l.w, l.rc.slot)
    ensures var next := ExecNext(meta, l, step).value; Coupled(next.w, next.rc.slot)
  {
    hide WorldOk, CopyOk, FlowOk, UpdateMemory, WriteSlot, Edited, Answer, PayloadMatches, FetchExecution, AuthorityCurrent, NoticeCurrent;
    var next := ExecNext(meta, l, step).value;
    match step
    case ExecFetch =>
      if next.rc.exec.ExecMarking? {
        ClaimSentCoupled(meta, honest, l.w, next.w, r, l.rc.exec.op, l.rc.slot.memory);
        ClaimSentCoupled(meta, honest, l.w, next.w, r, l.rc.exec.op, l.rc.slot.visible);
      }
    case ExecMarkReply(clock) => AnswerSends(l.w, OpOf(meta, MarkMessage(l.rc.exec.op.claim.value)), clock, false);
    case ExecResultReply(clock) => AnswerSends(l.w, OpOf(meta, SubmitMessage(l.rc.exec.op.result.value)), clock, false);
    case ExecCross(now, outcome) => UpdateCoupled(l.w, l.rc, StartRuntime(l.rc.exec.op.claim.value), now, outcome);
    case ExecJournal(now, outcome) => UpdateCoupled(l.w, l.rc, PrepareResult(l.rc.exec.result), now, outcome);
    case ExecRemove(outcome) => RemovedCoupled(l.w, l.rc, outcome);
    case _ =>
  }

  lemma ReceiverCoupled(meta: RequestMeta, honest: bool, r: nat, l: Local, step: Step)
    requires LocalOk(meta, honest, r, l) && ReceiverNext(meta, honest, r, l, step).Some? && Coupled(l.w, l.rc.slot)
    ensures var next := ReceiverNext(meta, honest, r, l, step).value; Coupled(next.w, next.rc.slot) <==> !LosesClaim(l, step)
  {
    hide LocalOk, MachineNext, FlowNext, ExecNext, Coupled;
    if OfMachine(step) {
      MachineCoupled(meta, honest, l, step);
    } else if OfExec(step) {
      ExecCoupled(meta, honest, r, l, step);
    } else {
      FlowCoupled(meta, honest, r, l, step);
    }
  }

  /** What another receiver sends is never this receiver's claim. */
  lemma OthersCoupled(meta: RequestMeta, honest: bool, w: World, v: World, q: nat, r: nat, slot: Slot)
    requires WorldOk(meta, honest, w) && SlotOk(w, q, slot) && Grows(w, v, r) && q != r && Coupled(w, slot)
    ensures Coupled(v, slot)
  {
    hide WorldOk, CopyOk;
    if slot.memory.Some? { ClaimIsOwn(meta, honest, w, q, slot.memory.value); }
    if slot.visible.Some? { ClaimIsOwn(meta, honest, w, q, slot.visible.value); }
  }

  /** The step is a power loss of receiver `q` that loses a sent claim's phase. */
  predicate Uncouples(s: System, step: SystemStep, q: nat) {
    step.ReceiverSteps? && step.r == q && q in s.receivers && LosesClaim(Local(s.world, s.receivers[q]), step.step)
  }

  lemma SystemCoupled(s: System, step: SystemStep, q: nat)
    requires Inv(s) && Next(s, step).Some? && q in s.receivers && Coupled(s.world, s.receivers[q].slot)
    ensures var t := Next(s, step).value;
            q in t.receivers && (Coupled(t.world, t.receivers[q].slot) <==> !Uncouples(s, step, q))
  {
    hide WorldOk, ReceiverOk, ReceiverNext, Grows, Coupled, Answer;
    match step
    case ReceiverSteps(r, inner) =>
      var l := Local(s.world, s.receivers[r]);
      if r == q {
        ReceiverCoupled(s.meta, s.honest, r, l, inner);
      } else {
        ReceiverKeeps(s.meta, s.honest, r, l, inner);
        SlotOf(s, q);
        OthersCoupled(s.meta, s.honest, s.world, ReceiverNext(s.meta, s.honest, r, l, inner).value.w, q, r, s.receivers[q].slot);
      }
    case Deliver(message, clock, revoked) => RelayCoupled(s.world, OpOf(s.meta, message), clock, revoked, s.receivers[q].slot);
    case RequesterCancels(clock) => RelayCoupled(s.world, Cancel(s.meta.requesterAgentId), clock, false, s.receivers[q].slot);
    case DeadlinePasses(clock) => RelayCoupled(s.world, ExpireAwaiting(s.meta.targetAgentId), clock, false, s.receivers[q].slot);
    case RetentionEnds => SameSentCoupled(s.world, s.world.(relay := None), s.receivers[q].slot);
  }

  lemma SlotOf(s: System, q: nat)
    requires Inv(s) && q in s.receivers
    ensures SlotOk(s.world, q, s.receivers[q].slot)
  {
  }

  lemma RelayCoupled(w: World, op: LifecycleOp, clock: nat, revoked: bool, slot: Slot)
    requires Coupled(w, slot)
    ensures Coupled(Answer(w, op, clock, revoked).0, slot)
  {
    hide Answer;
    AnswerSends(w, op, clock, revoked);
  }

  lemma CoupledAtStep(states: seq<System>, steps: seq<SystemStep>, i: nat, q: nat)
    requires Run(states, steps) && i < |steps| && q in states[i].receivers && Coupled(states[i].world, states[i].receivers[q].slot)
    requires !Uncouples(states[i], steps[i], q)
    ensures q in states[i + 1].receivers && Coupled(states[i + 1].world, states[i + 1].receivers[q].slot)
  {
    hide Inv, Next, Coupled;
    RunsAreSafe(states, steps, i);
    assert Next(states[i], steps[i]) == Some(states[i + 1]);
    SystemCoupled(states[i], steps[i], q);
  }

  /** A receiver stays coupled through every run in which no power loss takes the phase of a sent claim. */
  lemma {:induction false} RunsStayCoupled(states: seq<System>, steps: seq<SystemStep>, i: nat, q: nat)
    requires Run(states, steps) && i < |states| && q in states[0].receivers
    requires forall k | 0 <= k < i :: !Uncouples(states[k], steps[k], q)
    ensures q in states[i].receivers && Coupled(states[i].world, states[i].receivers[q].slot)
  {
    if i > 0 {
      hide Next, Coupled, Uncouples;
      RunsStayCoupled(states, steps, i - 1, q);
      CoupledAtStep(states, steps, i - 1, q);
    }
  }
}
