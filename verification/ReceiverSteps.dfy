/** Every step of a receiver, and every answer of the relay, keeps the invariant. */
module ReceiverSteps {
  import opened Base
  import opened Protocol
  import opened RelayRecord
  import opened Approvals
  import opened DurableFile
  import opened MutationStore
  import opened ReceiverProtocol
  import opened ReceiverInvariant

  ghost predicate LocalOk(meta: RequestMeta, honest: bool, r: nat, l: Local) {
    WorldOk(meta, honest, l.w) && ReceiverOk(meta, honest, l.w, r, l.rc)
  }

  ghost predicate StepOk(meta: RequestMeta, honest: bool, r: nat, before: Local, after: Local) {
    LocalOk(meta, honest, r, after) && Grows(before.w, after.w, r)
  }

  // --- growth that no copy can notice ---------------------------------------------------

  ghost predicate Quiet(w: World, v: World) {
    && Keeps(w, v)
    && v.crossed == w.crossed && v.journal == w.journal && v.starts == w.starts
    && (forall claim | MarkMessage(claim) in v.sent :: MarkMessage(claim) in w.sent)
  }

  lemma SlotKept(w: World, v: World, r: nat, slot: Slot)
    requires SlotOk(w, r, slot) && Quiet(w, v)
    ensures SlotOk(v, r, slot)
  {
  }

  lemma QuietExec(w: World, v: World, r: nat, slot: Slot, exec: Exec)
    requires ExecOk(w, r, slot, exec) && Quiet(w, v)
    ensures ExecOk(v, r, slot, exec)
  {
  }

  lemma QuietKept(meta: RequestMeta, honest: bool, w: World, v: World, r: nat, rc: Receiver)
    requires ReceiverOk(meta, honest, w, r, rc) && Quiet(w, v)
    ensures ReceiverOk(meta, honest, v, r, rc)
    ensures Grows(w, v, r)
  {
    hide SlotOk, FlowOk, ExecOk;
    SlotKept(w, v, r, rc.slot);
    FlowKept(w, v, r, rc.flow);
    QuietExec(w, v, r, rc.slot, rc.exec);
  }

  // --- the relay ---------------------------------------------------------------------------

  /** Which identity each lifecycle operation may write. */
  lemma TransitionIdentities(stored: StoredRequest, op: LifecycleOp, clock: nat, revoked: bool)
    requires Lifecycle(stored) && Transition(stored, op, clock, revoked).Ok?
    ensures var next := Transition(stored, op, clock, revoked).value;
            && (if op.Decide? then next.decisionID == Some(op.decisionID) && next.decision == Some(op.decision)
                else next.decisionID == stored.decisionID && next.decision == stored.decision)
            && (if op.MarkRunning? then next.claim == Some(op.claim) && next.status == Running else next.claim == stored.claim)
            && (if op.SubmitResult? then next.resultDigest == Some(ResultDigest(op.result)) && next.status == op.result.state
                else next.resultDigest == stored.resultDigest)
  {
  }

  /** An operation the relay may be asked to perform: one that was sent, or one of the requester's or the clock's. */
  predicate Asked(meta: RequestMeta, w: World, op: LifecycleOp) {
    match op
    case Decide(_, id, decision) => DecideMessage(id, decision) in w.sent
    case MarkRunning(_, claim) => MarkMessage(claim) in w.sent
    case SubmitResult(_, result) => SubmitMessage(result) in w.sent
    case _ => true
  }

  lemma AnswerKeeps(meta: RequestMeta, honest: bool, w: World, op: LifecycleOp, clock: nat, revoked: bool)
    requires WorldOk(meta, honest, w) && Asked(meta, w, op)
    ensures var answer := Answer(w, op, clock, revoked);
            && WorldOk(meta, honest, answer.0)
            && Quiet(w, answer.0)
            && (answer.1.Some? && op.Decide? ==> answer.0.decided == Some((op.decisionID, op.decision)))
            && (answer.1.Some? && op.MarkRunning? ==> answer.0.claimed == Some(op.claim))
  {
    hide BirthOk, Transition, Lifecycle, HistoryOk, WorldOk, Keeps;
    QuietIsReflexive(w);
    if w.relay.Some? && Transition(w.relay.value, op, clock, revoked).Ok? {
      RelayIsOk(meta, honest, w);
      var stored := w.relay.value;
      var next := Transition(stored, op, clock, revoked).value;
      TransitionAdvances(stored, op, clock, revoked);
      TransitionIdentities(stored, op, clock, revoked);
      ResultIsJournaled(meta, w, op, next);
      RecordReplaced(meta, honest, w, next);
      DecisionsPaired(next);
    }
  }

  lemma QuietIsReflexive(w: World)
    ensures Quiet(w, w)
  {
  }

  lemma RelayIsOk(meta: RequestMeta, honest: bool, w: World)
    requires WorldOk(meta, honest, w) && w.relay.Some?
    ensures RelayOk(meta, w) && HistoryOk(w) && Lifecycle(w.relay.value) && w.relay.value.meta == meta
  {
  }

  /** The relay's record may be replaced by one that advances it and names only what history knows. */
  lemma RecordReplaced(meta: RequestMeta, honest: bool, w: World, next: StoredRequest)
    requires WorldOk(meta, honest, w) && w.relay.Some? && Lifecycle(next) && Advances(w.relay.value, next)
    requires next.resultDigest.Some? ==>
               var result := next.resultDigest.value.result;
               result.claim in w.journal && w.journal[result.claim] == result
    requires next.decisionID.Some? && next.decision.Some? ==>
               next.decisionID.value in w.births && w.births[next.decisionID.value].record.decision == next.decision.value
    requires next.claim.Some? ==> MarkMessage(next.claim.value) in w.sent
    ensures WorldOk(meta, honest, WithRelay(w, next)) && Quiet(w, WithRelay(w, next))
  {
    hide BirthOk, Lifecycle, HistoryOk;
    var v := WithRelay(w, next);
    DecisionsPaired(w.relay.value);
    DecisionsPaired(next);
    HistoryKept(w, v);
  }

  lemma ResultIsJournaled(meta: RequestMeta, w: World, op: LifecycleOp, next: StoredRequest)
    requires w.relay.Some? && RelayOk(meta, w) && HistoryOk(w) && Asked(meta, w, op)
    requires if op.SubmitResult? then next.resultDigest == Some(ResultDigest(op.result)) else next.resultDigest == w.relay.value.resultDigest
    requires if op.Decide? then next.decisionID == Some(op.decisionID) && next.decision == Some(op.decision)
             else next.decisionID == w.relay.value.decisionID && next.decision == w.relay.value.decision
    requires if op.MarkRunning? then next.claim == Some(op.claim) else next.claim == w.relay.value.claim
    ensures next.resultDigest.Some? ==>
              var result := next.resultDigest.value.result;
              result.claim in w.journal && w.journal[result.claim] == result
    ensures next.decisionID.Some? && next.decision.Some? ==>
              next.decisionID.value in w.births && w.births[next.decisionID.value].record.decision == next.decision.value
    ensures next.claim.Some? ==> MarkMessage(next.claim.value) in w.sent
  {
  }

  /** History survives any relay answer that only writes identities which were sent. */
  lemma HistoryKept(w: World, v: World)
    requires HistoryOk(w) && Quiet(w, v) && v.sent == w.sent && v.births == w.births
    requires v.decided.Some? ==> v.decided.value.0 in v.births && v.births[v.decided.value.0].record.decision == v.decided.value.1
    requires v.claimed.Some? ==> MarkMessage(v.claimed.value) in v.sent
    ensures HistoryOk(v)
  {
  }

  lemma StartKept(w: World, v: World, start: Start)
    requires StartOk(w, start) && Keeps(w, v)
    ensures StartOk(v, start)
  {
  }

  lemma DecisionsPaired(stored: StoredRequest)
    requires Lifecycle(stored)
    ensures stored.decisionID.Some? <==> stored.decision.Some?
  {
  }

  // --- writing a slot ------------------------------------------------------------------------

  lemma WriteKeepsSlot(w: World, r: nat, slot: Slot, next: Option<MutationRecord>, outcome: WriteOutcome)
    requires SlotOk(w, r, slot)
    requires outcome in {Written, Unsynced} ==>
               StoredOk(w, r, next) && Ahead(slot.memory, next)
    ensures SlotOk(w, r, WriteSlot(slot, next, outcome))
  {
  }

  /** What every applied edit keeps, and what each one may change. */
  lemma EditedFacts(x: MutationRecord, edit: Edit, now: nat)
    requires Edited(x, edit, now).Some?
    ensures var y := Edited(x, edit, now).value;
            && SameOperation(y, x)
            && ValidRecord(y)
            && PhaseRank(x.phase) <= PhaseRank(y.phase)
            && (match edit
                case ConfirmGrant(_, _, _) => y.phase == x.phase && y.result == x.result
                case PrepareClaim(id, decision, _) =>
                  && x.decisionID == id && x.decision == decision && y.result == x.result
                  && (y.phase == x.phase || (x.phase == DecisionPrepared && y.phase == ClaimPrepared))
                case StartRuntime(claim) =>
                  x.claim == Some(claim) && x.phase == ClaimPrepared && y.phase == RuntimeStarted && y.result == x.result
                case PrepareResult(result) =>
                  && x.claim == Some(result.claim) && y.phase == ResultPrepared && y.result == Some(result)
                  && x.phase in {RuntimeStarted, ResultPrepared})
  {
  }

  /** An edit of the record in memory keeps the slot and everything in flight, whatever becomes of the write. */
  lemma EditKeepsSlot(w: World, r: nat, slot: Slot, edit: Edit, now: nat, outcome: WriteOutcome, exec: Exec)
    requires SlotOk(w, r, slot) && slot.memory.Some? && Edited(slot.memory.value, edit, now).Some?
    requires outcome in {Written, Unsynced} ==> StoredOk(w, r, Edited(slot.memory.value, edit, now))
    ensures SlotOk(w, r, WriteSlot(slot, Edited(slot.memory.value, edit, now), outcome))
    ensures ExecOk(w, r, slot, exec) ==> ExecOk(w, r, WriteSlot(slot, Edited(slot.memory.value, edit, now), outcome), exec)
  {
    hide CopyOk, Edited, PayloadMatches, Crossed;
    var x := slot.memory.value;
    EditedFacts(x, edit, now);
    WriteKeepsSlot(w, r, slot, Edited(x, edit, now), outcome);
  }

  /** A confirmed grant or a prepared claim leaves a stored record stored. */
  lemma EarlyEditStored(w: World, r: nat, x: MutationRecord, edit: Edit, now: nat)
    requires StoredOk(w, r, Some(x)) && Edited(x, edit, now).Some?
    requires edit.ConfirmGrant? || (edit.PrepareClaim? && w.decided == Some((x.decisionID, AllowOnce)))
    ensures StoredOk(w, r, Edited(x, edit, now))
  {
    hide Edited, ValidRecordWithLegacy;
    EditedFacts(x, edit, now);
  }

  // --- the machine around the receiver -----------------------------------------------------

  lemma CrashKeeps(meta: RequestMeta, honest: bool, r: nat, l: Local, step: Step)
    requires LocalOk(meta, honest, r, l) && step.Crash?
    ensures StepOk(meta, honest, r, l, MachineNext(meta, honest, l, step).value)
  {
    hide WorldOk, CopyOk;
    var next := MachineNext(meta, honest, l, step).value;
    if l.rc.slot.visible.Some? { CopyKept(l.w, next.w, r, l.rc.slot.visible.value); }
    if l.rc.slot.durable.Some? { CopyKept(l.w, next.w, r, l.rc.slot.durable.value); }
  }

  lemma MachineKeeps(meta: RequestMeta, honest: bool, r: nat, l: Local, step: Step)
    requires LocalOk(meta, honest, r, l) && MachineNext(meta, honest, l, step).Some?
    ensures StepOk(meta, honest, r, l, MachineNext(meta, honest, l, step).value)
  {
    hide WorldOk, FlowOk, CopyOk, PayloadMatches, HonestNotice, Crossed;
    match step
    case Crash(_) => CrashKeeps(meta, honest, r, l, step);
    case WriteForAnotherRequest(outcome) => WriteKeepsSlot(l.w, r, l.rc.slot, l.rc.slot.memory, outcome);
    case ForgetRecord(outcome) =>
      WriteKeepsSlot(l.w, r, l.rc.slot, None, outcome);
    case _ =>
  }

  // --- the locked flow -----------------------------------------------------------------------

  lemma MoreDraws(meta: RequestMeta, honest: bool, draws: nat, id: DecisionID, birth: Birth)
    requires BirthOk(meta, honest, draws, id, birth)
    ensures id.draw < draws && BirthOk(meta, honest, draws + 1, id, birth)
  {
  }

  lemma NewBirthKeeps(meta: RequestMeta, honest: bool, w: World, r: nat, birth: Birth)
    requires WorldOk(meta, honest, w)
    requires birth.record.decisionID == DecisionID(r, w.draws)
    requires BirthOk(meta, honest, w.draws + 1, DecisionID(r, w.draws), birth)
    ensures var v := w.(draws := w.draws + 1, births := w.births[birth.record.decisionID := birth]);
            WorldOk(meta, honest, v) && Quiet(w, v) && birth.record.decisionID !in w.births
  {
    hide Lifecycle, PayloadMatches, BirthOk;
    var id := DecisionID(r, w.draws);
    forall d | d in w.births ensures d.draw < w.draws && BirthOk(meta, honest, w.draws + 1, d, w.births[d]) {
      MoreDraws(meta, honest, w.draws, d, w.births[d]);
    }
    var v := w.(draws := w.draws + 1, births := w.births[id := birth]);
    forall message | message in v.sent ensures MessageOk(v, message) { assert MessageOk(w, message); }
    forall i | 0 <= i < |v.starts| ensures StartOk(v, v.starts[i]) { StartKept(w, v, w.starts[i]); }
  }

  /** Under an honest relay every notice binds alike, whatever its status. */
  lemma HonestBinding(meta: RequestMeta, notice: RequestNotice)
    requires HonestNotice(meta, notice)
    ensures BindingFor(notice) == BindingFor(NoticeOf(Created(meta)))
  {
  }

  lemma BirthIsOk(meta: RequestMeta, honest: bool, r: nat, l: Local, step: Step)
    requires LocalOk(meta, honest, r, l) && step.BeginDecision? && l.rc.slot.memory == None && BeginNext(r, l, step).Some?
    ensures var record := NewRecord(l.rc, r, l.w.draws, l.rc.pending.value, step.decision, step.level, step.grantId,
        step.source.Matched?);
            && ValidRecord(record)
            && BirthOk(meta, honest, l.w.draws + 1, DecisionID(r, l.w.draws), Birth(record, step.source, l.rc.pending.value))
  {
    hide ValidRecordWithLegacy, BindingFor, Justified, WorldOk, SlotOk, FlowOk, ExecOk;
    if honest {
      HonestBinding(meta, l.rc.pending.value);
    }
  }

  lemma BeginKeeps(meta: RequestMeta, honest: bool, r: nat, l: Local, step: Step)
    requires LocalOk(meta, honest, r, l) && step.BeginDecision? && BeginNext(r, l, step).Some?
    ensures StepOk(meta, honest, r, l, BeginNext(r, l, step).value)
  {
    hide WorldOk, NewRecord, SameIntent, Justified, BindingFor, BirthOk, ValidRecordWithLegacy, PayloadMatches;
    if l.rc.slot.memory == None {
      var notice := l.rc.pending.value;
      var record := NewRecord(l.rc, r, l.w.draws, notice, step.decision, step.level, step.grantId, step.source.Matched?);
      BirthIsOk(meta, honest, r, l, step);
      NewRecordId(l.rc, r, l.w.draws, notice, step.decision, step.level, step.grantId, step.source.Matched?);
      NewBirthKeeps(meta, honest, l.w, r, Birth(record, step.source, notice));
      var v := BeginNext(r, l, step).value.w;
      QuietKept(meta, honest, l.w, v, r, l.rc);
      FirstWriteKeeps(meta, honest, v, l.w, r, l.rc, record, step.now, step.outcome);
    }
  }

  lemma NewRecordId(rc: Receiver, r: nat, draw: nat, notice: RequestNotice, decision: Decision,
                    level: Option<ApprovalLevel>, grantId: Option<GrantID>, persisted: bool)
    ensures var record := NewRecord(rc, r, draw, notice, decision, level, grantId, persisted);
            record.decisionID == DecisionID(r, draw) && record.phase == DecisionPrepared
  {
  }

  /** The first write of a record whose identifiers nobody has seen. */
  lemma FirstWriteKeeps(meta: RequestMeta, honest: bool, v: World, w: World, r: nat, rc: Receiver,
          record: MutationRecord, now: nat, outcome: WriteOutcome)
    requires WorldOk(meta, honest, w) && WorldOk(meta, honest, v) && Quiet(w, v)
    requires ReceiverOk(meta, honest, w, r, rc) && ReceiverOk(meta, honest, v, r, rc) && rc.slot.memory == None
    requires record.decisionID in v.births && record.decisionID !in w.births && record.decisionID.owner == r
    requires v.births[record.decisionID].record == record && record.phase == DecisionPrepared && ValidRecord(record)
    ensures CopyOk(v, r, record)
    ensures var slot := WriteSlot(rc.slot, Some(record.(updatedAt := now)), outcome);
            SlotOk(v, r, slot) && ExecOk(v, r, slot, rc.exec)
  {
    hide ValidRecordWithLegacy, BirthOk, PayloadMatches, Lifecycle;
    var stamped := record.(updatedAt := now);
    StampKeepsValid(record, now);
    ClaimIsOwn(meta, honest, v, r, record);
    assert CopyOk(v, r, stamped);
    assert StoredOk(v, r, Some(stamped));
    WriteKeepsSlot(v, r, rc.slot, Some(stamped), outcome);
    if rc.exec.ExecFetching? {
      assert rc.exec.op.decisionID != record.decisionID;
    }
  }

  lemma SendKeeps(meta: RequestMeta, honest: bool, w: World, message: Message)
    requires WorldOk(meta, honest, w) && MessageOk(w, message) && !message.MarkMessage?
    ensures var v := w.(sent := w.sent + {message}); WorldOk(meta, honest, v) && Quiet(w, v)
  {
    hide BirthOk, Lifecycle;
    var v := w.(sent := w.sent + {message});
    forall m | m in v.sent ensures MessageOk(v, m) {
      assert MessageOk(w, m);
    }
    forall i | 0 <= i < |v.starts| ensures StartOk(v, v.starts[i]) {
      StartKept(w, v, w.starts[i]);
    }
  }

  lemma HandleKeeps(meta: RequestMeta, honest: bool, r: nat, l: Local, op: MutationRecord, denying: bool,
                    status: RequestStatus, now: nat, outcome: WriteOutcome)
    requires LocalOk(meta, honest, r, l) && l.rc.flow == Decided(op, denying, status) && (l.rc.up || l.rc.slot.memory == None)
    ensures ReceiverOk(meta, honest, l.w, r, HandleNext(l, op, denying, status, now, outcome))
  {
    hide CopyOk, Edited, WorldOk, AuthorityCurrent, NoticeCurrent, HonestNotice, ExecOk, SlotOk, ValidRecordWithLegacy, WriteSlot;
    SlotMemoryStored(l.w, r, l.rc.slot);
    var edit := PrepareClaim(op.decisionID, op.decision, op.claim);
    if !denying && status in {Accepted, Running} && op.decision == AllowOnce && l.rc.slot.memory.Some?
       && Edited(l.rc.slot.memory.value, edit, now).Some? {
      EditedFacts(l.rc.slot.memory.value, edit, now);
      EarlyEditStored(l.w, r, l.rc.slot.memory.value, edit, now);
      EditKeepsSlot(l.w, r, l.rc.slot, edit, now, outcome, l.rc.exec);
    }
  }

  lemma SlotMemoryStored(w: World, r: nat, slot: Slot)
    requires SlotOk(w, r, slot)
    ensures StoredOk(w, r, slot.memory)
  {
  }

  lemma ConfirmKeeps(meta: RequestMeta, honest: bool, r: nat, l: Local, step: Step)
    requires LocalOk(meta, honest, r, l) && l.rc.flow.Prepared? && step.ConfirmPersisted? && FlowNext(meta, r, l, step).Some?
    ensures StepOk(meta, honest, r, l, FlowNext(meta, r, l, step).value)
  {
    hide CopyOk, Edited, WorldOk, HonestNotice, ExecOk;
    var op := l.rc.flow.op;
    var edit := ConfirmGrant(op.decisionID, op.level, op.grantId);
    if l.rc.slot.memory.Some? && Edited(l.rc.slot.memory.value, edit, step.now).Some? {
      EarlyEditStored(l.w, r, l.rc.slot.memory.value, edit, step.now);
      EditKeepsSlot(l.w, r, l.rc.slot, edit, step.now, step.outcome, l.rc.exec);
    }
  }

  lemma FlowMessageKeeps(meta: RequestMeta, honest: bool, r: nat, l: Local, step: Step)
    requires LocalOk(meta, honest, r, l) && FlowNext(meta, r, l, step).Some?
    requires step.SendDecision? || step.SendResult?
    ensures StepOk(meta, honest, r, l, FlowNext(meta, r, l, step).value)
  {
    hide WorldOk, SlotOk, ExecOk, AuthorityCurrent, NoticeCurrent, HonestNotice, ValidRecordWithLegacy;
    var op := l.rc.flow.op;
    var message := if step.SendDecision? then DecideMessage(op.decisionID, op.decision) else SubmitMessage(op.result.value);
    SendKeeps(meta, honest, l.w, message);
    QuietKept(meta, honest, l.w, l.w.(sent := l.w.sent + {message}), r, l.rc);
  }

  lemma FlowReplyKeeps(meta: RequestMeta, honest: bool, r: nat, l: Local, step: Step)
    requires LocalOk(meta, honest, r, l) && FlowNext(meta, r, l, step).Some?
    requires step.DecisionReply? || step.ResultReply?
    ensures StepOk(meta, honest, r, l, FlowNext(meta, r, l, step).value)
  {
    hide WorldOk, SlotOk, ExecOk, CopyOk, HonestNotice, Answer;
    var message := if step.DecisionReply? then DecideMessage(l.rc.flow.op.decisionID, l.rc.flow.op.decision)
                   else SubmitMessage(l.rc.flow.op.result.value);
    var revoked := step.DecisionReply? && step.revoked;
    AnswerKeeps(meta, honest, l.w, OpOf(meta, message), step.clock, revoked);
    QuietKept(meta, honest, l.w, Answer(l.w, OpOf(meta, message), step.clock, revoked).0, r, l.rc);
  }

  lemma RecoverKeeps(meta: RequestMeta, honest: bool, r: nat, l: Local, step: Step)
    requires LocalOk(meta, honest, r, l) && step.Recover? && FlowNext(meta, r, l, step).Some?
    ensures StepOk(meta, honest, r, l, FlowNext(meta, r, l, step).value)
  {
    hide WorldOk, ExecOk, CopyOk, AuthorityCurrent, NoticeCurrent, HonestNotice;
  }

  lemma FlowKeeps(meta: RequestMeta, honest: bool, r: nat, l: Local, step: Step)
    requires LocalOk(meta, honest, r, l) && FlowNext(meta, r, l, step).Some?
    ensures StepOk(meta, honest, r, l, FlowNext(meta, r, l, step).value)
  {
    hide WorldOk, CopyOk, HandleNext, AuthorityCurrent, NoticeCurrent, HonestNotice, Answer, PayloadMatches,
        RecoverAction, BeginNext, UpdateMemory;
    match step
    case BeginDecision(_, _, _, _, _, _) => BeginKeeps(meta, honest, r, l, step);
    case ConfirmPersisted(_, _) => ConfirmKeeps(meta, honest, r, l, step);
    case SendDecision => FlowMessageKeeps(meta, honest, r, l, step);
    case SendResult => FlowMessageKeeps(meta, honest, r, l, step);
    case DecisionReply(_, _) => FlowReplyKeeps(meta, honest, r, l, step);
    case ResultReply(_) => FlowReplyKeeps(meta, honest, r, l, step);
    case HandleDecision(now, outcome) => HandleKeeps(meta, honest, r, l, l.rc.flow.op, l.rc.flow.denying,
        l.rc.flow.status, now, outcome);
    case Recover(_, _) => RecoverKeeps(meta, honest, r, l, step);
    case RemoveRecord(outcome) => RemoveKeeps(meta, honest, r, l, outcome);
    case _ =>
  }

  lemma RemoveKeeps(meta: RequestMeta, honest: bool, r: nat, l: Local, outcome: WriteOutcome)
    requires LocalOk(meta, honest, r, l)
    ensures ReceiverOk(meta, honest, l.w, r, Removed(l.rc, outcome))
  {
    hide WorldOk, FlowOk, CopyOk, HonestNotice, PayloadMatches, Crossed;
    WriteKeepsSlot(l.w, r, l.rc.slot, None, outcome);
  }

  // --- the executing goroutine -----------------------------------------------------------------

  lemma LoadKeeps(meta: RequestMeta, honest: bool, r: nat, l: Local)
    requires LocalOk(meta, honest, r, l) && ExecNext(meta, l, ExecLoad).Some?
    ensures StepOk(meta, honest, r, l, ExecNext(meta, l, ExecLoad).value)
  {
    hide WorldOk, FlowOk, BindingFor, HonestNotice;
    var next := ExecNext(meta, l, ExecLoad).value;
    if next.rc.exec.ExecFetching? {
      ClaimIsOwn(meta, honest, l.w, r, next.rc.exec.op);
    }
  }

  /** Two copies that carry the same claim are copies of the same operation. */
  lemma SameClaimSameOperation(meta: RequestMeta, honest: bool, w: World, r: nat, x: MutationRecord, y: MutationRecord)
    requires WorldOk(meta, honest, w) && CopyOk(w, r, x) && CopyOk(w, r, y) && x.claim.Some? && x.claim == y.claim
    ensures x.decisionID == y.decisionID && SameOperation(x, y)
  {
  }

  lemma MarkSentWorld(meta: RequestMeta, honest: bool, w: World, r: nat, op: MutationRecord)
    requires WorldOk(meta, honest, w) && CopyOk(w, r, op) && op.phase == ClaimPrepared && op.claim.Some?
    ensures var v := w.(sent := w.sent + {MarkMessage(op.claim.value)});
            WorldOk(meta, honest, v) && Grows(w, v, r)
  {
    hide BirthOk, Lifecycle, ValidRecordWithLegacy, PayloadMatches;
    ClaimIsOwn(meta, honest, w, r, op);
    var v := w.(sent := w.sent + {MarkMessage(op.claim.value)});
    forall m | m in v.sent ensures MessageOk(v, m) {
      if m != MarkMessage(op.claim.value) { assert MessageOk(w, m); }
    }
    forall i | 0 <= i < |v.starts| ensures StartOk(v, v.starts[i]) {
      StartKept(w, v, w.starts[i]);
    }
  }

  lemma FetchKeeps(meta: RequestMeta, honest: bool, r: nat, l: Local)
    requires LocalOk(meta, honest, r, l) && ExecNext(meta, l, ExecFetch).Some?
    ensures StepOk(meta, honest, r, l, ExecNext(meta, l, ExecFetch).value)
  {
    hide WorldOk, CopyOk, HonestNotice, PayloadMatches, FetchExecution, FlowOk;
    var next := ExecNext(meta, l, ExecFetch).value;
    if next.rc.exec.ExecMarking? {
      var op, v := next.rc.exec.op, next.w;
      MarkSentWorld(meta, honest, l.w, r, op);
      CopyKept(l.w, v, r, op);
      FlowKept(l.w, v, r, l.rc.flow);
      SlotCopiesKept(l.w, v, r, l.rc.slot);
    }
  }

  lemma SlotCopiesKept(w: World, v: World, r: nat, slot: Slot)
    requires SlotOk(w, r, slot) && Keeps(w, v) && v.crossed == w.crossed
    ensures StoredOk(v, r, slot.memory) && StoredOk(v, r, slot.visible) && StoredOk(v, r, slot.durable)
  {
  }

  lemma ExecReplyKeeps(meta: RequestMeta, honest: bool, r: nat, l: Local, step: Step)
    requires LocalOk(meta, honest, r, l) && ExecNext(meta, l, step).Some?
    requires step.ExecMarkReply? || step.ExecResultReply?
    ensures StepOk(meta, honest, r, l, ExecNext(meta, l, step).value)
  {
    hide WorldOk, SlotOk, FlowOk, CopyOk, HonestNotice, Answer, PayloadMatches;
    var message := if step.ExecMarkReply? then MarkMessage(l.rc.exec.op.claim.value) else SubmitMessage(l.rc.exec.op.result.value);
    AnswerKeeps(meta, honest, l.w, OpOf(meta, message), step.clock, false);
    QuietKept(meta, honest, l.w, Answer(l.w, OpOf(meta, message), step.clock, false).0, r, l.rc);
  }

  lemma ExecSendKeeps(meta: RequestMeta, honest: bool, r: nat, l: Local)
    requires LocalOk(meta, honest, r, l) && ExecNext(meta, l, ExecSendResult).Some?
    ensures StepOk(meta, honest, r, l, ExecNext(meta, l, ExecSendResult).value)
  {
    hide WorldOk, SlotOk, FlowOk, HonestNotice, ValidRecordWithLegacy, PayloadMatches;
    var message := SubmitMessage(l.rc.exec.op.result.value);
    SendKeeps(meta, honest, l.w, message);
    QuietKept(meta, honest, l.w, l.w.(sent := l.w.sent + {message}), r, l.rc);
  }

  lemma CrossWorld(meta: RequestMeta, honest: bool, w: World, r: nat, claim: ClaimID)
    requires WorldOk(meta, honest, w) && w.claimed == Some(claim) && claim.owner == r
    ensures var v := w.(crossed := w.crossed + {claim}); WorldOk(meta, honest, v) && Grows(w, v, r)
  {
    hide BirthOk, Lifecycle, PayloadMatches;
    var v := w.(crossed := w.crossed + {claim});
    forall m | m in v.sent ensures MessageOk(v, m) { assert MessageOk(w, m); }
    forall i | 0 <= i < |v.starts| ensures StartOk(v, v.starts[i]) { StartKept(w, v, w.starts[i]); }
  }

  /** The boundary record: where memory was at the claim phase, nothing had crossed, started or been journaled. */
  lemma BoundaryRecord(meta: RequestMeta, honest: bool, w: World, r: nat, op: MutationRecord, under: Option<Authority>,
                       payload: ExecutionPayload, x: MutationRecord, now: nat)
    requires WorldOk(meta, honest, w) && CopyOk(w, r, op) && Bound(op, under, payload) && w.claimed == op.claim
    requires StoredOk(w, r, Some(x)) && Edited(x, StartRuntime(op.claim.value), now).Some?
    ensures var y := Edited(x, StartRuntime(op.claim.value), now).value;
            && y.claim == op.claim && y.phase == RuntimeStarted && y.decisionID == x.decisionID
            && CopyOk(w, r, y) && Bound(y, under, payload)
            && op.claim.value !in w.crossed && op.claim.value !in w.journal && Unstarted(w, op.claim.value)
  {
    hide BirthOk, Lifecycle, Edited, ValidRecordWithLegacy, PayloadMatches;
    EditedFacts(x, StartRuntime(op.claim.value), now);
    SameClaimSameOperation(meta, honest, w, r, op, x);
    assert forall i | 0 <= i < |w.starts| :: StartOk(w, w.starts[i]);
  }

  lemma CrossKeeps(meta: RequestMeta, honest: bool, r: nat, l: Local, step: Step)
    requires LocalOk(meta, honest, r, l) && step.ExecCross? && ExecNext(meta, l, step).Some?
    ensures StepOk(meta, honest, r, l, ExecNext(meta, l, step).value)
  {
    hide WorldOk, CopyOk, HonestNotice, PayloadMatches, FlowOk, Edited, Keeps, AddsOwn;
    QuietKept(meta, honest, l.w, l.w, r, l.rc) by { QuietIsReflexive(l.w); }
    var op := l.rc.exec.op;
    var edit := StartRuntime(op.claim.value);
    if l.rc.slot.memory.Some? && Edited(l.rc.slot.memory.value, edit, step.now).Some? {
      var x := l.rc.slot.memory.value;
      var y := Edited(x, edit, step.now).value;
      BoundaryRecord(meta, honest, l.w, r, op, l.rc.exec.under, l.rc.exec.payload, x, step.now);
      if step.outcome == Written {
        var v := l.w.(crossed := l.w.crossed + {op.claim.value});
        ClaimIsOwn(meta, honest, l.w, r, op);
        CrossWorld(meta, honest, l.w, r, op.claim.value);
        CopyKept(l.w, v, r, y);
        FlowKept(l.w, v, r, l.rc.flow);
      } else {
        EditKeepsSlot(l.w, r, l.rc.slot, edit, step.now, step.outcome, l.rc.exec);
      }
    }
  }

  lemma LaunchKeeps(meta: RequestMeta, honest: bool, r: nat, l: Local)
    requires LocalOk(meta, honest, r, l) && ExecNext(meta, l, ExecLaunch).Some?
    ensures StepOk(meta, honest, r, l, ExecNext(meta, l, ExecLaunch).value)
  {
    hide BirthOk, Lifecycle, HonestNotice, PayloadMatches, ValidRecordWithLegacy, SlotOk, FlowOk;
    var v := ExecNext(meta, l, ExecLaunch).value.w;
    var op := l.rc.exec.op;
    ClaimIsOwn(meta, honest, l.w, r, op);
    LaunchWorld(meta, honest, l.w, r, op, l.rc.exec.under, l.rc.exec.payload);
    CopyKept(l.w, v, r, op);
    FlowKept(l.w, v, r, l.rc.flow);
    StartsDoNotMatter(l.w, v, r, l.rc.slot);
  }

  lemma StartsDoNotMatter(w: World, v: World, r: nat, slot: Slot)
    requires SlotOk(w, r, slot) && v == w.(starts := v.starts)
    ensures SlotOk(v, r, slot)
  {
  }

  lemma LaunchWorld(meta: RequestMeta, honest: bool, w: World, r: nat, op: MutationRecord, under: Option<Authority>,
          payload: ExecutionPayload)
    requires WorldOk(meta, honest, w) && CopyOk(w, r, op) && Bound(op, under, payload) && Crossed(w, op)
        && Unstarted(w, op.claim.value)
    ensures var v := w.(starts := w.starts + [Start(op.claim.value, payload, under)]);
            WorldOk(meta, honest, v) && Grows(w, v, r)
  {
    hide BirthOk, Lifecycle, PayloadMatches, ValidRecordWithLegacy;
    ClaimIsOwn(meta, honest, w, r, op);
    var v := w.(starts := w.starts + [Start(op.claim.value, payload, under)]);
    forall m | m in v.sent ensures MessageOk(v, m) { assert MessageOk(w, m); }
    forall i | 0 <= i < |v.starts| ensures StartOk(v, v.starts[i]) {
      if i < |w.starts| { StartKept(w, v, w.starts[i]); }
    }
  }

  lemma JournalWorld(meta: RequestMeta, honest: bool, w: World, r: nat, result: ResultPayload)
    requires WorldOk(meta, honest, w) && result.claim in w.crossed && result.claim !in w.journal && result.claim.owner == r
    requires result.state in {Completed, Failed}
    ensures var v := w.(journal := w.journal[result.claim := result]); WorldOk(meta, honest, v) && Grows(w, v, r)
  {
    hide BirthOk, Lifecycle, PayloadMatches;
    var v := w.(journal := w.journal[result.claim := result]);
    forall m | m in v.sent ensures MessageOk(v, m) { assert MessageOk(w, m); }
    forall i | 0 <= i < |v.starts| ensures StartOk(v, v.starts[i]) { StartKept(w, v, w.starts[i]); }
  }

  lemma JournalKeeps(meta: RequestMeta, honest: bool, r: nat, l: Local, step: Step)
    requires LocalOk(meta, honest, r, l) && step.ExecJournal? && ExecNext(meta, l, step).Some?
    ensures StepOk(meta, honest, r, l, ExecNext(meta, l, step).value)
  {
    hide WorldOk, CopyOk, HonestNotice, PayloadMatches, FlowOk, Edited, Keeps, AddsOwn;
    QuietKept(meta, honest, l.w, l.w, r, l.rc) by { QuietIsReflexive(l.w); }
    var op, result := l.rc.exec.op, l.rc.exec.result;
    var edit := PrepareResult(result);
    if l.rc.slot.memory.Some? && Edited(l.rc.slot.memory.value, edit, step.now).Some? {
      var x := l.rc.slot.memory.value;
      var v := ExecNext(meta, l, step).value.w;
      if step.outcome in {Written, Unsynced} {
        ClaimIsOwn(meta, honest, l.w, r, op);
        JournalWorld(meta, honest, l.w, r, result);
        FlowKept(l.w, v, r, l.rc.flow);
        JournaledRecord(l.w, v, r, x, result, step.now);
        SlotJournaled(l.w, v, r, l.rc.slot, result.claim);
      }
      EditKeepsSlot(v, r, l.rc.slot, edit, step.now, step.outcome, NoExec);
    }
  }

  lemma SlotJournaled(w: World, v: World, r: nat, slot: Slot, claim: ClaimID)
    requires SlotOk(w, r, slot) && Keeps(w, v) && v == w.(journal := v.journal)
    ensures SlotOk(v, r, slot)
  {
  }

  lemma JournaledRecord(w: World, v: World, r: nat, x: MutationRecord, result: ResultPayload, now: nat)
    requires StoredOk(w, r, Some(x)) && Keeps(w, v) && v.crossed == w.crossed
    requires result.claim in v.journal && v.journal[result.claim] == result
    requires Edited(x, PrepareResult(result), now).Some?
    ensures StoredOk(v, r, Edited(x, PrepareResult(result), now))
  {
  }

  lemma ExecKeeps(meta: RequestMeta, honest: bool, r: nat, l: Local, step: Step)
    requires LocalOk(meta, honest, r, l) && ExecNext(meta, l, step).Some?
    ensures StepOk(meta, honest, r, l, ExecNext(meta, l, step).value)
  {
    hide WorldOk, CopyOk, SlotOk, AuthorityCurrent, NoticeCurrent, HonestNotice, Answer, PayloadMatches, UpdateMemory, FlowOk;
    match step
    case ExecLoad => LoadKeeps(meta, honest, r, l);
    case ExecFetch => FetchKeeps(meta, honest, r, l);
    case ExecMarkReply(_) => ExecReplyKeeps(meta, honest, r, l, step);
    case ExecResultReply(_) => ExecReplyKeeps(meta, honest, r, l, step);
    case ExecCross(_, _) => CrossKeeps(meta, honest, r, l, step);
    case ExecLaunch => LaunchKeeps(meta, honest, r, l);
    case ExecJournal(_, _) => JournalKeeps(meta, honest, r, l, step);
    case ExecSendResult => ExecSendKeeps(meta, honest, r, l);
    case ExecRemove(outcome) => RemoveKeeps(meta, honest, r, l, outcome);
    case _ =>
  }

  lemma ReceiverKeeps(meta: RequestMeta, honest: bool, r: nat, l: Local, step: Step)
    requires LocalOk(meta, honest, r, l) && ReceiverNext(meta, honest, r, l, step).Some?
    ensures StepOk(meta, honest, r, l, ReceiverNext(meta, honest, r, l, step).value)
  {
    hide LocalOk, StepOk, MachineNext, FlowNext, ExecNext;
    if OfMachine(step) {
      MachineKeeps(meta, honest, r, l, step);
    } else if OfExec(step) {
      ExecKeeps(meta, honest, r, l, step);
    } else {
      FlowKeeps(meta, honest, r, l, step);
    }
  }

  // --- the whole system ----------------------------------------------------------------------------

  lemma QuietSystem(s: System, v: World)
    requires Inv(s) && Quiet(s.world, v) && WorldOk(s.meta, s.honest, v)
    ensures Inv(s.(world := v))
  {
    hide WorldOk, ReceiverOk, Quiet;
    forall r | r in s.receivers ensures ReceiverOk(s.meta, s.honest, v, r, s.receivers[r]) {
      QuietKept(s.meta, s.honest, s.world, v, r, s.receivers[r]);
    }
  }

  lemma RetentionKeeps(meta: RequestMeta, honest: bool, w: World)
    requires WorldOk(meta, honest, w)
    ensures WorldOk(meta, honest, w.(relay := None)) && Quiet(w, w.(relay := None))
  {
    hide BirthOk;
    HistoryKept(w, w.(relay := None));
  }

  lemma ReceiverStepKeeps(s: System, r: nat, step: Step)
    requires Inv(s) && Next(s, ReceiverSteps(r, step)).Some?
    ensures Inv(Next(s, ReceiverSteps(r, step)).value)
  {
    hide WorldOk, ReceiverOk, ReceiverNext, Grows;
    var l := Local(s.world, s.receivers[r]);
    ReceiverKeeps(s.meta, s.honest, r, l, step);
    var next := ReceiverNext(s.meta, s.honest, r, l, step).value;
    forall q | q in s.receivers && q != r ensures ReceiverOk(s.meta, s.honest, next.w, q, s.receivers[q]) {
      OthersKept(s.meta, s.honest, s.world, next.w, q, r, s.receivers[q]);
    }
  }

  lemma StepKeepsInv(s: System, step: SystemStep)
    requires Inv(s) && Next(s, step).Some?
    ensures Inv(Next(s, step).value)
  {
    hide WorldOk, ReceiverOk, Answer, Inv, Quiet;
    match step
    case ReceiverSteps(r, inner) => ReceiverStepKeeps(s, r, inner);
    case RetentionEnds =>
      InvWorld(s);
      RetentionKeeps(s.meta, s.honest, s.world);
      QuietSystem(s, s.world.(relay := None));
    case Deliver(message, clock, revoked) => AskedKeeps(s, OpOf(s.meta, message), clock, revoked);
    case RequesterCancels(clock) => AskedKeeps(s, Cancel(s.meta.requesterAgentId), clock, false);
    case DeadlinePasses(clock) => AskedKeeps(s, ExpireAwaiting(s.meta.targetAgentId), clock, false);
  }

  lemma InvWorld(s: System)
    requires Inv(s)
    ensures WorldOk(s.meta, s.honest, s.world)
  {
  }

  lemma AskedKeeps(s: System, op: LifecycleOp, clock: nat, revoked: bool)
    requires Inv(s) && Asked(s.meta, s.world, op)
    ensures Inv(s.(world := Answer(s.world, op, clock, revoked).0))
  {
    hide WorldOk, ReceiverOk, Answer, Quiet;
    AnswerKeeps(s.meta, s.honest, s.world, op, clock, revoked);
    QuietSystem(s, Answer(s.world, op, clock, revoked).0);
  }

  lemma InitialInv(s: System)
    requires Initial(s)
    ensures Inv(s)
  {
  }

  lemma RunStepKeeps(states: seq<System>, steps: seq<SystemStep>, i: nat)
    requires Run(states, steps) && i < |steps| && Inv(states[i])
    ensures Inv(states[i + 1])
  {
    hide Inv, Next;
    assert Next(states[i], steps[i]) == Some(states[i + 1]);
    StepKeepsInv(states[i], steps[i]);
  }

  /** The invariant holds in every state of every run. */
  lemma {:induction false} RunsAreSafe(states: seq<System>, steps: seq<SystemStep>, i: nat)
    requires Run(states, steps) && i < |states|
    ensures Inv(states[i])
  {
    hide Inv, Next;
    if i == 0 {
      InitialInv(states[0]);
    } else {
      RunsAreSafe(states, steps, i - 1);
      RunStepKeeps(states, steps, i - 1);
    }
  }
}
