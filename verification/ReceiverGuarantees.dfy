/**
 What the receiver protocol guarantees in every reachable state: at most one
 runtime start, relay and local records that agree, one exact result, and
 nothing run that was not approved.
 */
module ReceiverGuarantees {
  import opened Base
  import opened Protocol
  import opened RelayRecord
  import opened Approvals
  import opened DurableFile
  import opened MutationStore
  import opened ReceiverProtocol
  import opened ReceiverInvariant
  import opened ReceiverSteps
  import opened ReceiverCoupling
  import ApprovalStorage
  import Revocation

  ghost predicate Reachable(s: System) {
    exists states: seq<System>, steps: seq<SystemStep> :: Run(states, steps) && states[|steps|] == s
  }

  lemma ReachableIsSafe(s: System)
    requires Reachable(s)
    ensures Inv(s)
  {
    hide Inv;
    var states: seq<System>, steps: seq<SystemStep> :| Run(states, steps) && states[|steps|] == s;
    RunsAreSafe(states, steps, |steps|);
  }

  lemma ReachNext(s: System, step: SystemStep)
    requires Reachable(s) && Next(s, step).Some?
    ensures Reachable(Next(s, step).value)
  {
    hide Next;
    var states: seq<System>, steps: seq<SystemStep> :| Run(states, steps) && states[|steps|] == s;
    var t := Next(s, step).value;
    var longer, taken := states + [t], steps + [step];
    forall i | 0 <= i < |taken| ensures Next(longer[i], taken[i]) == Some(longer[i + 1]) {
      if i < |steps| {
        assert longer[i] == states[i] && longer[i + 1] == states[i + 1] && taken[i] == steps[i];
        assert Next(states[i], steps[i]) == Some(states[i + 1]);
      }
    }
    assert Run(longer, taken);
  }

  // --- at most once ----------------------------------------------------------------------

  /**
   However many receivers share the credential, whatever is lost, repeated,
   stale or interrupted, a request's runtime is started at most once, under
   one claim, and at most one result is ever journaled, for that same claim.
   */
  lemma RuntimeStartsAtMostOnce(s: System)
    requires Reachable(s)
    ensures |s.world.starts| <= 1
    ensures |s.world.journal| <= 1
    ensures forall start, claim | start in s.world.starts && claim in s.world.journal :: start.claim == claim
  {
    hide Reachable, Inv, HistoryOk;
    ReachableIsSafe(s);
    HistoryStands(s);
    HistoryFacts(s.world);
    DistinctClaimsDiffer(s.world.starts, s.world.claimed);
    AtMostOneKey(s.world.journal, s.world.claimed);
  }

  lemma HistoryStands(s: System)
    requires Inv(s)
    ensures HistoryOk(s.world)
  {
    hide HistoryOk, RelayOk, BirthOk, ReceiverOk;
  }

  /** Everything that started or was journaled did so under the claim the relay stored. */
  lemma HistoryFacts(w: World)
    requires HistoryOk(w)
    ensures forall i | 0 <= i < |w.starts| :: w.claimed == Some(w.starts[i].claim)
    ensures forall i, j | 0 <= i < j < |w.starts| :: w.starts[i].claim != w.starts[j].claim
    ensures forall claim | claim in w.journal :: w.claimed == Some(claim)
  {
    hide MessageOk, PayloadMatches;
    assert forall i | 0 <= i < |w.starts| :: StartOk(w, w.starts[i]);
  }

  lemma DistinctClaimsDiffer(starts: seq<Start>, claimed: Option<ClaimID>)
    requires forall i, j | 0 <= i < j < |starts| :: starts[i].claim != starts[j].claim
    ensures |starts| > 1 ==> exists i | 0 <= i < |starts| :: claimed != Some(starts[i].claim)
  {
    if |starts| > 1 {
      assert starts[0].claim != starts[1].claim;
    }
  }

  lemma AtMostOneKey<K, V>(m: map<K, V>, only: Option<K>)
    requires forall k | k in m :: only == Some(k)
    ensures |m| <= 1
  {
    if only.Some? {
      assert m.Keys <= {only.value};
      if m.Keys != {} {
        assert m.Keys == {only.value};
      }
    } else {
      assert m.Keys == {};
    }
    assert |m| == |m.Keys|;
  }

  // --- relay and local records agree ----------------------------------------------------------

  /** The copies of the record that the receiver acts on, now or after a restart. */
  predicate Holds(rc: Receiver, x: MutationRecord) {
    rc.slot.memory == Some(x) || rc.slot.visible == Some(x)
  }

  lemma RunIsReachable(states: seq<System>, steps: seq<SystemStep>, i: nat)
    requires Run(states, steps) && i < |states|
    ensures Reachable(states[i])
  {
    hide Next;
    var shorter, taken := states[..i + 1], steps[..i];
    forall k | 0 <= k < |taken| ensures Next(shorter[k], taken[k]) == Some(shorter[k + 1]) {
      assert Next(states[k], steps[k]) == Some(states[k + 1]);
    }
    assert Run(shorter, taken) && shorter[|taken|] == states[i];
  }

  /**
   Coupling. While the relay holds the request, a local claim phase means that
   the relay stores exactly this decision, and a started runtime that it holds
   exactly this claim. Conversely the relay holds a receiver's claim only once
   that receiver's record is at the claim phase, in every run in which no power
   loss of that receiver takes back the phase of a claim it has sent.
   */
  lemma LocalPhasesMatchTheRelay(states: seq<System>, steps: seq<SystemStep>, i: nat, r: nat, x: MutationRecord)
    requires Run(states, steps) && i < |states|
    requires r in states[i].receivers && Holds(states[i].receivers[r], x) && states[i].world.relay.Some?
    ensures var stored := states[i].world.relay.value;
            && (PhaseRank(x.phase) >= PhaseRank(ClaimPrepared) ==>
                  stored.decisionID == Some(x.decisionID) && stored.decision == Some(AllowOnce))
            && (PhaseRank(x.phase) >= PhaseRank(RuntimeStarted) ==>
                  stored.claim == x.claim && (stored.status == Running || Terminal(stored.status)))
            && ((forall k | 0 <= k < i :: !Uncouples(states[k], steps[k], r)) && stored.claim.Some? && stored.claim == x.claim ==>
                  PhaseRank(x.phase) >= PhaseRank(ClaimPrepared))
  {
    hide Reachable, Inv, RelayOk, HistoryOk, ReceiverOk, Next, Uncouples;
    var s := states[i];
    RunIsReachable(states, steps, i);
    SafeParts(s, r);
    RelayMirrors(s.meta, s.world);
    CopyMirrors(s, r, x);
    if forall k | 0 <= k < i :: !Uncouples(states[k], steps[k], r) {
      ReceiversStay(states, steps, i, r);
      RunsStayCoupled(states, steps, i, r);
      CoupledMirrors(s, r, x);
    }
  }

  lemma {:induction false} ReceiversStay(states: seq<System>, steps: seq<SystemStep>, i: nat, r: nat)
    requires Run(states, steps) && i < |states| && r in states[i].receivers
    ensures r in states[0].receivers
  {
    hide ReceiverNext, Answer;
    if i > 0 {
      assert Next(states[i - 1], steps[i - 1]) == Some(states[i]);
      ReceiversStay(states, steps, i - 1, r);
    }
  }

  lemma CoupledMirrors(s: System, r: nat, x: MutationRecord)
    requires HistoryOk(s.world) && r in s.receivers && Holds(s.receivers[r], x) && Coupled(s.world, s.receivers[r].slot)
    ensures s.world.claimed.Some? && s.world.claimed == x.claim ==> PhaseRank(x.phase) >= 1
  {
  }

  /** A held copy contradicts the order: the relay has its claim, it is still at the decision phase. */
  predicate OutOfOrder(s: System, r: nat, x: MutationRecord) {
    && s.world.relay.Some? && s.world.relay.value.claim.Some? && s.world.relay.value.claim == x.claim
    && r in s.receivers && Holds(s.receivers[r], x)
    && x.phase == DecisionPrepared
  }

  /**
   The condition is exact. From any reachable state in which a receiver is
   coupled, a step uncouples it if and only if it is that power loss; and the
   power loss puts the receiver out of order if and only if the relay then
   holds the claim, which the copy it brings back carries.
   */
  lemma OnlyThatPowerLossUncouples(s: System, step: SystemStep, r: nat)
    requires Reachable(s) && Next(s, step).Some? && r in s.receivers && Coupled(s.world, s.receivers[r].slot)
    ensures var t := Next(s, step).value;
            && r in t.receivers
            && (Coupled(t.world, t.receivers[r].slot) <==> !Uncouples(s, step, r))
            && ((exists x :: OutOfOrder(t, r, x)) <==>
                  Uncouples(s, step, r) && s.world.relay.Some? && s.world.relay.value.claim == s.receivers[r].slot.durable.value.claim)
  {
    hide Next, Reachable, Inv, Coupled, Uncouples, HistoryOk, RelayOk, ReceiverOk;
    ReachableIsSafe(s);
    SystemCoupled(s, step, r);
    var t := Next(s, step).value;
    ReachNext(s, step);
    SafeParts(t, r);
    if Uncouples(s, step, r) {
      PowerLossOrder(s, step, r);
    } else if exists x :: OutOfOrder(t, r, x) {
      var x :| OutOfOrder(t, r, x);
      RelayMirrors(t.meta, t.world);
      CoupledMirrors(t, r, x);
    }
  }

  lemma PowerLossOrder(s: System, step: SystemStep, r: nat)
    requires Next(s, step).Some? && Uncouples(s, step, r)
    ensures (exists x :: OutOfOrder(Next(s, step).value, r, x)) <==>
            s.world.relay.Some? && s.world.relay.value.claim == s.receivers[r].slot.durable.value.claim
  {
    var t := Next(s, step).value;
    var x := s.receivers[r].slot.durable.value;
    assert t.receivers[r].slot == Slot(None, Some(x), Some(x)) && t.world == s.world;
    assert s.world.relay.Some? && s.world.relay.value.claim == x.claim ==> OutOfOrder(t, r, x);
  }

  lemma SafeParts(s: System, r: nat)
    requires Reachable(s) && r in s.receivers
    ensures RelayOk(s.meta, s.world) && HistoryOk(s.world) && ReceiverOk(s.meta, s.honest, s.world, r, s.receivers[r])
  {
    hide Reachable, RelayOk, HistoryOk, ReceiverOk, BirthOk;
    ReachableIsSafe(s);
  }

  /** The relay's record as history sees it. */
  lemma RelayMirrors(meta: RequestMeta, w: World)
    requires RelayOk(meta, w) && w.relay.Some?
    ensures var stored := w.relay.value;
            && stored.claim == w.claimed
            && (w.decided.Some? ==> stored.decisionID == Some(w.decided.value.0) && stored.decision == Some(w.decided.value.1))
            && (w.decided.Some? ==> stored.status != AwaitingApproval)
            && (w.claimed.Some? ==> stored.status == Running || Terminal(stored.status))
            && stored.status != Preparing
  {
  }

  lemma CopyMirrors(s: System, r: nat, x: MutationRecord)
    requires r in s.receivers && ReceiverOk(s.meta, s.honest, s.world, r, s.receivers[r]) && HistoryOk(s.world)
        && Holds(s.receivers[r], x)
    ensures PhaseRank(x.phase) >= 1 ==> s.world.decided == Some((x.decisionID, AllowOnce))
    ensures PhaseRank(x.phase) >= 2 ==> s.world.claimed == x.claim && x.claim.Some?
  {
  }

  /** On the status the relay holds at that moment, recovery never meets an inconsistent phase. */
  lemma CurrentStatusIsNeverInconsistent(s: System, r: nat, current: bool, otherActive: bool)
    requires Reachable(s) && r in s.receivers && s.world.relay.Some?
    ensures RecoverAction(s.world.relay.value.status, s.receivers[r].slot.memory, current, otherActive) != Inconsistent
  {
    hide Reachable, Inv, RelayOk, HistoryOk, ReceiverOk;
    SafeParts(s, r);
    RelayMirrors(s.meta, s.world);
    if s.receivers[r].slot.memory.Some? {
      CopyMirrors(s, r, s.receivers[r].slot.memory.value);
    }
  }

  // --- single steps, written out ------------------------------------------------------------

  lemma RecoverStep(meta: RequestMeta, honest: bool, r: nat, l: Local, status: RequestStatus)
    requires l.rc.up && l.rc.flow == Idle
    ensures var current := l.rc.slot.memory.Some? && AuthorityCurrent(l.rc, l.rc.slot.memory.value)
        && NoticeCurrent(l.rc, l.rc.slot.memory.value);
            ReceiverNext(meta, honest, r, l, Recover(status, false)) ==
            Some(l.(rc := l.rc.(flow := FlowFor(RecoverAction(status, l.rc.slot.memory, current, false), status))))
  {
    hide BeginNext, HandleNext, UpdateMemory, RecoverAction, FlowFor, AuthorityCurrent, NoticeCurrent;
  }

  lemma StartStep(meta: RequestMeta, honest: bool, r: nat, l: Local)
    requires l.rc.flow.Starting? && MayStart(l.rc, l.rc.flow.status)
    ensures ReceiverNext(meta, honest, r, l, StartExecution) == Some(l.(rc := l.rc.(flow := Idle, exec := ExecBegun)))
  {
    hide BeginNext, HandleNext, UpdateMemory, MayStart;
  }

  lemma LoadStep(meta: RequestMeta, honest: bool, r: nat, l: Local)
    requires l.rc.exec == ExecBegun && l.rc.slot.memory.Some?
    ensures var op := l.rc.slot.memory.value;
            && (op.phase == ResultPrepared ==>
                  ReceiverNext(meta, honest, r, l, ExecLoad) == Some(l.(rc := l.rc.(exec := ExecReplaying(op)))))
            && (op.phase == ClaimPrepared && op.claim.Some? && AuthorityCurrent(l.rc, op) && NoticeCurrent(l.rc, op) ==>
                  ReceiverNext(meta, honest, r, l, ExecLoad) == Some(l.(rc := l.rc.(exec := ExecFetching(op, l.rc.authority)))))
  {
    hide UpdateMemory, AuthorityCurrent, NoticeCurrent;
  }

  lemma FetchStep(meta: RequestMeta, honest: bool, r: nat, l: Local, payload: ExecutionPayload)
    requires l.rc.exec.ExecFetching? && l.w.relay.Some? && l.rc.exec.op.claim.Some? && l.rc.exec.op.approvedNotice.Some?
    requires FetchExecution(l.w.relay.value, meta.targetAgentId) == Ok(payload)
        && PayloadMatches(l.rc.exec.op.approvedNotice.value, payload)
    ensures ReceiverNext(meta, honest, r, l, ExecFetch) ==
            Some(Local(l.w.(sent := l.w.sent + {MarkMessage(l.rc.exec.op.claim.value)}),
                       l.rc.(exec := ExecMarking(l.rc.exec.op, l.rc.exec.under, payload))))
  {
    hide UpdateMemory, PayloadMatches, FetchExecution;
  }

  lemma MarkStep(meta: RequestMeta, honest: bool, r: nat, l: Local, w: World)
    requires l.rc.exec.ExecMarking? && l.rc.exec.op.claim.Some?
    requires Answer(l.w, OpOf(meta, MarkMessage(l.rc.exec.op.claim.value)), 0, false) == (w, Some(Running))
    ensures ReceiverNext(meta, honest, r, l, ExecMarkReply(0)) ==
            Some(Local(w, l.rc.(exec := ExecMarked(l.rc.exec.op, l.rc.exec.under, l.rc.exec.payload))))
  {
    hide UpdateMemory, Answer;
  }

  predicate HasResult(op: MutationRecord) {
    op.phase == ResultPrepared && op.result.Some? && Some(op.result.value.claim) == op.claim
  }

  lemma ExecSubmitSteps(meta: RequestMeta, honest: bool, r: nat, l: Local, clock: nat)
    ensures l.rc.exec.ExecReplaying? && HasResult(l.rc.exec.op) ==>
              ReceiverNext(meta, honest, r, l, ExecSendResult) ==
              Some(Local(l.w.(sent := l.w.sent + {SubmitMessage(l.rc.exec.op.result.value)}),
                  l.rc.(exec := ExecSubmitting(l.rc.exec.op))))
    ensures l.rc.exec.ExecSubmitting? && l.rc.exec.op.result.Some? ==>
              var result := l.rc.exec.op.result.value;
              var answer := Answer(l.w, OpOf(meta, SubmitMessage(result)), clock, false);
              ReceiverNext(meta, honest, r, l, ExecResultReply(clock)) ==
              Some(Local(answer.0, l.rc.(exec := if answer.1 == Some(result.state) then ExecRemoving else NoExec)))
    ensures l.rc.exec == ExecRemoving ==>
              ReceiverNext(meta, honest, r, l, ExecRemove(Written)) == Some(l.(rc := Removed(l.rc, Written).(exec := NoExec)))
    ensures l.rc.exec == NoExec ==> ReceiverNext(meta, honest, r, l, ExecRemove(Written)) == None
  {
    hide UpdateMemory, Answer, Removed;
  }

  lemma FlowSubmitSteps(meta: RequestMeta, honest: bool, r: nat, l: Local, clock: nat)
    ensures l.rc.flow.Replaying? && HasResult(l.rc.flow.op) ==>
              ReceiverNext(meta, honest, r, l, SendResult) ==
              Some(Local(l.w.(sent := l.w.sent + {SubmitMessage(l.rc.flow.op.result.value)}),
                  l.rc.(flow := Submitting(l.rc.flow.op))))
    ensures l.rc.flow.Submitting? && l.rc.flow.op.result.Some? ==>
              var result := l.rc.flow.op.result.value;
              var answer := Answer(l.w, OpOf(meta, SubmitMessage(result)), clock, false);
              ReceiverNext(meta, honest, r, l, ResultReply(clock)) ==
              Some(Local(answer.0, l.rc.(flow := if answer.1 == Some(result.state) then Removing else Idle)))
    ensures l.rc.flow == Removing ==>
              && ReceiverNext(meta, honest, r, l, RemoveRecord(Written)) == Some(l.(rc := Removed(l.rc, Written).(flow := Idle)))
              && ReceiverNext(meta, honest, r, l, SendResult) == None
              && ReceiverNext(meta, honest, r, l, ResultReply(clock)) == None
  {
    hide BeginNext, HandleNext, UpdateMemory, Answer, Removed;
  }

  lemma DecisionSteps(meta: RequestMeta, honest: bool, r: nat, l: Local)
    ensures l.rc.flow.Prepared? && AuthorityCurrent(l.rc, l.rc.flow.op) && NoticeCurrent(l.rc, l.rc.flow.op) ==>
              ReceiverNext(meta, honest, r, l, SendDecision) ==
              Some(Local(l.w.(sent := l.w.sent + {DecideMessage(l.rc.flow.op.decisionID, l.rc.flow.op.decision)}),
                         l.rc.(flow := Deciding(l.rc.flow.op, l.rc.flow.denying))))
    ensures l.rc.flow.Deciding? ==>
              var answer := Answer(l.w, OpOf(meta, DecideMessage(l.rc.flow.op.decisionID, l.rc.flow.op.decision)), 0, false);
              ReceiverNext(meta, honest, r, l, DecisionReply(0, false)) ==
              Some(Local(answer.0, l.rc.(flow := if answer.1 == None then Idle else Decided(l.rc.flow.op,
                  l.rc.flow.denying, answer.1.value))))
    ensures l.rc.flow.Decided? ==>
              ReceiverNext(meta, honest, r, l, HandleDecision(0, Unsynced)) ==
              Some(l.(rc := HandleNext(l, l.rc.flow.op, l.rc.flow.denying, l.rc.flow.status, 0, Unsynced)))
  {
    hide BeginNext, HandleNext, UpdateMemory, Answer, AuthorityCurrent, NoticeCurrent;
  }

  // --- what a revert can do -----------------------------------------------------------------

  function At(meta: RequestMeta, l: Local): System {
    System(meta, true, l.w, map[0 := l.rc])
  }

  lemma Take(meta: RequestMeta, l: Local, step: Step, next: Local)
    requires Reachable(At(meta, l)) && ReceiverNext(meta, true, 0, l, step) == Some(next)
    ensures Reachable(At(meta, next))
  {
    hide ReceiverNext, Reachable;
    assert Next(At(meta, l), ReceiverSteps(0, step)) == Some(At(meta, next)) by {
      assert At(meta, l).receivers[0 := next.rc] == At(meta, next).receivers;
    }
    ReachNext(At(meta, l), ReceiverSteps(0, step));
  }

  function OwnNotice(meta: RequestMeta): RequestNotice {
    NoticeOf(Created(meta))
  }

  /** The allow-once record of receiver 0's first decision about this request. */
  function FirstRecord(meta: RequestMeta, authority: Authority): MutationRecord {
    MutationRecord(meta.requestId, meta.conversationId, DecisionID(0, 0), AllowOnce, Some(AskAlways), None, false,
                   Some(authority), BindingFor(OwnNotice(meta)), Some(ClaimID(0, 0)), DecisionPrepared, None, 0)
  }

  function AcceptedBy(meta: RequestMeta): StoredRequest {
    Created(meta).(decisionID := Some(DecisionID(0, 0)), decision := Some(AllowOnce), status := Accepted, version := 2,
        updatedAt := 0)
  }

  /** The relay has accepted; the claim phase was renamed into place but its directory was not synced. */
  function AcceptedUnsynced(meta: RequestMeta, authority: Authority): Local {
    var x := FirstRecord(meta, authority);
    Local(World(Some(AcceptedBy(meta)), {DecideMessage(x.decisionID, AllowOnce)}, 1,
                map[x.decisionID := Birth(x, Human, OwnNotice(meta))], Some((x.decisionID, AllowOnce)), None, {}, map[], []),
          Receiver(true, Slot(Some(x), Some(x.(phase := ClaimPrepared)), Some(x)), Some(OwnNotice(meta)),
              Some(authority), Idle, NoExec))
  }

  lemma BootRun(meta: RequestMeta, authority: Authority, w: World)
    requires meta.requestId != "" && w == World(Some(Created(meta)), {}, 0, map[], None, None, {}, map[], [])
    ensures Reachable(At(meta, Local(w, Receiver(true, Slot(None, None, None), Some(OwnNotice(meta)), Some(authority),
        Idle, NoExec))))
  {
    hide Reachable, NormalizeAuthority;
    var l0 := Local(w, Fresh);
    StartsReachable(meta, l0);
    var l1 := l0.(rc := Fresh.(pending := Some(OwnNotice(meta))));
    Take(meta, l0, SetPending(Some(OwnNotice(meta))), l1);
    Take(meta, l1, Boot(Some(authority)), l1.(rc := l1.rc.(up := true, authority := Some(authority))));
  }

  lemma DecideAnswer(meta: RequestMeta, w: World)
    requires w.relay == Some(Created(meta)) && 0 < meta.expiresAt
    ensures Answer(w, OpOf(meta, DecideMessage(DecisionID(0, 0), AllowOnce)), 0, false) ==
            (w.(relay := Some(AcceptedBy(meta)), decided := Some((DecisionID(0, 0), AllowOnce))), Some(Accepted))
  {
  }

  lemma FirstIsHandled(meta: RequestMeta, authority: Authority, l: Local)
    requires meta.requestId != "" && NormalizeAuthority(authority) == Some(authority)
    requires var x := FirstRecord(meta, authority);
             l.rc == Receiver(true, Slot(Some(x), Some(x), Some(x)), Some(OwnNotice(meta)), Some(authority), Decided(x,
                 false, Accepted), NoExec)
    ensures HandleNext(l, l.rc.flow.op, false, Accepted, 0, Unsynced) == AcceptedUnsynced(meta, authority).rc
  {
    hide NormalizeAuthority;
  }

  lemma DecisionRun(meta: RequestMeta, authority: Authority)
    requires meta.requestId != "" && 0 < meta.expiresAt && NormalizeAuthority(authority) == Some(authority)
    ensures Reachable(At(meta, AcceptedUnsynced(meta, authority)))
  {
    hide Reachable, NormalizeAuthority, BindingFor, ReceiverNext, Answer;
    var x, notice := FirstRecord(meta, authority), OwnNotice(meta);
    FirstIsBound(meta);
    var w0 := World(Some(Created(meta)), {}, 0, map[], None, None, {}, map[], []);
    var l2 := Local(w0, Receiver(true, Slot(None, None, None), Some(notice), Some(authority), Idle, NoExec));
    BootRun(meta, authority, w0);
    DecisionIsWritten(meta, authority, l2);
    var w3 := w0.(draws := 1, births := map[x.decisionID := Birth(x, Human, notice)]);
    var l3 := Local(w3, l2.rc.(slot := Slot(Some(x), Some(x), Some(x)), flow := Prepared(x, false, false)));
    var l4 := Local(w3.(sent := {DecideMessage(x.decisionID, AllowOnce)}), l3.rc.(flow := Deciding(x, false)));
    assert l3.w.sent + {DecideMessage(x.decisionID, AllowOnce)} == l4.w.sent;
    DecisionSteps(meta, true, 0, l3);
    Take(meta, l3, SendDecision, l4);
    var l5 := Local(l4.w.(relay := Some(AcceptedBy(meta)), decided := Some((x.decisionID, AllowOnce))),
                    l4.rc.(flow := Decided(x, false, Accepted)));
    DecideAnswer(meta, l4.w);
    DecisionSteps(meta, true, 0, l4);
    Take(meta, l4, DecisionReply(0, false), l5);
    DecisionSteps(meta, true, 0, l5);
    FirstIsHandled(meta, authority, l5);
    Take(meta, l5, HandleDecision(0, Unsynced), AcceptedUnsynced(meta, authority));
  }

  lemma StartsReachable(meta: RequestMeta, l: Local)
    requires meta.requestId != "" && l == Local(World(Some(Created(meta)), {}, 0, map[], None, None, {}, map[], []), Fresh)
    ensures Reachable(At(meta, l))
  {
    var states, steps: seq<SystemStep> := [At(meta, l)], [];
    assert Run(states, steps) && states[|steps|] == At(meta, l);
  }

  lemma DecisionIsWritten(meta: RequestMeta, authority: Authority, l: Local)
    requires meta.requestId != "" && NormalizeAuthority(authority) == Some(authority)
    requires Reachable(At(meta, l)) && l.rc.up && l.rc.pending == Some(OwnNotice(meta)) && l.rc.authority == Some(authority)
    requires l.rc.slot.memory == None && l.rc.flow == Idle && l.w.draws == 0 && l.w.births == map[]
    ensures var x := FirstRecord(meta, authority);
            Reachable(At(meta, Local(l.w.(draws := 1, births := map[x.decisionID := Birth(x, Human, OwnNotice(meta))]),
                                     l.rc.(slot := Slot(Some(x), Some(x), Some(x)), flow := Prepared(x, false, false)))))
  {
    hide Reachable, NormalizeAuthority, At;
    var x := FirstRecord(meta, authority);
    var next := Local(l.w.(draws := 1, births := map[x.decisionID := Birth(x, Human, OwnNotice(meta))]),
                      l.rc.(slot := Slot(Some(x), Some(x), Some(x)), flow := Prepared(x, false, false)));
    Take(meta, l, BeginDecision(AllowOnce, Some(AskAlways), None, Human, 0, Written), next);
  }

  function MarkedBy(meta: RequestMeta): StoredRequest {
    AcceptedBy(meta).(claim := Some(ClaimID(0, 0)), status := Running, version := 3)
  }

  function OwnPayload(meta: RequestMeta): ExecutionPayload {
    FetchExecution(AcceptedBy(meta), meta.targetAgentId).value
  }

  /** The relay runs the request under the receiver's claim, and the receiver has been told so. */
  function Marked(meta: RequestMeta, authority: Authority): Local {
    var x, l := FirstRecord(meta, authority), AcceptedUnsynced(meta, authority);
    var y := x.(phase := ClaimPrepared);
    Local(l.w.(sent := l.w.sent + {MarkMessage(ClaimID(0, 0))}, relay := Some(MarkedBy(meta)), claimed := Some(ClaimID(0, 0))),
          Receiver(true, Slot(Some(y), Some(y), Some(x)), l.rc.pending, Some(authority), Idle,
                   ExecMarked(y, Some(authority), OwnPayload(meta))))
  }

  /** After a restart that found the claim phase: the goroutine that will execute the request. */
  function Restarted(meta: RequestMeta, authority: Authority): Local {
    var x, l := FirstRecord(meta, authority), AcceptedUnsynced(meta, authority);
    var y := x.(phase := ClaimPrepared);
    l.(rc := Receiver(true, Slot(Some(y), Some(y), Some(x)), l.rc.pending, Some(authority), Idle, ExecBegun))
  }

  lemma RestartRun(meta: RequestMeta, authority: Authority)
    requires meta.requestId != "" && 0 < meta.expiresAt && NormalizeAuthority(authority) == Some(authority)
    ensures Reachable(At(meta, Restarted(meta, authority)))
  {
    hide Reachable, NormalizeAuthority, BindingFor;
    DecisionRun(meta, authority);
    var l0, l4 := AcceptedUnsynced(meta, authority), Restarted(meta, authority);
    var l1 := l0.(rc := Receiver(false, Slot(None, l0.rc.slot.visible, l0.rc.slot.durable), l0.rc.pending, None, Idle, NoExec));
    Take(meta, l0, Crash(false), l1);
    var l2 := l4.(rc := l4.rc.(exec := NoExec));
    Take(meta, l1, Boot(Some(authority)), l2);
    var l3 := l2.(rc := l2.rc.(flow := Starting(Accepted)));
    FirstIsBound(meta);
    hide ReceiverNext;
    RecoverStep(meta, true, 0, l2, Accepted);
    Take(meta, l2, Recover(Accepted, false), l3);
    StartStep(meta, true, 0, l3);
    Take(meta, l3, StartExecution, l4);
  }

  lemma FirstIsBound(meta: RequestMeta)
    requires meta.requestId != ""
    ensures BindingFor(OwnNotice(meta)).Some?
  {
  }

  lemma MarkAnswer(meta: RequestMeta, w: World)
    requires w.relay == Some(AcceptedBy(meta)) && w.decided == Some((DecisionID(0, 0), AllowOnce))
    ensures Answer(w, OpOf(meta, MarkMessage(ClaimID(0, 0))), 0, false) ==
            (w.(relay := Some(MarkedBy(meta)), claimed := Some(ClaimID(0, 0))), Some(Running))
  {
  }

  lemma ClaimRun(meta: RequestMeta, authority: Authority)
    requires meta.requestId != "" && 0 < meta.expiresAt && NormalizeAuthority(authority) == Some(authority)
    ensures Reachable(At(meta, Marked(meta, authority)))
  {
    hide Reachable, NormalizeAuthority, BindingFor, ReceiverNext, PayloadMatches, Answer;
    RestartRun(meta, authority);
    FirstIsBound(meta);
    var l4 := Restarted(meta, authority);
    var y := l4.rc.slot.memory.value;
    var l5 := l4.(rc := l4.rc.(exec := ExecFetching(y, Some(authority))));
    LoadStep(meta, true, 0, l4);
    Take(meta, l4, ExecLoad, l5);
    var l6 := Local(l5.w.(sent := l5.w.sent + {MarkMessage(ClaimID(0, 0))}), l5.rc.(exec := ExecMarking(y,
        Some(authority), OwnPayload(meta))));
    PayloadIsOwn(AcceptedBy(meta));
    FetchStep(meta, true, 0, l5, OwnPayload(meta));
    Take(meta, l5, ExecFetch, l6);
    MarkAnswer(meta, l6.w);
    MarkStep(meta, true, 0, l6, Marked(meta, authority).w);
    Take(meta, l6, ExecMarkReply(0), Marked(meta, authority));
  }

  /**
   Such a power loss can happen, for every request: a claim phase that was
   renamed but never synced survives a restart of the process, its claim
   reaches the relay, and a power loss then takes the claim phase away again.
   */
  lemma ClaimCanOutliveItsPhase(meta: RequestMeta, authority: Authority)
    requires meta.requestId != "" && 0 < meta.expiresAt && NormalizeAuthority(authority) == Some(authority)
    ensures exists s: System, x: MutationRecord ::
              Reachable(s) && s.meta == meta && OutOfOrder(s, 0, x)
  {
    hide Reachable, NormalizeAuthority;
    ClaimRun(meta, authority);
    var x, l := FirstRecord(meta, authority), Marked(meta, authority);
    var cut := Local(l.w, Receiver(false, Slot(None, Some(x), Some(x)), l.rc.pending, None, Idle, NoExec));
    Take(meta, l, Crash(true), cut);
    assert OutOfOrder(At(meta, cut), 0, x);
  }

  // --- a run that completes ---------------------------------------------------------------------

  /** The runtime has run once and its result is on disk. */
  function Journaled(meta: RequestMeta, authority: Authority, result: ResultPayload): Local {
    var l := Marked(meta, authority);
    var v := FirstRecord(meta, authority).(phase := ResultPrepared, result := Some(result));
    Local(l.w.(crossed := {ClaimID(0, 0)}, starts := [Start(ClaimID(0, 0), OwnPayload(meta), Some(authority))],
               journal := map[ClaimID(0, 0) := result]),
          l.rc.(slot := Slot(Some(v), Some(v), Some(v)), exec := ExecReplaying(v)))
  }

  lemma FirstRecordIsValid(meta: RequestMeta, authority: Authority, result: ResultPayload)
    requires meta.requestId != "" && NormalizeAuthority(authority) == Some(authority)
    requires result.claim == ClaimID(0, 0) && result.state == Completed
    ensures var x := FirstRecord(meta, authority);
            ValidRecord(x.(phase := RuntimeStarted)) && ValidRecord(x.(phase := ResultPrepared, result := Some(result)))
  {
  }

  lemma CrossAndLaunch(meta: RequestMeta, l: Local, y: MutationRecord, z: MutationRecord, c: ClaimID,
          under: Option<Authority>, payload: ExecutionPayload)
    requires Reachable(At(meta, l)) && l.rc.exec == ExecMarked(y, under, payload) && l.rc.slot.memory == Some(y)
    requires y.claim == Some(c) && y.phase == ClaimPrepared && y.updatedAt == 0
    requires z == y.(phase := RuntimeStarted) && ValidRecord(z)
    ensures Reachable(At(meta, Local(l.w.(crossed := l.w.crossed + {c}, starts := l.w.starts + [Start(c, payload, under)]),
                                     l.rc.(slot := Slot(Some(z), Some(z), Some(z)), exec := ExecRunning(z)))))
  {
    hide Reachable, At, ValidRecordWithLegacy;
    var l1 := Local(l.w.(crossed := l.w.crossed + {c}), l.rc.(slot := Slot(Some(z), Some(z), Some(z)),
        exec := ExecCrossed(z, under, payload)));
    Take(meta, l, ExecCross(0, Written), l1);
    Take(meta, l1, ExecLaunch, Local(l1.w.(starts := l1.w.starts + [Start(c, payload, under)]), l1.rc.(exec := ExecRunning(z))));
  }

  lemma FinishAndJournal(meta: RequestMeta, l: Local, z: MutationRecord, v: MutationRecord, result: ResultPayload)
    requires Reachable(At(meta, l)) && l.rc.exec == ExecRunning(z) && l.rc.slot.memory == Some(z)
    requires z.claim == Some(result.claim) && z.phase == RuntimeStarted && z.updatedAt == 0 && result.state == Completed
    requires v == z.(phase := ResultPrepared, result := Some(result)) && ValidRecord(v)
    ensures Reachable(At(meta, Local(l.w.(journal := l.w.journal[result.claim := result]),
                                     l.rc.(slot := Slot(Some(v), Some(v), Some(v)), exec := ExecReplaying(v)))))
  {
    hide Reachable, At, ValidRecordWithLegacy;
    var l1 := l.(rc := l.rc.(exec := ExecJournaling(z, result)));
    Take(meta, l, ExecFinish(result), l1);
    Take(meta, l1, ExecJournal(0, Written), Local(l.w.(journal := l.w.journal[result.claim := result]),
                                                  l.rc.(slot := Slot(Some(v), Some(v), Some(v)), exec := ExecReplaying(v))));
  }

  lemma ResultRun(meta: RequestMeta, authority: Authority, result: ResultPayload)
    requires meta.requestId != "" && 0 < meta.expiresAt && NormalizeAuthority(authority) == Some(authority)
    requires result.claim == ClaimID(0, 0) && result.state == Completed
    ensures Reachable(At(meta, Journaled(meta, authority, result)))
  {
    hide Reachable, At, NormalizeAuthority, ValidRecordWithLegacy, BindingFor, FetchExecution, Answer, ReceiverNext;
    ClaimRun(meta, authority);
    FirstRecordIsValid(meta, authority, result);
    var l, c, payload := Marked(meta, authority), ClaimID(0, 0), OwnPayload(meta);
    var z := FirstRecord(meta, authority).(phase := RuntimeStarted);
    CrossAndLaunch(meta, l, l.rc.exec.op, z, c, Some(authority), payload);
    var running := Local(l.w.(crossed := l.w.crossed + {c}, starts := l.w.starts + [Start(c, payload, Some(authority))]),
                         l.rc.(slot := Slot(Some(z), Some(z), Some(z)), exec := ExecRunning(z)));
    FinishAndJournal(meta, running, z, z.(phase := ResultPrepared, result := Some(result)), result);
    assert running.w.crossed == {c} && running.w.starts == [Start(c, payload, Some(authority))];
  }

  /**
   The guarantees are not empty: for every request and every result the relay
   accepts there is a run, a restart in its middle included, that starts the
   runtime, completes the request with that result, and leaves no record.
   */
  lemma SomeRunCompletes(meta: RequestMeta, authority: Authority, result: ResultPayload)
    requires meta.requestId != "" && 0 < meta.expiresAt && NormalizeAuthority(authority) == Some(authority)
    requires result.claim == ClaimID(0, 0) && result.state == Completed && ResultFieldsAccepted(result)
        && ArtifactsAccepted(result.files)
    ensures exists s: System ::
              && Reachable(s) && s.meta == meta && 0 in s.receivers
              && s.world.starts == [Start(result.claim, OwnPayload(meta), Some(authority))]
              && s.world.relay.Some? && PublishedResult(s.world.relay.value, result)
              && s.receivers[0].slot == Slot(None, None, None)
  {
    hide Reachable, At, NormalizeAuthority, ResultFieldsAccepted, ArtifactsAccepted, PublishedResult, Answer, BindingFor,
        FetchExecution, ReceiverNext;
    ResultRun(meta, authority, result);
    var l4 := Journaled(meta, authority, result);
    var v := l4.rc.slot.memory.value;
    var l5 := Local(l4.w.(sent := l4.w.sent + {SubmitMessage(result)}), l4.rc.(exec := ExecSubmitting(v)));
    ExecSubmitSteps(meta, true, 0, l4, 0);
    Take(meta, l4, ExecSendResult, l5);
    var answer := Answer(l5.w, OpOf(meta, SubmitMessage(result)), 0, false);
    SubmitAnswer(meta, l5.w, result, 0);
    AnswerKeepsStarts(l5.w, OpOf(meta, SubmitMessage(result)), 0, false);
    var l6 := Local(answer.0, l5.rc.(exec := ExecRemoving));
    ExecSubmitSteps(meta, true, 0, l5, 0);
    Take(meta, l5, ExecResultReply(0), l6);
    var l7 := Local(answer.0, l6.rc.(slot := Slot(None, None, None), exec := NoExec));
    ExecSubmitSteps(meta, true, 0, l6, 0);
    Take(meta, l6, ExecRemove(Written), l7);
    ReceiverAt(meta, l7);
  }

  lemma ReceiverAt(meta: RequestMeta, l: Local)
    ensures var s := At(meta, l); s.meta == meta && s.world == l.w && 0 in s.receivers && s.receivers[0] == l.rc
  {
  }

  lemma AnswerKeepsStarts(w: World, op: LifecycleOp, clock: nat, revoked: bool)
    ensures Answer(w, op, clock, revoked).0.starts == w.starts
  {
  }

  // --- the exact result ------------------------------------------------------------------------

  /**
   A completed or failed request stores the one result that was journaled
   before it was sent, and a later copy of that message is acknowledged and
   changes nothing.
   */
  lemma StoredResultIsTheJournaledOne(s: System)
    requires Reachable(s) && s.world.relay.Some? && s.world.relay.value.status in {Completed, Failed}
    ensures var stored := s.world.relay.value;
            && stored.claim.Some?
            && s.world.journal.Keys == {stored.claim.value}
            && var result := s.world.journal[stored.claim.value];
               && PublishedResult(stored, result)
               && (forall clock: nat, revoked: bool ::
                     Answer(s.world, OpOf(s.meta, SubmitMessage(result)), clock, revoked) == (s.world, Some(result.state)))
  {
    hide Reachable, BirthOk, ReceiverOk, Answer, PublishedResult, HistoryOk, RelayOk, WorldOk;
    ReachableIsSafe(s);
    RelayIsOk(s.meta, s.honest, s.world);
    JournaledResult(s.meta, s.world);
    var result := s.world.journal[s.world.relay.value.claim.value];
    forall clock: nat, revoked: bool
      ensures Answer(s.world, OpOf(s.meta, SubmitMessage(result)), clock, revoked) == (s.world, Some(result.state))
    {
      RelayMirrors(s.meta, s.world);
      PublishedIsReplayed(s.meta, s.world, result, clock, revoked);
    }
  }

  lemma JournaledResult(meta: RequestMeta, w: World)
    requires RelayOk(meta, w) && HistoryOk(w) && w.relay.Some? && w.relay.value.status in {Completed, Failed}
    ensures var claim := w.relay.value.claim;
            claim.Some? && w.journal.Keys == {claim.value} && PublishedResult(w.relay.value, w.journal[claim.value])
  {
  }

  lemma PublishedIsReplayed(meta: RequestMeta, w: World, result: ResultPayload, clock: nat, revoked: bool)
    requires w.relay.Some? && w.relay.value.meta == meta && PublishedResult(w.relay.value, result)
    requires w.decided == (if w.relay.value.decisionID.Some?
        && w.relay.value.decision.Some? then Some((w.relay.value.decisionID.value, w.relay.value.decision.value)) else w.decided)
    requires w.claimed == (if w.relay.value.claim.Some? then w.relay.value.claim else w.claimed)
    ensures Answer(w, OpOf(meta, SubmitMessage(result)), clock, revoked) == (w, Some(result.state))
  {
  }

  // --- a reconcile that meets no fault ---------------------------------------------------------

  /** Performs steps in order; one that is not enabled is passed over. */
  function Perform(meta: RequestMeta, honest: bool, r: nat, l: Local, steps: seq<Step>): Local
    decreases |steps|
  {
    if steps == [] then l
    else
      match ReceiverNext(meta, honest, r, l, steps[0])
      case Some(next) => Perform(meta, honest, r, next, steps[1..])
      case None => Perform(meta, honest, r, l, steps[1..])
  }

  /** What reconciliation does about one record when every reply arrives and every write succeeds. */
  function ReconcileSteps(w: World, clock: nat): seq<Step> {
    if w.relay == None then [ForgetRecord(Written)]
    else if w.relay.value.status == Running then
      [Recover(Running, false), StartExecution, ExecLoad, ExecSendResult, ExecResultReply(clock), ExecRemove(Written)]
    else [Recover(w.relay.value.status, false), SendResult, ResultReply(clock), RemoveRecord(Written)]
  }

  /** A receiver between two pieces of work that holds a prepared result. */
  predicate HoldsResult(rc: Receiver) {
    rc.up && rc.flow == Idle && rc.exec == NoExec && rc.slot.memory.Some?
        && rc.slot.memory.value.phase == ResultPrepared && rc.slot.memory.value.result.Some?
  }

  /**
   One fault-free reconcile discharges a prepared result exactly when the
   relay no longer holds the request, has already ended it, or accepts the
   result's fields and files; a result that fails those checks changes nothing.
   */
  lemma ReconcileDischargesResults(s: System, r: nat, clock: nat)
    requires Reachable(s) && r in s.receivers && HoldsResult(s.receivers[r])
    ensures var l := Local(s.world, s.receivers[r]);
            var last := Perform(s.meta, s.honest, r, l, ReconcileSteps(s.world, clock));
            var result := l.rc.slot.memory.value.result.value;
            var acceptable := ResultFieldsAccepted(result) && ArtifactsAccepted(result.files);
            && (last.rc.slot == Slot(None, None, None) <==>
                  s.world.relay == None || Terminal(s.world.relay.value.status) || acceptable)
            && (last.rc.slot != Slot(None, None, None) ==> last.rc == l.rc && last.w.relay == l.w.relay)
            && (last.rc.slot == Slot(None, None, None) && last.w.relay.Some? ==> Terminal(last.w.relay.value.status))
            && (s.world.relay.Some? && s.world.relay.value.status == Running && acceptable ==>
                  last.w.relay.Some? && PublishedResult(last.w.relay.value, result))
  {
    hide Reachable, ReceiverNext, ResultFieldsAccepted, ArtifactsAccepted;
    var l := Local(s.world, s.receivers[r]);
    if s.world.relay.Some? {
      HeldResultFacts(s, r);
      if s.world.relay.value.status == Running {
        RunningReconcile(s.meta, s.honest, r, l, clock);
      } else {
        EndedReconcile(s.meta, s.honest, r, l, clock);
      }
    } else {
      OrphanReconcile(s.meta, s.honest, r, l);
    }
  }

  lemma OrphanReconcile(meta: RequestMeta, honest: bool, r: nat, l: Local)
    requires HoldsResult(l.rc)
    ensures var last := Perform(meta, honest, r, l, [ForgetRecord(Written)]);
            last.w == l.w && last.rc.slot == Slot(None, None, None)
  {
  }

  /** What the invariant says of a held result while the relay holds the request. */
  ghost predicate Replayable(meta: RequestMeta, l: Local) {
    && HoldsResult(l.rc) && l.w.relay.Some?
    && var stored, x := l.w.relay.value, l.rc.slot.memory.value;
    && stored.meta == meta && Lifecycle(stored)
    && (stored.status == Running || Terminal(stored.status))
    && x.claim == Some(x.result.value.claim)
    && stored.claim == x.claim
    && x.result.value.state in {Completed, Failed}
    && (stored.status in {Completed, Failed} ==> PublishedResult(stored, x.result.value))
  }

  lemma HeldResultFacts(s: System, r: nat)
    requires Reachable(s) && r in s.receivers && HoldsResult(s.receivers[r]) && s.world.relay.Some?
    ensures Replayable(s.meta, Local(s.world, s.receivers[r]))
  {
    hide Reachable, Inv, RelayOk, HistoryOk, ReceiverOk;
    SafeParts(s, r);
    HeldIsReplayable(s.meta, s.honest, r, Local(s.world, s.receivers[r]));
  }

  lemma HeldIsReplayable(meta: RequestMeta, honest: bool, r: nat, l: Local)
    requires RelayOk(meta, l.w) && HistoryOk(l.w) && ReceiverOk(meta, honest, l.w, r, l.rc) && HoldsResult(l.rc)
        && l.w.relay.Some?
    ensures Replayable(meta, l)
  {
  }

  lemma PerformFirst(meta: RequestMeta, honest: bool, r: nat, l: Local, steps: seq<Step>)
    requires steps != []
    ensures var next := ReceiverNext(meta, honest, r, l, steps[0]);
            Perform(meta, honest, r, l, steps) == Perform(meta, honest, r, if next.Some? then next.value else l, steps[1..])
  {
  }

  lemma PerformFour(meta: RequestMeta, honest: bool, r: nat, l: Local, a: Step, b: Step, c: Step, d: Step, l1: Local,
          l2: Local, l3: Local, l4: Local)
    requires Skip(meta, honest, r, l, a) == l1 && Skip(meta, honest, r, l1, b) == l2
    requires Skip(meta, honest, r, l2, c) == l3 && Skip(meta, honest, r, l3, d) == l4
    ensures Perform(meta, honest, r, l, [a, b, c, d]) == l4
  {
    hide ReceiverNext;
    PerformFirst(meta, honest, r, l, [a, b, c, d]);
    assert [a, b, c, d][1..] == [b, c, d];
    PerformFirst(meta, honest, r, l1, [b, c, d]);
    assert [b, c, d][1..] == [c, d];
    PerformFirst(meta, honest, r, l2, [c, d]);
    assert [c, d][1..] == [d];
    PerformFirst(meta, honest, r, l3, [d]);
  }

  function Skip(meta: RequestMeta, honest: bool, r: nat, l: Local, step: Step): Local {
    match ReceiverNext(meta, honest, r, l, step)
    case Some(next) => next
    case None => l
  }

  lemma RunningReconcile(meta: RequestMeta, honest: bool, r: nat, l: Local, clock: nat)
    requires Replayable(meta, l) && l.w.relay.value.status == Running
    ensures var last := Perform(meta, honest, r, l, ReconcileSteps(l.w, clock));
            var result := l.rc.slot.memory.value.result.value;
            if ResultFieldsAccepted(result) && ArtifactsAccepted(result.files)
            then last.rc.slot == Slot(None, None, None) && last.w.relay.Some? && PublishedResult(last.w.relay.value, result)
            else last.rc == l.rc && last.w.relay == l.w.relay
  {
    hide Perform, ReceiverNext, Answer, Lifecycle, ResultFieldsAccepted, ArtifactsAccepted, PublishedResult;
    var x := l.rc.slot.memory.value;
    var l1 := l.(rc := l.rc.(flow := Starting(Running)));
    var l2 := l.(rc := l.rc.(exec := ExecBegun));
    var l3 := l.(rc := l.rc.(exec := ExecReplaying(x)));
    var l4 := Local(l.w.(sent := l.w.sent + {SubmitMessage(x.result.value)}), l.rc.(exec := ExecSubmitting(x)));
    ReplayIsLoaded(meta, honest, r, l, l1, l2, l3, l4);
    var answer := Answer(l4.w, OpOf(meta, SubmitMessage(x.result.value)), clock, false);
    var l5 := Local(answer.0, l.rc.(exec := if answer.1 == Some(x.result.value.state) then ExecRemoving else NoExec));
    var l6 := if l5.rc.exec == NoExec then l5 else l5.(rc := Removed(l5.rc, Written).(exec := NoExec));
    ReplayIsAnswered(meta, honest, r, l4, l5, l6, clock);
    var steps := ReconcileSteps(l.w, clock);
    PerformFirst(meta, honest, r, l, steps);
    assert steps[1..] == [StartExecution, ExecLoad, ExecSendResult, ExecResultReply(clock), ExecRemove(Written)];
    PerformFirst(meta, honest, r, l1, steps[1..]);
    assert steps[1..][1..] == [ExecLoad, ExecSendResult, ExecResultReply(clock), ExecRemove(Written)];
    PerformFour(meta, honest, r, l2, ExecLoad, ExecSendResult, ExecResultReply(clock), ExecRemove(Written), l3, l4, l5, l6);
    SubmitAnswer(meta, l4.w, x.result.value, clock);
  }

  lemma ReplayIsLoaded(meta: RequestMeta, honest: bool, r: nat, l: Local, l1: Local, l2: Local, l3: Local, l4: Local)
    requires HoldsResult(l.rc) && Some(l.rc.slot.memory.value.result.value.claim) == l.rc.slot.memory.value.claim
    requires l1 == l.(rc := l.rc.(flow := Starting(Running)))
    requires l2 == l.(rc := l.rc.(exec := ExecBegun))
    requires l3 == l.(rc := l.rc.(exec := ExecReplaying(l.rc.slot.memory.value)))
    requires l4 == Local(l.w.(sent := l.w.sent + {SubmitMessage(l.rc.slot.memory.value.result.value)}),
                         l.rc.(exec := ExecSubmitting(l.rc.slot.memory.value)))
    ensures ReceiverNext(meta, honest, r, l, Recover(Running, false)) == Some(l1)
    ensures ReceiverNext(meta, honest, r, l1, StartExecution) == Some(l2)
    ensures ReceiverNext(meta, honest, r, l2, ExecLoad) == Some(l3)
    ensures ReceiverNext(meta, honest, r, l3, ExecSendResult) == Some(l4)
  {
    hide AuthorityCurrent, NoticeCurrent, Answer, ReceiverNext;
    RecoverStep(meta, honest, r, l, Running);
    StartStep(meta, honest, r, l1);
    LoadStep(meta, honest, r, l2);
    ExecSubmitSteps(meta, honest, r, l3, 0);
  }

  lemma ReplayIsAnswered(meta: RequestMeta, honest: bool, r: nat, l4: Local, l5: Local, l6: Local, clock: nat)
    requires l4.rc.exec.ExecSubmitting? && l4.rc.exec.op.result.Some?
    requires var result := l4.rc.exec.op.result.value;
             var answer := Answer(l4.w, OpOf(meta, SubmitMessage(result)), clock, false);
             l5 == Local(answer.0, l4.rc.(exec := if answer.1 == Some(result.state) then ExecRemoving else NoExec))
    requires l6 == if l5.rc.exec == NoExec then l5 else l5.(rc := Removed(l5.rc, Written).(exec := NoExec))
    ensures Skip(meta, honest, r, l4, ExecResultReply(clock)) == l5
    ensures Skip(meta, honest, r, l5, ExecRemove(Written)) == l6
  {
    hide Answer, ReceiverNext;
    ExecSubmitSteps(meta, honest, r, l4, clock);
    ExecSubmitSteps(meta, honest, r, l5, clock);
  }

  /** The relay takes a submitted result of the running claim exactly when its fields and files pass. */
  lemma SubmitAnswer(meta: RequestMeta, w: World, result: ResultPayload, clock: nat)
    requires w.relay.Some? && w.relay.value.meta == meta && Lifecycle(w.relay.value)
    requires w.relay.value.claim == Some(result.claim) && result.state in {Completed, Failed}
    requires w.relay.value.status == Running || PublishedResult(w.relay.value, result)
    ensures var answer := Answer(w, OpOf(meta, SubmitMessage(result)), clock, false);
            if ResultFieldsAccepted(result) && ArtifactsAccepted(result.files)
            then answer.1 == Some(result.state) && answer.0.relay.Some? && PublishedResult(answer.0.relay.value, result)
            else answer.1 == None && answer.0 == w
  {
  }

  lemma EndedReconcile(meta: RequestMeta, honest: bool, r: nat, l: Local, clock: nat)
    requires Replayable(meta, l) && Terminal(l.w.relay.value.status)
    ensures var last := Perform(meta, honest, r, l, ReconcileSteps(l.w, clock));
            last.rc.slot == Slot(None, None, None) && last.w.relay.Some? && Terminal(last.w.relay.value.status)
  {
    hide Perform, ReceiverNext, Answer, Lifecycle, PublishedResult;
    var x, status := l.rc.slot.memory.value, l.w.relay.value.status;
    if status == x.result.value.state {
      var l1 := l.(rc := l.rc.(flow := Replaying(x)));
      var l2 := Local(l.w.(sent := l.w.sent + {SubmitMessage(x.result.value)}), l.rc.(flow := Submitting(x)));
      var answer := Answer(l2.w, OpOf(meta, SubmitMessage(x.result.value)), clock, false);
      SubmitAnswer(meta, l2.w, x.result.value, clock);
      PublishedIsAcceptable(l.w.relay.value, x.result.value);
      PublishedIsAcceptable(answer.0.relay.value, x.result.value);
      var l3 := Local(answer.0, l.rc.(flow := Removing));
      var l4 := l3.(rc := Removed(l3.rc, Written).(flow := Idle));
      EndedReplay(meta, honest, r, l, l1, l2, l3, l4, clock);
      PerformFour(meta, honest, r, l, Recover(status, false), SendResult, ResultReply(clock), RemoveRecord(Written), l1,
          l2, l3, l4);
    } else {
      var l1 := l.(rc := l.rc.(flow := Removing));
      var l2 := l1.(rc := Removed(l1.rc, Written).(flow := Idle));
      EndedRemoval(meta, honest, r, l, l1, l2, clock);
      PerformFour(meta, honest, r, l, Recover(status, false), SendResult, ResultReply(clock), RemoveRecord(Written), l1,
          l1, l1, l2);
    }
  }

  lemma PublishedIsAcceptable(stored: StoredRequest, result: ResultPayload)
    requires PublishedResult(stored, result)
    ensures ResultFieldsAccepted(result) && ArtifactsAccepted(result.files) && Terminal(stored.status)
  {
  }

  lemma EndedReplay(meta: RequestMeta, honest: bool, r: nat, l: Local, l1: Local, l2: Local, l3: Local, l4: Local, clock: nat)
    requires Replayable(meta, l) && Terminal(l.w.relay.value.status)
        && l.rc.slot.memory.value.result.value.state == l.w.relay.value.status
    requires l1 == l.(rc := l.rc.(flow := Replaying(l.rc.slot.memory.value)))
    requires l2 == Local(l.w.(sent := l.w.sent + {SubmitMessage(l.rc.slot.memory.value.result.value)}),
        l.rc.(flow := Submitting(l.rc.slot.memory.value)))
    requires var answer := Answer(l2.w, OpOf(meta, SubmitMessage(l.rc.slot.memory.value.result.value)), clock, false);
             answer.1 == Some(l.w.relay.value.status) && l3 == Local(answer.0, l.rc.(flow := Removing))
    requires l4 == l3.(rc := Removed(l3.rc, Written).(flow := Idle))
    ensures Skip(meta, honest, r, l, Recover(l.w.relay.value.status, false)) == l1
    ensures Skip(meta, honest, r, l1, SendResult) == l2
    ensures Skip(meta, honest, r, l2, ResultReply(clock)) == l3
    ensures Skip(meta, honest, r, l3, RemoveRecord(Written)) == l4
  {
    hide Answer, AuthorityCurrent, NoticeCurrent, Lifecycle, PublishedResult, ReceiverNext;
    RecoverStep(meta, honest, r, l, l.w.relay.value.status);
    FlowSubmitSteps(meta, honest, r, l1, clock);
    FlowSubmitSteps(meta, honest, r, l2, clock);
    FlowSubmitSteps(meta, honest, r, l3, clock);
  }

  lemma EndedRemoval(meta: RequestMeta, honest: bool, r: nat, l: Local, l1: Local, l2: Local, clock: nat)
    requires Replayable(meta, l) && Terminal(l.w.relay.value.status)
        && l.rc.slot.memory.value.result.value.state != l.w.relay.value.status
    requires l1 == l.(rc := l.rc.(flow := Removing))
    requires l2 == l1.(rc := Removed(l1.rc, Written).(flow := Idle))
    ensures Skip(meta, honest, r, l, Recover(l.w.relay.value.status, false)) == l1
    ensures Skip(meta, honest, r, l1, SendResult) == l1
    ensures Skip(meta, honest, r, l1, ResultReply(clock)) == l1
    ensures Skip(meta, honest, r, l1, RemoveRecord(Written)) == l2
  {
    hide Answer, AuthorityCurrent, NoticeCurrent, Lifecycle, PublishedResult, ReceiverNext;
    RecoverStep(meta, honest, r, l, l.w.relay.value.status);
    FlowSubmitSteps(meta, honest, r, l1, clock);
  }

  // --- what runs is what was approved ------------------------------------------------------------

  /**
   Every runtime start goes back to one allow decision of the starting
   receiver: the payload matches the notice that decision bound, the execution
   was checked under the authority that decision was made under, the decision
   is the one the relay stores, and a standing approval behind it matched that
   very notice.
   */
  lemma WhatRunsWasApproved(s: System, start: Start)
    requires Reachable(s) && start in s.world.starts
    ensures var id := DecisionID(start.claim.owner, start.claim.draw);
            && id in s.world.births
            && s.world.decided == Some((id, AllowOnce)) && s.world.claimed == Some(start.claim)
            && var birth := s.world.births[id];
               && birth.record.decision == AllowOnce && birth.record.claim == Some(start.claim)
               && birth.record.approvedNotice.Some? && birth.record.approvedNotice == BindingFor(birth.notice)
               && PayloadMatches(birth.record.approvedNotice.value, start.payload)
               && start.under.Some? && birth.record.authority == start.under && birth.record.level.Some?
               && Justified(birth.source, start.under.value, birth.notice, birth.record.level.value, birth.record.grantId)
  {
    ReachableIsSafe(s);
    hide Reachable, RelayOk, PayloadMatches, ReceiverOk, BindingFor, Justified, ValidRecordWithLegacy;
    var w := s.world;
    var i :| 0 <= i < |w.starts| && w.starts[i] == start;
    assert StartOk(w, w.starts[i]);
    assert MessageOk(w, MarkMessage(start.claim));
    var id := DecisionID(start.claim.owner, start.claim.draw);
    assert BirthOk(s.meta, s.honest, w.draws, id, w.births[id]);
  }

  /**
   And what ran by itself was chosen. The grant behind an auto-approved start
   covers the notice that was bound, the recipient chose it at some time, and
   wherever the store had it revoked the recipient chose it again since,
   unless the store's file was deleted.
   */
  lemma AutoRunsWereChosen(s: System, start: Start)
    requires Reachable(s) && start in s.world.starts
    ensures DecisionID(start.claim.owner, start.claim.draw) in s.world.births
    ensures var birth := s.world.births[DecisionID(start.claim.owner, start.claim.draw)];
            birth.source.Matched? ==>
              var grant, history := birth.source.grant, birth.source.history;
              var candidate := NormalizeCandidate(CandidateFor(birth.notice), false);
              && birth.record.approvedNotice == BindingFor(birth.notice)
              && start.under.Some? && candidate.Some? && Eligible(grant, start.under.value, candidate.value, birth.source.at)
              && (exists i | 0 <= i < |history| :: Revocation.Enters(history[i], grant.grantId))
              && (forall k | 0 <= k <= |history| && ApprovalStorage.Tombstoned(Revocation.Run(Revocation.EmptyStore, history[..k]), grant.grantId) ::
                    Revocation.ChosenOrErasedSince(history, k, grant.grantId))
  {
    WhatRunsWasApproved(s, start);
    hide Reachable, PayloadMatches, BindingFor, Eligible, Lookup, Prune;
    var birth := s.world.births[DecisionID(start.claim.owner, start.claim.draw)];
    if birth.source.Matched? {
      var candidate := NormalizeCandidate(CandidateFor(birth.notice), false);
      AuthorityIsNormal(s, start);
      NormalizeCandidateIdempotent(CandidateFor(birth.notice), false);
      Revocation.MatchedGrantWasChosen(birth.source.history, start.under.value, candidate.value, birth.source.at, birth.source.grant);
    }
  }

  lemma AuthorityIsNormal(s: System, start: Start)
    requires Reachable(s) && start in s.world.starts && start.under.Some?
    requires DecisionID(start.claim.owner, start.claim.draw) in s.world.births
    requires s.world.births[DecisionID(start.claim.owner, start.claim.draw)].record.authority == start.under
    ensures NormalAuthority(start.under.value)
  {
    ReachableIsSafe(s);
    hide Reachable, HistoryOk, RelayOk, ReceiverOk, Justified, BindingFor;
    var id := DecisionID(start.claim.owner, start.claim.draw);
    assert BirthOk(s.meta, s.honest, s.world.draws, id, s.world.births[id]);
  }

  /** The binding leaves no freedom: two payloads that match it are the same payload. */
  lemma BindingFixesPayload(binding: ApprovedNotice, left: ExecutionPayload, right: ExecutionPayload)
    requires PayloadMatches(binding, left) && PayloadMatches(binding, right)
    ensures left == right
  {
  }

  /**
   Against the relay itself the checks never refuse: request metadata does not
   change, so an authorized record always matches the pending notice, and the
   payload the relay hands out always matches what was bound.
   */
  lemma HonestMetadataIsNeverRefused(s: System, r: nat)
    requires Reachable(s) && s.honest && r in s.receivers
    ensures var rc := s.receivers[r];
            && (rc.pending.Some? && rc.slot.memory.Some? && rc.slot.memory.value.decision == AllowOnce ==>
                  NoticeCurrent(rc, rc.slot.memory.value))
            && (rc.exec.ExecFetching? && s.world.relay.Some? && FetchExecution(s.world.relay.value, s.meta.targetAgentId).Ok? ==>
                  && rc.exec.op.approvedNotice.Some?
                  && PayloadMatches(rc.exec.op.approvedNotice.value, FetchExecution(s.world.relay.value,
                      s.meta.targetAgentId).value))
  {
    hide Reachable, HistoryOk, RelayOk, ReceiverOk, PayloadMatches, FetchExecution, NoticeCurrent;
    ReachableIsSafe(s);
    SafeParts(s, r);
    var rc := s.receivers[r];
    if rc.slot.memory.Some? {
      StoredBindingIsOwn(s, r, rc.slot.memory.value);
      if rc.pending.Some? && rc.slot.memory.value.decision == AllowOnce {
        PendingIsCurrent(s, r, rc.slot.memory.value);
      }
    }
    if rc.exec.ExecFetching? && s.world.relay.Some? {
      FetchedBindingIsOwn(s, r);
      RelayIsOk(s.meta, s.honest, s.world);
      if FetchExecution(s.world.relay.value, s.meta.targetAgentId).Ok? {
        PayloadIsOwn(s.world.relay.value);
      }
    }
  }

  lemma StoredBindingIsOwn(s: System, r: nat, x: MutationRecord)
    requires Inv(s) && s.honest && r in s.receivers && s.receivers[r].slot.memory == Some(x)
    ensures x.decision == AllowOnce ==> x.approvedNotice == BindingFor(OwnNotice(s.meta)) && x.approvedNotice.Some?
  {
  }

  lemma PendingIsCurrent(s: System, r: nat, x: MutationRecord)
    requires s.honest && r in s.receivers && ReceiverOk(s.meta, s.honest, s.world, r, s.receivers[r])
    requires s.receivers[r].pending.Some? && x.approvedNotice.Some? && x.approvedNotice == BindingFor(OwnNotice(s.meta))
    ensures NoticeCurrent(s.receivers[r], x)
  {
  }

  lemma FetchedBindingIsOwn(s: System, r: nat)
    requires Inv(s) && s.honest && r in s.receivers && s.receivers[r].exec.ExecFetching?
    ensures var x := s.receivers[r].exec.op; x.approvedNotice == BindingFor(OwnNotice(s.meta)) && x.approvedNotice.Some?
  {
    hide HistoryOk, RelayOk, ValidRecordWithLegacy, Justified, SlotOk, FlowOk, BindingFor;
    assert ReceiverOk(s.meta, s.honest, s.world, r, s.receivers[r]);
    var x := s.receivers[r].exec.op;
    assert BirthOk(s.meta, s.honest, s.world.draws, x.decisionID, s.world.births[x.decisionID]);
  }

  /** Whatever transitions a record has been through, the payload it hands out is the one its notice bound. */
  lemma PayloadIsOwn(stored: StoredRequest)
    requires FetchExecution(stored, stored.meta.targetAgentId).Ok? && BindingFor(OwnNotice(stored.meta)).Some?
    ensures PayloadMatches(BindingFor(OwnNotice(stored.meta)).value, FetchExecution(stored, stored.meta.targetAgentId).value)
  {
  }
}
