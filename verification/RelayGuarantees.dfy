/**
 What the watched transactions of RelayDatabase guarantee in every interleaving:
 linearization, presence of revoked agents, acceptance against a tombstone, the
 request lifecycle, and create idempotency over time.
 */
module RelayGuarantees {
  import opened Base
  import opened Protocol
  import opened RelayRecord
  import opened RelayDatabase

  // --- invariants of the sequential database ------------------------------------------

  /** A tombstone lasts, and a tombstoned agent has neither a card nor a directory entry. */
  ghost predicate EvictedStayOut(db: Database) {
    && Lifetime(db, RevokedAgents) == None
    && (forall agent | agent in Members(db, RevokedAgents) :: AgentKey(agent) !in db && agent !in Members(db, Agents))
  }

  /** A live request's idempotency record is live, points to it and expires no earlier. */
  ghost predicate Retained(db: Database, now: nat, id: string)
    requires RequestKey(id) in db
  {
    && db[RequestKey(id)].value.RequestValue?
    && var stored := db[RequestKey(id)].value.stored;
    && stored.meta.requestId == id
    && Lifecycle(stored)
    && var key := IdempotencyKeyOf(stored.meta);
    && key in db
    && db[key].value.IdempotencyValue?
    && db[key].value.requestId == id
    && db[RequestKey(id)].expiresAt.Some?
    && db[key].expiresAt.Some?
    && now < db[RequestKey(id)].expiresAt.value <= db[key].expiresAt.value
  }

  ghost predicate RequestsRetained(db: Database, now: nat, created: set<string>) {
    && (forall id | RequestKey(id) in db :: id in created && Retained(db, now, id))
    && (forall agent, key | IdempotencyKey(agent, key) in db :: db[IdempotencyKey(agent, key)].value.IdempotencyValue?)
  }

  ghost predicate Sound(q: Sequential, created: set<string>) {
    EvictedStayOut(q.db) && RequestsRetained(q.db, q.now, created)
  }

  function CreatedBy(event: Event): set<string> {
    if event.Committed? && event.operation.Create? then {event.operation.meta.requestId} else {}
  }

  function CreatedIds(log: seq<Event>): set<string> {
    if log == [] then {} else CreatedIds(log[..|log| - 1]) + CreatedBy(log[|log| - 1])
  }

  lemma {:induction false} NotCreated(log: seq<Event>, id: string)
    requires forall i | 0 <= i < |log| :: id !in CreatedBy(log[i])
    ensures id !in CreatedIds(log)
  {
    if log != [] {
      NotCreated(log[..|log| - 1], id);
    }
  }

  lemma EvictKeepsOut(db: Database, agents: seq<string>, now: nat)
    requires EvictedStayOut(db)
    ensures var next := ApplyAll(db, EvictCommands(agents), now);
            && EvictedStayOut(next)
            && Members(next, RevokedAgents) == Members(db, RevokedAgents) + (set i | 0 <= i < |agents| :: agents[i])
            && (forall key | key !in {RevokedAgents, Agents} && !key.AgentKey? :: (key in next <==> key in db) && (key in db ==> next[key] == db[key]))
    decreases |agents|
  {
    if agents != [] {
      var first := [SAdd(RevokedAgents, agents[0]), SRem(Agents, agents[0]), Del(AgentKey(agents[0]))];
      var rest := EvictCommands(agents[1..]);
      ApplyAllConcat(db, first, rest, now);
      var a := Apply(db, first[0], now);
      var b := Apply(a, first[1], now);
      var c := Apply(b, first[2], now);
      ApplyThree(db, first, now);
      assert Members(c, RevokedAgents) == Members(db, RevokedAgents) + {agents[0]};
      EvictKeepsOut(c, agents[1..], now);
      assert (set i | 0 <= i < |agents| :: agents[i]) == {agents[0]} + (set i | 0 <= i < |agents[1..]| :: agents[1..][i]);
    }
  }

  lemma {:induction false} ApplyAllConcat(db: Database, left: seq<Command>, right: seq<Command>, now: nat)
    ensures ApplyAll(db, left + right, now) == ApplyAll(ApplyAll(db, left, now), right, now)
    decreases |left|
  {
    if left == [] {
      assert left + right == right;
    } else {
      assert (left + right)[1..] == left[1..] + right;
      ApplyAllConcat(Apply(db, left[0], now), left[1..], right, now);
    }
  }

  lemma ApplyThree(db: Database, commands: seq<Command>, now: nat)
    requires |commands| == 3
    ensures ApplyAll(db, commands, now) == Apply(Apply(Apply(db, commands[0], now), commands[1], now), commands[2], now)
  {
    var a := Apply(db, commands[0], now);
    assert ApplyAll(a, commands[1..], now) == ApplyAll(Apply(a, commands[1], now), commands[2..], now);
  }

  lemma ApplyTwo(db: Database, commands: seq<Command>, now: nat)
    requires |commands| == 2
    ensures ApplyAll(db, commands, now) == Apply(Apply(db, commands[0], now), commands[1], now)
  {
    var a := Apply(db, commands[0], now);
    assert ApplyAll(a, commands[1..], now) == ApplyAll(Apply(a, commands[1], now), commands[2..], now);
  }

  lemma TransitKeepsSound(q: Sequential, created: set<string>, id: string, op: LifecycleOp, clock: nat)
    requires Sound(q, created)
    requires PlanFor(Transit(id, op), ReadsOf(q.db, Transit(id, op)), clock).Commit?
    ensures Sound(SequentialStep(q, Committed(0, Transit(id, op), clock)), created)
  {
    hide Lifecycle, Update;
    var stored := q.db[RequestKey(id)].value.stored;
    var revoked := op.Decide? && ReadsMember(ReadsOf(q.db, Transit(id, op)), RevokedAgents, stored.meta.requesterAgentId);
    assert Retained(q.db, q.now, id);
    TransitionAdvances(stored, op, clock, revoked);
    var changed := Transition(stored, op, clock, revoked).value;
    var commands := PlanFor(Transit(id, op), ReadsOf(q.db, Transit(id, op)), clock).commands;
    ApplyTwo(q.db, commands, q.now);
    RewriteKeepsSound(q, created, id, changed);
  }

  /** Writing a changed record with full retention, and extending its idempotency record alike. */
  lemma RewriteKeepsSound(q: Sequential, created: set<string>, id: string, changed: StoredRequest)
    requires Sound(q, created) && RequestKey(id) in q.db && q.db[RequestKey(id)].value.RequestValue?
    requires Lifecycle(changed) && changed.meta == q.db[RequestKey(id)].value.stored.meta
    ensures var key := IdempotencyKeyOf(changed.meta);
            && key in q.db
            && Sound(Sequential(q.db[RequestKey(id) := Entry(RequestValue(changed), Some(q.now + REQUEST_RETENTION))]
                                    [key := Entry(q.db[key].value, Some(q.now + REQUEST_RETENTION))], q.now), created)
  {
  }

  lemma CreateKeepsSound(q: Sequential, created: set<string>, meta: RequestMeta, input: CreateInput, clock: nat)
    requires Sound(q, created) && meta.requestId !in created
    requires PlanFor(Create(meta, input), ReadsOf(q.db, Create(meta, input)), clock).Commit?
    ensures Sound(SequentialStep(q, Committed(0, Create(meta, input), clock)), created + {meta.requestId})
  {
    hide Apply;
    var commands := PlanFor(Create(meta, input), ReadsOf(q.db, Create(meta, input)), clock).commands;
    assert commands == commands[..2] + commands[2..];
    ApplyAllConcat(q.db, commands[..2], commands[2..], q.now);
    ApplyTwo(q.db, commands[..2], q.now);
    ApplyTwo(ApplyAll(q.db, commands[..2], q.now), commands[2..], q.now);
    CreatedKeepsSound(q, created, meta, input);
  }

  /** The four writes of a creation: the request, its idempotency record and the entry in the target's inbox. */
  function WithCreated(db: Database, now: nat, meta: RequestMeta, input: CreateInput): Database {
    var stored := Apply(db, Set(RequestKey(meta.requestId), RequestValue(Created(meta)), REQUEST_RETENTION), now);
    var indexed := Apply(stored, Set(IdempotencyKeyOf(meta), IdempotencyValue(meta.requestId, input), REQUEST_RETENTION), now);
    var listed := Apply(indexed, SAdd(InboxKey(meta.targetAgentId), meta.requestId), now);
    Apply(listed, Expire(InboxKey(meta.targetAgentId), REQUEST_RETENTION), now)
  }

  lemma CreatedKeepsSound(q: Sequential, created: set<string>, meta: RequestMeta, input: CreateInput)
    requires Sound(q, created) && meta.requestId !in created && IdempotencyKeyOf(meta) !in q.db
    ensures Sound(Sequential(WithCreated(q.db, q.now, meta, input), q.now), created + {meta.requestId})
  {
    var next := WithCreated(q.db, q.now, meta, input);
    assert Members(next, RevokedAgents) == Members(q.db, RevokedAgents);
    forall other | RequestKey(other) in next
      ensures other in created + {meta.requestId} && Retained(next, q.now, other)
    {
      if other != meta.requestId {
        assert Retained(q.db, q.now, other);
      }
    }
  }

  lemma EventKeepsSound(q: Sequential, created: set<string>, event: Event)
    requires Sound(q, created)
    requires event.Elapsed? ==> q.now <= event.until
    requires CreatedBy(event) !! created
    ensures Sound(SequentialStep(q, event), created + CreatedBy(event))
  {
    match event
    case Elapsed(until) =>
      var next := SequentialStep(q, event);
      forall id | RequestKey(id) in next.db ensures id in created && Retained(next.db, until, id) {
        assert Retained(q.db, q.now, id);
      }
      assert created + CreatedBy(event) == created;
    case Committed(_, operation, clock) =>
      var plan := PlanFor(operation, ReadsOf(q.db, operation), clock);
      if plan.Finish? {
        var more := created + CreatedBy(event);
        forall id | RequestKey(id) in q.db ensures id in more && Retained(q.db, q.now, id) {}
      } else {
        match operation
        case Transit(id, op) =>
          TransitKeepsSound(q, created, id, op, clock);
          assert created + CreatedBy(event) == created;
        case Create(meta, input) => CreateKeepsSound(q, created, meta, input, clock);
        case Heartbeat(card) =>
          ApplyTwo(q.db, plan.commands, q.now);
          HeartbeatKeepsSound(q, created, card, clock);
          assert created + CreatedBy(event) == created;
        case Evict(agents) =>
          EvictKeepsOut(q.db, agents, q.now);
          assert created + CreatedBy(event) == created;
          var next := SequentialStep(q, event);
          forall id | RequestKey(id) in next.db ensures id in created && Retained(next.db, q.now, id) {
            assert Retained(q.db, q.now, id);
          }
      }
  }

  lemma HeartbeatKeepsSound(q: Sequential, created: set<string>, card: AgentCard, clock: nat)
    requires Sound(q, created)
    requires PlanFor(Heartbeat(card), ReadsOf(q.db, Heartbeat(card)), clock).Commit?
    ensures Sound(SequentialStep(q, Committed(0, Heartbeat(card), clock)), created)
  {
    var commands := PlanFor(Heartbeat(card), ReadsOf(q.db, Heartbeat(card)), clock).commands;
    ApplyTwo(q.db, commands, q.now);
    var next := ApplyAll(q.db, commands, q.now);
    assert card.agentId !in Members(q.db, RevokedAgents);
    assert Members(next, RevokedAgents) == Members(q.db, RevokedAgents);
    forall id | RequestKey(id) in next ensures id in created && Retained(next, q.now, id) {
      assert Retained(q.db, q.now, id);
    }
  }

  // --- every interleaving ----------------------------------------------------------------

  ghost predicate Invariant(s: Relay) {
    Linearized(s) && Sound(Sequential(s.db, s.now), CreatedIds(s.log))
  }

  /** A create call that has not committed creates a request that no commit created. */
  lemma CommitCreatesFresh(s: Relay, call: nat)
    requires Linearized(s) && call in s.clients && s.clients[call].Watching?
    ensures s.clients[call].operation.Create? ==> s.clients[call].operation.meta.requestId !in CreatedIds(s.log)
  {
    if s.clients[call].operation.Create? {
      var id := s.clients[call].operation.meta.requestId;
      forall i | 0 <= i < |s.log| ensures id !in CreatedBy(s.log[i]) {
        if s.log[i].Committed? {
          assert s.log[i].call != call;
        }
      }
      NotCreated(s.log, id);
    }
  }

  lemma StepKeepsInvariant(s: Relay, step: Step)
    requires Invariant(s) && Enabled(s, step)
    ensures Invariant(Next(s, step))
  {
    StepKeepsLinearized(s, step);
    var t := Next(s, step);
    if t.log != s.log {
      var event := t.log[|s.log|];
      LoggedEvent(s, step);
      LogKeepsSound(s, t, event);
    }
  }

  lemma LoggedEvent(s: Relay, step: Step)
    requires Linearized(s) && Enabled(s, step) && Next(s, step).log != s.log
    ensures |Next(s, step).log| == |s.log| + 1
    ensures var event := Next(s, step).log[|s.log|];
            && Next(s, step).log == s.log + [event]
            && (event.Elapsed? ==> s.now <= event.until)
            && CreatedBy(event) !! CreatedIds(s.log)
  {
    if step.Attempt? {
      CommitCreatesFresh(s, step.call);
    }
  }

  lemma LogKeepsSound(s: Relay, t: Relay, event: Event)
    requires Invariant(s) && Linearized(t) && t.log == s.log + [event]
    requires event.Elapsed? ==> s.now <= event.until
    requires CreatedBy(event) !! CreatedIds(s.log)
    ensures Invariant(t)
  {
    assert t.log[..|t.log| - 1] == s.log && t.log[|t.log| - 1] == event;
    ReplayAppend(s.log, event);
    EventKeepsSound(Sequential(s.db, s.now), CreatedIds(s.log), event);
  }

  /** Every state of every execution satisfies the invariant. */
  lemma {:induction false} ExecutionsAreSound(states: seq<Relay>, steps: seq<Step>, i: nat)
    requires Execution(states, steps) && i < |states|
    ensures Invariant(states[i])
  {
    if i > 0 {
      ExecutionsAreSound(states, steps, i - 1);
      StepKeepsInvariant(states[i - 1], steps[i - 1]);
    } else {
      assert CreatedIds([]) == {};
    }
  }

  /**
   Linearization. After any interleaving the database is the one that the
   committed calls produce when each runs atomically, in the order of their
   commits; a committed call stands in that order exactly once, and a call that
   was refused, gave up or exhausted its five attempts stands nowhere in it.
   */
  lemma TransactionsLinearize(states: seq<Relay>, steps: seq<Step>)
    requires Execution(states, steps)
    ensures var s := states[|steps|];
            && Replay(s.log) == Sequential(s.db, s.now)
            && (forall i | 0 <= i < |s.log| && s.log[i].Committed? ::
                  s.log[i].call in s.clients && s.clients[s.log[i].call] == Finished(s.log[i].operation, Done(i)))
            && (forall call | call in s.clients && s.clients[call].Finished? ::
                  if s.clients[call].outcome.Done?
                  then s.clients[call].outcome.at < |s.log| && s.log[s.clients[call].outcome.at].Committed?
                       && s.log[s.clients[call].outcome.at].call == call
                  else forall i | 0 <= i < |s.log| && s.log[i].Committed? :: s.log[i].call != call)
  {
    ExecutionsAreSound(states, steps, |steps|);
  }

  // --- the answers of calls that do not commit -----------------------------------------------

  /** The key whose value alone decides whether a call ends without a commit, and with which answer. */
  function DecidingKey(operation: Operation): Key {
    match operation
    case Transit(id, _) => RequestKey(id)
    case Create(meta, _) => IdempotencyKeyOf(meta)
    case Heartbeat(_) => RevokedAgents
    case Evict(_) => RevokedAgents
  }

  lemma AnswerTurnsOnOneKey(operation: Operation, seen: Reads, other: Reads, clock: nat)
    requires WatchKeys(operation) <= seen.Keys && WatchKeys(operation) <= other.Keys
    requires PlanFor(operation, seen, clock).Finish?
    requires DecidingKey(operation) in seen && DecidingKey(operation) in other && seen[DecidingKey(operation)] == other[DecidingKey(operation)]
    ensures PlanFor(operation, other, clock) == PlanFor(operation, seen, clock)
  {
    hide ArtifactsAccepted, ResultFieldsAccepted;
  }

  /** The call is under way, between its beginning and its end. */
  predicate UnderWay(s: Relay, call: nat, operation: Operation) {
    call in s.clients && s.clients[call].Watching? && s.clients[call].operation == operation
  }

  /** A step leaves what a call has read alone, or adds what is stored under one key. */
  lemma ReadsComeFromStep(s: Relay, step: Step, call: nat, key: Key)
    requires Enabled(s, step) && call in Next(s, step).clients && Next(s, step).clients[call].Watching?
    requires key in Next(s, step).clients[call].seen
    ensures var client := Next(s, step).clients[call];
            UnderWay(s, call, client.operation)
            && (Get(s.db, key) == client.seen[key] || (key in s.clients[call].seen && s.clients[call].seen[key] == client.seen[key]))
  {
    hide PlanFor, ApplyAll, Bumped, Snapshot;
  }

  /** Every value a call has read was stored while the call was under way. */
  lemma {:induction false} ReadsWereStored(states: seq<Relay>, steps: seq<Step>, i: nat, call: nat, key: Key)
    requires Execution(states, steps) && i < |states|
    requires call in states[i].clients && states[i].clients[call].Watching? && key in states[i].clients[call].seen
    ensures exists j | 0 <= j < i :: UnderWay(states[j], call, states[i].clients[call].operation)
                                     && Get(states[j].db, key) == states[i].clients[call].seen[key]
  {
    hide Enabled, Next;
    if i > 0 {
      assert Enabled(states[i - 1], steps[i - 1]) && states[i] == Next(states[i - 1], steps[i - 1]);
      ReadsComeFromStep(states[i - 1], steps[i - 1], call, key);
      if Get(states[i - 1].db, key) != states[i].clients[call].seen[key] {
        ReadsWereStored(states, steps, i - 1, call, key);
      }
    }
  }

  lemma AnswerAtStep(states: seq<Relay>, steps: seq<Step>, i: nat, call: nat, clock: nat)
    requires Execution(states, steps) && i < |steps| && steps[i] == Attempt(call, clock)
    requires PlanFor(states[i].clients[call].operation, states[i].clients[call].seen, clock).Finish?
    ensures var client := states[i].clients[call];
            exists j | 0 <= j < i :: UnderWay(states[j], call, client.operation)
                                     && PlanFor(client.operation, ReadsOf(states[j].db, client.operation), clock)
                                        == PlanFor(client.operation, client.seen, clock)
  {
    var client := states[i].clients[call];
    var key := DecidingKey(client.operation);
    ReadsWereStored(states, steps, i, call, key);
    var j :| 0 <= j < i && UnderWay(states[j], call, client.operation) && Get(states[j].db, key) == client.seen[key];
    AnswerTurnsOnOneKey(client.operation, client.seen, ReadsOf(states[j].db, client.operation), clock);
  }

  /** An answer that the plan itself gives, as opposed to a commit or a call that was abandoned. */
  predicate Answered(outcome: Outcome) {
    outcome.Unchanged? || outcome.Existing? || outcome.Refused? || outcome.NotFound?
  }

  /** A step that leaves a call answered found it so, or is the attempt whose plan gives that answer. */
  lemma AnswerComesFromStep(s: Relay, step: Step, call: nat)
    requires Enabled(s, step) && call in Next(s, step).clients && Next(s, step).clients[call].Finished?
    requires Answered(Next(s, step).clients[call].outcome)
    ensures var client := Next(s, step).clients[call];
            (call in s.clients && s.clients[call] == client) || AnsweredBy(s, step, call, client.operation, client.outcome)
  {
    hide PlanFor, ApplyAll, Bumped, Snapshot;
  }

  predicate AnsweredBy(s: Relay, step: Step, call: nat, operation: Operation, outcome: Outcome) {
    && step.Attempt? && step.call == call
    && UnderWay(s, call, operation)
    && WatchKeys(operation) <= s.clients[call].seen.Keys
    && PlanFor(operation, s.clients[call].seen, step.clock) == Finish(outcome)
  }

  lemma {:induction false} AnswerHasAttempt(states: seq<Relay>, steps: seq<Step>, i: nat, call: nat)
    requires Execution(states, steps) && i < |states|
    requires call in states[i].clients && states[i].clients[call].Finished? && Answered(states[i].clients[call].outcome)
    ensures exists k | 0 <= k < i ::
              AnsweredBy(states[k], steps[k], call, states[i].clients[call].operation, states[i].clients[call].outcome)
  {
    hide Enabled, Next, AnsweredBy, Answered;
    if i > 0 {
      assert Enabled(states[i - 1], steps[i - 1]) && states[i] == Next(states[i - 1], steps[i - 1]);
      AnswerComesFromStep(states[i - 1], steps[i - 1], call);
      if !AnsweredBy(states[i - 1], steps[i - 1], call, states[i].clients[call].operation, states[i].clients[call].outcome) {
        AnswerHasAttempt(states, steps, i - 1, call);
      }
    }
  }

  /**
   The other half of linearization. Whatever a call that commits nothing is
   answered in its last attempt, an atomic execution with that attempt's clock
   would have been answered the same at some moment while the call was under
   way.
   */
  lemma AnswersAreAtomic(states: seq<Relay>, steps: seq<Step>, i: nat, call: nat)
    requires Execution(states, steps) && i < |states|
    requires call in states[i].clients && states[i].clients[call].Finished? && Answered(states[i].clients[call].outcome)
    ensures var operation := states[i].clients[call].operation;
            exists j, k | 0 <= j < k < i ::
              && UnderWay(states[j], call, operation) && steps[k].Attempt? && steps[k].call == call
              && PlanFor(operation, ReadsOf(states[j].db, operation), steps[k].clock) == Finish(states[i].clients[call].outcome)
  {
    hide Enabled, Next, PlanFor;
    var operation, outcome := states[i].clients[call].operation, states[i].clients[call].outcome;
    AnswerHasAttempt(states, steps, i, call);
    var k :| 0 <= k < i && AnsweredBy(states[k], steps[k], call, operation, outcome);
    AnswerAtStep(states, steps, k, call, steps[k].clock);
  }

  /** An attempt that does not commit, the fifth included, leaves the database, its versions and the log alone. */
  lemma UncommittedChangesNothing(states: seq<Relay>, steps: seq<Step>, i: nat)
    requires Execution(states, steps) && i < |steps|
    requires steps[i].Attempt? && !(states[i + 1].clients[steps[i].call].Finished?
        && states[i + 1].clients[steps[i].call].outcome.Done?)
    ensures var s, t := states[i], states[i + 1];
            t.db == s.db && t.versions == s.versions && t.log == s.log
    ensures var before, after := states[i].clients[steps[i].call], states[i + 1].clients[steps[i].call];
            after == Finished(before.operation, Exhausted) ==> before.attempt == MAXIMUM_ATTEMPTS
  {
  }

  /** Eviction is final: no heartbeat that was in flight restores a revoked agent, and no tombstone is lifted. */
  lemma {:induction false} RevokedAgentsStayEvicted(states: seq<Relay>, steps: seq<Step>, i: nat, j: nat, agent: string)
    requires Execution(states, steps) && i <= j < |states|
    requires agent in Members(states[i].db, RevokedAgents)
    ensures agent in Members(states[j].db, RevokedAgents)
    ensures AgentKey(agent) !in states[j].db && agent !in Members(states[j].db, Agents)
    decreases j - i
  {
    ExecutionsAreSound(states, steps, j);
    if i < j {
      RevokedAgentsStayEvicted(states, steps, i, j - 1, agent);
      TombstoneAtStep(states, steps, j - 1, agent);
    }
  }

  lemma TombstoneAtStep(states: seq<Relay>, steps: seq<Step>, i: nat, agent: string)
    requires Execution(states, steps) && i < |steps| && agent in Members(states[i].db, RevokedAgents)
    ensures agent in Members(states[i + 1].db, RevokedAgents)
  {
    ExecutionsAreSound(states, steps, i);
    var s := states[i];
    if steps[i].Attempt? {
      var client := s.clients[steps[i].call];
      var plan := PlanFor(client.operation, client.seen, steps[i].clock);
      if plan.Commit? && NothingWatchedChanged(s, client) {
        CommitKeepsTombstones(s.db, s.now, client.operation, client.seen, steps[i].clock, agent);
      }
    }
  }

  lemma CommitKeepsTombstones(db: Database, now: nat, operation: Operation, seen: Reads, clock: nat, agent: string)
    requires EvictedStayOut(db) && agent in Members(db, RevokedAgents)
    requires WatchKeys(operation) <= seen.Keys && PlanFor(operation, seen, clock).Commit?
    ensures agent in Members(ApplyAll(db, PlanFor(operation, seen, clock).commands, now), RevokedAgents)
  {
    var commands := PlanFor(operation, seen, clock).commands;
    if operation.Evict? {
      EvictKeepsOut(db, operation.agents, now);
    } else {
      assert RevokedAgents !in Touched(commands);
      ApplyAllFrame(db, commands, now, RevokedAgents);
    }
  }

  /**
   The only step that changes a stored request is a commit of a transition of
   that request; it advances the lifecycle, and it accepts only a request whose
   requester is not tombstoned at the commit point.
   */
  lemma RequestsChangeOnlyByTransitions(states: seq<Relay>, steps: seq<Step>, i: nat, id: string)
    requires Execution(states, steps) && i < |steps|
    requires RequestKey(id) in states[i].db && RequestKey(id) in states[i + 1].db
    ensures states[i].db[RequestKey(id)].value.RequestValue? && states[i + 1].db[RequestKey(id)].value.RequestValue?
    ensures var before, after := states[i].db[RequestKey(id)].value.stored, states[i + 1].db[RequestKey(id)].value.stored;
            && Advances(before, after)
            && (after != before ==> steps[i].Attempt?)
            && (after.status == Accepted && before.status != Accepted ==>
                  after.meta.requesterAgentId !in Members(states[i + 1].db, RevokedAgents))
  {
    ExecutionsAreSound(states, steps, i);
    ExecutionsAreSound(states, steps, i + 1);
    assert Retained(states[i].db, states[i].now, id) && Retained(states[i + 1].db, states[i + 1].now, id);
    if steps[i].Attempt? {
      AttemptAdvances(states[i], steps[i].call, steps[i].clock, id);
    }
  }

  ghost predicate AdvancesUnrevoked(before: Database, after: Database, id: string)
    requires RequestKey(id) in before && before[RequestKey(id)].value.RequestValue?
  {
    && RequestKey(id) in after
    && after[RequestKey(id)].value.RequestValue?
    && var earlier, later := before[RequestKey(id)].value.stored, after[RequestKey(id)].value.stored;
    && Advances(earlier, later)
    && (later.status == Accepted && earlier.status != Accepted ==>
          later.meta.requesterAgentId !in Members(after, RevokedAgents))
  }

  lemma AttemptAdvances(s: Relay, call: nat, clock: nat, id: string)
    requires Invariant(s) && Enabled(s, Attempt(call, clock)) && RequestKey(id) in s.db
    ensures s.db[RequestKey(id)].value.RequestValue?
    ensures AdvancesUnrevoked(s.db, AttemptCommit(s, call, clock).db, id)
  {
    assert Retained(s.db, s.now, id);
    var client := s.clients[call];
    var plan := PlanFor(client.operation, client.seen, clock);
    if plan.Commit? && NothingWatchedChanged(s, client) {
      CommitReadsAreCurrent(s, call);
      CommitCreatesFresh(s, call);
      CommitAdvances(s, client.operation, clock, id);
    }
  }

  lemma TransitAdvances(s: Relay, id: string, op: LifecycleOp, clock: nat)
    requires Invariant(s) && RequestKey(id) in s.db && s.db[RequestKey(id)].value.RequestValue?
    requires PlanFor(Transit(id, op), ReadsOf(s.db, Transit(id, op)), clock).Commit?
    ensures var operation := Transit(id, op);
            AdvancesUnrevoked(s.db, ApplyAll(s.db, PlanFor(operation, ReadsOf(s.db, operation), clock).commands, s.now), id)
  {
    hide Lifecycle, Update;
    assert Retained(s.db, s.now, id);
    var seen := ReadsOf(s.db, Transit(id, op));
    var stored := s.db[RequestKey(id)].value.stored;
    var revoked := op.Decide? && ReadsMember(seen, RevokedAgents, stored.meta.requesterAgentId);
    TransitionAdvances(stored, op, clock, revoked);
    if stored.status != Accepted && Transition(stored, op, clock, revoked).value.status == Accepted {
      OnlyUnrevokedRequestersAreAccepted(stored, op, clock, revoked);
    }
    ApplyTwo(s.db, PlanFor(Transit(id, op), seen, clock).commands, s.now);
  }

  lemma CommitAdvances(s: Relay, operation: Operation, clock: nat, id: string)
    requires Invariant(s)
    requires PlanFor(operation, ReadsOf(s.db, operation), clock).Commit?
    requires RequestKey(id) in s.db && s.db[RequestKey(id)].value.RequestValue?
    requires operation.Create? ==> operation.meta.requestId !in CreatedIds(s.log)
    ensures AdvancesUnrevoked(s.db, ApplyAll(s.db, PlanFor(operation, ReadsOf(s.db, operation), clock).commands, s.now), id)
  {
    hide Lifecycle, Update, Transition;
    var commands := PlanFor(operation, ReadsOf(s.db, operation), clock).commands;
    assert Retained(s.db, s.now, id);
    if operation.Transit? && operation.requestId == id {
      TransitAdvances(s, id, operation.op, clock);
    } else if operation.Evict? {
      EvictKeepsOut(s.db, operation.agents, s.now);
    } else {
      assert RequestKey(id) !in Touched(commands);
      ApplyAllFrame(s.db, commands, s.now, RequestKey(id));
    }
  }

  // --- create idempotency over time ---------------------------------------------------------

  /** Request `id` is live and was created under `key`. */
  ghost predicate HoldsKey(s: Relay, id: string, key: Key) {
    && RequestKey(id) in s.db
    && s.db[RequestKey(id)].value.RequestValue?
    && IdempotencyKeyOf(s.db[RequestKey(id)].value.stored.meta) == key
  }

  /** No two live requests were created under the same idempotency key. */
  lemma LiveRequestsHaveOwnKeys(states: seq<Relay>, steps: seq<Step>, i: nat, id: string, other: string, key: Key)
    requires Execution(states, steps) && i < |states|
    requires HoldsKey(states[i], id, key) && HoldsKey(states[i], other, key)
    ensures id == other
  {
    ExecutionsAreSound(states, steps, i);
    assert Retained(states[i].db, states[i].now, id) && Retained(states[i].db, states[i].now, other);
  }

  /** While a request lives, its idempotency record is the one its creation wrote. */
  lemma {:induction false} IdempotencyRecordIsStable(states: seq<Relay>, steps: seq<Step>, i: nat, j: nat, id: string, key: Key)
    requires Execution(states, steps) && i <= j < |states|
    requires HoldsKey(states[i], id, key)
    requires forall k | i <= k <= j :: RequestKey(id) in states[k].db
    ensures HoldsKey(states[j], id, key)
    ensures Get(states[j].db, key) == Get(states[i].db, key)
    decreases j - i
  {
    if i < j {
      IdempotencyRecordIsStable(states, steps, i, j - 1, id, key);
      IdempotencyRecordAtStep(states, steps, j - 1, id, key);
    }
  }

  lemma IdempotencyRecordAtStep(states: seq<Relay>, steps: seq<Step>, i: nat, id: string, key: Key)
    requires Execution(states, steps) && i < |steps|
    requires HoldsKey(states[i], id, key) && RequestKey(id) in states[i + 1].db
    ensures HoldsKey(states[i + 1], id, key)
    ensures Get(states[i + 1].db, key) == Get(states[i].db, key)
  {
    ExecutionsAreSound(states, steps, i);
    StepKeepsIdempotencyRecord(states[i], steps[i], id, key);
  }

  lemma StepKeepsIdempotencyRecord(s: Relay, step: Step, id: string, key: Key)
    requires Invariant(s) && Enabled(s, step) && HoldsKey(s, id, key) && RequestKey(id) in Next(s, step).db
    ensures HoldsKey(Next(s, step), id, key)
    ensures Get(Next(s, step).db, key) == Get(s.db, key)
  {
    StepKeepsInvariant(s, step);
    var t := Next(s, step);
    assert Retained(s.db, s.now, id) && Retained(t.db, t.now, id);
    if step.Attempt? {
      AttemptAdvances(s, step.call, step.clock, id);
      var client := s.clients[step.call];
      if PlanFor(client.operation, client.seen, step.clock).Commit? && NothingWatchedChanged(s, client) {
        CommitReadsAreCurrent(s, step.call);
        CommitKeepsIdempotencyValue(s.db, s.now, client.operation, step.clock, key);
      }
    }
  }

  lemma CommitKeepsIdempotencyValue(db: Database, now: nat, operation: Operation, clock: nat, key: Key)
    requires PlanFor(operation, ReadsOf(db, operation), clock).Commit?
    requires EvictedStayOut(db) && key.IdempotencyKey? && key in db
    ensures Get(ApplyAll(db, PlanFor(operation, ReadsOf(db, operation), clock).commands, now), key) == Get(db, key)
  {
    var commands := PlanFor(operation, ReadsOf(db, operation), clock).commands;
    match operation
    case Transit(_, _) => ApplyTwo(db, commands, now);
    case Create(_, _) =>
      assert key !in Touched(commands);
      ApplyAllFrame(db, commands, now, key);
    case Heartbeat(_) => ApplyTwo(db, commands, now);
    case Evict(agents) => EvictKeepsOut(db, agents, now);
  }

  /**
   A create call under the key of a live request creates nothing, however it was
   interleaved; read at one moment, the same content is answered with that
   request and different content with a conflict.
   */
  lemma RetriedCreateCreatesNothing(states: seq<Relay>, steps: seq<Step>, i: nat, id: string, meta: RequestMeta,
          input: CreateInput)
    requires Execution(states, steps) && i < |steps|
    requires HoldsKey(states[i], id, IdempotencyKeyOf(meta))
    ensures var operation := Create(meta, input);
            var recorded := Get(states[i].db, IdempotencyKeyOf(meta));
            && recorded.Some? && recorded.value.IdempotencyValue? && recorded.value.requestId == id
            && (forall clock :: PlanFor(operation, ReadsOf(states[i].db, operation), clock) ==
                                Finish(if recorded.value.input == input then Existing(id) else Refused(Conflict)))
            && (steps[i].Attempt? && states[i].clients[steps[i].call].operation == operation ==> states[i + 1].db == states[i].db)
  {
    ExecutionsAreSound(states, steps, i);
    var s := states[i];
    assert Retained(s.db, s.now, id);
    if steps[i].Attempt? && s.clients[steps[i].call].operation == Create(meta, input) {
      var client := s.clients[steps[i].call];
      if NothingWatchedChanged(s, client) {
        CommitReadsAreCurrent(s, steps[i].call);
      }
    }
  }
}
