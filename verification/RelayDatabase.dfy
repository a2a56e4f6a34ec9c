/**
 The relay's Redis database under optimistic transactions. Any number of calls
 interleave: a call watches its keys, reads them one at a time, plans its
 writes from what it read, and commits them in one pipeline only if no watched
 key changed. It starts over at most four times.
 */
module RelayDatabase {
  import opened Base
  import opened Protocol
  import opened RelayRecord

  const REQUEST_RETENTION := 7 * 24 * 3600
  const AGENT_TTL := 75
  const MAXIMUM_ATTEMPTS := 5

  datatype Key =
    | RequestKey(requestId: string)
    | IdempotencyKey(agent: string, key: string)
    | InboxKey(agent: string)
    | AgentKey(agent: string)
    | Agents
    | RevokedAgents

  datatype AgentCard = AgentCard(agentId: string, displayName: string)

  /** The content of a create call; its digest is injective, so it is stored as it is. */
  datatype CreateInput = CreateInput(
    targetAgentId: string, conversationId: string, title: string, prompt: string,
    requestedAccess: seq<RequestedAccess>, attachments: seq<ArtifactDescriptor>,
    expiresInSeconds: nat, idempotencyKey: string)

  datatype Value =
    | RequestValue(stored: StoredRequest)
    | IdempotencyValue(requestId: string, input: CreateInput)
    | CardValue(card: AgentCard)
    | SetValue(members: set<string>)

  datatype Entry = Entry(value: Value, expiresAt: Option<nat>)

  type Database = map<Key, Entry>

  datatype Command =
    | Set(key: Key, value: Value, ttl: nat)
    | Expire(key: Key, ttl: nat)
    | Del(key: Key)
    | SAdd(key: Key, member: string)
    | SRem(key: Key, member: string)

  function Get(db: Database, key: Key): Option<Value> {
    if key in db then Some(db[key].value) else None
  }

  function Members(db: Database, key: Key): set<string> {
    if key in db && db[key].value.SetValue? then db[key].value.members else {}
  }

  function Lifetime(db: Database, key: Key): Option<nat> {
    if key in db then db[key].expiresAt else None
  }

  function Apply(db: Database, command: Command, now: nat): Database {
    match command
    case Set(key, value, ttl) => db[key := Entry(value, Some(now + ttl))]
    case Expire(key, ttl) => if key in db then db[key := Entry(db[key].value, Some(now + ttl))] else db
    case Del(key) => db - {key}
    case SAdd(key, member) => db[key := Entry(SetValue(Members(db, key) + {member}), Lifetime(db, key))]
    case SRem(key, member) =>
      if member in Members(db, key) then db[key := Entry(SetValue(Members(db, key) - {member}), Lifetime(db, key))] else db
  }

  function ApplyAll(db: Database, commands: seq<Command>, now: nat): Database
    decreases |commands|
  {
    if commands == [] then db else ApplyAll(Apply(db, commands[0], now), commands[1..], now)
  }

  function Touched(commands: seq<Command>): set<Key> {
    set i | 0 <= i < |commands| :: commands[i].key
  }

  // --- the operations -------------------------------------------------------------

  datatype Operation =
    | Transit(requestId: string, op: LifecycleOp)
    | Create(meta: RequestMeta, input: CreateInput)
    | Heartbeat(card: AgentCard)
    | Evict(agents: seq<string>)

  datatype Outcome =
    | Done(at: nat)
    | Unchanged(stored: StoredRequest)
    | Existing(requestId: string)
    | Refused(error: RelayError)
    | NotFound
    | Exhausted
    | GaveUp

  datatype Plan = Commit(commands: seq<Command>) | Finish(outcome: Outcome)

  function WatchKeys(operation: Operation): set<Key> {
    match operation
    case Transit(id, op) => if op.Decide? then {RequestKey(id), RevokedAgents} else {RequestKey(id)}
    case Create(meta, _) => {IdempotencyKey(meta.requesterAgentId, meta.idempotencyKey)}
    case Heartbeat(_) => {RevokedAgents}
    case Evict(_) => {}
  }

  function IdempotencyKeyOf(meta: RequestMeta): Key {
    IdempotencyKey(meta.requesterAgentId, meta.idempotencyKey)
  }

  type Reads = map<Key, Option<Value>>

  predicate ReadsMember(seen: Reads, key: Key, member: string) {
    key in seen && seen[key].Some? && seen[key].value.SetValue? && member in seen[key].value.members
  }

  function EvictCommands(agents: seq<string>): seq<Command> {
    if agents == [] then []
    else [SAdd(RevokedAgents, agents[0]), SRem(Agents, agents[0]), Del(AgentKey(agents[0]))] + EvictCommands(agents[1..])
  }

  /** What a call does with the values it read, at wall-clock time `clock`. */
  function PlanFor(operation: Operation, seen: Reads, clock: nat): Plan
    requires WatchKeys(operation) <= seen.Keys
  {
    match operation
    case Transit(id, op) =>
      (match seen[RequestKey(id)]
       case Some(RequestValue(stored)) =>
         if stored.meta.requestId != id then Finish(NotFound)
         else
           var revoked := op.Decide? && ReadsMember(seen, RevokedAgents, stored.meta.requesterAgentId);
           (match Transition(stored, op, clock, revoked)
            case Err(error) => Finish(Refused(error))
            case Ok(next) =>
              if next == stored then Finish(Unchanged(stored))
              else Commit([Set(RequestKey(id), RequestValue(next), REQUEST_RETENTION),
                           Expire(IdempotencyKeyOf(stored.meta), REQUEST_RETENTION)]))
       case _ => Finish(NotFound))
    case Create(meta, input) =>
      (match seen[IdempotencyKeyOf(meta)]
       case None =>
         Commit([Set(RequestKey(meta.requestId), RequestValue(Created(meta)), REQUEST_RETENTION),
                 Set(IdempotencyKeyOf(meta), IdempotencyValue(meta.requestId, input), REQUEST_RETENTION),
                 SAdd(InboxKey(meta.targetAgentId), meta.requestId),
                 Expire(InboxKey(meta.targetAgentId), REQUEST_RETENTION)])
       case Some(IdempotencyValue(id, previous)) =>
         if previous != input then Finish(Refused(Conflict)) else Finish(Existing(id))
       case _ => Finish(Refused(Conflict)))
    case Heartbeat(card) =>
      if ReadsMember(seen, RevokedAgents, card.agentId) then Finish(Refused(Forbidden))
      else Commit([Set(AgentKey(card.agentId), CardValue(card), AGENT_TTL), SAdd(Agents, card.agentId)])
    case Evict(agents) => Commit(EvictCommands(agents))
  }

  // --- the interleaved system ----------------------------------------------------

  datatype Client =
    | Watching(operation: Operation, attempt: nat, watched: map<Key, nat>, seen: Reads)
    | Finished(operation: Operation, outcome: Outcome)

  datatype Event =
    | Committed(call: nat, operation: Operation, clock: nat)
    | Elapsed(until: nat)

  datatype Relay = Relay(
    db: Database,
    versions: map<Key, nat>,
    now: nat,
    clients: map<nat, Client>,
    drawn: set<string>,
    log: seq<Event>)

  datatype Step =
    | Begin(call: nat, operation: Operation)
    | Read(call: nat, key: Key)
    | Attempt(call: nat, clock: nat)
    | GiveUp(call: nat)
    | Tick(until: nat)

  function Version(versions: map<Key, nat>, key: Key): nat {
    if key in versions then versions[key] else 0
  }

  function Bumped(versions: map<Key, nat>, touched: set<Key>): map<Key, nat> {
    map key | key in versions.Keys + touched :: Version(versions, key) + if key in touched then 1 else 0
  }

  function Snapshot(versions: map<Key, nat>, keys: set<Key>): map<Key, nat> {
    map key | key in keys :: Version(versions, key)
  }

  function Expired(db: Database, now: nat): set<Key> {
    set key | key in db && db[key].expiresAt.Some? && db[key].expiresAt.value <= now
  }

  const Empty := Relay(map[], map[], 0, map[], {}, [])

  predicate Enabled(s: Relay, step: Step) {
    match step
    case Begin(call, operation) =>
      && call !in s.clients
      && (operation.Create? ==> operation.meta.requestId !in s.drawn)
    case Read(call, key) => call in s.clients && s.clients[call].Watching? && key in s.clients[call].watched
    case Attempt(call, _) =>
      call in s.clients && s.clients[call].Watching? && WatchKeys(s.clients[call].operation) <= s.clients[call].seen.Keys
    case GiveUp(call) => call in s.clients && s.clients[call].Watching?
    case Tick(until) => s.now <= until
  }

  predicate NothingWatchedChanged(s: Relay, client: Client)
    requires client.Watching?
  {
    forall key | key in client.watched :: client.watched[key] == Version(s.versions, key)
  }

  function Next(s: Relay, step: Step): Relay
    requires Enabled(s, step)
  {
    match step
    case Begin(call, operation) =>
      s.(clients := s.clients[call := Watching(operation, 1, Snapshot(s.versions, WatchKeys(operation)), map[])],
         drawn := if operation.Create? then s.drawn + {operation.meta.requestId} else s.drawn)
    case Read(call, key) =>
      var client := s.clients[call];
      s.(clients := s.clients[call := client.(seen := client.seen[key := Get(s.db, key)])])
    case Attempt(call, clock) => AttemptCommit(s, call, clock)
    case GiveUp(call) => s.(clients := s.clients[call := Finished(s.clients[call].operation, GaveUp)])
    case Tick(until) =>
      s.(db := s.db - Expired(s.db, until), versions := Bumped(s.versions, Expired(s.db, until)),
         now := until, log := s.log + [Elapsed(until)])
  }

  function AttemptCommit(s: Relay, call: nat, clock: nat): Relay
    requires Enabled(s, Attempt(call, clock))
  {
    var client := s.clients[call];
    match PlanFor(client.operation, client.seen, clock)
    case Finish(outcome) => s.(clients := s.clients[call := Finished(client.operation, outcome)])
    case Commit(commands) =>
      if NothingWatchedChanged(s, client) then
        s.(db := ApplyAll(s.db, commands, s.now), versions := Bumped(s.versions, Touched(commands)),
           clients := s.clients[call := Finished(client.operation, Done(|s.log|))],
           log := s.log + [Committed(call, client.operation, clock)])
      else if client.attempt == MAXIMUM_ATTEMPTS then
        s.(clients := s.clients[call := Finished(client.operation, Exhausted)])
      else
        s.(clients := s.clients[call := Watching(client.operation, client.attempt + 1,
                                                 Snapshot(s.versions, WatchKeys(client.operation)), map[])])
  }

  /** A run of the interleaved system: its states and the steps between them. */
  ghost predicate Execution(states: seq<Relay>, steps: seq<Step>) {
    && |states| == |steps| + 1
    && states[0] == Empty
    && (forall i | 0 <= i < |steps| :: Enabled(states[i], steps[i]) && states[i + 1] == Next(states[i], steps[i]))
  }

  // --- the sequential reference ------------------------------------------------------

  datatype Sequential = Sequential(db: Database, now: nat)

  /** The values one atomic operation would read. */
  function ReadsOf(db: Database, operation: Operation): Reads {
    map key | key in WatchKeys(operation) :: Get(db, key)
  }

  function SequentialStep(q: Sequential, event: Event): Sequential {
    match event
    case Elapsed(until) => Sequential(q.db - Expired(q.db, until), until)
    case Committed(_, operation, clock) =>
      match PlanFor(operation, ReadsOf(q.db, operation), clock)
      case Finish(_) => q
      case Commit(commands) => Sequential(ApplyAll(q.db, commands, q.now), q.now)
  }

  function Replay(log: seq<Event>): Sequential {
    if log == [] then Sequential(map[], 0)
    else SequentialStep(Replay(log[..|log| - 1]), log[|log| - 1])
  }

  // --- linearization ------------------------------------------------------------------

  ghost predicate ClientConsistent(s: Relay, client: Client) {
    client.Watching? ==>
      && client.watched.Keys == WatchKeys(client.operation)
      && 1 <= client.attempt <= MAXIMUM_ATTEMPTS
      && client.seen.Keys <= client.watched.Keys
      && (forall key | key in client.watched :: client.watched[key] <= Version(s.versions, key))
      && (forall key | key in client.seen ::
            client.watched[key] == Version(s.versions, key) ==> client.seen[key] == Get(s.db, key))
  }

  /** The log names exactly the committed calls, each at the place its outcome records. */
  ghost predicate LogNamesCommits(s: Relay) {
    && (forall i | 0 <= i < |s.log| && s.log[i].Committed? ::
          s.log[i].call in s.clients && s.clients[s.log[i].call] == Finished(s.log[i].operation, Done(i)))
    && (forall call | call in s.clients && s.clients[call].Finished? && s.clients[call].outcome.Done? ::
          var at := s.clients[call].outcome.at;
          at < |s.log| && s.log[at].Committed? && s.log[at].call == call)
  }

  /** Request identifiers are drawn once, so no two calls create the same request. */
  ghost predicate FreshCreates(s: Relay) {
    && (forall call | call in s.clients && s.clients[call].operation.Create? ::
        s.clients[call].operation.meta.requestId in s.drawn)
    && (forall c, d | c in s.clients && d in s.clients && s.clients[c].operation.Create?
        && s.clients[d].operation.Create? && c != d ::
          s.clients[c].operation.meta.requestId != s.clients[d].operation.meta.requestId)
  }

  ghost predicate Linearized(s: Relay) {
    && Replay(s.log) == Sequential(s.db, s.now)
    && (forall call | call in s.clients :: ClientConsistent(s, s.clients[call]))
    && LogNamesCommits(s)
    && FreshCreates(s)
  }

  lemma {:induction false} ApplyAllFrame(db: Database, commands: seq<Command>, now: nat, key: Key)
    requires key !in Touched(commands)
    ensures Get(ApplyAll(db, commands, now), key) == Get(db, key)
    ensures Lifetime(ApplyAll(db, commands, now), key) == Lifetime(db, key)
    ensures key in ApplyAll(db, commands, now) <==> key in db
    decreases |commands|
  {
    if commands != [] {
      assert commands[0].key != key;
      forall i | 0 <= i < |commands[1..]| ensures commands[1..][i].key != key {
        assert commands[1..][i] == commands[i + 1];
      }
      ApplyAllFrame(Apply(db, commands[0], now), commands[1..], now, key);
    }
  }

  /** Changing only bumped keys keeps every client's reads consistent. */
  lemma ConsistencyFrame(s: Relay, t: Relay, client: Client, touched: set<Key>)
    requires ClientConsistent(s, client)
    requires t.versions == Bumped(s.versions, touched)
    requires forall key | key !in touched :: Get(t.db, key) == Get(s.db, key)
    ensures ClientConsistent(t, client)
  {
  }

  lemma ReplayAppend(log: seq<Event>, event: Event)
    ensures Replay(log + [event]) == SequentialStep(Replay(log), event)
  {
  }

  lemma StepKeepsLinearized(s: Relay, step: Step)
    requires Linearized(s) && Enabled(s, step)
    ensures Linearized(Next(s, step))
  {
    var t := Next(s, step);
    match step
    case Begin(call, operation) => BeginKeepsLinearized(s, call, operation);
    case Read(call, key) => ReplaceClient(s, call, t.clients[call]);
    case GiveUp(call) => ReplaceClient(s, call, t.clients[call]);
    case Tick(until) =>
      var gone := Expired(s.db, until);
      ReplayAppend(s.log, Elapsed(until));
      forall c | c in t.clients ensures ClientConsistent(t, t.clients[c]) {
        ConsistencyFrame(s, t, s.clients[c], gone);
      }
    case Attempt(call, clock) => AttemptKeepsLinearized(s, call, clock);
  }

  lemma BeginKeepsLinearized(s: Relay, call: nat, operation: Operation)
    requires Linearized(s) && Enabled(s, Begin(call, operation))
    ensures Linearized(Next(s, Begin(call, operation)))
  {
    var t := Next(s, Begin(call, operation));
    forall c | c in t.clients ensures ClientConsistent(t, t.clients[c]) {
      if c != call {
        ConsistencyFrame(s, t, s.clients[c], {});
      }
    }
  }

  lemma AttemptKeepsLinearized(s: Relay, call: nat, clock: nat)
    requires Linearized(s) && Enabled(s, Attempt(call, clock))
    ensures Linearized(AttemptCommit(s, call, clock))
  {
    var client := s.clients[call];
    var plan := PlanFor(client.operation, client.seen, clock);
    if plan.Commit? && NothingWatchedChanged(s, client) {
      CommitKeepsLinearized(s, call, clock);
    } else {
      AttemptWithoutCommit(s, call, clock);
    }
  }

  /** A call that does not commit changes neither the database nor the log. */
  lemma AttemptWithoutCommit(s: Relay, call: nat, clock: nat)
    requires Linearized(s) && Enabled(s, Attempt(call, clock))
    requires var client := s.clients[call];
             PlanFor(client.operation, client.seen, clock).Finish? || !NothingWatchedChanged(s, client)
    ensures var t := AttemptCommit(s, call, clock);
            && t.db == s.db && t.versions == s.versions && t.log == s.log && t.now == s.now
            && Linearized(t)
  {
    var t := AttemptCommit(s, call, clock);
    var after := t.clients[call];
    assert t == s.(clients := s.clients[call := after]);
    assert after.operation == s.clients[call].operation;
    assert after.Finished? ==> !after.outcome.Done?;
    ReplaceClient(s, call, after);
  }

  /** Replacing a client that has not committed by one that has not committed either. */
  lemma ReplaceClient(s: Relay, call: nat, after: Client)
    requires Linearized(s) && call in s.clients && s.clients[call].Watching?
    requires after.operation == s.clients[call].operation
    requires after.Finished? ==> !after.outcome.Done?
    requires ClientConsistent(s, after)
    ensures Linearized(s.(clients := s.clients[call := after]))
  {
    var t := s.(clients := s.clients[call := after]);
    assert LogNamesCommits(t);
    assert FreshCreates(t);
    forall c | c in t.clients ensures ClientConsistent(t, t.clients[c]) {
      assert ClientConsistent(s, t.clients[c]);
    }
  }

  lemma CommitKeepsLinearized(s: Relay, call: nat, clock: nat)
    requires Linearized(s) && Enabled(s, Attempt(call, clock))
    requires NothingWatchedChanged(s, s.clients[call])
    requires PlanFor(s.clients[call].operation, s.clients[call].seen, clock).Commit?
    ensures Linearized(AttemptCommit(s, call, clock))
  {
    var t := AttemptCommit(s, call, clock);
    var client := s.clients[call];
    var commands := PlanFor(client.operation, client.seen, clock).commands;
    CommitReadsAreCurrent(s, call);
    ReplayAppend(s.log, Committed(call, client.operation, clock));
    forall c | c in t.clients ensures ClientConsistent(t, t.clients[c]) {
      if c != call {
        forall key | key !in Touched(commands) ensures Get(t.db, key) == Get(s.db, key) {
          ApplyAllFrame(s.db, commands, s.now, key);
        }
        ConsistencyFrame(s, t, s.clients[c], Touched(commands));
      }
    }
    CommitLogs(s, t, call, clock);
    assert FreshCreates(t);
  }

  lemma CommitLogs(s: Relay, t: Relay, call: nat, clock: nat)
    requires LogNamesCommits(s) && call in s.clients && s.clients[call].Watching?
    requires t.log == s.log + [Committed(call, s.clients[call].operation, clock)]
    requires t.clients == s.clients[call := Finished(s.clients[call].operation, Done(|s.log|))]
    ensures LogNamesCommits(t)
  {
  }

  /** At the moment of a commit, the values read key by key are all current. */
  lemma CommitReadsAreCurrent(s: Relay, call: nat)
    requires Linearized(s) && call in s.clients && s.clients[call].Watching?
    requires WatchKeys(s.clients[call].operation) <= s.clients[call].seen.Keys
    requires NothingWatchedChanged(s, s.clients[call])
    ensures s.clients[call].seen == ReadsOf(s.db, s.clients[call].operation)
  {
  }
}
