/**
 The controller's per-conversation lock and its run limit, with any number of
 callers that may be cancelled at any time. A step of a caller is one critical
 section or one channel operation. Lock objects are numbered as they are made.
 */
module ConversationLock {
  import opened Base

  type Session = nat

  /** A keyed lock: callers that refer to it, and the tokens in its gate, a channel of capacity one. */
  datatype Lock = Lock(conversation: string, refs: int, tokens: nat)

  datatype Table = Table(locks: map<string, nat>, heap: map<nat, Lock>, made: nat)

  // --- the two sections under the table's mutex ------------------------------------------------

  function Registered(table: Table, conversation: string): (Table, nat)
    requires conversation in table.locks ==> table.locks[conversation] in table.heap
  {
    if conversation in table.locks then
      var id := table.locks[conversation];
      (table.(heap := table.heap[id := table.heap[id].(refs := table.heap[id].refs + 1)]), id)
    else
      var id := table.made;
      (Table(table.locks[conversation := id], table.heap[id := Lock(conversation, 1, 1)], id + 1), id)
  }

  function RefReleased(table: Table, conversation: string, id: nat): Table
    requires id in table.heap
  {
    var lock := table.heap[id].(refs := table.heap[id].refs - 1);
    var heap := table.heap[id := lock];
    if lock.refs == 0 && conversation in table.locks && table.locks[conversation] == id
    then table.(heap := heap, locks := table.locks - {conversation})
    else table.(heap := heap)
  }

  class LockTable {
    var locks: map<string, nat>
    var heap: map<nat, Lock>
    var made: nat

    function State(): Table
      reads this
    {
      Table(locks, heap, made)
    }

    constructor ()
      ensures State() == Table(map[], map[], 0)
    {
      locks, heap, made := map[], map[], 0;
    }

    method Register(conversation: string) returns (id: nat)
      requires conversation in locks ==> locks[conversation] in heap
      modifies this
      ensures (State(), id) == Registered(old(State()), conversation)
    {
      if conversation !in locks {
        heap := heap[made := Lock(conversation, 0, 1)];
        locks := locks[conversation := made];
        made := made + 1;
      }
      id := locks[conversation];
      assert conversation !in old(locks) ==> heap[id := heap[id].(refs := 1)] == old(heap)[id := Lock(conversation, 1, 1)];
      heap := heap[id := heap[id].(refs := heap[id].refs + 1)];
    }

    method ReleaseConversationRef(conversation: string, id: nat)
      requires id in heap
      modifies this
      ensures State() == RefReleased(old(State()), conversation, id)
    {
      heap := heap[id := heap[id].(refs := heap[id].refs - 1)];
      if heap[id].refs == 0 && conversation in locks && locks[conversation] == id {
        locks := locks - {conversation};
      }
    }
  }

  // --- callers ----------------------------------------------------------------------------------

  datatype Caller =
    | Outside
    | Waiting(conversation: string, id: nat)
    | Acquired(conversation: string, id: nat)
    | Returning(conversation: string, id: nat)
    | Holding(conversation: string, id: nat)
    | Running(conversation: string, id: nat, loaded: Option<Session>)
    | Releasing(conversation: string, id: nat)
    | Dropping(conversation: string, id: nat)

  datatype RunOutcome = RunFailed | Finished(session: Option<Session>)

  datatype State = State(table: Table, callers: map<nat, Caller>, slots: nat, limit: nat, sessions: map<string, Session>)

  datatype Step =
    | Enter(caller: nat, name: string)
    | CancelWhileWaiting(caller: nat)
    | TakeToken(caller: nat)
    | ContextAlive(caller: nat)
    | ContextCancelled(caller: nat)
    | PutTokenBack(caller: nat)
    | DropRef(caller: nat)
    | StartRun(caller: nat)
    | CancelBeforeRun(caller: nat)
    | EndRun(caller: nat, outcome: RunOutcome)

  function Loaded(sessions: map<string, Session>, conversation: string): Option<Session> {
    if conversation in sessions then Some(sessions[conversation]) else None
  }

  /** What a finished run leaves as the conversation's session. */
  function Stored(sessions: map<string, Session>, conversation: string, outcome: RunOutcome): map<string, Session> {
    match outcome
    case RunFailed => sessions
    case Finished(None) => sessions - {conversation}
    case Finished(Some(session)) => sessions[conversation := session]
  }

  function WithTokens(table: Table, id: nat, tokens: nat): Table
    requires id in table.heap
  {
    table.(heap := table.heap[id := table.heap[id].(tokens := tokens)])
  }

  function Next(s: State, step: Step): Option<State> {
    var who := step.caller;
    var caller := if who in s.callers then s.callers[who] else Outside;
    if caller != Outside && caller.id !in s.table.heap then None
    else
      match (step, caller)
      case (Enter(_, name), Outside) =>
        if name in s.table.locks && s.table.locks[name] !in s.table.heap then None
        else
          var registered := Registered(s.table, name);
          Some(s.(table := registered.0, callers := s.callers[who := Waiting(name, registered.1)]))
      case (CancelWhileWaiting(_), Waiting(c, id)) => Some(s.(callers := s.callers[who := Dropping(c, id)]))
      case (TakeToken(_), Waiting(c, id)) =>
        if s.table.heap[id].tokens == 0 then None
        else Some(s.(table := WithTokens(s.table, id, s.table.heap[id].tokens - 1), callers := s.callers[who := Acquired(c, id)]))
      case (ContextAlive(_), Acquired(c, id)) => Some(s.(callers := s.callers[who := Holding(c, id)]))
      case (ContextCancelled(_), Acquired(c, id)) => Some(s.(callers := s.callers[who := Returning(c, id)]))
      case (PutTokenBack(_), Returning(c, id)) => PutBack(s, who, c, id)
      case (PutTokenBack(_), Releasing(c, id)) => PutBack(s, who, c, id)
      case (DropRef(_), Dropping(c, id)) => Some(s.(table := RefReleased(s.table, c, id), callers := s.callers - {who}))
      case (StartRun(_), Holding(c, id)) =>
        if s.slots >= s.limit then None
        else Some(s.(slots := s.slots + 1, callers := s.callers[who := Running(c, id, Loaded(s.sessions, c))]))
      case (CancelBeforeRun(_), Holding(c, id)) => Some(s.(callers := s.callers[who := Releasing(c, id)]))
      case (EndRun(_, outcome), Running(c, id, _)) =>
        if s.slots == 0 then None
        else Some(s.(slots := s.slots - 1, sessions := Stored(s.sessions, c, outcome),
            callers := s.callers[who := Releasing(c, id)]))
      case _ => None
  }

  /** Sending to the gate would block if the gate already held its token. */
  function PutBack(s: State, who: nat, c: string, id: nat): Option<State>
    requires id in s.table.heap
  {
    if s.table.heap[id].tokens >= 1 then None
    else Some(s.(table := WithTokens(s.table, id, s.table.heap[id].tokens + 1), callers := s.callers[who := Dropping(c, id)]))
  }

  // --- the invariant ---------------------------------------------------------------------------

  predicate RefersTo(caller: Caller, id: nat) {
    !caller.Outside? && caller.id == id
  }

  predicate HasToken(caller: Caller, id: nat) {
    RefersTo(caller, id) && !caller.Waiting? && !caller.Dropping?
  }

  function Referrers(callers: map<nat, Caller>, id: nat): set<nat> {
    set who | who in callers && RefersTo(callers[who], id)
  }

  function Holders(callers: map<nat, Caller>, id: nat): set<nat> {
    set who | who in callers && HasToken(callers[who], id)
  }

  function Runners(callers: map<nat, Caller>): set<nat> {
    set who | who in callers && callers[who].Running?
  }

  /** Tokens and holders of one lock make one; its references are its callers; it is in the table exactly while it has any. */
  predicate LockOk(s: State, id: nat) {
    id in s.table.heap ==>
      var lock := s.table.heap[id];
      && lock.tokens + |Holders(s.callers, id)| == 1
      && lock.refs == |Referrers(s.callers, id)|
      && (lock.refs > 0 <==> lock.conversation in s.table.locks && s.table.locks[lock.conversation] == id)
  }

  predicate TableOk(s: State) {
    && (forall id | id in s.table.heap :: id < s.table.made)
    && (forall c | c in s.table.locks :: s.table.locks[c] in s.table.heap && s.table.heap[s.table.locks[c]].conversation == c)
    && (forall who | who in s.callers && s.callers[who] != Outside ::
          s.callers[who].id in s.table.heap && s.table.heap[s.callers[who].id].conversation == s.callers[who].conversation)
  }

  predicate RunsOk(s: State) {
    && s.slots == |Runners(s.callers)| <= s.limit
    && (forall who | who in s.callers && s.callers[who].Running? ::
        s.callers[who].loaded == Loaded(s.sessions, s.callers[who].conversation))
  }

  ghost predicate Inv(s: State) {
    TableOk(s) && RunsOk(s) && forall id :: LockOk(s, id)
  }

  /** The callers that satisfy a condition, after one caller changed. */
  lemma SetAfter(before: set<nat>, after: set<nat>, who: nat, wasIn: bool, isIn: bool)
    requires forall x | x != who :: x in before <==> x in after
    requires (who in before <==> wasIn) && (who in after <==> isIn)
    ensures |after| == |before| + (if isIn then 1 else 0) - (if wasIn then 1 else 0)
  {
    if wasIn == isIn {
      assert after == before;
    } else if isIn {
      assert after == before + {who};
    } else {
      assert before == after + {who};
    }
  }

  function At(callers: map<nat, Caller>, who: nat): Caller {
    if who in callers then callers[who] else Outside
  }

  /** How one caller's change shows in the three counts. */
  lemma CountsAfter(before: map<nat, Caller>, after: map<nat, Caller>, who: nat, id: nat)
    requires forall x | x != who :: At(before, x) == At(after, x)
    ensures |Referrers(after, id)| == |Referrers(before, id)| + (if RefersTo(At(after, who),
        id) then 1 else 0) - (if RefersTo(At(before, who), id) then 1 else 0)
    ensures |Holders(after, id)| == |Holders(before, id)| + (if HasToken(At(after, who),
        id) then 1 else 0) - (if HasToken(At(before, who), id) then 1 else 0)
    ensures |Runners(after)| == |Runners(before)| + (if At(after, who).Running? then 1 else 0) - (if At(before,
        who).Running? then 1 else 0)
  {
    assert forall x | x != who :: x in Referrers(before, id) <==> x in Referrers(after, id) by { Unchanged(before, after,
        who, id); }
    assert forall x | x != who :: x in Holders(before, id) <==> x in Holders(after, id) by { Unchanged(before, after, who, id); }
    assert forall x | x != who :: x in Runners(before) <==> x in Runners(after) by { Unchanged(before, after, who, id); }
    SetAfter(Referrers(before, id), Referrers(after, id), who, RefersTo(At(before, who), id), RefersTo(At(after, who), id));
    SetAfter(Holders(before, id), Holders(after, id), who, HasToken(At(before, who), id), HasToken(At(after, who), id));
    SetAfter(Runners(before), Runners(after), who, At(before, who).Running?, At(after, who).Running?);
  }

  lemma Unchanged(before: map<nat, Caller>, after: map<nat, Caller>, who: nat, id: nat)
    requires forall x | x != who :: At(before, x) == At(after, x)
    ensures forall x | x != who :: x in Referrers(before, id) <==> x in Referrers(after, id)
    ensures forall x | x != who :: x in Holders(before, id) <==> x in Holders(after, id)
    ensures forall x | x != who :: x in Runners(before) <==> x in Runners(after)
  {
    forall x | x != who
      ensures x in Referrers(before, id) <==> x in Referrers(after, id)
      ensures x in Holders(before, id) <==> x in Holders(after, id)
      ensures x in Runners(before) <==> x in Runners(after)
    {
      assert At(before, x) == At(after, x);
    }
  }

  lemma NobodyRefersToAbsent(s: State, id: nat)
    requires TableOk(s) && id !in s.table.heap
    ensures Referrers(s.callers, id) == {} && Holders(s.callers, id) == {}
  {
  }

  lemma HolderIsReferrer(callers: map<nat, Caller>, id: nat)
    ensures Holders(callers, id) <= Referrers(callers, id)
    ensures |Holders(callers, id)| <= |Referrers(callers, id)|
  {
    Smaller(Holders(callers, id), Referrers(callers, id));
  }

  lemma Smaller(a: set<nat>, b: set<nat>)
    requires a <= b
    ensures |a| <= |b|
  {
    assert b == a + (b - a);
  }

  lemma StepKeepsLock(s: State, step: Step, id: nat)
    requires Inv(s) && Next(s, step).Some?
    ensures LockOk(Next(s, step).value, id)
  {
    hide Referrers, Holders, Runners;
    var t := Next(s, step).value;
    CountsAfter(s.callers, t.callers, step.caller, id);
    HolderIsReferrer(s.callers, id);
    assert LockOk(s, id);
    if id !in s.table.heap {
      NobodyRefersToAbsent(s, id);
    }
    if step.Enter? && step.name in s.table.locks {
      assert LockOk(s, s.table.locks[step.name]);
    }
    if step.DropRef? {
      assert LockOk(s, s.callers[step.caller].id);
    }
  }

  lemma StepKeepsTable(s: State, step: Step)
    requires Inv(s) && Next(s, step).Some?
    ensures TableOk(Next(s, step).value)
  {
    hide LockOk, RunsOk;
  }

  /** Two callers that have the token of one conversation are the same caller. */
  lemma TokenIsExclusive(s: State, a: nat, b: nat)
    requires Inv(s) && a in s.callers && b in s.callers && s.callers[a] != Outside && s.callers[b] != Outside
    requires HasToken(s.callers[a], s.callers[a].id) && HasToken(s.callers[b], s.callers[b].id)
    requires s.callers[a].conversation == s.callers[b].conversation
    ensures a == b
  {
    SameLock(s, a, b);
    var id := s.callers[a].id;
    assert LockOk(s, id);
    if a != b {
      assert {a, b} <= Holders(s.callers, id);
      Smaller({a, b}, Holders(s.callers, id));
      assert false;
    }
  }

  /** Callers of one conversation refer to one lock object. */
  lemma SameLock(s: State, a: nat, b: nat)
    requires Inv(s) && a in s.callers && b in s.callers && s.callers[a] != Outside && s.callers[b] != Outside
    requires s.callers[a].conversation == s.callers[b].conversation
    ensures s.callers[a].id == s.callers[b].id
  {
    ReferredIsListed(s, a);
    ReferredIsListed(s, b);
  }

  lemma ReferredIsListed(s: State, who: nat)
    requires Inv(s) && who in s.callers && s.callers[who] != Outside
    ensures s.callers[who].conversation in s.table.locks && s.table.locks[s.callers[who].conversation] == s.callers[who].id
  {
    var id := s.callers[who].id;
    assert LockOk(s, id);
    assert who in Referrers(s.callers, id);
    Smaller({who}, Referrers(s.callers, id));
  }

  lemma StepKeepsRuns(s: State, step: Step)
    requires Inv(s) && Next(s, step).Some?
    ensures RunsOk(Next(s, step).value)
  {
    var t := Next(s, step).value;
    CountsAfter(s.callers, t.callers, step.caller, 0);
    if step.EndRun? {
      forall who | who in t.callers && t.callers[who].Running?
        ensures t.callers[who].loaded == Loaded(t.sessions, t.callers[who].conversation)
      {
        if s.callers[who].conversation == s.callers[step.caller].conversation {
          TokenIsExclusive(s, who, step.caller);
        }
      }
    }
    hide LockOk, Referrers, Holders, Runners;
  }

  lemma StepKeepsInv(s: State, step: Step)
    requires Inv(s) && Next(s, step).Some?
    ensures Inv(Next(s, step).value)
  {
    hide LockOk, TableOk, RunsOk, Next;
    StepKeepsTable(s, step);
    StepKeepsRuns(s, step);
    forall id ensures LockOk(Next(s, step).value, id) {
      StepKeepsLock(s, step, id);
    }
  }

  // --- the guarantees ----------------------------------------------------------------------------

  predicate Initial(s: State) {
    s.table == Table(map[], map[], 0) && s.callers == map[] && s.slots == 0
  }

  ghost predicate Run(states: seq<State>, steps: seq<Step>) {
    && |states| == |steps| + 1 && Initial(states[0])
    && (forall i | 0 <= i < |steps| :: Next(states[i], steps[i]) == Some(states[i + 1]))
  }

  lemma RunStep(states: seq<State>, steps: seq<Step>, i: nat)
    requires Run(states, steps) && i < |steps| && Inv(states[i])
    ensures Inv(states[i + 1])
  {
    hide Inv, Next;
    assert Next(states[i], steps[i]) == Some(states[i + 1]);
    StepKeepsInv(states[i], steps[i]);
  }

  lemma {:induction false} RunsKeepInv(states: seq<State>, steps: seq<Step>, i: nat)
    requires Run(states, steps) && i < |states|
    ensures Inv(states[i])
  {
    if i > 0 {
      hide Inv, Next;
      RunsKeepInv(states, steps, i - 1);
      RunStep(states, steps, i - 1);
    }
  }

  /**
   In every interleaving: one holder per conversation, one live lock object per
   conversation, which is in the table exactly while somebody refers to it,
   and never more runs than the limit.
   */
  lemma ConversationsAreExclusive(states: seq<State>, steps: seq<Step>, i: nat)
    requires Run(states, steps) && i < |states|
    ensures var s := states[i];
            && (forall a, b | a in s.callers && b in s.callers && s.callers[a] != Outside && s.callers[b] != Outside
                              && s.callers[a].conversation == s.callers[b].conversation ::
                  && s.callers[a].id == s.callers[b].id
                  && (HasToken(s.callers[a], s.callers[a].id) && HasToken(s.callers[b], s.callers[b].id) ==> a == b))
            && (forall c :: c in s.table.locks <==> exists who | who in s.callers :: s.callers[who] != Outside && s.callers[who].conversation == c)
            && |Runners(s.callers)| <= s.limit
  {
    RunsKeepInv(states, steps, i);
    var s := states[i];
    hide Run, Next;
    forall a, b | a in s.callers && b in s.callers && s.callers[a] != Outside && s.callers[b] != Outside
                  && s.callers[a].conversation == s.callers[b].conversation
      ensures s.callers[a].id == s.callers[b].id
      ensures HasToken(s.callers[a], s.callers[a].id) && HasToken(s.callers[b], s.callers[b].id) ==> a == b
    {
      SameLock(s, a, b);
      if HasToken(s.callers[a], s.callers[a].id) && HasToken(s.callers[b], s.callers[b].id) {
        TokenIsExclusive(s, a, b);
      }
    }
    forall c ensures c in s.table.locks <==> exists who | who in s.callers :: s.callers[who] != Outside && s.callers[who].conversation == c {
      ListedIsReferred(s, c);
    }
  }

  lemma ListedIsReferred(s: State, c: string)
    requires Inv(s)
    ensures c in s.table.locks <==> exists who | who in s.callers :: s.callers[who] != Outside && s.callers[who].conversation == c
  {
    if c in s.table.locks {
      var id := s.table.locks[c];
      assert LockOk(s, id);
      assert Referrers(s.callers, id) != {};
      var who :| who in Referrers(s.callers, id);
      assert s.callers[who] != Outside && s.callers[who].conversation == c;
    }
    forall who | who in s.callers && s.callers[who] != Outside && s.callers[who].conversation == c ensures c in s.table.locks {
      ReferredIsListed(s, who);
    }
  }

  /** A caller giving its token back never blocks, and a waiter finds the token as soon as nobody has it. */
  lemma NobodyIsStuck(states: seq<State>, steps: seq<Step>, i: nat, who: nat)
    requires Run(states, steps) && i < |states| && who in states[i].callers
    ensures var s := states[i];
            && (s.callers[who].Returning? || s.callers[who].Releasing? ==> Next(s, PutTokenBack(who)).Some?)
            && (s.callers[who].Waiting? && Holders(s.callers, s.callers[who].id) == {} ==> Next(s, TakeToken(who)).Some?)
  {
    RunsKeepInv(states, steps, i);
    var s := states[i];
    hide Run;
    if s.callers[who] != Outside {
      var id := s.callers[who].id;
      assert LockOk(s, id);
      if HasToken(s.callers[who], id) {
        Smaller({who}, Holders(s.callers, id));
      }
    }
  }

  /** Runs of one conversation pass its session on: when a run ends, the session it was given is still the stored one. */
  lemma SessionsAreNotLost(states: seq<State>, steps: seq<Step>, i: nat, who: nat)
    requires Run(states, steps) && i < |states| && who in states[i].callers && states[i].callers[who].Running?
    ensures var s := states[i]; s.callers[who].loaded == Loaded(s.sessions, s.callers[who].conversation)
  {
    RunsKeepInv(states, steps, i);
  }
}
