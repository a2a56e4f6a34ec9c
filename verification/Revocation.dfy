/**
 Runs of the approval store across crashes, power losses, reloads, authority
 switches and recoveries, and what a completed revocation means for all of them.
 */
module Revocation {
  import opened Base
  import opened Protocol
  import opened Approvals
  import opened ApprovalStorage
  import opened DurableFile

  datatype Event =
    | Operate(operation: Operation, now: nat, outcome: WriteOutcome)
    | Settled
    | Restart(powerLost: bool, now: nat, outcome: WriteOutcome)

  /** A new process starts from empty memory and reads whichever file survived. */
  function Step(store: Store, event: Event): Store {
    match event
    case Operate(operation, now, outcome) => Perform(store, operation, now, outcome)
    case Settled => store.(disk := Settle(store.disk))
    case Restart(powerLost, now, outcome) =>
      var disk := if powerLost then LosePower(store.disk) else store.disk;
      LoadStore(Store(Snapshot(map[], map[]), disk), now, outcome)
  }

  function Run(store: Store, events: seq<Event>): Store {
    if events == [] then store else Step(Run(store, events[..|events| - 1]), events[|events| - 1])
  }

  /** The event chooses grant `id` explicitly. */
  predicate Chooses(event: Event, id: GrantID) {
    && event.Operate? && event.operation.Upsert?
    && Standing(event.operation.level)
    && NormalInput(event.operation.authority, event.operation.level, event.operation.candidate)
    && InputGrant(event.operation.authority, event.operation.level, event.operation.candidate, event.now).grantId == id
  }

  /** The event's write deletes the file: the published snapshot did not keep private permissions. */
  predicate ErasesFile(store: Store, event: Event) {
    match event
    case Operate(Reload, now, outcome) => outcome == Erased && LoadStore(store, now, Erased).disk.visible == None
    case Operate(operation, now, outcome) => outcome == Erased && Content(store.memory, operation, now) != store.memory
    case Settled => false
    case Restart(powerLost, now, outcome) =>
      var disk := if powerLost then LosePower(store.disk) else store.disk;
      outcome == Erased && LoadStore(Store(Snapshot(map[], map[]), disk), now, Erased).disk.visible == None
  }

  predicate Clocked(event: Event) {
    event.Settled? || event.now > 0
  }

  /** An operation other than an explicit choice of `id` keeps a tombstone and adds no grant beside it. */
  lemma ContentKeepsTombstone(memory: Snapshot, operation: Operation, now: nat, id: GrantID)
    requires id in memory.revocations && id !in memory.grants
    requires !Chooses(Operate(operation, now, Written), id)
    ensures id in Content(memory, operation, now).revocations && id !in Content(memory, operation, now).grants
  {
  }

  /** A step that does not choose the grant keeps its tombstone everywhere, exactly unless its write deletes the file. */
  lemma StepKeepsTombstone(store: Store, event: Event, id: GrantID)
    requires SoundStore(store) && Clocked(event) && Tombstoned(store, id) && !Chooses(event, id)
    ensures Tombstoned(Step(store, event), id) <==> !ErasesFile(store, event)
    ensures SoundStore(Step(store, event))
    ensures id !in Step(store, event).memory.grants
  {
    hide ValidGrant, Covers, StableGrantID, NormalizeCandidate, NormalizeAuthority, Content;
    match event
    case Operate(operation, now, outcome) =>
      OperationKeepsSound(store, operation, now, outcome);
      if operation != Reload {
        assert !Chooses(Operate(operation, now, Written), id);
        ContentKeepsTombstone(store.memory, operation, now, id);
      } else {
        WrittenSnapshotsReload(store, now, outcome);
      }
    case Settled =>
    case Restart(powerLost, now, outcome) =>
      var disk := if powerLost then LosePower(store.disk) else store.disk;
      var empty := Store(Snapshot(map[], map[]), disk);
      OperationKeepsSound(empty, Reload, now, outcome);
      WrittenSnapshotsReload(empty, now, outcome);
  }

  ghost predicate Uneventful(store: Store, events: seq<Event>, id: GrantID) {
    forall i | 0 <= i < |events| ::
      Clocked(events[i]) && !Chooses(events[i], id) && !ErasesFile(Run(store, events[..i]), events[i])
  }

  /**
   After a completed revocation no run of operations, crashes, reloads,
   authority switches and prepared-approval recoveries brings the grant back
   before the recipient chooses its scope again.
   */
  lemma {:induction false} RevokedGrantStaysRevoked(store: Store, events: seq<Event>, id: GrantID)
    requires SoundStore(store) && Tombstoned(store, id) && Uneventful(store, events, id)
    ensures SoundStore(Run(store, events)) && Tombstoned(Run(store, events), id)
  {
    if events != [] {
      var before := events[..|events| - 1];
      forall i | 0 <= i < |before|
        ensures Clocked(before[i]) && !Chooses(before[i], id) && !ErasesFile(Run(store, before[..i]), before[i])
      {
        assert before[..i] == events[..i] && before[i] == events[i];
      }
      RevokedGrantStaysRevoked(store, before, id);
      StepKeepsTombstone(Run(store, before), events[|events| - 1], id);
    }
  }

  /** So no lookup after such a run, under any authority and for any candidate, returns it. */
  lemma RevokedGrantIsNeverMatched(store: Store, events: seq<Event>, id: GrantID, authority: Authority,
          candidate: Candidate, now: nat)
    requires SoundStore(store) && Tombstoned(store, id) && Uneventful(store, events, id)
    ensures var found := Lookup(Prune(Run(store, events).memory.grants, authority, now), authority, candidate);
            found.Some? ==> found.value.grantId != id
  {
    RevokedGrantStaysRevoked(store, events, id);
    LookupFindsStored(Run(store, events).memory.grants, authority, candidate, now);
  }

  lemma LookupFindsStored(grants: Grants, authority: Authority, candidate: Candidate, now: nat)
    requires KeyedGrants(grants)
    ensures var found := Lookup(Prune(grants, authority, now), authority, candidate);
            found.Some? ==> found.value.grantId in grants
  {
    hide ValidGrant, Covers, StableGrantID;
  }

  // --- what stands behind a match -----------------------------------------------------------------

  const EmptyStore := Store(Snapshot(map[], map[]), Disk(None, None))

  /** The event chooses the grant, or recovers a choice of it that had been prepared. */
  predicate Enters(event: Event, id: GrantID) {
    || Chooses(event, id)
    || (&& event.Operate? && event.operation.RestorePrepared?
        && Standing(event.operation.level) && event.operation.grantedAt > 0
        && NormalInput(event.operation.authority, event.operation.level, event.operation.candidate)
        && InputGrant(event.operation.authority, event.operation.level, event.operation.candidate,
                      Earlier(event.operation.grantedAt, event.now)).grantId == id)
  }

  predicate HasGrant(store: Store, id: GrantID) {
    || id in store.memory.grants
    || (store.disk.visible.Some? && id in store.disk.visible.value.grants)
    || (store.disk.durable.Some? && id in store.disk.durable.value.grants)
  }

  lemma ContentEnters(memory: Snapshot, operation: Operation, now: nat, id: GrantID)
    requires id in Content(memory, operation, now).grants
    ensures id in memory.grants || Enters(Operate(operation, now, Written), id)
  {
    hide Covers, StableGrantID, NormalizeCandidate, NormalizeAuthority, GrantExpired;
  }

  lemma StepEnters(store: Store, event: Event, id: GrantID)
    requires HasGrant(Step(store, event), id)
    ensures HasGrant(store, id) || Enters(event, id)
  {
    hide Content, Loadable, NormalInput, InputGrant, GrantExpired;
    if event.Operate? && event.operation != Reload && id in Content(store.memory, event.operation, event.now).grants {
      ContentEnters(store.memory, event.operation, event.now, id);
    }
  }

  /** No grant is anywhere in a store that nobody put there. */
  lemma {:induction false} GrantWasEntered(events: seq<Event>, id: GrantID)
    requires HasGrant(Run(EmptyStore, events), id)
    ensures exists i | 0 <= i < |events| :: Enters(events[i], id)
  {
    hide Step, HasGrant, Enters;
    if events == [] {
      NothingInEmpty(id);
    } else {
      var n := |events| - 1;
      StepEnters(Run(EmptyStore, events[..n]), events[n], id);
      if !Enters(events[n], id) {
        GrantWasEntered(events[..n], id);
        var i :| 0 <= i < n && Enters(events[..n][i], id);
        assert Enters(events[i], id);
      }
    }
  }

  lemma NothingInEmpty(id: GrantID)
    ensures !HasGrant(EmptyStore, id)
  {
  }

  lemma {:induction false} RunsCompose(store: Store, first: seq<Event>, second: seq<Event>)
    ensures Run(Run(store, first), second) == Run(store, first + second)
  {
    hide Step;
    if second == [] {
      assert first + second == first;
    } else {
      var n := |second| - 1;
      RunsCompose(store, first, second[..n]);
      assert (first + second)[..|first + second| - 1] == first + second[..n];
    }
  }

  lemma {:induction false} RunIsSound(events: seq<Event>)
    requires forall i | 0 <= i < |events| :: Clocked(events[i])
    ensures SoundStore(Run(EmptyStore, events))
  {
    if events != [] {
      var n := |events| - 1;
      RunIsSound(events[..n]);
      hide Sound;
      var store, event := Run(EmptyStore, events[..n]), events[n];
      match event
      case Operate(operation, now, outcome) => OperationKeepsSound(store, operation, now, outcome);
      case Settled =>
      case Restart(powerLost, now, outcome) =>
        EmptySnapshotIsSound();
        OperationKeepsSound(Store(Snapshot(map[], map[]), if powerLost then LosePower(store.disk) else store.disk), Reload, now, outcome);
    } else {
      EmptySnapshotIsSound();
    }
  }

  lemma EmptySnapshotIsSound()
    ensures Sound(Snapshot(map[], map[]))
  {
  }

  /** After the first `k` events the grant was revoked everywhere; later it was chosen again, or the file was deleted. */
  predicate ChosenOrErasedSince(events: seq<Event>, k: nat, id: GrantID) {
    exists m | k <= m < |events| :: Chooses(events[m], id) || ErasesFile(Run(EmptyStore, events[..m]), events[m])
  }

  lemma NotChosenIsUneventful(events: seq<Event>, k: nat, id: GrantID)
    requires (forall i | 0 <= i < |events| :: Clocked(events[i])) && k <= |events| && !ChosenOrErasedSince(events, k, id)
    ensures Uneventful(Run(EmptyStore, events[..k]), events[k..], id)
  {
    hide Step, Run, ErasesFile, Chooses;
    var store, later := Run(EmptyStore, events[..k]), events[k..];
    forall i | 0 <= i < |later| ensures Clocked(later[i]) && !Chooses(later[i], id) && !ErasesFile(Run(store, later[..i]), later[i]) {
      RunsCompose(EmptyStore, events[..k], later[..i]);
      assert events[..k] + later[..i] == events[..k + i] && later[i] == events[k + i];
    }
  }

  lemma RevokedUnlessChosenAgain(events: seq<Event>, k: nat, id: GrantID)
    requires (forall i | 0 <= i < |events| :: Clocked(events[i])) && k <= |events|
    requires Tombstoned(Run(EmptyStore, events[..k]), id) && id in Run(EmptyStore, events).memory.grants
    ensures ChosenOrErasedSince(events, k, id)
  {
    hide Step, Run, ErasesFile, Chooses, SoundStore, Uneventful, ChosenOrErasedSince;
    RunIsSound(events[..k]);
    RunsCompose(EmptyStore, events[..k], events[k..]);
    assert events[..k] + events[k..] == events;
    if !ChosenOrErasedSince(events, k, id) {
      NotChosenIsUneventful(events, k, id);
      RevokedGrantStaysRevoked(Run(EmptyStore, events[..k]), events[k..], id);
    }
  }

  /**
   What stands behind a match. A grant that a lookup returns is eligible, some
   event entered it, and wherever it had been revoked it was chosen again
   since, unless the file was deleted.
   */
  lemma MatchedGrantWasChosen(events: seq<Event>, authority: Authority, candidate: Candidate, at: nat, grant: Grant)
    requires forall i | 0 <= i < |events| :: Clocked(events[i])
    requires NormalAuthority(authority) && NormalCandidate(candidate)
    requires Lookup(Prune(Run(EmptyStore, events).memory.grants, authority, at), authority, candidate) == Some(grant)
    ensures Eligible(grant, authority, candidate, at)
    ensures exists i | 0 <= i < |events| :: Enters(events[i], grant.grantId)
    ensures forall k | 0 <= k <= |events| && Tombstoned(Run(EmptyStore, events[..k]), grant.grantId) :: ChosenOrErasedSince(events, k, grant.grantId)
  {
    hide Step, Chooses, Enters, ErasesFile, Covers, StableGrantID, ValidGrant, ChosenOrErasedSince;
    RunIsSound(events);
    var grants := Run(EmptyStore, events).memory.grants;
    HashedLookupAgreesWithScan(grants, authority, candidate, at);
    LookupFindsStored(grants, authority, candidate, at);
    GrantWasEntered(events, grant.grantId);
    forall k | 0 <= k <= |events| && Tombstoned(Run(EmptyStore, events[..k]), grant.grantId)
      ensures ChosenOrErasedSince(events, k, grant.grantId)
    {
      RevokedUnlessChosenAgain(events, k, grant.grantId);
    }
  }

  /** A revocation that reports success under an intact file starts such a run. */
  lemma CompletedRevocationTombstones(store: Store, authority: Authority, id: GrantID, now: nat)
    requires SoundStore(store) && now > 0 && NormalizeAuthority(authority).Some?
    requires id in PruneContent(store.memory, authority, now).grants
    ensures Tombstoned(Perform(store, Revoke(authority, id), now, Written), id)
  {
    hide ValidGrant, NormalizeAuthority;
    assert id !in Content(store.memory, Revoke(authority, id), now).grants;
  }

  /**
   The exception is real: when the write that follows a revocation publishes a
   file whose permissions are refused, the file is deleted, and after a restart
   the recovery of a prepared approval recreates the revoked grant.
   */
  lemma ErasedFileForgetsRevocation()
    ensures exists store: Store, events: seq<Event>, id: GrantID ::
              && SoundStore(store) && Tombstoned(store, id)
              && (forall i | 0 <= i < |events| :: Clocked(events[i]) && !Chooses(events[i], id))
              && id in Run(store, events).memory.grants
  {
    var authority := Authority("f", "r");
    var candidate := Candidate("m", "", "", AccessScope([], 0, 0));
    ExampleIsNormal(authority, candidate);
    ErasureRun(authority, candidate);
  }

  lemma ErasureRun(authority: Authority, candidate: Candidate)
    requires NormalizeAuthority(authority) == Some(authority) && NormalAuthority(authority)
    requires NormalizeCandidate(candidate, true) == Some(candidate) && OptionalID(candidate.memberId) && candidate.conversationId == ""
    ensures exists store: Store, events: seq<Event>, id: GrantID ::
              && SoundStore(store) && Tombstoned(store, id)
              && (forall i | 0 <= i < |events| :: Clocked(events[i]) && !Chooses(events[i], id))
              && id in Run(store, events).memory.grants
  {
    hide ValidGrant, Covers, StableGrantID, NormalizeAuthority, NormalizeCandidate, NormalAuthority, Sound, Content, Run, Step;
    var grant := InputGrant(authority, TeammateAlways, candidate, 1);
    var other := InputGrant(authority, AllAlways, candidate, 1);
    InputGrantIsValid(authority, AllAlways, candidate, 1);
    StableGrantIDInjective(authority, TeammateAlways, candidate.memberId, "", authority, AllAlways, candidate.memberId, "");
    var snapshot := Snapshot(map[other.grantId := other], map[grant.grantId := Revocation.Revocation(authority, 1)]);
    ExampleIsSound(authority, other, grant.grantId);
    var store := Store(snapshot, Disk(Some(snapshot), Some(snapshot)));
    var revokeOther := Operate(Revoke(authority, other.grantId), 1, Erased);
    var restart := Restart(false, 1, Written);
    var recover := Operate(RestorePrepared(authority, TeammateAlways, candidate, 1), 1, Written);
    ErasureStep(store, authority, other, 1);
    EmptyRestart(Step(store, revokeOther));
    RecoveryStep(Step(Step(store, revokeOther), restart), authority, candidate, 1);
    RunThree(store, revokeOther, restart, recover);
  }

  lemma ExampleIsSound(authority: Authority, other: Grant, revoked: GrantID)
    requires NormalizeAuthority(authority) == Some(authority) && ValidGrant(other) && other.grantId != revoked
    ensures Sound(Snapshot(map[other.grantId := other], map[revoked := Revocation.Revocation(authority, 1)]))
  {
    hide Covers, StableGrantID, NormalizeCandidate, NormalizeAuthority;
  }

  lemma ErasureStep(store: Store, authority: Authority, other: Grant, now: nat)
    requires NormalizeAuthority(authority) == Some(authority) && other.authority == authority && !GrantExpired(other, now)
    requires other.grantId in store.memory.grants && store.memory.grants[other.grantId] == other
    ensures Step(store, Operate(Revoke(authority, other.grantId), now, Erased)).disk.visible == None
  {
    hide NormalizeAuthority;
    assert other.grantId in PruneContent(store.memory, authority, now).grants;
    assert other.grantId !in Content(store.memory, Revoke(authority, other.grantId), now).grants;
  }

  lemma EmptyRestart(store: Store)
    requires store.disk.visible == None
    ensures Step(store, Restart(false, 1, Written)).memory == Snapshot(map[], map[])
  {
  }

  lemma RecoveryStep(store: Store, authority: Authority, candidate: Candidate, now: nat)
    requires store.memory == Snapshot(map[], map[]) && now > 0 && NormalInput(authority, TeammateAlways, candidate)
    ensures InputGrant(authority, TeammateAlways, candidate, now).grantId in
              Step(store, Operate(RestorePrepared(authority, TeammateAlways, candidate, now), now, Written)).memory.grants
  {
    hide Covers, NormalizeCandidate, NormalizeAuthority, StableGrantID;
  }

  lemma RunThree(store: Store, a: Event, b: Event, c: Event)
    ensures Run(store, [a, b, c]) == Step(Step(Step(store, a), b), c)
  {
    hide Step;
    assert [a, b, c][..2] == [a, b] && [a, b][..1] == [a] && [a][..0] == [];
    assert Run(store, [a]) == Step(Run(store, []), a);
    assert Run(store, [a, b]) == Step(Run(store, [a]), b);
  }

  lemma ExampleIsNormal(authority: Authority, candidate: Candidate)
    requires authority == Authority("f", "r") && candidate == Candidate("m", "", "", AccessScope([], 0, 0))
    ensures NormalizeAuthority(authority) == Some(authority) && NormalAuthority(authority)
    ensures NormalizeCandidate(candidate, true) == Some(candidate) && NormalCandidate(candidate)
    ensures NormalInput(authority, TeammateAlways, candidate) && NormalInput(authority, AllAlways, candidate)
  {
  }
}
