/**
 The recipient's approval store: grants and revocation tombstones in memory, a
 snapshot on disk, and a rollback of memory whenever a write fails. The
 functions say what each operation leaves behind; the class does the work.
 */
module ApprovalStorage {
  import opened Base
  import opened Protocol
  import opened Approvals
  import opened DurableFile

  datatype Revocation = Revocation(authority: Authority, revokedAt: nat)

  type Revocations = map<GrantID, Revocation>

  datatype Snapshot = Snapshot(grants: Grants, revocations: Revocations)

  datatype Store = Store(memory: Snapshot, disk: Disk<Snapshot>)

  datatype StoreError = InvalidInput | WriteFailed | GrantRevoked | WindowExpired

  /** Memory takes the new content only when the write reports success; unchanged content is not written. */
  function WriteThrough(store: Store, next: Snapshot, outcome: WriteOutcome): Store {
    if next == store.memory then store
    else Store(if outcome == Written then next else store.memory, Publish(store.disk, next, outcome))
  }

  function Pruned(snapshot: Snapshot, authority: Authority, now: nat): Snapshot {
    snapshot.(grants := Prune(snapshot.grants, authority, now))
  }

  /** The ceiling an explicit choice leaves on an already stored grant. */
  function Widened(existing: Grant, chosen: Grant): Grant {
    if Covers(existing.ceiling, chosen.ceiling) then existing
    else existing.(ceiling := chosen.ceiling, displayName := chosen.displayName)
  }

  function WithGrant(snapshot: Snapshot, chosen: Grant): Snapshot {
    var id := chosen.grantId;
    var kept := if id in snapshot.grants then Widened(snapshot.grants[id], chosen) else chosen;
    snapshot.(grants := snapshot.grants[id := kept])
  }

  predicate NormalInput(authority: Authority, level: ApprovalLevel, candidate: Candidate) {
    && NormalizeAuthority(authority).Some?
    && NormalizeCandidate(candidate, true).Some?
    && (level == Conversation30m ==> NormalizeCandidate(candidate, true).value.conversationId != "")
  }

  function InputGrant(authority: Authority, level: ApprovalLevel, candidate: Candidate, at: nat): Grant
    requires NormalInput(authority, level, candidate)
  {
    NewGrant(NormalizeAuthority(authority).value, level, NormalizeCandidate(candidate, true).value, at)
  }

  function PruneContent(memory: Snapshot, authority: Authority, now: nat): Snapshot {
    if NormalizeAuthority(authority) == None then memory
    else Pruned(memory, NormalizeAuthority(authority).value, now)
  }

  /** An explicit choice: the only operation that clears a tombstone. */
  function UpsertContent(memory: Snapshot, authority: Authority, level: ApprovalLevel, candidate: Candidate, now: nat): Snapshot {
    if level == AskAlways then PruneContent(memory, authority, now)
    else if !NormalInput(authority, level, candidate) then memory
    else
      Choose(PruneContent(memory, authority, now), InputGrant(authority, level, candidate, now))
  }

  function Choose(pruned: Snapshot, chosen: Grant): Snapshot {
    WithGrant(pruned.(revocations := pruned.revocations - {chosen.grantId}), chosen)
  }

  function Earlier(a: nat, b: nat): nat {
    if a < b then a else b
  }

  /** Crash recovery of a prepared choice: a tombstone or an elapsed window wins. */
  function RestoreContent(memory: Snapshot, authority: Authority, level: ApprovalLevel, candidate: Candidate,
          grantedAt: nat, now: nat): Snapshot {
    if level == AskAlways || !NormalInput(authority, level, candidate) || grantedAt == 0 then memory
    else
      Recover(PruneContent(memory, authority, now), InputGrant(authority, level, candidate, Earlier(grantedAt, now)), now)
  }

  function Recover(pruned: Snapshot, chosen: Grant, now: nat): Snapshot {
    if chosen.grantId in pruned.revocations || GrantExpired(chosen, now) then pruned else WithGrant(pruned, chosen)
  }

  function RevokeContent(memory: Snapshot, authority: Authority, id: GrantID, now: nat): Snapshot {
    var pruned := PruneContent(memory, authority, now);
    if NormalizeAuthority(authority).Some? && id in pruned.grants
    then Snapshot(pruned.grants - {id}, pruned.revocations[id := Revocation(NormalizeAuthority(authority).value, now)])
    else pruned
  }

  function WithoutExpired(snapshot: Snapshot, now: nat): Snapshot {
    snapshot.(grants := map id | id in snapshot.grants && !GrantExpired(snapshot.grants[id], now) :: snapshot.grants[id])
  }

  predicate Loadable(snapshot: Snapshot, now: nat) {
    && (forall id | id in snapshot.grants :: snapshot.grants[id].grantId == id && ValidGrant(snapshot.grants[id]))
    && (forall id | id in snapshot.revocations ::
          && snapshot.revocations[id].revokedAt > 0
          && NormalizeAuthority(snapshot.revocations[id].authority) == Some(snapshot.revocations[id].authority))
    && WithoutExpired(snapshot, now).grants.Keys !! snapshot.revocations.Keys
  }

  /** Reading the file: a missing file is created from memory, expired grants are dropped and the drop is written back. */
  function LoadStore(store: Store, now: nat, outcome: WriteOutcome): Store {
    match store.disk.visible
    case None => Store(store.memory, Publish(store.disk, store.memory, outcome))
    case Some(snapshot) =>
      if !Loadable(snapshot, now) then store
      else
        var next := WithoutExpired(snapshot, now);
        Store(next, if next != snapshot then Publish(store.disk, next, outcome) else store.disk)
  }

  // --- the invariant -----------------------------------------------------------------

  ghost predicate Sound(snapshot: Snapshot) {
    && KeyedGrants(snapshot.grants)
    && (forall id | id in snapshot.revocations ::
          && snapshot.revocations[id].revokedAt > 0
          && NormalizeAuthority(snapshot.revocations[id].authority) == Some(snapshot.revocations[id].authority))
    && snapshot.grants.Keys !! snapshot.revocations.Keys
  }

  ghost predicate SoundStore(store: Store) {
    && Sound(store.memory)
    && (store.disk.visible.Some? ==> Sound(store.disk.visible.value))
    && (store.disk.durable.Some? ==> Sound(store.disk.durable.value))
  }

  lemma InputGrantIsValid(authority: Authority, level: ApprovalLevel, candidate: Candidate, at: nat)
    requires NormalInput(authority, level, candidate) && Standing(level) && at > 0
    ensures ValidGrant(InputGrant(authority, level, candidate, at))
  {
    NormalizeAuthorityIdempotent(authority);
    NormalizeCandidateIdempotent(candidate, true);
    NewGrantIsValid(NormalizeAuthority(authority).value, level, NormalizeCandidate(candidate, true).value, at);
  }

  lemma WidenedIsValid(existing: Grant, chosen: Grant)
    requires ValidGrant(existing) && ValidGrant(chosen) && existing.grantId == chosen.grantId
    ensures ValidGrant(Widened(existing, chosen))
    ensures Widened(existing, chosen).grantId == existing.grantId
    ensures Widened(existing, chosen).createdAt == existing.createdAt && Widened(existing, chosen).expiresAt == existing.expiresAt
  {
    hide Covers, StableGrantID;
    StableGrantIDInjective(existing.authority, existing.level, existing.memberId, existing.conversationId,
                           chosen.authority, chosen.level, chosen.memberId, chosen.conversationId);
  }

  lemma WithGrantIsSound(snapshot: Snapshot, chosen: Grant)
    requires Sound(snapshot) && ValidGrant(chosen) && chosen.grantId !in snapshot.revocations
    ensures Sound(WithGrant(snapshot, chosen))
  {
    hide Covers, StableGrantID, NormalizeCandidate, NormalizeAuthority, NormalizeScope;
    if chosen.grantId in snapshot.grants {
      WidenedIsValid(snapshot.grants[chosen.grantId], chosen);
    }
  }

  // --- operations ----------------------------------------------------------------------

  datatype Operation =
    | Upsert(authority: Authority, level: ApprovalLevel, candidate: Candidate)
    | RestorePrepared(authority: Authority, level: ApprovalLevel, candidate: Candidate, grantedAt: nat)
    | Revoke(authority: Authority, id: GrantID)
    | PruneFor(authority: Authority)
    | Reload

  /** What an operation wants memory and disk to hold. */
  function Content(memory: Snapshot, operation: Operation, now: nat): Snapshot {
    match operation
    case Upsert(authority, level, candidate) => UpsertContent(memory, authority, level, candidate, now)
    case RestorePrepared(authority, level, candidate, grantedAt) => RestoreContent(memory, authority, level, candidate,
        grantedAt, now)
    case Revoke(authority, id) => RevokeContent(memory, authority, id, now)
    case PruneFor(authority) => PruneContent(memory, authority, now)
    case Reload => memory
  }

  function Perform(store: Store, operation: Operation, now: nat, outcome: WriteOutcome): Store {
    if operation == Reload then LoadStore(store, now, outcome)
    else WriteThrough(store, Content(store.memory, operation, now), outcome)
  }

  lemma PruneIsSound(memory: Snapshot, authority: Authority, now: nat)
    requires Sound(memory)
    ensures Sound(PruneContent(memory, authority, now))
  {
  }

  lemma ChooseIsSound(pruned: Snapshot, chosen: Grant)
    requires Sound(pruned) && ValidGrant(chosen)
    ensures Sound(Choose(pruned, chosen))
  {
    WithGrantIsSound(pruned.(revocations := pruned.revocations - {chosen.grantId}), chosen);
  }

  lemma UpsertIsSound(memory: Snapshot, authority: Authority, level: ApprovalLevel, candidate: Candidate, now: nat)
    requires Sound(memory) && now > 0
    ensures Sound(UpsertContent(memory, authority, level, candidate, now))
  {
    PruneIsSound(memory, authority, now);
    if Standing(level) && NormalInput(authority, level, candidate) {
      InputGrantIsValid(authority, level, candidate, now);
      ChooseIsSound(PruneContent(memory, authority, now), InputGrant(authority, level, candidate, now));
    }
  }

  lemma RestoreIsSound(memory: Snapshot, authority: Authority, level: ApprovalLevel, candidate: Candidate,
          grantedAt: nat, now: nat)
    requires Sound(memory) && now > 0
    ensures Sound(RestoreContent(memory, authority, level, candidate, grantedAt, now))
  {
    hide Sound, ValidGrant, NormalizeAuthority, NormalizeCandidate, PruneContent, WithGrant, InputGrant, NormalInput;
    PruneIsSound(memory, authority, now);
    if Standing(level) && NormalInput(authority, level, candidate) && grantedAt > 0 {
      var chosen := InputGrant(authority, level, candidate, Earlier(grantedAt, now));
      InputGrantIsValid(authority, level, candidate, Earlier(grantedAt, now));
      if chosen.grantId !in PruneContent(memory, authority, now).revocations {
        WithGrantIsSound(PruneContent(memory, authority, now), chosen);
      }
    }
  }

  lemma RevokeIsSound(memory: Snapshot, authority: Authority, id: GrantID, now: nat)
    requires Sound(memory) && now > 0
    ensures Sound(RevokeContent(memory, authority, id, now))
  {
    PruneIsSound(memory, authority, now);
    if NormalizeAuthority(authority).Some? {
      NormalizeAuthorityIdempotent(authority);
    }
  }

  lemma ContentIsSound(memory: Snapshot, operation: Operation, now: nat)
    requires Sound(memory) && now > 0
    ensures Sound(Content(memory, operation, now))
  {
    match operation
    case Upsert(authority, level, candidate) => UpsertIsSound(memory, authority, level, candidate, now);
    case RestorePrepared(authority, level, candidate, grantedAt) => RestoreIsSound(memory, authority, level, candidate,
        grantedAt, now);
    case Revoke(authority, id) => RevokeIsSound(memory, authority, id, now);
    case PruneFor(authority) => PruneIsSound(memory, authority, now);
    case Reload =>
  }

  /** The store invariant survives every operation, whatever its write does. */
  lemma OperationKeepsSound(store: Store, operation: Operation, now: nat, outcome: WriteOutcome)
    requires SoundStore(store) && now > 0
    ensures SoundStore(Perform(store, operation, now, outcome))
  {
    ContentIsSound(store.memory, operation, now);
    if operation == Reload && store.disk.visible.Some? {
      assert Sound(WithoutExpired(store.disk.visible.value, now));
    }
  }

  /** Any snapshot the store ever wrote is read back successfully, as itself minus the grants that expired meanwhile. */
  lemma WrittenSnapshotsReload(store: Store, now: nat, outcome: WriteOutcome)
    requires SoundStore(store) && store.disk.visible.Some?
    ensures Loadable(store.disk.visible.value, now)
    ensures LoadStore(store, now, outcome).memory == WithoutExpired(store.disk.visible.value, now)
    ensures outcome == Written ==> LoadStore(store, now, outcome).disk.visible == Some(LoadStore(store, now, outcome).memory)
  {
  }

  /**
   A grant that survives pruning keeps its times. The only other one is the
   chosen grant; it starts at `start`, and a conversation grant ends one fixed
   window later.
   */
  ghost predicate TimesKept(pruned: Grants, after: Grant, chosen: GrantID, start: nat) {
    var id := after.grantId;
    if id in pruned then after.createdAt == pruned[id].createdAt && after.expiresAt == pruned[id].expiresAt
    else
      && id == chosen
      && after.createdAt == start
      && after.expiresAt == if after.level == Conversation30m then Some(start + CONVERSATION_WINDOW) else None
  }

  /** Repeating a choice never slides or restarts the window of a grant that is still active; a new grant starts now. */
  lemma UpsertNeverSlides(memory: Snapshot, authority: Authority, level: ApprovalLevel, candidate: Candidate, now: nat, id: GrantID)
    requires Sound(memory) && now > 0 && Standing(level) && NormalInput(authority, level, candidate)
    ensures var upserted := UpsertContent(memory, authority, level, candidate, now).grants;
            var chosen := InputGrant(authority, level, candidate, now).grantId;
            id in upserted ==>
              upserted[id].grantId == id && TimesKept(PruneContent(memory, authority, now).grants, upserted[id], chosen, now)
  {
    hide ValidGrant, Covers, NormalizeCandidate;
    PruneIsSound(memory, authority, now);
    InputGrantIsValid(authority, level, candidate, now);
    WithGrantKeepsTimes(PruneContent(memory, authority, now).grants, InputGrant(authority, level, candidate, now), id);
  }

  /**
   Nor does recovering a prepared choice: a grant it enters starts when the
   choice was made, or now under a clock that was set back, so a recovered
   conversation window ends at most one window after the choice.
   */
  lemma RestoreNeverSlides(memory: Snapshot, authority: Authority, level: ApprovalLevel, candidate: Candidate, grantedAt: nat,
                           now: nat, id: GrantID)
    requires Sound(memory) && now > 0 && Standing(level) && NormalInput(authority, level, candidate) && grantedAt > 0
    ensures var pruned := PruneContent(memory, authority, now).grants;
            var restored := RestoreContent(memory, authority, level, candidate, grantedAt, now).grants;
            var chosen := InputGrant(authority, level, candidate, Earlier(grantedAt, now)).grantId;
            id in restored ==>
              && restored[id].grantId == id
              && TimesKept(pruned, restored[id], chosen, Earlier(grantedAt, now))
              && (id !in pruned && restored[id].level == Conversation30m ==>
                    restored[id].expiresAt.Some? && now < restored[id].expiresAt.value <= grantedAt + CONVERSATION_WINDOW)
  {
    hide ValidGrant, Covers, NormalizeCandidate;
    PruneIsSound(memory, authority, now);
    InputGrantIsValid(authority, level, candidate, Earlier(grantedAt, now));
    WithGrantKeepsTimes(PruneContent(memory, authority, now).grants, InputGrant(authority, level, candidate, Earlier(grantedAt, now)), id);
  }

  lemma WithGrantKeepsTimes(pruned: Grants, chosen: Grant, id: GrantID)
    requires KeyedGrants(pruned) && ValidGrant(chosen)
    ensures var after := WithGrant(Snapshot(pruned, map[]), chosen).grants;
            id in after ==> after[id].grantId == id && TimesKept(pruned, after[id], chosen.grantId, chosen.createdAt)
  {
    hide Covers, StableGrantID, NormalizeCandidate, NormalizeAuthority;
  }

  // --- the class ------------------------------------------------------------------------

  lemma NotWidenedIsCovered(existing: Grant, chosen: Grant)
    requires ValidGrant(existing)
    ensures Widened(existing, chosen) == existing <==> Covers(existing.ceiling, chosen.ceiling)
  {
  }

  /** Putting an unexpired grant back where pruning removed one is a change. */
  lemma PrunedThenChosenDiffers(memory: Grants, authority: Authority, now: nat, chosen: Grant)
    requires KeyedGrants(memory) && ValidGrant(chosen) && chosen.authority == authority && !GrantExpired(chosen, now)
    requires Prune(memory, authority, now) != memory || chosen.grantId !in memory
    ensures WithGrant(Snapshot(Prune(memory, authority, now), map[]), chosen).grants != memory
  {
    var pruned := Prune(memory, authority, now);
    var next := WithGrant(Snapshot(pruned, map[]), chosen).grants;
    if pruned != memory {
      var gone :| gone in memory && gone !in pruned;
      assert gone != chosen.grantId ==> gone !in next;
      assert gone == chosen.grantId ==> next[gone] == chosen && memory[gone] != chosen;
    }
  }

  class ApprovalStore {
    var grants: Grants
    var revocations: Revocations
    var disk: Disk<Snapshot>

    function State(): Store
      reads this
    {
      Store(Snapshot(grants, revocations), disk)
    }

    ghost predicate Valid()
      reads this
    {
      SoundStore(State())
    }

    /** A store over an empty directory. */
    constructor ()
      ensures State() == Store(Snapshot(map[], map[]), Disk(None, None)) && Valid()
    {
      grants, revocations, disk := map[], map[], Disk(None, None);
    }

    method WriteLocked(outcome: WriteOutcome) returns (ok: bool)
      modifies this`disk
      ensures disk == Publish(old(disk), Snapshot(grants, revocations), outcome)
      ensures ok <==> outcome == Written
    {
      disk := Publish(disk, Snapshot(grants, revocations), outcome);
      ok := outcome == Written;
    }

    method PruneLocked(authority: Authority, now: nat) returns (removed: nat)
      modifies this`grants
      ensures grants == Prune(old(grants), authority, now)
      ensures removed > 0 <==> grants != old(grants)
    {
      removed := 0;
      var ids := grants.Keys;
      while ids != {}
        invariant ids <= old(grants).Keys
        invariant grants == map id | id in old(grants) && (id in ids || (old(grants)[id].authority == authority
            && !GrantExpired(old(grants)[id], now))) :: old(grants)[id]
        invariant removed == 0 ==> grants == old(grants)
        invariant removed > 0 ==> grants != old(grants)
        decreases |ids|
      {
        var id :| id in ids;
        if grants[id].authority != authority || GrantExpired(grants[id], now) {
          grants := grants - {id};
          removed := removed + 1;
          assert id !in grants && id in old(grants);
        }
        ids := ids - {id};
      }
    }

    /** Writes what changed and takes memory back to where it was when the write fails. */
    method Finish(changed: bool, before: Snapshot, outcome: WriteOutcome) returns (ok: bool)
      requires changed <==> Snapshot(grants, revocations) != before
      modifies this
      ensures State() == WriteThrough(Store(before, old(disk)), old(Snapshot(grants, revocations)), outcome)
      ensures ok <==> changed ==> outcome == Written
    {
      ok := true;
      if changed {
        ok := WriteLocked(outcome);
        if !ok {
          grants, revocations := before.grants, before.revocations;
        }
      }
    }

    /** Adds a chosen grant, or raises the ceiling of the one stored under its identifier; the stored times stay. */
    method PlaceGrant(chosen: Grant) returns (kept: Grant, changed: bool)
      modifies this`grants
      ensures grants == WithGrant(old(Snapshot(grants, revocations)), chosen).grants
      ensures kept == grants[chosen.grantId]
      ensures changed <==> chosen.grantId !in old(grants) || !Covers(old(grants)[chosen.grantId].ceiling, chosen.ceiling)
    {
      kept := chosen;
      changed := true;
      if chosen.grantId in grants {
        kept := grants[chosen.grantId];
        changed := !Covers(kept.ceiling, chosen.ceiling);
        if changed {
          kept := kept.(ceiling := chosen.ceiling, displayName := chosen.displayName);
        }
      }
      grants := grants[chosen.grantId := kept];
    }

    method PlaceAndFinish(chosen: Grant, changed: bool, before: Snapshot, authority: Authority, now: nat, outcome: WriteOutcome)
      returns (saved: bool, kept: Grant)
      requires Sound(before) && ValidGrant(chosen) && chosen.authority == authority && !GrantExpired(chosen, now)
      requires grants == Prune(before.grants, authority, now) && revocations == before.revocations - {chosen.grantId}
      requires changed <==> Snapshot(grants, revocations) != before
      modifies this
      ensures State() == WriteThrough(Store(before, old(disk)), Choose(Pruned(before, authority, now), chosen), outcome)
      ensures saved ==> Snapshot(grants, revocations) == Choose(Pruned(before, authority, now), chosen)
      ensures kept == Choose(Pruned(before, authority, now), chosen).grants[chosen.grantId]
    {
      hide ValidGrant, Covers;
      var placed;
      kept, placed := PlaceGrant(chosen);
      ChangeIsSeen(before, authority, now, chosen, Snapshot(grants, revocations), changed || placed);
      saved := Finish(changed || placed, before, outcome);
    }

    method Upsert(authority: Authority, level: ApprovalLevel, candidate: Candidate, now: nat, outcome: WriteOutcome)
      returns (result: Result<Option<Grant>, StoreError>)
      requires Valid() && now > 0
      modifies this
      ensures Valid()
      ensures State() == Perform(old(State()), Operation.Upsert(authority, level, candidate), now, outcome)
      ensures result.Ok? ==>
                && NormalizeAuthority(authority).Some?
                && (result.value.Some? <==> Standing(level))
                && (result.value.Some? ==>
                      && NormalInput(authority, level, candidate)
                      && var id := InputGrant(authority, level, candidate, now).grantId;
                      && id in grants && grants[id] == result.value.value && id !in revocations
                      && Covers(grants[id].ceiling, NormalizeCandidate(candidate, true).value.scope))
    {
      hide ValidGrant, Covers, NormalizeCandidate, NormalizeAuthority, Sound, StableGrantID;
      OperationKeepsSound(State(), Operation.Upsert(authority, level, candidate), now, outcome);
      var normal := NormalizeAuthority(authority);
      if normal == None || (Standing(level) && !NormalInput(authority, level, candidate)) {
        return Err(InvalidInput);
      }
      var before := Snapshot(grants, revocations);
      var removed := PruneLocked(normal.value, now);
      var changed := removed > 0;
      if level == AskAlways {
        var saved := Finish(changed, before, outcome);
        return if saved then Ok(None) else Err(WriteFailed);
      }
      var chosen := InputGrant(authority, level, candidate, now);
      InputGrantIsValid(authority, level, candidate, now);
      PruneIsSound(before, authority, now);
      ChosenCovers(authority, level, candidate, now);
      if chosen.grantId in revocations {
        revocations := revocations - {chosen.grantId};
        changed := true;
      }
      var saved, kept := PlaceAndFinish(chosen, changed, before, normal.value, now, outcome);
      return if saved then Ok(Some(kept)) else Err(WriteFailed);
    }

    method RestorePrepared(authority: Authority, level: ApprovalLevel, candidate: Candidate, grantedAt: nat, now: nat,
            outcome: WriteOutcome)
      returns (result: Result<Grant, StoreError>)
      requires Valid() && now > 0
      modifies this
      ensures Valid()
      ensures State() == Perform(old(State()), Operation.RestorePrepared(authority, level, candidate, grantedAt), now, outcome)
      ensures result.Ok? ==>
                && Standing(level) && NormalInput(authority, level, candidate)
                && var id := InputGrant(authority, level, candidate, now).grantId;
                id in grants && grants[id] == result.value && id !in revocations
      ensures result == Err(GrantRevoked) ==>
                NormalInput(authority, level, candidate)
                    && InputGrant(authority, level, candidate, now).grantId in old(revocations)
    {
      hide ValidGrant, Covers, NormalizeCandidate, NormalizeAuthority, Sound, StableGrantID;
      OperationKeepsSound(State(), Operation.RestorePrepared(authority, level, candidate, grantedAt), now, outcome);
      if level == AskAlways || !NormalInput(authority, level, candidate) || grantedAt == 0 {
        return Err(InvalidInput);
      }
      var before := Snapshot(grants, revocations);
      var normal := NormalizeAuthority(authority).value;
      var removed := PruneLocked(normal, now);
      var changed := removed > 0;
      var chosen := InputGrant(authority, level, candidate, if grantedAt > now then now else grantedAt);
      InputGrantIsValid(authority, level, candidate, Earlier(grantedAt, now));
      PruneIsSound(before, authority, now);
      if chosen.grantId in revocations || GrantExpired(chosen, now) {
        var inactive := if chosen.grantId in revocations then GrantRevoked else WindowExpired;
        var saved := Finish(changed, before, outcome);
        return Err(if saved then inactive else WriteFailed);
      }
      assert before.revocations - {chosen.grantId} == before.revocations;
      var saved, kept := PlaceAndFinish(chosen, changed, before, normal, now, outcome);
      return if saved then Ok(kept) else Err(WriteFailed);
    }

    method Revoke(authority: Authority, id: GrantID, now: nat, outcome: WriteOutcome) returns (result: Result<bool, StoreError>)
      requires Valid() && now > 0
      modifies this
      ensures Valid()
      ensures State() == Perform(old(State()), Operation.Revoke(authority, id), now, outcome)
      ensures result == Ok(true) ==> Tombstoned(State(), id)
      ensures result == Ok(false) ==> id !in grants
    {
      hide ValidGrant;
      OperationKeepsSound(State(), Operation.Revoke(authority, id), now, outcome);
      var normal := NormalizeAuthority(authority);
      if normal == None {
        return Err(InvalidInput);
      }
      var before := Snapshot(grants, revocations);
      var removed := PruneLocked(normal.value, now);
      var changed := removed > 0;
      var existed := id in grants;
      if existed {
        grants := grants - {id};
        revocations := revocations[id := Revocation(normal.value, now)];
        changed := true;
        assert id in before.grants && id !in grants;
      }
      var saved := Finish(changed, before, outcome);
      return if saved then Ok(existed) else Err(WriteFailed);
    }

    method PruneAndPersist(authority: Authority, now: nat, outcome: WriteOutcome) returns (ok: bool)
      requires Valid() && now > 0
      requires NormalizeAuthority(authority) == Some(authority)
      modifies this
      ensures Valid()
      ensures State() == Perform(old(State()), PruneFor(authority), now, outcome)
      ensures ok ==> grants == Prune(old(grants), authority, now)
    {
      hide ValidGrant;
      OperationKeepsSound(State(), PruneFor(authority), now, outcome);
      var before := Snapshot(grants, revocations);
      var removed := PruneLocked(authority, now);
      ok := Finish(removed > 0, before, outcome);
    }

    method Match(authority: Authority, candidate: Candidate, now: nat,
            outcome: WriteOutcome) returns (result: Result<Option<Grant>, StoreError>)
      requires Valid() && now > 0
      modifies this
      ensures Valid()
      ensures NormalizeAuthority(authority).Some? && NormalizeCandidate(candidate, false).Some? ==>
                State() == Perform(old(State()), PruneFor(NormalizeAuthority(authority).value), now, outcome)
      ensures result.Ok? ==>
                && NormalizeAuthority(authority).Some? && NormalizeCandidate(candidate, false).Some?
                && MostSpecific(old(grants), result.value, NormalizeAuthority(authority).value,
                    NormalizeCandidate(candidate, false).value, now)
                && (result.value.Some? ==> result.value.value in grants.Values)
    {
      hide ValidGrant, Covers, NormalizeCandidate, NormalizeAuthority;
      var a, c := NormalizeAuthority(authority), NormalizeCandidate(candidate, false);
      if a == None || c == None {
        return Err(InvalidInput);
      }
      NormalizeAuthorityIdempotent(authority);
      NormalizeCandidateIdempotent(candidate, false);
      var saved := PruneAndPersist(a.value, now, outcome);
      if !saved {
        return Err(WriteFailed);
      }
      var found := FindGrant(grants, a.value, c.value);
      LookupIsMostSpecific(old(grants), a.value, c.value, now);
      return Ok(found);
    }

    method Load(now: nat, outcome: WriteOutcome) returns (ok: bool)
      requires Valid() && now > 0
      modifies this
      ensures Valid()
      ensures State() == Perform(old(State()), Reload, now, outcome)
      ensures disk.visible.Some? && outcome == Written ==> ok
    {
      hide ValidGrant;
      OperationKeepsSound(State(), Reload, now, outcome);
      if disk.visible == None {
        ok := WriteLocked(outcome);
        return;
      }
      var snapshot := disk.visible.value;
      if !Loadable(snapshot, now) {
        return false;
      }
      var kept := WithoutExpired(snapshot, now);
      grants, revocations := kept.grants, kept.revocations;
      ok := true;
      if kept != snapshot {
        ok := WriteLocked(outcome);
      }
    }
  }

  /** Memory, the visible file and the durable file all carry the tombstone and none carries the grant. */
  ghost predicate Tombstoned(store: Store, id: GrantID) {
    && id in store.memory.revocations && id !in store.memory.grants
    && store.disk.visible.Some? && id in store.disk.visible.value.revocations && id !in store.disk.visible.value.grants
    && store.disk.durable.Some? && id in store.disk.durable.value.revocations && id !in store.disk.durable.value.grants
  }

  /** No eligible grant, or an eligible one that every other eligible grant is less specific than. */
  ghost predicate MostSpecific(grants: Grants, found: Option<Grant>, authority: Authority, candidate: Candidate, now: nat) {
    match found
    case None => forall id | id in grants :: !Eligible(grants[id], authority, candidate, now)
    case Some(grant) =>
      && grant in grants.Values
      && Eligible(grant, authority, candidate, now)
      && (forall id | id in grants && Eligible(grants[id], authority, candidate, now) ::
            grants[id] == grant || Precedence(grant.level) < Precedence(grants[id].level))
  }

  lemma LookupIsMostSpecific(grants: Grants, authority: Authority, candidate: Candidate, now: nat)
    requires KeyedGrants(grants) && NormalizeAuthority(authority) == Some(authority) && NormalCandidate(candidate)
    ensures MostSpecific(grants, Lookup(Prune(grants, authority, now), authority, candidate), authority, candidate, now)
  {
    HashedLookupAgreesWithScan(grants, authority, candidate, now);
  }

  const LEVELS := [Conversation30m, TeammateAlways, AllAlways]

  lemma LookupStopsAt(grants: Grants, authority: Authority, candidate: Candidate, at: nat)
    requires at < 3 && candidate.memberId != ""
    requires forall i | 0 <= i < at :: MatchAtLevel(grants, authority, candidate, LEVELS[i]) == None
    requires MatchAtLevel(grants, authority, candidate, LEVELS[at]).Some?
    ensures Lookup(grants, authority, candidate) == MatchAtLevel(grants, authority, candidate, LEVELS[at])
  {
    hide Covers, StableGrantID;
    assert at > 0 ==> MatchAtLevel(grants, authority, candidate, LEVELS[0]) == None;
    assert at > 1 ==> MatchAtLevel(grants, authority, candidate, LEVELS[1]) == None;
  }

  /** The three identifiers a candidate can match, tried from the most specific level on. */
  method FindGrant(grants: Grants, authority: Authority, candidate: Candidate) returns (found: Option<Grant>)
    ensures found == Lookup(grants, authority, candidate)
    ensures found.Some? ==> found.value in grants.Values
  {
    hide Covers, StableGrantID;
    if candidate.memberId == "" {
      return None;
    }
    var levels := LEVELS;
    var next := 0;
    while next < |levels|
      invariant 0 <= next <= |levels|
      invariant forall i | 0 <= i < next :: MatchAtLevel(grants, authority, candidate, levels[i]) == None
    {
      var level := levels[next];
      if level != Conversation30m || candidate.conversationId != "" {
        var id := StableGrantID(authority, level, candidate.memberId, candidate.conversationId);
        if id in grants {
          var covered := ScopeCovers(grants[id].ceiling, candidate.scope);
          if covered {
            LookupStopsAt(grants, authority, candidate, next);
            return Some(grants[id]);
          }
        }
      }
      next := next + 1;
    }
    assert levels[0] == Conversation30m && levels[1] == TeammateAlways && levels[2] == AllAlways;
    return None;
  }

  /** One ceiling against one request, with the loops of the source. */
  method ScopeCovers(ceiling: AccessScope, requested: AccessScope) returns (covers: bool)
    ensures covers == Covers(ceiling, requested)
  {
    var c, r := NormalizeScope(ceiling), NormalizeScope(requested);
    if c == None || r == None || r.value.maxAttachmentCount > c.value.maxAttachmentCount
       || r.value.maxAttachmentBytes > c.value.maxAttachmentBytes {
      return false;
    }
    var allowed: map<string, PermissionMode> := map[];
    var i := 0;
    while i < |c.value.requestedAccess|
      invariant 0 <= i <= |c.value.requestedAccess|
      invariant forall alias | alias in allowed :: exists k :: 0 <= k < i && c.value.requestedAccess[k] == RequestedAccess(alias, allowed[alias])
      invariant forall k | 0 <= k < i :: c.value.requestedAccess[k].workspaceAlias in allowed
    {
      allowed := allowed[c.value.requestedAccess[i].workspaceAlias := c.value.requestedAccess[i].mode];
      i := i + 1;
    }
    NormalScopeIsDistinct(ceiling);
    i := 0;
    while i < |r.value.requestedAccess|
      invariant 0 <= i <= |r.value.requestedAccess|
      invariant forall k | 0 <= k < i :: GrantsAccess(c.value.requestedAccess, r.value.requestedAccess[k])
    {
      var access := r.value.requestedAccess[i];
      if access.workspaceAlias !in allowed || PermissionRank(access.mode) > PermissionRank(allowed[access.workspaceAlias]) {
        assert !GrantsAccess(c.value.requestedAccess, r.value.requestedAccess[i]);
        return false;
      }
      i := i + 1;
    }
    return true;
  }

  lemma NormalScopeIsDistinct(scope: AccessScope)
    requires NormalizeScope(scope).Some?
    ensures DistinctAliases(NormalizeScope(scope).value.requestedAccess)
  {
    SortSorts(Trimmed(scope.requestedAccess));
    SortedIsFixed(NormalizeScope(scope).value.requestedAccess);
  }

  lemma ChosenCovers(authority: Authority, level: ApprovalLevel, candidate: Candidate, now: nat)
    requires NormalInput(authority, level, candidate)
    ensures var chosen := InputGrant(authority, level, candidate, now);
            Covers(chosen.ceiling, chosen.ceiling) && chosen.ceiling == NormalizeCandidate(candidate, true).value.scope
  {
    NormalizeCandidateIdempotent(candidate, true);
    var scope := NormalizeCandidate(candidate, true).value.scope;
    CoversPreorder(scope, scope, scope);
  }

  lemma ChangeIsSeen(before: Snapshot, authority: Authority, now: nat, chosen: Grant, after: Snapshot, changed: bool)
    requires Sound(before) && ValidGrant(chosen) && chosen.authority == authority && !GrantExpired(chosen, now)
    requires after == Choose(Pruned(before, authority, now), chosen)
    requires var pruned := Pruned(before, authority, now);
             changed <==> pruned != before || chosen.grantId in before.revocations || chosen.grantId !in pruned.grants
                          || !Covers(pruned.grants[chosen.grantId].ceiling, chosen.ceiling)
    ensures changed <==> after != before
  {
    hide ValidGrant, Covers;
    var pruned := Pruned(before, authority, now);
    if pruned != before || chosen.grantId !in before.grants {
      PrunedThenChosenDiffers(before.grants, authority, now, chosen);
      assert after.grants == WithGrant(Snapshot(pruned.grants, map[]), chosen).grants;
    } else {
      NotWidenedIsCovered(before.grants[chosen.grantId], chosen);
      assert before.revocations - {chosen.grantId} == before.revocations <==> chosen.grantId !in before.revocations;
    }
  }
}
