/**
 The receiver's write-ahead store: one record per request, every value of an
 exact retry written before the relay call or the runtime start it belongs to.
 */
module MutationStore {
  import opened Base
  import opened Protocol
  import opened Approvals
  import opened DurableFile

  datatype Phase = DecisionPrepared | ClaimPrepared | RuntimeStarted | ResultPrepared

  /** The request metadata a recipient authorized; the prompt only by length and digest. */
  datatype ApprovedNotice = ApprovedNotice(
    requestId: string,
    conversationId: string,
    requesterAgentId: string,
    requesterMemberId: string,
    requesterDisplayName: string,
    title: string,
    expiresAt: nat,
    requestedAccess: seq<RequestedAccess>,
    attachments: seq<ArtifactDescriptor>,
    promptBytes: int,
    promptSha256: PromptDigest)

  datatype MutationRecord = MutationRecord(
    requestId: string,
    conversationId: string,
    decisionID: DecisionID,
    decision: Decision,
    level: Option<ApprovalLevel>,
    grantId: Option<GrantID>,
    grantPersisted: bool,
    authority: Option<Authority>,
    approvedNotice: Option<ApprovedNotice>,
    claim: Option<ClaimID>,
    phase: Phase,
    result: Option<ResultPayload>,
    updatedAt: nat)

  type Records = map<string, MutationRecord>

  predicate ValidBinding(binding: ApprovedNotice, requestId: string) {
    binding.requestId != "" && binding.requestId == requestId && binding.promptBytes >= 0
  }

  /** The record check; the two flags admit the allow records of older files when they are read. */
  predicate ValidRecordWithLegacy(record: MutationRecord, legacyAuthority: bool, legacyNotice: bool) {
    && record.requestId != ""
    && (record.authority.Some? ==> NormalizeAuthority(record.authority.value) == record.authority)
    && (record.decision == Deny ==>
          record.level == None && record.grantId == None && !record.grantPersisted
          && record.authority == None && record.approvedNotice == None)
    && (record.decision == AllowOnce ==> record.authority.Some? || legacyAuthority)
    && (record.approvedNotice.Some? ==> ValidBinding(record.approvedNotice.value, record.requestId))
    && (record.decision == AllowOnce ==> record.approvedNotice.Some? || legacyNotice)
    && (if record.decision == AllowOnce && record.level.Some? && Standing(record.level.value)
        then record.grantId.Some?
        else record.grantId == None && !record.grantPersisted)
    && (match record.phase
        case DecisionPrepared => record.result == None && (record.decision == AllowOnce <==> record.claim.Some?)
        case ClaimPrepared => record.claim.Some? && record.result == None && record.decision == AllowOnce
        case RuntimeStarted => record.claim.Some? && record.result == None && record.decision == AllowOnce
        case ResultPrepared =>
          && record.claim.Some? && record.result.Some? && record.result.value.claim == record.claim.value
          && record.result.value.state in {Completed, Failed, Cancelled})
  }

  predicate ValidRecord(record: MutationRecord) {
    ValidRecordWithLegacy(record, false, false)
  }

  lemma StampKeepsValid(record: MutationRecord, now: nat)
    ensures ValidRecord(record.(updatedAt := now)) <==> ValidRecord(record)
  {
  }

  // --- the edits of Update --------------------------------------------------------

  datatype Edit =
    | ConfirmGrant(decisionID: DecisionID, level: Option<ApprovalLevel>, grantId: Option<GrantID>)
    | PrepareClaim(decisionID: DecisionID, decision: Decision, claim: Option<ClaimID>)
    | StartRuntime(expected: ClaimID)
    | PrepareResult(result: ResultPayload)

  function ApplyEdit(record: MutationRecord, edit: Edit): Option<MutationRecord> {
    match edit
    case ConfirmGrant(decisionID, level, grantId) =>
      if record.decisionID != decisionID || record.level != level || record.grantId != grantId then None
      else Some(record.(grantPersisted := true))
    case PrepareClaim(decisionID, decision, claim) =>
      if record.decisionID != decisionID || record.decision != decision || record.claim != claim then None
      else if record.phase == DecisionPrepared then Some(record.(phase := ClaimPrepared))
      else Some(record)
    case StartRuntime(expected) =>
      if record.claim != Some(expected) || record.phase != ClaimPrepared then None
      else Some(record.(phase := RuntimeStarted))
    case PrepareResult(result) =>
      if record.claim != Some(result.claim) then None
      else
        match record.phase
        case RuntimeStarted => Some(record.(phase := ResultPrepared, result := Some(result)))
        case ResultPrepared => if record.result == Some(result) then Some(record) else None
        case _ => None
  }

  /** What Update stores, if the edit applies and the edited record is valid. */
  function Edited(record: MutationRecord, edit: Edit, now: nat): Option<MutationRecord> {
    match ApplyEdit(record, edit)
    case None => None
    case Some(next) => if ValidRecord(next) then Some(next.(updatedAt := now)) else None
  }

  // --- one request's view of the store ---------------------------------------------

  /** What memory, the visible file and the durable file say about one request. */
  datatype Slot = Slot(memory: Option<MutationRecord>, visible: Option<MutationRecord>, durable: Option<MutationRecord>)

  function WriteSlot(slot: Slot, next: Option<MutationRecord>, outcome: WriteOutcome): Slot {
    match outcome
    case Written => Slot(next, next, next)
    case NotPublished => slot
    case Unsynced => slot.(visible := next)
    case Erased => slot.(visible := None)
  }

  function Find(records: Records, requestId: string): Option<MutationRecord> {
    if requestId in records then Some(records[requestId]) else None
  }

  function FindIn(file: Option<Records>, requestId: string): Option<MutationRecord> {
    if file.Some? then Find(file.value, requestId) else None
  }

  datatype Store = Store(memory: Records, disk: Disk<Records>)

  function View(store: Store, requestId: string): Slot {
    Slot(Find(store.memory, requestId), FindIn(store.disk.visible, requestId), FindIn(store.disk.durable, requestId))
  }

  function WriteThrough(store: Store, next: Records, outcome: WriteOutcome): Store {
    Store(if outcome == Written then next else store.memory, Publish(store.disk, next, outcome))
  }

  function With(records: Records, requestId: string, next: Option<MutationRecord>): Records {
    if next.Some? then records[requestId := next.value] else records - {requestId}
  }

  /**
   Writing the whole file is, for each request, a write of its own slot: the
   touched request takes its new value and every other request is rewritten
   with the value memory already holds.
   */
  lemma WriteThroughIsSlotwise(store: Store, requestId: string, next: Option<MutationRecord>, outcome: WriteOutcome,
          other: string)
    ensures var after := WriteThrough(store, With(store.memory, requestId, next), outcome);
            && View(after, requestId) == WriteSlot(View(store, requestId), next, outcome)
            && (other != requestId ==> View(after, other) == WriteSlot(View(store, other), View(store, other).memory, outcome))
  {
  }

  ghost predicate Keyed(records: Records) {
    forall requestId | requestId in records :: records[requestId].requestId == requestId && ValidRecord(records[requestId])
  }

  /** The check a file passes when it is read; records of older files are let in for recovery to refuse. */
  predicate Loads(file: Records) {
    forall requestId | requestId in file ::
      requestId != "" && requestId == file[requestId].requestId && ValidRecordWithLegacy(file[requestId], true, true)
  }

  lemma WrittenRecordsLoad(file: Records)
    requires Keyed(file)
    ensures Loads(file)
  {
  }

  class MutationFile {
    var records: Records
    var disk: Disk<Records>

    function State(): Store
      reads this
    {
      Store(records, disk)
    }

    ghost predicate Valid()
      reads this
    {
      && Keyed(records)
      && (disk.visible.Some? ==> Keyed(disk.visible.value))
      && (disk.durable.Some? ==> Keyed(disk.durable.value))
    }

    constructor ()
      ensures State() == Store(map[], Disk(None, None)) && Valid()
    {
      records, disk := map[], Disk(None, None);
    }

    method WriteLocked(outcome: WriteOutcome) returns (ok: bool)
      modifies this`disk
      ensures disk == Publish(old(disk), records, outcome)
      ensures ok <==> outcome == Written
    {
      disk := Publish(disk, records, outcome);
      ok := outcome == Written;
    }

    method Put(record: MutationRecord, now: nat, outcome: WriteOutcome) returns (ok: bool)
      requires Valid()
      modifies this
      ensures Valid()
      ensures ok <==> ValidRecord(record) && outcome == Written
      ensures State() == if ValidRecord(record)
                         then WriteThrough(old(State()), With(old(records), record.requestId,
                             Some(record.(updatedAt := now))), outcome)
                         else old(State())
    {
      hide ValidRecordWithLegacy;
      if !ValidRecord(record) {
        return false;
      }
      StampKeepsValid(record, now);
      var previous := Find(records, record.requestId);
      records := records[record.requestId := record.(updatedAt := now)];
      ok := WriteLocked(outcome);
      if !ok {
        records := if previous.Some? then records[record.requestId := previous.value] else records - {record.requestId};
        assert records == old(records);
      }
    }

    method Update(requestId: string, edit: Edit, now: nat, outcome: WriteOutcome) returns (updated: Option<MutationRecord>)
      requires Valid()
      modifies this
      ensures Valid()
      ensures var next := if requestId in old(records) then Edited(old(records)[requestId], edit, now) else None;
              && (updated == if outcome == Written then next else None)
              && State() == if next.Some?
                            then WriteThrough(old(State()), With(old(records), requestId, next), outcome)
                            else old(State())
    {
      hide ValidRecordWithLegacy;
      if requestId !in records {
        return None;
      }
      var previous := records[requestId];
      var current := ApplyEdit(previous, edit);
      if current == None || current.value.requestId != requestId || !ValidRecord(current.value) {
        return None;
      }
      StampKeepsValid(current.value, now);
      records := records[requestId := current.value.(updatedAt := now)];
      var ok := WriteLocked(outcome);
      if !ok {
        records := records[requestId := previous];
        assert records == old(records);
        return None;
      }
      return Some(records[requestId]);
    }

    method Remove(requestId: string, outcome: WriteOutcome) returns (ok: bool)
      requires Valid()
      modifies this
      ensures Valid()
      ensures ok <==> requestId !in old(records) || outcome == Written
      ensures State() == if requestId in old(records)
                         then WriteThrough(old(State()), With(old(records), requestId, None), outcome)
                         else old(State())
    {
      hide ValidRecordWithLegacy;
      if requestId !in records {
        return true;
      }
      var previous := records[requestId];
      records := records - {requestId};
      ok := WriteLocked(outcome);
      if !ok {
        records := records[requestId := previous];
        assert records == old(records);
      }
    }

    /** Takes memory from the file; a file the store itself wrote is always read back as it was written. */
    method Reload(outcome: WriteOutcome) returns (ok: bool)
      modifies this
      ensures match old(disk).visible
              case None => records == map[] && disk == Publish(old(disk), map[], outcome) && (ok <==> outcome == Written)
              case Some(file) => (ok <==> Loads(file)) && records == (if ok then file else old(records)) && disk == old(disk)
      ensures old(Valid()) ==> Valid() && (old(disk).visible.Some? ==> ok)
    {
      hide ValidRecordWithLegacy;
      if disk.visible == None {
        records := map[];
        ok := WriteLocked(outcome);
        return;
      }
      var file := disk.visible.value;
      if Valid() {
        WrittenRecordsLoad(file);
      }
      var loaded: Records := map[];
      var todo := file.Keys;
      while todo != {}
        invariant todo <= file.Keys
        invariant loaded == map requestId | requestId in file && requestId !in todo :: file[requestId]
        invariant forall requestId | requestId in loaded ::
                    requestId != "" && requestId == loaded[requestId].requestId && ValidRecordWithLegacy(loaded[requestId], true, true)
        decreases |todo|
      {
        var requestId :| requestId in todo;
        if requestId == "" || requestId != file[requestId].requestId || !ValidRecordWithLegacy(file[requestId], true, true) {
          return false;
        }
        loaded := loaded[requestId := file[requestId]];
        todo := todo - {requestId};
      }
      assert loaded == file;
      records := loaded;
      ok := true;
    }
  }
}
