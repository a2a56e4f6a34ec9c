/**
 Device enrollment at the server. Enroll and RevokeInvite run as watched
 transactions that interleave with each other and with everything else that
 writes: a transaction reads, and commits only if no key it watches was written
 in between. Enroll does not watch the member it reads, so that one may be stale.
 */
module Enrollment {
  import opened Base

  const MAXIMUM_ATTEMPTS := 5

  datatype InviteStatus = Pending | Used | Revoked

  datatype Invite = Invite(status: InviteStatus, member: Option<nat>, named: bool, expiresAt: nat)

  /** One enrollment call: its digest covers everything but the idempotency key. */
  datatype EnrollInput = EnrollInput(
    inviteToken: nat, displayName: string, deviceName: string, runtime: string, permissionProfile: string,
    deviceTokenHash: nat, key: nat)

  datatype Device = Device(member: nat, active: bool)

  datatype EnrollmentRecord = EnrollmentRecord(input: EnrollInput, member: nat, device: nat)

  datatype Registry = Registry(
    references: map<nat, nat>,
    invites: map<nat, Invite>,
    records: map<nat, EnrollmentRecord>,
    credentials: map<nat, nat>,
    members: map<nat, bool>,
    devices: map<nat, Device>,
    deviceCredentials: map<nat, nat>)

  datatype EnrollError = Unauthorized | InviteUsed | InviteRevoked | InviteExpired | Conflict | NotFound | Invalid | Exhausted

  // --- what one transaction decides from what it read ---------------------------------------

  datatype RecordRead = NoRecord | Replayed(record: EnrollmentRecord) | Mismatched

  /** Nothing of the recorded enrollment has been revoked since. */
  predicate Intact(db: Registry, record: EnrollmentRecord) {
    && record.member in db.members && db.members[record.member]
    && record.device in db.devices && db.devices[record.device] == Device(record.member, true)
    && record.device in db.deviceCredentials && db.deviceCredentials[record.device] == record.input.deviceTokenHash
    && record.input.deviceTokenHash in db.credentials && db.credentials[record.input.deviceTokenHash] == record.device
  }

  function ReadRecord(db: Registry, input: EnrollInput): RecordRead {
    if input.key !in db.records then NoRecord
    else if db.records[input.key].input != input || !Intact(db, db.records[input.key]) then Mismatched
    else Replayed(db.records[input.key])
  }

  datatype Plan = Replay(record: EnrollmentRecord) | Refuse(error: EnrollError) | Create(member: nat, newMember: bool)

  function EnrollPlan(db: Registry, input: EnrollInput, invite: nat, freshMember: nat, now: nat): (plan: Plan)
    ensures plan.Create? ==>
              && invite in db.invites && db.invites[invite].status == Pending && now < db.invites[invite].expiresAt
              && input.key !in db.records && input.deviceTokenHash !in db.credentials
  {
    match ReadRecord(db, input)
    case Replayed(record) => Replay(record)
    case Mismatched => Refuse(Conflict)
    case NoRecord =>
      if input.inviteToken !in db.references || db.references[input.inviteToken] != invite then Refuse(Unauthorized)
      else if invite !in db.invites then Refuse(NotFound)
      else
        var current := db.invites[invite];
        match current.status
        case Used => Refuse(InviteUsed)
        case Revoked => Refuse(InviteRevoked)
        case Pending =>
          if current.expiresAt <= now then Refuse(InviteExpired)
          else if input.deviceTokenHash in db.credentials then Refuse(Conflict)
          else if current.member.Some? then
            if current.member.value !in db.members then Refuse(NotFound)
            else if !db.members[current.member.value] then Refuse(Conflict)
            else Create(current.member.value, false)
          else if !current.named && input.displayName == "" then Refuse(Invalid)
          else Create(freshMember, true)
  }

  // --- the interleaved system -------------------------------------------------------------------

  datatype Key = ReferenceKey(token: nat) | InviteKey(invite: nat) | RecordKey(key: nat) | CredentialKey(hash: nat)

  datatype TxOp =
    | Enrolling(input: EnrollInput, invite: nat, freshMember: nat, freshDevice: nat, now: nat)
    | RevokingInvite(invite: nat)

  function Watched(op: TxOp): set<Key> {
    match op
    case Enrolling(input, invite, _, _, _) =>
      {ReferenceKey(input.inviteToken), InviteKey(invite), RecordKey(input.key), CredentialKey(input.deviceTokenHash)}
    case RevokingInvite(invite) => {InviteKey(invite)}
  }

  predicate Agree(a: Registry, b: Registry, key: Key) {
    match key
    case ReferenceKey(token) => (token in a.references <==> token in b.references) && (token in a.references ==>
        a.references[token] == b.references[token])
    case InviteKey(invite) => (invite in a.invites <==> invite in b.invites) && (invite in a.invites ==>
        a.invites[invite] == b.invites[invite])
    case RecordKey(k) => (k in a.records <==> k in b.records) && (k in a.records ==> a.records[k] == b.records[k])
    case CredentialKey(hash) => (hash in a.credentials <==> hash in b.credentials) && (hash in a.credentials ==>
        a.credentials[hash] == b.credentials[hash])
  }

  /** `dirty` is what the database sets once a watched key has been written. */
  datatype Tx = Tx(op: TxOp, attempt: nat, dirty: bool, seen: Option<Registry>)

  datatype Outcome = Enrolled(input: EnrollInput, device: nat) | Failed(error: EnrollError) | InviteIsRevoked(invite: nat)

  datatype Origin = Origin(input: EnrollInput, invite: nat)

  /** The last three fields are history: where devices came from, which device used an invite, and the answers given. */
  datatype State = State(
    db: Registry,
    txs: map<nat, Tx>,
    drawn: nat,
    origins: map<nat, Origin>,
    usedBy: map<nat, nat>,
    outcomes: map<nat, Outcome>)

  datatype Step =
    | CreateInvite(token: nat, invite: Invite)
    | RevokeMember(member: nat, listed: set<nat>)
    | RevokeDevice(device: nat)
    | ReferenceExpires(token: nat)
    | BeginEnroll(call: nat, input: EnrollInput, now: nat)
    | BeginRevoke(call: nat, id: nat)
    | ReadAll(call: nat)
    | Commit(call: nat)
    | GiveUp(call: nat)

  /** A write to the database marks every transaction that watches one of its keys. */
  function Write(s: State, db: Registry, touched: set<Key>): State {
    s.(db := db,
       txs := map call | call in s.txs :: s.txs[call].(dirty := s.txs[call].dirty || Watched(s.txs[call].op) * touched != {}))
  }

  function Finish(s: State, call: nat, outcome: Outcome): State {
    s.(txs := s.txs - {call}, outcomes := s.outcomes[call := outcome])
  }

  function HashesOf(db: Registry, devices: set<nat>): set<nat> {
    set d | d in devices && d in db.deviceCredentials :: db.deviceCredentials[d]
  }

  function WithoutDevices(db: Registry, devices: set<nat>): Registry {
    db.(devices := map d | d in db.devices :: if d in devices then db.devices[d].(active := false) else db.devices[d],
        credentials := db.credentials - HashesOf(db, devices),
        deviceCredentials := db.deviceCredentials - devices)
  }

  function CredentialKeys(hashes: set<nat>): set<Key> {
    set hash | hash in hashes :: CredentialKey(hash)
  }

  /** The writes of a committed enrollment, made from what the transaction read. */
  function WithDevice(db: Registry, op: TxOp, member: nat, newMember: bool, invite: Invite): Registry
    requires op.Enrolling?
  {
    db.(invites := db.invites[op.invite := invite.(status := Used)],
        members := if newMember then db.members[member := true] else db.members,
        devices := db.devices[op.freshDevice := Device(member, true)],
        credentials := db.credentials[op.input.deviceTokenHash := op.freshDevice],
        deviceCredentials := db.deviceCredentials[op.freshDevice := op.input.deviceTokenHash],
        records := db.records[op.input.key := EnrollmentRecord(op.input, member, op.freshDevice)])
  }

  function Retried(s: State, call: nat): State
    requires call in s.txs
  {
    var tx := s.txs[call];
    if tx.attempt >= MAXIMUM_ATTEMPTS then Finish(s, call, Failed(Exhausted))
    else s.(txs := s.txs[call := Tx(tx.op, tx.attempt + 1, false, None)])
  }

  function CommitEnroll(s: State, call: nat): State
    requires call in s.txs && s.txs[call].op.Enrolling? && s.txs[call].seen.Some?
  {
    var tx, op, seen := s.txs[call], s.txs[call].op, s.txs[call].seen.value;
    match EnrollPlan(seen, op.input, op.invite, op.freshMember, op.now)
    case Replay(record) => Finish(s, call, Enrolled(op.input, record.device))
    case Refuse(error) =>
      // A used invite or a conflict may be this very call's earlier success.
      var again := ReadRecord(s.db, op.input);
      if error in {InviteUsed, Conflict} && again.Replayed? then Finish(s, call, Enrolled(op.input, again.record.device))
      else Finish(s, call, Failed(error))
    case Create(member, newMember) =>
      if tx.dirty then Retried(s, call)
      else
        var db := WithDevice(s.db, op, member, newMember, seen.invites[op.invite]);
        var written := Write(s, db, {InviteKey(op.invite), CredentialKey(op.input.deviceTokenHash), RecordKey(op.input.key)});
        Finish(written.(origins := s.origins[op.freshDevice := Origin(op.input, op.invite)],
                        usedBy := s.usedBy[op.invite := op.freshDevice]),
               call, Enrolled(op.input, op.freshDevice))
  }

  function CommitRevoke(s: State, call: nat): State
    requires call in s.txs && s.txs[call].op.RevokingInvite? && s.txs[call].seen.Some?
  {
    var tx, invite, seen := s.txs[call], s.txs[call].op.invite, s.txs[call].seen.value;
    if invite !in seen.invites then Finish(s, call, Failed(NotFound))
    else
      match seen.invites[invite].status
      case Revoked => Finish(s, call, InviteIsRevoked(invite))
      case Used => Finish(s, call, Failed(Conflict))
      case Pending =>
        if tx.dirty then Retried(s, call)
        else
          var db := s.db.(invites := s.db.invites[invite := seen.invites[invite].(status := Revoked)]);
          Finish(Write(s, db, {InviteKey(invite)}), call, InviteIsRevoked(invite))
  }

  function Next(s: State, step: Step): Option<State> {
    match step
    case CreateInvite(token, invite) =>
      if invite.status != Pending then None
      else
        var db := s.db.(invites := s.db.invites[s.drawn := invite], references := s.db.references[token := s.drawn]);
        Some(Write(s, db, {InviteKey(s.drawn), ReferenceKey(token)}).(drawn := s.drawn + 1))
    case RevokeMember(member, listed) =>
      if member !in s.db.members || !(listed <= s.db.devices.Keys) || (exists d | d in listed ::
          s.db.devices[d].member != member) then None
      else
        var db := WithoutDevices(s.db, listed).(members := s.db.members[member := false]);
        Some(Write(s, db, CredentialKeys(HashesOf(s.db, listed))))
    case RevokeDevice(device) =>
      if device !in s.db.devices then None
      else Some(Write(s, WithoutDevices(s.db, {device}), CredentialKeys(HashesOf(s.db, {device}))))
    case ReferenceExpires(token) =>
      Some(Write(s, s.db.(references := s.db.references - {token}), {ReferenceKey(token)}))
    case BeginEnroll(call, input, now) =>
      if call in s.txs || call in s.outcomes then None
      else
        var early := ReadRecord(s.db, input);
        if early.Replayed? then Some(Finish(s, call, Enrolled(input, early.record.device)))
        else if early.Mismatched? then Some(Finish(s, call, Failed(Conflict)))
        else if input.inviteToken !in s.db.references then Some(Finish(s, call, Failed(Unauthorized)))
        else
          Some(s.(txs := s.txs[call := Tx(Enrolling(input, s.db.references[input.inviteToken], s.drawn, s.drawn + 1,
              now), 1, false, None)],
                  drawn := s.drawn + 2))
    case BeginRevoke(call, id) =>
      if call in s.txs || call in s.outcomes then None
      else Some(s.(txs := s.txs[call := Tx(RevokingInvite(id), 1, false, None)]))
    case ReadAll(call) =>
      if call !in s.txs then None else Some(s.(txs := s.txs[call := s.txs[call].(seen := Some(s.db))]))
    case Commit(call) =>
      if call !in s.txs || s.txs[call].seen == None then None
      else if s.txs[call].op.Enrolling? then Some(CommitEnroll(s, call))
      else Some(CommitRevoke(s, call))
    case GiveUp(call) =>
      if call !in s.txs then None else Some(Finish(s, call, Failed(Exhausted)))
  }

  const Empty := State(Registry(map[], map[], map[], map[], map[], map[], map[]), map[], 0, map[], map[], map[])

  ghost predicate Run(states: seq<State>, steps: seq<Step>) {
    && |states| == |steps| + 1
    && states[0] == Empty
    && (forall i | 0 <= i < |steps| :: Next(states[i], steps[i]) == Some(states[i + 1]))
  }

  // --- the invariant ------------------------------------------------------------------------------

  predicate TxOk(s: State, tx: Tx) {
    && (tx.op.Enrolling? ==> tx.op.freshDevice < s.drawn && tx.op.freshDevice !in s.db.devices)
    && (tx.seen.Some? && !tx.dirty ==> forall key | key in Watched(tx.op) :: Agree(tx.seen.value, s.db, key))
    && (tx.seen.Some? ==> RecordsKnown(s, tx.seen.value))
  }

  /** What a transaction read of a record is still what it is: records are only ever added. */
  predicate RecordsKnown(s: State, seen: Registry) {
    forall k | k in seen.records :: k in s.db.records && s.db.records[k] == seen.records[k]
  }

  predicate FreshDevices(s: State) {
    forall c, d | c in s.txs && d in s.txs && c != d && s.txs[c].op.Enrolling? && s.txs[d].op.Enrolling? ::
      s.txs[c].op.freshDevice != s.txs[d].op.freshDevice
  }

  /** Every device came from an invite that it alone used, and has its record. */
  predicate DevicesTraced(s: State) {
    && s.origins.Keys == s.db.devices.Keys
    && (forall d | d in s.origins :: s.origins[d].invite in s.usedBy && s.usedBy[s.origins[d].invite] == d)
    && (forall d | d in s.origins :: s.origins[d].input.key in s.db.records && s.db.records[s.origins[d].input.key].device == d)
  }

  /** The used invites are exactly those that some device came from. */
  predicate InvitesTraced(s: State) {
    && (forall i | i in s.usedBy :: s.usedBy[i] in s.origins && s.origins[s.usedBy[i]].invite == i)
    && s.usedBy.Keys <= s.db.invites.Keys
    && (forall i | i in s.db.invites :: s.db.invites[i].status == Used <==> i in s.usedBy)
  }

  predicate RecordsTraced(s: State) {
    forall k | k in s.db.records ::
      && s.db.records[k].input.key == k
      && s.db.records[k].device in s.origins
      && s.origins[s.db.records[k].device].input == s.db.records[k].input
  }

  predicate Matched(s: State) {
    DevicesTraced(s) && InvitesTraced(s) && RecordsTraced(s)
  }

  predicate Bounded(s: State) {
    && (forall d | d in s.db.devices :: d < s.drawn)
    && (forall i | i in s.db.invites :: i < s.drawn)
  }

  predicate Answered(s: State) {
    forall call | call in s.outcomes && s.outcomes[call].Enrolled? ::
      s.outcomes[call].device in s.origins && s.origins[s.outcomes[call].device].input == s.outcomes[call].input
  }

  predicate Inv(s: State) {
    Matched(s) && Bounded(s) && FreshDevices(s) && Answered(s) && (forall call | call in s.txs :: TxOk(s, s.txs[call]))
  }

  /** A write that stays inside the keys it touches leaves every clean transaction's reads true. */
  lemma WriteKeepsTx(s: State, t: State, tx: Tx, touched: set<Key>)
    requires TxOk(s, tx)
    requires forall key | key !in touched :: Agree(s.db, t.db, key)
    requires forall k | k in s.db.records :: k in t.db.records && t.db.records[k] == s.db.records[k]
    requires s.drawn <= t.drawn
    requires tx.op.Enrolling? ==> tx.op.freshDevice !in t.db.devices
    ensures TxOk(t, tx.(dirty := tx.dirty || Watched(tx.op) * touched != {}))
  {
    if tx.seen.Some? && !tx.dirty && Watched(tx.op) * touched == {} {
      forall key | key in Watched(tx.op) ensures Agree(tx.seen.value, t.db, key) {
        assert key !in touched;
        assert Agree(tx.seen.value, s.db, key) && Agree(s.db, t.db, key);
      }
    }
  }

  lemma RevocationTouches(db: Registry, devices: set<nat>, key: Key)
    requires key !in CredentialKeys(HashesOf(db, devices))
    ensures Agree(db, WithoutDevices(db, devices), key)
  {
  }

  // --- every step keeps it ---------------------------------------------------------------------------

  /** Writes that add no device and no record, and change no used or pending-to-used status, keep the correspondence. */
  lemma PlainWriteKeeps(s: State, db: Registry, touched: set<Key>, drawn: nat)
    requires Inv(s) && s.drawn <= drawn
    requires forall key | key !in touched :: Agree(s.db, db, key)
    requires db.records == s.db.records && db.devices.Keys == s.db.devices.Keys
    requires s.db.invites.Keys <= db.invites.Keys
    requires forall i | i in db.invites ::
               || (i in s.db.invites && (db.invites[i].status == Used <==> s.db.invites[i].status == Used))
               || (i !in s.db.invites && i !in s.usedBy && i < drawn && db.invites[i].status != Used)
    ensures Inv(Write(s, db, touched).(drawn := drawn))
  {
    var t := Write(s, db, touched).(drawn := drawn);
    PlainKeepsMatched(s, t);
    hide TxOk, Agree, Matched, Watched;
    forall call | call in t.txs ensures TxOk(t, t.txs[call]) {
      PlainTx(s, t, s.txs[call], touched);
    }
    assert forall d | d in t.db.devices :: d in s.db.devices.Keys;
    assert Bounded(t) && FreshDevices(t) && Answered(t);
  }

  lemma PlainKeepsMatched(s: State, t: State)
    requires Matched(s) && t.origins == s.origins && t.usedBy == s.usedBy
    requires t.db.records == s.db.records && t.db.devices.Keys == s.db.devices.Keys && s.db.invites.Keys <= t.db.invites.Keys
    requires forall i | i in t.db.invites ::
               || (i in s.db.invites && (t.db.invites[i].status == Used <==> s.db.invites[i].status == Used))
               || (i !in s.db.invites && i !in s.usedBy && t.db.invites[i].status != Used)
    ensures Matched(t)
  {
  }

  lemma PlainTx(s: State, t: State, tx: Tx, touched: set<Key>)
    requires TxOk(s, tx) && s.drawn <= t.drawn && t.db.records == s.db.records && t.db.devices.Keys == s.db.devices.Keys
    requires forall key | key !in touched :: Agree(s.db, t.db, key)
    ensures TxOk(t, tx.(dirty := tx.dirty || Watched(tx.op) * touched != {}))
  {
    assert tx.op.Enrolling? ==> tx.op.freshDevice !in s.db.devices.Keys;
    hide Agree, Watched;
    WriteKeepsTx(s, t, tx, touched);
  }

  /** Answering a call with a device that has this very input keeps every answer true. */
  lemma FinishKeeps(s: State, call: nat, outcome: Outcome)
    requires Inv(s)
    requires outcome.Enrolled? ==> outcome.device in s.origins && s.origins[outcome.device].input == outcome.input
    ensures Inv(Finish(s, call, outcome))
  {
    hide Agree, Watched;
    var t := Finish(s, call, outcome);
    forall c | c in t.txs ensures TxOk(t, t.txs[c]) {
      assert TxOk(s, s.txs[c]);
    }
  }

  lemma TxChangeKeeps(s: State, call: nat, tx: Tx)
    requires Inv(s) && call in s.txs && TxOk(s, tx) && tx.op == s.txs[call].op
    ensures Inv(s.(txs := s.txs[call := tx]))
  {
    hide Agree, Watched;
    var t := s.(txs := s.txs[call := tx]);
    forall c | c in t.txs ensures TxOk(t, t.txs[c]) {
      if c != call { assert TxOk(s, s.txs[c]); }
    }
  }

  lemma RetriedKeeps(s: State, call: nat)
    requires Inv(s) && call in s.txs
    ensures Inv(Retried(s, call))
  {
    hide Inv;
    assert TxOk(s, s.txs[call]) by { InvTx(s, call); }
    if s.txs[call].attempt >= MAXIMUM_ATTEMPTS {
      FinishKeeps(s, call, Failed(Exhausted));
    } else {
      TxChangeKeeps(s, call, Tx(s.txs[call].op, s.txs[call].attempt + 1, false, None));
    }
  }

  lemma InvTx(s: State, call: nat)
    requires Inv(s) && call in s.txs
    ensures TxOk(s, s.txs[call])
  {
  }

  /** A record that can be replayed was made by a call with the same input. */
  lemma ReplayedIsOwn(s: State, input: EnrollInput)
    requires Inv(s) && ReadRecord(s.db, input).Replayed?
    ensures var device := ReadRecord(s.db, input).record.device; device in s.origins && s.origins[device].input == input
  {
  }

  lemma SeenReplayIsOwn(s: State, call: nat)
    requires Inv(s) && call in s.txs && s.txs[call].op.Enrolling? && s.txs[call].seen.Some?
    requires ReadRecord(s.txs[call].seen.value, s.txs[call].op.input).Replayed?
    ensures var device := ReadRecord(s.txs[call].seen.value, s.txs[call].op.input).record.device;
            device in s.origins && s.origins[device].input == s.txs[call].op.input
  {
  }

  /** What a clean transaction plans from is what is there: an invite it can use has not been used. */
  lemma CleanPlanIsCurrent(s: State, call: nat)
    requires Inv(s) && call in s.txs && s.txs[call].op.Enrolling? && s.txs[call].seen.Some? && !s.txs[call].dirty
    requires var op := s.txs[call].op; EnrollPlan(s.txs[call].seen.value, op.input, op.invite, op.freshMember, op.now).Create?
    ensures var op := s.txs[call].op;
            && op.invite in s.db.invites && s.db.invites[op.invite].status == Pending && op.invite !in s.usedBy
            && op.input.key !in s.db.records && op.freshDevice !in s.db.devices && op.freshDevice < s.drawn
            && s.txs[call].seen.value.invites[op.invite] == s.db.invites[op.invite]
  {
    hide EnrollPlan;
    InvTx(s, call);
    var op, seen := s.txs[call].op, s.txs[call].seen.value;
    assert Agree(seen, s.db, InviteKey(op.invite)) && Agree(seen, s.db, RecordKey(op.input.key));
  }

  lemma CreateKeeps(s: State, call: nat, member: nat, newMember: bool)
    requires Inv(s) && call in s.txs && s.txs[call].op.Enrolling?
    requires var op := s.txs[call].op;
             && op.invite in s.db.invites && s.db.invites[op.invite].status == Pending && op.invite !in s.usedBy
             && op.input.key !in s.db.records && op.freshDevice !in s.db.devices && op.freshDevice < s.drawn
    ensures var op := s.txs[call].op;
            var db := WithDevice(s.db, op, member, newMember, s.db.invites[op.invite]);
            var written := Write(s, db, {InviteKey(op.invite), CredentialKey(op.input.deviceTokenHash), RecordKey(op.input.key)});
            Inv(Finish(written.(origins := s.origins[op.freshDevice := Origin(op.input, op.invite)],
                                usedBy := s.usedBy[op.invite := op.freshDevice]),
                       call, Enrolled(op.input, op.freshDevice)))
  {
    hide TxOk, Agree, Watched, DevicesTraced, InvitesTraced, RecordsTraced;
    var op := s.txs[call].op;
    var db := WithDevice(s.db, op, member, newMember, s.db.invites[op.invite]);
    var touched := {InviteKey(op.invite), CredentialKey(op.input.deviceTokenHash), RecordKey(op.input.key)};
    var t := Finish(Write(s, db, touched).(origins := s.origins[op.freshDevice := Origin(op.input, op.invite)],
                                           usedBy := s.usedBy[op.invite := op.freshDevice]),
                    call, Enrolled(op.input, op.freshDevice));
    DeviceTouches(s.db, op, member, newMember, s.db.invites[op.invite]);
    assert t.db.devices.Keys == s.db.devices.Keys + {op.freshDevice};
    assert t.db.invites.Keys == s.db.invites.Keys;
    assert t.txs.Keys == s.txs.Keys - {call};
    OriginsAreDevices(s, op.freshDevice);
    CreateKeepsMatched(s, t, op, member);
    CreateKeepsAnswers(s, t, call);
    forall c | c in t.txs ensures TxOk(t, t.txs[c]) {
      CreateKeepsTx(s, t, call, c, touched);
    }
    hide Matched, Answered, Bounded, FreshDevices;
  }

  lemma OriginsAreDevices(s: State, device: nat)
    requires Matched(s) && device !in s.db.devices
    ensures device !in s.origins
  {
  }

  lemma CreateKeepsAnswers(s: State, t: State, call: nat)
    requires FreshDevices(s) && Answered(s) && Bounded(s) && call in s.txs && s.txs[call].op.Enrolling?
    requires var op := s.txs[call].op;
             && op.invite in s.db.invites && op.freshDevice < s.drawn && t.drawn == s.drawn && op.freshDevice !in s.origins
             && t.db.invites.Keys == s.db.invites.Keys && t.db.devices.Keys == s.db.devices.Keys + {op.freshDevice}
             && t.txs.Keys == s.txs.Keys - {call} && (forall c | c in t.txs :: t.txs[c].op == s.txs[c].op)
             && t.origins == s.origins[op.freshDevice := Origin(op.input, op.invite)]
             && t.outcomes == s.outcomes[call := Enrolled(op.input, op.freshDevice)]
    ensures FreshDevices(t) && Answered(t) && Bounded(t)
  {
  }

  lemma DeviceTouches(db: Registry, op: TxOp, member: nat, newMember: bool, invite: Invite)
    requires op.Enrolling?
    ensures forall key | key !in {InviteKey(op.invite), CredentialKey(op.input.deviceTokenHash), RecordKey(op.input.key)} ::
              Agree(db, WithDevice(db, op, member, newMember, invite), key)
  {
  }

  lemma CreateKeepsTx(s: State, t: State, call: nat, other: nat, touched: set<Key>)
    requires Inv(s) && call in s.txs && other in s.txs && other != call && s.txs[call].op.Enrolling?
    requires forall key | key !in touched :: Agree(s.db, t.db, key)
    requires t.drawn == s.drawn
    requires forall k | k in s.db.records :: k in t.db.records && t.db.records[k] == s.db.records[k]
    requires t.db.devices.Keys == s.db.devices.Keys + {s.txs[call].op.freshDevice}
    requires other in t.txs && t.txs[other] == s.txs[other].(dirty := s.txs[other].dirty
        || Watched(s.txs[other].op) * touched != {})
    ensures TxOk(t, t.txs[other])
  {
    hide Agree, Watched, Matched;
    InvTx(s, other);
    if s.txs[other].op.Enrolling? {
      assert s.txs[other].op.freshDevice !in t.db.devices.Keys;
    }
    WriteKeepsTx(s, t, s.txs[other], touched);
  }

  lemma CreateKeepsMatched(s: State, t: State, op: TxOp, member: nat)
    requires Matched(s) && op.Enrolling? && op.invite in s.db.invites
    requires op.invite !in s.usedBy && op.input.key !in s.db.records && op.freshDevice !in s.origins
    requires t.db.invites == s.db.invites[op.invite := s.db.invites[op.invite].(status := Used)]
    requires t.db.records == s.db.records[op.input.key := EnrollmentRecord(op.input, member, op.freshDevice)]
    requires t.db.devices.Keys == s.db.devices.Keys + {op.freshDevice}
    requires t.origins == s.origins[op.freshDevice := Origin(op.input, op.invite)]
        && t.usedBy == s.usedBy[op.invite := op.freshDevice]
    ensures Matched(t)
  {
    hide DevicesTraced, InvitesTraced, RecordsTraced;
    TraceDevice(s, t, op.freshDevice, Origin(op.input, op.invite), t.db.records[op.input.key]);
    TraceInvite(s, t, op.freshDevice, Origin(op.input, op.invite));
    TraceRecord(s, t, op.freshDevice, Origin(op.input, op.invite), t.db.records[op.input.key]);
  }

  lemma TraceDevice(s: State, t: State, device: nat, origin: Origin, record: EnrollmentRecord)
    requires DevicesTraced(s) && origin.invite !in s.usedBy && origin.input.key !in s.db.records
        && device !in s.origins && record.device == device
    requires t.origins == s.origins[device := origin] && t.usedBy == s.usedBy[origin.invite := device]
    requires t.db.records == s.db.records[origin.input.key := record] && t.db.devices.Keys == s.db.devices.Keys + {device}
    ensures DevicesTraced(t)
  {
    assert t.origins.Keys == s.origins.Keys + {device};
  }

  lemma TraceInvite(s: State, t: State, device: nat, origin: Origin)
    requires InvitesTraced(s) && origin.invite !in s.usedBy && device !in s.origins && origin.invite in s.db.invites
    requires t.origins == s.origins[device := origin] && t.usedBy == s.usedBy[origin.invite := device]
    requires t.db.invites == s.db.invites[origin.invite := s.db.invites[origin.invite].(status := Used)]
    ensures InvitesTraced(t)
  {
  }

  lemma TraceRecord(s: State, t: State, device: nat, origin: Origin, record: EnrollmentRecord)
    requires RecordsTraced(s) && device !in s.origins && record.device == device && record.input == origin.input
    requires t.origins == s.origins[device := origin] && t.db.records == s.db.records[origin.input.key := record]
    ensures RecordsTraced(t)
  {
  }

  lemma CommitEnrollKeeps(s: State, call: nat)
    requires Inv(s) && call in s.txs && s.txs[call].op.Enrolling? && s.txs[call].seen.Some?
    ensures Inv(CommitEnroll(s, call))
  {
    hide Inv, Agree, Watched, Intact, WithDevice, Write, Finish, Retried;
    var tx, op, seen := s.txs[call], s.txs[call].op, s.txs[call].seen.value;
    match EnrollPlan(seen, op.input, op.invite, op.freshMember, op.now)
    case Replay(record) =>
      SeenReplayIsOwn(s, call);
      FinishKeeps(s, call, Enrolled(op.input, record.device));
    case Refuse(error) =>
      var again := ReadRecord(s.db, op.input);
      if again.Replayed? {
        ReplayedIsOwn(s, op.input);
        FinishKeeps(s, call, Enrolled(op.input, again.record.device));
      }
      FinishKeeps(s, call, Failed(error));
    case Create(member, newMember) =>
      if tx.dirty {
        RetriedKeeps(s, call);
      } else {
        CleanPlanIsCurrent(s, call);
        CreateKeeps(s, call, member, newMember);
      }
  }

  lemma CommitRevokeKeeps(s: State, call: nat)
    requires Inv(s) && call in s.txs && s.txs[call].op.RevokingInvite? && s.txs[call].seen.Some?
    ensures Inv(CommitRevoke(s, call))
  {
    hide Inv, Retried, Finish, Write;
    var tx, invite, seen := s.txs[call], s.txs[call].op.invite, s.txs[call].seen.value;
    FinishKeeps(s, call, Failed(NotFound));
    FinishKeeps(s, call, Failed(Conflict));
    FinishKeeps(s, call, InviteIsRevoked(invite));
    RetriedKeeps(s, call);
    if invite in seen.invites && seen.invites[invite].status == Pending && !tx.dirty {
      CleanRevokeKeeps(s, call);
    }
  }

  lemma CleanRevokeKeeps(s: State, call: nat)
    requires Inv(s) && call in s.txs && s.txs[call].op.RevokingInvite? && s.txs[call].seen.Some? && !s.txs[call].dirty
    requires s.txs[call].op.invite in s.txs[call].seen.value.invites
    requires s.txs[call].seen.value.invites[s.txs[call].op.invite].status == Pending
    ensures var invite := s.txs[call].op.invite;
            var db := s.db.(invites := s.db.invites[invite := s.txs[call].seen.value.invites[invite].(status := Revoked)]);
            Inv(Finish(Write(s, db, {InviteKey(invite)}), call, InviteIsRevoked(invite)))
  {
    InvTx(s, call);
    var invite, seen := s.txs[call].op.invite, s.txs[call].seen.value;
    assert Agree(seen, s.db, InviteKey(invite));
    var db := s.db.(invites := s.db.invites[invite := seen.invites[invite].(status := Revoked)]);
    PlainWriteKeeps(s, db, {InviteKey(invite)}, s.drawn);
    hide Inv;
    assert Write(s, db, {InviteKey(invite)}).(drawn := s.drawn) == Write(s, db, {InviteKey(invite)});
    FinishKeeps(Write(s, db, {InviteKey(invite)}), call, InviteIsRevoked(invite));
  }

  lemma BeginKeeps(s: State, step: Step)
    requires Inv(s) && step.BeginEnroll? && Next(s, step).Some?
    ensures Inv(Next(s, step).value)
  {
    hide Agree, Watched, Matched, Intact, ReadRecord;
    var early := ReadRecord(s.db, step.input);
    if early.Replayed? {
      ReplayedIsOwn(s, step.input);
      FinishKeeps(s, step.call, Enrolled(step.input, early.record.device));
    } else if early.Mismatched? {
      FinishKeeps(s, step.call, Failed(Conflict));
    } else if step.input.inviteToken !in s.db.references {
      FinishKeeps(s, step.call, Failed(Unauthorized));
    } else {
      var t := Next(s, step).value;
      forall c | c in t.txs ensures TxOk(t, t.txs[c]) {
        if c != step.call { assert TxOk(s, s.txs[c]); }
      }
      MatchedFrame(s, t);
    }
  }

  lemma MatchedFrame(s: State, t: State)
    requires Matched(s) && t.db == s.db && t.origins == s.origins && t.usedBy == s.usedBy
    ensures Matched(t)
  {
  }

  lemma BeginRevokeKeeps(s: State, call: nat, id: nat)
    requires Inv(s)
    ensures Inv(s.(txs := s.txs[call := Tx(RevokingInvite(id), 1, false, None)]))
  {
    hide Agree, Watched, Matched;
    var t := s.(txs := s.txs[call := Tx(RevokingInvite(id), 1, false, None)]);
    forall c | c in t.txs ensures TxOk(t, t.txs[c]) {
      if c != call { assert TxOk(s, s.txs[c]); }
    }
    MatchedFrame(s, t);
  }

  lemma RevocationKeeps(s: State, db: Registry, devices: set<nat>)
    requires Inv(s) && db == WithoutDevices(s.db, devices).(members := db.members)
    ensures Inv(Write(s, db, CredentialKeys(HashesOf(s.db, devices))))
  {
    var touched := CredentialKeys(HashesOf(s.db, devices));
    forall key | key !in touched ensures Agree(s.db, db, key) {
      RevocationTouches(s.db, devices, key);
    }
    hide Agree, Inv;
    PlainWriteKeeps(s, db, touched, s.drawn) by { InviteStatuses(s, db, s.drawn); }
    assert Write(s, db, touched).(drawn := s.drawn) == Write(s, db, touched);
  }

  lemma InviteStatuses(s: State, db: Registry, drawn: nat)
    requires Inv(s) && db.invites == s.db.invites
    ensures forall i | i in db.invites ::
               || (i in s.db.invites && (db.invites[i].status == Used <==> s.db.invites[i].status == Used))
               || (i !in s.db.invites && i !in s.usedBy && i < drawn && db.invites[i].status != Used)
  {
  }

  lemma StepKeepsInv(s: State, step: Step)
    requires Inv(s) && Next(s, step).Some?
    ensures Inv(Next(s, step).value)
  {
    hide Inv, CommitEnroll, CommitRevoke, Finish, Write, WithoutDevices, ReadRecord;
    match step
    case CreateInvite(token, invite) => CreateInviteKeeps(s, token, invite);
    case RevokeMember(member, listed) => RevocationKeeps(s, WithoutDevices(s.db,
        listed).(members := s.db.members[member := false]), listed);
    case RevokeDevice(device) => RevocationKeeps(s, WithoutDevices(s.db, {device}), {device});
    case ReferenceExpires(token) => ReferenceKeeps(s, token);
    case BeginEnroll(call, input, now) => BeginKeeps(s, step);
    case BeginRevoke(call, id) => BeginRevokeKeeps(s, call, id);
    case ReadAll(call) => ReadKeeps(s, call);
    case Commit(call) =>
      if s.txs[call].op.Enrolling? { CommitEnrollKeeps(s, call); } else { CommitRevokeKeeps(s, call); }
    case GiveUp(call) => FinishKeeps(s, call, Failed(Exhausted));
  }

  lemma CreateInviteKeeps(s: State, token: nat, invite: Invite)
    requires Inv(s) && invite.status == Pending
    ensures Inv(Next(s, CreateInvite(token, invite)).value)
  {
    var db := s.db.(invites := s.db.invites[s.drawn := invite], references := s.db.references[token := s.drawn]);
    FreshInvite(s);
    hide TxOk, Watched, DevicesTraced, RecordsTraced;
    PlainWriteKeeps(s, db, {InviteKey(s.drawn), ReferenceKey(token)}, s.drawn + 1);
  }

  lemma FreshInvite(s: State)
    requires Inv(s)
    ensures s.drawn !in s.db.invites && s.drawn !in s.usedBy
  {
    assert s.drawn !in s.db.invites.Keys;
  }

  lemma ReferenceKeeps(s: State, token: nat)
    requires Inv(s)
    ensures Inv(Next(s, ReferenceExpires(token)).value)
  {
    var db := s.db.(references := s.db.references - {token});
    PlainWriteKeeps(s, db, {ReferenceKey(token)}, s.drawn);
    assert Write(s, db, {ReferenceKey(token)}).(drawn := s.drawn) == Write(s, db, {ReferenceKey(token)});
  }

  lemma ReadKeeps(s: State, call: nat)
    requires Inv(s) && call in s.txs
    ensures Inv(s.(txs := s.txs[call := s.txs[call].(seen := Some(s.db))]))
  {
    hide Inv;
    InvTx(s, call);
    TxChangeKeeps(s, call, s.txs[call].(seen := Some(s.db)));
  }

  lemma RunStep(states: seq<State>, steps: seq<Step>, i: nat)
    requires Run(states, steps) && i < |steps| && Inv(states[i])
    ensures Inv(states[i + 1])
  {
    hide Inv, Next;
    assert Next(states[i], steps[i]) == Some(states[i + 1]);
    StepKeepsInv(states[i], steps[i]);
  }

  lemma {:induction false} RunsAreSound(states: seq<State>, steps: seq<Step>, i: nat)
    requires Run(states, steps) && i < |states|
    ensures Inv(states[i])
  {
    if i > 0 {
      hide Inv, Next;
      RunsAreSound(states, steps, i - 1);
      RunStep(states, steps, i - 1);
    }
  }

  // --- the guarantees ------------------------------------------------------------------------------------

  /**
   In every interleaving an invite yields at most one device: it is used
   exactly when one device came from it, so an invite that is still pending
   or was revoked has none.
   */
  lemma InviteYieldsAtMostOneDevice(states: seq<State>, steps: seq<Step>, i: nat)
    requires Run(states, steps) && i < |states|
    ensures var s := states[i];
            && s.origins.Keys == s.db.devices.Keys
            && (forall d, e | d in s.origins && e in s.origins && s.origins[d].invite == s.origins[e].invite :: d == e)
            && (forall id | id in s.db.invites :: s.db.invites[id].status == Used <==> exists d | d in s.origins ::
                s.origins[d].invite == id)
  {
    RunsAreSound(states, steps, i);
    hide Next, Run;
    var s := states[i];
    forall id | id in s.db.invites && s.db.invites[id].status == Used
      ensures exists d | d in s.origins :: s.origins[d].invite == id
    {
      assert s.origins[s.usedBy[id]].invite == id;
    }
  }

  /** Used and revoked are final, and exclude each other for ever. */
  lemma InviteEndIsFinal(states: seq<State>, steps: seq<Step>, i: nat, id: nat)
    requires Run(states, steps) && i < |steps| && id in states[i].db.invites && states[i].db.invites[id].status != Pending
    ensures id in states[i + 1].db.invites && states[i + 1].db.invites[id].status == states[i].db.invites[id].status
  {
    RunsAreSound(states, steps, i);
    assert Next(states[i], steps[i]) == Some(states[i + 1]);
    EndedInviteStays(states[i], steps[i], id);
  }

  lemma EndedInviteStays(s: State, step: Step, id: nat)
    requires Inv(s) && Next(s, step).Some? && id in s.db.invites && s.db.invites[id].status != Pending
    ensures var t := Next(s, step).value; id in t.db.invites && t.db.invites[id].status == s.db.invites[id].status
  {
    hide EnrollPlan, ReadRecord, Agree, Watched, Matched, CommitEnroll, CommitRevoke, HashesOf;
    if step.Commit? {
      if s.txs[step.call].op.Enrolling? {
        EnrollKeepsEnded(s, step.call, id);
      } else {
        RevokeKeepsEnded(s, step.call, id);
      }
    }
  }

  lemma WriteStores(s: State, db: Registry, touched: set<Key>)
    ensures Write(s, db, touched).db == db
  {
  }

  lemma EnrollKeepsEnded(s: State, call: nat, id: nat)
    requires Inv(s) && call in s.txs && s.txs[call].seen.Some? && s.txs[call].op.Enrolling?
    requires id in s.db.invites && s.db.invites[id].status != Pending
    ensures var t := CommitEnroll(s, call); id in t.db.invites && t.db.invites[id].status == s.db.invites[id].status
  {
    hide Inv, ReadRecord, EnrollPlan;
    var tx, op := s.txs[call], s.txs[call].op;
    var plan := EnrollPlan(tx.seen.value, op.input, op.invite, op.freshMember, op.now);
    if plan.Create? && !tx.dirty {
      CleanPlanIsCurrent(s, call);
    }
  }

  lemma RevokeKeepsEnded(s: State, call: nat, id: nat)
    requires Inv(s) && call in s.txs && s.txs[call].seen.Some? && s.txs[call].op.RevokingInvite?
    requires id in s.db.invites && s.db.invites[id].status != Pending
    ensures var t := CommitRevoke(s, call); id in t.db.invites && t.db.invites[id].status == s.db.invites[id].status
  {
    hide Inv, Watched, TxOk, Write;
    var tx, invite := s.txs[call], s.txs[call].op.invite;
    if !tx.dirty && invite in tx.seen.value.invites {
      CleanInviteIsCurrent(s, call);
      var db := s.db.(invites := s.db.invites[invite := tx.seen.value.invites[invite].(status := Revoked)]);
      WriteStores(s, db, {InviteKey(invite)});
    }
  }

  lemma CleanInviteIsCurrent(s: State, call: nat)
    requires Inv(s) && call in s.txs && s.txs[call].seen.Some? && s.txs[call].op.RevokingInvite? && !s.txs[call].dirty
    ensures Agree(s.txs[call].seen.value, s.db, InviteKey(s.txs[call].op.invite))
  {
  }

  /** Two calls with the same content that both succeed were given the same device. */
  lemma RetriesGetTheSameDevice(states: seq<State>, steps: seq<Step>, i: nat, c: nat, d: nat)
    requires Run(states, steps) && i < |states|
    requires c in states[i].outcomes && d in states[i].outcomes && states[i].outcomes[c].Enrolled?
        && states[i].outcomes[d].Enrolled?
    requires states[i].outcomes[c].input == states[i].outcomes[d].input
    ensures states[i].outcomes[c].device == states[i].outcomes[d].device
  {
    RunsAreSound(states, steps, i);
  }

  /**
   Once a call has created its device, repeating it creates nothing: it
   replays that device exactly while neither the device, nor its credential,
   nor its member has been revoked, and is refused from then on.
   */
  lemma ExactRetryCreatesNothing(states: seq<State>, steps: seq<Step>, i: nat, device: nat, invite: nat,
          freshMember: nat, now: nat)
    requires Run(states, steps) && i < |states| && device in states[i].origins
    ensures var s := states[i];
            var input := s.origins[device].input;
            && input.key in s.db.records && s.db.records[input.key].device == device
            && var record := s.db.records[input.key];
               EnrollPlan(s.db, input, invite, freshMember, now) == if Intact(s.db,
                   record) then Replay(record) else Refuse(Conflict)
  {
    RunsAreSound(states, steps, i);
  }
}
