/**
 Rotation of the administrator credential: the command stages a new token in
 an attempt file, asks the server to swap credentials, and then moves the token
 into place. The same token file is read and replaced.
 */
module AdminRotation {
  import opened Base
  import opened PrivateFiles

  datatype Token = Token(draw: nat)

  datatype Hash = Hash(token: Token)

  datatype Attempt = Attempt(sourceHash: Hash, newToken: Token, key: nat)

  datatype RotationFiles = RotationFiles(token: File<Token>, attempt: File<Attempt>)

  type Directory = Machine<RotationFiles>

  // --- the server ---------------------------------------------------------------------

  datatype Rotation = Rotation(oldHash: Hash, newHash: Hash)

  /** The live administrator credentials and the rotation records kept for retries. */
  datatype AdminServer = AdminServer(credentials: set<Hash>, rotations: map<nat, Rotation>)

  datatype Reply = Rotated | Unauthorized | Refused

  /** `principal` is the credential the request was authenticated with, possibly some time ago. */
  function Rotate(server: AdminServer, principal: Hash, newHash: Hash, key: nat): (AdminServer, Reply) {
    if key in server.rotations then
      var existing := server.rotations[key];
      if existing.newHash != newHash then (server, Refused)
      else if principal != existing.newHash && principal != existing.oldHash then (server, Unauthorized)
      else (server, Rotated)
    else if principal == newHash || principal !in server.credentials || newHash in server.credentials then (server, Refused)
    else
      (AdminServer(server.credentials - {principal} + {newHash}, server.rotations[key := Rotation(principal, newHash)]), Rotated)
  }

  function Request(server: AdminServer, token: Token, newHash: Hash, key: nat): (AdminServer, Reply) {
    if Hash(token) !in server.credentials then (server, Unauthorized) else Rotate(server, Hash(token), newHash, key)
  }

  /**
   A rotation happens once: it trades one credential for another, and from then
   on its key answers the same content alike, for the two credentials involved
   only, and changes nothing.
   */
  lemma RotationHappensOnce(server: AdminServer, principal: Hash, newHash: Hash, key: nat, other: Hash, content: Hash)
    ensures var (after, reply) := Rotate(server, principal, newHash, key);
            && |after.credentials| == |server.credentials|
            && (reply != Rotated ==> after == server)
            && (reply == Rotated ==>
                  && key in after.rotations && after.rotations[key].newHash == newHash
                  && Rotate(after, other, content, key) ==
                     (after, if content != newHash then Refused
                             else if other in {newHash, after.rotations[key].oldHash} then Rotated
                             else Unauthorized))
  {
    var after := Rotate(server, principal, newHash, key).0;
    if after.credentials != server.credentials {
      assert after.credentials == server.credentials - {principal} + {newHash};
      assert |server.credentials - {principal}| == |server.credentials| - 1;
    }
  }

  /** What other clients leave behind at one point of a transaction, and whether they wrote a key that it watches. */
  datatype Turn = Turn(after: AdminServer, touched: bool)

  /** The three keys that a rotation watches: the old credential, the new one and the rotation record. */
  function Watched(server: AdminServer, principal: Hash, newHash: Hash, key: nat): (bool, bool, Option<Rotation>) {
    (principal in server.credentials, newHash in server.credentials,
     if key in server.rotations then Some(server.rotations[key]) else None)
  }

  /** No other client ever writes one of them. */
  predicate Undisturbed(server: AdminServer, others: seq<Turn>, principal: Hash, newHash: Hash, key: nat) {
    forall turn | turn in others ::
      !turn.touched && Watched(turn.after, principal, newHash, key) == Watched(server, principal, newHash, key)
  }

  predicate ComesFrom(server: AdminServer, before: AdminServer, others: seq<Turn>) {
    server == before || exists turn | turn in others :: turn.after == server
  }

  predicate Follows(server: AdminServer, begun: AdminServer, others: seq<Turn>, principal: Hash, newHash: Hash, key: nat) {
    && ComesFrom(server, begun, others)
    && (Undisturbed(begun, others, principal, newHash, key) ==>
          Watched(server, principal, newHash, key) == Watched(begun, principal, newHash, key))
  }

  lemma BeginsAs(server: AdminServer, others: seq<Turn>, principal: Hash, newHash: Hash, key: nat)
    ensures Follows(server, server, others, principal, newHash, key)
  {
  }

  class AdminStore {
    var credentials: set<Hash>
    var rotations: map<nat, Rotation>

    function State(): AdminServer
      reads this
    {
      AdminServer(credentials, rotations)
    }

    constructor (bootstrap: Hash)
      ensures State() == AdminServer({bootstrap}, map[])
    {
      credentials, rotations := {bootstrap}, map[];
    }

    /** The next turn of the other clients, if they have one; `moved` says whether it fails a transaction that is watching. */
    method OthersRun(others: seq<Turn>, turn: nat, principal: Hash, newHash: Hash, key: nat, ghost begun: AdminServer)
      returns (next: nat, moved: bool)
      requires Follows(State(), begun, others, principal, newHash, key)
      modifies this
      ensures Follows(State(), begun, others, principal, newHash, key)
      ensures Undisturbed(begun, others, principal, newHash, key) ==> !moved
      ensures turn >= |others| ==> State() == old(State()) && !moved
      ensures turn < |others| ==>
                State() == others[turn].after
                && moved == (others[turn].touched
                             || Watched(State(), principal, newHash, key) != Watched(old(State()), principal, newHash, key))
    {
      next, moved := turn, false;
      if turn < |others| {
        var before := Watched(State(), principal, newHash, key);
        credentials, rotations := others[turn].after.credentials, others[turn].after.rotations;
        next, moved := turn + 1, others[turn].touched || Watched(State(), principal, newHash, key) != before;
      }
    }

    /**
     The watched transaction with its five attempts, other clients running
     before every command that it sends. What it does, it does at one state
     `at`, as Rotate says; or it gives up and changes nothing, which it does
     only if somebody else wrote a watched key.
     */
    method RotateAdminCredential(principal: Hash, newHash: Hash, key: nat, others: seq<Turn>)
      returns (reply: Reply, ghost at: AdminServer)
      modifies this
      ensures ComesFrom(at, old(State()), others)
      ensures (State(), reply) == Rotate(at, principal, newHash, key) || (State(), reply) == (at, Refused)
      ensures Undisturbed(old(State()), others, principal, newHash, key) ==>
                (State(), reply) == Rotate(at, principal, newHash, key)
    {
      hide ComesFrom, Undisturbed;
      ghost var begun, quiet := State(), Undisturbed(State(), others, principal, newHash, key);
      var turn, moved, again := 0, false, false;
      BeginsAs(begun, others, principal, newHash, key);
      for attempt := 0 to 5
        invariant Follows(State(), begun, others, principal, newHash, key)
        invariant quiet && attempt > 0 ==> Rotate(State(), principal, newHash, key).1 == Refused
      {
        // Before WATCH anything may change; from here on it counts as moved.
        turn, moved := OthersRun(others, turn, principal, newHash, key, begun);
        turn, moved := OthersRun(others, turn, principal, newHash, key, begun);
        at := State();
        if key in rotations {
          var existing := rotations[key];
          if existing.newHash != newHash {
            return Refused, at;
          }
          if principal != existing.newHash && principal != existing.oldHash {
            return Unauthorized, at;
          }
          return Rotated, at;
        }
        if principal == newHash {
          return Refused, at;
        }
        turn, again := OthersRun(others, turn, principal, newHash, key, begun);
        moved := moved || again;
        if principal !in credentials {
          continue;
        }
        turn, again := OthersRun(others, turn, principal, newHash, key, begun);
        moved := moved || again;
        if newHash in credentials {
          continue;
        }
        turn, again := OthersRun(others, turn, principal, newHash, key, begun);
        at := State();
        if moved || again {
          continue;
        }
        credentials := credentials - {principal} + {newHash};
        rotations := rotations[key := Rotation(principal, newHash)];
        return Rotated, at;
      }
      return Refused, State();
    }
  }

  // --- the command as a function ---------------------------------------------------------

  datatype Delayed = Delayed(principal: Hash, newHash: Hash, key: nat)

  /** The directory, the server, every request ever sent, and how many random values were drawn. */
  datatype World = World(directory: Directory, server: AdminServer, sent: set<Delayed>, draws: nat)

  predicate TokenMatches(token: File<Token>, sourceHash: Hash, replacement: Token) {
    match token
    case Absent => true
    case Torn => false
    case Full(present) => present == replacement || Hash(present) == sourceHash
  }

  function Prepared(m: Directory, current: Token, draw: nat): (Directory, Option<Attempt>) {
    match m.files.attempt
    case Torn => (m, None)
    case Full(a) =>
      if Hash(current) != a.sourceHash && current != a.newToken then (m, None)
      else if !TokenMatches(m.files.token, a.sourceHash, a.newToken) then (m, None)
      else (m, Some(a))
    case Absent =>
      var a := Attempt(Hash(current), Token(draw), draw);
      var written := WriteNew(m, m.files.(attempt := Torn), m.files.(attempt := Full(a)));
      (written.0, if written.1 then Some(a) else None)
  }

  /** One request and its reply; None when no reply arrives. */
  function Called(w: World, token: Token, a: Attempt): (World, Option<Reply>) {
    var (m, fault) := Tick(w.directory);
    if w.directory.crashed || fault == Crashes then (w.(directory := m), None)
    else
      var sent := w.(directory := m, sent := w.sent + {Delayed(Hash(token), Hash(a.newToken), a.key)});
      if fault == Fails then (sent, None)
      else
        var answer := Request(w.server, token, Hash(a.newToken), a.key);
        (sent.(server := answer.0), if fault == Lost then None else Some(answer.1))
  }

  function Replaced(m: Directory, raw: Token, sourceHash: Hash): (Directory, bool) {
    match m.files.token
    case Absent => WriteNew(m, m.files.(token := Torn), m.files.(token := Full(raw)))
    case Torn => (m, false)
    case Full(present) =>
      if present == raw then (m, true)
      else if Hash(present) != sourceHash then (m, false)
      else AtomicWrite(m, m.files.(token := Full(raw)), m.files.(token := Absent))
  }

  function Finalized(m: Directory, raw: Token, sourceHash: Hash): (Directory, bool) {
    var replaced := Replaced(m, raw, sourceHash);
    if !replaced.1 then replaced
    else
      var removed := Change(replaced.0, replaced.0.files.(attempt := Absent));
      if !removed.1 then removed else Sync(removed.0)
  }

  /** The old token first; if that is no longer a credential, the staged one. */
  function Asked(w: World, current: Token, a: Attempt): (World, Option<Reply>) {
    var first := Called(w, current, a);
    if first.1 == Some(Unauthorized) && current != a.newToken then Called(first.0, a.newToken, a) else first
  }

  function Command(w: World): (World, bool) {
    if !w.directory.files.token.Full? then (w, false)
    else
      var current := w.directory.files.token.content;
      var prepared := Prepared(w.directory, current, w.draws);
      var staged := w.(directory := prepared.0, draws := w.draws + 1);
      if prepared.1 == None then (staged, false)
      else
        var a := prepared.1.value;
        var asked := Asked(staged, current, a);
        if asked.1 != Some(Rotated) then (asked.0, false)
        else
          var done := Finalized(asked.0.directory, a.newToken, a.sourceHash);
          (asked.0.(directory := done.0), done.1)
  }

  // --- the command as it runs --------------------------------------------------------------

  method PrepareRotationAttempt(directory: PrivateDirectory<RotationFiles>, current: Token,
          draw: nat) returns (attempt: Option<Attempt>)
    modifies directory
    ensures (directory.State(), attempt) == Prepared(old(directory.State()), current, draw)
  {
    match directory.files.attempt {
      case Torn => return None;
      case Full(a) =>
        if Hash(current) != a.sourceHash && current != a.newToken {
          return None;
        }
        if !TokenMatches(directory.files.token, a.sourceHash, a.newToken) {
          return None;
        }
        return Some(a);
      case Absent =>
        var a := Attempt(Hash(current), Token(draw), draw);
        var ok := directory.WriteNewFile(directory.files.(attempt := Torn), directory.files.(attempt := Full(a)));
        return if ok then Some(a) else None;
    }
  }

  method FinalizeAdminToken(directory: PrivateDirectory<RotationFiles>, raw: Token, sourceHash: Hash) returns (ok: bool)
    modifies directory
    ensures (directory.State(), ok) == Finalized(old(directory.State()), raw, sourceHash)
  {
    match directory.files.token {
      case Absent =>
        ok := directory.WriteNewFile(directory.files.(token := Torn), directory.files.(token := Full(raw)));
        if !ok {
          return;
        }
      case Torn => return false;
      case Full(present) =>
        if present != raw {
          if Hash(present) != sourceHash {
            return false;
          }
          ok := directory.AtomicWriteFile(directory.files.(token := Full(raw)), directory.files.(token := Absent));
          if !ok {
            return;
          }
        }
    }
    ok := directory.Put(directory.files.(attempt := Absent));
    if !ok {
      return;
    }
    ok := directory.SyncDirectory();
  }

  method SendRotation(directory: PrivateDirectory<RotationFiles>, server: AdminStore, ghost w: World, token: Token, a: Attempt)
    returns (reply: Option<Reply>, ghost v: World)
    requires w.directory == directory.State() && w.server == server.State()
    modifies directory, server
    ensures v.directory == directory.State() && v.server == server.State() && (v, reply) == Called(w, token, a)
  {
    var alive := !directory.crashed;
    var fault := directory.Step();
    v := w.(directory := directory.State());
    if !alive || fault == Crashes {
      return None, v;
    }
    v := v.(sent := v.sent + {Delayed(Hash(token), Hash(a.newToken), a.key)});
    if fault == Fails {
      return None, v;
    }
    var answer: Reply := Unauthorized;
    if Hash(token) in server.credentials {
      ghost var at;
      answer, at := server.RotateAdminCredential(Hash(token), Hash(a.newToken), a.key, []);
    }
    v := v.(server := server.State());
    return if fault == Lost then None else Some(answer), v;
  }

  /** The whole command; `w` and `v` add the history of sent requests to the two real states. */
  method RotateCredential(directory: PrivateDirectory<RotationFiles>, server: AdminStore, draw: nat, ghost w: World)
    returns (ok: bool, ghost v: World)
    requires w.directory == directory.State() && w.server == server.State() && w.draws == draw
    modifies directory, server
    ensures v.directory == directory.State() && v.server == server.State() && (v, ok) == Command(w)
  {
    hide Prepared, Called, Finalized;
    v := w;
    if !directory.files.token.Full? {
      return false, v;
    }
    var current := directory.files.token.content;
    var attempt := PrepareRotationAttempt(directory, current, draw);
    v := w.(directory := directory.State(), draws := w.draws + 1);
    if attempt == None {
      return false, v;
    }
    var a := attempt.value;
    var reply;
    reply, v := SendRotation(directory, server, v, current, a);
    if reply == Some(Unauthorized) && current != a.newToken {
      reply, v := SendRotation(directory, server, v, a.newToken, a);
    }
    if reply != Some(Rotated) {
      return false, v;
    }
    ok := FinalizeAdminToken(directory, a.newToken, a.sourceHash);
    v := v.(directory := directory.State());
  }

  // --- the invariant of one directory state ---------------------------------------------------

  /** The one live credential can be found in this directory. */
  predicate Reachable(files: RotationFiles, server: AdminServer) {
    || (files.token.Full? && server.credentials == {Hash(files.token.content)})
    || (files.attempt.Full? && server.credentials == {Hash(files.attempt.content.newToken)})
  }

  predicate Committed(server: AdminServer, a: Attempt) {
    a.key in server.rotations
  }

  predicate AttemptOk(files: RotationFiles, server: AdminServer, draws: nat) {
    match files.attempt
    case Full(a) =>
      && a.newToken == Token(a.key) && a.key < draws && a.sourceHash != Hash(a.newToken) && a.sourceHash.token.draw < draws
      && (if Committed(server, a)
          then server.rotations[a.key] == Rotation(a.sourceHash, Hash(a.newToken))
               && server.credentials == {Hash(a.newToken)} && TokenMatches(files.token, a.sourceHash, a.newToken)
          else server.credentials == {a.sourceHash} && files.token.Full? && Hash(files.token.content) == a.sourceHash
               && (forall key | key in server.rotations :: server.rotations[key].oldHash != Hash(a.newToken)))
    case _ => files.token.Full? && server.credentials == {Hash(files.token.content)} && files.token.content.draw < draws
  }

  /** What was sent either has been committed or is staged here, under its own source credential. */
  predicate SentOk(files: RotationFiles, server: AdminServer, sent: set<Delayed>, draws: nat) {
    forall r | r in sent ::
      && r.newHash == Hash(Token(r.key)) && r.key < draws
      && (r.key in server.rotations
          || (files.attempt.Full? && files.attempt.content.key == r.key
              && r.principal in {files.attempt.content.sourceHash, r.newHash}))
  }

  predicate FilesOk(files: RotationFiles, server: AdminServer, sent: set<Delayed>, draws: nat) {
    && AttemptOk(files, server, draws)
    && SentOk(files, server, sent, draws)
    && (forall key | key in server.rotations :: key < draws && server.rotations[key].oldHash.token.draw < draws)
  }

  predicate Ok(w: World) {
    FilesOk(w.directory.files, w.server, w.sent, w.draws)
  }

  /** The same of every state that a power loss may bring back. */
  predicate Durable(w: World) {
    forall files | files in w.directory.survivors :: FilesOk(files, w.server, w.sent, w.draws)
  }

  /** An attempt that is visible but not yet committed is in every state that may survive. */
  predicate Staged(w: World) {
    var attempt := w.directory.files.attempt;
    attempt.Full? && !Committed(w.server, attempt.content) ==>
      forall files | files in w.directory.survivors :: files.attempt == attempt
  }

  lemma OkIsReachable(files: RotationFiles, server: AdminServer, sent: set<Delayed>, draws: nat)
    requires FilesOk(files, server, sent, draws)
    ensures Reachable(files, server)
  {
  }

  // --- every stage of the command keeps it ------------------------------------------------------

  lemma DrawKeeps(files: RotationFiles, server: AdminServer, sent: set<Delayed>, draws: nat)
    requires FilesOk(files, server, sent, draws)
    ensures FilesOk(files, server, sent, draws + 1)
  {
  }

  lemma PreparedKeeps(w: World, current: Token)
    requires Ok(w) && w.directory.files.token == Full(current)
    ensures var (m, attempt) := Prepared(w.directory, current, w.draws);
            var v := w.(directory := m, draws := w.draws + 1);
            && Ok(v)
            && (Durable(w) ==> Durable(v))
            && (attempt.Some? ==> v.directory.files.attempt == Full(attempt.value))
            && (attempt.Some? ==> v.directory.files.token == Full(current) && TokenMatches(Full(current), attempt.value.sourceHash, attempt.value.newToken))
            && (attempt.Some? && Staged(w) ==> Staged(v))
  {
    hide WriteNew, SentOk;
    var files := w.directory.files;
    DrawKeeps(files, w.server, w.sent, w.draws);
    if Durable(w) {
      forall d | d in w.directory.survivors ensures FilesOk(d, w.server, w.sent, w.draws + 1) {
        DrawKeeps(d, w.server, w.sent, w.draws);
      }
    }
    if files.attempt == Absent {
      var a := Attempt(Hash(current), Token(w.draws), w.draws);
      WriteNewShows(w.directory, files.(attempt := Torn), files.(attempt := Full(a)));
      StagedStatesOk(files, w.server, w.sent, w.draws, current);
    }
  }

  /** Staging shows an attempt that nothing has been sent for. */
  lemma StagedStatesOk(files: RotationFiles, server: AdminServer, sent: set<Delayed>, draws: nat, current: Token)
    requires FilesOk(files, server, sent, draws) && files.token == Full(current) && files.attempt == Absent
    ensures FilesOk(files.(attempt := Torn), server, sent, draws + 1)
    ensures FilesOk(files.(attempt := Full(Attempt(Hash(current), Token(draws), draws))), server, sent, draws + 1)
  {
  }

  /** A request about a staged attempt, whether it is new or delayed, keeps any directory state that holds the attempt. */
  lemma RotateKeeps(files: RotationFiles, server: AdminServer, sent: set<Delayed>, draws: nat, r: Delayed)
    requires FilesOk(files, server, sent, draws)
    requires r.newHash == Hash(Token(r.key)) && r.key < draws
    requires r.key in server.rotations
             || (files.attempt.Full? && files.attempt.content.key == r.key
                 && r.principal in {files.attempt.content.sourceHash, r.newHash})
    ensures FilesOk(files, server, sent + {r}, draws)
    ensures FilesOk(files, Rotate(server, r.principal, r.newHash, r.key).0, sent + {r}, draws)
  {
  }

  lemma CalledKeeps(w: World, token: Token, a: Attempt)
    requires Ok(w) && w.directory.files.attempt == Full(a) && Hash(token) in {a.sourceHash, Hash(a.newToken)}
    ensures var (v, reply) := Called(w, token, a);
            && Ok(v) && v.directory.files == w.directory.files && v.directory.survivors == w.directory.survivors
            && (Durable(w) && Staged(w) ==> Durable(v) && Staged(v))
            && (reply == Some(Rotated) ==> Committed(v.server, a))
  {
    hide FilesOk, Rotate, Tick;
    TickKeeps(w.directory);
    var r := Delayed(Hash(token), Hash(a.newToken), a.key);
    AttemptFacts(w.directory.files, w.server, w.sent, w.draws);
    RotateKeeps(w.directory.files, w.server, w.sent, w.draws, r);
    RotateCommits(w.server, r);
    if Durable(w) && Staged(w) {
      forall d | d in w.directory.survivors
        ensures FilesOk(d, w.server, w.sent + {r}, w.draws)
        ensures FilesOk(d, Rotate(w.server, r.principal, r.newHash, r.key).0, w.sent + {r}, w.draws)
      {
        RotateKeeps(d, w.server, w.sent, w.draws, r);
      }
    }
  }

  lemma TickKeeps(m: Directory)
    ensures Tick(m).0.files == m.files && Tick(m).0.survivors == m.survivors
  {
  }

  lemma AttemptFacts(files: RotationFiles, server: AdminServer, sent: set<Delayed>, draws: nat)
    requires FilesOk(files, server, sent, draws) && files.attempt.Full?
    ensures files.attempt.content.newToken == Token(files.attempt.content.key) && files.attempt.content.key < draws
  {
  }

  /** Rotation records are never changed, and an acknowledged rotation has one. */
  lemma RotateCommits(server: AdminServer, r: Delayed)
    ensures var (after, reply) := Rotate(server, r.principal, r.newHash, r.key);
            && (reply == Rotated ==> r.key in after.rotations)
            && (forall key | key in server.rotations :: key in after.rotations)
  {
  }

  lemma AskedKeeps(w: World, current: Token, a: Attempt)
    requires Ok(w) && w.directory.files.attempt == Full(a) && Hash(current) in {a.sourceHash, Hash(a.newToken)}
    ensures var (v, reply) := Asked(w, current, a);
            && Ok(v) && v.directory.files == w.directory.files
            && (Durable(w) && Staged(w) ==> Durable(v))
            && (reply == Some(Rotated) ==> Committed(v.server, a))
  {
    hide Called, Ok, Durable, Staged;
    CalledKeeps(w, current, a);
    var first := Called(w, current, a);
    if first.1 == Some(Unauthorized) && current != a.newToken {
      CalledKeeps(first.0, a.newToken, a);
    }
  }

  /** Every state the move into place passes through is safe once the rotation is committed. */
  lemma MovedStatesOk(files: RotationFiles, server: AdminServer, sent: set<Delayed>, draws: nat, a: Attempt)
    requires FilesOk(files, server, sent, draws) && files.attempt == Full(a) && Committed(server, a)
    ensures FilesOk(files.(token := Full(a.newToken)), server, sent, draws)
    ensures FilesOk(files.(token := Absent), server, sent, draws)
    ensures FilesOk(RotationFiles(Full(a.newToken), Absent), server, sent, draws)
    ensures files.token.Full? ==> files.token.content == a.newToken || Hash(files.token.content) == a.sourceHash
  {
  }

  /** Once committed, every step of the move into place keeps every state safe. */
  lemma FinalizedKeeps(w: World, a: Attempt)
    requires Ok(w) && w.directory.files.attempt == Full(a) && Committed(w.server, a) && w.directory.files.token.Full?
    ensures var (m, ok) := Finalized(w.directory, a.newToken, a.sourceHash);
            && Ok(w.(directory := m))
            && (Durable(w) ==> Durable(w.(directory := m)))
            && (ok ==> m.files == RotationFiles(Full(a.newToken), Absent) && m.survivors == [m.files])
  {
    hide WriteNew, AtomicWrite, FilesOk;
    var files := w.directory.files;
    MovedStatesOk(files, w.server, w.sent, w.draws, a);
    AtomicWriteShows(w.directory, files.(token := Full(a.newToken)), files.(token := Absent));
  }

  lemma CommandKeeps(w: World)
    requires Ok(w)
    ensures Ok(Command(w).0)
    ensures Durable(w) && Staged(w) ==> Durable(Command(w).0)
  {
    hide Prepared, Asked, Finalized, Durable, Staged, FilesOk, TokenMatches;
    if w.directory.files.token.Full? {
      var current := w.directory.files.token.content;
      PreparedKeeps(w, current);
      var prepared := Prepared(w.directory, current, w.draws);
      if prepared.1.Some? {
        var staged, a := w.(directory := prepared.0, draws := w.draws + 1), prepared.1.value;
        MatchedIsKnown(current, a);
        AskedKeeps(staged, current, a);
        var asked := Asked(staged, current, a);
        if asked.1 == Some(Rotated) {
          FinalizedKeeps(asked.0, a);
        }
      }
    }
  }

  lemma MatchedIsKnown(current: Token, a: Attempt)
    ensures TokenMatches(Full(current), a.sourceHash, a.newToken) ==> Hash(current) in {a.sourceHash, Hash(a.newToken)}
  {
  }

  // --- whole histories ------------------------------------------------------------------------------

  datatype Event =
    | Run(faults: seq<Fault>)
    | PowerLoss(survivor: nat)
    | Settle
    | Redeliver(request: Delayed)

  /** A command that crashed leaves its directory as it is for the next one; a power loss may take a suffix of it back. */
  function After(w: World, event: Event): World {
    var m := w.directory;
    match event
    case Run(faults) => Command(w.(directory := m.(faults := faults, crashed := false))).0
    case PowerLoss(survivor) =>
      if survivor < |m.survivors| then w.(directory := m.(files := m.survivors[survivor],
          survivors := [m.survivors[survivor]])) else w
    case Settle => w.(directory := m.(survivors := [m.files]))
    case Redeliver(r) => if r in w.sent then w.(server := Rotate(w.server, r.principal, r.newHash, r.key).0) else w
  }

  function AfterAll(w: World, events: seq<Event>): World {
    if events == [] then w else After(AfterAll(w, events[..|events| - 1]), events[|events| - 1])
  }

  lemma RedeliverKeeps(w: World, files: RotationFiles, r: Delayed)
    requires FilesOk(files, w.server, w.sent, w.draws) && r in w.sent
    ensures FilesOk(files, Rotate(w.server, r.principal, r.newHash, r.key).0, w.sent, w.draws)
  {
  }

  lemma EventKeepsOk(w: World, event: Event)
    requires Ok(w) && !event.PowerLoss?
    ensures Ok(After(w, event))
  {
    hide FilesOk, Command, Rotate;
    match event
    case Run(faults) => CommandKeeps(w.(directory := w.directory.(faults := faults, crashed := false)));
    case Redeliver(r) => if r in w.sent { RedeliverKeeps(w, w.directory.files, r); }
    case _ =>
  }

  lemma EventKeepsDurable(w: World, event: Event)
    requires Ok(w) && Durable(w) && (event.Run? ==> Staged(w))
    ensures Ok(After(w, event)) && Durable(After(w, event))
  {
    hide FilesOk, Command, Rotate;
    match event
    case Run(faults) => CommandKeeps(w.(directory := w.directory.(faults := faults, crashed := false)));
    case Redeliver(r) =>
      if r in w.sent {
        RedeliverKeeps(w, w.directory.files, r);
        forall d | d in w.directory.survivors ensures FilesOk(d, After(w, event).server, w.sent, w.draws) {
          RedeliverKeeps(w, d, r);
        }
      }
    case _ =>
  }

  /** A server whose one credential is in the token file, and nothing else yet. */
  predicate Fresh(w: World) {
    && w.directory.files.token.Full? && w.directory.files.token.content.draw < w.draws && w.directory.files.attempt == Absent
    && w.directory.survivors == [w.directory.files]
    && w.server == AdminServer({Hash(w.directory.files.token.content)}, map[]) && w.sent == {}
  }

  /**
   Whatever fails, whenever the command is killed, whichever replies are lost
   or requests delivered late: the server has one live credential, and it is
   in the token file or staged in the attempt file.
   */
  lemma {:induction false} NeverLockedOut(w: World, events: seq<Event>)
    requires Fresh(w) && (forall event | event in events :: !event.PowerLoss?)
    ensures Ok(AfterAll(w, events))
    ensures Reachable(AfterAll(w, events).directory.files, AfterAll(w, events).server)
  {
    hide After;
    if events != [] {
      var n := |events| - 1;
      NeverLockedOut(w, events[..n]);
      assert events[n] in events;
      EventKeepsOk(AfterAll(w, events[..n]), events[n]);
    }
    OkIsReachable(AfterAll(w, events).directory.files, AfterAll(w, events).server, AfterAll(w, events).sent, AfterAll(w,
        events).draws);
  }

  /** Every command begins with its attempt, if there is one, in every state that may survive. */
  predicate Careful(w: World, events: seq<Event>) {
    forall n | 0 <= n < |events| && events[n].Run? :: Staged(AfterAll(w, events[..n]))
  }

  /** With power losses the same holds of every state that may survive, as long as no command begins on an unsynced attempt. */
  lemma {:induction false} NeverLockedOutByPowerLoss(w: World, events: seq<Event>, survivor: nat)
    requires Fresh(w) && Careful(w, events)
    ensures var last := AfterAll(w, events);
            && Ok(last) && Durable(last)
            && (survivor < |last.directory.survivors| ==> Reachable(last.directory.survivors[survivor], last.server))
  {
    hide After, Staged;
    if events != [] {
      var n := |events| - 1;
      var earlier := events[..n];
      forall k | 0 <= k < n && earlier[k].Run? ensures Staged(AfterAll(w, earlier[..k])) {
        assert earlier[..k] == events[..k] && earlier[k] == events[k];
      }
      NeverLockedOutByPowerLoss(w, earlier, survivor);
      EventKeepsDurable(AfterAll(w, earlier), events[n]);
    }
    var last := AfterAll(w, events);
    if survivor < |last.directory.survivors| {
      OkIsReachable(last.directory.survivors[survivor], last.server, last.sent, last.draws);
    }
  }

  /** No fault sequence of one command, followed by any power loss, loses the credential. */
  ghost predicate SurvivesPowerLoss(w: World) {
    forall faults: seq<Fault>, i: nat ::
      var v := After(w, Run(faults)); i < |v.directory.survivors| ==> Reachable(v.directory.survivors[i], v.server)
  }

  /**
   That condition is exact. A command that finds an attempt another command
   wrote but did not get to sync does not sync it either: if it is killed
   after the server answered, a power loss can take the only copy of the
   live credential.
   */
  lemma SurvivesExactlyWhenStaged(w: World)
    requires Ok(w) && Durable(w)
    ensures SurvivesPowerLoss(w) <==> Staged(w)
  {
    hide Command, FilesOk;
    if Staged(w) {
      forall faults: seq<Fault>, i: nat
        ensures var v := After(w, Run(faults)); i < |v.directory.survivors| ==> Reachable(v.directory.survivors[i], v.server)
      {
        EventKeepsDurable(w, Run(faults));
        var v := After(w, Run(faults));
        if i < |v.directory.survivors| {
          OkIsReachable(v.directory.survivors[i], v.server, v.sent, v.draws);
        }
      }
    } else {
      var i :| 0 <= i < |w.directory.survivors| && w.directory.survivors[i].attempt != w.directory.files.attempt;
      UnstagedCommandLosesIt(w, i);
      assert !Reachable(After(w, Run([Fine, Crashes])).directory.survivors[i], After(w, Run([Fine, Crashes])).server);
    }
  }

  lemma UnstagedCommandLosesIt(w: World, i: nat)
    requires Ok(w) && Durable(w) && i < |w.directory.survivors|
    requires w.directory.files.attempt.Full? && !Committed(w.server, w.directory.files.attempt.content)
    requires w.directory.survivors[i].attempt != w.directory.files.attempt
    ensures var v := After(w, Run([Fine, Crashes]));
            i < |v.directory.survivors| && !Reachable(v.directory.survivors[i], v.server)
  {
    hide SentOk, WriteNew;
    var a := w.directory.files.attempt.content;
    var current := w.directory.files.token.content;
    var begun := w.(directory := w.directory.(faults := [Fine, Crashes], crashed := false), draws := w.draws + 1);
    assert FilesOk(w.directory.survivors[i], w.server, w.sent, w.draws);
    assert Prepared(begun.directory, current, w.draws) == (begun.directory, Some(a));
    var asked := Asked(begun, current, a);
    assert asked.1 == Some(Rotated) && asked.0.server.credentials == {Hash(a.newToken)};
    assert asked.0.directory == begun.directory.(faults := [Crashes]);
    CrashedFinalize(asked.0.directory, a);
  }

  lemma CrashedFinalize(m: Directory, a: Attempt)
    requires m.faults == [Crashes] && !m.crashed && m.files.token.Full?
    ensures Finalized(m, a.newToken, a.sourceHash).0.survivors == m.survivors
  {
  }

  // --- the rerun ---------------------------------------------------------------------------------------

  /** The token file holds the live credential and no attempt remains. */
  predicate Recovered(w: World) {
    && w.directory.files.token.Full?
    && w.server.credentials == {Hash(w.directory.files.token.content)}
    && w.directory.files.attempt == Absent
  }

  /**
   One rerun without faults ends in a recovered, synced directory exactly when
   the attempt file is not half written and the token file is still there.
   Otherwise the rerun changes nothing, and neither would the next.
   */
  lemma RerunRecovers(w: World)
    requires Ok(w)
    ensures var v := After(w, Run([]));
            && (Recovered(v) <==> w.directory.files.attempt != Torn && w.directory.files.token.Full?)
            && (Recovered(v) ==> v.directory.survivors == [v.directory.files])
            && (!Recovered(v) ==> v.directory.files == w.directory.files && v.server == w.server)
  {
  }

  /** A command killed while it was writing the attempt leaves a state that no rerun gets past. */
  lemma TornAttemptWedges(w: World, again: seq<Fault>)
    requires Fresh(w)
    ensures var torn := After(w, Run([Fine, Crashes]));
            && torn.directory.files.attempt == Torn
            && After(torn, Run(again)).directory.files == torn.directory.files
            && After(torn, Run(again)).server == torn.server
  {
  }
}
