/**
 Device setup on the client: reserve the config and token files, make the
 enrollment attempt durable, move the token into place, ask the server, then
 publish the config and remove the attempt. Every file is first created empty
 and then replaced by rename, so `Torn` stands for an empty file here.
 */
module Setup {
  import opened Base
  import opened PrivateFiles

  /** How the device will be known. */
  datatype Details = Details(displayName: string, deviceName: string, runtime: string, permissionProfile: string)

  /** What a setup command is about: its invitation, its device, and the config it would write. */
  datatype Identity = Identity(inviteToken: nat, details: Details, config: nat)

  datatype Attempt = Attempt(identity: Identity, token: nat, key: nat)

  datatype SetupFiles = SetupFiles(config: File<nat>, token: File<nat>, attempt: File<Attempt>)

  type Directory = Machine<SetupFiles>

  /** The Enroll call of an attempt is the attempt: invitation, token hash and idempotency key. */
  datatype World = World(directory: Directory, sent: set<Attempt>, draws: nat)

  // --- the steps as functions -----------------------------------------------------------------

  function CreateEmpty(m: Directory, reserved: SetupFiles): (Directory, bool) {
    var a := Change(m, reserved);
    if !a.1 then a
    else
      var c := Check(a.0);
      if !c.1 then (Change(c.0, m.files).0, false) else c
  }

  /** A rename onto a file; the file is deleted if it did not keep private permissions. */
  function Rename(m: Directory, full: SetupFiles, erased: SetupFiles): (Directory, bool) {
    var a := Change(m, full);
    if !a.1 then a
    else
      var c := Check(a.0);
      if !c.1 then (Change(c.0, erased).0, false) else c
  }

  /** Reserves a new file, then replaces it by rename; undone if it cannot be made durable. */
  function PublishNew(m: Directory, reserved: SetupFiles, full: SetupFiles): (Directory, bool) {
    var e := CreateEmpty(m, reserved);
    if !e.1 then e
    else
      var s := Check(e.0);
      if !s.1 then (Change(s.0, m.files).0, false)
      else
        var a := Rename(s.0, full, m.files);
        if !a.1 then (Change(a.0, m.files).0, false)
        else
          var d := Sync(a.0);
          if !d.1 then (Change(d.0, m.files).0, false) else d
  }

  /** Removes what has not been published: while preparing, that is the config and the token. */
  function Cleaned(m: Directory): Directory {
    var c := Change(m, m.files.(config := Absent)).0;
    Change(c, c.files.(token := Absent)).0
  }

  function Abandoned(m: Directory): Directory {
    Cleaned(Change(m, m.files.(attempt := Absent)).0)
  }

  function Prepared(m: Directory, a: Attempt): (Directory, bool) {
    if m.files.config != Absent then (m, false)
    else
      var c := CreateEmpty(m, m.files.(config := Torn));
      if !c.1 then c
      else if c.0.files.token != Absent then (Cleaned(c.0), false)
      else
        var t := CreateEmpty(c.0, c.0.files.(token := Torn));
        if !t.1 then (Cleaned(t.0), false)
        else
          var s := Check(t.0);
          if !s.1 then (Cleaned(s.0), false)
          else
            var u := Check(s.0);
            if !u.1 then (Cleaned(u.0), false) else Staged(u.0, a)
  }

  function Staged(m: Directory, a: Attempt): (Directory, bool) {
    var p := PublishNew(m, m.files.(attempt := Torn), m.files.(attempt := Full(a)));
    if !p.1 then (Cleaned(p.0), false)
    else
      var t := Rename(p.0, p.0.files.(token := Full(a.token)), p.0.files.(token := Absent));
      if !t.1 then (Abandoned(t.0), false)
      else
        var d := Sync(t.0);
        if !d.1 then (Abandoned(d.0), false) else d
  }

  function TokenRestored(m: Directory, token: nat): (Directory, bool) {
    match m.files.token
    case Full(present) => (m, present == token)
    case Torn =>
      var s := Check(m);
      if !s.1 then s else Rename(s.0, s.0.files.(token := Full(token)), s.0.files.(token := Absent))
    case Absent => PublishNew(m, m.files.(token := Torn), m.files.(token := Full(token)))
  }

  datatype Staging = Refused | Failed | Ready(published: bool)

  function ConfigRestored(m: Directory, config: nat): (Directory, Staging) {
    match m.files.config
    case Full(present) => (m, if present == config then Ready(true) else Refused)
    case Torn =>
      var s := Check(m);
      (s.0, if s.1 then Ready(false) else Failed)
    case Absent =>
      var e := CreateEmpty(m, m.files.(config := Torn));
      if !e.1 then (e.0, Failed)
      else
        var s := Check(e.0);
        (s.0, if s.1 then Ready(false) else Failed)
  }

  function Preserved(m: Directory, published: bool): Directory {
    if published then m else Change(m, m.files.(config := Absent)).0
  }

  /** Resuming ends in a sync of the directory, before anything is sent. */
  function Resumed(m: Directory, a: Attempt): (Directory, Staging) {
    var t := TokenRestored(m, a.token);
    if !t.1 then (t.0, Refused)
    else
      var c := ConfigRestored(t.0, a.identity.config);
      match c.1
      case Refused => c
      case Failed => (Preserved(c.0, false), Failed)
      case Ready(published) =>
        var d := Sync(c.0);
        if d.1 then (d.0, Ready(published)) else (Preserved(d.0, published), Failed)
  }

  function ConfigPublished(m: Directory, config: nat, published: bool): (Directory, bool) {
    if published then (m, true)
    else
      var r := Rename(m, m.files.(config := Full(config)), m.files.(config := Absent));
      if r.1 then r else (Preserved(r.0, false), false)
  }

  function Published(m: Directory, config: nat, published: bool): (Directory, bool) {
    var c := ConfigPublished(m, config, published);
    if !c.1 then c
    else
      var d := Sync(c.0);
      if !d.1 then d
      else
        var r := Change(d.0, d.0.files.(attempt := Absent));
        if !r.1 then r else Sync(r.0)
  }

  /** The call that enrolls; `granted` is what the server would answer. */
  function Called(w: World, a: Attempt, granted: bool): (World, bool) {
    var (m, fault) := Tick(w.directory);
    if w.directory.crashed || fault == Crashes then (w.(directory := m), false)
    else (w.(directory := m, sent := w.sent + {a}), fault == Fine && granted)
  }

  function Command(w: World, identity: Identity, granted: bool): (World, bool) {
    match w.directory.files.attempt
    case Torn => (w, false)
    case Full(a) =>
      if a.identity != identity then (w, false)
      else
        var r := Resumed(w.directory, a);
        if !r.1.Ready? then (w.(directory := r.0), false) else Asked(w.(directory := r.0), a, r.1.published, granted)
    case Absent =>
      var a := Attempt(identity, w.draws, w.draws);
      var p := Prepared(w.directory, a);
      var staged := w.(directory := p.0, draws := w.draws + 1);
      if !p.1 then (staged, false) else Asked(staged, a, false, granted)
  }

  function Asked(w: World, a: Attempt, published: bool, granted: bool): (World, bool) {
    var called := Called(w, a, granted);
    if !called.1 then (called.0.(directory := Preserved(called.0.directory, published)), false)
    else
      var done := Published(called.0.directory, a.identity.config, published);
      (called.0.(directory := done.0), done.1)
  }

  // --- the publication object -------------------------------------------------------------------

  class SetupPublication {
    const directory: PrivateDirectory<SetupFiles>
    var configStaged: bool
    var configPublished: bool
    var tokenPublished: bool

    constructor (directory: PrivateDirectory<SetupFiles>)
      ensures this.directory == directory && !configStaged && !configPublished && !tokenPublished
    {
      this.directory := directory;
      configStaged, configPublished, tokenPublished := false, false, false;
    }

    method Reserve(reserved: SetupFiles) returns (ok: bool)
      modifies directory
      ensures (directory.State(), ok) == CreateEmpty(old(directory.State()), reserved)
    {
      var before := directory.files;
      ok := directory.Put(reserved);
      if !ok {
        return;
      }
      var fault := directory.Step();
      ok := fault == Fine;
      if !ok {
        var _ := directory.Put(before);
      }
    }

    method RenameSetupFile(full: SetupFiles, erased: SetupFiles) returns (ok: bool)
      modifies directory
      ensures (directory.State(), ok) == Rename(old(directory.State()), full, erased)
    {
      ok := directory.Put(full);
      if !ok {
        return;
      }
      var fault := directory.Step();
      ok := fault == Fine;
      if !ok {
        var _ := directory.Put(erased);
      }
    }

    method PublishNewSecret(reserved: SetupFiles, full: SetupFiles) returns (ok: bool)
      modifies directory
      ensures (directory.State(), ok) == PublishNew(old(directory.State()), reserved, full)
    {
      var before := directory.files;
      ok := Reserve(reserved);
      if !ok {
        return;
      }
      var fault := directory.Step();
      ok := fault == Fine;
      if ok {
        ok := RenameSetupFile(full, before);
      }
      if ok {
        ok := directory.SyncDirectory();
      }
      if !ok {
        var _ := directory.Put(before);
      }
    }

    method Cleanup()
      requires !configPublished && !tokenPublished
      modifies directory
      ensures directory.State() == Cleaned(old(directory.State()))
    {
      var _ := directory.Put(directory.files.(config := Absent));
      var _ := directory.Put(directory.files.(token := Absent));
    }

    method PreserveForRetry()
      modifies directory, this`configStaged
      ensures directory.State() == Preserved(old(directory.State()), configPublished)
      ensures !configStaged
    {
      configStaged := false;
      if !configPublished {
        var _ := directory.Put(directory.files.(config := Absent));
      }
    }

    method StageSecret() returns (ok: bool)
      modifies directory
      ensures (directory.State(), ok) == Check(old(directory.State()))
    {
      var fault := directory.Step();
      ok := fault == Fine;
    }

    method Prepare(a: Attempt) returns (ok: bool)
      requires !configStaged && !configPublished && !tokenPublished
      modifies this, directory
      ensures (directory.State(), ok) == Prepared(old(directory.State()), a)
      ensures !configPublished && (ok ==> configStaged && tokenPublished)
    {
      hide CreateEmpty, PublishNew, Cleaned;
      if directory.files.config != Absent {
        return false;
      }
      ok := Reserve(directory.files.(config := Torn));
      if !ok {
        return;
      }
      if directory.files.token != Absent {
        Cleanup();
        return false;
      }
      ok := Reserve(directory.files.(token := Torn));
      if ok {
        configStaged := StageSecret();
        ok := configStaged;
      }
      if ok {
        ok := StageSecret();
      }
      if ok {
        ok := PublishNewSecret(directory.files.(attempt := Torn), directory.files.(attempt := Full(a)));
      }
      if !ok {
        Cleanup();
        return;
      }
      ok := RenameSetupFile(directory.files.(token := Full(a.token)), directory.files.(token := Absent));
      if ok {
        ok := directory.SyncDirectory();
      }
      if !ok {
        var _ := directory.Put(directory.files.(attempt := Absent));
        Cleanup();
        return;
      }
      tokenPublished := true;
    }

    method RestoreToken(token: nat) returns (ok: bool)
      modifies this`tokenPublished, directory
      ensures (directory.State(), ok) == TokenRestored(old(directory.State()), token)
      ensures ok ==> tokenPublished
    {
      match directory.files.token {
        case Full(present) => ok := present == token;
        case Torn =>
          ok := StageSecret();
          if ok {
            ok := RenameSetupFile(directory.files.(token := Full(token)), directory.files.(token := Absent));
          }
        case Absent => ok := PublishNewSecret(directory.files.(token := Torn), directory.files.(token := Full(token)));
      }
      tokenPublished := tokenPublished || ok;
    }

    method Resume(a: Attempt) returns (staging: Staging)
      requires !configStaged && !configPublished && !tokenPublished
      modifies this, directory
      ensures (directory.State(), staging) == Resumed(old(directory.State()), a)
      ensures staging.Ready? ==> configPublished == staging.published && tokenPublished
    {
      hide CreateEmpty, PublishNew, TokenRestored;
      var ok := RestoreToken(a.token);
      if !ok {
        return Refused;
      }
      match directory.files.config {
        case Full(present) =>
          if present != a.identity.config {
            return Refused;
          }
          configPublished := true;
        case Torn => configStaged := StageSecret();
        case Absent =>
          ok := Reserve(directory.files.(config := Torn));
          if ok {
            configStaged := StageSecret();
          }
      }
      if !configPublished && !configStaged {
        PreserveForRetry();
        return Failed;
      }
      ok := directory.SyncDirectory();
      if !ok {
        PreserveForRetry();
        return Failed;
      }
      return Ready(configPublished);
    }

    method PublishConfig(config: nat) returns (ok: bool)
      modifies this, directory
      ensures (directory.State(), ok) == Published(old(directory.State()), config, old(configPublished))
    {
      if !configPublished {
        ok := RenameSetupFile(directory.files.(config := Full(config)), directory.files.(config := Absent));
        if !ok {
          PreserveForRetry();
          return;
        }
        configPublished, configStaged := true, false;
      }
      ok := directory.SyncDirectory();
      if !ok {
        return;
      }
      ok := directory.Put(directory.files.(attempt := Absent));
      if !ok {
        return;
      }
      ok := directory.SyncDirectory();
    }
  }

  // --- the invariant of one directory state ----------------------------------------------------------

  /** Everything sent is one and the same call, and its token is staged in the attempt or in place beside its config. */
  predicate FilesOk(files: SetupFiles, sent: set<Attempt>) {
    match files.attempt
    case Full(a) => ResumableFrom(files, a) && sent <= {a}
    case Torn => sent == {}
    case Absent => sent != {} ==> exists a | a in sent :: sent == {a} && files.config == Full(a.identity.config) && files.token == Full(a.token)
  }

  /** A directory that a rerun with this attempt accepts. */
  predicate ResumableFrom(files: SetupFiles, a: Attempt) {
    && (files.token.Full? ==> files.token.content == a.token)
    && (files.config.Full? ==> files.config.content == a.identity.config)
  }

  predicate Ok(w: World) {
    FilesOk(w.directory.files, w.sent) && forall files | files in w.directory.survivors :: FilesOk(files, w.sent)
  }

  /** A machine that has shown only states satisfying the invariant for these calls. */
  predicate MachineOk(m: Directory, sent: set<Attempt>) {
    FilesOk(m.files, sent) && forall files | files in m.survivors :: FilesOk(files, sent)
  }

  lemma StepOk(m: Directory, next: SetupFiles, sent: set<Attempt>)
    requires MachineOk(m, sent)
    ensures MachineOk(Check(m).0, sent) && MachineOk(Sync(m).0, sent)
    ensures FilesOk(next, sent) ==> MachineOk(Change(m, next).0, sent)
  {
  }

  lemma CreateEmptyOk(m: Directory, reserved: SetupFiles, sent: set<Attempt>)
    requires MachineOk(m, sent) && FilesOk(reserved, sent)
    ensures MachineOk(CreateEmpty(m, reserved).0, sent)
    ensures CreateEmpty(m, reserved).0.files in {m.files, reserved}
    ensures CreateEmpty(m, reserved).1 ==> CreateEmpty(m, reserved).0.files == reserved
  {
  }

  lemma MachineFiles(m: Directory, sent: set<Attempt>)
    requires MachineOk(m, sent)
    ensures FilesOk(m.files, sent)
  {
  }

  lemma RenameOk(m: Directory, full: SetupFiles, erased: SetupFiles, sent: set<Attempt>)
    requires MachineOk(m, sent) && FilesOk(full, sent) && FilesOk(erased, sent)
    ensures MachineOk(Rename(m, full, erased).0, sent)
    ensures Rename(m, full, erased).0.files in {m.files, full, erased}
    ensures Rename(m, full, erased).1 ==> Rename(m, full, erased).0.files == full
  {
    assert MachineOk(Rename(m, full, erased).0, sent) by {
      hide MachineOk, Change, Check;
      StepOk(m, full, sent);
      var a := Change(m, full).0;
      StepOk(a, full, sent);
      StepOk(Check(a).0, erased, sent);
    }
    hide MachineOk;
  }

  lemma PublishNewOk(m: Directory, reserved: SetupFiles, full: SetupFiles, sent: set<Attempt>)
    requires MachineOk(m, sent) && FilesOk(reserved, sent) && FilesOk(full, sent)
    ensures MachineOk(PublishNew(m, reserved, full).0, sent)
    ensures PublishNew(m, reserved, full).0.files in {m.files, reserved, full}
    ensures PublishNew(m, reserved, full).1 ==> PublishNew(m, reserved, full).0.files == full
  {
    assert MachineOk(PublishNew(m, reserved, full).0, sent) by {
      hide MachineOk, Change, Check, Sync, CreateEmpty, Rename;
      MachineFiles(m, sent);
      CreateEmptyOk(m, reserved, sent);
      var e := CreateEmpty(m, reserved).0;
      StepOk(e, full, sent);
      var s := Check(e).0;
      StepOk(s, m.files, sent);
      RenameOk(s, full, m.files, sent);
      var a := Rename(s, full, m.files).0;
      StepOk(a, m.files, sent);
      StepOk(Sync(a).0, m.files, sent);
    }
    hide MachineOk;
  }

  lemma CleanedOk(m: Directory, sent: set<Attempt>)
    requires MachineOk(m, sent) && sent == {}
    ensures MachineOk(Cleaned(m), sent) && MachineOk(Abandoned(m), sent)
  {
    hide Change;
    StepOk(m, m.files.(config := Absent), sent);
    StepOk(Change(m, m.files.(config := Absent)).0, Change(m, m.files.(config := Absent)).0.files.(token := Absent), sent);
    StepOk(m, m.files.(attempt := Absent), sent);
    var n := Change(m, m.files.(attempt := Absent)).0;
    StepOk(n, n.files.(config := Absent), sent);
    StepOk(Change(n, n.files.(config := Absent)).0, Change(n, n.files.(config := Absent)).0.files.(token := Absent), sent);
  }

  lemma StagedOk(m: Directory, a: Attempt, sent: set<Attempt>)
    requires MachineOk(m, sent) && sent == {} && m.files == SetupFiles(Torn, Torn, Absent)
    ensures var (t, ok) := Staged(m, a);
            MachineOk(t, sent) && (ok ==> t.files == SetupFiles(Torn, Full(a.token), Full(a)) && t.survivors == [t.files])
  {
    assert MachineOk(Staged(m, a).0, sent) by {
      hide MachineOk, Cleaned, Abandoned, PublishNew, Rename, Sync;
      PublishNewOk(m, m.files.(attempt := Torn), m.files.(attempt := Full(a)), sent);
      var p := PublishNew(m, m.files.(attempt := Torn), m.files.(attempt := Full(a))).0;
      CleanedOk(p, sent);
      var full, erased := p.files.(token := Full(a.token)), p.files.(token := Absent);
      if p.files == m.files.(attempt := Full(a)) {
        RenameOk(p, full, erased, sent);
        var t := Rename(p, full, erased).0;
        CleanedOk(t, sent);
        StepOk(t, t.files, sent);
        CleanedOk(Sync(t).0, sent);
      }
    }
    hide MachineOk, Cleaned, Abandoned, PublishNew;
    PublishNewOk(m, m.files.(attempt := Torn), m.files.(attempt := Full(a)), sent);
  }

  lemma PreparedOk(m: Directory, a: Attempt, sent: set<Attempt>)
    requires MachineOk(m, sent) && m.files.attempt == Absent
    ensures var (t, ok) := Prepared(m, a);
            && MachineOk(t, sent)
            && (ok ==> sent == {} && t.files == SetupFiles(Torn, Full(a.token), Full(a)) && t.survivors == [t.files])
  {
    hide MachineOk, Cleaned, Staged, CreateEmpty;
    MachineFiles(m, sent);
    if m.files.config == Absent {
      CreateEmptyOk(m, m.files.(config := Torn), sent);
      var (c, created) := CreateEmpty(m, m.files.(config := Torn));
      CleanedOk(c, sent);
      if created && c.files.token == Absent {
        CreateEmptyOk(c, c.files.(token := Torn), sent);
        var t := CreateEmpty(c, c.files.(token := Torn)).0;
        CleanedOk(t, sent);
        StepOk(t, t.files, sent);
        CleanedOk(Check(t).0, sent);
        StepOk(Check(t).0, t.files, sent);
        CleanedOk(Check(Check(t).0).0, sent);
        if t.files == SetupFiles(Torn, Torn, Absent) {
          StagedOk(Check(Check(t).0).0, a, sent);
        }
      }
    }
  }

  lemma TokenRestoredOk(m: Directory, a: Attempt, sent: set<Attempt>)
    requires MachineOk(m, sent) && m.files.attempt == Full(a)
    ensures var (t, ok) := TokenRestored(m, a.token);
            && MachineOk(t, sent) && t.files.attempt == Full(a) && t.files.config == m.files.config
            && (ok ==> t.files.token == Full(a.token))
  {
    hide MachineOk, PublishNew, Rename;
    MachineFiles(m, sent);
    StepOk(m, m.files, sent);
    RenameOk(Check(m).0, m.files.(token := Full(a.token)), m.files.(token := Absent), sent);
    PublishNewOk(m, m.files.(token := Torn), m.files.(token := Full(a.token)), sent);
  }

  lemma ConfigRestoredOk(m: Directory, a: Attempt, sent: set<Attempt>)
    requires MachineOk(m, sent) && m.files.attempt == Full(a)
    ensures var (t, staging) := ConfigRestored(m, a.identity.config);
            && MachineOk(t, sent) && t.files.attempt == Full(a) && t.files.token == m.files.token
            && (staging.Ready? ==> t.files.config == if staging.published then Full(a.identity.config) else Torn)
  {
    hide MachineOk, CreateEmpty;
    MachineFiles(m, sent);
    StepOk(m, m.files, sent);
    CreateEmptyOk(m, m.files.(config := Torn), sent);
    var e := CreateEmpty(m, m.files.(config := Torn)).0;
    StepOk(e, e.files, sent);
  }

  lemma PreservedOk(m: Directory, a: Attempt, sent: set<Attempt>, published: bool)
    requires MachineOk(m, sent) && m.files.attempt == Full(a)
    ensures MachineOk(Preserved(m, published), sent)
  {
  }

  lemma ResumedOk(m: Directory, a: Attempt, sent: set<Attempt>)
    requires MachineOk(m, sent) && m.files.attempt == Full(a)
    ensures var (t, staging) := Resumed(m, a);
            && MachineOk(t, sent)
            && (staging.Ready? ==>
                  && t.survivors == [t.files]
                  && t.files == SetupFiles(if staging.published then Full(a.identity.config) else Torn, Full(a.token), Full(a)))
  {
    hide MachineOk, TokenRestored, ConfigRestored, Preserved;
    TokenRestoredOk(m, a, sent);
    var t := TokenRestored(m, a.token).0;
    ConfigRestoredOk(t, a, sent);
    var c := ConfigRestored(t, a.identity.config).0;
    PreservedOk(c, a, sent, false);
    StepOk(c, c.files, sent);
    PreservedOk(Sync(c).0, a, sent, false);
    PreservedOk(Sync(c).0, a, sent, true);
  }

  lemma PublishedOk(m: Directory, a: Attempt, sent: set<Attempt>, published: bool)
    requires MachineOk(m, sent)
    requires m.files == SetupFiles(if published then Full(a.identity.config) else Torn, Full(a.token), Full(a))
    ensures var (t, ok) := Published(m, a.identity.config, published);
            MachineOk(t, sent) && (ok ==> t.files == SetupFiles(Full(a.identity.config), Full(a.token), Absent) && t.survivors == [t.files])
  {
    hide MachineOk, Preserved, Rename;
    var config := Full(a.identity.config);
    MachineFiles(m, sent);
    RenameOk(m, m.files.(config := config), m.files.(config := Absent), sent);
    PreservedOk(Rename(m, m.files.(config := config), m.files.(config := Absent)).0, a, sent, false);
    var c := ConfigPublished(m, a.identity.config, published).0;
    StepOk(c, c.files, sent);
    if ConfigPublished(m, a.identity.config, published).1 {
      assert sent != {} ==> a in sent && sent == {a};
      assert FilesOk(SetupFiles(config, Full(a.token), Absent), sent);
      StepOk(Sync(c).0, c.files.(attempt := Absent), sent);
      var r := Change(Sync(c).0, c.files.(attempt := Absent)).0;
      StepOk(r, r.files, sent);
    }
  }

  lemma AskedOk(w: World, a: Attempt, published: bool, granted: bool)
    requires Ok(w) && w.directory.survivors == [w.directory.files]
    requires w.directory.files == SetupFiles(if published then Full(a.identity.config) else Torn, Full(a.token), Full(a))
    ensures Ok(Asked(w, a, published, granted).0)
    ensures Asked(w, a, published, granted).1 ==>
              var v := Asked(w, a, published, granted).0;
              v.sent == {a} && v.directory.files == SetupFiles(Full(a.identity.config), Full(a.token), Absent)
              && v.directory.survivors == [v.directory.files]
  {
    hide Preserved, Published;
    var called := Called(w, a, granted).0;
    assert MachineOk(called.directory, called.sent) && called.directory.files == w.directory.files;
    assert called.sent == {a} || called.sent == w.sent;
    PreservedOk(called.directory, a, called.sent, published);
    PublishedOk(called.directory, a, called.sent, published);
  }

  lemma CommandOk(w: World, identity: Identity, granted: bool)
    requires Ok(w)
    ensures Ok(Command(w, identity, granted).0)
  {
    hide FilesOk, Prepared, Resumed, Asked;
    match w.directory.files.attempt
    case Torn =>
    case Full(a) =>
      if a.identity == identity {
        ResumedOk(w.directory, a, w.sent);
        var r := Resumed(w.directory, a);
        if r.1.Ready? { AskedOk(w.(directory := r.0), a, r.1.published, granted); }
      }
    case Absent =>
      var a := Attempt(identity, w.draws, w.draws);
      PreparedOk(w.directory, a, w.sent);
      var p := Prepared(w.directory, a);
      if p.1 { AskedOk(w.(directory := p.0, draws := w.draws + 1), a, false, granted); }
  }

  // --- whole histories --------------------------------------------------------------------------------

  datatype Event =
    | Run(identity: Identity, faults: seq<Fault>, granted: bool)
    | PowerLoss(survivor: nat)
    | Settle

  function After(w: World, event: Event): World {
    var m := w.directory;
    match event
    case Run(identity, faults, granted) => Command(w.(directory := m.(faults := faults, crashed := false)), identity, granted).0
    case PowerLoss(survivor) =>
      if survivor < |m.survivors| then w.(directory := m.(files := m.survivors[survivor],
          survivors := [m.survivors[survivor]])) else w
    case Settle => w.(directory := m.(survivors := [m.files]))
  }

  function AfterAll(w: World, events: seq<Event>): World {
    if events == [] then w else After(AfterAll(w, events[..|events| - 1]), events[|events| - 1])
  }

  lemma EventOk(w: World, event: Event)
    requires Ok(w)
    ensures Ok(After(w, event))
  {
    hide FilesOk, Command;
    match event
    case Run(identity, faults, granted) => CommandOk(w.(directory := w.directory.(faults := faults, crashed := false)),
        identity, granted);
    case _ =>
  }

  /** Nothing has been sent; whatever config and token files are there, there is no attempt. */
  predicate Untouched(w: World) {
    w.directory.files.attempt == Absent && w.directory.survivors == [w.directory.files] && w.sent == {}
  }

  /** The token that was sent is in this directory: staged for a retry, or in place beside its config. */
  predicate Keeps(files: SetupFiles, a: Attempt) {
    || (files.attempt == Full(a) && ResumableFrom(files, a))
    || (files.config == Full(a.identity.config) && files.token == Full(a.token))
  }

  /**
   Across any number of runs, crashes, lost replies and power losses, every
   Enroll call carries the same token, key and invitation, and no state that
   can be found later has lost that token.
   */
  lemma {:induction false} EveryCallIsTheSame(w: World, events: seq<Event>)
    requires Untouched(w)
    ensures var last := AfterAll(w, events);
            && Ok(last)
            && (forall a, b | a in last.sent && b in last.sent :: a == b)
            && (forall a, files | a in last.sent && (files in last.directory.survivors
                || files == last.directory.files) :: Keeps(files, a))
  {
    hide After;
    if events != [] {
      EveryCallIsTheSame(w, events[..|events| - 1]);
      EventOk(AfterAll(w, events[..|events| - 1]), events[|events| - 1]);
    }
  }

  /**
   Once the attempt file is complete, every state a crash or a power loss can
   leave is one that the identical command accepts: without further faults it
   ends with the config and that token in place and the attempt gone.
   */
  lemma EveryStagedStateResumes(w: World, events: seq<Event>, files: SetupFiles)
    requires Untouched(w)
    requires var last := AfterAll(w, events); (files in last.directory.survivors || files == last.directory.files) && files.attempt.Full?
    ensures var last := AfterAll(w, events);
            var a := files.attempt.content;
            var v := Command(last.(directory := Machine(files, [files], [], false)), a.identity, true);
            && v.1 && v.0.sent == {a}
            && v.0.directory.files == SetupFiles(Full(a.identity.config), Full(a.token), Absent)
            && v.0.directory.survivors == [v.0.directory.files]
  {
    EveryCallIsTheSame(w, events);
    var last := AfterAll(w, events);
    hide AfterAll;
    RerunAccepts(last.(directory := Machine(files, [files], [], false)), files.attempt.content.identity);
  }

  /** One fault-free run succeeds exactly when its own attempt is complete, or nothing at all is there. */
  lemma RerunAccepts(w: World, identity: Identity)
    requires Ok(w) && w.directory.faults == [] && !w.directory.crashed
    ensures var (v, ok) := Command(w, identity, true);
            var files := w.directory.files;
            && (ok <==> (files.attempt.Full? && files.attempt.content.identity == identity) || files == SetupFiles(Absent, Absent, Absent))
            && (ok ==> exists a :: v.sent == {a} && a.identity == identity && (files.attempt.Full? ==> a == files.attempt.content)
                         && v.directory.files == SetupFiles(Full(identity.config), Full(a.token), Absent)
                         && v.directory.survivors == [v.directory.files])
            && (!ok ==> v.sent == w.sent)
  {
    var files := w.directory.files;
    match files.attempt
    case Torn =>
    case Full(a) =>
      if a.identity == identity {
        QuietResume(w.directory, a, w.sent);
        ResumedOk(w.directory, a, w.sent);
        var r := Resumed(w.directory, a);
        QuietAsk(w.(directory := r.0), a, r.1.published);
        AskedOk(w.(directory := r.0), a, r.1.published, true);
      }
    case Absent =>
      var a := Attempt(identity, w.draws, w.draws);
      QuietPrepare(w.directory, a);
      PreparedOk(w.directory, a, w.sent);
      if files == SetupFiles(Absent, Absent, Absent) {
        var staged := w.(directory := Prepared(w.directory, a).0, draws := w.draws + 1);
        QuietAsk(staged, a, false);
        AskedOk(staged, a, false, true);
      }
  }

  lemma QuietPrepare(m: Directory, a: Attempt)
    requires m.faults == [] && !m.crashed && m.files.attempt == Absent
    ensures var (t, ok) := Prepared(m, a);
            && t.faults == [] && !t.crashed
            && (ok <==> m.files == SetupFiles(Absent, Absent, Absent))
            && (m.files.config == Absent && m.files.token != Absent ==> t.files == SetupFiles(Absent, Absent, Absent))
            && (m.files.config != Absent ==> t == m)
  {
  }

  lemma QuietResume(m: Directory, a: Attempt, sent: set<Attempt>)
    requires m.faults == [] && !m.crashed && m.files.attempt == Full(a) && FilesOk(m.files, sent)
    ensures Resumed(m, a).1.Ready? && Resumed(m, a).0.faults == [] && !Resumed(m, a).0.crashed
  {
  }

  lemma QuietAsk(w: World, a: Attempt, published: bool)
    requires w.directory.faults == [] && !w.directory.crashed
    ensures Asked(w, a, published, true).1
  {
  }

  /**
   A run that finds a token file, an attempt or config beside it or not,
   deletes that token exactly when neither is there: the reservation of the
   token file fails because the file exists, and the cleanup then removes it.
   */
  lemma TokenSurvivesExactlyBeside(w: World, identity: Identity, token: nat, granted: bool)
    requires w.directory.faults == [] && !w.directory.crashed && w.directory.files.token == Full(token)
    ensures Command(w, identity, granted).0.directory.files.token == Full(token) <==>
            !(w.directory.files.attempt == Absent && w.directory.files.config == Absent)
  {
  }

  lemma ConfigStepsKeepToken(m: Directory, config: nat, published: bool)
    ensures ConfigRestored(m, config).0.files.token == m.files.token
    ensures ConfigPublished(m, config, published).0.files.token == m.files.token
    ensures Preserved(m, published).files.token == m.files.token
  {
    hide CreateEmpty, Check, Rename, Change;
    ChangesKeepToken(m, Torn);
    ChangesKeepToken(m, Absent);
    RenameKeepsToken(m, config);
    ChangesKeepToken(Rename(m, m.files.(config := Full(config)), m.files.(config := Absent)).0, Absent);
    CheckKeepsToken(m);
    CheckKeepsToken(CreateEmpty(m, m.files.(config := Torn)).0);
  }

  lemma ChangesKeepToken(m: Directory, config: File<nat>)
    ensures CreateEmpty(m, m.files.(config := config)).0.files.token == m.files.token
    ensures Change(m, m.files.(config := config)).0.files.token == m.files.token
  {
  }

  lemma RenameKeepsToken(m: Directory, config: nat)
    ensures Rename(m, m.files.(config := Full(config)), m.files.(config := Absent)).0.files.token == m.files.token
  {
  }

  lemma CheckKeepsToken(m: Directory)
    ensures Check(m).0.files.token == m.files.token
  {
  }

  lemma ResumedKeepsToken(m: Directory, a: Attempt)
    requires m.files.token.Full?
    ensures Resumed(m, a).0.files.token == m.files.token
  {
    hide ConfigRestored, Preserved;
    ConfigStepsKeepToken(m, a.identity.config, false);
    var c := ConfigRestored(m, a.identity.config).0;
    ConfigStepsKeepToken(c, 0, false);
    ConfigStepsKeepToken(Sync(c).0, 0, false);
    ConfigStepsKeepToken(Sync(c).0, 0, true);
  }

  lemma AskedKeepsToken(w: World, a: Attempt, published: bool, granted: bool)
    ensures Asked(w, a, published, granted).0.directory.files.token == w.directory.files.token
  {
    hide ConfigPublished, Preserved;
    var m := Called(w, a, granted).0.directory;
    ConfigStepsKeepToken(m, a.identity.config, published);
  }

  /** Beside an attempt or a config no fault makes a run touch the token. */
  lemma TokenIsNeverTouchedBeside(w: World, identity: Identity, token: nat, granted: bool)
    requires w.directory.files.token == Full(token)
    requires !(w.directory.files.attempt == Absent && w.directory.files.config == Absent)
    ensures Command(w, identity, granted).0.directory.files.token == Full(token)
  {
    hide Resumed, Asked, Staged, CreateEmpty, Cleaned;
    if w.directory.files.attempt.Full? {
      var a := w.directory.files.attempt.content;
      ResumedKeepsToken(w.directory, a);
      var r := Resumed(w.directory, a);
      if r.1.Ready? {
        AskedKeepsToken(w.(directory := r.0), a, r.1.published, granted);
      }
    }
  }

  /** The deletion itself: nothing is sent, nothing is left, and the run reports failure. */
  lemma PreparationDeletesForeignToken(w: World, identity: Identity, token: nat)
    requires w.directory.faults == [] && !w.directory.crashed && w.directory.files == SetupFiles(Absent, Full(token), Absent)
    ensures var (v, ok) := Command(w, identity, true);
            !ok && v.sent == w.sent && v.directory.files == SetupFiles(Absent, Absent, Absent)
  {
  }
}
