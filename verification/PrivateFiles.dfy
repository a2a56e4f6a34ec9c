/**
 A private directory as its programs change it: one visible change at a time,
 any step failing or the process ending before it, and the earlier states
 that a power loss could bring back until the directory is synced. `D` is the
 content of the directory.
 */
module PrivateFiles {
  import opened Base

  /** A file may be seen half written only if it is written in place. */
  datatype File<+T> = Absent | Torn | Full(content: T)

  // What happens at one step. `Lost` is for network calls: done, but the reply never arrives.
  datatype Fault = Fine | Fails | Lost | Crashes

  /** `survivors` are the states a power loss may leave; `faults` is what the next steps meet, and then nothing more. */
  datatype Machine<D> = Machine(files: D, survivors: seq<D>, faults: seq<Fault>, crashed: bool)

  function Tick<D>(m: Machine<D>): (Machine<D>, Fault) {
    if m.crashed then (m, Fails)
    else if m.faults == [] then (m, Fine)
    else (m.(faults := m.faults[1..], crashed := m.faults[0] == Crashes), m.faults[0])
  }

  function Change<D>(m: Machine<D>, next: D): (Machine<D>, bool) {
    var (t, fault) := Tick(m);
    if fault == Fine then (t.(files := next, survivors := t.survivors + [next]), true) else (t, false)
  }

  function Sync<D>(m: Machine<D>): (Machine<D>, bool) {
    var (t, fault) := Tick(m);
    if fault == Fine then (t.(survivors := [t.files]), true) else (t, false)
  }

  function Check<D>(m: Machine<D>): (Machine<D>, bool) {
    (Tick(m).0, Tick(m).1 == Fine)
  }

  /** A new file written in place: it is seen torn, then full, and is removed again if it cannot be made durable. */
  function WriteNew<D>(m: Machine<D>, torn: D, full: D): (Machine<D>, bool) {
    var a := Change(m, torn);
    if !a.1 then (a.0, false)
    else
      var b := Change(a.0, full);
      if !b.1 then (Change(b.0, m.files).0, false)
      else
        var c := Check(b.0);
        if !c.1 then (Change(c.0, m.files).0, false)
        else
          var d := Sync(c.0);
          if !d.1 then (Change(d.0, m.files).0, false) else d
  }

  /** A file replaced by rename; it is deleted if the renamed file did not keep private permissions. */
  function AtomicWrite<D>(m: Machine<D>, next: D, erased: D): (Machine<D>, bool) {
    var s := Check(m);
    if !s.1 then s
    else
      var a := Change(s.0, next);
      if !a.1 then a
      else
        var b := Check(a.0);
        if !b.1 then (Change(b.0, erased).0, false) else Sync(b.0)
  }

  /** Between two machines only states among `allowed` were shown. */
  predicate Shows<D(==)>(from: Machine<D>, to: Machine<D>, allowed: set<D>) {
    to.files in allowed && forall d | d in to.survivors :: d in from.survivors || d in allowed
  }

  lemma ShowsItself<D>(m: Machine<D>, allowed: set<D>)
    requires m.files in allowed
    ensures Shows(m, m, allowed)
  {
  }

  lemma StepShows<D>(from: Machine<D>, m: Machine<D>, next: D, allowed: set<D>)
    requires Shows(from, m, allowed) && next in allowed
    ensures Shows(from, Change(m, next).0, allowed)
    ensures Shows(from, Check(m).0, allowed)
    ensures Shows(from, Sync(m).0, allowed)
  {
  }

  /** A new file, whatever interrupts it, shows the states before, half written and written; done, it is durable. */
  lemma WriteNewShows<D>(m: Machine<D>, torn: D, full: D)
    ensures var r := WriteNew(m, torn, full);
            && Shows(m, r.0, {m.files, torn, full})
            && (r.1 ==> r.0.files == full && r.0.survivors == [full])
  {
    var allowed := {m.files, torn, full};
    assert Shows(m, WriteNew(m, torn, full).0, allowed) by {
      hide Shows, Change, Check, Sync;
      ShowsItself(m, allowed);
      StepShows(m, m, torn, allowed);
      var a := Change(m, torn).0;
      StepShows(m, a, full, allowed);
      var b := Change(a, full).0;
      StepShows(m, b, m.files, allowed);
      var c := Check(b).0;
      StepShows(m, c, m.files, allowed);
      StepShows(m, Sync(c).0, m.files, allowed);
    }
    hide Shows;
  }

  /** A replaced file, whatever interrupts it, shows the states before, after and without the file; done, it is durable. */
  lemma AtomicWriteShows<D>(m: Machine<D>, next: D, erased: D)
    ensures var r := AtomicWrite(m, next, erased);
            && Shows(m, r.0, {m.files, next, erased})
            && (r.1 ==> r.0.files == next && r.0.survivors == [next])
  {
  }

  class PrivateDirectory<D(==)> {
    var files: D
    var survivors: seq<D>
    var faults: seq<Fault>
    var crashed: bool

    function State(): Machine<D>
      reads this
    {
      Machine(files, survivors, faults, crashed)
    }

    constructor (files: D, survivors: seq<D>, faults: seq<Fault>)
      ensures State() == Machine(files, survivors, faults, false)
    {
      this.files, this.survivors, this.faults, this.crashed := files, survivors, faults, false;
    }

    method Step() returns (fault: Fault)
      modifies this`faults, this`crashed
      ensures (State(), fault) == Tick(old(State()))
    {
      if crashed {
        return Fails;
      }
      if faults == [] {
        return Fine;
      }
      fault := faults[0];
      faults := faults[1..];
      crashed := fault == Crashes;
    }

    method Put(next: D) returns (ok: bool)
      modifies this
      ensures (State(), ok) == Change(old(State()), next)
    {
      var fault := Step();
      ok := fault == Fine;
      if ok {
        files := next;
        survivors := survivors + [next];
      }
    }

    method SyncDirectory() returns (ok: bool)
      modifies this
      ensures (State(), ok) == Sync(old(State()))
    {
      var fault := Step();
      ok := fault == Fine;
      if ok {
        survivors := [files];
      }
    }

    method WriteNewFile(torn: D, full: D) returns (ok: bool)
      modifies this
      ensures (State(), ok) == WriteNew(old(State()), torn, full)
    {
      var before := files;
      ok := Put(torn);
      if !ok {
        return;
      }
      ok := Put(full);
      if !ok {
        var _ := Put(before);
        return;
      }
      var fault := Step();
      if fault != Fine {
        var _ := Put(before);
        return false;
      }
      ok := SyncDirectory();
      if !ok {
        var _ := Put(before);
        return;
      }
    }

    method AtomicWriteFile(next: D, erased: D) returns (ok: bool)
      modifies this
      ensures (State(), ok) == AtomicWrite(old(State()), next, erased)
    {
      var fault := Step();
      if fault != Fine {
        return false;
      }
      ok := Put(next);
      if !ok {
        return;
      }
      fault := Step();
      if fault != Fine {
        var _ := Put(erased);
        return false;
      }
      ok := SyncDirectory();
    }
  }
}
