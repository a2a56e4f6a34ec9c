/** One device setup, client and server together: the crash-recoverable command against the interleaved server. */
module EnrollmentOnce {
  import Enrollment
  import Setup

  /** The Enroll call that an attempt makes. */
  function CallOf(a: Setup.Attempt): Enrollment.EnrollInput {
    var details := a.identity.details;
    Enrollment.EnrollInput(a.identity.inviteToken, details.displayName, details.deviceName, details.runtime,
                           details.permissionProfile, a.token, a.key)
  }

  /** A device that came from one of these calls. */
  predicate CameFrom(s: Enrollment.State, device: nat, sent: set<Setup.Attempt>) {
    device in s.origins && exists a | a in sent :: s.origins[device].input == CallOf(a)
  }

  /**
   However often the command was run, killed, cut off from its replies or
   set back by power losses, and however its calls interleaved with everything
   else at the server: at most one device came from it, every successful
   answer named that device, its credential is the token that the command
   sent, and every state the directory can be found in still holds that token.
   */
  lemma OneSetupOneDevice(w: Setup.World, events: seq<Setup.Event>, states: seq<Enrollment.State>, steps: seq<Enrollment.Step>,
                          i: nat, device: nat, other: nat, call: nat)
    requires Setup.Untouched(w) && Enrollment.Run(states, steps) && i < |states|
    requires var sent := Setup.AfterAll(w, events).sent;
             CameFrom(states[i], device, sent) && CameFrom(states[i], other, sent)
    ensures var s, last := states[i], Setup.AfterAll(w, events);
            && device == other
            && (call in s.outcomes && s.outcomes[call].Enrolled? && (exists a | a in last.sent :: s.outcomes[call].input == CallOf(a)) ==>
                  s.outcomes[call].device == device)
            && exists a :: last.sent == {a} && s.origins[device].input.deviceTokenHash == a.token
                           && forall files | files in last.directory.survivors || files == last.directory.files :: Setup.Keeps(files, a)
  {
    var s, last := states[i], Setup.AfterAll(w, events);
    Setup.EveryCallIsTheSame(w, events);
    Enrollment.RunsAreSound(states, steps, i);
    hide Setup.AfterAll, Enrollment.Run, Setup.Keeps;
    var a :| a in last.sent && s.origins[device].input == CallOf(a);
    assert last.sent == {a};
    OriginIsUnique(s, device, other);
    if call in s.outcomes && s.outcomes[call].Enrolled? && s.outcomes[call].input == CallOf(a) {
      OriginIsUnique(s, device, s.outcomes[call].device);
    }
  }

  lemma OriginIsUnique(s: Enrollment.State, device: nat, other: nat)
    requires Enrollment.Inv(s) && device in s.origins && other in s.origins && s.origins[device].input == s.origins[other].input
    ensures device == other
  {
  }
}
