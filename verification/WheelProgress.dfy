// An installation makes progress: from every state without a lock holder a process can install the
// pinned bytes, it is refused exactly for the reasons given, and only deaths leave files behind.
module WheelProgress {
  import opened Outcomes
  import opened WheelInstall

  lemma After(pin: Bytes, dest: Option<Bytes>, steps: seq<Step>, s: Step)
    ensures Run(pin, dest, steps + [s]) ==
            if Run(pin, dest, steps).None? then None else Apply(pin, Run(pin, dest, steps).value, s)
  {
    assert (steps + [s])[..|steps|] == steps;
  }

  // The process is where it should be, in this run.
  ghost predicate Stands(pin: Bytes, dest: Option<Bytes>, steps: seq<Step>, pid: Pid, pc: Pc) {
    Run(pin, dest, steps).Some? && pid in Run(pin, dest, steps).value.pcs && Run(pin, dest, steps).value.pcs[pid] == pc
  }

  lemma Reaches(pin: Bytes, dest: Option<Bytes>, steps: seq<Step>, s: Step, n: World) returns (more: seq<Step>)
    requires Run(pin, dest, steps).Some? && Apply(pin, Run(pin, dest, steps).value, s) == Some(n)
    ensures more == steps + [s] && steps <= more && Run(pin, dest, more) == Some(n)
  {
    After(pin, dest, steps, s);
    more := steps + [s];
  }

  // A new process finds nothing, takes the free lock, and finds nothing again.
  lemma TakesLock(pin: Bytes, dest: Option<Bytes>, steps: seq<Step>, pid: Pid) returns (more: seq<Step>)
    requires Run(pin, dest, steps).Some? && pid !in Run(pin, dest, steps).value.pcs
    requires Run(pin, dest, steps).value.lock.None? && Run(pin, dest, steps).value.dest.None?
    ensures steps <= more && Run(pin, dest, more) ==
            Some(Run(pin, dest, steps).value.(lock := Some(pid), pcs :=
                                              Run(pin, dest, steps).value.pcs[pid := Rechecked]))
  {
    var w := Run(pin, dest, steps).value;
    more := Reaches(pin, dest, steps, Spawn(pid), To(w, pid, Start));
    more := Reaches(pin, dest, more, Look(pid), To(To(w, pid, Start), pid, Missed));
    assert To(To(w, pid, Start), pid, Missed) == To(w, pid, Missed);
    var held := w.(lock := Some(pid));
    more := Reaches(pin, dest, more, TryLock(pid), To(To(w, pid, Missed).(lock := Some(pid)), pid, Locked));
    assert To(To(w, pid, Missed).(lock := Some(pid)), pid, Locked) == To(held, pid, Locked);
    more := Reaches(pin, dest, more, Look(pid), To(To(held, pid, Locked), pid, Rechecked));
    assert To(To(held, pid, Locked), pid, Rechecked) == To(held, pid, Rechecked);
  }

  // With the pinned bytes at hand it writes them to a file of its own.
  lemma WritesBytes(pin: Bytes, dest: Option<Bytes>, steps: seq<Step>, pid: Pid, temp: Temp) returns (more: seq<Step>)
    requires Stands(pin, dest, steps, pid, Rechecked) && temp !in Run(pin, dest, steps).value.names
    ensures steps <= more && Stands(pin, dest, more, pid, Written(temp))
    ensures var w, n := Run(pin, dest, steps).value, Run(pin, dest, more).value;
            n.dest == w.dest && n.lock == w.lock && n.temps == w.temps[temp := pin]
  {
    var w := Run(pin, dest, steps).value;
    var fetched := To(w, pid, Fetched(pin));
    more := Reaches(pin, dest, steps, Fetch(pid, Some(pin)), fetched);
    var created :=
      To(fetched.(temps := fetched.temps[temp := []], names := fetched.names + {temp}), pid, Writing(temp, pin));
    more := Reaches(pin, dest, more, CreateTemp(pid, temp), created);
    assert pin[..|pin|] == pin;
    var written := To(created.(temps := created.temps[temp := pin]), pid, Written(temp));
    more := Reaches(pin, dest, more, WriteSome(pid, |pin|), written);
    assert written.temps == w.temps[temp := pin];
  }

  // And renames it into place.
  lemma PutsInPlace(pin: Bytes, dest: Option<Bytes>, steps: seq<Step>, pid: Pid, temp: Temp) returns (more: seq<Step>)
    requires Stands(pin, dest, steps, pid, Written(temp)) && Run(pin, dest, steps).value.lock == Some(pid)
    requires var w := Run(pin, dest, steps).value; w.dest.None? && temp in w.temps && w.temps[temp] == pin
    ensures steps <= more && Stands(pin, dest, more, pid, Returned)
    ensures var w, n := Run(pin, dest, steps).value, Run(pin, dest, more).value;
            n.dest == Some(pin) && n.lock.None? && n.temps == w.temps - {temp}
  {
    var w := Run(pin, dest, steps).value;
    var cleared := To(w, pid, Cleared(temp));
    more := Reaches(pin, dest, steps, SeeAbsent(pid), cleared);
    var renamed := cleared.(dest := Some(cleared.temps[temp]), temps := cleared.temps - {temp});
    more := Reaches(pin, dest, more, Rename(pid), To(Unlocked(renamed, pid), pid, Returned));
  }

  // From every reachable state in which nothing is installed and nobody holds the lock, whatever
  // other processes left behind, a new process can install the pinned bytes and return.
  lemma CanInstall(pin: Bytes, dest: Option<Bytes>, steps: seq<Step>, pid: Pid, temp: Temp) returns (more: seq<Step>)
    requires Run(pin, dest, steps).Some? && pid !in Run(pin, dest, steps).value.pcs
    requires temp !in Run(pin, dest, steps).value.names
    requires Run(pin, dest, steps).value.lock.None? && Run(pin, dest, steps).value.dest.None?
    ensures steps <= more && Stands(pin, dest, more, pid, Returned)
    ensures var w, n := Run(pin, dest, steps).value, Run(pin, dest, more).value;
            n.dest == Some(pin) && n.lock.None? && n.temps == w.temps
  {
    RunKeepsInv(pin, dest, steps);
    var w := Run(pin, dest, steps).value;
    more := TakesLock(pin, dest, steps, pid);
    more := WritesBytes(pin, dest, more, pid, temp);
    more := PutsInPlace(pin, dest, more, pid, temp);
    assert w.temps[temp := pin] - {temp} == w.temps;
  }

  // And once they are installed every new process returns at its first look.
  lemma InstalledIsFound(pin: Bytes, dest: Option<Bytes>, steps: seq<Step>, pid: Pid) returns (more: seq<Step>)
    requires Run(pin, dest, steps).Some? && pid !in Run(pin, dest, steps).value.pcs
    requires Run(pin, dest, steps).value.dest == Some(pin)
    ensures more == steps + [Spawn(pid), Look(pid)] && Stands(pin, dest, more, pid, Returned)
    ensures Run(pin, dest, more).value.(pcs := Run(pin, dest, steps).value.pcs) == Run(pin, dest, steps).value
  {
    var w := Run(pin, dest, steps).value;
    RunKeepsInv(pin, dest, steps);
    more := Reaches(pin, dest, steps, Spawn(pid), To(w, pid, Start));
    more := Reaches(pin, dest, more, Look(pid), Leave(To(w, pid, Start), pid, Returned));
    assert steps + [Spawn(pid)] + [Look(pid)] == steps + [Spawn(pid), Look(pid)];
  }

  // A process that looks raises exactly if other bytes are in place, one that tries the lock exactly
  // if it is held, one that fetched exactly if the bytes are not the pinned ones.
  lemma RefusedIff(pin: Bytes, w: World, s: Step)
    requires Apply(pin, w, s).Some? && (s.Look? || s.TryLock? || s.Fetch?)
    ensures Apply(pin, w, s).value.pcs[s.pid] == Raised <==>
            match s
            case Look(_) => w.dest.Some? && w.dest.value != pin
            case TryLock(_) => w.lock.Some?
            case Fetch(_, data) => data != Some(pin)
            case _ => false
  {
  }

  // ---- What is left behind ------------------------------------------------------------

  // Every temporary file belongs to the process that holds the lock.
  ghost predicate OnlyTheHolders(w: World) {
    forall t :: t in w.temps ==> w.lock.Some? && w.lock.value in w.pcs && TempOf(w.pcs[w.lock.value]) == Some(t)
  }

  lemma StepLeavesNone(pin: Bytes, dest: Option<Bytes>, w: World, s: Step)
    requires Inv(pin, dest, w) && OnlyTheHolders(w) && Apply(pin, w, s).Some? && !s.Die?
    ensures OnlyTheHolders(Apply(pin, w, s).value)
  {
    if s.pid in w.pcs {
      assert PcSound(pin, dest, w, s.pid);
    }
  }

  // Without a death, no run leaves a temporary file: there is none unless someone holds the lock.
  lemma {:induction false} OnlyDeathsLeaveFiles(pin: Bytes, dest: Option<Bytes>, steps: seq<Step>)
    requires Run(pin, dest, steps).Some? && forall k :: 0 <= k < |steps| ==> !steps[k].Die?
    ensures OnlyTheHolders(Run(pin, dest, steps).value)
  {
    if |steps| > 0 {
      var prefix := steps[..|steps| - 1];
      OnlyDeathsLeaveFiles(pin, dest, prefix);
      RunKeepsInv(pin, dest, prefix);
      StepLeavesNone(pin, dest, Run(pin, dest, prefix).value, steps[|steps| - 1]);
    }
  }

  // A process that is gone, for whatever reason, holds no lock.
  lemma GoneHoldsNoLock(pin: Bytes, dest: Option<Bytes>, steps: seq<Step>, pid: Pid)
    requires Run(pin, dest, steps).Some? && pid in Run(pin, dest, steps).value.pcs
             && !Alive(Run(pin, dest, steps).value, pid)
    ensures Run(pin, dest, steps).value.lock != Some(pid)
  {
    RunKeepsInv(pin, dest, steps);
  }
}
