// Installing a pinned wheel: check, lock, check again, write a temporary file, rename. Any number
// of processes step through it in any order and each may die at any step; a process that dies
// drops its lock and leaves its temporary file behind.
module WheelInstall {
  import opened Outcomes

  type Pid = nat
  type Temp = nat
  type Bytes = seq<nat>

  datatype Pc =
    | Start
    | Missed                                 // nothing installed at the first look
    | Locked                                 // holds the lock
    | Rechecked                              // still nothing installed
    | Fetched(data: Bytes)                   // verified against the pin
    | Writing(temp: Temp, data: Bytes)       // temporary file exists, content so far in `temps`
    | Written(temp: Temp)
    | Cleared(temp: Temp)                    // destination seen absent
    | Returned                               // returned the destination path
    | Raised
    | Dead

  datatype World = World(
    dest: Option<Bytes>, temps: map<Temp, Bytes>, names: set<Temp>,  // temporary names are never reused
    lock: Option<Pid>, pcs: map<Pid, Pc>)

  datatype Step =
    | Spawn(pid: Pid)
    | Look(pid: Pid)                          // cached_wheel, outside and inside the lock
    | TryLock(pid: Pid)
    | Fetch(pid: Pid, data: Option<Bytes>)    // a wheelhouse or download, which may fail
    | CreateTemp(pid: Pid, temp: Temp)
    | WriteSome(pid: Pid, count: nat)
    | SeeAbsent(pid: Pid)
    | Rename(pid: Pid)
    | Raise(pid: Pid)                         // any other exception, with the cleanup it runs
    | Die(pid: Pid)

  function To(w: World, pid: Pid, pc: Pc): World {
    w.(pcs := w.pcs[pid := pc])
  }

  function Unlocked(w: World, pid: Pid): World {
    if w.lock == Some(pid) then w.(lock := None) else w
  }

  // Leaving install_wheel: the temporary file goes if it was created and not renamed, then the lock.
  function Leave(w: World, pid: Pid, pc: Pc): World
    requires pid in w.pcs
  {
    var cleaned := match w.pcs[pid]
      case Writing(temp, _) => w.(temps := w.temps - {temp})
      case Written(temp) => w.(temps := w.temps - {temp})
      case Cleared(temp) => w.(temps := w.temps - {temp})
      case _ => w;
    To(Unlocked(cleaned, pid), pid, pc)
  }

  predicate Alive(w: World, pid: Pid) {
    pid in w.pcs && w.pcs[pid] !in {Returned, Raised, Dead}
  }

  function Apply(pin: Bytes, w: World, s: Step): Option<World> {
    if s.Spawn? then (if s.pid in w.pcs then None else Some(To(w, s.pid, Start)))
    else if !Alive(w, s.pid) then None
    else
      var pid, pc := s.pid, w.pcs[s.pid];
      match s
      case Look(_) =>
        if pc != Start && pc != Locked then None
        else if w.dest.None? then Some(To(w, pid, if pc == Start then Missed else Rechecked))
        else if w.dest.value == pin then Some(Leave(w, pid, Returned))
        else Some(Leave(w, pid, Raised))
      case TryLock(_) =>
        if pc != Missed then None
        else if w.lock.Some? then Some(To(w, pid, Raised))   // another setup is running
        else Some(To(w.(lock := Some(pid)), pid, Locked))
      case Fetch(_, data) =>
        if pc != Rechecked then None
        else if data != Some(pin) then Some(Leave(w, pid, Raised))  // hash or size mismatch
        else Some(To(w, pid, Fetched(data.value)))
      case CreateTemp(_, temp) =>
        if !pc.Fetched? || temp in w.names then None
        else Some(To(w.(temps := w.temps[temp := []], names := w.names + {temp}), pid, Writing(temp, pc.data)))
      case WriteSome(_, count) =>
        if !pc.Writing? || pc.temp !in w.temps || count > |pc.data| || count < |w.temps[pc.temp]| then None
        else
          var n := w.(temps := w.temps[pc.temp := pc.data[..count]]);
          Some(if count == |pc.data| then To(n, pid, Written(pc.temp)) else n)
      case SeeAbsent(_) =>
        if !pc.Written? then None
        else if w.dest.Some? then Some(Leave(w, pid, Raised))  // destination changed
        else Some(To(w, pid, Cleared(pc.temp)))
      case Rename(_) =>
        if !pc.Cleared? || pc.temp !in w.temps then None
        else
          var n := w.(dest := Some(w.temps[pc.temp]), temps := w.temps - {pc.temp});
          Some(To(Unlocked(n, pid), pid, Returned))
      case Raise(_) => Some(Leave(w, pid, Raised))
      case Die(_) => Some(To(Unlocked(w, pid), pid, Dead))
  }

  function Initial(dest: Option<Bytes>): World {
    World(dest, map[], {}, None, map[])
  }

  function Run(pin: Bytes, dest: Option<Bytes>, steps: seq<Step>): Option<World> {
    if steps == [] then Some(Initial(dest)) else
    var before := Run(pin, dest, steps[..|steps| - 1]);
    if before.None? then None else Apply(pin, before.value, steps[|steps| - 1])
  }

  // ---- The invariant ------------------------------------------------------------------

  predicate PastLock(pc: Pc) {
    pc.Locked? || pc.Rechecked? || pc.Fetched? || pc.Writing? || pc.Written? || pc.Cleared?
  }

  function TempOf(pc: Pc): Option<Temp> {
    match pc
    case Writing(temp, _) => Some(temp)
    case Written(temp) => Some(temp)
    case Cleared(temp) => Some(temp)
    case _ => None
  }

  ghost predicate PcSound(pin: Bytes, dest: Option<Bytes>, w: World, pid: Pid)
    requires pid in w.pcs
  {
    var pc := w.pcs[pid];
    && (PastLock(pc) ==> w.lock == Some(pid))
    && (TempOf(pc).Some? ==> TempOf(pc).value in w.temps)
    && match pc
       case Fetched(data) => data == pin && dest.None?
       case Writing(temp, data) => data == pin && temp in w.temps && w.temps[temp] <= data && dest.None?
       case Written(temp) => temp in w.temps && w.temps[temp] == pin && dest.None?
       case Cleared(temp) => temp in w.temps && w.temps[temp] == pin && dest.None?
       case Rechecked => dest.None?
       case Returned => w.dest == Some(pin)
       case _ => true
  }

  // The destination is untouched, or was absent and now holds exactly the pinned bytes.
  ghost predicate DestSound(pin: Bytes, dest: Option<Bytes>, w: World) {
    w.dest == dest || (dest.None? && w.dest == Some(pin))
  }

  ghost predicate Inv(pin: Bytes, dest: Option<Bytes>, w: World) {
    && DestSound(pin, dest, w)
    && w.temps.Keys <= w.names
    && (w.lock.Some? ==> w.lock.value in w.pcs && PastLock(w.pcs[w.lock.value]))
    && forall pid :: pid in w.pcs ==> PcSound(pin, dest, w, pid)
  }

  // What a step leaves alone for the other processes.
  ghost predicate Undisturbed(w: World, n: World, pid: Pid) {
    && pid in w.pcs && pid in n.pcs && n.pcs[pid] == w.pcs[pid]
    && (w.lock == Some(pid) ==> n.lock == Some(pid))
    && (w.dest.Some? ==> n.dest == w.dest)
    && (TempOf(w.pcs[pid]).Some? ==>
          var t := TempOf(w.pcs[pid]).value; t in w.temps ==> t in n.temps && n.temps[t] == w.temps[t])
  }

  lemma OthersUndisturbed(pin: Bytes, dest: Option<Bytes>, w: World, s: Step, pid: Pid)
    requires Inv(pin, dest, w) && Apply(pin, w, s).Some? && pid in w.pcs && pid != s.pid
    ensures Undisturbed(w, Apply(pin, w, s).value, pid)
  {
    assert PcSound(pin, dest, w, pid);
    if s.pid in w.pcs {
      assert PcSound(pin, dest, w, s.pid);
    }
  }

  // What a step of one process owes the shared state, and its own place.
  ghost predicate OwnSound(pin: Bytes, dest: Option<Bytes>, w: World, n: World, pid: Pid) {
    && pid in n.pcs && PcSound(pin, dest, n, pid) && DestSound(pin, dest, n)
    && n.temps.Keys <= n.names
    && (n.lock == Some(pid) ==> PastLock(n.pcs[pid]))
    && (n.lock != Some(pid) ==> n.lock == w.lock || n.lock.None?)
    && n.pcs.Keys == w.pcs.Keys + {pid}
    && (w.lock.Some? && w.lock != Some(pid) ==> n.lock == w.lock)
  }

  lemma LockingStepSound(pin: Bytes, dest: Option<Bytes>, w: World, s: Step)
    requires Inv(pin, dest, w) && Apply(pin, w, s).Some? && (s.Spawn? || s.Look? || s.TryLock? || s.Fetch?)
    ensures OwnSound(pin, dest, w, Apply(pin, w, s).value, s.pid)
  {
    if s.pid in w.pcs {
      assert PcSound(pin, dest, w, s.pid);
    }
  }

  lemma WritingStepSound(pin: Bytes, dest: Option<Bytes>, w: World, s: Step)
    requires Inv(pin, dest, w) && Apply(pin, w, s).Some? && (s.CreateTemp? || s.WriteSome?)
    ensures OwnSound(pin, dest, w, Apply(pin, w, s).value, s.pid)
  {
    assert PcSound(pin, dest, w, s.pid);
  }

  lemma LeavingStepSound(pin: Bytes, dest: Option<Bytes>, w: World, s: Step)
    requires Inv(pin, dest, w) && Apply(pin, w, s).Some? && (s.SeeAbsent? || s.Rename? || s.Raise? || s.Die?)
    ensures OwnSound(pin, dest, w, Apply(pin, w, s).value, s.pid)
  {
    assert PcSound(pin, dest, w, s.pid);
  }

  lemma OwnStepSound(pin: Bytes, dest: Option<Bytes>, w: World, s: Step)
    requires Inv(pin, dest, w) && Apply(pin, w, s).Some?
    ensures OwnSound(pin, dest, w, Apply(pin, w, s).value, s.pid)
  {
    match s
    case Spawn(_) => LockingStepSound(pin, dest, w, s);
    case Look(_) => LockingStepSound(pin, dest, w, s);
    case TryLock(_) => LockingStepSound(pin, dest, w, s);
    case Fetch(_, _) => LockingStepSound(pin, dest, w, s);
    case CreateTemp(_, _) => WritingStepSound(pin, dest, w, s);
    case WriteSome(_, _) => WritingStepSound(pin, dest, w, s);
    case _ => LeavingStepSound(pin, dest, w, s);
  }

  lemma StepKeepsInv(pin: Bytes, dest: Option<Bytes>, w: World, s: Step)
    requires Inv(pin, dest, w) && Apply(pin, w, s).Some?
    ensures Inv(pin, dest, Apply(pin, w, s).value)
  {
    var n := Apply(pin, w, s).value;
    OwnStepSound(pin, dest, w, s);
    forall pid | pid in n.pcs && pid != s.pid
      ensures PcSound(pin, dest, n, pid) && n.pcs[pid] == w.pcs[pid]
    {
      OthersUndisturbed(pin, dest, w, s, pid);
      assert PcSound(pin, dest, w, pid);
    }
  }

  lemma {:induction false} RunKeepsInv(pin: Bytes, dest: Option<Bytes>, steps: seq<Step>)
    requires Run(pin, dest, steps).Some?
    ensures Inv(pin, dest, Run(pin, dest, steps).value)
  {
    if steps != [] {
      RunKeepsInv(pin, dest, steps[..|steps| - 1]);
      StepKeepsInv(pin, dest, Run(pin, dest, steps[..|steps| - 1]).value, steps[|steps| - 1]);
    }
  }

  // In every run of any number of processes: at most one is past the lock; the destination is
  // what it was at the start or, if it was absent, exactly the pinned bytes; and a process has
  // returned the path only if the destination holds them.
  lemma InstallIsSafe(pin: Bytes, dest: Option<Bytes>, steps: seq<Step>)
    requires Run(pin, dest, steps).Some?
    ensures var w := Run(pin, dest, steps).value;
            && (forall p, q :: p in w.pcs && q in w.pcs && PastLock(w.pcs[p]) && PastLock(w.pcs[q]) ==> p == q)
            && (w.dest == dest || (dest.None? && w.dest == Some(pin)))
            && (forall p :: p in w.pcs && w.pcs[p] == Returned ==> w.dest == Some(pin))
  {
    RunKeepsInv(pin, dest, steps);
    var w := Run(pin, dest, steps).value;
    assert forall p :: p in w.pcs ==> PcSound(pin, dest, w, p);
  }

  // Installed bytes never change again.
  lemma InstalledStays(pin: Bytes, dest: Option<Bytes>, steps: seq<Step>, s: Step)
    requires Run(pin, dest, steps).Some? && Apply(pin, Run(pin, dest, steps).value, s).Some?
    requires Run(pin, dest, steps).value.dest.Some?
    ensures Apply(pin, Run(pin, dest, steps).value, s).value.dest == Run(pin, dest, steps).value.dest
  {
    RunKeepsInv(pin, dest, steps);
    var w := Run(pin, dest, steps).value;
    StepKeepsInv(pin, dest, w, s);
    if s.pid in w.pcs {
      assert PcSound(pin, dest, w, s.pid);
    }
  }

  // ---- The procedure, file by file ----------------------------------------------------

  class Directory {
    var dest: Option<Bytes>
    var temps: map<Temp, Bytes>
    var locked: bool

    // cached_wheel: nothing, the pinned bytes, or a refusal.
    method CachedWheel(pin: Bytes) returns (r: Result<bool>)
      ensures r.Err? <==> dest.Some? && dest.value != pin
      ensures r.Ok? ==> r.value == (dest == Some(pin))
    {
      if dest.None? {
        return Ok(false);
      }
      if dest.value != pin {
        return Err("dependency_hash_or_size_mismatch");
      }
      return Ok(true);
    }

    // `stop` is the number of file effects before the process dies; a death skips the cleanup, and the
    // system drops the lock.
    method InstallWheel(pin: Bytes, authorized: bool, data: Option<Bytes>, temp: Temp, busy: bool, writes: bool,
                        stop: nat)
      returns (r: Result<()>, died: bool)
      requires temp !in temps
      modifies this
      ensures r.Ok? ==> dest == Some(pin)
      ensures r.Ok? <==>
        authorized && (old(dest) == Some(pin) ||
                       (old(dest).None? && !old(locked) && !busy && data == Some(pin) && writes && stop >= 3))
      ensures locked == old(locked)
      ensures died ==> dest == old(dest) && temps == old(temps)[temp := if stop <= 1 then [] else pin]
      ensures dest == old(dest) || (old(dest).None? && dest == Some(pin) && authorized && data == Some(pin))
      ensures stop >= 3 ==> !died
      ensures !died ==> temps == old(temps) && locked == old(locked)
      ensures authorized && old(dest) == Some(pin) ==> r.Ok?
      ensures authorized && old(dest).None? && !old(locked) && !busy && data == Some(pin) && writes && stop >= 3 ==>
              r.Ok?
      ensures old(locked) || busy || !authorized ==> temps == old(temps) && dest == old(dest)
    {
      died := false;
      if !authorized {
        return Err("installation_consent_required"), died;
      }
      var existing := CachedWheel(pin);
      if existing.Err? {
        return Err(existing.code), died;
      }
      if existing.value {
        return Ok(()), died;
      }
      if locked || busy {
        return Err("another_setup_is_running"), died;
      }
      locked := true;
      var created := false;
      existing := CachedWheel(pin);
      r := Err("installation failed");
      if existing == Ok(true) {
        r := Ok(());
      } else if existing.Ok? && data == Some(pin) {
        temps := temps[temp := []];
        created := true;
        if stop <= 1 {
          locked := false;
          return Err("process died"), true;
        }
        if writes {
          temps := temps[temp := pin];
          if stop <= 2 {
            locked := false;
            return Err("process died"), true;
          }
          if dest.None? {
            dest := Some(temps[temp]);
            temps := temps - {temp};
            created := false;
            r := Ok(());
          }
        }
      }
      if created {
        temps := temps - {temp};
      }
      locked := false;
      assert temps == old(temps);
    }
  }
}
