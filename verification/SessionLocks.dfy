/** Ownership of session files (tui/settings.go): every process keeps at most one claimed and one reserved session
    and names itself in the lock file beside each.

    The first half is the code of one process, run without interruption. The second half lets any number of
    processes interleave between single file operations. */
module SessionLocks {

  /** A lock file: it names a process, or holds nothing readable and is a day old or not. */
  datatype Lock = Names(pid: int) | Garbled(dayOld: bool)

  type Disk = map<string, Lock>

  function LockOf(path: string): string {
    path + ".lock"
  }

  lemma LockOfInjective(a: string, b: string)
    requires LockOf(a) == LockOf(b)
    ensures a == b
  {
    assert |a| + 5 == |LockOf(a)| == |LockOf(b)| == |b| + 5;
    assert a == LockOf(a)[..|a|] && b == LockOf(b)[..|b|];
  }

  /** staleSessionLock; a lock that is not there is not stale. */
  predicate Stale(disk: Disk, live: set<int>, lock: string) {
    lock in disk && match disk[lock]
                    case Names(pid) => pid !in live
                    case Garbled(dayOld) => dayOld
  }

  /** The sessions a process holds; "" stands for none. */
  datatype Held = Held(claimed: string, reserved: string)

  // ---------------------------------------------------------------- one process, uninterrupted

  datatype Outcome = Outcome(disk: Disk, held: Held, ok: bool)

  function Without(disk: Disk, path: string): Disk {
    if path == "" then disk else disk - {LockOf(path)}
  }

  /** Write the lock and drop the lock of an earlier reservation. */
  function Acquire(disk: Disk, pid: int, h: Held, path: string): Outcome {
    Outcome(Without(disk, h.reserved)[LockOf(path) := Names(pid)], h.(reserved := path), true)
  }

  function Reserve(disk: Disk, live: set<int>, pid: int, h: Held, path: string): Outcome {
    if path == "" then Outcome(disk, h, false)
    else if path == h.claimed || path == h.reserved then Outcome(disk, h, true)
    else if LockOf(path) !in disk || Stale(disk, live, LockOf(path)) then Acquire(disk, pid, h, path)
    else Outcome(disk, h, false)
  }

  function Commit(disk: Disk, h: Held, path: string): Outcome {
    if path == h.claimed then Outcome(disk, h, true)
    else if path != h.reserved || path == "" then Outcome(disk, h, false)
    else Outcome(Without(disk, h.claimed), Held(path, ""), true)
  }

  function Cancel(disk: Disk, h: Held, path: string): Outcome {
    if path != "" && path != h.reserved then Outcome(disk, h, false)
    else Outcome(Without(disk, h.reserved), h.(reserved := ""), true)
  }

  function Release(disk: Disk, h: Held): Outcome {
    Cancel(Without(disk, h.claimed), Held("", h.reserved), "")
  }

  /** The directory of session files and the process table, shared by all processes. */
  class Machine {
    var disk: Disk
    var live: set<int>
  }

  /** One process, with the variables of settings.go. */
  class Tui {
    const pid: int
    const machine: Machine
    var claimedPath: string
    var claimedLock: string
    var reservedPath: string
    var reservedLock: string

    ghost predicate Valid()
      reads this
    {
      && claimedLock == (if claimedPath == "" then "" else LockOf(claimedPath))
      && reservedLock == (if reservedPath == "" then "" else LockOf(reservedPath))
      && (claimedPath != "" ==> claimedPath != reservedPath)
    }

    function TheHeld(): Held
      reads this
    {
      Held(claimedPath, reservedPath)
    }

    constructor (pid: int, machine: Machine)
      ensures Valid() && this.pid == pid && this.machine == machine && TheHeld() == Held("", "")
    {
      this.pid, this.machine := pid, machine;
      claimedPath, claimedLock, reservedPath, reservedLock := "", "", "", "";
    }

    method StaleSessionLock(lock: string) returns (stale: bool)
      ensures stale == Stale(machine.disk, machine.live, lock)
    {
      if lock !in machine.disk {
        return false;
      }
      match machine.disk[lock]
      case Names(p) => stale := p !in machine.live;
      case Garbled(dayOld) => stale := dayOld;
    }

    method Remove(lock: string)
      modifies machine
      ensures machine.disk == old(machine.disk) - {lock} && machine.live == old(machine.live)
    {
      machine.disk := machine.disk - {lock};
    }

    /** reserveSession. */
    method ReserveSession(path: string) returns (ok: bool)
      requires Valid()
      modifies this, machine
      ensures Valid() && machine.live == old(machine.live)
      ensures Outcome(machine.disk, TheHeld(), ok) ==
              Reserve(old(machine.disk), old(machine.live), pid, old(TheHeld()), path)
    {
      if path == "" {
        return false;
      }
      if path == claimedPath {
        return true;
      }
      if path == reservedPath && reservedLock != "" {
        return true;
      }
      var lock := LockOf(path);
      var exists_ := lock in machine.disk;
      if exists_ {
        var stale := StaleSessionLock(lock);
        if stale {
          Remove(lock);
          exists_ := lock in machine.disk;
        }
      }
      if exists_ {
        return false;
      }
      machine.disk := machine.disk[lock := Names(pid)];
      if reservedLock != "" && reservedLock != lock {
        Remove(reservedLock);
      } else if reservedPath != "" {
        LockOfInjective(reservedPath, path);
      }
      assert machine.disk == Without(old(machine.disk), old(reservedPath))[lock := Names(pid)];
      reservedPath, reservedLock := path, lock;
      return true;
    }

    /** commitSessionClaim. */
    method CommitSessionClaim(path: string) returns (ok: bool)
      requires Valid()
      modifies this, machine
      ensures Valid() && machine.live == old(machine.live)
      ensures Outcome(machine.disk, TheHeld(), ok) == Commit(old(machine.disk), old(TheHeld()), path)
    {
      if path == claimedPath {
        return true;
      }
      if path != reservedPath || reservedLock == "" {
        return false;
      }
      if claimedLock != "" && claimedLock != reservedLock {
        Remove(claimedLock);
      } else if claimedPath != "" {
        LockOfInjective(claimedPath, reservedPath);
      }
      claimedPath, claimedLock := reservedPath, reservedLock;
      reservedPath, reservedLock := "", "";
      return true;
    }

    /** cancelSessionReservation. */
    method CancelSessionReservation(path: string)
      requires Valid()
      modifies this, machine
      ensures Valid() && machine.live == old(machine.live)
      ensures var o := Cancel(old(machine.disk), old(TheHeld()), path); machine.disk == o.disk && TheHeld() == o.held
    {
      if path != "" && path != reservedPath {
        return;
      }
      if reservedLock != "" {
        Remove(reservedLock);
      }
      reservedPath, reservedLock := "", "";
    }

    /** claimSession. */
    method ClaimSession(path: string) returns (ok: bool)
      requires Valid()
      modifies this, machine
      ensures Valid() && machine.live == old(machine.live)
      ensures
        var r := Reserve(old(machine.disk), old(machine.live), pid, old(TheHeld()), path);
        Outcome(machine.disk, TheHeld(), ok) == if r.ok then Commit(r.disk, r.held, path) else r
    {
      ok := ReserveSession(path);
      if ok {
        ok := CommitSessionClaim(path);
      }
    }

    /** releaseSessionClaim. */
    method ReleaseSessionClaim()
      requires Valid()
      modifies this, machine
      ensures Valid() && machine.live == old(machine.live)
      ensures var o := Release(old(machine.disk), old(TheHeld())); machine.disk == o.disk && TheHeld() == o.held
    {
      if claimedLock != "" {
        Remove(claimedLock);
      }
      claimedPath, claimedLock := "", "";
      CancelSessionReservation("");
    }

    /** sessionLockedByAnotherProcess. */
    method SessionLockedByAnotherProcess(path: string) returns (locked: bool)
      requires Valid()
      modifies machine
      ensures machine.live == old(machine.live)
      ensures
        var mine := path == "" || path == claimedPath || path == reservedPath;
        var stale := !mine && Stale(old(machine.disk), machine.live, LockOf(path));
        && machine.disk == (if stale then old(machine.disk) - {LockOf(path)} else old(machine.disk))
        && locked == (!mine && !stale && LockOf(path) in machine.disk)
    {
      if path == "" || path == claimedPath || path == reservedPath {
        return false;
      }
      var stale := StaleSessionLock(LockOf(path));
      if stale {
        Remove(LockOf(path));
        return false;
      }
      return LockOf(path) in machine.disk;
    }
  }

  // ---------------------------------------------------------------- any number of processes

  /** Where a process is inside reserveSession or sessionLockedByAnotherProcess. */
  datatype Pc =
    | Idle
    | Suspecting(path: string, take: bool)  // found the lock file there; about to look into it
    | Removing(path: string, take: bool)    // found it stale; about to remove it
    | Retrying(path: string)                // removed it; about to create it again

  datatype Proc = Proc(live: bool, held: Held, pc: Pc)

  datatype Sys = Sys(disk: Disk, procs: map<int, Proc>)

  /** One file operation, with the assignments that go with it. */
  datatype Step =
    | Start(pid: int)
    | Crash(pid: int)
    | Try(pid: int, path: string)     // reserveSession up to the first attempt to create the lock
    | Peek(pid: int, path: string)    // sessionLockedByAnotherProcess
    | Inspect(pid: int)
    | Unlink(pid: int)
    | Again(pid: int)
    | Confirm(pid: int, path: string) // commitSessionClaim
    | Abandon(pid: int, path: string) // cancelSessionReservation
    | Quit(pid: int)                  // releaseSessionClaim

  function LivePids(s: Sys): set<int> {
    set p | p in s.procs && s.procs[p].live
  }

  predicate Busy(s: Sys, pid: int) {
    pid in s.procs && s.procs[pid].live && !s.procs[pid].pc.Idle?
  }

  predicate Ready(s: Sys, pid: int) {
    pid in s.procs && s.procs[pid].live && s.procs[pid].pc.Idle?
  }

  predicate Enabled(s: Sys, step: Step) {
    match step
    case Start(pid) => pid !in s.procs && forall lock :: lock in s.disk ==> s.disk[lock] != Names(pid)
    case Crash(pid) => pid in s.procs && s.procs[pid].live
    case Inspect(pid) => Busy(s, pid) && s.procs[pid].pc.Suspecting?
    case Unlink(pid) => Busy(s, pid) && s.procs[pid].pc.Removing?
    case Again(pid) => Busy(s, pid) && s.procs[pid].pc.Retrying?
    case _ => Ready(s, step.pid)
  }

  function Set(s: Sys, disk: Disk, pid: int, p: Proc): Sys {
    Sys(disk, s.procs[pid := p])
  }

  function SetOutcome(s: Sys, pid: int, o: Outcome): Sys
    requires pid in s.procs
  {
    Set(s, o.disk, pid, s.procs[pid].(held := o.held, pc := Idle))
  }

  function Next(s: Sys, step: Step): Sys
    requires Enabled(s, step)
  {
    match step
    case Start(pid) => Set(s, s.disk, pid, Proc(true, Held("", ""), Idle))
    case Crash(pid) => Set(s, s.disk, pid, s.procs[pid].(live := false))
    case Try(pid, path) =>
      var p := s.procs[pid];
      if path == "" || path == p.held.claimed || path == p.held.reserved then s
      else if LockOf(path) !in s.disk then SetOutcome(s, pid, Acquire(s.disk, pid, p.held, path))
      else Set(s, s.disk, pid, p.(pc := Suspecting(path, true)))
    case Peek(pid, path) =>
      var p := s.procs[pid];
      if path == "" || path == p.held.claimed || path == p.held.reserved then s
      else Set(s, s.disk, pid, p.(pc := Suspecting(path, false)))
    case Inspect(pid) =>
      var p := s.procs[pid];
      if Stale(s.disk, LivePids(s), LockOf(p.pc.path)) then
        Set(s, s.disk, pid, p.(pc := Removing(p.pc.path, p.pc.take)))
      else Set(s, s.disk, pid, p.(pc := Idle))
    case Unlink(pid) =>
      var p := s.procs[pid];
      Set(s, s.disk - {LockOf(p.pc.path)}, pid, p.(pc := if p.pc.take then Retrying(p.pc.path) else Idle))
    case Again(pid) =>
      var p := s.procs[pid];
      if LockOf(p.pc.path) !in s.disk then SetOutcome(s, pid, Acquire(s.disk, pid, p.held, p.pc.path))
      else Set(s, s.disk, pid, p.(pc := Idle))
    case Confirm(pid, path) => SetOutcome(s, pid, Commit(s.disk, s.procs[pid].held, path))
    case Abandon(pid, path) => SetOutcome(s, pid, Cancel(s.disk, s.procs[pid].held, path))
    case Quit(pid) => SetOutcome(s, pid, Release(s.disk, s.procs[pid].held))
  }

  predicate Holds(s: Sys, pid: int, path: string) {
    && pid in s.procs && s.procs[pid].live && path != ""
    && (s.procs[pid].held.claimed == path || s.procs[pid].held.reserved == path)
  }

  /** A live process holds exactly the sessions whose locks name it, and never one session twice; a process on its
      way to a session does not hold it yet. */
  ghost predicate Owned(s: Sys) {
    && (forall pid, path :: Holds(s, pid, path) ==> LockOf(path) in s.disk && s.disk[LockOf(path)] == Names(pid))
    && (forall pid, lock :: pid in s.procs && s.procs[pid].live && lock in s.disk && s.disk[lock] == Names(pid) ==>
          exists path :: lock == LockOf(path) && Holds(s, pid, path))
    && (forall pid :: pid in s.procs && s.procs[pid].live && s.procs[pid].held.claimed != "" ==>
          s.procs[pid].held.claimed != s.procs[pid].held.reserved)
    && (forall pid :: Busy(s, pid) ==> s.procs[pid].pc.path != "" && !Holds(s, pid, s.procs[pid].pc.path))
  }

  /** No session is held by two live processes. */
  lemma HeldByOne(s: Sys, p: int, q: int, path: string)
    requires Owned(s) && Holds(s, p, path) && Holds(s, q, path)
    ensures p == q
  {
    assert s.disk[LockOf(path)] == Names(p) && s.disk[LockOf(path)] == Names(q);
  }

  /** The file a removal deletes is not the lock of a live process. */
  ghost predicate Harmless(s: Sys, step: Step)
    requires Enabled(s, step)
  {
    step.Unlink? ==>
      var lock := LockOf(s.procs[step.pid].pc.path);
      lock in s.disk ==> match s.disk[lock]
                         case Names(p) => !(p in s.procs && s.procs[p].live)
                         case Garbled(_) => true
  }

  lemma Injective()
    ensures forall a, b {:trigger LockOf(a), LockOf(b)} :: LockOf(a) == LockOf(b) ==> a == b
  {
    forall a, b {:trigger LockOf(a), LockOf(b)} | LockOf(a) == LockOf(b) ensures a == b {
      LockOfInjective(a, b);
    }
  }

  /** Giving up one of a process's own sessions. */
  lemma DropKeepsOwned(s: Sys, pid: int, h: Held, gone: string)
    requires Owned(s) && pid in s.procs && s.procs[pid].live && s.procs[pid].pc.Idle?
    requires gone == "" || Holds(s, pid, gone)
    requires forall path :: path != "" ==>
               ((h.claimed == path || h.reserved == path) <==> (Holds(s, pid, path) && path != gone))
    requires h.claimed != "" ==> h.claimed != h.reserved
    ensures Owned(SetOutcome(s, pid, Outcome(Without(s.disk, gone), h, true)))
  {
    var t := SetOutcome(s, pid, Outcome(Without(s.disk, gone), h, true));
    Injective();
    forall q, path | Holds(t, q, path) ensures LockOf(path) in t.disk && t.disk[LockOf(path)] == Names(q) {
      assert Holds(s, q, path);
      if gone != "" && LockOf(path) == LockOf(gone) {
        HeldByOne(s, pid, q, path);
        assert false;
      }
    }
    forall q, lock | q in t.procs && t.procs[q].live && lock in t.disk && t.disk[lock] == Names(q)
      ensures exists path :: lock == LockOf(path) && Holds(t, q, path)
    {
      var path :| lock == LockOf(path) && Holds(s, q, path);
      assert Holds(t, q, path);
    }
    forall q | Busy(t, q) ensures t.procs[q].pc.path != "" && !Holds(t, q, t.procs[q].pc.path) {
      assert Busy(s, q);
    }
  }

  /** Taking a session whose lock is free. */
  lemma AcquireKeepsOwned(s: Sys, pid: int, path: string)
    requires Owned(s) && pid in s.procs && s.procs[pid].live && path != "" && !Holds(s, pid, path)
    requires LockOf(path) !in s.disk
    ensures Owned(SetOutcome(s, pid, Acquire(s.disk, pid, s.procs[pid].held, path)))
  {
    var h := s.procs[pid].held;
    var t := SetOutcome(s, pid, Acquire(s.disk, pid, h, path));
    Injective();
    forall q, x | Holds(t, q, x) ensures LockOf(x) in t.disk && t.disk[LockOf(x)] == Names(q) {
      if q == pid && x == path {
      } else {
        assert Holds(s, q, x);
        if h.reserved != "" && x == h.reserved {
          assert Holds(s, pid, x);
          HeldByOne(s, pid, q, x);
          assert false;
        }
      }
    }
    forall q, lock | q in t.procs && t.procs[q].live && lock in t.disk && t.disk[lock] == Names(q)
      ensures exists x :: lock == LockOf(x) && Holds(t, q, x)
    {
      if lock == LockOf(path) {
        assert Holds(t, pid, path);
      } else {
        var x :| lock == LockOf(x) && Holds(s, q, x);
        assert Holds(t, q, x);
      }
    }
    forall q | Busy(t, q) ensures t.procs[q].pc.path != "" && !Holds(t, q, t.procs[q].pc.path) {
      assert Busy(s, q);
    }
  }

  /** Moving a process along without touching a lock it matters to. */
  lemma MoveKeepsOwned(s: Sys, pid: int, disk: Disk, pc: Pc)
    requires Owned(s) && pid in s.procs && s.procs[pid].live
    requires !pc.Idle? ==> pc.path != "" && !Holds(s, pid, pc.path)
    requires forall lock :: lock in disk ==> lock in s.disk && disk[lock] == s.disk[lock]
    requires forall lock :: lock in s.disk && lock !in disk ==>
               match s.disk[lock] case Names(p) => !(p in s.procs && s.procs[p].live) case Garbled(_) => true
    ensures Owned(Set(s, disk, pid, s.procs[pid].(pc := pc)))
  {
    var t := Set(s, disk, pid, s.procs[pid].(pc := pc));
    forall q, x | Holds(t, q, x) ensures LockOf(x) in t.disk && t.disk[LockOf(x)] == Names(q) {
      assert Holds(s, q, x);
    }
    forall q, lock | q in t.procs && t.procs[q].live && lock in t.disk && t.disk[lock] == Names(q)
      ensures exists x :: lock == LockOf(x) && Holds(t, q, x)
    {
      var x :| lock == LockOf(x) && Holds(s, q, x);
      assert Holds(t, q, x);
    }
    forall q | Busy(t, q) ensures t.procs[q].pc.path != "" && !Holds(t, q, t.procs[q].pc.path) {
      assert q != pid ==> Busy(s, q);
      assert Holds(t, q, t.procs[q].pc.path) ==> Holds(s, q, t.procs[q].pc.path);
    }
  }

  lemma StartKeepsOwned(s: Sys, pid: int)
    requires Owned(s) && Enabled(s, Start(pid))
    ensures Owned(Next(s, Start(pid)))
  {
    var t := Next(s, Start(pid));
    forall q, x | Holds(t, q, x) ensures LockOf(x) in t.disk && t.disk[LockOf(x)] == Names(q) {
      assert Holds(s, q, x);
    }
    forall q, lock | q in t.procs && t.procs[q].live && lock in t.disk && t.disk[lock] == Names(q)
      ensures exists x :: lock == LockOf(x) && Holds(t, q, x)
    {
      var x :| lock == LockOf(x) && Holds(s, q, x);
      assert Holds(t, q, x);
    }
    forall q | Busy(t, q) ensures t.procs[q].pc.path != "" && !Holds(t, q, t.procs[q].pc.path) {
      assert Busy(s, q);
    }
  }

  lemma CrashKeepsOwned(s: Sys, pid: int)
    requires Owned(s) && Enabled(s, Crash(pid))
    ensures Owned(Next(s, Crash(pid)))
  {
    var t := Next(s, Crash(pid));
    forall q, x | Holds(t, q, x) ensures LockOf(x) in t.disk && t.disk[LockOf(x)] == Names(q) {
      assert Holds(s, q, x);
    }
    forall q, lock | q in t.procs && t.procs[q].live && lock in t.disk && t.disk[lock] == Names(q)
      ensures exists x :: lock == LockOf(x) && Holds(t, q, x)
    {
      var x :| lock == LockOf(x) && Holds(s, q, x);
      assert Holds(t, q, x);
    }
    forall q | Busy(t, q) ensures t.procs[q].pc.path != "" && !Holds(t, q, t.procs[q].pc.path) {
      assert Busy(s, q);
    }
  }

  lemma QuitKeepsOwned(s: Sys, pid: int)
    requires Owned(s) && Enabled(s, Quit(pid))
    ensures Owned(Next(s, Quit(pid)))
  {
    var h := s.procs[pid].held;
    Injective();
    assert h.claimed != "" ==> Holds(s, pid, h.claimed);
    assert h.reserved != "" ==> Holds(s, pid, h.reserved);
    DropKeepsOwned(s, pid, Held("", h.reserved), h.claimed);
    var t := SetOutcome(s, pid, Outcome(Without(s.disk, h.claimed), Held("", h.reserved), true));
    DropKeepsOwned(t, pid, Held("", ""), h.reserved);
    assert t.procs[pid := t.procs[pid].(held := Held("", ""))]
           == s.procs[pid := s.procs[pid].(held := Held("", ""), pc := Idle)];
  }

  /** Every step but a harmful removal keeps ownership. */
  lemma StepKeepsOwned(s: Sys, step: Step)
    requires Owned(s) && Enabled(s, step) && Harmless(s, step)
    ensures Owned(Next(s, step))
  {
    hide Owned;
    match step {
      case Start(pid) => StartKeepsOwned(s, pid);
      case Crash(pid) => CrashKeepsOwned(s, pid);
      case Quit(pid) => QuitKeepsOwned(s, pid);
      case Try(pid, path) => TryKeepsOwned(s, pid, path);
      case Peek(pid, path) =>
        if path != "" && !Holds(s, pid, path) {
          MoveKeepsOwned(s, pid, s.disk, Suspecting(path, false));
        }
      case Inspect(pid) => InspectKeepsOwned(s, pid);
      case Unlink(pid) => UnlinkKeepsOwned(s, pid);
      case Again(pid) => AgainKeepsOwned(s, pid);
      case Confirm(pid, path) => ConfirmKeepsOwned(s, pid, path);
      case Abandon(pid, path) => AbandonKeepsOwned(s, pid, path);
    }
  }

  lemma TryKeepsOwned(s: Sys, pid: int, path: string)
    requires Owned(s) && Enabled(s, Try(pid, path))
    ensures Owned(Next(s, Try(pid, path)))
  {
    hide Owned;
    if path != "" && !Holds(s, pid, path) {
      if LockOf(path) !in s.disk {
        AcquireKeepsOwned(s, pid, path);
      } else {
        MoveKeepsOwned(s, pid, s.disk, Suspecting(path, true));
      }
    }
  }

  lemma PcIsForeign(s: Sys, pid: int)
    requires Owned(s) && Busy(s, pid)
    ensures s.procs[pid].pc.path != "" && !Holds(s, pid, s.procs[pid].pc.path)
  {
  }

  lemma InspectKeepsOwned(s: Sys, pid: int)
    requires Owned(s) && Enabled(s, Inspect(pid))
    ensures Owned(Next(s, Inspect(pid)))
  {
    PcIsForeign(s, pid);
    hide Owned;
    var pc := s.procs[pid].pc;
    MoveKeepsOwned(s, pid, s.disk, Removing(pc.path, pc.take));
    MoveKeepsOwned(s, pid, s.disk, Idle);
  }

  lemma UnlinkKeepsOwned(s: Sys, pid: int)
    requires Owned(s) && Enabled(s, Unlink(pid)) && Harmless(s, Unlink(pid))
    ensures Owned(Next(s, Unlink(pid)))
  {
    PcIsForeign(s, pid);
    hide Owned;
    var pc := s.procs[pid].pc;
    MoveKeepsOwned(s, pid, s.disk - {LockOf(pc.path)}, if pc.take then Retrying(pc.path) else Idle);
  }

  lemma AgainKeepsOwned(s: Sys, pid: int)
    requires Owned(s) && Enabled(s, Again(pid))
    ensures Owned(Next(s, Again(pid)))
  {
    PcIsForeign(s, pid);
    hide Owned;
    if LockOf(s.procs[pid].pc.path) !in s.disk {
      AcquireKeepsOwned(s, pid, s.procs[pid].pc.path);
    } else {
      MoveKeepsOwned(s, pid, s.disk, Idle);
    }
  }

  lemma DistinctHeld(s: Sys, pid: int)
    requires Owned(s) && pid in s.procs && s.procs[pid].live
    ensures s.procs[pid].held.claimed != "" ==> s.procs[pid].held.claimed != s.procs[pid].held.reserved
  {
  }

  lemma SetSame(s: Sys, pid: int)
    requires Ready(s, pid)
    ensures SetOutcome(s, pid, Outcome(s.disk, s.procs[pid].held, true)) == s
    ensures SetOutcome(s, pid, Outcome(s.disk, s.procs[pid].held, false)) == s
  {
    assert s.procs[pid := s.procs[pid].(pc := Idle)] == s.procs;
  }

  lemma ConfirmKeepsOwned(s: Sys, pid: int, path: string)
    requires Owned(s) && Enabled(s, Confirm(pid, path))
    ensures Owned(Next(s, Confirm(pid, path)))
  {
    DistinctHeld(s, pid);
    hide Owned;
    SetSame(s, pid);
    var h := s.procs[pid].held;
    if path != h.claimed && path == h.reserved && path != "" {
      DropKeepsOwned(s, pid, Held(path, ""), h.claimed);
    }
  }

  lemma AbandonKeepsOwned(s: Sys, pid: int, path: string)
    requires Owned(s) && Enabled(s, Abandon(pid, path))
    ensures Owned(Next(s, Abandon(pid, path)))
  {
    DistinctHeld(s, pid);
    hide Owned;
    SetSame(s, pid);
    var h := s.procs[pid].held;
    if path == "" || path == h.reserved {
      DropKeepsOwned(s, pid, h.(reserved := ""), h.reserved);
    }
  }

  // ---------------------------------------------------------------- runs

  /** A run is possible, and every removal in it is harmless when it happens. */
  ghost predicate OrderlyRun(s: Sys, steps: seq<Step>)
    decreases |steps|
  {
    steps != [] ==> Enabled(s, steps[0]) && Harmless(s, steps[0]) && OrderlyRun(Next(s, steps[0]), steps[1..])
  }

  ghost function After(s: Sys, steps: seq<Step>): Sys
    requires OrderlyRun(s, steps)
    decreases |steps|
  {
    if steps == [] then s else After(Next(s, steps[0]), steps[1..])
  }

  /** Ownership over whole runs: whatever the processes do and however their file operations interleave, as long as
      no removal hits the lock of a live process. */
  lemma {:induction false} RunKeepsOwned(s: Sys, steps: seq<Step>)
    requires Owned(s) && OrderlyRun(s, steps)
    ensures Owned(After(s, steps))
    decreases |steps|
  {
    hide Owned, Harmless;
    if steps != [] {
      StepKeepsOwned(s, steps[0]);
      RunKeepsOwned(Next(s, steps[0]), steps[1..]);
    }
  }

  /** That condition cannot be dropped for a single step: a removal keeps ownership exactly when it is harmless. */
  lemma RemovalExact(s: Sys, pid: int)
    requires Owned(s) && Enabled(s, Unlink(pid))
    ensures Owned(Next(s, Unlink(pid))) <==> Harmless(s, Unlink(pid))
  {
    if Harmless(s, Unlink(pid)) {
      StepKeepsOwned(s, Unlink(pid));
    } else {
      var t, lock := Next(s, Unlink(pid)), LockOf(s.procs[pid].pc.path);
      var q := s.disk[lock].pid;
      var path :| lock == LockOf(path) && Holds(s, q, path);
      assert Holds(t, q, path) && lock !in t.disk;
    }
  }

  // ---------------------------------------------------------------- takeover as one step, and as four

  /** The steps of an uninterrupted reserveSession. */
  function ReserveSteps(s: Sys, pid: int, path: string): seq<Step>
    requires Ready(s, pid)
  {
    var p := s.procs[pid];
    if path == "" || path == p.held.claimed || path == p.held.reserved || LockOf(path) !in s.disk then [Try(pid, path)]
    else if Stale(s.disk, LivePids(s), LockOf(path)) then [Try(pid, path), Inspect(pid), Unlink(pid), Again(pid)]
    else [Try(pid, path), Inspect(pid)]
  }

  /** Run without interruption, reserveSession does what `Reserve` says, and its removal is harmless: with the
      takeover as one step, ownership needs no condition. */
  lemma ReserveAsOneStep(s: Sys, pid: int, path: string)
    requires Ready(s, pid)
    ensures OrderlyRun(s, ReserveSteps(s, pid, path))
    ensures After(s, ReserveSteps(s, pid, path)) ==
            SetOutcome(s, pid, Reserve(s.disk, LivePids(s), pid, s.procs[pid].held, path))
    ensures Owned(s) ==> Owned(After(s, ReserveSteps(s, pid, path)))
  {
    hide Owned;
    SetSame(s, pid);
    var h := s.procs[pid].held;
    if path == "" || path == h.claimed || path == h.reserved || LockOf(path) !in s.disk {
      assert OrderlyRun(Next(s, Try(pid, path)), []);
    } else if Stale(s.disk, LivePids(s), LockOf(path)) {
      hide Enabled, Harmless, Next, OrderlyRun, After;
      TakeoverRun(s, pid, path);
    } else {
      hide Enabled, Harmless, Next, OrderlyRun, After;
      RefusedRun(s, pid, path);
    }
    if Owned(s) {
      hide Enabled, Harmless, Next, Stale, Reserve;
      RunKeepsOwned(s, ReserveSteps(s, pid, path));
    }
  }

  /** The lock is there and not stale. */
  lemma RefusedRun(s: Sys, pid: int, path: string)
    requires Ready(s, pid) && LockOf(path) in s.disk && !Stale(s.disk, LivePids(s), LockOf(path))
    requires path != "" && path != s.procs[pid].held.claimed && path != s.procs[pid].held.reserved
    ensures
      var steps := [Try(pid, path), Inspect(pid)];
      OrderlyRun(s, steps) && After(s, steps) == Set(s, s.disk, pid, s.procs[pid].(pc := Idle))
  {
    var s1 := Next(s, Try(pid, path));
    assert LivePids(s1) == LivePids(s);
    RunOfTwo(s, Try(pid, path), Inspect(pid));
    assert Next(s1, Inspect(pid)).procs == s.procs[pid := s.procs[pid].(pc := Idle)];
  }

  /** The lock is there and stale. */
  lemma TakeoverRun(s: Sys, pid: int, path: string)
    requires Ready(s, pid) && LockOf(path) in s.disk && Stale(s.disk, LivePids(s), LockOf(path))
    requires path != "" && path != s.procs[pid].held.claimed && path != s.procs[pid].held.reserved
    ensures
      var steps := [Try(pid, path), Inspect(pid), Unlink(pid), Again(pid)];
      OrderlyRun(s, steps) && After(s, steps) == SetOutcome(s, pid, Acquire(s.disk, pid, s.procs[pid].held, path))
  {
    var p := s.procs[pid];
    var s1 := Next(s, Try(pid, path));
    assert LivePids(s1) == LivePids(s);
    var s2 := Next(s1, Inspect(pid));
    var s3 := Next(s2, Unlink(pid));
    var s4 := Next(s3, Again(pid));
    RunOfTwo(s2, Unlink(pid), Again(pid));
    RunOfTwo(s, Try(pid, path), Inspect(pid));
    RunOfFour(s, Try(pid, path), Inspect(pid), Unlink(pid), Again(pid));
    assert s4.disk == Acquire(s.disk, pid, p.held, path).disk;
    assert s4.procs == s.procs[pid := p.(held := p.held.(reserved := path), pc := Idle)];
  }

  /** What processes do when nothing interrupts the four functions: take a session, look at one, and the rest. */
  datatype Move = Grab(pid: int, path: string) | Glance(pid: int, path: string) | Other(step: Step)

  predicate Allowed(s: Sys, m: Move) {
    match m
    case Grab(pid, _) => Ready(s, pid)
    case Glance(pid, _) => Ready(s, pid)
    case Other(step) =>
      Enabled(s, step) && (step.Start? || step.Crash? || step.Confirm? || step.Abandon? || step.Quit?)
  }

  function Moved(s: Sys, m: Move): Sys
    requires Allowed(s, m)
  {
    match m
    case Grab(pid, path) => SetOutcome(s, pid, Reserve(s.disk, LivePids(s), pid, s.procs[pid].held, path))
    case Glance(pid, path) =>
      if path != "" && !Holds(s, pid, path) && Stale(s.disk, LivePids(s), LockOf(path)) then
        Sys(s.disk - {LockOf(path)}, s.procs)
      else s
    case Other(step) => Next(s, step)
  }

  ghost predicate AllAllowed(s: Sys, moves: seq<Move>)
    decreases |moves|
  {
    moves != [] ==> Allowed(s, moves[0]) && AllAllowed(Moved(s, moves[0]), moves[1..])
  }

  ghost function MovedAll(s: Sys, moves: seq<Move>): Sys
    requires AllAllowed(s, moves)
    decreases |moves|
  {
    if moves == [] then s else MovedAll(Moved(s, moves[0]), moves[1..])
  }

  lemma LookKeepsOwned(s: Sys, pid: int, path: string)
    requires Owned(s) && Stale(s.disk, LivePids(s), LockOf(path))
    ensures Owned(Sys(s.disk - {LockOf(path)}, s.procs))
  {
    var t := Sys(s.disk - {LockOf(path)}, s.procs);
    forall q, x | Holds(t, q, x)
      ensures LockOf(x) in t.disk && t.disk[LockOf(x)] == Names(q)
    {
      assert Holds(s, q, x);
    }
    forall q, lock | q in t.procs && t.procs[q].live && lock in t.disk && t.disk[lock] == Names(q)
      ensures exists x :: lock == LockOf(x) && Holds(t, q, x)
    {
      var x :| lock == LockOf(x) && Holds(s, q, x);
      assert Holds(t, q, x);
    }
    forall q | Busy(t, q)
      ensures t.procs[q].pc.path != "" && !Holds(t, q, t.procs[q].pc.path)
    {
      assert Busy(s, q);
    }
  }

  /** With the takeover as one step, any number of processes may reserve, look, commit, cancel, quit and crash: no
      condition on the removals is needed, and no session ever has two live holders. */
  lemma {:induction false} MovesKeepOwned(s: Sys, moves: seq<Move>)
    requires Owned(s) && AllAllowed(s, moves)
    ensures Owned(MovedAll(s, moves))
    ensures forall p, q, path ::
              Holds(MovedAll(s, moves), p, path) && Holds(MovedAll(s, moves), q, path) ==> p == q
    decreases |moves|
  {
    hide Owned, Reserve, Stale, Next, Enabled, Harmless;
    if moves != [] {
      MoveKeepsOwnership(s, moves[0]);
      MovesKeepOwned(Moved(s, moves[0]), moves[1..]);
    } else {
      forall p, q, path | Holds(s, p, path) && Holds(s, q, path)
        ensures p == q
      {
        HeldByOne(s, p, q, path);
      }
    }
  }

  lemma MoveKeepsOwnership(s: Sys, m: Move)
    requires Owned(s) && Allowed(s, m)
    ensures Owned(Moved(s, m))
  {
    hide Owned, Reserve, Stale, Next;
    match m {
      case Grab(pid, path) => ReserveAsOneStep(s, pid, path);
      case Glance(pid, path) =>
        if Stale(s.disk, LivePids(s), LockOf(path)) {
          LookKeepsOwned(s, pid, path);
        }
      case Other(step) => StepKeepsOwned(s, step);
    }
  }

  lemma RunOfTwo(s: Sys, a: Step, b: Step)
    requires Enabled(s, a) && Harmless(s, a) && Enabled(Next(s, a), b) && Harmless(Next(s, a), b)
    ensures OrderlyRun(s, [a, b]) && After(s, [a, b]) == Next(Next(s, a), b)
  {
    hide Enabled, Harmless, Next;
    var t := Next(s, a);
    assert [a, b][1..] == [b] && [b][1..] == [];
    assert OrderlyRun(Next(t, b), []);
    assert OrderlyRun(t, [b]);
    assert After(t, [b]) == After(Next(t, b), []);
  }

  lemma RunOfFour(s: Sys, a: Step, b: Step, c: Step, d: Step)
    requires Enabled(s, a) && Harmless(s, a) && Enabled(Next(s, a), b) && Harmless(Next(s, a), b)
    requires OrderlyRun(Next(Next(s, a), b), [c, d])
    ensures OrderlyRun(s, [a, b, c, d])
    ensures After(s, [a, b, c, d]) == After(Next(Next(s, a), b), [c, d])
  {
    hide Enabled, Harmless, Next;
    var t := Next(s, a);
    assert [a, b, c, d][1..] == [b, c, d] && [b, c, d][1..] == [c, d];
    assert OrderlyRun(t, [b, c, d]);
  }

  /** What a harmful removal leads to: the process that removed the lock takes the session, and its owner has it
      still. */
  lemma HarmfulRemovalGivesTwoOwners(s: Sys, pid: int)
    requires Owned(s) && Enabled(s, Unlink(pid)) && !Harmless(s, Unlink(pid)) && s.procs[pid].pc.take
    ensures
      var path := s.procs[pid].pc.path;
      var t := Next(s, Unlink(pid));
      && Enabled(t, Again(pid))
      && Holds(Next(t, Again(pid)), pid, path)
      && exists q :: q != pid && Holds(Next(t, Again(pid)), q, path)
  {
    PcIsForeign(s, pid);
    Injective();
    var path := s.procs[pid].pc.path;
    var q := s.disk[LockOf(path)].pid;
    var x :| LockOf(path) == LockOf(x) && Holds(s, q, x);
    assert Holds(Next(Next(s, Unlink(pid)), Again(pid)), q, path);
  }

  /** Such a removal can happen: two processes find the same stale lock, one takes the session over, and the other,
      having looked earlier, removes its new lock. */
  lemma StaleTakeoverRace(path: string)
    requires path != ""
    ensures
      var born := Proc(true, Held("", ""), Idle);
      var s0 := Sys(map[LockOf(path) := Names(1)], map[2 := born, 3 := born]);
      var race := [Try(2, path), Try(3, path), Inspect(2), Inspect(3), Unlink(2), Again(2)];
      && Owned(s0) && OrderlyRun(s0, race)
      && Enabled(After(s0, race), Unlink(3)) && !Harmless(After(s0, race), Unlink(3))
  {
    var idle, lock := Proc(true, Held("", ""), Idle), LockOf(path);
    var d0 := map[lock := Names(1)];
    var s0 := Sys(d0, map[2 := idle, 3 := idle]);
    assert forall q, x :: !Holds(s0, q, x);
    var s1 := Next(s0, Try(2, path));
    var s2 := Next(s1, Try(3, path));
    var s3 := Next(s2, Inspect(2));
    var s4 := Next(s3, Inspect(3));
    var s5 := Next(s4, Unlink(2));
    var s6 := Next(s5, Again(2));
    assert s6.disk[lock] == Names(2);
    RunOfTwo(s4, Unlink(2), Again(2));
    RunOfFour(s2, Inspect(2), Inspect(3), Unlink(2), Again(2));
    RunOfSix(s0, Try(2, path), Try(3, path), Inspect(2), Inspect(3), Unlink(2), Again(2));
  }

  lemma RunOfSix(s: Sys, a: Step, b: Step, c: Step, d: Step, e: Step, f: Step)
    requires Enabled(s, a) && Harmless(s, a) && Enabled(Next(s, a), b) && Harmless(Next(s, a), b)
    requires OrderlyRun(Next(Next(s, a), b), [c, d, e, f])
    ensures OrderlyRun(s, [a, b, c, d, e, f])
    ensures After(s, [a, b, c, d, e, f]) == After(Next(Next(s, a), b), [c, d, e, f])
  {
    hide Enabled, Harmless, Next;
    var t := Next(s, a);
    assert [a, b, c, d, e, f][1..] == [b, c, d, e, f] && [b, c, d, e, f][1..] == [c, d, e, f];
    assert OrderlyRun(t, [b, c, d, e, f]);
  }
}
