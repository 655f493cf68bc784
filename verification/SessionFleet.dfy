/** Any number of processes, each with its core: the lock files of SessionLocks.dfy under the switches of
    SessionHandoff.dfy. */
module SessionFleet {
  import opened SessionLocks
  import opened SessionHandoff

  /** `cores` has the processes that have opened a session, each with its core and the messages between the two. */
  datatype Fleet = Fleet(sys: Sys, cores: map<int, Handoff>)

  datatype Deed =
    | Appear(pid: int)               // a process starts
    | Open(pid: int, path: string, other: string)  // it claims its latest session, or else a new one, and starts a core
    | Look(pid: int, path: string)   // it lists a session, and removes a stale lock
    | Perform(pid: int, act: Act)    // it, or its core, goes on with a switch
    | Die(pid: int)                  // it crashes, its core with it
    | Leave(pid: int)                // it releases its sessions; its core is gone

  /** The lock of this session can be had. */
  predicate Free(s: Sys, path: string) {
    LockOf(path) !in s.disk || Stale(s.disk, LivePids(s), LockOf(path))
  }

  predicate CanDo(f: Fleet, d: Deed) {
    match d
    case Appear(pid) => pid !in f.cores && Allowed(f.sys, Other(Start(pid)))
    case Open(pid, path, other) =>
      pid !in f.cores && Ready(f.sys, pid) && f.sys.procs[pid].held == Held("", "") && path != "" && other != ""
    case Look(pid, _) => Ready(f.sys, pid)
    case Perform(pid, act) =>
      && pid in f.cores && Ready(f.sys, pid) && Possible(f.cores[pid], act)
      && (act.Switch? ==> act.free == Free(f.sys, act.path))
    case Die(pid) => Allowed(f.sys, Other(Crash(pid)))
    case Leave(pid) => Ready(f.sys, pid)
  }

  /** claimSession: reserve and commit. */
  function Claimed(s: Sys, pid: int, path: string): (t: Sys)
    requires Ready(s, pid)
    ensures Ready(t, pid)
  {
    var t := Moved(s, Grab(pid, path));
    if Reserve(s.disk, LivePids(s), pid, s.procs[pid].held, path).ok then Moved(t, Other(Confirm(pid, path))) else t
  }

  /** claimInitialSession. */
  function FirstClaimed(s: Sys, pid: int, path: string, other: string): (t: Sys)
    requires Ready(s, pid)
    ensures Ready(t, pid)
  {
    var t := Claimed(s, pid, path);
    if t.procs[pid].held.claimed != "" then t else Claimed(t, pid, other)
  }

  /** The first core writes the claimed session; if there is none, the latest one all the same. */
  function FirstCore(h: Held, path: string): Handoff {
    Handoff(h, if h.claimed != "" then h.claimed else path, [], [])
  }

  /** What an act of a process does to the lock files. */
  function Locking(s: Sys, pid: int, h: Handoff, act: Act): Sys
    requires Ready(s, pid) && Possible(h, act)
  {
    match act
    case Switch(path, _, accepted) =>
      var t := Moved(s, Grab(pid, path));
      if accepted || !Reserve(s.disk, LivePids(s), pid, s.procs[pid].held, path).ok then t
      else Moved(t, Other(Abandon(pid, path)))
    case Receive =>
      (match h.events[0]
       case Changed(path) => Moved(s, Other(Confirm(pid, path)))
       case Failed(path) => Moved(s, Other(Abandon(pid, path))))
    case _ => s
  }

  function Does(f: Fleet, d: Deed): Fleet
    requires CanDo(f, d)
  {
    match d
    case Appear(pid) => f.(sys := Moved(f.sys, Other(Start(pid))))
    case Open(pid, path, other) =>
      var t := FirstClaimed(f.sys, pid, path, other);
      Fleet(t, f.cores[pid := FirstCore(t.procs[pid].held, path)])
    case Look(pid, path) => f.(sys := Moved(f.sys, Glance(pid, path)))
    case Perform(pid, act) =>
      Fleet(Locking(f.sys, pid, f.cores[pid], act), f.cores[pid := Do(f.cores[pid], act)])
    case Die(pid) => Fleet(Moved(f.sys, Other(Crash(pid))), f.cores - {pid})
    case Leave(pid) => Fleet(Moved(f.sys, Other(Quit(pid))), f.cores - {pid})
  }

  /** A core belongs to a live process, and both agree on what is held. */
  predicate Agrees(f: Fleet, pid: int) {
    pid in f.cores ==> Ready(f.sys, pid) && f.cores[pid].held == f.sys.procs[pid].held && Good(f.cores[pid])
  }

  ghost predicate Sound(f: Fleet) {
    Owned(f.sys) && forall pid :: Agrees(f, pid)
  }

  /** No process asks for a switch while another of its own is on its way, and a new one gets one of the two sessions
      that it tries to claim. */
  predicate Careful(f: Fleet, d: Deed) {
    && (d.Perform? && d.pid in f.cores ==> OneAtATime(f.cores[d.pid], d.act))
    && (d.Open? ==> Free(f.sys, d.path) || Free(f.sys, d.other))
  }

  /** A reservation of a process at rest, as the process sees it. */
  lemma GrabHeld(s: Sys, pid: int, path: string)
    requires Ready(s, pid)
    ensures
      var t, h := Moved(s, Grab(pid, path)), s.procs[pid].held;
      && Ready(t, pid)
      && (t.procs[pid].held, Reserve(s.disk, LivePids(s), pid, h, path).ok) == HeldReserve(h, path, Free(s, path))
      && t.procs.Keys == s.procs.Keys && forall p :: p in s.procs && p != pid ==> t.procs[p] == s.procs[p]
  {
    hide Stale;
  }

  lemma ConfirmHeld(s: Sys, pid: int, path: string)
    requires Ready(s, pid)
    ensures
      var t, h := Moved(s, Other(Confirm(pid, path))), s.procs[pid].held;
      && Ready(t, pid) && t.procs[pid].held == HeldCommit(h, path)
      && t.procs.Keys == s.procs.Keys && forall p :: p in s.procs && p != pid ==> t.procs[p] == s.procs[p]
  {
  }

  lemma AbandonHeld(s: Sys, pid: int, path: string)
    requires Ready(s, pid)
    ensures
      var t, h := Moved(s, Other(Abandon(pid, path))), s.procs[pid].held;
      && Ready(t, pid) && t.procs[pid].held == HeldCancel(h, path)
      && t.procs.Keys == s.procs.Keys && forall p :: p in s.procs && p != pid ==> t.procs[p] == s.procs[p]
  {
  }

  /** An act leaves process and core in agreement, and every other process alone. */
  lemma LockingHeld(s: Sys, pid: int, h: Handoff, act: Act)
    requires Owned(s) && Ready(s, pid) && h.held == s.procs[pid].held && Possible(h, act)
    requires act.Switch? ==> act.free == Free(s, act.path)
    ensures
      var t := Locking(s, pid, h, act);
      && Owned(t) && Ready(t, pid) && t.procs[pid].held == Do(h, act).held
      && t.procs.Keys == s.procs.Keys && forall p :: p in s.procs && p != pid ==> t.procs[p] == s.procs[p]
  {
    hide Owned, Moved, Reserve, Free, HeldCommit, HeldCancel;
    match act {
      case Switch(path, _, accepted) =>
        var t := Moved(s, Grab(pid, path));
        GrabHeld(s, pid, path);
        MoveKeepsOwnership(s, Grab(pid, path));
        if !accepted && Reserve(s.disk, LivePids(s), pid, s.procs[pid].held, path).ok {
          AbandonHeld(t, pid, path);
          MoveKeepsOwnership(t, Other(Abandon(pid, path)));
        }
      case Receive =>
        if h.events[0].Changed? {
          ConfirmHeld(s, pid, h.events[0].path);
          MoveKeepsOwnership(s, Other(Confirm(pid, h.events[0].path)));
        } else {
          AbandonHeld(s, pid, h.events[0].path);
          MoveKeepsOwnership(s, Other(Abandon(pid, h.events[0].path)));
        }
      case _ =>
    }
  }

  lemma ClaimedHeld(s: Sys, pid: int, path: string)
    requires Owned(s) && Ready(s, pid) && s.procs[pid].held == Held("", "")
    ensures
      var t := Claimed(s, pid, path);
      && Owned(t) && Ready(t, pid)
      && t.procs[pid].held == (if path != "" && Free(s, path) then Held(path, "") else Held("", ""))
      && t.procs.Keys == s.procs.Keys && forall p :: p in s.procs && p != pid ==> t.procs[p] == s.procs[p]
  {
    hide Owned, Moved, Reserve, Free;
    var t := Moved(s, Grab(pid, path));
    GrabHeld(s, pid, path);
    MoveKeepsOwnership(s, Grab(pid, path));
    if Reserve(s.disk, LivePids(s), pid, s.procs[pid].held, path).ok {
      ConfirmHeld(t, pid, path);
      MoveKeepsOwnership(t, Other(Confirm(pid, path)));
    }
  }

  lemma FirstClaimedHeld(s: Sys, pid: int, path: string, other: string)
    requires Owned(s) && Ready(s, pid) && s.procs[pid].held == Held("", "") && path != "" && other != ""
    ensures
      var t := FirstClaimed(s, pid, path, other);
      && Owned(t)
      && t.procs[pid].held ==
         Held(if Free(s, path) then path else if Free(s, other) then other else "", "")
      && t.procs.Keys == s.procs.Keys && forall p :: p in s.procs && p != pid ==> t.procs[p] == s.procs[p]
  {
    hide Owned, Claimed, Free;
    ClaimedHeld(s, pid, path);
    if !Free(s, path) {
      RefusedClaim(s, pid, path);
      ClaimedHeld(s, pid, other);
    }
  }

  lemma RefusedClaim(s: Sys, pid: int, path: string)
    requires Ready(s, pid) && s.procs[pid].held == Held("", "") && path != "" && !Free(s, path)
    ensures Claimed(s, pid, path) == s
  {
    hide Stale;
    SetSame(s, pid);
  }

  /** Moves that do not concern the cores of other processes. */
  lemma OthersAgree(f: Fleet, g: Fleet, pid: int)
    requires Sound(f) && Owned(g.sys) && g.cores - {pid} == f.cores - {pid}
    requires forall p :: p in f.sys.procs && p != pid ==> p in g.sys.procs && g.sys.procs[p] == f.sys.procs[p]
    requires Agrees(g, pid)
    ensures Sound(g)
  {
    hide Owned, Good;
    forall p
      ensures Agrees(g, p)
    {
      if p != pid && p in g.cores {
        assert p in g.cores - {pid} && p in f.cores - {pid} && (g.cores - {pid})[p] == (f.cores - {pid})[p];
        assert Agrees(f, p);
      }
    }
  }

  lemma DeedKeepsSound(f: Fleet, d: Deed)
    requires Sound(f) && CanDo(f, d) && Careful(f, d)
    ensures Sound(Does(f, d))
  {
    hide Owned, Locking, FirstClaimed, Do, Good, Free, Possible;
    var g := Does(f, d);
    assert Agrees(f, d.pid);
    match d {
      case Appear(pid) => MoveKeepsOwnership(f.sys, Other(Start(pid)));
      case Open(pid, path, other) =>
        FirstClaimedHeld(f.sys, pid, path, other);
        FirstIsGood(g.cores[pid]);
      case Look(pid, path) => MoveKeepsOwnership(f.sys, Glance(pid, path));
      case Perform(pid, act) =>
        LockingHeld(f.sys, pid, f.cores[pid], act);
        StepKeepsGood(f.cores[pid], act);
      case Die(pid) => MoveKeepsOwnership(f.sys, Other(Crash(pid)));
      case Leave(pid) => MoveKeepsOwnership(f.sys, Other(Quit(pid)));
    }
    OthersAgree(f, g, d.pid);
  }

  lemma FirstIsGood(h: Handoff)
    requires h.held.reserved == "" && h.writing != "" && h.commands == [] && h.events == []
    ensures Good(h) <==> h.held.claimed == h.writing
  {
  }

  /** The start of a process is sound exactly when it gets one of the two sessions: otherwise its core writes the latest
      one without its lock. */
  lemma OpenExact(f: Fleet, pid: int, path: string, other: string)
    requires Sound(f) && CanDo(f, Open(pid, path, other))
    ensures Sound(Does(f, Open(pid, path, other))) <==> Free(f.sys, path) || Free(f.sys, other)
    ensures !Free(f.sys, path) && !Free(f.sys, other) ==> Does(f, Open(pid, path, other)).cores[pid].writing == path
  {
    hide Owned, FirstClaimed, Good, Free;
    var d := Open(pid, path, other);
    FirstClaimedHeld(f.sys, pid, path, other);
    if Free(f.sys, path) || Free(f.sys, other) {
      DeedKeepsSound(f, d);
    } else {
      FirstIsGood(Does(f, d).cores[pid]);
      assert !Agrees(Does(f, d), pid);
    }
  }

  ghost predicate CarefulDeeds(f: Fleet, deeds: seq<Deed>)
    decreases |deeds|
  {
    deeds != [] ==> CanDo(f, deeds[0]) && Careful(f, deeds[0]) && CarefulDeeds(Does(f, deeds[0]), deeds[1..])
  }

  ghost function DoesAll(f: Fleet, deeds: seq<Deed>): Fleet
    requires CarefulDeeds(f, deeds)
    decreases |deeds|
  {
    if deeds == [] then f else DoesAll(Does(f, deeds[0]), deeds[1..])
  }

  /** No two cores write one session file, and nobody but its own process holds the lock of a file that is written. */
  lemma WrittenByOne(f: Fleet, p: int, q: int)
    requires Sound(f) && p in f.cores
    ensures q in f.cores && f.cores[q].writing == f.cores[p].writing ==> p == q
    ensures Holds(f.sys, q, f.cores[p].writing) ==> p == q
  {
    assert Agrees(f, p) && Agrees(f, q);
    assert Holds(f.sys, p, f.cores[p].writing);
    hide Owned;
    if Holds(f.sys, q, f.cores[p].writing) {
      HeldByOne(f.sys, p, q, f.cores[p].writing);
    }
  }

  /** Over whole runs of any number of processes, whatever fails, crashes or is refused, and however they interleave:
      no two cores write one session file. Takeovers are one step each, no process asks for two switches at once, and
      each gets a session to begin with. */
  lemma {:induction false} FilesHaveOneWriter(f: Fleet, deeds: seq<Deed>)
    requires Sound(f) && CarefulDeeds(f, deeds)
    ensures Sound(DoesAll(f, deeds))
    ensures
      var g := DoesAll(f, deeds);
      forall p, q :: p in g.cores && q in g.cores && g.cores[p].writing == g.cores[q].writing ==> p == q
    decreases |deeds|
  {
    hide Sound, CanDo, Does, Careful;
    if deeds != [] {
      DeedKeepsSound(f, deeds[0]);
      FilesHaveOneWriter(Does(f, deeds[0]), deeds[1..]);
    } else {
      forall p, q | p in f.cores && q in f.cores && f.cores[p].writing == f.cores[q].writing
        ensures p == q
      {
        WrittenByOne(f, p, q);
      }
    }
  }

  /** A machine on which nothing has happened yet is sound, whatever lock files lie about. */
  lemma EmptyIsSound(disk: Disk)
    ensures Sound(Fleet(Sys(disk, map[]), map[]))
  {
  }
}
