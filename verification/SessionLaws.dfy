/** When a session can be had and what the locks are afterwards, and that a switch which nothing stops goes through. */
module SessionLaws {
  import opened SessionLocks
  import opened SessionHandoff

  /** Nobody keeps this process from the session: there is no lock, or it names a process that is gone, or it holds
      nothing readable and is a day old. A fresh lock keeps it away even when it cannot be read. */
  predicate Open(disk: Disk, live: set<int>, path: string) {
    var lock := path + ".lock";
    lock in disk ==> disk[lock] == Garbled(true) || (disk[lock].Names? && disk[lock].pid !in live)
  }

  /** The two disks are the same but for the lock of `path`. */
  ghost predicate SameBut(a: Disk, b: Disk, path: string) {
    forall lock :: lock != path + ".lock" ==> (lock in a <==> lock in b) && (lock in a ==> a[lock] == b[lock])
  }

  /** And but for a second one, if there is one. */
  ghost predicate SameButTwo(a: Disk, b: Disk, path: string, other: string) {
    forall lock :: lock != path + ".lock" && (other == "" || lock != other + ".lock") ==>
                     (lock in a <==> lock in b) && (lock in a ==> a[lock] == b[lock])
  }

  /** A reservation succeeds exactly for a session of one's own and one that is open. It puts the process's name on the
      session, and takes the lock of an earlier reservation away; a refused one changes nothing. */
  lemma ReserveExact(disk: Disk, live: set<int>, pid: int, h: Held, path: string)
    ensures
      var r := Reserve(disk, live, pid, h, path);
      var own := path == h.claimed || path == h.reserved;
      && (r.ok <==> path != "" && (own || Open(disk, live, path)))
      && (!r.ok || own ==> r.disk == disk && r.held == h)
      && (r.ok && !own ==>
            && r.held == Held(h.claimed, path)
            && path + ".lock" in r.disk && r.disk[path + ".lock"] == Names(pid)
            && (h.reserved != "" ==> h.reserved + ".lock" !in r.disk)
            && SameButTwo(disk, r.disk, path, h.reserved))
  {
    if h.reserved != "" && path != h.reserved && LockOf(h.reserved) == LockOf(path) {
      LockOfInjective(h.reserved, path);
    }
  }

  /** A claim follows a reservation only. It takes the lock of the session claimed before away, and no other. */
  lemma CommitExact(disk: Disk, h: Held, path: string)
    requires h.claimed != "" ==> h.claimed != h.reserved
    ensures
      var r := Commit(disk, h, path);
      && (r.ok <==> path == h.claimed || (path == h.reserved && path != ""))
      && (!r.ok || path == h.claimed ==> r.disk == disk && r.held == h)
      && (r.ok && path != h.claimed ==>
            && r.held == Held(path, "")
            && (path + ".lock" in disk <==> path + ".lock" in r.disk)
            && (h.claimed != "" ==> h.claimed + ".lock" !in r.disk && SameBut(disk, r.disk, h.claimed))
            && (h.claimed == "" ==> r.disk == disk))
  {
    if h.claimed != "" && path != h.claimed && LockOf(h.claimed) == LockOf(path) {
      LockOfInjective(h.claimed, path);
    }
  }

  /** A reservation that is given up goes with its lock; another one stays. */
  lemma CancelExact(disk: Disk, h: Held, path: string)
    ensures
      var r := Cancel(disk, h, path);
      && (path != "" && path != h.reserved ==> r.disk == disk && r.held == h)
      && (path == "" || path == h.reserved ==>
            && r.held == Held(h.claimed, "")
            && (h.reserved != "" ==> h.reserved + ".lock" !in r.disk && SameBut(disk, r.disk, h.reserved))
            && (h.reserved == "" ==> r.disk == disk))
  {
  }

  /** At the end both locks go and no other. */
  lemma ReleaseExact(disk: Disk, h: Held)
    ensures
      var r := Release(disk, h);
      && r.held == Held("", "")
      && (forall lock :: lock in r.disk <==>
            lock in disk && (h.claimed == "" || lock != h.claimed + ".lock")
            && (h.reserved == "" || lock != h.reserved + ".lock"))
      && (forall lock :: lock in r.disk ==> r.disk[lock] == disk[lock])
  {
  }

  /** A look at a session, operation by operation, is the look as one step: it removes a lock that keeps nobody away. */
  lemma LookAsOneStep(s: Sys, pid: int, path: string)
    requires Ready(s, pid)
    ensures
      var own := path == "" || path == s.procs[pid].held.claimed || path == s.procs[pid].held.reserved;
      var gone := !own && path + ".lock" in s.disk && Open(s.disk, LivePids(s), path);
      var steps := if own then [Peek(pid, path)]
                   else if gone then [Peek(pid, path), Inspect(pid), Unlink(pid)]
                   else [Peek(pid, path), Inspect(pid)];
      && OrderlyRun(s, steps)
      && After(s, steps) == Moved(s, Glance(pid, path))
      && Moved(s, Glance(pid, path)) == if gone then Sys(s.disk - {path + ".lock"}, s.procs) else s
  {
    var p := s.procs[pid];
    if path == "" || path == p.held.claimed || path == p.held.reserved {
      RunOfOne(s, Peek(pid, path));
    } else {
      var s1 := Next(s, Peek(pid, path));
      assert LivePids(s1) == LivePids(s);
      var s2 := Next(s1, Inspect(pid));
      if Stale(s.disk, LivePids(s), LockOf(path)) {
        RunOfThree(s, Peek(pid, path), Inspect(pid), Unlink(pid));
        assert Next(s2, Unlink(pid)).procs == s.procs;
      } else {
        RunOfTwo(s, Peek(pid, path), Inspect(pid));
        assert s2.procs == s.procs;
      }
    }
  }

  lemma RunOfOne(s: Sys, a: Step)
    requires Enabled(s, a) && Harmless(s, a)
    ensures OrderlyRun(s, [a]) && After(s, [a]) == Next(s, a)
  {
    hide Enabled, Harmless, Next;
    assert [a][1..] == [];
    assert OrderlyRun(Next(s, a), []);
  }

  lemma RunOfThree(s: Sys, a: Step, b: Step, c: Step)
    requires Enabled(s, a) && Harmless(s, a) && Enabled(Next(s, a), b) && Harmless(Next(s, a), b)
    requires Enabled(Next(Next(s, a), b), c) && Harmless(Next(Next(s, a), b), c)
    ensures OrderlyRun(s, [a, b, c]) && After(s, [a, b, c]) == Next(Next(Next(s, a), b), c)
  {
    hide Enabled, Harmless, Next;
    RunOfTwo(Next(s, a), b, c);
    assert [a, b, c][1..] == [b, c];
  }

  /** A switch to a session that cannot be had is nothing. One that the core takes ends with the core writing that
      session and the process holding it and nothing else; one that the core cannot carry out, or does not take, ends
      as it began, but for an earlier reservation. */
  lemma SwitchGoesThrough(s: Handoff, path: string, free: bool, ok: bool)
    requires Good(s) && Settled(s) && path != ""
    ensures
      var had := path == s.held.claimed || path == s.held.reserved || free;
      var back := Held(s.held.claimed, if path == s.held.claimed then s.held.reserved else "");
      var taken := if path == s.held.claimed then s.held else Held(path, "");
      var acts := [Switch(path, free, true), Take(ok), Receive];
      && (!had ==> Do(s, Switch(path, free, true)) == Do(s, Switch(path, free, false)) == s)
      && (had ==> Do(s, Switch(path, free, false)) == s.(held := back))
      && (had ==> PossibleRun(s, acts)
                  && DoAll(s, acts) == if !ok then s.(held := back) else Handoff(taken, path, [], []))
  {
    var t := Do(s, Switch(path, free, true));
    if path == s.held.claimed || path == s.held.reserved || free {
      assert t.commands == [path];
      var u := Do(t, Take(ok));
      assert u.events == [if ok then Changed(path) else Failed(path)];
      RunThree(s, Switch(path, free, true), Take(ok), Receive);
    }
  }

  /** A restart goes back to the claimed session, whatever was on its way. */
  lemma RestartSettles(s: Handoff)
    requires Good(s)
    ensures Do(s, Restart).writing == s.held.claimed && Settled(Do(s, Restart)) && Do(s, Restart).held == s.held
  {
  }
}
