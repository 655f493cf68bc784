/** Switching sessions: one process, its core, and the messages between them (tui/handlers.go, tui/modal.go). A
    session is locked by the process when it is claimed or reserved; what other processes can do to it is the matter
    of SessionLocks.dfy. */
module SessionHandoff {
  import opened SessionLocks

  /** What the core answers to a switch. */
  datatype Event = Changed(path: string) | Failed(path: string)

  /** `writing` is the file the core appends to; commands and events are in transit. */
  datatype Handoff = Handoff(held: Held, writing: string, commands: seq<string>, events: seq<Event>)

  datatype Act =
    | Switch(path: string, free: bool, accepted: bool)  // /new or the session picker; `free`: the lock can be had,
                                                        // `accepted`: the core takes the command
    | Take(ok: bool)  // the core carries out the oldest command, or cannot
    | Receive         // the oldest event arrives
    | Restart         // the core dies; a new one is started on the claimed session

  /** reserveSession as far as this process sees it. */
  function HeldReserve(h: Held, path: string, free: bool): (Held, bool) {
    if path == "" then (h, false)
    else if path == h.claimed || path == h.reserved then (h, true)
    else if free then (h.(reserved := path), true)
    else (h, false)
  }

  function HeldCommit(h: Held, path: string): Held {
    if path != h.claimed && path == h.reserved && path != "" then Held(path, "") else h
  }

  function HeldCancel(h: Held, path: string): Held {
    if path != "" && path != h.reserved then h else h.(reserved := "")
  }

  /** The three are what the functions on lock files do to the variables. */
  lemma HeldIsWhatLocksLeave(disk: Disk, live: set<int>, pid: int, h: Held, path: string)
    ensures
      var r := Reserve(disk, live, pid, h, path);
      HeldReserve(h, path, LockOf(path) !in disk || Stale(disk, live, LockOf(path))) == (r.held, r.ok)
    ensures HeldCommit(h, path) == Commit(disk, h, path).held
    ensures HeldCancel(h, path) == Cancel(disk, h, path).held
  {
  }

  predicate Possible(s: Handoff, a: Act) {
    match a
    case Take(_) => s.commands != []
    case Receive => s.events != []
    case _ => true
  }

  function Do(s: Handoff, a: Act): Handoff
    requires Possible(s, a)
  {
    match a
    case Switch(path, free, accepted) =>
      var (h, ok) := HeldReserve(s.held, path, free);
      if !ok then s
      else if !accepted then s.(held := HeldCancel(h, path))
      else s.(held := h, commands := s.commands + [path])
    case Take(ok) =>
      var path := s.commands[0];
      if ok then s.(writing := path, commands := s.commands[1..], events := s.events + [Changed(path)])
      else s.(commands := s.commands[1..], events := s.events + [Failed(path)])
    case Receive =>
      var h := match s.events[0]
               case Changed(path) => HeldCommit(s.held, path)
               case Failed(path) => HeldCancel(s.held, path);
      s.(held := h, events := s.events[1..])
    case Restart => s.(writing := s.held.claimed, commands := [], events := [])
  }

  predicate Locked(h: Held, path: string) {
    path != "" && (path == h.claimed || path == h.reserved)
  }

  predicate Settled(s: Handoff) {
    s.commands == [] && s.events == []
  }

  /** At most one switch is on its way, and it fits what is held. */
  predicate Good(s: Handoff) {
    && s.held.claimed != "" && s.held.claimed != s.held.reserved
    && |s.commands| + |s.events| <= 1
    && (s.commands != [] ==> Locked(s.held, s.commands[0]))
    && (s.events != [] && s.events[0].Changed? ==> Locked(s.held, s.events[0].path))
    && (s.events != [] && s.events[0].Failed? ==> s.events[0].path != "")
    && s.writing == if s.events != [] && s.events[0].Changed? then s.events[0].path else s.held.claimed
  }

  /** No switch is asked for while another is on its way. */
  predicate OneAtATime(s: Handoff, a: Act) {
    a.Switch? ==> Settled(s)
  }

  lemma StepKeepsGood(s: Handoff, a: Act)
    requires Good(s) && Possible(s, a) && OneAtATime(s, a)
    ensures Good(Do(s, a)) && Locked(Do(s, a).held, Do(s, a).writing)
    ensures Do(s, a).held.claimed != s.held.claimed ==> a.Receive? && s.events[0].Changed?
    ensures a.Receive? && s.events[0].Failed? ==>
              Do(s, a).writing == s.writing && Do(s, a).held.claimed == s.held.claimed
  {
  }

  ghost predicate PatientRun(s: Handoff, acts: seq<Act>)
    decreases |acts|
  {
    acts != [] ==> Possible(s, acts[0]) && OneAtATime(s, acts[0]) && PatientRun(Do(s, acts[0]), acts[1..])
  }

  predicate PossibleRun(s: Handoff, acts: seq<Act>)
    decreases |acts|
  {
    acts != [] ==> Possible(s, acts[0]) && PossibleRun(Do(s, acts[0]), acts[1..])
  }

  function DoAll(s: Handoff, acts: seq<Act>): Handoff
    requires PossibleRun(s, acts)
    decreases |acts|
  {
    if acts == [] then s else DoAll(Do(s, acts[0]), acts[1..])
  }

  /** Over whole runs with one switch at a time, whatever fails, crashes or is refused, the file the core writes is
      locked by this process. */
  lemma {:induction false} WritingStaysLocked(s: Handoff, acts: seq<Act>)
    requires Good(s) && PatientRun(s, acts)
    ensures PossibleRun(s, acts) && Good(DoAll(s, acts)) && Locked(DoAll(s, acts).held, DoAll(s, acts).writing)
    decreases |acts|
  {
    hide Do, Possible;
    if acts != [] {
      StepKeepsGood(s, acts[0]);
      WritingStaysLocked(Do(s, acts[0]), acts[1..]);
    }
  }

  // ---------------------------------------------------------------- a second switch

  /** No further switch is asked for. */
  predicate Calm(acts: seq<Act>) {
    forall i :: 0 <= i < |acts| ==> !acts[i].Switch?
  }

  /** From here the core can come to write a file that this process has unlocked, with nothing more asked of it. */
  ghost predicate CanEndUnlocked(s: Handoff) {
    exists acts :: Calm(acts) && PossibleRun(s, acts) && !Locked(DoAll(s, acts).held, DoAll(s, acts).writing)
  }

  /** A second switch to `path` is risky while the switch on its way is to a file b that is not the claimed one, and
      - the core has yet to answer; or
      - the answer "changed" is in transit, and `path` is not b; or
      - the answer "failed" is in transit, and `path` is b. */
  predicate Risky(s: Handoff, path: string) {
    || (s.commands != [] && s.commands[0] != s.held.claimed)
    || (s.events != [] && s.events[0].Changed? && s.events[0].path != s.held.claimed && path != s.events[0].path)
    || (s.events != [] && s.events[0].Failed? && s.events[0].path != s.held.claimed && path == s.events[0].path)
  }

  /** What is still to be received, in order: the answers in transit, then the commands that the core has to answer. */
  datatype Item = Answer(event: Event) | Ask(path: string)

  function Items(events: seq<Event>, commands: seq<string>): (r: seq<Item>)
    ensures |r| == |events| + |commands|
  {
    seq(|events| + |commands|, i requires 0 <= i < |events| + |commands| =>
      if i < |events| then Answer(events[i]) else Ask(commands[i - |events|]))
  }

  /** However the core answers, each file it changes to is held when its answer arrives. */
  predicate Covered(h: Held, items: seq<Item>)
    decreases |items|
  {
    items == [] ||
    match items[0]
    case Answer(Changed(q)) => Locked(h, q) && Covered(HeldCommit(h, q), items[1..])
    case Answer(Failed(q)) => q != "" && Covered(HeldCancel(h, q), items[1..])
    case Ask(q) => Locked(h, q) && Covered(HeldCommit(h, q), items[1..]) && Covered(HeldCancel(h, q), items[1..])
  }

  /** The file the core writes: that of its last change, the claimed one if none is in transit. */
  function Written(claimed: string, events: seq<Event>): string {
    if events == [] then claimed
    else
      var e := events[|events| - 1];
      if e.Changed? then e.path else Written(claimed, events[..|events| - 1])
  }

  predicate Steady(s: Handoff) {
    && s.held.claimed != "" && s.held.claimed != s.held.reserved
    && s.writing == Written(s.held.claimed, s.events)
    && Covered(s.held, Items(s.events, s.commands))
  }

  /** What is held only shrinks. */
  lemma Shrinks(h: Held, q: string, path: string)
    requires h.claimed != "" && h.claimed != h.reserved
    ensures Locked(HeldCommit(h, q), path) ==> Locked(h, path)
    ensures q != "" && Locked(HeldCancel(h, q), path) ==> Locked(h, path)
    ensures HeldCommit(h, q).claimed != "" && HeldCommit(h, q).claimed != HeldCommit(h, q).reserved
    ensures q != "" ==> HeldCancel(h, q).claimed == h.claimed && HeldCancel(h, q).claimed != HeldCancel(h, q).reserved
    ensures Locked(h, q) ==> HeldCommit(h, q).claimed == q
  {
  }

  /** Every change in the list is to a file held now. */
  lemma {:induction false} CoveredNow(h: Held, items: seq<Item>, i: nat)
    requires h.claimed != "" && h.claimed != h.reserved && Covered(h, items) && i < |items|
    ensures items[i].Ask? ==> Locked(h, items[i].path)
    ensures items[i].Answer? && items[i].event.Changed? ==> Locked(h, items[i].event.path)
    decreases |items|
  {
    if i > 0 {
      match items[0] {
        case Answer(Changed(q)) =>
          CoveredNow(HeldCommit(h, q), items[1..], i - 1);
          Shrinks(h, q, if items[i].Ask? then items[i].path else items[i].event.path);
        case Answer(Failed(q)) =>
          CoveredNow(HeldCancel(h, q), items[1..], i - 1);
          Shrinks(h, q, if items[i].Ask? then items[i].path else items[i].event.path);
        case Ask(q) =>
          CoveredNow(HeldCommit(h, q), items[1..], i - 1);
          Shrinks(h, q, if items[i].Ask? then items[i].path else items[i].event.path);
      }
    }
  }

  /** An answered command is covered where the command was. */
  lemma {:induction false} AnsweredCovered(h: Held, items: seq<Item>, i: nat, e: Event)
    requires Covered(h, items) && i < |items| && items[i].Ask? && e.path == items[i].path
    ensures Covered(h, items[i := Answer(e)])
    decreases |items|
  {
    var items' := items[i := Answer(e)];
    if i == 0 {
      assert items'[1..] == items[1..];
    } else {
      assert items'[1..] == items[1..][i - 1 := Answer(e)];
      match items[0] {
        case Answer(Changed(q)) => AnsweredCovered(HeldCommit(h, q), items[1..], i - 1, e);
        case Answer(Failed(q)) => AnsweredCovered(HeldCancel(h, q), items[1..], i - 1, e);
        case Ask(q) =>
          AnsweredCovered(HeldCommit(h, q), items[1..], i - 1, e);
          AnsweredCovered(HeldCancel(h, q), items[1..], i - 1, e);
      }
    }
  }

  lemma {:induction false} WrittenIsLocked(h: Held, events: seq<Event>, commands: seq<string>)
    requires h.claimed != "" && h.claimed != h.reserved && Covered(h, Items(events, commands))
    ensures Locked(h, Written(h.claimed, events))
  {
    WrittenIsSome(h.claimed, events);
    forall i | 0 <= i < |events| && events[i].Changed?
      ensures Locked(h, events[i].path)
    {
      CoveredNow(h, Items(events, commands), i);
    }
  }

  lemma {:induction false} WrittenIsSome(claimed: string, events: seq<Event>)
    ensures Written(claimed, events) == claimed
         || exists i :: 0 <= i < |events| && events[i].Changed? && events[i].path == Written(claimed, events)
    decreases |events|
  {
    if events != [] && !events[|events| - 1].Changed? {
      WrittenIsSome(claimed, events[..|events| - 1]);
    }
  }

  /** Receiving the first event leaves the written file. */
  lemma {:induction false} WrittenAfter(c: string, c': string, events: seq<Event>)
    requires events != [] && c' == (if events[0].Changed? then events[0].path else c)
    ensures Written(c', events[1..]) == Written(c, events)
    decreases |events|
  {
    if |events| > 1 {
      assert events[1..][|events| - 2] == events[|events| - 1];
      assert events[1..][..|events| - 2] == events[..|events| - 1][1..];
      if !events[|events| - 1].Changed? {
        WrittenAfter(c, c', events[..|events| - 1]);
      }
    }
  }

  lemma TakeKeepsSteady(s: Handoff, ok: bool)
    requires Steady(s) && s.commands != []
    ensures Steady(Do(s, Take(ok)))
  {
    hide Covered, Locked;
    var t, path := Do(s, Take(ok)), s.commands[0];
    var e := if ok then Changed(path) else Failed(path);
    var items := Items(s.events, s.commands);
    assert items[|s.events|] == Ask(path);
    AnsweredCovered(s.held, items, |s.events|, e);
    assert t.events == s.events + [e];
    assert Items(t.events, t.commands) == items[|s.events| := Answer(e)];
    assert t.events[..|s.events|] == s.events;
  }

  lemma ReceiveKeepsSteady(s: Handoff)
    requires Steady(s) && s.events != []
    ensures Steady(Do(s, Receive))
  {
    var items := Items(s.events, s.commands);
    assert items[0] == Answer(s.events[0]);
    assert items[1..] == Items(s.events[1..], s.commands);
    var path := s.events[0].path;
    Shrinks(s.held, path, path);
    WrittenAfter(s.held.claimed, Do(s, Receive).held.claimed, s.events);
  }

  lemma CalmKeepsSteady(s: Handoff, a: Act)
    requires Steady(s) && Possible(s, a) && !a.Switch?
    ensures Steady(Do(s, a)) && Locked(s.held, s.writing)
  {
    WrittenIsLocked(s.held, s.events, s.commands);
    match a {
      case Take(ok) => TakeKeepsSteady(s, ok);
      case Receive => ReceiveKeepsSteady(s);
      case Restart => assert Items([], []) == [];
    }
  }

  lemma {:induction false} SteadyStaysLocked(s: Handoff, acts: seq<Act>)
    requires Steady(s) && Calm(acts) && PossibleRun(s, acts)
    ensures Locked(DoAll(s, acts).held, DoAll(s, acts).writing)
    decreases |acts|
  {
    hide Steady, Do, Possible, Locked;
    if acts == [] {
      SteadyIsLocked(s);
    } else {
      assert !acts[0].Switch?;
      assert Calm(acts[1..]);
      CalmKeepsSteady(s, acts[0]);
      SteadyStaysLocked(Do(s, acts[0]), acts[1..]);
    }
  }

  lemma SteadyIsLocked(s: Handoff)
    requires Steady(s)
    ensures Locked(s.held, s.writing)
  {
    WrittenIsLocked(s.held, s.events, s.commands);
  }

  lemma CoveredAsk(h: Held, q: string)
    ensures Covered(h, [Ask(q)]) <==> Locked(h, q)
  {
    assert [Ask(q)][1..] == [];
  }

  lemma CoveredAnswerAsk(h: Held, e: Event, q: string)
    ensures
      Covered(h, [Answer(e), Ask(q)]) <==>
      if e.Changed? then Locked(h, e.path) && Locked(HeldCommit(h, e.path), q)
      else e.path != "" && Locked(HeldCancel(h, e.path), q)
  {
    hide Locked, HeldCommit, HeldCancel;
    var items := [Answer(e), Ask(q)];
    assert items[1..] == [Ask(q)];
    CoveredAsk(HeldCommit(h, e.path), q);
    CoveredAsk(HeldCancel(h, e.path), q);
  }

  lemma CoveredAskAsk(h: Held, b: string, q: string)
    ensures
      Covered(h, [Ask(b), Ask(q)]) <==> Locked(h, b) && Locked(HeldCommit(h, b), q) && Locked(HeldCancel(h, b), q)
  {
    hide Locked, HeldCommit, HeldCancel;
    var items := [Ask(b), Ask(q)];
    assert items[1..] == [Ask(q)];
    CoveredAsk(HeldCommit(h, b), q);
    CoveredAsk(HeldCancel(h, b), q);
  }

  lemma WrittenOne(claimed: string, events: seq<Event>)
    requires |events| == 1
    ensures Written(claimed, events) == if events[0].Changed? then events[0].path else claimed
  {
    assert events[..0] == [];
  }

  lemma SafeSwitchIsSteady(s: Handoff, path: string)
    requires Good(s) && path != "" && !Risky(s, path)
    ensures Steady(Do(s, Switch(path, true, true)))
  {
    hide Covered;
    var t := Do(s, Switch(path, true, true));
    var items := Items(t.events, t.commands);
    if s.commands != [] {
      assert items == [Ask(s.commands[0]), Ask(path)];
      CoveredAskAsk(t.held, s.commands[0], path);
    } else if s.events != [] {
      assert items == [Answer(s.events[0]), Ask(path)];
      CoveredAnswerAsk(t.held, s.events[0], path);
      WrittenOne(t.held.claimed, s.events);
    } else {
      assert items == [Ask(path)];
      CoveredAsk(t.held, path);
    }
  }

  /** How the core and the messages turn out badly for a risky second switch to `path`. */
  function Mishap(s: Handoff, path: string): seq<Act> {
    if s.commands != [] then
      if path == s.commands[0] then [Take(false), Receive, Take(true)]
      else if path == s.held.claimed then [Take(true), Take(true), Receive]
      else [Take(true)]
    else if s.events != [] && s.events[0].Changed? then
      if path == s.held.claimed then [Receive, Take(true)] else []
    else [Receive, Take(true)]
  }

  lemma RunNone(s: Handoff)
    ensures PossibleRun(s, []) && DoAll(s, []) == s
  {
  }

  lemma RunOne(s: Handoff, a: Act)
    requires Possible(s, a)
    ensures PossibleRun(s, [a]) && DoAll(s, [a]) == Do(s, a)
  {
    assert [a][1..] == [];
    RunNone(Do(s, a));
  }

  lemma RunTwo(s: Handoff, a: Act, b: Act)
    requires Possible(s, a) && Possible(Do(s, a), b)
    ensures PossibleRun(s, [a, b]) && DoAll(s, [a, b]) == Do(Do(s, a), b)
  {
    hide Do, Possible;
    RunOne(Do(s, a), b);
    assert [a, b][1..] == [b];
  }

  lemma RunThree(s: Handoff, a: Act, b: Act, c: Act)
    requires Possible(s, a) && Possible(Do(s, a), b) && Possible(Do(Do(s, a), b), c)
    ensures PossibleRun(s, [a, b, c]) && DoAll(s, [a, b, c]) == Do(Do(Do(s, a), b), c)
  {
    hide Do, Possible;
    RunTwo(Do(s, a), b, c);
    assert [a, b, c][1..] == [b, c];
  }

  lemma RiskyUnlocks(s: Handoff, path: string)
    requires Good(s) && path != "" && Risky(s, path)
    ensures
      var t := Do(s, Switch(path, true, true));
      && Calm(Mishap(s, path)) && PossibleRun(t, Mishap(s, path))
      && !Locked(DoAll(t, Mishap(s, path)).held, DoAll(t, Mishap(s, path)).writing)
  {
    var t := Do(s, Switch(path, true, true));
    RunNone(t);
    if s.commands != [] {
      var b := s.commands[0];
      assert t.commands == [b, path];
      if path == b {
        RunThree(t, Take(false), Receive, Take(true));
      } else if path == s.held.claimed {
        RunThree(t, Take(true), Take(true), Receive);
      } else {
        RunOne(t, Take(true));
      }
    } else if s.events[0].Failed? || path == s.held.claimed {
      assert t.commands == [path];
      RunTwo(t, Receive, Take(true));
    }
  }

  /** One switch at a time is what it takes, but for the cases that are not risky: a second switch that is accepted can
      end with the core writing a file that this process has unlocked exactly when it is risky. */
  lemma SecondSwitchCanUnlock(s: Handoff, path: string)
    requires Good(s) && path != ""
    ensures CanEndUnlocked(Do(s, Switch(path, true, true))) <==> Risky(s, path)
  {
    hide Steady, Do, Locked, Good;
    var t := Do(s, Switch(path, true, true));
    if Risky(s, path) {
      RiskyUnlocks(s, path);
    } else {
      SafeSwitchIsSteady(s, path);
      forall acts | Calm(acts) && PossibleRun(t, acts)
        ensures Locked(DoAll(t, acts).held, DoAll(t, acts).writing)
      {
        SteadyStaysLocked(t, acts);
      }
    }
  }
}
