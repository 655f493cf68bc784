/** The laws of a turn, field by field: what makes the session work, wait and quit, and what ends that, whatever the
    input. Over runs: every accepted message is taken up, cancelled, displaced, lost or still waits, and the footer
    never goes idle over a waiting message but in the ways named. */
module TurnLaws {
  import opened Options
  import opened Turns

  /** A goal is at work. */
  predicate AtWork(goal: Option<Goal>) {
    && goal.Some?
    && (|| goal.value.phase in {Planning, Reviewing, Deploying, Running, Synthesizing, Verifying, Replanning}
        || (goal.value.phase == PlanReady && goal.value.autoDeploy))
  }

  predicate Over(phase: Phase) {
    phase in {Finished, Broken, Phase.Cancelled}
  }

  /** The running core says something. */
  predicate Hears(t: Turn, i: Input) {
    i.FromCore? && i.gen == t.startGen
  }

  /** The running core ends, and that was not asked for by quitting. */
  predicate CoreGone(t: Turn, i: Input) {
    i == CoreEOF(t.startGen) && !t.quitting && t.life != Failed
  }

  /** The core that was started did not come up. */
  predicate NoStart(t: Turn, i: Input) {
    i == StartError(t.startGen) || (i == ReadyTimeout(t.startGen) && !t.coreReady)
  }

  predicate Again(t: Turn, i: Input) {
    i == ClickRetry || (i == Press(R) && t.life == Failed)
  }

  predicate WatchdogFires(t: Turn, i: Input) {
    i == AbortTimeout(t.abortGen) && t.busy
  }

  // ---------------------------------------------------------------- working

  /** A turn begins, or a goal is reported at work. */
  predicate Begins(t: Turn, i: Input) {
    || (i.Press? && t.life != Failed && i.key == Line(Begin(true)))
    || (i.Press? && t.life != Failed && i.key.SendKey? && i.key.accepted && !t.busy)
    || (Hears(t, i) && i.event.GoalState? && AtWork(i.event.snap))
  }

  /** What the core says ends the work. */
  predicate LetsGo(t: Turn, e: Event) {
    match e
    case Done => !t.queuedNext && !AtWork(t.goal)
    case Aborted => !t.queuedNext
    case Boundary => true
    case GoalState(snap) => snap == None || snap.value.phase == Idle || Over(snap.value.phase)
    case GoalPhase(to) => Over(to)
    case Error(_, coreDead) => !coreDead && !t.live && t.asking == {} && !t.queuedNext && !AtWork(t.goal)
    case _ => false
  }

  predicate Stops(t: Turn, i: Input) {
    || (Hears(t, i) && LetsGo(t, i.event))
    || CoreGone(t, i) || NoStart(t, i) || Again(t, i) || WatchdogFires(t, i)
  }

  lemma PhasesAre(p: Phase)
    ensures Live(p) <==> p in {Planning, Reviewing, Deploying, Running, Synthesizing, Verifying, Replanning}
    ensures Settled(p) <==> p in {Finished, Broken, Phase.Cancelled}
  {
  }

  lemma GoalsAre(t: Turn)
    ensures KeepsBusy(t) <==> AtWork(t.goal)
  {
    if t.goal.Some? {
      PhasesAre(t.goal.value.phase);
    }
  }

  lemma SnapWorks(t: Turn, snap: Option<Goal>)
    ensures
      OnGoalState(t, snap).busy <==>
      AtWork(snap) || (t.busy && !(snap == None || snap.value.phase == Idle || Over(snap.value.phase)))
  {
    GoalsAre(t.(goal := snap));
    if snap.Some? {
      PhasesAre(snap.value.phase);
    }
    hide Live;
  }

  // ---------------------------------------------------------------- waiting

  /** A message is accepted for the next turn: a steer at any time, a follow-up when nothing waits. */
  predicate Accepts(t: Turn, i: Input) {
    && i.Press? && t.life != Failed
    && (|| (i.key.SteerKey? && i.key.accepted && t.busy)
        || (i.key.Line? && i.key.command.SteerTurn? && i.key.command.accepted)
        || (i.key.SendKey? && i.key.accepted && t.busy && t.queued == None))
  }

  /** The message, with its own text. */
  function Message(i: Input): Queued
    requires i.Press? && (i.key.SteerKey? || i.key.SendKey? || (i.key.Line? && i.key.command.SteerTurn?))
  {
    if i.key.SteerKey? then Steer(i.key.text)
    else if i.key.SendKey? then FollowUp(i.key.text)
    else Steer(i.key.command.text)
  }

  /** The turn before it ends, and the message is taken up. */
  predicate TakesUp(t: Turn, i: Input) {
    Hears(t, i) && (i.event.Done? || i.event.Aborted?)
  }

  /** The user takes it back, or stops the turn. */
  predicate TakesBack(t: Turn, i: Input) {
    || i == ClickQueue
    || (i == Press(Quit) && t.busy && !t.quitArmed)
    || (i == Press(Close) && t.busy && t.life != Failed)
    || (i == Press(Line(StopTurn)) && t.life != Failed)
  }

  /** It is lost with the conversation or the core, or the core has it already. */
  predicate Loses(t: Turn, i: Input) {
    || (Hears(t, i) && (i.event.Boundary? || (i.event.Error? && i.event.alreadyQueued)))
    || CoreGone(t, i) || Again(t, i) || WatchdogFires(t, i)
  }

  // ---------------------------------------------------------------- every field

  function WorksNext(t: Turn, i: Input): bool {
    Begins(t, i) || (t.busy && !Stops(t, i))
  }

  function WaitsNext(t: Turn, i: Input): Option<Queued> {
    if Accepts(t, i) then Some(Message(i))
    else if TakesUp(t, i) || TakesBack(t, i) || Loses(t, i) then None
    else t.queued
  }

  function GoalNext(t: Turn, i: Input): Option<Goal> {
    if Hears(t, i) && i.event.GoalState? then
      if i.event.snap.Some? && i.event.snap.value.phase != Idle then i.event.snap else None
    else if Hears(t, i) && i.event.GoalPhase? && t.goal.Some? && i.event.to != Idle && i.event.to != Unknown then
      Some(t.goal.value.(phase := i.event.to))
    else t.goal
  }

  /** The core answers, the conversation changes, or the core is replaced or given up. */
  predicate Closes(t: Turn, i: Input) {
    (Hears(t, i) && (i.event.Done? || i.event.Aborted? || i.event.Boundary?)) || CoreGone(t, i) || Again(t, i)
  }

  function PromptsNext(t: Turn, i: Input): set<Prompt> {
    if Hears(t, i) && i.event.Asked? then t.asking + {i.event.prompt}
    else if i.Answered? then t.asking - {i.prompt}
    else if
      || Closes(t, i) || NoStart(t, i) || WatchdogFires(t, i)
      || (Hears(t, i) && i.event.Error? && t.busy && LetsGo(t, i.event))
    then {}
    else t.asking
  }

  /** A block streams until something else is logged. */
  function LiveNext(t: Turn, i: Input): bool {
    if Hears(t, i) && i.event.Streaming? then i.event.live
    else
      && t.live && !Closes(t, i) && !NoStart(t, i) && !WatchdogFires(t, i) && !(Hears(t, i) && i.event.Error?)
      && !Accepts(t, i) && !(i.Press? && t.life != Failed && i.key == Line(Begin(true)))
      && !(i.Press? && t.life != Failed && i.key.SendKey? && i.key.accepted && !t.busy)
  }

  /** The user asks the core to stop. */
  predicate AsksToStop(t: Turn, i: Input) {
    || (i == Press(Quit) && t.busy && !t.quitArmed && t.queued == None)
    || (i == Press(Close) && t.busy && t.life != Failed && t.queued == None)
    || (i == Press(Line(StopTurn)) && t.life != Failed)
  }

  predicate TurnDone(t: Turn, i: Input) {
    Hears(t, i) && i.event.Done? && LetsGo(t, Done)
  }

  predicate NewCore(t: Turn, i: Input) {
    Again(t, i) || (CoreGone(t, i) && (t.intentional || t.restarts == 0))
  }

  function LifeNext(t: Turn, i: Input): Life {
    if Hears(t, i) && i.event.Ready? then Up
    else if NewCore(t, i) then Starting
    else if CoreGone(t, i) || NoStart(t, i) then Failed
    else t.life
  }

  /** The program quits on the quit key when idle or at the second press in a row, on the command, and on the key of the
      recovery screen. */
  predicate Quits(t: Turn, i: Input) {
    || (i == Press(Quit) && (!t.busy || t.quitArmed))
    || (i == Press(Line(Exit)) && t.life != Failed)
    || (i == Press(Q) && t.life == Failed)
  }

  /** Any other key makes the next press of the quit key a first one again. */
  function QuitArmedNext(t: Turn, i: Input): bool {
    if i == Press(Quit) then if t.busy then !t.quitArmed else t.quitArmed
    else t.quitArmed && !i.Press? && !CoreGone(t, i) && !Again(t, i)
  }

  function Expected(t: Turn, i: Input): Turn {
    Turn(
      WorksNext(t, i), WaitsNext(t, i) != None, WaitsNext(t, i), GoalNext(t, i),
      LiveNext(t, i), PromptsNext(t, i), t.abortGen + (if Closes(t, i) || AsksToStop(t, i) then 1 else 0),
      t.turns + (if TurnDone(t, i) then 1 else 0),
      t.startGen + (if NewCore(t, i) then 1 else 0),
      (Hears(t, i) && i.event.Ready?) || (t.coreReady && !NewCore(t, i)), LifeNext(t, i),
      if TurnDone(t, i) then 0 else if CoreGone(t, i) && !t.intentional && t.restarts == 0 then 1 else t.restarts,
      i == RestartCore || (t.intentional && !CoreGone(t, i)),
      QuitArmedNext(t, i), t.quitting || Quits(t, i))
  }

  lemma DoneIs(t: Turn)
    requires Valid(t)
    ensures OnDone(t) == Expected(t, FromCore(t.startGen, Done))
  {
    GoalsAre(t);
    hide KeepsBusy, AtWork;
  }

  lemma AbortedIs(t: Turn)
    requires Valid(t)
    ensures OnAborted(t) == Expected(t, FromCore(t.startGen, Aborted))
  {
    hide AtWork;
  }

  lemma GoalStateIs(t: Turn, snap: Option<Goal>)
    requires Valid(t)
    ensures OnGoalState(t, snap) == Expected(t, FromCore(t.startGen, GoalState(snap)))
  {
    SnapWorks(t, snap);
    SnapLeaves(t, snap);
    SnapExpected(t, snap);
    hide OnGoalState, Expected, LetsGo, Valid, AtWork, WorksNext;
    assert WorksNext(t, FromCore(t.startGen, GoalState(snap))) <==> OnGoalState(t, snap).busy by {
      SnapExpectedWork(t, snap);
    }
  }

  lemma SnapLeaves(t: Turn, snap: Option<Goal>)
    ensures
      var u := OnGoalState(t, snap);
      u == t.(goal := if snap.Some? && snap.value.phase != Idle then snap else None, busy := u.busy)
  {
    hide KeepsBusy, Settled;
    if snap.None? || snap.value.phase.Idle? {
    } else if KeepsBusy(t.(goal := snap)) {
      assert OnGoalState(t, snap) == t.(goal := snap).(busy := true);
    } else if Settled(snap.value.phase) {
      assert OnGoalState(t, snap) == t.(goal := snap).(busy := false);
    } else {
      assert OnGoalState(t, snap) == t.(goal := snap);
    }
  }

  lemma SnapExpected(t: Turn, snap: Option<Goal>)
    requires Valid(t)
    ensures
      var i := FromCore(t.startGen, GoalState(snap));
      Expected(t, i) ==
      t.(goal := if snap.Some? && snap.value.phase != Idle then snap else None, busy := WorksNext(t, i))
  {
    hide WorksNext, LetsGo;
  }

  lemma SnapExpectedWork(t: Turn, snap: Option<Goal>)
    ensures
      WorksNext(t, FromCore(t.startGen, GoalState(snap))) <==>
      AtWork(snap) || (t.busy && !(snap == None || snap.value.phase == Idle || Over(snap.value.phase)))
  {
    hide AtWork, Over;
  }

  lemma GoalPhaseIs(t: Turn, to: Phase)
    requires Valid(t)
    ensures OnGoalPhase(t, to) == Expected(t, FromCore(t.startGen, GoalPhase(to)))
  {
    PhaseExpected(t, to);
    PhaseLeaves(t, to);
    hide OnGoalPhase, Expected, WorksNext, GoalNext, Valid;
  }

  lemma PhaseExpected(t: Turn, to: Phase)
    requires Valid(t)
    ensures
      var i := FromCore(t.startGen, GoalPhase(to));
      Expected(t, i) == t.(goal := GoalNext(t, i), busy := WorksNext(t, i))
  {
    hide WorksNext, GoalNext, LetsGo;
  }

  lemma PhaseLeaves(t: Turn, to: Phase)
    ensures
      var i := FromCore(t.startGen, GoalPhase(to));
      OnGoalPhase(t, to) == t.(goal := GoalNext(t, i), busy := WorksNext(t, i))
  {
    PhasesAre(to);
    hide Live, Settled, AtWork;
  }

  lemma ErrorIs(t: Turn, alreadyQueued: bool, coreDead: bool)
    requires Valid(t)
    ensures OnError(t, alreadyQueued, coreDead) == Expected(t, FromCore(t.startGen, Error(alreadyQueued, coreDead)))
  {
    GoalsAre(t);
    hide KeepsBusy, AtWork;
  }

  lemma OtherEventIs(t: Turn, e: Event)
    requires Valid(t) && (e.Ready? || e.Streaming? || e.Asked? || e.Boundary?)
    ensures OnEvent(t, e) == Expected(t, FromCore(t.startGen, e))
  {
    hide AtWork, Over, KeepsBusy;
  }

  lemma EventIs(t: Turn, e: Event)
    requires Valid(t)
    ensures OnEvent(t, e) == Expected(t, FromCore(t.startGen, e))
  {
    hide Expected, OnDone, OnAborted, OnGoalState, OnGoalPhase, OnError, OnBoundary, Valid;
    match e {
      case Done => DoneIs(t);
      case Aborted => AbortedIs(t);
      case GoalState(snap) => GoalStateIs(t, snap);
      case GoalPhase(to) => GoalPhaseIs(t, to);
      case Error(alreadyQueued, coreDead) => ErrorIs(t, alreadyQueued, coreDead);
      case _ => OtherEventIs(t, e);
    }
  }

  lemma OldEventIs(t: Turn, i: Input)
    requires Valid(t) && i.FromCore? && i.gen != t.startGen
    ensures Expected(t, i) == t
  {
    hide LetsGo, AtWork;
  }

  lemma EOFIs(t: Turn, i: Input)
    requires Valid(t) && i.CoreEOF?
    ensures Step(t, i) == Expected(t, i)
  {
    hide LetsGo, AtWork;
  }

  lemma NoStartIs(t: Turn, i: Input)
    requires Valid(t) && (i.StartError? || i.ReadyTimeout?)
    ensures Step(t, i) == Expected(t, i)
  {
    hide LetsGo, AtWork;
    if NoStart(t, i) {
    } else {
      assert Expected(t, i) == t;
    }
  }

  lemma WatchdogIs(t: Turn, i: Input)
    requires Valid(t) && i.AbortTimeout?
    ensures Step(t, i) == Expected(t, i)
  {
    hide LetsGo, AtWork;
  }

  lemma ClickIs(t: Turn, i: Input)
    requires Valid(t) && (i.ClickQueue? || i.ClickRetry? || i.Answered? || i.RestartCore?)
    ensures Step(t, i) == Expected(t, i)
  {
    hide LetsGo, AtWork;
  }

  lemma QuitIs(t: Turn)
    requires Valid(t)
    ensures OnQuit(t) == Expected(t, Press(Quit))
  {
    hide LetsGo, AtWork;
  }

  lemma FailedKeyIs(t: Turn, k: Key)
    requires Valid(t) && t.life.Failed? && !k.Quit?
    ensures OnFailedKey(t.(quitArmed := false), k) == Expected(t, Press(k))
  {
    hide LetsGo, AtWork;
  }

  lemma BeginIs(t: Turn, accepted: bool)
    requires Valid(t) && !t.life.Failed?
    ensures DoCommand(t.(quitArmed := false), Begin(accepted)) == Expected(t, Press(Line(Begin(accepted))))
  {
    hide LetsGo, AtWork;
  }

  lemma SteerIs(t: Turn, text: string, accepted: bool)
    requires Valid(t) && !t.life.Failed?
    ensures
      DoCommand(t.(quitArmed := false), SteerTurn(text, accepted)) ==
      Expected(t, Press(Line(SteerTurn(text, accepted))))
  {
    hide LetsGo, AtWork;
  }

  lemma LineIs(t: Turn, c: Command)
    requires Valid(t) && !t.life.Failed?
    ensures DoCommand(t.(quitArmed := false), c) == Expected(t, Press(Line(c)))
  {
    hide DoCommand, Expected, Valid;
    match c {
      case Begin(accepted) => BeginIs(t, accepted);
      case SteerTurn(text, accepted) => SteerIs(t, text, accepted);
      case StopTurn => StopIs(t);
      case Exit => ExitIs(t);
    }
  }

  lemma StopIs(t: Turn)
    requires Valid(t) && !t.life.Failed?
    ensures DoCommand(t.(quitArmed := false), StopTurn) == Expected(t, Press(Line(StopTurn)))
  {
    hide LetsGo, AtWork;
  }

  lemma ExitIs(t: Turn)
    requires Valid(t) && !t.life.Failed?
    ensures DoCommand(t.(quitArmed := false), Exit) == Expected(t, Press(Line(Exit)))
  {
    hide LetsGo, AtWork;
  }

  lemma SendIs(t: Turn, text: string, accepted: bool)
    requires Valid(t) && !t.life.Failed?
    ensures OnLiveKey(t.(quitArmed := false), SendKey(text, accepted)) == Expected(t, Press(SendKey(text, accepted)))
  {
    hide LetsGo, AtWork;
  }

  lemma SteerKeyIs(t: Turn, text: string, accepted: bool)
    requires Valid(t) && !t.life.Failed?
    ensures OnLiveKey(t.(quitArmed := false), SteerKey(text, accepted)) == Expected(t, Press(SteerKey(text, accepted)))
  {
    hide LetsGo, AtWork;
  }

  lemma LiveKeyIs(t: Turn, k: Key)
    requires Valid(t) && !t.life.Failed? && !k.Quit? && !k.Line?
    ensures OnLiveKey(t.(quitArmed := false), k) == Expected(t, Press(k))
  {
    hide OnLiveKey, Expected, Valid;
    match k {
      case SendKey(text, accepted) => SendIs(t, text, accepted);
      case SteerKey(text, accepted) => SteerKeyIs(t, text, accepted);
      case Close => CloseIs(t);
      case _ => IdleKeyIs(t, k);
    }
  }

  lemma CloseIs(t: Turn)
    requires Valid(t) && !t.life.Failed?
    ensures OnLiveKey(t.(quitArmed := false), Close) == Expected(t, Press(Close))
  {
    hide LetsGo, AtWork;
  }

  lemma IdleKeyIs(t: Turn, k: Key)
    requires Valid(t) && !t.life.Failed? && (k.R? || k.Q? || k.Plain?)
    ensures OnLiveKey(t.(quitArmed := false), k) == Expected(t, Press(k))
  {
    hide LetsGo, AtWork;
  }

  lemma KeyIs(t: Turn, k: Key)
    requires Valid(t)
    ensures OnKey(t, k) == Expected(t, Press(k))
  {
    hide Expected, OnQuit, OnFailedKey, DoCommand, Valid;
    if k.Quit? {
      QuitIs(t);
    } else if t.life.Failed? {
      FailedKeyIs(t, k);
    } else if k.Line? {
      LineIs(t, k.command);
    } else {
      LiveKeyIs(t, k);
    }
  }

  /** Every input changes every field by the laws above. */
  lemma StepIs(t: Turn, i: Input)
    requires Valid(t)
    ensures Step(t, i) == Expected(t, i)
  {
    hide Expected, OnEvent, OnKey, OnEOF, Valid;
    match i {
      case FromCore(gen, e) =>
        if gen == t.startGen {
          EventIs(t, e);
        } else {
          OldEventIs(t, i);
        }
      case CoreEOF(_) => EOFIs(t, i);
      case Press(k) => KeyIs(t, k);
      case ClickQueue => ClickIs(t, i);
      case ClickRetry => ClickIs(t, i);
      case Answered(_) => ClickIs(t, i);
      case RestartCore => ClickIs(t, i);
      case AbortTimeout(_) => WatchdogIs(t, i);
      case _ => NoStartIs(t, i);
    }
  }

  /** The session works exactly when a turn begins or it worked and nothing stops that. */
  lemma WorksAfter(t: Turn, i: Input)
    requires Valid(t)
    ensures Step(t, i).busy <==> Begins(t, i) || (t.busy && !Stops(t, i))
  {
    StepIs(t, i);
    hide Step, Begins, Stops;
  }

  /** What waits for the next turn: an accepted message with its own text, until it is taken up, taken back or lost. */
  lemma WaitsAfter(t: Turn, i: Input)
    requires Valid(t)
    ensures
      Step(t, i).queued ==
      if Accepts(t, i) then Some(Message(i))
      else if TakesUp(t, i) || TakesBack(t, i) || Loses(t, i) then None
      else t.queued
    ensures Step(t, i).queuedNext <==> Step(t, i).queued != None
  {
    StepIs(t, i);
    hide Step, Accepts, TakesUp, TakesBack, Loses, Message;
  }

  // ---------------------------------------------------------------- over runs

  predicate Came(t: Turn, i: Input) {
    !t.busy && Begins(t, i)
  }

  predicate Went(t: Turn, i: Input) {
    t.busy && Stops(t, i) && !Begins(t, i)
  }

  /** What becomes of a waiting message. */
  datatype Fate = Kept | TakenUp | TakenBack | Displaced | Lost

  function FateOf(t: Turn, i: Input): Fate
    requires t.queued != None
  {
    if Accepts(t, i) then Displaced
    else if TakesUp(t, i) then TakenUp
    else if TakesBack(t, i) then TakenBack
    else if Loses(t, i) then Fate.Lost
    else Kept
  }

  /** How many inputs of a run came to fate `x`. */
  function Fates(t: Turn, ins: seq<Input>, n: nat, x: Fate): nat
    requires n <= |ins|
  {
    if n == 0 then 0
    else
      var u := At(t, ins, n - 1);
      Fates(t, ins, n - 1, x) + if u.queued != None && FateOf(u, ins[n - 1]) == x then 1 else 0
  }

  function AcceptedIn(t: Turn, ins: seq<Input>, n: nat): nat
    requires n <= |ins|
  {
    if n == 0 then 0 else AcceptedIn(t, ins, n - 1) + if Accepts(At(t, ins, n - 1), ins[n - 1]) then 1 else 0
  }

  function CameIn(t: Turn, ins: seq<Input>, n: nat): nat
    requires n <= |ins|
  {
    if n == 0 then 0 else CameIn(t, ins, n - 1) + if Came(At(t, ins, n - 1), ins[n - 1]) then 1 else 0
  }

  function WentIn(t: Turn, ins: seq<Input>, n: nat): nat
    requires n <= |ins|
  {
    if n == 0 then 0 else WentIn(t, ins, n - 1) + if Went(At(t, ins, n - 1), ins[n - 1]) then 1 else 0
  }

  function One(b: bool): nat {
    if b then 1 else 0
  }

  /** In every run each message that was accepted was taken up, taken back, displaced or lost, or it still waits; and
      each time the session began to work it stopped, or it still works. */
  lemma {:induction false} NothingVanishes(t: Turn, ins: seq<Input>, n: nat)
    requires Valid(t) && n <= |ins|
    ensures
      var u := At(t, ins, n);
      && One(t.queued != None) + AcceptedIn(t, ins, n)
         == One(u.queued != None) + Fates(t, ins, n, TakenUp) + Fates(t, ins, n, TakenBack)
            + Fates(t, ins, n, Displaced) + Fates(t, ins, n, Fate.Lost)
      && One(t.busy) + CameIn(t, ins, n) == One(u.busy) + WentIn(t, ins, n)
      && Valid(u)
  {
    hide Step, Accepts, TakesUp, TakesBack, Loses, Begins, Stops, Valid, Run, Message;
    if n == 0 {
      AtEnds(t, ins);
      AtStart(t, ins);
    } else {
      var u, i := At(t, ins, n - 1), ins[n - 1];
      NothingVanishes(t, ins, n - 1);
      AtNext(t, ins, n - 1);
      WaitsAfter(u, i);
      WorksAfter(u, i);
      StepKeepsValid(u, i);
    }
  }

  lemma AtStart(t: Turn, ins: seq<Input>)
    ensures At(t, ins, 0) == t
  {
    assert ins[..0] == [];
  }

  /** What the footer stands for: the turns begun and accepted, less those that ended, were taken back, displaced or
      lost; a message that is taken up passes from waiting to working. */
  lemma WorkIsBalanced(t: Turn, ins: seq<Input>, n: nat)
    requires Valid(t) && n <= |ins|
    ensures
      Work(At(t, ins, n)) + WentIn(t, ins, n) + Fates(t, ins, n, TakenUp) + Fates(t, ins, n, TakenBack)
      + Fates(t, ins, n, Displaced) + Fates(t, ins, n, Fate.Lost)
      == Work(t) + CameIn(t, ins, n) + AcceptedIn(t, ins, n)
  {
    hide At, Fates, AcceptedIn, CameIn, WentIn;
    NothingVanishes(t, ins, n);
  }

  /** The ways in which the footer goes idle over a waiting message: a steer by command while nothing runs, and work
      that ends by its goal or by a core that does not come up, which leave the message where it is. */
  predicate Strands(t: Turn, i: Input) {
    || (i.Press? && t.life != Failed && i.key.Line? && i.key.command.SteerTurn? && i.key.command.accepted && !t.busy)
    || (t.queued != None
        && (|| (Hears(t, i) && (i.event.GoalState? || i.event.GoalPhase?) && LetsGo(t, i.event))
            || NoStart(t, i)))
  }

  /** The footer shows work while a message waits, after an input exactly when that does not strand it. */
  lemma StrandedExact(t: Turn, i: Input)
    requires Valid(t) && (t.queued != None ==> t.busy)
    ensures Step(t, i).queued != None && !Step(t, i).busy <==> Strands(t, i)
  {
    WaitsAfter(t, i);
    WorksAfter(t, i);
    hide Step, AtWork, Over;
  }

  lemma {:induction false} FooterStaysBusy(t: Turn, ins: seq<Input>, n: nat)
    requires Valid(t) && (t.queued != None ==> t.busy) && n <= |ins|
    requires forall k :: 0 <= k < n ==> !Strands(At(t, ins, k), ins[k])
    ensures Valid(At(t, ins, n)) && (At(t, ins, n).queued != None ==> At(t, ins, n).busy)
  {
    hide Step, Strands, Valid, Run;
    if n == 0 {
      AtStart(t, ins);
    } else {
      FooterStaysBusy(t, ins, n - 1);
      AtNext(t, ins, n - 1);
      StrandedExact(At(t, ins, n - 1), ins[n - 1]);
      StepKeepsValid(At(t, ins, n - 1), ins[n - 1]);
    }
  }

  /** It happens: a steer by command while nothing runs is queued over an idle footer, which the end of its turn leaves
      idle. */
  lemma IdleSteerStrands(t: Turn, text: string)
    requires Valid(t) && !t.busy && t.life != Failed
    ensures
      var u := Step(t, Press(Line(SteerTurn(text, true))));
      && u.queued == Some(Steer(text)) && !u.busy
      && Step(u, FromCore(t.startGen, Done)).queued == None && !Step(u, FromCore(t.startGen, Done)).busy
  {
  }
}
