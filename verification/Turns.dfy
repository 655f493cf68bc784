/** Turns, the queued message and aborts (tui/handlers.go, tui/main.go, tui/chrome_mouse.go): what core events, keys
    and timers do to the session's flags, in whatever order they come. */
module Turns {
  import opened Options

  datatype Phase =
    | Idle | Planning | Reviewing | Deploying | Running | Synthesizing | Verifying | Replanning
    | PlanReady | Finished | Broken | Cancelled | Unknown

  datatype Goal = Goal(phase: Phase, autoDeploy: bool)

  datatype Queued = Steer(text: string) | FollowUp(text: string)

  datatype Life = Starting | Up | Failed

  datatype Prompt = Approval | Ask | Sudo

  /** `live`: a block is streaming (cur is set); `asking`: the blocking prompts on screen. */
  datatype Turn = Turn(
    busy: bool, queuedNext: bool, queued: Option<Queued>, goal: Option<Goal>,
    live: bool, asking: set<Prompt>, abortGen: nat, turns: nat,
    startGen: nat, coreReady: bool, life: Life, restarts: nat, intentional: bool,
    quitArmed: bool, quitting: bool)

  datatype Event =
    | Ready
    | Streaming(live: bool)  // any event that opens or closes the streaming block
    | Asked(prompt: Prompt)
    | Done
    | Aborted
    | Boundary               // reset, or a loaded history
    | GoalState(snap: Option<Goal>)
    | GoalPhase(to: Phase)
    | Error(alreadyQueued: bool, coreDead: bool)

  /** `accepted`: the user may send, a model is loaded and the core takes the command. */
  datatype Command =
    | Begin(accepted: bool)  // send, delegation, attachment, skill, goal, approved or revised plan
    | SteerTurn(text: string, accepted: bool)
    | StopTurn
    | Exit

  /** Keys that no dialogue and no prompt takes first. */
  datatype Key = Quit | Close | SteerKey(text: string, accepted: bool) | SendKey(text: string, accepted: bool)
               | R | Q | Line(command: Command) | Plain

  datatype Input =
    | FromCore(gen: nat, event: Event)
    | CoreEOF(gen: nat)
    | StartError(gen: nat)
    | ReadyTimeout(gen: nat)
    | AbortTimeout(gen: nat)
    | Press(key: Key)
    | ClickQueue              // the banner of the queued message
    | ClickRetry
    | Answered(prompt: Prompt)
    | RestartCore             // a setting that needs a new core

  // ---------------------------------------------------------------- what each input does

  predicate Live(p: Phase) {
    p.Planning? || p.Reviewing? || p.Deploying? || p.Running? || p.Synthesizing? || p.Verifying? || p.Replanning?
  }

  predicate Settled(p: Phase) {
    p.Finished? || p.Broken? || p.Cancelled?
  }

  predicate KeepsBusy(t: Turn) {
    t.goal.Some? && (Live(t.goal.value.phase) || (t.goal.value.phase.PlanReady? && t.goal.value.autoDeploy))
  }

  function Unqueued(t: Turn): Turn {
    t.(queuedNext := false, queued := None)
  }

  function OnDone(t: Turn): Turn {
    var u := t.(abortGen := t.abortGen + 1, asking := {}, live := false);
    if t.queuedNext then Unqueued(u)
    else if KeepsBusy(t) then u
    else u.(busy := false, turns := t.turns + 1, restarts := 0)
  }

  function OnAborted(t: Turn): Turn {
    var u := t.(abortGen := t.abortGen + 1, asking := {}, live := false);
    if t.queuedNext then Unqueued(u) else u.(busy := false)
  }

  function OnBoundary(t: Turn): Turn {
    t.(queuedNext := false, queued := None, abortGen := t.abortGen + 1, asking := {}, live := false, busy := false)
  }

  function OnGoalState(t: Turn, snap: Option<Goal>): Turn {
    if snap.None? || snap.value.phase.Idle? then t.(goal := None, busy := false)
    else
      var u := t.(goal := snap);
      if KeepsBusy(u) then u.(busy := true)
      else if Settled(snap.value.phase) then u.(busy := false)
      else u
  }

  function Synced(goal: Option<Goal>, to: Phase): Option<Goal> {
    if goal.Some? then Some(goal.value.(phase := to)) else None
  }

  function OnGoalPhase(t: Turn, to: Phase): Turn {
    if Settled(to) then t.(busy := false, goal := Synced(t.goal, to))
    else if Live(to) || to.PlanReady? then t.(goal := Synced(t.goal, to))
    else t
  }

  predicate TurnStarted(t: Turn) {
    t.live || t.asking != {} || t.queuedNext || KeepsBusy(t)
  }

  function OnError(t: Turn, alreadyQueued: bool, coreDead: bool): Turn {
    var u := (if alreadyQueued then Unqueued(t) else t).(live := false);
    if u.busy && !TurnStarted(t) && !coreDead then u.(busy := false, asking := {}) else u
  }

  function OnEvent(t: Turn, e: Event): Turn {
    match e
    case Ready => t.(coreReady := true, life := Up)
    case Streaming(live) => t.(live := live)
    case Asked(p) => t.(asking := t.asking + {p})
    case Done => OnDone(t)
    case Aborted => OnAborted(t)
    case Boundary => OnBoundary(t)
    case GoalState(snap) => OnGoalState(t, snap)
    case GoalPhase(to) => OnGoalPhase(t, to)
    case Error(alreadyQueued, coreDead) => OnError(t, alreadyQueued, coreDead)
  }

  function ResetUI(t: Turn): Turn {
    t.(queuedNext := false, queued := None, abortGen := t.abortGen + 1, asking := {}, live := false, busy := false,
       quitArmed := false)
  }

  function Started(t: Turn): Turn {
    t.(coreReady := false, life := Starting, startGen := t.startGen + 1)
  }

  function OnEOF(t: Turn): Turn {
    if t.quitting || t.life.Failed? then t
    else if t.intentional then Started(ResetUI(t.(intentional := false)))
    else if t.restarts >= 1 then ResetUI(t).(life := Failed)
    else Started(ResetUI(t.(restarts := t.restarts + 1)))
  }

  function Armed(t: Turn): Turn {
    t.(abortGen := t.abortGen + 1)
  }

  function DoSteer(t: Turn, text: string, accepted: bool): Turn {
    if accepted then t.(queuedNext := true, queued := Some(Steer(text)), live := false) else t
  }

  function DoFollowUp(t: Turn, text: string, accepted: bool): Turn {
    if t.queued.Some? || !accepted then t
    else t.(queuedNext := true, queued := Some(FollowUp(text)), live := false)
  }

  function DoCommand(t: Turn, c: Command): Turn {
    match c
    case Begin(accepted) => if accepted then t.(busy := true, live := false) else t
    case SteerTurn(text, accepted) => DoSteer(t, text, accepted)
    case StopTurn => Armed(Unqueued(t))
    case Exit => t.(quitting := true)
  }

  function OnQuit(t: Turn): Turn {
    if !t.busy then t.(quitting := true)
    else if t.quitArmed then t.(quitArmed := false, quitting := true)
    else if t.queued.Some? then Unqueued(t).(quitArmed := true)
    else Armed(t.(quitArmed := true, queuedNext := false))
  }

  function OnClose(t: Turn): Turn {
    if !t.busy then t else if t.queued.Some? then Unqueued(t) else Armed(t.(queuedNext := false))
  }

  /** The recovery screen has two keys of its own. */
  function OnFailedKey(t: Turn, k: Key): Turn {
    if k.R? then Started(ResetUI(t)) else if k.Q? then t.(quitting := true) else t
  }

  function OnLiveKey(t: Turn, k: Key): Turn {
    match k
    case Line(c) => DoCommand(t, c)
    case Close => OnClose(t)
    case SteerKey(text, accepted) => if t.busy then DoCommand(t, SteerTurn(text, accepted)) else t
    case SendKey(text, accepted) => if t.busy then DoFollowUp(t, text, accepted) else DoCommand(t, Begin(accepted))
    case _ => t
  }

  function OnKey(t: Turn, k: Key): Turn {
    if k.Quit? then OnQuit(t)
    else
      var u := t.(quitArmed := false);
      if t.life.Failed? then OnFailedKey(u, k) else OnLiveKey(u, k)
  }

  /** The error block that is logged closes the streaming one. */
  function StartFailed(t: Turn): Turn {
    t.(life := Failed, busy := false, asking := {}, live := false)
  }

  function Step(t: Turn, i: Input): Turn {
    match i
    case FromCore(gen, e) => if gen == t.startGen then OnEvent(t, e) else t
    case CoreEOF(gen) => if gen == t.startGen then OnEOF(t) else t
    case StartError(gen) => if gen == t.startGen then StartFailed(t) else t
    case ReadyTimeout(gen) =>
      if t.coreReady || gen != t.startGen then t else StartFailed(t)
    case AbortTimeout(gen) =>
      if gen != t.abortGen || !t.busy then t
      else Unqueued(t).(busy := false, asking := {}, live := false)
    case Press(k) => OnKey(t, k)
    case ClickQueue => if t.queued.None? then t else Unqueued(t)
    case ClickRetry => Started(ResetUI(t))
    case Answered(p) => t.(asking := t.asking - {p})
    case RestartCore => t.(intentional := true)
  }

  function Run(t: Turn, ins: seq<Input>): Turn
    decreases |ins|
  {
    if ins == [] then t else Step(Run(t, ins[..|ins| - 1]), ins[|ins| - 1])
  }

  // ---------------------------------------------------------------- what every run keeps

  /** A queued message and its flag go together, one automatic restart is the most that can be spent, and the core's
      life agrees with the watchdog's flag. */
  predicate Valid(t: Turn) {
    && (t.queuedNext <==> t.queued.Some?)
    && t.restarts <= 1
    && (t.life.Up? ==> t.coreReady)
    && (t.life.Starting? ==> !t.coreReady)
  }

  /** The user asks for an abort: a watchdog starts. */
  predicate KeyArms(t: Turn, k: Key) {
    match k
    case Quit => t.busy && !t.quitArmed && t.queued.None?
    case Close => t.busy && !t.life.Failed? && t.queued.None?
    case Line(c) => c.StopTurn? && !t.life.Failed?
    case _ => false
  }

  predicate Arms(t: Turn, i: Input) {
    i.Press? && KeyArms(t, i.key)
  }

  predicate Retries(t: Turn, i: Input) {
    i.ClickRetry? || (i.Press? && i.key.R? && t.life.Failed?)
  }

  predicate LosesCore(t: Turn, i: Input) {
    i.CoreEOF? && i.gen == t.startGen && !t.quitting && !t.life.Failed?
  }

  predicate Speaks(t: Turn, i: Input) {
    i.FromCore? && i.gen == t.startGen
  }

  /** The core answers, the conversation changes, or the core is replaced or given up. */
  predicate Disarms(t: Turn, i: Input) {
    || (Speaks(t, i) && (i.event.Done? || i.event.Aborted? || i.event.Boundary?))
    || LosesCore(t, i)
    || Retries(t, i)
  }

  /** A new core is started. */
  predicate Starts(t: Turn, i: Input) {
    || (LosesCore(t, i) && (t.intentional || t.restarts == 0))
    || Retries(t, i)
  }

  predicate RestartsByItself(t: Turn, i: Input) {
    LosesCore(t, i) && !t.intentional && t.restarts == 0
  }

  /** The ways in which work ends that leave the watchdog armed: a goal that settles, an error before the turn showed
      anything, and a core that does not start. */
  predicate QuietEvent(t: Turn, e: Event) {
    match e
    case GoalState(snap) => snap.None? || snap.value.phase.Idle? || Settled(snap.value.phase)
    case GoalPhase(to) => Settled(to)
    case Error(_, coreDead) => !TurnStarted(t) && !coreDead
    case _ => false
  }

  predicate QuietEnd(t: Turn, i: Input) {
    || (Speaks(t, i) && QuietEvent(t, i.event))
    || (i.StartError? && i.gen == t.startGen)
    || (i.ReadyTimeout? && i.gen == t.startGen && !t.coreReady)
  }

  /** Turns the footer stands for: the running one and the queued one. */
  function Work(t: Turn): nat {
    (if t.busy then 1 else 0) + (if t.queuedNext then 1 else 0)
  }

  predicate KeyAsks(k: Key) {
    match k
    case Line(Begin(accepted)) => accepted
    case Line(SteerTurn(_, accepted)) => accepted
    case SteerKey(_, accepted) => accepted
    case SendKey(_, accepted) => accepted
    case _ => false
  }

  /** The inputs that ask for another turn, or say that a goal is still at work. */
  predicate Asks(t: Turn, i: Input) {
    || (i.Press? && KeyAsks(i.key))
    || (Speaks(t, i) && i.event.GoalState? && KeepsBusy(t.(goal := i.event.snap)))
  }

  /** The running core ends a turn, and no goal outlives it. */
  predicate Ends(t: Turn, i: Input) {
    Speaks(t, i) && (i.event.Aborted? || (i.event.Done? && (t.queuedNext || !KeepsBusy(t))))
  }

  // ---------------------------------------------------------------- one input at a time

  lemma CommandFacts(t: Turn, c: Command)
    ensures
      var u := DoCommand(t, c);
      && (Valid(t) ==> Valid(u))
      && u.abortGen == t.abortGen + (if c.StopTurn? then 1 else 0)
      && u.startGen == t.startGen && u.turns == t.turns && u.restarts == t.restarts
      && Work(u) <= Work(t) + (if KeyAsks(Line(c)) then 1 else 0)
      && (t.busy ==> u.busy)
      && (u.queued.Some? && u.queued != t.queued ==> u.queued.value.Steer?)
  {
  }

  lemma QuitFacts(t: Turn)
    ensures
      var u := OnQuit(t);
      && (Valid(t) ==> Valid(u))
      && u.abortGen == t.abortGen + (if KeyArms(t, Quit) then 1 else 0)
      && u.startGen == t.startGen && u.turns == t.turns && u.restarts == t.restarts
      && Work(u) <= Work(t) && u.busy == t.busy
      && (u.queued.Some? ==> u.queued == t.queued)
  {
  }

  lemma CloseFacts(t: Turn)
    ensures
      var u := OnClose(t);
      && (Valid(t) ==> Valid(u))
      && u.abortGen == t.abortGen + (if t.busy && t.queued.None? then 1 else 0)
      && u.startGen == t.startGen && u.turns == t.turns && u.restarts == t.restarts
      && Work(u) <= Work(t) && u.busy == t.busy
      && (u.queued.Some? ==> u.queued == t.queued)
  {
  }

  lemma FailedKeyFacts(t: Turn, k: Key)
    ensures
      var u := OnFailedKey(t, k);
      && (Valid(t) ==> Valid(u))
      && u.abortGen == t.abortGen + (if k.R? then 1 else 0)
      && u.startGen == t.startGen + (if k.R? then 1 else 0)
      && u.turns == t.turns && u.restarts == t.restarts
      && Work(u) <= Work(t) && (!k.R? ==> u.busy == t.busy && u.queued == t.queued)
      && (u.queued.Some? ==> u.queued == t.queued)
  {
  }

  lemma LiveKeyFacts(t: Turn, k: Key)
    requires !t.life.Failed? && !k.Quit?
    ensures
      var u := OnLiveKey(t, k);
      && (Valid(t) ==> Valid(u))
      && u.abortGen == t.abortGen + (if KeyArms(t, k) then 1 else 0)
      && u.startGen == t.startGen && u.turns == t.turns && u.restarts == t.restarts
      && Work(u) <= Work(t) + (if KeyAsks(k) then 1 else 0)
      && (t.busy ==> u.busy)
      && (t.queued.Some? && u.queued.Some? && u.queued != t.queued ==> u.queued.value.Steer?)
      && (k.SendKey? && t.busy && t.queued.Some? ==> u.queued == t.queued)
  {
    hide DoCommand, OnClose;
    match k {
      case Line(c) => CommandFacts(t, c);
      case Close => CloseFacts(t);
      case SendKey(_, accepted) => CommandFacts(t, Begin(accepted));
      case SteerKey(text, accepted) => CommandFacts(t, SteerTurn(text, accepted));
      case _ =>
    }
  }

  lemma KeyFacts(t: Turn, k: Key)
    ensures
      var u := OnKey(t, k);
      var retry := k.R? && t.life.Failed?;
      && (Valid(t) ==> Valid(u))
      && u.abortGen == t.abortGen + (if KeyArms(t, k) || retry then 1 else 0)
      && u.startGen == t.startGen + (if retry then 1 else 0)
      && u.turns == t.turns && u.restarts == t.restarts
      && Work(u) <= Work(t) + (if KeyAsks(k) then 1 else 0)
      && (t.busy && !retry ==> u.busy)
      && (t.queued.Some? && u.queued.Some? && u.queued != t.queued ==> u.queued.value.Steer?)
      && (k.SendKey? && t.busy && t.queued.Some? ==> u.queued == t.queued)
  {
    hide OnQuit, OnLiveKey, OnFailedKey;
    var u := t.(quitArmed := false);
    if k.Quit? {
      QuitFacts(t);
    } else if t.life.Failed? {
      FailedKeyFacts(u, k);
    } else {
      LiveKeyFacts(u, k);
    }
  }

  lemma PhaseKinds(p: Phase)
    ensures Live(p) || p.PlanReady? ==> !Settled(p) && !p.Idle?
    ensures Settled(p) ==> !p.Idle?
  {
  }

  /** What an event does to the counters, to the queue and to the work that is waited for. */
  predicate Accounted(t: Turn, e: Event, u: Turn) {
    var answer := e.Done? || e.Aborted? || e.Boundary?;
    && (Valid(t) ==> Valid(u))
    && u.abortGen == t.abortGen + (if answer then 1 else 0)
    && u.startGen == t.startGen && u.turns >= t.turns
    && (u.turns == t.turns ==> u.restarts == t.restarts)
    && Work(u) <= Work(t) + (if e.GoalState? && KeepsBusy(t.(goal := e.snap)) then 1 else 0)
    && (e.Aborted? || (e.Done? && (t.queuedNext || !KeepsBusy(t))) ==> Work(u) < Work(t) || Work(t) == Work(u) == 0)
    && (t.busy && !answer ==> (!u.busy <==> QuietEvent(t, e)))
    && (u.queued.Some? ==> u.queued == t.queued)
  }

  lemma GoalFacts(t: Turn, snap: Option<Goal>)
    ensures Accounted(t, GoalState(snap), OnGoalState(t, snap))
  {
    hide Live, Settled;
    if snap.Some? {
      PhaseKinds(snap.value.phase);
    }
  }

  lemma PhaseFacts(t: Turn, to: Phase)
    ensures Accounted(t, GoalPhase(to), OnGoalPhase(t, to))
  {
    hide Live, Settled, Synced, KeepsBusy;
  }

  lemma DoneFacts(t: Turn)
    ensures Accounted(t, Done, OnDone(t))
    ensures t.busy ==> (OnDone(t).busy <==> t.queuedNext || KeepsBusy(t))
  {
    hide KeepsBusy, QuietEvent;
  }

  lemma AbortedFacts(t: Turn)
    ensures Accounted(t, Aborted, OnAborted(t))
    ensures t.busy ==> (OnAborted(t).busy <==> t.queuedNext)
  {
    hide KeepsBusy, QuietEvent;
  }

  lemma ErrorFacts(t: Turn, alreadyQueued: bool, coreDead: bool)
    ensures Accounted(t, Error(alreadyQueued, coreDead), OnError(t, alreadyQueued, coreDead))
  {
    hide TurnStarted, KeepsBusy;
  }

  lemma PlainFacts(t: Turn, e: Event)
    requires e.Ready? || e.Streaming? || e.Asked? || e.Boundary?
    ensures Accounted(t, e, OnEvent(t, e))
  {
    hide KeepsBusy, TurnStarted, Settled;
  }

  lemma EventFacts(t: Turn, e: Event)
    ensures Accounted(t, e, OnEvent(t, e))
  {
    hide Accounted, OnGoalState, OnGoalPhase, OnDone, OnAborted, OnError, OnBoundary;
    match e {
      case Aborted => AbortedFacts(t);
      case GoalPhase(to) => PhaseFacts(t, to);
      case GoalState(snap) => GoalFacts(t, snap);
      case Done => DoneFacts(t);
      case Error(alreadyQueued, coreDead) => ErrorFacts(t, alreadyQueued, coreDead);
      case _ => PlainFacts(t, e);
    }
  }

  lemma EOFFacts(t: Turn)
    ensures
      var u := OnEOF(t);
      var lost := !t.quitting && !t.life.Failed?;
      && (Valid(t) ==> Valid(u))
      && u.abortGen == t.abortGen + (if lost then 1 else 0)
      && u.startGen == t.startGen + (if lost && (t.intentional || t.restarts == 0) then 1 else 0)
      && u.turns == t.turns
      && u.restarts == t.restarts + (if lost && !t.intentional && t.restarts == 0 then 1 else 0)
      && Work(u) <= Work(t) && (!lost ==> u == t)
      && (u.queued.Some? ==> u.queued == t.queued)
  {
  }

  // ---------------------------------------------------------------- whole runs

  lemma StepKeepsValid(t: Turn, i: Input)
    requires Valid(t)
    ensures Valid(Step(t, i))
  {
    hide OnEvent, OnEOF, OnKey, KeyArms, KeyAsks, KeepsBusy, QuietEvent, Work;
    match i {
      case FromCore(_, e) => EventFacts(t, e);
      case CoreEOF(_) => EOFFacts(t);
      case Press(k) => KeyFacts(t, k);
      case _ =>
    }
  }

  lemma {:induction false} RunKeepsValid(t: Turn, ins: seq<Input>)
    requires Valid(t)
    ensures Valid(Run(t, ins))
    decreases |ins|
  {
    if ins != [] {
      RunKeepsValid(t, ins[..|ins| - 1]);
      StepKeepsValid(Run(t, ins[..|ins| - 1]), ins[|ins| - 1]);
    }
  }

  /** The state before input k of a run. */
  function At(t: Turn, ins: seq<Input>, k: nat): Turn
    requires k <= |ins|
  {
    Run(t, ins[..k])
  }

  lemma AtNext(t: Turn, ins: seq<Input>, k: nat)
    requires k < |ins|
    ensures At(t, ins, k + 1) == Step(At(t, ins, k), ins[k])
  {
    assert ins[..k + 1][..k] == ins[..k];
  }

  lemma AtEnds(t: Turn, ins: seq<Input>)
    ensures At(t, ins, 0) == t && At(t, ins, |ins|) == Run(t, ins)
  {
    assert ins[..|ins|] == ins;
  }

  // ---------------------------------------------------------------- the session's code

  class Session {
    var busy: bool
    var queuedNext: bool
    var queued: Option<Queued>
    var goalState: Option<Goal>
    var cur: bool
    var prompts: set<Prompt>
    var abortGen: nat
    var turnCount: nat
    var coreStartGen: nat
    var coreReady: bool
    var coreLifecycle: Life
    var coreRestarts: nat
    var intentionalRestart: bool
    var ctrlCAbortArmed: bool
    var quitting: bool

    function Now(): Turn
      reads this
    {
      Turn(busy, queuedNext, queued, goalState, cur, prompts, abortGen, turnCount, coreStartGen, coreReady,
           coreLifecycle, coreRestarts, intentionalRestart, ctrlCAbortArmed, quitting)
    }

    constructor ()
      ensures Valid(Now()) && !busy && queued.None? && coreStartGen == 1 && coreLifecycle == Starting
    {
      busy, queuedNext, queued, goalState, cur, prompts := false, false, None, None, false, {};
      abortGen, turnCount, coreStartGen, coreReady, coreLifecycle, coreRestarts := 0, 0, 0, false, Starting, 0;
      intentionalRestart, ctrlCAbortArmed, quitting := false, false, false;
      new;
      StartCore();
    }

    /** The watchdog carries the generation that was current when it was armed. */
    method ArmAbortTimeout() returns (gen: nat)
      modifies `abortGen
      ensures Now() == Armed(old(Now())) && gen == abortGen
    {
      abortGen := abortGen + 1;
      gen := abortGen;
    }

    method DisarmAbortTimeout()
      modifies `abortGen
      ensures Now() == Armed(old(Now()))
    {
      abortGen := abortGen + 1;
    }

    method StartCore()
      modifies `coreReady, `coreLifecycle, `coreStartGen
      ensures Now() == Started(old(Now()))
    {
      coreReady := false;
      coreLifecycle := Starting;
      coreStartGen := coreStartGen + 1;
    }

    method ResetCoreUIState()
      modifies `abortGen, `prompts, `queuedNext, `queued, `cur, `busy, `ctrlCAbortArmed
      ensures Now() == ResetUI(old(Now()))
    {
      TakeAnswer();
      busy := false;
      ClearQueue();
      ctrlCAbortArmed := false;
    }

    method GoalKeepsBusy() returns (yes: bool)
      ensures yes == KeepsBusy(Now())
    {
      if goalState.None? {
        return false;
      }
      if Live(goalState.value.phase) {
        return true;
      }
      return goalState.value.phase.PlanReady? && goalState.value.autoDeploy;
    }

    method ClearQueue()
      modifies `queuedNext, `queued
      ensures Now() == Unqueued(old(Now()))
    {
      queuedNext := false;
      queued := None;
    }

    /** What every answer of the core does first: disarmAbortTimeout and clearBlockingPrompts. */
    method TakeAnswer()
      modifies `abortGen, `prompts, `cur
      ensures Now() == old(Now()).(abortGen := old(abortGen) + 1, asking := {}, live := false)
    {
      DisarmAbortTimeout();
      prompts := {};
      cur := false;
    }

    /** A turn that the core ends leaves one turn less to wait for, unless a goal is at work and nothing is queued;
        and the session goes on working exactly when something is queued or a goal is at work. */
    method HandleDone()
      modifies `abortGen, `prompts, `queuedNext, `queued, `cur, `busy, `turnCount, `coreRestarts
      ensures Now() == OnDone(old(Now()))
      ensures old(busy) ==> (busy <==> old(queuedNext || KeepsBusy(Now())))
      ensures old(queuedNext || !KeepsBusy(Now())) ==>
                Work(Now()) < old(Work(Now())) || Work(Now()) == old(Work(Now())) == 0
    {
      hide KeepsBusy, Work;
      var goal := GoalKeepsBusy();
      ghost var t := Now();
      TakeAnswer();
      if queuedNext {
        ClearQueue();
      } else if !goal {
        busy := false;
        turnCount := turnCount + 1;
        coreRestarts := 0;
      }
      DoneFacts(t);
    }

    /** An aborted turn leaves one turn less to wait for. */
    method HandleAborted()
      modifies `abortGen, `prompts, `queuedNext, `queued, `cur, `busy
      ensures Now() == OnAborted(old(Now()))
      ensures old(busy) ==> (busy <==> old(queuedNext))
      ensures Work(Now()) < old(Work(Now())) || Work(Now()) == old(Work(Now())) == 0
    {
      hide Work;
      ghost var t := Now();
      TakeAnswer();
      if queuedNext {
        ClearQueue();
      } else {
        busy := false;
      }
      AbortedFacts(t);
    }

    /** `reset` and `history`. */
    method HandleBoundary()
      modifies `abortGen, `prompts, `queuedNext, `queued, `cur, `busy
      ensures Now() == OnBoundary(old(Now())) && Work(Now()) == 0
    {
      TakeAnswer();
      busy := false;
      ClearQueue();
    }

    method ApplyGoalState(snap: Option<Goal>)
      modifies `goalState, `busy
      ensures Now() == OnGoalState(old(Now()), snap)
    {
      if snap.None? || snap.value.phase.Idle? {
        goalState := None;
        busy := false;
        return;
      }
      goalState := snap;
      var phase := snap.value.phase;
      if Live(phase) {
        busy := true;
      } else if phase.PlanReady? {
        if snap.value.autoDeploy {
          busy := true;
        }
      } else if Settled(phase) {
        busy := false;
      }
    }

    method SyncPhase(to: Phase)
      modifies `goalState
      ensures goalState == Synced(old(goalState), to)
    {
      if goalState.Some? {
        goalState := Some(goalState.value.(phase := to));
      }
    }

    method HandleGoalPhase(to: Phase)
      modifies `goalState, `busy
      ensures Now() == OnGoalPhase(old(Now()), to)
    {
      hide Synced, Live, Settled;
      if Settled(to) {
        busy := false;
        SyncPhase(to);
      } else if Live(to) || to.PlanReady? {
        SyncPhase(to);
      }
    }

    method HandleError(alreadyQueued: bool, coreDead: bool)
      modifies `prompts, `queuedNext, `queued, `cur, `busy
      ensures Now() == OnError(old(Now()), alreadyQueued, coreDead)
    {
      hide KeepsBusy;
      var goal := GoalKeepsBusy();
      var turnStarted := cur || prompts != {} || queuedNext || goal;
      cur := false;
      if alreadyQueued {
        queued := None;
        queuedNext := false;
      }
      if busy && !turnStarted && !coreDead {
        busy := false;
        prompts := {};
      }
    }

    method SendSteer(text: string, accepted: bool)
      modifies `queuedNext, `queued, `cur
      ensures Now() == DoSteer(old(Now()), text, accepted)
    {
      if !accepted {
        return;
      }
      cur := false;
      queuedNext := true;
      queued := Some(Steer(text));
    }

    method QueueFollowUp(text: string, accepted: bool)
      modifies `queuedNext, `queued, `cur
      ensures Now() == DoFollowUp(old(Now()), text, accepted)
    {
      if queued.Some? {
        return;
      }
      if !accepted {
        return;
      }
      cur := false;
      queuedNext := true;
      queued := Some(FollowUp(text));
    }

    method CancelQueued()
      modifies `queuedNext, `queued
      ensures Now() == Step(old(Now()), ClickQueue)
    {
      if queued.None? {
        return;
      }
      queued := None;
      queuedNext := false;
    }

    method HandleUserLine(c: Command)
      modifies this
      ensures Now() == DoCommand(old(Now()), c)
    {
      match c {
        case Begin(accepted) =>
          if accepted {
            cur := false;
            busy := true;
          }
        case SteerTurn(text, accepted) => SendSteer(text, accepted);
        case StopTurn =>
          queuedNext := false;
          queued := None;
          var _ := ArmAbortTimeout();
        case Exit => quitting := true;
      }
    }

    method HandleQuitKey()
      modifies this
      ensures Now() == OnQuit(old(Now()))
    {
      if busy {
        if ctrlCAbortArmed {
          ctrlCAbortArmed := false;
          quitting := true;
          return;
        }
        ctrlCAbortArmed := true;
        if queued.Some? {
          queued := None;
          queuedNext := false;
          return;
        }
        queuedNext := false;
        var _ := ArmAbortTimeout();
        return;
      }
      quitting := true;
    }

    method HandleCloseKey()
      modifies this
      ensures Now() == OnClose(old(Now()))
    {
      if !busy {
        return;
      }
      if queued.Some? {
        queued := None;
        queuedNext := false;
        return;
      }
      queuedNext := false;
      var _ := ArmAbortTimeout();
    }

    method HandleKey(k: Key)
      modifies this
      ensures Now() == OnKey(old(Now()), k)
    {
      hide OnQuit, OnClose, DoCommand, DoFollowUp, Started, ResetUI;
      if k.Quit? {
        HandleQuitKey();
        return;
      }
      ctrlCAbortArmed := false;
      assert Now() == old(Now()).(quitArmed := false);
      if coreLifecycle.Failed? {
        match k {
          case R =>
            ResetCoreUIState();
            StartCore();
          case Q => quitting := true;
          case _ =>
        }
        return;
      }
      match k {
        case Line(c) => HandleUserLine(c);
        case Close => HandleCloseKey();
        case SteerKey(text, accepted) =>
          if busy {
            HandleUserLine(SteerTurn(text, accepted));
          }
        case SendKey(text, accepted) =>
          if busy {
            QueueFollowUp(text, accepted);
          } else {
            HandleUserLine(Begin(accepted));
          }
        case _ =>
      }
    }

    method HandleCoreEvent(e: Event)
      modifies this
      ensures Now() == OnEvent(old(Now()), e)
    {
      hide OnDone, OnAborted, OnBoundary, OnGoalState, OnGoalPhase, OnError;
      match e {
        case Ready =>
          coreReady := true;
          coreLifecycle := Up;
        case Streaming(live) => cur := live;
        case Asked(p) => prompts := prompts + {p};
        case Done => HandleDone();
        case Aborted => HandleAborted();
        case Boundary => HandleBoundary();
        case GoalState(snap) => ApplyGoalState(snap);
        case GoalPhase(to) => HandleGoalPhase(to);
        case Error(alreadyQueued, coreDead) => HandleError(alreadyQueued, coreDead);
      }
    }

    method HandleEOF()
      modifies this
      ensures Now() == OnEOF(old(Now()))
    {
      if quitting {
        return;
      }
      if coreLifecycle.Failed? {
        return;
      }
      if intentionalRestart {
        intentionalRestart := false;
        ResetCoreUIState();
        StartCore();
        return;
      }
      if coreRestarts >= 1 {
        ResetCoreUIState();
        coreLifecycle := Failed;
        return;
      }
      coreRestarts := coreRestarts + 1;
      ResetCoreUIState();
      StartCore();
    }

    /** A core that cannot be started, or is not ready in time. */
    method HandleStartFailure()
      modifies `coreLifecycle, `busy, `prompts, `cur
      ensures Now() == StartFailed(old(Now()))
    {
      coreLifecycle := Failed;
      busy := false;
      prompts := {};
      cur := false;
    }

    /** Update: every input leaves what Step says, and what every run keeps. */
    method Update(i: Input)
      requires Valid(Now())
      modifies this
      ensures Now() == Step(old(Now()), i) && Valid(Now())
    {
      hide OnEvent, OnEOF, OnKey, Valid, Started, ResetUI, StartFailed;
      StepKeepsValid(Now(), i);
      match i {
        case FromCore(gen, e) =>
          if gen != coreStartGen {
            return;
          }
          HandleCoreEvent(e);
        case CoreEOF(gen) =>
          if gen != coreStartGen {
            return;
          }
          HandleEOF();
        case StartError(gen) =>
          if gen != coreStartGen {
            return;
          }
          HandleStartFailure();
        case ReadyTimeout(gen) =>
          if coreReady || gen != coreStartGen {
            return;
          }
          HandleStartFailure();
        case AbortTimeout(gen) =>
          if gen != abortGen || !busy {
            return;
          }
          busy := false;
          queuedNext := false;
          queued := None;
          prompts := {};
          cur := false;
        case Press(k) => HandleKey(k);
        case ClickQueue => CancelQueued();
        case ClickRetry =>
          ResetCoreUIState();
          StartCore();
        case Answered(p) => prompts := prompts - {p};
        case RestartCore => intentionalRestart := true;
      }
    }
  }

  // ---------------------------------------------------------------- abort watchdogs

  lemma GenCounts(t: Turn, i: Input)
    ensures Step(t, i).abortGen == t.abortGen + if Arms(t, i) || Disarms(t, i) then 1 else 0
  {
    hide OnEvent, OnEOF, OnKey, Valid, KeyAsks, KeepsBusy, QuietEvent, Work;
    match i {
      case FromCore(_, e) => EventFacts(t, e);
      case CoreEOF(_) => EOFFacts(t);
      case Press(k) => KeyFacts(t, k);
      case _ =>
    }
  }

  predicate Untouched(t: Turn, ins: seq<Input>) {
    forall k :: 0 <= k < |ins| ==> !Arms(At(t, ins, k), ins[k]) && !Disarms(At(t, ins, k), ins[k])
  }

  lemma {:induction false} GenGrows(t: Turn, ins: seq<Input>, n: nat)
    requires n <= |ins|
    ensures At(t, ins, n).abortGen >= t.abortGen
    ensures At(t, ins, n).abortGen == t.abortGen
       <==> forall k :: 0 <= k < n ==> !Arms(At(t, ins, k), ins[k]) && !Disarms(At(t, ins, k), ins[k])
  {
    hide Step, Arms, Disarms, Run;
    if n == 0 {
      AtEnds(t, ins);
    } else {
      GenGrows(t, ins, n - 1);
      AtNext(t, ins, n - 1);
      GenCounts(At(t, ins, n - 1), ins[n - 1]);
    }
  }

  /** However late it fires, a watchdog acts exactly when the session is working and nothing armed another one or
      disarmed it in the meantime. */
  lemma TimeoutIsTheLatest(s: Turn, abort: Input, ins: seq<Input>)
    requires Arms(s, abort)
    ensures
      var t := Step(s, abort);
      var u := Run(t, ins);
      && t.abortGen > s.abortGen
      && (Step(u, AbortTimeout(t.abortGen)) != u <==> u.busy && Untouched(t, ins))
  {
    GenCounts(s, abort);
    var t := Step(s, abort);
    GenGrows(t, ins, |ins|);
    AtEnds(t, ins);
  }

  lemma EndsAre(t: Turn, i: Input)
    requires t.busy && !Arms(t, i) && !Disarms(t, i) && i != AbortTimeout(t.abortGen)
    ensures !Step(t, i).busy <==> QuietEnd(t, i)
  {
    hide OnEvent, OnEOF, OnKey, Valid, KeyAsks, KeepsBusy, Work, QuietEvent, TurnStarted;
    match i {
      case FromCore(_, e) => EventFacts(t, e);
      case CoreEOF(_) => EOFFacts(t);
      case Press(k) => KeyFacts(t, k);
      case _ =>
    }
  }

  predicate WorkEnded(t: Turn, ins: seq<Input>, k: nat)
    requires k < |ins|
  {
    At(t, ins, k).busy && !At(t, ins, k + 1).busy
  }

  /** A watchdog that acts stops the very turn that was aborted, unless that turn ended quietly; then it stops whatever
      was started since. */
  lemma TimeoutStopsLaterTurn(s: Turn, abort: Input, ins: seq<Input>)
    requires Arms(s, abort)
    requires
      var t := Step(s, abort);
      && AbortTimeout(t.abortGen) !in ins
      && Step(Run(t, ins), AbortTimeout(t.abortGen)) != Run(t, ins)
    ensures
      var t := Step(s, abort);
      && (exists k :: 0 <= k < |ins| && WorkEnded(t, ins, k))
      <==> (exists k :: 0 <= k < |ins| && At(t, ins, k).busy && QuietEnd(At(t, ins, k), ins[k]))
  {
    TimeoutIsTheLatest(s, abort, ins);
    var t := Step(s, abort);
    hide Step, Arms, Disarms, Run, QuietEnd;
    forall k | 0 <= k < |ins|
      ensures WorkEnded(t, ins, k) <==> At(t, ins, k).busy && QuietEnd(At(t, ins, k), ins[k])
    {
      GenGrows(t, ins, k);
      AtNext(t, ins, k);
      if At(t, ins, k).busy {
        assert ins[k] in ins;
        EndsAre(At(t, ins, k), ins[k]);
      }
    }
  }

  /** It happens: abort, the goal is cleared before the core answers, the next turn begins, the old watchdog fires. */
  lemma LateWatchdogStopsNextTurn(t: Turn, prompt: string)
    requires t.busy && t.queued.None? && !t.life.Failed?
    ensures
      var aborted := Step(t, Press(Close));
      var cleared := Step(aborted, FromCore(t.startGen, GoalState(None)));
      var next := Step(cleared, Press(SendKey(prompt, true)));
      && !cleared.busy && next.busy
      && !Step(next, AbortTimeout(aborted.abortGen)).busy
  {
  }

  // ---------------------------------------------------------------- cores that are gone

  lemma StartCounts(t: Turn, i: Input)
    ensures Step(t, i).startGen == t.startGen + if Starts(t, i) then 1 else 0
  {
    hide OnEvent, OnEOF, OnKey, Valid, KeyAsks, KeyArms, KeepsBusy, QuietEvent, Work;
    match i {
      case FromCore(_, e) => EventFacts(t, e);
      case CoreEOF(_) => EOFFacts(t);
      case Press(k) => KeyFacts(t, k);
      case _ =>
    }
  }

  /** The core an input comes from. */
  function Source(i: Input): Option<nat> {
    match i
    case FromCore(gen, _) => Some(gen)
    case CoreEOF(gen) => Some(gen)
    case StartError(gen) => Some(gen)
    case ReadyTimeout(gen) => Some(gen)
    case _ => None
  }

  lemma {:induction false} StartGrows(t: Turn, ins: seq<Input>, n: nat)
    requires n <= |ins|
    ensures At(t, ins, n).startGen >= t.startGen
    ensures At(t, ins, n).startGen == t.startGen <==> forall k :: 0 <= k < n ==> !Starts(At(t, ins, k), ins[k])
  {
    hide Step, Starts, Run;
    if n == 0 {
      AtEnds(t, ins);
    } else {
      StartGrows(t, ins, n - 1);
      AtNext(t, ins, n - 1);
      StartCounts(At(t, ins, n - 1), ins[n - 1]);
    }
  }

  /** Once a newer core was started, nothing an earlier core sends, its end, its failure to start and its watchdog
      included, changes anything, however late it arrives. */
  lemma OldCoreIsSilent(t: Turn, ins: seq<Input>, k: nat, late: Input)
    requires k < |ins| && Starts(At(t, ins, k), ins[k])
    requires Source(late).Some? && Source(late).value <= t.startGen
    ensures Step(Run(t, ins), late) == Run(t, ins)
  {
    StartGrows(t, ins, |ins|);
    AtEnds(t, ins);
  }

  function CrashRestarts(t: Turn, ins: seq<Input>, n: nat): nat
    requires n <= |ins|
  {
    if n == 0 then 0
    else CrashRestarts(t, ins, n - 1) + if RestartsByItself(At(t, ins, n - 1), ins[n - 1]) then 1 else 0
  }

  lemma BudgetStep(t: Turn, i: Input)
    ensures Step(t, i).turns >= t.turns
    ensures Step(t, i).turns == t.turns ==> Step(t, i).restarts == t.restarts + if RestartsByItself(t, i) then 1 else 0
  {
    hide OnEvent, OnEOF, OnKey, Valid, KeyAsks, KeyArms, KeepsBusy, QuietEvent, Work;
    match i {
      case FromCore(_, e) => EventFacts(t, e);
      case CoreEOF(_) => EOFFacts(t);
      case Press(k) => KeyFacts(t, k);
      case _ =>
    }
  }

  lemma {:induction false} BudgetRun(t: Turn, ins: seq<Input>, n: nat)
    requires n <= |ins|
    ensures At(t, ins, n).turns >= t.turns
    ensures At(t, ins, n).turns == t.turns ==> At(t, ins, n).restarts == t.restarts + CrashRestarts(t, ins, n)
  {
    hide Step, RestartsByItself, Run;
    if n == 0 {
      AtEnds(t, ins);
    } else {
      BudgetRun(t, ins, n - 1);
      AtNext(t, ins, n - 1);
      BudgetStep(At(t, ins, n - 1), ins[n - 1]);
    }
  }

  /** While no turn is completed, at most one crash is answered by starting a core. */
  lemma OneRestartPerTurn(t: Turn, ins: seq<Input>)
    requires Valid(t) && Run(t, ins).turns == t.turns
    ensures CrashRestarts(t, ins, |ins|) + t.restarts <= 1
  {
    BudgetRun(t, ins, |ins|);
    AtEnds(t, ins);
    RunKeepsValid(t, ins);
  }

  // ---------------------------------------------------------------- the footer cannot stay on "working"

  lemma WorkStep(t: Turn, i: Input)
    ensures Work(Step(t, i)) <= Work(t) + if Asks(t, i) then 1 else 0
    ensures Ends(t, i) ==> Work(Step(t, i)) < Work(t) || Work(t) == Work(Step(t, i)) == 0
  {
    hide OnEvent, OnEOF, OnKey, Valid, KeyArms, QuietEvent, KeepsBusy;
    match i {
      case FromCore(_, e) => EventFacts(t, e);
      case CoreEOF(_) => EOFFacts(t);
      case Press(k) => KeyFacts(t, k);
      case _ =>
    }
  }

  function Wanted(t: Turn, ins: seq<Input>, n: nat): nat
    requires n <= |ins|
  {
    if n == 0 then 0 else Wanted(t, ins, n - 1) + if Asks(At(t, ins, n - 1), ins[n - 1]) then 1 else 0
  }

  /** The ends that found a turn to end. */
  function Ended(t: Turn, ins: seq<Input>, n: nat): nat
    requires n <= |ins|
  {
    if n == 0 then 0
    else
      Ended(t, ins, n - 1) + if Ends(At(t, ins, n - 1), ins[n - 1]) && Work(At(t, ins, n - 1)) > 0 then 1 else 0
  }

  function AllEnds(t: Turn, ins: seq<Input>, n: nat): nat
    requires n <= |ins|
  {
    if n == 0 then 0 else AllEnds(t, ins, n - 1) + if Ends(At(t, ins, n - 1), ins[n - 1]) then 1 else 0
  }

  /** In every run the turns that were ended and those still waited for are covered by the turns asked for. */
  lemma {:induction false} TurnsBalance(t: Turn, ins: seq<Input>, n: nat)
    requires n <= |ins|
    ensures Work(At(t, ins, n)) + Ended(t, ins, n) <= Work(t) + Wanted(t, ins, n)
    ensures Wanted(t, ins, n) == 0 ==> Work(At(t, ins, n)) == 0 || AllEnds(t, ins, n) == Ended(t, ins, n)
  {
    hide Step, Asks, Ends, Run, Work;
    if n == 0 {
      AtEnds(t, ins);
    } else {
      TurnsBalance(t, ins, n - 1);
      AtNext(t, ins, n - 1);
      WorkStep(At(t, ins, n - 1), ins[n - 1]);
    }
  }

  /** Unless the user or a goal asks for more, two ends from the core release the session, whatever comes between and
      whatever was queued. */
  lemma TwoEndsRelease(t: Turn, ins: seq<Input>)
    requires Wanted(t, ins, |ins|) == 0 && AllEnds(t, ins, |ins|) >= 2
    ensures !Run(t, ins).busy && !Run(t, ins).queuedNext
  {
    TurnsBalance(t, ins, |ins|);
    AtEnds(t, ins);
  }

  /** The end of a turn releases the session exactly when nothing is queued and no goal is at work. */
  lemma DoneReleasesIff(t: Turn)
    requires t.busy
    ensures !Step(t, FromCore(t.startGen, Done)).busy <==> !t.queuedNext && !KeepsBusy(t)
  {
  }

  /** A message that is queued is replaced by another one only through a steer; a follow-up never displaces it. */
  lemma OnlySteerReplacesQueued(t: Turn, i: Input)
    requires t.queued.Some?
    ensures
      var q := Step(t, i).queued;
      && (q.Some? && q != t.queued ==> q.value.Steer?)
      && (i.Press? && i.key.SendKey? && t.busy ==> q == t.queued)
  {
    hide OnEvent, OnEOF, OnKey, Valid, KeyArms, KeyAsks, KeepsBusy, QuietEvent, Work;
    match i {
      case FromCore(_, e) => EventFacts(t, e);
      case CoreEOF(_) => EOFFacts(t);
      case Press(k) => KeyFacts(t, k);
      case _ =>
    }
  }
}
