/** Who owns the composer (tui/input_owner.go): blocking interactions put the user's draft aside and give it back, and
    intercom requests wait their turn. */
module Drafts {
  import opened Options

  /** The visible state of the composer; the cursor is an offset into the text. */
  datatype Surface = Surface(text: string, cursor: nat, images: seq<string>)

  const Blank: Surface := Surface("", 0, [])

  datatype Draft = Draft(owner: string, surface: Surface)

  /** `drafts` is the stack of drafts put aside, the oldest first; requests are known by their ids. */
  datatype State = State(surface: Surface, drafts: seq<Draft>, pending: Option<string>, queue: seq<string>)

  // ---------------------------------------------------------------- the operations

  predicate Owns(drafts: seq<Draft>, owner: string) {
    exists i :: 0 <= i < |drafts| && drafts[i].owner == owner
  }

  /** The newest draft of an owner, or -1. */
  function IndexOf(drafts: seq<Draft>, owner: string, n: nat): (i: int)
    requires n <= |drafts|
    ensures -1 <= i < n
    ensures i >= 0 ==> drafts[i].owner == owner
    ensures forall j :: i < j < n ==> drafts[j].owner != owner
  {
    if n == 0 then -1 else if drafts[n - 1].owner == owner then n - 1 else IndexOf(drafts, owner, n - 1)
  }

  function Suspend(s: State, owner: string): State {
    if owner == "" || Owns(s.drafts, owner) then s
    else s.(surface := Blank, drafts := s.drafts + [Draft(owner, s.surface)])
  }

  function Restore(s: State, owner: string): State {
    var i := IndexOf(s.drafts, owner, |s.drafts|);
    if i < 0 then s
    else
      var t := s.(drafts := s.drafts[..i] + s.drafts[i + 1..]);
      if i < |s.drafts| - 1 then t else t.(surface := s.drafts[i].surface)
  }

  function RestoreAll(s: State): State {
    if s.drafts == [] then s else s.(surface := s.drafts[0].surface, drafts := [])
  }

  predicate Waits(s: State, id: string) {
    s.pending == Some(id) || id in s.queue
  }

  function Enqueue(s: State, id: string): State {
    if id == "" || Waits(s, id) then s
    else if s.pending == None then Suspend(s, "intercom").(pending := Some(id))
    else s.(queue := s.queue + [id])
  }

  /** Input.Reset empties the text and leaves the images. */
  function Emptied(x: Surface): Surface {
    Surface("", 0, x.images)
  }

  function Advance(s: State): State {
    var t := s.(surface := Emptied(s.surface));
    if t.queue != [] then t.(pending := Some(t.queue[0]), queue := t.queue[1..])
    else Restore(t.(pending := None), "intercom")
  }

  /** clearBlockingPrompts: the end of a turn drops the requests and leaves the drafts where they are. */
  function ClearPrompts(s: State): State {
    s.(pending := None, queue := [])
  }

  // ---------------------------------------------------------------- the session's code

  class Composer {
    var value: string
    var cursor: nat
    var pendingImages: seq<string>
    var composerDrafts: seq<Draft>
    var pendingIntercom: Option<string>
    var intercomQueue: seq<string>

    ghost predicate Valid()
      reads this
    {
      && cursor <= |value|
      && forall i :: 0 <= i < |composerDrafts| ==> composerDrafts[i].surface.cursor <= |composerDrafts[i].surface.text|
    }

    function TheState(): State
      reads this
    {
      State(Surface(value, cursor, pendingImages), composerDrafts, pendingIntercom, intercomQueue)
    }

    constructor ()
      ensures Valid() && TheState() == State(Blank, [], None, [])
    {
      value, cursor, pendingImages, composerDrafts, pendingIntercom, intercomQueue := "", 0, [], [], None, [];
    }

    /** setInputCursor. */
    method SetInputCursor(pos: nat)
      modifies `cursor
      ensures cursor == if pos > |value| then |value| else pos
    {
      cursor := if pos > |value| then |value| else pos;
    }

    method SuspendComposer(owner: string)
      requires Valid()
      modifies this
      ensures Valid() && TheState() == Suspend(old(TheState()), owner)
    {
      if owner == "" {
        return;
      }
      for i := 0 to |composerDrafts|
        invariant Valid() && TheState() == old(TheState())
        invariant forall j :: 0 <= j < i ==> composerDrafts[j].owner != owner
      {
        if composerDrafts[i].owner == owner {
          return;
        }
      }
      composerDrafts := composerDrafts + [Draft(owner, Surface(value, cursor, pendingImages))];
      value, cursor, pendingImages := "", 0, [];
    }

    method RestoreComposer(owner: string)
      requires Valid()
      modifies this
      ensures Valid() && TheState() == Restore(old(TheState()), owner)
    {
      var idx := -1;
      var i := |composerDrafts| - 1;
      while i >= 0
        invariant -1 <= i < |composerDrafts| && Valid() && TheState() == old(TheState())
        invariant idx == -1 && IndexOf(composerDrafts, owner, i + 1) == IndexOf(composerDrafts, owner, |composerDrafts|)
      {
        if composerDrafts[i].owner == owner {
          idx := i;
          break;
        }
        i := i - 1;
      }
      if idx < 0 {
        return;
      }
      var d := composerDrafts[idx];
      composerDrafts := composerDrafts[..idx] + composerDrafts[idx + 1..];
      if idx != |composerDrafts| {
        return;
      }
      value := d.surface.text;
      SetInputCursor(d.surface.cursor);
      pendingImages := d.surface.images;
    }

    method RestoreAllComposerDrafts()
      requires Valid()
      modifies this
      ensures Valid() && TheState() == RestoreAll(old(TheState()))
    {
      if |composerDrafts| == 0 {
        return;
      }
      var d := composerDrafts[0];
      composerDrafts := [];
      value := d.surface.text;
      SetInputCursor(d.surface.cursor);
      pendingImages := d.surface.images;
    }

    method EnqueueIntercom(id: string)
      requires Valid()
      modifies this
      ensures Valid() && TheState() == Enqueue(old(TheState()), id)
    {
      if id == "" {
        return;
      }
      if pendingIntercom == Some(id) {
        return;
      }
      for i := 0 to |intercomQueue|
        invariant Valid() && TheState() == old(TheState())
        invariant id !in intercomQueue[..i]
      {
        if intercomQueue[i] == id {
          return;
        }
      }
      assert intercomQueue[..|intercomQueue|] == intercomQueue;
      if pendingIntercom == None {
        SuspendComposer("intercom");
        pendingIntercom := Some(id);
        return;
      }
      intercomQueue := intercomQueue + [id];
    }

    method AdvanceIntercom()
      requires Valid()
      modifies this
      ensures Valid() && TheState() == Advance(old(TheState()))
    {
      value, cursor := "", 0;
      if |intercomQueue| > 0 {
        pendingIntercom := Some(intercomQueue[0]);
        intercomQueue := intercomQueue[1..];
        return;
      }
      pendingIntercom := None;
      RestoreComposer("intercom");
    }
  }

  // ---------------------------------------------------------------- nested owners

  /** What can happen while the composer is in use: the surface changes under the user's hands, or an interaction
      holds the composer for a while. */
  datatype Act = Type(surface: Surface) | Hold(owner: string, body: seq<Act>)

  predicate Distinct(drafts: seq<Draft>) {
    forall i, j :: 0 <= i < j < |drafts| ==> drafts[i].owner != drafts[j].owner
  }

  ghost function RunActs(s: State, acts: seq<Act>): State
    decreases acts, 0
  {
    if acts == [] then s else RunActs(RunAct(s, acts[0]), acts[1..])
  }

  ghost function RunAct(s: State, act: Act): State
    decreases act, 1
  {
    match act
    case Type(surface) => s.(surface := surface)
    case Hold(owner, body) => Restore(RunActs(Suspend(s, owner), body), owner)
  }

  /** Interactions have names, and no two that are nested have the same. */
  ghost predicate FreshOwners(drafts: seq<Draft>, acts: seq<Act>)
    decreases acts, 0
  {
    acts != [] ==> FreshOwner(drafts, acts[0]) && FreshOwners(drafts, acts[1..])
  }

  ghost predicate FreshOwner(drafts: seq<Draft>, act: Act)
    decreases act, 1
  {
    match act
    case Type(_) => true
    case Hold(owner, body) =>
      owner != "" && !Owns(drafts, owner) && forall x :: FreshOwners(drafts + [Draft(owner, x)], body)
  }

  /** Owners released in the reverse order of acquisition leave the stack as they found it. */
  lemma {:induction false} ActsKeepDrafts(s: State, acts: seq<Act>)
    requires FreshOwners(s.drafts, acts)
    ensures RunActs(s, acts).drafts == s.drafts
    decreases acts, 0
  {
    if acts != [] {
      ActKeepsDrafts(s, acts[0]);
      ActsKeepDrafts(RunAct(s, acts[0]), acts[1..]);
    }
  }

  /** ... and give back text, cursor and attachments exactly, whatever was typed in between. */
  lemma {:induction false} ActKeepsDrafts(s: State, act: Act)
    requires FreshOwner(s.drafts, act)
    ensures RunAct(s, act).drafts == s.drafts
    ensures act.Hold? ==> RunAct(s, act).surface == s.surface
    decreases act, 1
  {
    match act {
      case Type(_) =>
      case Hold(owner, body) =>
        var t := Suspend(s, owner);
        assert t.drafts == s.drafts + [Draft(owner, s.surface)];
        ActsKeepDrafts(t, body);
        var u := RunActs(t, body);
        assert u.drafts[..|s.drafts|] + u.drafts[|u.drafts|..] == s.drafts;
    }
  }

  // ---------------------------------------------------------------- owners in any order

  /** The user's own draft: the oldest one put aside, or what is in the composer. */
  function UserDraft(s: State): Surface {
    if s.drafts == [] then s.surface else s.drafts[0].surface
  }

  /** Releases in any order: the user's draft is lost exactly when its own interaction is released while another one
      still holds the composer (and had put aside something else). */
  lemma RestoreKeepsUserDraft(s: State, owner: string)
    requires Distinct(s.drafts)
    ensures UserDraft(Restore(s, owner)) == UserDraft(s) <==>
            !(|s.drafts| > 1 && s.drafts[0].owner == owner && s.drafts[1].surface != s.drafts[0].surface)
    ensures Distinct(Restore(s, owner).drafts)
  {
    var i := IndexOf(s.drafts, owner, |s.drafts|);
    if |s.drafts| > 1 && s.drafts[0].owner == owner {
      assert i == 0;
      assert Restore(s, owner).drafts[0] == s.drafts[1];
    }
  }

  /** Everything else keeps it. */
  lemma OthersKeepUserDraft(s: State, owner: string, id: string, x: Surface)
    ensures UserDraft(Suspend(s, owner)) == UserDraft(s)
    ensures UserDraft(Enqueue(s, id)) == UserDraft(s)
    ensures UserDraft(RestoreAll(s)) == UserDraft(s) && RestoreAll(s).surface == UserDraft(s)
    ensures UserDraft(ClearPrompts(s)) == UserDraft(s)
    ensures s.drafts != [] ==> UserDraft(s.(surface := x)) == UserDraft(s)
  {
  }

  /** Suspending for an owner that holds a draft already does nothing, so its next release brings back that older
      draft and not what was in the composer. The end of a turn creates this situation: it drops a pending request
      and leaves the draft put aside for it. */
  lemma SecondSuspendLosesDraft(s: State, owner: string, typed: Surface)
    requires s.drafts != [] && owner != ""
    requires s.drafts[|s.drafts| - 1].owner == owner
    ensures
      var back := Restore(Suspend(s, owner).(surface := typed), owner);
      && back.surface == s.drafts[|s.drafts| - 1].surface
      && (back.surface == s.surface <==> s.drafts[|s.drafts| - 1].surface == s.surface)
  {
    assert Owns(s.drafts, owner);
  }

  lemma TurnEndStrandsDraft(s: State, id: string, other: string, typed: Surface, reply: Surface)
    requires s.drafts == [] && s.pending == None && s.queue == [] && id != "" && other != ""
    ensures
      var ended := ClearPrompts(Enqueue(s, id));
      && ended.pending == None && ended.drafts == [Draft("intercom", s.surface)]
      && Advance(Enqueue(ended.(surface := typed), other).(surface := reply)).surface == s.surface
  {
    var ended := ClearPrompts(Enqueue(s, id));
    assert ended.drafts == [Draft("intercom", s.surface)];
    assert ended.drafts[0].owner == "intercom";
    assert Owns(ended.drafts, "intercom");
  }

  // ---------------------------------------------------------------- the intercom queue

  /** A request arrives, the pending one is answered, or the turn ends. */
  datatype Call = Arrive(id: string) | Answered | TurnEnd

  /** The requests of one turn: those accepted, in the order of arrival, those that became pending, and those that were
      dropped at its end. */
  datatype Round = Round(accepted: seq<string>, shown: seq<string>, dropped: seq<string>)

  /** The rounds of earlier turns, and what was accepted and shown in this one. */
  datatype Log = Log(s: State, past: seq<Round>, accepted: seq<string>, shown: seq<string>)

  function LogStep(l: Log, c: Call): Log {
    match c
    case Arrive(id) =>
      var t := Enqueue(l.s, id);
      if id == "" || Waits(l.s, id) then l
      else Log(t, l.past, l.accepted + [id], if l.s.pending == None then l.shown + [id] else l.shown)
    case Answered =>
      var t := Advance(l.s);
      Log(t, l.past, l.accepted, if t.pending == None then l.shown else l.shown + [t.pending.value])
    case TurnEnd => Log(ClearPrompts(l.s), l.past + [Round(l.accepted, l.shown, l.s.queue)], [], [])
  }

  function LogRun(l: Log, calls: seq<Call>): Log
    decreases |calls|
  {
    if calls == [] then l else LogRun(LogStep(l, calls[0]), calls[1..])
  }

  /** First come, first served: in this turn what was shown and what waits are together what was accepted, in order;
      nothing waits while nothing is shown; no request waits twice; and of every earlier turn what was shown and what
      was dropped are together what was accepted, in order. */
  predicate Fair(l: Log) {
    && l.accepted == l.shown + l.s.queue
    && (l.s.pending == None ==> l.s.queue == [])
    && (l.s.pending != None ==>
          l.shown != [] && l.s.pending.value == l.shown[|l.shown| - 1] && l.s.pending.value !in l.s.queue)
    && (forall i, j :: 0 <= i < j < |l.s.queue| ==> l.s.queue[i] != l.s.queue[j])
    && (forall i :: 0 <= i < |l.past| ==> l.past[i].accepted == l.past[i].shown + l.past[i].dropped)
  }

  lemma RestoreKeepsIntercom(s: State, owner: string)
    ensures Restore(s, owner).pending == s.pending && Restore(s, owner).queue == s.queue
  {
  }

  lemma LogStepIsFair(l: Log, c: Call)
    requires Fair(l) && (c.Answered? ==> l.s.pending != None)
    ensures Fair(LogStep(l, c))
  {
    match c {
      case Arrive(id) =>
        assert (l.shown + l.s.queue) + [id] == l.shown + (l.s.queue + [id]);
        assert l.s.queue == [] ==> (l.shown + l.s.queue) + [id] == (l.shown + [id]) + l.s.queue;
      case Answered =>
        if l.s.queue != [] {
          assert l.shown + l.s.queue == (l.shown + [l.s.queue[0]]) + l.s.queue[1..];
        } else {
          RestoreKeepsIntercom(l.s.(surface := Emptied(l.s.surface), pending := None), "intercom");
        }
      case TurnEnd =>
    }
  }

  /** Only a pending request can be answered. */
  predicate Answerable(l: Log, calls: seq<Call>)
    decreases |calls|
  {
    calls != [] ==> (calls[0].Answered? ==> l.s.pending != None) && Answerable(LogStep(l, calls[0]), calls[1..])
  }

  lemma {:induction false} IntercomIsFair(l: Log, calls: seq<Call>)
    requires Fair(l) && Answerable(l, calls)
    ensures Fair(LogRun(l, calls))
    decreases |calls|
  {
    hide Fair, LogStep;
    if calls != [] {
      LogStepIsFair(l, calls[0]);
      IntercomIsFair(LogStep(l, calls[0]), calls[1..]);
    }
  }

  // ---------------------------------------------------------------- what is in the composer

  /** An interaction that takes the composer finds it empty, and what was in it is the newest draft; one that has a
      draft there already finds what it left. */
  lemma TakenComposerIsEmpty(s: State, owner: string)
    requires owner != ""
    ensures
      var t, held := Suspend(s, owner), exists i :: 0 <= i < |s.drafts| && s.drafts[i].owner == owner;
      && (!held ==> t.surface == Surface("", 0, []) && t.drafts == s.drafts + [Draft(owner, s.surface)])
      && (held ==> t == s) && t.pending == s.pending && t.queue == s.queue
      && (t.surface == Surface("", 0, []) <==> !held || s.surface == Surface("", 0, []))
  {
  }

  /** A release takes the owner's newest draft off the stack; it comes back into the composer exactly when no other
      draft is above it (or the composer holds the same already). */
  lemma ReleaseTakesNewest(s: State, owner: string, i: nat)
    requires i < |s.drafts| && s.drafts[i].owner == owner
    requires forall j :: i < j < |s.drafts| ==> s.drafts[j].owner != owner
    ensures
      var t := Restore(s, owner);
      && |t.drafts| == |s.drafts| - 1 && t.drafts[..i] == s.drafts[..i] && t.drafts[i..] == s.drafts[i + 1..]
      && t.surface == (if i == |s.drafts| - 1 then s.drafts[i].surface else s.surface)
      && (t.surface == s.drafts[i].surface <==> i == |s.drafts| - 1 || s.surface == s.drafts[i].surface)
      && t.pending == s.pending && t.queue == s.queue
  {
    assert IndexOf(s.drafts, owner, |s.drafts|) == i;
  }

  lemma ReleaseOfNone(s: State, owner: string)
    requires forall j :: 0 <= j < |s.drafts| ==> s.drafts[j].owner != owner
    ensures Restore(s, owner) == s
  {
  }

  /** A request is accepted exactly when it has a name and is neither shown nor waiting; it is shown at once exactly
      when none is, in an empty composer unless an intercom draft was left behind; otherwise it waits behind all
      others. */
  lemma ArrivalIs(l: Log, id: string)
    ensures
      var m, s := LogStep(l, Arrive(id)), l.s;
      var known := s.pending == Some(id) || exists i :: 0 <= i < |s.queue| && s.queue[i] == id;
      var left := exists i :: 0 <= i < |s.drafts| && s.drafts[i].owner == "intercom";
      && (id == "" || known ==> m == l)
      && (id != "" && !known ==> m.accepted == l.accepted + [id] && m.past == l.past)
      && (id != "" && !known && s.pending == None ==>
            && m.s.pending == Some(id) && m.s.queue == s.queue && m.shown == l.shown + [id]
            && (m.s.surface == Surface("", 0, []) <==> !left || s.surface == Surface("", 0, []))
            && (!left ==> m.s.drafts == s.drafts + [Draft("intercom", s.surface)])
            && (left ==> m.s.drafts == s.drafts && m.s.surface == s.surface))
      && (id != "" && !known && s.pending != None ==> m.s == s.(queue := s.queue + [id]) && m.shown == l.shown)
  {
    TakenComposerIsEmpty(l.s, "intercom");
    hide Suspend;
  }

  /** An answer empties the text and leaves the images for the next request, the first that waits; after the last one
      the intercom's draft comes back if it is the newest, and otherwise the text stays empty. */
  lemma AnswerIs(l: Log)
    ensures
      var m, s := LogStep(l, Answered), l.s;
      var n := |s.drafts|;
      && m.past == l.past && m.accepted == l.accepted
      && (s.queue != [] ==>
            && m.s == s.(surface := Surface("", 0, s.surface.images), pending := Some(s.queue[0]),
                         queue := s.queue[1..])
            && m.shown == l.shown + [s.queue[0]])
      && (s.queue == [] ==>
            && m.s.pending == None && m.s.queue == [] && m.shown == l.shown
            && (n > 0 && s.drafts[n - 1].owner == "intercom" ==>
                  m.s.surface == s.drafts[n - 1].surface && m.s.drafts == s.drafts[..n - 1])
            && (n == 0 || s.drafts[n - 1].owner != "intercom" ==> m.s.surface == Surface("", 0, s.surface.images)))
  {
    var s := l.s;
    var t := s.(surface := Surface("", 0, s.surface.images), pending := None);
    var n := |s.drafts|;
    RestoreKeepsIntercom(t, "intercom");
    if s.queue == [] && n > 0 && s.drafts[n - 1].owner == "intercom" {
      ReleaseTakesNewest(t, "intercom", n - 1);
      assert Restore(t, "intercom").drafts == s.drafts[..n - 1];
    }
  }
}
