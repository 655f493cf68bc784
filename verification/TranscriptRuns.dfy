/** The transcript over whole runs of a session, told by its events: what each event does to the list of blocks, what is
    printed, and which of the blocks that were pushed are still there. */
module TranscriptRuns {
  import opened Options
  import opened Text
  import opened Transcript
  import opened TranscriptSession
  import opened TranscriptTheorems
  import TranscriptLag
  import T = TranscriptText

  datatype Event =
    | Logged(c: Content)
    | Streamed(kind: Kind, text: string)
    | Called(name: string, args: string, sub: bool, id: string, now: int)
    | Resulted(id: string, out: string, diff: string, ok: bool, took: nat)
    | Settled(note: string, now: int)
    | Decided(d: Decision)
    | Discarded
    | Ended
    | Folded
    | Clicked(i: nat)
    | Chosen(model: Option<string>)
    | Cleared
    | Painted(now: int)

  datatype State = State(cs: seq<Content>, live: bool, model: Option<string>, unfolded: bool)

  /** A complete block does not stream, and only the list itself has a marker. */
  predicate Fits(e: Event) {
    && (e.Logged? ==> e.c.kind !in {Assistant, Thinking, Trimmed})
    && (e.Streamed? ==> e.kind in {Assistant, Thinking})
  }

  predicate Tidy(cs: seq<Content>) {
    |cs| <= 400 && forall i :: 0 < i < |cs| ==> cs[i].kind != Trimmed
  }

  // ---------------------------------------------------------------- what an event does

  /** A new block goes to the end. Of more than 400 the oldest ones are counted by a marker. */
  predicate Adds(cs: seq<Content>, c: Content, cs': seq<Content>) {
    if |cs| < 400 then cs' == cs + [c]
    else
      && |cs'| == 400 == |cs| && cs'[1..] == cs[2..] + [c]
      && cs'[0].kind == Trimmed && cs'[0].trimmed == if cs[0].kind == Trimmed then cs[0].trimmed + 1 else 2
  }

  function Bare(kind: Kind): Content {
    Content(kind, "", "", "", "", "", false, 0, 0, false, "", false, "", false, false, false, Pending, 0)
  }

  /** A text grows up to 256 KiB; what does not fit is cut off and marked once. */
  function Longer(text: string, more: string): string {
    if |text| + |more| <= 262144 then text + more
    else if |text| + |"\n…[truncated]"| < 262144 then
      (text + more)[..262144 - |"\n…[truncated]"|] + "\n…[truncated]"
    else text
  }

  function Cut(s: string, n: nat): string {
    if |s| <= n then s else s[..n] + "\n…[truncated]"
  }

  /** Block i is the newest call that waits for a result under this id, or for any if there is none. */
  predicate Newest(cs: seq<Content>, id: string, i: nat) {
    && i < |cs| && Unanswered(cs[i], id)
    && forall j :: i < j < |cs| ==> !Unanswered(cs[j], id)
  }

  predicate Unanswered(c: Content, id: string) {
    c.kind == Tool && c.dur == 0 && (id == "" || c.id == id)
  }

  predicate Undecided(c: Content) {
    c.kind == Approve && c.approval == Pending
  }

  predicate Spaces(s: string) {
    forall k :: 0 <= k < |s| ==> s[k] in {' ', '\t', '\n', '\r', '\U{000b}', '\U{000c}'}
  }

  /** A call that still runs gets its time, and a note in place of a missing output. */
  predicate Settles(c: Content, note: string, now: int, c': Content) {
    if c.kind != Tool || c.dur != 0 then c' == c
    else
      var took := if c.started < now then now - c.started else 0;
      if !Spaces(c.output) then c' == c.(dur := took)
      else if c.name == "finish" then
        c' == c.(dur := took, output := "This turn has finished", hasOk := true, ok := true)
      else c' == c.(dur := took, output := note)
  }

  predicate Decides(c: Content, d: Decision, c': Content) {
    && c'.approval == (if d == Once then Approved else if d == Forever then Always else Denied)
    && c'.diff == "" && c'.args == Cut(c.args, 4096)
    && c' == c.(approval := c'.approval, diff := c'.diff, args := c'.args)
  }

  /** What is left of a block when its picture is in the cache. */
  function Shrunk(c: Content): Content {
    if c.kind in {Tool, Approve} then c.(args := Cut(c.args, 4096), diff := Cut(c.diff, 4096)) else c
  }

  predicate Talk(c: Content) {
    c.kind in {User, Assistant, Thinking, Tool, ToolResult, Approve}
  }

  predicate AnyTalk(cs: seq<Content>) {
    exists i :: 0 <= i < |cs| && Talk(cs[i])
  }

  predicate Streams(a: State, kind: Kind, text: string, b: State) {
    var model := if kind == Assistant && a.model.Some? then a.model else None;
    if a.live && a.cs != [] && a.cs[|a.cs| - 1].kind == kind then
      var c := a.cs[|a.cs| - 1];
      var c' := c.(text := Longer(c.text, text), model := if model == None then c.model else model.value);
      b == a.(cs := a.cs[..|a.cs| - 1] + [c'])
    else
      var c := Bare(kind).(text := Longer("", text), collapsed := kind == Thinking && !a.unfolded,
                           model := if model == None then "" else model.value);
      Adds(a.cs, c, b.cs) && b == a.(cs := b.cs, live := true)
  }

  /** The newest call that waits for the result takes it; without one it is a block of its own. */
  predicate Results(cs: seq<Content>, id: string, out: string, diff: string, ok: bool, took: nat, cs': seq<Content>) {
    || (exists i :: 0 <= i < |cs| && Newest(cs, id, i)
                    && cs' == cs[i := cs[i].(output := Cut(out, 65536), diff := Cut(diff, 65536), ok := ok,
                                             hasOk := true, dur := took)])
    || ((forall i :: 0 <= i < |cs| ==> !Unanswered(cs[i], id))
        && Adds(cs, Bare(ToolResult).(output := Cut(out, 65536)), cs'))
  }

  /** The newest open approval takes the decision. */
  predicate Resolves(cs: seq<Content>, d: Decision, cs': seq<Content>) {
    || (d != Other
        && |cs'| == |cs|
        && exists i :: 0 <= i < |cs| && Undecided(cs[i]) && (forall j :: i < j < |cs| ==> !Undecided(cs[j]))
                       && Decides(cs[i], d, cs'[i]) && cs' == cs[i := cs'[i]])
    || ((d == Other || forall i :: 0 <= i < |cs| ==> !Undecided(cs[i])) && cs' == cs)
  }

  /** A click folds or unfolds a thought, or the output of a call or result. */
  predicate Flips(cs: seq<Content>, i: nat, cs': seq<Content>) {
    if i < |cs| && cs[i].kind == Thinking then cs' == cs[i := cs[i].(collapsed := !cs[i].collapsed)]
    else if i < |cs| && cs[i].kind in {Tool, ToolResult} then cs' == cs[i := cs[i].(expanded := !cs[i].expanded)]
    else cs' == cs
  }

  /** All streamed blocks at the end go. */
  predicate Drops(cs: seq<Content>, cs': seq<Content>) {
    && cs' <= cs && (forall i :: |cs'| <= i < |cs| ==> cs[i].kind in {Assistant, Thinking})
    && (cs' != [] ==> cs'[|cs'| - 1].kind !in {Assistant, Thinking})
  }

  /** A drawing shrinks the blocks it puts into the cache. */
  predicate Shrinks(cs: seq<Content>, live: bool, cs': seq<Content>) {
    if !AnyTalk(cs) then cs' == cs
    else
      && |cs'| == |cs|
      && forall i :: 0 <= i < |cs| ==>
           cs'[i] == if T.Cached(cs, live, i) then Shrunk(cs[i]) else cs[i]
  }

  predicate Told(e: Event, a: State, b: State) {
    match e
    case Logged(c) => Adds(a.cs, c, b.cs) && b == a.(cs := b.cs, live := false)
    case Streamed(kind, text) => Streams(a, kind, text, b)
    case Called(name, args, sub, id, now) =>
      var c := Bare(Tool).(name := name, args := Cut(args, 65536), sub := sub, id := id, timed := true, started := now);
      Adds(a.cs, c, b.cs) && b == a.(cs := b.cs, live := false)
    case Resulted(id, out, diff, ok, took) =>
      Results(a.cs, id, out, diff, ok, took, b.cs) && b == a.(cs := b.cs, live := false)
    case Settled(note, now) =>
      && |b.cs| == |a.cs| && (forall i :: 0 <= i < |a.cs| ==> Settles(a.cs[i], note, now, b.cs[i]))
      && b == a.(cs := b.cs)
    case Decided(d) => Resolves(a.cs, d, b.cs) && b == a.(cs := b.cs)
    case Discarded => Drops(a.cs, b.cs) && b == a.(cs := b.cs, live := false)
    case Ended => b == a.(live := false)
    case Folded =>
      && |b.cs| == |a.cs| && b == a.(cs := b.cs, unfolded := !a.unfolded)
      && (forall i :: 0 <= i < |a.cs| ==>
            b.cs[i] == if a.cs[i].kind == Thinking then a.cs[i].(collapsed := a.unfolded) else a.cs[i])
    case Clicked(i) => Flips(a.cs, i, b.cs) && b == a.(cs := b.cs)
    case Chosen(model) => b == a.(model := model)
    case Cleared => b == a.(cs := [], live := false)
    case Painted(_) => Shrinks(a.cs, a.live, b.cs) && b == a.(cs := b.cs)
  }

  /** A block is drawn as it is, but for what can lag behind: the end of a live text, a fold, a model, and the
      arguments and the change that the cache let go. */
  predicate Stands(d: Content, c: Content, live: bool) {
    && d == c.(text := d.text, collapsed := d.collapsed, model := d.model, args := d.args, diff := d.diff)
    && d.text <= c.text && |c.text| - |d.text| < 64
    && (!live || (c.text != "" && c.text[|c.text| - 1] == '\n') ==> d.text == c.text)
  }

  /** Without any talk the splash is printed, otherwise the whole list. */
  ghost predicate Prints(v: View, a: State, out: string, splash: string) {
    if !AnyTalk(a.cs) then out == splash
    else exists s: seq<Shot>, f: nat ::
      && |s| == |a.cs| && f <= |s|
      && (forall i :: 0 <= i < |s| ==> Stands(s[i].c, a.cs[i], a.live && i == |s| - 1))
      && (forall i :: 0 <= i < |s| ==> (i < f <==> T.Cached(a.cs, a.live, i)))
      && out == TrimNewlines(T.Page(v, s, f, 0))
  }

  // ---------------------------------------------------------------- the session does it

  lemma PushAdds(cs: seq<Content>, c: Content)
    requires Tidy(cs) && c.kind != Trimmed
    ensures Adds(cs, c, Pushed(cs, c)) && Tidy(Pushed(cs, c))
  {
    hide Pushed;
    PushedShape(cs, c);
    if |cs| == 400 {
      var mark := Marker(if cs[0].kind.Trimmed? then cs[0].trimmed + 1 else 2);
      assert ([mark] + cs[2..] + [c])[1..] == cs[2..] + [c];
    }
  }

  lemma AppendedIs(text: string, more: string)
    ensures Appended(text, more) == Longer(text, more)
  {
    var n := 262144 - |"\n…[truncated]"|;
    if |text| + |more| > 262144 && |text| < n {
      assert (text + more)[..n] == text + more[..n - |text|];
    } else if more == "" {
      assert text + more == text;
    }
  }

  lemma CutsAre(s: string)
    ensures CapStored(s) == Cut(s, 65536) && CapTo(s, 4096) == Cut(s, 4096)
  {
  }

  ghost function StateOf(s: Session): State
    reads s
  {
    State(Contents(s.blocks), s.cur.Some?, s.settings.model, s.thinkExpanded)
  }

  lemma StreamTells(a: State, kind: Kind, text: string, cs: seq<Content>)
    requires Tidy(a.cs) && kind in {Assistant, Thinking}
    requires
      var o := Opened(a.cs, a.live, kind, a.unfolded);
      o != [] && cs == o[|o| - 1 := Grown(o[|o| - 1], text, a.model)]
    ensures Streams(a, kind, text, a.(cs := cs, live := true)) && Tidy(cs)
  {
    var b := a.(cs := cs, live := true);
    hide Longer, Appended, Pushed;
    if a.live && a.cs != [] && a.cs[|a.cs| - 1].kind == kind {
      AppendedIs(a.cs[|a.cs| - 1].text, text);
    } else {
      AppendedIs("", text);
      var c := NewBlock(kind, a.unfolded);
      var c' := Grown(c, text, a.model);
      PushedLast(a.cs, c, c');
      PushAdds(a.cs, c');
      assert cs == Pushed(a.cs, c');
    }
  }

  lemma ResultTells(cs: seq<Content>, id: string, out: string, diff: string, ok: bool, took: nat, cs': seq<Content>)
    requires Tidy(cs)
    requires
      var m := MatchFor(cs, id, |cs|);
      cs' ==
        if m < 0 then Pushed(cs, Fresh(Kind.ToolResult).(output := CapStored(out)))
        else cs[m := cs[m].(output := CapStored(out), diff := CapStored(diff), ok := ok, hasOk := true, dur := took)]
    ensures Results(cs, id, out, diff, ok, took, cs') && Tidy(cs')
  {
    hide Cut, CapStored, Pushed, Adds;
    CutsAre(out);
    CutsAre(diff);
    var m := MatchFor(cs, id, |cs|);
    if m < 0 {
      PushAdds(cs, Fresh(Kind.ToolResult).(output := CapStored(out)));
    } else {
      assert Newest(cs, id, m);
    }
  }

  lemma DecisionTells(cs: seq<Content>, d: Decision, cs': seq<Content>)
    requires Tidy(cs)
    requires
      var i := PendingApproval(cs, |cs|);
      cs' == if i < 0 || d.Other? then cs else cs[i := Resolved(cs[i], d)]
    ensures Resolves(cs, d, cs') && Tidy(cs')
  {
    hide Decides, PendingApproval;
    var i := PendingApproval(cs, |cs|);
    if i >= 0 && !d.Other? {
      ResolvedIs(cs[i], d);
      hide Resolved;
      assert Undecided(cs[i]) && Decides(cs[i], d, cs'[i]);
    }
  }

  lemma ResolvedIs(c: Content, d: Decision)
    requires d != Other
    ensures Decides(c, d, Resolved(c, d)) && Resolved(c, d).kind == c.kind
  {
    CutsAre(c.args);
    hide Cut, CapTo;
  }

  lemma DiscardTells(cs: seq<Content>)
    requires Tidy(cs)
    ensures Drops(cs, cs[..StreamStart(cs)]) && Tidy(cs[..StreamStart(cs)])
  {
    hide StreamStart;
    var n := StreamStart(cs);
    assert n > 0 ==> cs[..n][n - 1] == cs[n - 1];
  }

  lemma SettleTells(c: Content, note: string, now: int)
    ensures Settles(c, note, now, Finalized(c, note, Since(now, c.started)))
  {
    assert Blank(c.output) <==> Spaces(c.output) by {
      if Spaces(c.output) {
        assert forall x :: x in c.output ==> exists k :: 0 <= k < |c.output| && c.output[k] == x;
      } else {
        var k :| 0 <= k < |c.output| && c.output[k] !in {' ', '\t', '\n', '\r', '\U{000b}', '\U{000c}'};
        assert c.output[k] in c.output && c.output[k] !in " \t\n\U{000b}\U{000c}\r";
      }
    }
  }

  lemma TidyAlike(cs: seq<Content>, cs': seq<Content>)
    requires Tidy(cs) && |cs'| == |cs| && forall i :: 0 <= i < |cs| ==> cs'[i].kind == cs[i].kind
    ensures Tidy(cs')
  {
  }

  /** The events that can push a block. */
  method TellNew(s: Session, e: Event)
    requires s.Valid() && Fits(e) && Tidy(Contents(s.blocks))
    requires e.Logged? || e.Streamed? || e.Called? || e.Resulted?
    modifies s
    ensures s.Valid() && Tidy(Contents(s.blocks)) && Told(e, old(StateOf(s)), StateOf(s))
    ensures s.width == old(s.width) && s.theme == old(s.theme)
  {
    hide Session.Valid, Tidy, Adds, Streams, Results, Cut, Pushed, Opened, Grown, MatchFor, CapStored, FocusAfterPush,
         ToolCall, PushedIds, AllInStep, FrozenInStep;
    ghost var a := StateOf(s);
    match e {
      case Logged(c) =>
        PushAdds(a.cs, c);
        s.Log(c);
      case Streamed(kind, text) =>
        s.Stream(kind, text);
        StreamTells(a, kind, text, Contents(s.blocks));
      case Called(name, args, sub, id, now) =>
        CallTells(a.cs, name, args, sub, id, now);
        s.LogTool(name, args, sub, id, now);
      case Resulted(id, out, diff, ok, took) =>
        s.ToolResult(id, out, diff, ok, took);
        ResultTells(a.cs, id, out, diff, ok, took, Contents(s.blocks));
    }
  }

  method Click(s: Session, i: nat)
    requires s.Valid() && Tidy(Contents(s.blocks))
    modifies s
    ensures s.Valid() && Tidy(Contents(s.blocks)) && Told(Clicked(i), old(StateOf(s)), StateOf(s))
    ensures s.width == old(s.width) && s.theme == old(s.theme)
  {
    hide Session.Valid, Tidy, AllInStep, FrozenInStep;
    ghost var cs := Contents(s.blocks);
    if i < |s.blocks| {
      assert cs[i] == s.blocks[i].content;
      if s.blocks[i].content.kind.Thinking? {
        s.ClickReasoning(i);
      } else if ToolLike(s.blocks[i].content) {
        s.ToggleOutput(i);
      }
    }
    TidyAlike(cs, Contents(s.blocks));
  }

  /** Every event but a drawing. */
  method Tell(s: Session, e: Event)
    requires s.Valid() && Fits(e) && !e.Painted? && Tidy(Contents(s.blocks))
    modifies s
    ensures s.Valid() && Tidy(Contents(s.blocks)) && Told(e, old(StateOf(s)), StateOf(s))
    ensures s.width == old(s.width) && s.theme == old(s.theme)
  {
    hide Session.Valid, Tidy, Adds, Streams, Results, Resolves, Drops, Flips, Fits, PendingApproval, Resolved,
         StreamStart, Finalized, Since, Settles, AllInStep, FrozenInStep;
    ghost var a := StateOf(s);
    match e {
      case Settled(note, now) =>
        s.FinalizeInFlight(note, now);
        SettledTells(a.cs, note, now, Contents(s.blocks));
      case Decided(d) =>
        s.ResolveLatestApproval(d);
        DecisionTells(a.cs, d, Contents(s.blocks));
      case Discarded =>
        s.DiscardPartialStreamOutput();
        DiscardTells(a.cs);
      case Ended =>
        s.EndStream();
      case Folded =>
        s.ToggleReasoning();
        TidyAlike(a.cs, Contents(s.blocks));
      case Clicked(i) =>
        Click(s, i);
      case Chosen(model) =>
        s.SelectModel(model);
      case Cleared =>
        s.Clear();
        NothingIsTidy();
      case Logged(_) =>
        TellNew(s, e);
      case Streamed(_, _) =>
        TellNew(s, e);
      case Called(_, _, _, _, _) =>
        TellNew(s, e);
      case Resulted(_, _, _, _, _) =>
        TellNew(s, e);
    }
  }

  lemma NothingIsTidy()
    ensures Tidy([])
  {
  }

  lemma CallTells(cs: seq<Content>, name: string, args: string, sub: bool, id: string, now: int)
    requires Tidy(cs)
    ensures
      var c := Bare(Tool).(name := name, args := Cut(args, 65536), sub := sub, id := id, timed := true, started := now);
      ToolCall(name, args, sub, id, now) == c && Adds(cs, c, Pushed(cs, c)) && Tidy(Pushed(cs, c))
  {
    hide Cut, CapStored, Pushed, Adds;
    CutsAre(args);
    PushAdds(cs, ToolCall(name, args, sub, id, now));
  }

  lemma SettledTells(cs: seq<Content>, note: string, now: int, cs': seq<Content>)
    requires Tidy(cs) && |cs'| == |cs|
    requires forall i :: 0 <= i < |cs| ==> cs'[i] == Finalized(cs[i], note, Since(now, cs[i].started))
    ensures Tidy(cs') && forall i :: 0 <= i < |cs| ==> Settles(cs[i], note, now, cs'[i])
  {
    forall i | 0 <= i < |cs|
      ensures Settles(cs[i], note, now, cs'[i])
    {
      SettleTells(cs[i], note, now);
    }
    hide Settles;
    TidyAlike(cs, cs');
  }

  // ---------------------------------------------------------------- a drawing

  lemma ShrunkIs(c: Content)
    ensures Released(c) == Shrunk(c) && Released(c).kind == c.kind
  {
    CutsAre(c.args);
    CutsAre(c.diff);
    hide Cut, CapTo;
  }

  /** What the cache holds was shrunk when it went in. */
  lemma CachedIsShrunk(d: Content, b: Block, live: bool)
    requires Tracks(d, b)
    ensures Shrunk(b.content) == b.content && b.content.kind == d.kind && Stands(d, b.content, live)
  {
    ShrunkIs(d);
    ShrunkIs(b.content);
    TranscriptLag.ReleaseIsHarmless(d);
  }

  lemma ShownStands(d: Content, c: Content, live: bool)
    requires Shows(d, c, live)
    ensures Stands(d, c, live)
  {
  }

  lemma TalkIs(cs: seq<Content>)
    ensures AnyTalk(cs) <==> HasConversation(cs)
  {
    if AnyTalk(cs) {
      var i :| 0 <= i < |cs| && Talk(cs[i]);
      assert Conversational(cs[i]);
    }
    if HasConversation(cs) {
      var i :| 0 <= i < |cs| && Conversational(cs[i]);
      assert Talk(cs[i]);
    }
  }

  lemma DrawnStands(v: View, prefs: Settings, s: seq<Shot>, f0: seq<Shot>, bs: seq<Block>, bs': seq<Block>,
                    cur: Option<nat>, now: int)
    requires |s| == |bs| && f0 <= s && Tracked(f0, bs) && Shots(v, prefs, s, bs, bs', |f0|, |s|, cur, now)
    requires forall i :: 0 <= i < |s| ==> (cur == Some(bs[i].uid) <==> cur.Some? && i == |s| - 1)
    ensures forall i :: 0 <= i < |s| ==> Stands(s[i].c, bs[i].content, cur.Some? && i == |s| - 1)
    ensures forall i :: 0 <= i < |f0| ==> Shrunk(bs[i].content) == bs[i].content
  {
    forall i | 0 <= i < |s|
      ensures Stands(s[i].c, bs[i].content, cur.Some? && i == |s| - 1)
      ensures i < |f0| ==> Shrunk(bs[i].content) == bs[i].content
    {
      hide Stands, Tracks, DrawnNow, Shrunk;
      if i < |f0| {
        assert f0[i] == s[i] && Tracks(f0[i].c, bs[i]);
        CachedIsShrunk(s[i].c, bs[i], cur.Some? && i == |s| - 1);
      } else {
        assert DrawnNow(v, prefs, s[i], bs[i], bs'[i], cur == Some(bs[i].uid), now);
        DrawnShows(v, prefs, s[i], bs[i], bs'[i], cur == Some(bs[i].uid), now);
        ShownStands(s[i].c, bs[i].content, cur == Some(bs[i].uid));
      }
    }
  }

  lemma DrawnShows(v: View, prefs: Settings, x: Shot, b: Block, b': Block, live: bool, now: int)
    requires DrawnNow(v, prefs, x, b, b', live, now)
    ensures Shows(x.c, b.content, live)
  {
  }

  lemma ReleaseShrinks(bs: seq<Block>, bs': seq<Block>, live: bool, k: nat, f: nat)
    requires AnyTalk(Contents(bs)) && k <= f <= |bs| && OnlyReleasedOrRedrawn(bs, bs', k, f)
    requires forall i :: 0 <= i < k ==> Shrunk(bs[i].content) == bs[i].content
    requires forall i :: 0 <= i < |bs| ==> (i < f <==> T.Cached(Contents(bs), live, i))
    requires Tidy(Contents(bs))
    ensures Shrinks(Contents(bs), live, Contents(bs')) && Tidy(Contents(bs'))
  {
    var cs, cs' := Contents(bs), Contents(bs');
    forall i | 0 <= i < |cs|
      ensures cs'[i] == (if T.Cached(cs, live, i) then Shrunk(cs[i]) else cs[i]) && cs'[i].kind == cs[i].kind
    {
      ShrunkIs(bs[i].content);
    }
    hide Shrunk;
    TidyAlike(cs, cs');
  }

  method Paint(s: Session, now: int, splash: string) returns (out: string)
    requires s.Valid() && Tidy(Contents(s.blocks))
    modifies s
    ensures s.Valid() && Tidy(Contents(s.blocks)) && Told(Painted(now), old(StateOf(s)), StateOf(s))
    ensures s.width == old(s.width) && s.theme == old(s.theme)
    ensures Prints(s.TheView(), old(StateOf(s)), out, splash)
  {
    hide Session.Valid, Picture, Frontier, Shots, OnlyReleasedOrRedrawn, HasConversation, SpansBelow, Tracked, AnyTalk,
         Tidy, Stands, Shrunk, Shrinks, AllInStep, FrozenInStep, T.Page, T.Cached, TrimNewlines;
    TalkIs(Contents(s.blocks));
    ghost var bs, k, f0 := s.blocks, s.cacheIdx, s.frozen;
    CachedIsTracked(s);
    LiveIsLast(s);
    ghost var x;
    out, x := s.RenderBlocks(now, splash);
    NoTalk(Contents(bs), s.cur.Some?);
    if AnyTalk(Contents(bs)) {
      DrawnStands(s.TheView(), s.settings, x, f0, bs, s.blocks, s.cur, now);
      TranscriptLag.FrontierAgain(bs, s.blocks, s.cur.Some?, k, s.cacheIdx);
      forall i | 0 <= i < |bs|
        ensures i < s.cacheIdx <==> T.Cached(Contents(bs), s.cur.Some?, i)
      {
        T.CachedExactly(Contents(bs), s.cur.Some?, i);
      }
      ReleaseShrinks(bs, s.blocks, s.cur.Some?, k, s.cacheIdx);
      T.PictureIsPage(s.TheView(), x, s.cacheIdx);
    }
  }

  lemma LiveIsLast(s: Session)
    requires s.Valid()
    ensures forall i :: 0 <= i < |s.blocks| ==>
              (s.cur == Some(s.blocks[i].uid) <==> s.cur.Some? && i == |s.blocks| - 1)
  {
  }

  lemma NoTalk(cs: seq<Content>, live: bool)
    ensures !AnyTalk(cs) ==> Shrinks(cs, live, cs)
  {
  }

  // ---------------------------------------------------------------- whole runs

  /** The states of a session that begins empty. */
  predicate Story(es: seq<Event>, ts: seq<State>) {
    && |ts| == |es| + 1 && ts[0].cs == [] && !ts[0].live
    && forall i :: 0 <= i < |es| ==> Fits(es[i]) && Told(es[i], ts[i], ts[i + 1])
  }

  predicate AllFit(es: seq<Event>) {
    forall i :: 0 <= i < |es| ==> Fits(es[i])
  }

  /** A new session goes through the events; `outs` is what its drawings print. */
  method Play(look: Look, w: int, theme: string, settings: Settings, unfolded: bool, es: seq<Event>, splash: string)
    returns (s: Session, outs: seq<string>, ghost vs: seq<View>, ghost ts: seq<State>)
    requires AllFit(es)
    ensures s.Valid() && Story(es, ts) && ts[|es|] == StateOf(s)
    ensures |outs| == |es| == |vs|
    ensures forall i :: 0 <= i < |es| && es[i].Painted? ==> Prints(vs[i], ts[i], outs[i], splash)
    ensures forall i :: 0 <= i < |es| ==> vs[i].look == look && vs[i].width == w && vs[i].theme == theme
  {
    hide Session.Valid, Told, Fits, Prints, Tidy;
    s := new Session(look, w, theme, settings, unfolded);
    outs, vs, ts := [], [], [StateOf(s)];
    NothingIsTidy();
    assert Contents(s.blocks) == [];
    for n := 0 to |es|
      invariant s.Valid() && Tidy(Contents(s.blocks)) && fresh(s)
      invariant s.width == w && s.theme == theme && s.look == look
      invariant Story(es[..n], ts) && ts[n] == StateOf(s) && |outs| == n == |vs|
      invariant forall i :: 0 <= i < n && es[i].Painted? ==> Prints(vs[i], ts[i], outs[i], splash)
      invariant forall i :: 0 <= i < n ==> vs[i].look == look && vs[i].width == w && vs[i].theme == theme
    {
      var out := "";
      if es[n].Painted? {
        out := Paint(s, es[n].now, splash);
      } else {
        Tell(s, es[n]);
      }
      StoryGoesOn(es, n, ts, StateOf(s));
      outs, vs, ts := outs + [out], vs + [s.TheView()], ts + [StateOf(s)];
    }
    assert es[..|es|] == es;
  }

  lemma StoryGoesOn(es: seq<Event>, n: nat, ts: seq<State>, t: State)
    requires n < |es| && AllFit(es) && Story(es[..n], ts) && Told(es[n], ts[n], t)
    ensures Story(es[..n + 1], ts + [t])
  {
    hide Told, Fits;
    var es', ts' := es[..n + 1], ts + [t];
    assert es'[..n] == es[..n];
    forall i | 0 <= i < |es'|
      ensures Fits(es'[i]) && Told(es'[i], ts'[i], ts'[i + 1])
    {
      assert i < n ==> es'[i] == es[..n][i];
    }
  }

  // ---------------------------------------------------------------- which blocks are kept

  /** The kinds of all blocks that were pushed and not discarded, and how many of them, the oldest, are gone. */
  datatype Ledger = Ledger(kinds: seq<Kind>, gone: nat)

  function RowsOf(l: Ledger): int {
    |l.kinds| - l.gone + if l.gone > 0 then 1 else 0
  }

  /** One more block: when 400 rows are taken the oldest block makes room, and the first time one more for the marker.
      */
  function Enter(l: Ledger, kind: Kind): Ledger {
    Ledger(l.kinds + [kind], if RowsOf(l) < 400 then l.gone else if l.gone == 0 then 2 else l.gone + 1)
  }

  function Strip(kinds: seq<Kind>, gone: nat): (r: seq<Kind>)
    ensures r <= kinds && (gone <= |kinds| ==> gone <= |r|)
    ensures forall i :: |r| <= i < |kinds| ==> kinds[i] in {Assistant, Thinking}
    ensures |r| > gone ==> r[|r| - 1] !in {Assistant, Thinking}
  {
    if |kinds| > gone && kinds[|kinds| - 1] in {Assistant, Thinking} then Strip(kinds[..|kinds| - 1], gone) else kinds
  }

  function Entered(e: Event, a: State, l: Ledger): Ledger {
    match e
    case Logged(c) => Enter(l, c.kind)
    case Streamed(kind, _) =>
      if a.live && l.kinds != [] && l.kinds[|l.kinds| - 1] == kind then l else Enter(l, kind)
    case Called(_, _, _, _, _) => Enter(l, Tool)
    case Resulted(id, _, _, _, _) =>
      if exists i :: 0 <= i < |a.cs| && Unanswered(a.cs[i], id) then l else Enter(l, ToolResult)
    case Discarded => l.(kinds := Strip(l.kinds, l.gone))
    case Cleared => Ledger([], 0)
    case _ => l
  }

  function Account(es: seq<Event>, ts: seq<State>, n: nat): Ledger
    requires n <= |es| < |ts|
  {
    if n == 0 then Ledger([], 0) else Entered(es[n - 1], ts[n - 1], Account(es, ts, n - 1))
  }

  /** The list is what the ledger says: the kept blocks below a marker that counts the others. */
  predicate Balanced(l: Ledger, cs: seq<Content>, live: bool) {
    && l.gone <= |l.kinds| && |cs| == RowsOf(l) <= 400
    && (forall i :: 0 <= i < |l.kinds| ==> l.kinds[i] != Trimmed)
    && (l.gone > 0 ==> cs[0].kind == Trimmed && cs[0].trimmed == l.gone)
    && (forall i :: l.gone <= i < |l.kinds| ==> cs[if l.gone > 0 then i - l.gone + 1 else i].kind == l.kinds[i])
    && (live ==> l.gone < |l.kinds|)
  }

  lemma AddBalances(l: Ledger, cs: seq<Content>, live: bool, c: Content, cs': seq<Content>, live': bool)
    requires Balanced(l, cs, live) && Adds(cs, c, cs') && c.kind != Trimmed
    ensures Balanced(Enter(l, c.kind), cs', live')
  {
    if |cs| == 400 {
      assert cs'[1..] == cs[2..] + [c];
      assert forall i :: 1 <= i < 400 ==> cs'[i] == cs'[1..][i - 1];
      assert l.gone == 0 ==> cs[0].kind == l.kinds[0];
    }
  }

  lemma SameBalances(l: Ledger, cs: seq<Content>, live: bool, cs': seq<Content>, live': bool)
    requires Balanced(l, cs, live) && SameKinds(cs, cs') && (live' ==> live)
    ensures Balanced(l, cs', live')
  {
  }

  lemma {:induction false} StripIs(kinds: seq<Kind>, gone: nat, m: nat)
    requires gone <= m <= |kinds| && (forall i :: m <= i < |kinds| ==> kinds[i] in {Assistant, Thinking})
    requires m > gone ==> kinds[m - 1] !in {Assistant, Thinking}
    ensures Strip(kinds, gone) == kinds[..m]
  {
    if m < |kinds| {
      StripIs(kinds[..|kinds| - 1], gone, m);
    }
  }

  lemma CutBalances(l: Ledger, cs: seq<Content>, live: bool, m: nat)
    requires Balanced(l, cs, live) && l.gone <= m <= |l.kinds|
    ensures
      var n := m - l.gone + if l.gone > 0 then 1 else 0;
      n <= |cs| && Balanced(Ledger(l.kinds[..m], l.gone), cs[..n], false)
  {
  }

  lemma DropBalances(l: Ledger, cs: seq<Content>, live: bool, cs': seq<Content>)
    requires Balanced(l, cs, live) && Drops(cs, cs')
    ensures Balanced(l.(kinds := Strip(l.kinds, l.gone)), cs', false)
  {
    hide Balanced;
    var m := |cs'| - (if l.gone > 0 then 1 else 0) + l.gone;
    DropStrips(l, cs, live, cs', m);
    hide Strip;
    CutBalances(l, cs, live, m);
    assert cs' == cs[..|cs'|];
  }

  lemma DropStrips(l: Ledger, cs: seq<Content>, live: bool, cs': seq<Content>, m: int)
    requires Balanced(l, cs, live) && Drops(cs, cs')
    requires m == |cs'| - (if l.gone > 0 then 1 else 0) + l.gone
    ensures l.gone <= m <= |l.kinds| && Strip(l.kinds, l.gone) == l.kinds[..m]
    ensures l.gone > 0 ==> cs' != []
  {
    hide Strip;
    var up := if l.gone > 0 then 1 else 0;
    forall i | m <= i < |l.kinds| && l.gone <= i
      ensures l.kinds[i] in {Assistant, Thinking}
    {
      assert cs[i - l.gone + up].kind == l.kinds[i];
    }
    assert m > l.gone ==> cs'[|cs'| - 1] == cs[m - 1 - l.gone + up];
    StripIs(l.kinds, l.gone, m);
  }

  lemma StreamBalances(l: Ledger, a: State, kind: Kind, text: string, b: State)
    requires Balanced(l, a.cs, a.live) && Streams(a, kind, text, b) && kind in {Assistant, Thinking}
    ensures Balanced(Entered(Streamed(kind, text), a, l), b.cs, b.live)
  {
    hide Longer, Adds;
    assert a.live ==> l.kinds != [] && l.kinds[|l.kinds| - 1] == a.cs[|a.cs| - 1].kind;
    if a.live && l.kinds[|l.kinds| - 1] == kind {
      SameBalances(l, a.cs, a.live, b.cs, b.live);
    } else {
      var c: Content :| c.kind == kind && Adds(a.cs, c, b.cs);
      AddBalances(l, a.cs, a.live, c, b.cs, b.live);
    }
  }

  lemma ResultBalances(l: Ledger, cs: seq<Content>, live: bool, e: Event, a: State, cs': seq<Content>)
    requires e.Resulted? && cs == a.cs && Balanced(l, cs, live)
    requires Results(cs, e.id, e.out, e.diff, e.ok, e.took, cs')
    ensures Balanced(Entered(e, a, l), cs', false)
  {
    hide Adds, Cut;
    if forall i :: 0 <= i < |cs| ==> !Unanswered(cs[i], e.id) {
      AddBalances(l, cs, live, Bare(ToolResult).(output := Cut(e.out, 65536)), cs', false);
    } else {
      SameBalances(l, cs, live, cs', false);
    }
  }

  lemma StepBalances(l: Ledger, e: Event, a: State, b: State)
    requires Balanced(l, a.cs, a.live) && Fits(e) && Told(e, a, b)
    ensures Balanced(Entered(e, a, l), b.cs, b.live)
  {
    hide Balanced, Adds, Cut, Streams, Results, Drops, Settles, Resolves, Flips, Shrinks;
    match e {
      case Logged(c) =>
        AddBalances(l, a.cs, a.live, c, b.cs, b.live);
      case Streamed(kind, text) =>
        StreamBalances(l, a, kind, text, b);
      case Called(name, args, sub, id, now) =>
        var c := Bare(Tool).(name := name, args := Cut(args, 65536), sub := sub, id := id, timed := true,
                             started := now);
        AddBalances(l, a.cs, a.live, c, b.cs, b.live);
      case Resulted(id, out, diff, ok, took) =>
        ResultBalances(l, a.cs, a.live, e, a, b.cs);
      case Discarded =>
        DropBalances(l, a.cs, a.live, b.cs);
      case Cleared =>
        NothingBalances(b);
      case Settled(_, _) =>
        QuietBalances(l, e, a, b);
      case Decided(_) =>
        QuietBalances(l, e, a, b);
      case Ended =>
        QuietBalances(l, e, a, b);
      case Folded =>
        QuietBalances(l, e, a, b);
      case Clicked(_) =>
        QuietBalances(l, e, a, b);
      case Chosen(_) =>
        QuietBalances(l, e, a, b);
      case Painted(_) =>
        QuietBalances(l, e, a, b);
    }
  }

  /** The other events leave the blocks and their order alone. */
  lemma QuietBalances(l: Ledger, e: Event, a: State, b: State)
    requires Balanced(l, a.cs, a.live) && Told(e, a, b)
    requires
      e.Settled? || e.Decided? || e.Ended? || e.Folded? || e.Clicked? || e.Chosen? || e.Painted?
    ensures Balanced(l, b.cs, b.live)
  {
    QuietKeeps(e, a, b);
    hide Told;
    SameBalances(l, a.cs, a.live, b.cs, b.live);
  }

  predicate SameKinds(cs: seq<Content>, cs': seq<Content>) {
    |cs'| == |cs| && forall i :: 0 <= i < |cs| ==> cs'[i].kind == cs[i].kind && cs'[i].trimmed == cs[i].trimmed
  }

  lemma ResolveKeeps(cs: seq<Content>, d: Decision, cs': seq<Content>)
    requires Resolves(cs, d, cs')
    ensures SameKinds(cs, cs')
  {
    hide Cut;
  }

  lemma ShrinkKeeps(cs: seq<Content>, live: bool, cs': seq<Content>)
    requires Shrinks(cs, live, cs')
    ensures SameKinds(cs, cs')
  {
    hide Cut, AnyTalk, T.Cached;
  }

  lemma SettleKeeps(c: Content, note: string, now: int, c': Content)
    requires Settles(c, note, now, c')
    ensures c'.kind == c.kind && c'.trimmed == c.trimmed
  {
    hide Spaces;
    assert c' == c.(dur := c'.dur, output := c'.output, hasOk := c'.hasOk, ok := c'.ok) by {
      SettlesFields(c, note, now, c');
    }
    hide Settles;
  }

  lemma SettlesFields(c: Content, note: string, now: int, c': Content)
    requires Settles(c, note, now, c')
    ensures c' == c.(dur := c'.dur, output := c'.output, hasOk := c'.hasOk, ok := c'.ok)
  {
    hide Spaces;
    var took := if c.started < now then now - c.started else 0;
    if c.kind != Tool || c.dur != 0 || !Spaces(c.output) {
    } else if c.name == "finish" {
      var done := "This turn has finished";
      assert c'.dur == took && c'.output == done;
    } else {
      assert c'.dur == took && c'.output == note;
    }
  }

  lemma QuietKeeps(e: Event, a: State, b: State)
    requires Told(e, a, b)
    requires
      e.Settled? || e.Decided? || e.Ended? || e.Folded? || e.Clicked? || e.Chosen? || e.Painted?
    ensures SameKinds(a.cs, b.cs) && (b.live ==> a.live)
  {
    hide Adds, Streams, Results, Drops, Resolves, Shrinks, Settles;
    match e {
      case Decided(d) => ResolveKeeps(a.cs, d, b.cs);
      case Painted(_) => ShrinkKeeps(a.cs, a.live, b.cs);
      case Settled(note, now) =>
        forall i | 0 <= i < |a.cs|
          ensures b.cs[i].kind == a.cs[i].kind && b.cs[i].trimmed == a.cs[i].trimmed
        {
          SettleKeeps(a.cs[i], note, now, b.cs[i]);
        }
      case _ =>
    }
  }

  /** In every run the list holds the newest of the blocks that were pushed and not discarded, all of them or the newest
      399 below a marker that counts the others. */
  lemma {:induction false} KeptAreNewest(es: seq<Event>, ts: seq<State>, n: nat)
    requires Story(es, ts) && n <= |es|
    ensures Balanced(Account(es, ts, n), ts[n].cs, ts[n].live)
  {
    hide Balanced, Entered, Told, Fits;
    if n == 0 {
      NothingBalances(ts[0]);
    } else {
      KeptAreNewest(es, ts, n - 1);
      assert Told(es[n - 1], ts[n - 1], ts[n - 1 + 1]);
      StepBalances(Account(es, ts, n - 1), es[n - 1], ts[n - 1], ts[n]);
    }
  }

  lemma NothingBalances(t: State)
    requires t.cs == [] && !t.live
    ensures Balanced(Ledger([], 0), t.cs, t.live)
  {
  }

  /** A drawing prints the list exactly when one of the kept blocks was pushed as talk; other notes leave the splash. */
  lemma ListIsPrintedIff(es: seq<Event>, ts: seq<State>, n: nat, v: View, out: string, splash: string)
    requires Story(es, ts) && n < |es| && es[n].Painted? && Prints(v, ts[n], out, splash)
    ensures
      var l := Account(es, ts, n);
      var talk := exists i :: l.gone <= i < |l.kinds|
                              && l.kinds[i] in {User, Assistant, Thinking, Tool, ToolResult, Approve};
      && (talk <==> AnyTalk(ts[n].cs))
      && (!talk ==> out == splash)
      && (talk ==> exists s: seq<Shot>, f: nat ::
            && |s| == |ts[n].cs| && f <= |s|
            && (forall i :: 0 <= i < |s| ==> Stands(s[i].c, ts[n].cs[i], ts[n].live && i == |s| - 1))
            && out == TrimNewlines(T.Page(v, s, f, 0)))
  {
    hide Account, Told, Fits, Stands, T.Page, TrimNewlines, T.Cached;
    KeptAreNewest(es, ts, n);
    TalkOfLedger(Account(es, ts, n), ts[n].cs, ts[n].live);
  }

  lemma TalkOfLedger(l: Ledger, cs: seq<Content>, live: bool)
    requires Balanced(l, cs, live)
    ensures
      (exists i :: l.gone <= i < |l.kinds| && l.kinds[i] in {User, Assistant, Thinking, Tool, ToolResult, Approve})
      <==> AnyTalk(cs)
  {
    var up := if l.gone > 0 then 1 else 0;
    if i :| l.gone <= i < |l.kinds| && l.kinds[i] in {User, Assistant, Thinking, Tool, ToolResult, Approve} {
      assert Talk(cs[i - l.gone + up]);
    }
    if AnyTalk(cs) {
      var k :| 0 <= k < |cs| && Talk(cs[k]);
      assert k >= up;
      var i := k - up + l.gone;
      assert l.kinds[i] == cs[k].kind;
    }
  }

  // ---------------------------------------------------------------- when the list is printed

  /** What is said stays: a user's message, a call, a result or an approval is on the screen in each of the next 399
      events unless the transcript is cleared; what is streamed, unless it is discarded. */
  lemma TalkStays(es: seq<Event>, ts: seq<State>, k: nat, n: nat)
    requires Story(es, ts) && k < n <= |es| && n - k <= 399
    requires es[k].Called? || es[k].Streamed? || (es[k].Logged? && Talk(es[k].c))
    requires forall i :: k < i < n ==> es[i] != Cleared && (es[k].Streamed? ==> es[i] != Discarded)
    ensures AnyTalk(ts[n].cs)
  {
    hide Account, Told, Fits, Balanced;
    var p := EntryStays(es, ts, k, n);
    KeptAreNewest(es, ts, n);
    TalkOfLedger(Account(es, ts, n), ts[n].cs, ts[n].live);
  }

  predicate TalkKind(kind: Kind) {
    kind in {User, Assistant, Thinking, Tool, ToolResult, Approve}
  }

  /** Where the block of event k is in the ledger after n events. */
  lemma {:induction false} EntryStays(es: seq<Event>, ts: seq<State>, k: nat, n: nat) returns (p: nat)
    requires Story(es, ts) && k < n <= |es| && n - k <= 399
    requires es[k].Called? || es[k].Streamed? || (es[k].Logged? && Talk(es[k].c))
    requires forall i :: k < i < n ==> es[i] != Cleared && (es[k].Streamed? ==> es[i] != Discarded)
    ensures
      var l := Account(es, ts, n);
      && l.gone <= p < |l.kinds| <= p + n - k && TalkKind(l.kinds[p])
      && (!es[k].Streamed? ==> l.kinds[p] !in {Assistant, Thinking})
    decreases n
  {
    hide Told, Entered, Enter, Balanced;
    var before := Account(es, ts, n - 1);
    KeptAreNewest(es, ts, n - 1);
    RowsBound(before, ts[n - 1].cs, ts[n - 1].live);
    if n == k + 1 {
      assert Fits(es[k]);
      p := FirstEntry(before, es[k], ts[k]);
    } else {
      p := EntryStays(es, ts, k, n - 1);
      assert n - 1 - k < 399;
      EntryKept(before, es[n - 1], ts[n - 1], p, n - 1 - k, es[k].Streamed?);
    }
  }

  lemma RowsBound(l: Ledger, cs: seq<Content>, live: bool)
    requires Balanced(l, cs, live)
    ensures l.gone <= |l.kinds| && RowsOf(l) <= 400 && (live ==> l.gone < |l.kinds|)
  {
  }

  lemma FirstEntry(l: Ledger, e: Event, a: State) returns (p: nat)
    requires l.gone <= |l.kinds| && RowsOf(l) <= 400 && (a.live ==> l.gone < |l.kinds|) && Fits(e)
    requires e.Called? || e.Streamed? || (e.Logged? && Talk(e.c))
    ensures
      var r := Entered(e, a, l);
      && r.gone <= p < |r.kinds| == p + 1 && TalkKind(r.kinds[p])
      && (!e.Streamed? ==> r.kinds[p] !in {Assistant, Thinking})
  {
    p := |Entered(e, a, l).kinds| - 1;
  }

  lemma EntryKept(l: Ledger, e: Event, a: State, p: nat, m: nat, streamed: bool)
    requires l.gone <= p < |l.kinds| <= p + m && RowsOf(l) <= 400 && m < 399
    requires e != Cleared && (streamed ==> e != Discarded) && (!streamed ==> l.kinds[p] !in {Assistant, Thinking})
    ensures
      var r := Entered(e, a, l);
      r.gone <= p < |r.kinds| <= p + m + 1 && r.kinds[p] == l.kinds[p]
  {
    hide Unanswered;
  }

  /** A result is shown on its call or as a block of its own. */
  lemma ResultIsTalk(es: seq<Event>, ts: seq<State>, k: nat)
    requires Story(es, ts) && k < |es| && es[k].Resulted?
    ensures AnyTalk(ts[k + 1].cs)
  {
    hide Cut, Newest;
    assert Told(es[k], ts[k], ts[k + 1]);
    ResultTalks(es[k], ts[k].cs, ts[k + 1].cs);
  }

  lemma ResultTalks(e: Event, cs: seq<Content>, cs': seq<Content>)
    requires e.Resulted? && Results(cs, e.id, e.out, e.diff, e.ok, e.took, cs')
    ensures AnyTalk(cs')
  {
    if i :| 0 <= i < |cs| && Newest(cs, e.id, i) && |cs'| == |cs| && cs'[i].kind == cs[i].kind {
      assert Talk(cs'[i]);
    } else {
      assert |cs'| > 1 ==> cs'[1..][|cs'| - 2] == cs'[|cs'| - 1];
      assert Talk(cs'[|cs'| - 1]);
    }
  }

  /** Notes alone leave the splash. */
  lemma NotesLeaveSplash(es: seq<Event>, ts: seq<State>, n: nat)
    requires Story(es, ts) && n <= |es|
    requires forall i :: 0 <= i < n ==>
               && !es[i].Streamed? && !es[i].Called? && !es[i].Resulted?
               && (es[i].Logged? ==> es[i].c.kind in {Info, Success, Warn, Error, Raw})
    ensures !AnyTalk(ts[n].cs)
  {
    hide Account, Told, Balanced;
    NotesOnly(es, ts, n);
    KeptAreNewest(es, ts, n);
    TalkOfLedger(Account(es, ts, n), ts[n].cs, ts[n].live);
  }

  lemma {:induction false} NotesOnly(es: seq<Event>, ts: seq<State>, n: nat)
    requires Story(es, ts) && n <= |es|
    requires forall i :: 0 <= i < n ==>
               && !es[i].Streamed? && !es[i].Called? && !es[i].Resulted?
               && (es[i].Logged? ==> es[i].c.kind in {Info, Success, Warn, Error, Raw})
    ensures forall i :: 0 <= i < |Account(es, ts, n).kinds| ==> !TalkKind(Account(es, ts, n).kinds[i])
  {
    hide Told;
    if n > 0 {
      NotesOnly(es, ts, n - 1);
      assert !es[n - 1].Streamed?;
      hide Enter;
      if es[n - 1].Logged? {
        OneMoreNote(Account(es, ts, n - 1), es[n - 1].c.kind);
      }
    }
  }

  lemma OneMoreNote(l: Ledger, kind: Kind)
    requires (forall i :: 0 <= i < |l.kinds| ==> !TalkKind(l.kinds[i])) && !TalkKind(kind)
    ensures forall i :: 0 <= i < |Enter(l, kind).kinds| ==> !TalkKind(Enter(l, kind).kinds[i])
  {
  }
}
