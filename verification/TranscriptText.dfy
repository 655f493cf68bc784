/** The printed text and the cached part, said a second time: the text unit by unit from the top, and for every block
    whether it is cached. */
module TranscriptText {
  import opened Options
  import opened Text
  import opened Transcript

  // ---------------------------------------------------------------- the text, from the top

  /** A running scout has a panel of its own. */
  predicate Scout(c: Content) {
    c.kind == Tool && c.dur == 0 && c.timed && c.name in {"spawn", "subagent"}
  }

  /** Where the run of calls and results that begins at i ends. */
  function EndOfRun(s: seq<Shot>, i: nat): (b: nat)
    requires i <= |s|
    ensures i <= b <= |s| && forall j :: i <= j < b ==> s[j].c.kind in {Tool, ToolResult}
    ensures b < |s| ==> s[b].c.kind !in {Tool, ToolResult}
    decreases |s| - i
  {
    if i < |s| && s[i].c.kind in {Tool, ToolResult} then EndOfRun(s, i + 1) else i
  }

  function ShownCalls(s: seq<Shot>, i: nat, b: nat): seq<Content>
    requires i <= b <= |s|
    decreases b - i
  {
    if i == b then [] else (if Scout(s[i].c) then [] else [s[i].c]) + ShownCalls(s, i + 1, b)
  }

  /** The row of a call or result; a call that runs shows for how long. */
  function RowOf(v: View, s: seq<Shot>, i: nat): string
    requires i < |s|
  {
    var c := s[i].c;
    var clock := if c.dur == 0 && c.timed then Some(s[i].at - c.started) else None;
    v.look.row(c, if v.width < 12 then 8 else v.width - 4, clock, v.focus == i, v.theme, s[i].keys)
  }

  /** The rows of a group below its heading. */
  function ShownRows(v: View, s: seq<Shot>, i: nat, b: nat): string
    requires i <= b <= |s|
    decreases b - i
  {
    if i == b then "" else (if Scout(s[i].c) then "" else "\n" + RowOf(v, s, i)) + ShownRows(v, s, i + 1, b)
  }

  /** A run of calls and results: a heading and a row for each that is shown, in one frame. */
  function Activity(v: View, s: seq<Shot>, i: nat, b: nat): string
    requires i < b <= |s|
  {
    var calls := ShownCalls(s, i, b);
    if calls == [] then ""
    else
      var heading := v.look.heading(calls, if v.width < 12 then 8 else v.width - 4, v.theme, s[b - 1].keys);
      v.look.frame(v.width, heading + ShownRows(v, s, i, b))
  }

  /** Everything from block i on: a card for each block, one frame for each run of calls and results, and an empty line
      below each. A run that shows nothing is left out, unless it is cached: then it leaves an empty line. */
  function Page(v: View, s: seq<Shot>, cached: nat, i: nat): string
    requires i <= |s|
    decreases |s| - i
  {
    if i == |s| then ""
    else if s[i].c.kind in {Tool, ToolResult} then
      var b := EndOfRun(s, i);
      var group := Activity(v, s, i, b);
      (if group == "" && cached < b then "" else group + "\n\n") + Page(v, s, cached, b)
    else
      var card := v.look.card(s[i].c, v.width, v.theme, s[i].keys);
      v.look.mark(card, v.focus == i, s[i].hints) + "\n\n" + Page(v, s, cached, i + 1)
  }

  lemma {:induction false} CallsFromTop(s: seq<Shot>, a: nat, i: nat, b: nat)
    requires a <= i <= b <= |s|
    ensures VisibleOf(s, a, b) == VisibleOf(s, a, i) + ShownCalls(s, i, b)
    decreases b - i
  {
    if i < b {
      CallsFromTop(s, a, i + 1, b);
      var call := if Scout(s[i].c) then [] else [s[i].c];
      assert VisibleOf(s, a, i + 1) == VisibleOf(s, a, i) + call;
      hide VisibleOf, Scout;
      Regroup(VisibleOf(s, a, i), call, ShownCalls(s, i + 1, b));
    }
  }

  lemma {:induction false} RowsFromTop(v: View, s: seq<Shot>, a: nat, i: nat, b: nat)
    requires a <= i <= b <= |s|
    ensures Rows(v, s, a, b) == Rows(v, s, a, i) + ShownRows(v, s, i, b)
    decreases b - i
  {
    hide RowOf, Rows, Scout;
    if i < b {
      RowsFromTop(v, s, a, i + 1, b);
      RowShown(v, s, a, i);
      Regroup(Rows(v, s, a, i), if Scout(s[i].c) then "" else "\n" + RowOf(v, s, i), ShownRows(v, s, i + 1, b));
    }
  }

  lemma RowShown(v: View, s: seq<Shot>, a: nat, i: nat)
    requires a <= i < |s|
    ensures Rows(v, s, a, i + 1) == Rows(v, s, a, i) + if Scout(s[i].c) then "" else "\n" + RowOf(v, s, i)
  {
  }

  lemma Regroup<X>(a: seq<X>, b: seq<X>, c: seq<X>)
    ensures a + b + c == a + (b + c)
  {
  }

  lemma WholeRun(v: View, s: seq<Shot>, a: nat, b: nat)
    requires a <= b <= |s|
    ensures VisibleOf(s, a, b) == ShownCalls(s, a, b) && Rows(v, s, a, b) == ShownRows(v, s, a, b)
  {
    hide ShownCalls, ShownRows;
    CallsFromTop(s, a, a, b);
    RowsFromTop(v, s, a, a, b);
    assert [] + ShownCalls(s, a, b) == ShownCalls(s, a, b) && "" + ShownRows(v, s, a, b) == ShownRows(v, s, a, b);
  }

  lemma ActivityIs(v: View, s: seq<Shot>, a: nat, b: nat)
    requires a < b <= |s|
    ensures GroupText(v, s, a, b) == Activity(v, s, a, b)
  {
    hide ShownCalls, ShownRows, VisibleOf, Rows;
    WholeRun(v, s, a, b);
  }

  lemma {:induction false} FromTop(v: View, s: seq<Shot>, f: nat, i: nat)
    requires i <= |s|
    requires 0 < i < |s| ==> s[i - 1].c.kind !in {Tool, ToolResult} || s[i].c.kind !in {Tool, ToolResult}
    ensures Above(v, s, f, |s|) == Above(v, s, f, i) + Page(v, s, f, i)
    decreases |s| - i
  {
    hide Above, Page, Activity, BlockText;
    if i == |s| {
      PageEnds(v, s, f);
      assert Above(v, s, f, i) + "" == Above(v, s, f, i);
    } else if s[i].c.kind in {Tool, ToolResult} {
      var b := EndOfRun(s, i);
      RunFromTop(v, s, f, i, b);
      PageOfRun(v, s, f, i, b);
      hide EndOfRun;
      FromTop(v, s, f, b);
      var group := Activity(v, s, i, b);
      Regroup(Above(v, s, f, i), if group == "" && f < b then "" else group + "\n\n", Page(v, s, f, b));
    } else {
      CardFromTop(v, s, f, i);
      FromTop(v, s, f, i + 1);
      Regroup(Above(v, s, f, i), BlockText(v, s[i], i) + "\n\n", Page(v, s, f, i + 1));
    }
  }

  lemma PageEnds(v: View, s: seq<Shot>, f: nat)
    ensures Page(v, s, f, |s|) == ""
  {
  }

  lemma CardFromTop(v: View, s: seq<Shot>, f: nat, i: nat)
    requires i < |s| && s[i].c.kind !in {Tool, ToolResult}
    ensures Above(v, s, f, i + 1) == Above(v, s, f, i) + (BlockText(v, s[i], i) + "\n\n")
    ensures Page(v, s, f, i) == BlockText(v, s[i], i) + "\n\n" + Page(v, s, f, i + 1)
  {
  }

  lemma RunFromTop(v: View, s: seq<Shot>, f: nat, i: nat, b: nat)
    requires i < |s| && i < b == EndOfRun(s, i)
    requires 0 < i ==> s[i - 1].c.kind !in {Tool, ToolResult}
    ensures Above(v, s, f, b) == Above(v, s, f, i) +
                                 (if Activity(v, s, i, b) == "" && f < b then "" else Activity(v, s, i, b) + "\n\n")
  {
    hide Above, GroupText, Activity, EndOfRun;
    AboveRun(v, s, f, i, b);
    ActivityIs(v, s, i, b);
    assert Above(v, s, f, i) + "" == Above(v, s, f, i);
  }

  lemma PageOfRun(v: View, s: seq<Shot>, f: nat, i: nat, b: nat)
    requires i < |s| && i < b == EndOfRun(s, i)
    ensures
      var group := Activity(v, s, i, b);
      Page(v, s, f, i) == (if group == "" && f < b then "" else group + "\n\n") + Page(v, s, f, b)
  {
    hide Activity;
  }

  /** The text that renderBlocks is proved to print is this one, without the line breaks at its end. */
  lemma PictureIsPage(v: View, s: seq<Shot>, f: nat)
    ensures Picture(v, s, f) == TrimNewlines(Page(v, s, f, 0))
  {
    hide Page, TrimNewlines;
    FromTop(v, s, f, 0);
    assert "" + Page(v, s, f, 0) == Page(v, s, f, 0);
  }

  // ---------------------------------------------------------------- which blocks are cached

  /** Block j holds the cache up: it is live, it is a top-level call without a result or has one below it in its run, or
      its run reaches the end of the list. */
  predicate Holds(cs: seq<Content>, live: bool, j: nat)
    requires j < |cs|
  {
    || (live && j == |cs| - 1)
    || (exists m :: j <= m < |cs| && Waits(cs[m]) && forall k :: j <= k <= m ==> cs[k].kind in {Tool, ToolResult})
    || (forall k :: j <= k < |cs| ==> cs[k].kind in {Tool, ToolResult})
  }

  predicate Waits(c: Content) {
    c.kind == Tool && !c.sub && c.dur == 0
  }

  predicate Free(cs: seq<Content>, live: bool, a: nat, i: nat)
    requires i <= |cs|
  {
    forall j :: a <= j < i ==> !Holds(cs, live, j)
  }

  /** No block down to i holds the cache up. */
  predicate Cached(cs: seq<Content>, live: bool, i: nat)
    requires i < |cs|
  {
    forall j :: 0 <= j <= i ==> !Holds(cs, live, j)
  }

  lemma {:induction false} FreeBelow(cs: seq<Content>, live: bool, i: nat)
    requires i <= |cs| && (0 < i < |cs| ==> cs[i - 1].kind !in {Tool, ToolResult} || cs[i].kind !in {Tool, ToolResult})
    ensures Free(cs, live, i, Frontier(cs, live, i))
    ensures Frontier(cs, live, i) < |cs| ==> Holds(cs, live, Frontier(cs, live, i))
    decreases |cs| - i
  {
    hide Holds, AnyPending, PendingTop;
    if i == |cs| {
    } else if (live && i == |cs| - 1) || PendingTop(cs[i]) {
      HeldHere(cs, live, i);
    } else if ToolLike(cs[i]) {
      var end := RunEnd(cs, i);
      RunHolds(cs, live, i, end);
      if end < |cs| && !AnyPending(cs, i, end) {
        FreeBelow(cs, live, end);
      }
    } else {
      FreeBelow(cs, live, i + 1);
      CardHolds(cs, live, i);
    }
  }

  lemma HeldHere(cs: seq<Content>, live: bool, i: nat)
    requires i < |cs| && ((live && i == |cs| - 1) || PendingTop(cs[i]))
    ensures Holds(cs, live, i)
  {
    if PendingTop(cs[i]) {
      assert Waits(cs[i]);
    }
  }

  lemma CardHolds(cs: seq<Content>, live: bool, i: nat)
    requires i < |cs| && cs[i].kind !in {Tool, ToolResult}
    ensures Holds(cs, live, i) <==> live && i == |cs| - 1
  {
  }

  lemma RunHolds(cs: seq<Content>, live: bool, i: nat, end: nat)
    requires i < end <= |cs| && (forall k :: i <= k < end ==> cs[k].kind in {Tool, ToolResult})
    requires end < |cs| ==> cs[end].kind !in {Tool, ToolResult}
    requires !(live && i == |cs| - 1)
    ensures end == |cs| || AnyPending(cs, i, end) ==> Holds(cs, live, i)
    ensures end < |cs| && !AnyPending(cs, i, end) ==> Free(cs, live, i, end)
  {
    if end < |cs| && !AnyPending(cs, i, end) {
      forall j | i <= j < end
        ensures !Holds(cs, live, j)
      {
        if m :| j <= m < |cs| && Waits(cs[m]) && forall k :: j <= k <= m ==> cs[k].kind in {Tool, ToolResult} {
          assert false;
        }
      }
    } else if end < |cs| {
      var m :| i <= m < end && PendingTop(cs[m]);
      assert Waits(cs[m]);
    }
  }

  /** A block is cached exactly when neither it nor a block above it holds the cache up. */
  lemma CachedExactly(cs: seq<Content>, live: bool, i: nat)
    requires i < |cs|
    ensures i < Frontier(cs, live, 0) <==> Cached(cs, live, i)
  {
    hide Holds;
    FreeBelow(cs, live, 0);
    assert Frontier(cs, live, 0) <= i ==> Holds(cs, live, Frontier(cs, live, 0));
  }
}
