/** What the printed transcript and the recorded line ranges mean. */
module TranscriptTheorems {
  import opened Options
  import opened Text
  import opened Transcript
  import opened TranscriptSession

  // ---------------------------------------------------------------- grouping

  /** Block i closes a run of which no call is shown. */
  ghost predicate HiddenRun(s: seq<Shot>, i: nat)
    requires i < |s|
  {
    ToolLike(s[i].c) && (i + 1 < |s| ==> !ToolLike(s[i + 1].c)) && VisibleOf(s, RunStart(s, i), i + 1) == []
  }

  ghost function HiddenRuns(s: seq<Shot>, n: nat): nat
    requires n <= |s|
  {
    if n == 0 then 0 else HiddenRuns(s, n - 1) + (if HiddenRun(s, n - 1) then 1 else 0)
  }

  lemma EmptyGroup(v: View, s: seq<Shot>, a: nat, b: nat)
    requires Honest(v.look) && a <= b <= |s|
    ensures GroupText(v, s, a, b) == "" <==> VisibleOf(s, a, b) == []
  {
  }

  /** Grouping the list incrementally, with a cache that ends at `f`, against grouping it at once: every run
      without a visible call that lies in the cache leaves a gap of two line breaks, and nothing else differs. */
  lemma {:induction false} GapsOfHiddenRuns(v: View, s: seq<Shot>, f: nat, n: nat)
    requires Honest(v.look) && n <= |s|
    ensures |Above(v, s, f, n)| == |Above(v, s, 0, n)| + 2 * HiddenRuns(s, if n < f then n else f)
    ensures HiddenRuns(s, if n < f then n else f) == 0 ==> Above(v, s, f, n) == Above(v, s, 0, n)
  {
    hide Piece, HiddenRun;
    if n > 0 {
      GapsOfHiddenRuns(v, s, f, n - 1);
      GapOf(v, s, f, n - 1);
    }
  }

  lemma GapOf(v: View, s: seq<Shot>, f: nat, i: nat)
    requires Honest(v.look) && i < |s|
    ensures |Piece(v, s, f, i)| == |Piece(v, s, 0, i)| + if i < f && HiddenRun(s, i) then 2 else 0
    ensures !(i < f && HiddenRun(s, i)) ==> Piece(v, s, f, i) == Piece(v, s, 0, i)
  {
    hide GroupText, VisibleOf, BlockText, RunStart;
    EmptyGroup(v, s, RunStart(s, i), i + 1);
  }

  /** The two agree exactly when the cache holds no such run. */
  lemma IncrementalGroupingIsGrouping(v: View, s: seq<Shot>, f: nat)
    requires Honest(v.look) && f <= |s|
    ensures Above(v, s, f, |s|) == Above(v, s, 0, |s|) <==> HiddenRuns(s, f) == 0
  {
    GapsOfHiddenRuns(v, s, f, |s|);
  }

  lemma {:induction false} SomeHiddenRun(s: seq<Shot>, n: nat)
    requires n <= |s|
    ensures HiddenRuns(s, n) > 0 <==> exists i :: 0 <= i < n && HiddenRun(s, i)
  {
    hide HiddenRun;
    if n > 0 {
      SomeHiddenRun(s, n - 1);
    }
  }

  /** A run without a shown call can enter the cache only as a run of nested scouts that are still at work. */
  lemma CachedHiddenRun(s: seq<Shot>, live: bool, i: nat, j: nat)
    requires live ==> s != [] && !ToolLike(s[|s| - 1].c)
    requires i < Frontier(ContentsOf(s), live, 0) && HiddenRun(s, i) && RunStart(s, i) <= j <= i
    ensures HiddenRow(s[j].c) && s[j].c.sub
  {
    FrontierIsCut(ContentsOf(s), live, 0);
    NoneVisible(s, RunStart(s, i), j, i + 1);
    assert ContentsOf(s)[j] == s[j].c;
    assert !PendingTop(ContentsOf(s)[j]);
  }

  /** And such a run does: with one above any other block, the printed text has a gap that grouping the list at once
      would not leave. */
  lemma HiddenRunReachesCache(v: View, call: Shot, below: Shot)
    requires Honest(v.look) && HiddenRow(call.c) && call.c.sub
    requires !ToolLike(below.c) && !PendingTop(below.c)
    ensures
      var s := [call, below];
      && Frontier(ContentsOf(s), false, 0) == 2 && HiddenRuns(s, 2) == 1
      && Above(v, s, 2, 2) != Above(v, s, 0, 2)
  {
    var s, cs := [call, below], ContentsOf([call, below]);
    assert cs[0] == call.c && cs[1] == below.c;
    assert RunEnd(cs, 1) == 1 && RunEnd(cs, 0) == 1;
    assert !AnyPending(cs, 0, 1);
    assert Frontier(cs, false, 1) == Frontier(cs, false, 2) == 2;
    assert VisibleOf(s, 0, 1) == [];
    assert HiddenRun(s, 0) && !HiddenRun(s, 1);
    assert HiddenRuns(s, 1) == 1;
    IncrementalGroupingIsGrouping(v, s, 2);
  }

  // ---------------------------------------------------------------- rows

  lemma {:induction false} AboveGrows(v: View, s: seq<Shot>, f: nat, a: nat, b: nat)
    requires a <= b <= |s|
    ensures Above(v, s, f, a) <= Above(v, s, f, b)
    ensures Newlines(Above(v, s, f, a)) <= Newlines(Above(v, s, f, b))
  {
    hide Piece, Newlines;
    if a < b {
      AboveGrows(v, s, f, a, b - 1);
      NewlinesConcat(Above(v, s, f, b - 1), Piece(v, s, f, b - 1));
    }
  }

  lemma {:induction false} RowsGrow(v: View, s: seq<Shot>, a: nat, i: nat, b: nat)
    requires a <= i <= b <= |s|
    ensures Newlines(Rows(v, s, a, i)) <= Newlines(Rows(v, s, a, b))
  {
    hide Newlines;
    if i < b {
      RowsGrow(v, s, a, i, b - 1);
      NewlinesConcat(Rows(v, s, a, b - 1), if HiddenRow(s[b - 1].c) then "" else "\n" + RowText(v, s[b - 1], b - 1));
    }
  }

  /** The range of a card is exactly its rows: the card stands in the text where its first line does, and its last
      line is the last line of the card. */
  lemma CardRows(v: View, s: seq<Shot>, f: nat, i: nat)
    requires i < |s| && !ToolLike(s[i].c)
    ensures
      var above, card := Above(v, s, f, i), BlockText(v, s[i], i);
      && above + card + "\n\n" <= Above(v, s, f, |s|)
      && SpanOf(v, s, f, i) == (Newlines(above), Newlines(above + card))
      && Newlines(Above(v, s, f, i + 1)) == Newlines(above + card) + 2
  {
    hide Newlines, BlockText, Above, SpanOf;
    var above, card := Above(v, s, f, i), BlockText(v, s[i], i);
    CardStep(v, s, f, i);
    AboveGrows(v, s, f, i + 1, |s|);
    NewlinesConcat(above, card);
    GapLines(above, card);
  }

  lemma CardStep(v: View, s: seq<Shot>, f: nat, i: nat)
    requires i < |s| && !ToolLike(s[i].c)
    ensures
      var above, card := Above(v, s, f, i), BlockText(v, s[i], i);
      && Above(v, s, f, i + 1) == above + card + "\n\n"
      && SpanOf(v, s, f, i) == (Newlines(above), Newlines(above) + Newlines(card))
  {
    hide Newlines, BlockText;
    var above, card := Above(v, s, f, i), BlockText(v, s[i], i);
    assert above + (card + "\n\n") == above + card + "\n\n";
  }

  function ContentsOf(s: seq<Shot>): (cs: seq<Content>)
    ensures |cs| == |s| && forall i :: 0 <= i < |s| ==> cs[i] == s[i].c
  {
    seq(|s|, i requires 0 <= i < |s| => s[i].c)
  }

  function GroupEnd(s: seq<Shot>, i: nat): (b: nat)
    requires i < |s| && ToolLike(s[i].c)
    ensures i < b <= |s| && (forall j :: i <= j < b ==> ToolLike(s[j].c)) && (b < |s| ==> !ToolLike(s[b].c))
  {
    assert ContentsOf(s)[i] == s[i].c;
    RunEnd(ContentsOf(s), i)
  }

  /** The rows of a shown call lie inside its group, below the first row of the group. */
  lemma CallRows(v: View, s: seq<Shot>, f: nat, i: nat)
    requires Honest(v.look) && i < |s| && ToolLike(s[i].c) && !HiddenRow(s[i].c)
    ensures
      var a, b := RunStart(s, i), GroupEnd(s, i);
      var above, group := Above(v, s, f, a), GroupText(v, s, a, b);
      && above + group + "\n\n" <= Above(v, s, f, |s|)
      && Newlines(above) < SpanOf(v, s, f, i).0 <= SpanOf(v, s, f, i).1 <= Newlines(above + group)
      && Newlines(Above(v, s, f, b)) == Newlines(above + group) + 2
  {
    hide Newlines, RowText, GroupText, Above, Rows;
    var a, b := RunStart(s, i), GroupEnd(s, i);
    var above, group := Above(v, s, f, a), GroupText(v, s, a, b);
    RowInGroup(v, s, a, i, b);
    AboveRun(v, s, f, a, b);
    AboveGrows(v, s, f, b, |s|);
    assert above + (group + "\n\n") == above + group + "\n\n";
    NewlinesConcat(above, group);
    GapLines(above, group);
  }

  lemma RowInGroup(v: View, s: seq<Shot>, a: nat, i: nat, b: nat)
    requires Honest(v.look) && a <= i < b <= |s| && !HiddenRow(s[i].c)
    ensures GroupText(v, s, a, b) != ""
    ensures Newlines(Rows(v, s, a, i)) + Height(RowText(v, s[i], i)) <= Newlines(GroupText(v, s, a, b))
  {
    hide Newlines, RowText;
    Shown(s, a, i, b);
    RowsStep(v, s, a, i);
    RowsGrow(v, s, a, i + 1, b);
    NewlinesConcat(Heading(v, s, a, b), Rows(v, s, a, b));
  }

  lemma {:induction false} Shown(s: seq<Shot>, a: nat, i: nat, b: nat)
    requires a <= i < b <= |s| && !HiddenRow(s[i].c)
    ensures VisibleOf(s, a, b) != []
  {
    if i < b - 1 {
      Shown(s, a, i, b - 1);
    }
  }

  ghost predicate Visible(c: Content) {
    ToolLike(c) ==> !HiddenRow(c)
  }

  /** The ranges of the shown blocks are disjoint and in the order of the list. */
  lemma RangesIncrease(v: View, s: seq<Shot>, f: nat, i: nat, j: nat)
    requires Honest(v.look) && i < j < |s| && Visible(s[i].c) && Visible(s[j].c)
    ensures SpanOf(v, s, f, i).0 <= SpanOf(v, s, f, i).1 < SpanOf(v, s, f, j).0
  {
    hide Newlines, RowText, BlockText, GroupText, Above;
    var b := if ToolLike(s[i].c) then GroupEnd(s, i) else i + 1;
    if ToolLike(s[i].c) {
      CallRows(v, s, f, i);
    } else {
      CardRows(v, s, f, i);
    }
    if b <= j {
      if ToolLike(s[j].c) {
        CallRows(v, s, f, j);
        StartsAfter(s, b, j);
        AboveGrows(v, s, f, b, RunStart(s, j));
      } else {
        CardRows(v, s, f, j);
        AboveGrows(v, s, f, b, j);
      }
    } else {
      RunStartIs(s, RunStart(s, i), j);
      RowsStep(v, s, RunStart(s, i), i);
      RowsGrow(v, s, RunStart(s, i), i + 1, j);
    }
  }

  lemma {:induction false} StartsAfter(s: seq<Shot>, b: nat, j: nat)
    requires 0 < b <= j < |s| && (ToolLike(s[b - 1].c) ==> !ToolLike(s[b].c)) && ToolLike(s[j].c)
    ensures b <= RunStart(s, j)
  {
    if RunStart(s, j) < b {
      assert false;
    }
  }

  // ---------------------------------------------------------------- the printed text and the ranges

  /** Where a card is in the printed text `out`: below exactly `top` line breaks, and its last line is line `bottom`.
      Only line breaks at its end can be missing, and only when nothing but line breaks follows them. */
  lemma CardInOutput(v: View, s: seq<Shot>, f: nat, bs: seq<Block>, out: string, i: nat)
    requires |bs| == |s| && Spans(bs) == SpansBelow(v, s, f, |s|) && out == Picture(v, s, f)
    requires i < |s| && !ToolLike(s[i].c)
    ensures
      var above, card := Above(v, s, f, i), BlockText(v, s[i], i);
      && bs[i].top == Newlines(above) && bs[i].bottom == Newlines(above + card)
      && (|| above + card <= out
          || (out <= above + card && forall k :: |out| <= k < |above + card| ==> (above + card)[k] == '\n'))
      && (card != "" && card[|card| - 1] != '\n' ==> above + card <= out)
  {
    hide SpansBelow, SpanOf, BlockText, Above, Newlines;
    SpansBelowAt(v, s, f, |s|, i);
    CardRows(v, s, f, i);
    var above, card := Above(v, s, f, i), BlockText(v, s[i], i);
    assert Spans(bs)[i] == (bs[i].top, bs[i].bottom);
    TrimmedPrefix(Above(v, s, f, |s|), above + card);
  }

  /** A prefix of a text, and the text without its final line breaks. */
  lemma TrimmedPrefix(text: string, part: string)
    requires part <= text
    ensures
      var out := TrimNewlines(text);
      && (part <= out || (out <= part && forall k :: |out| <= k < |part| ==> part[k] == '\n'))
      && (part != "" && part[|part| - 1] != '\n' ==> part <= out)
  {
    TrimNewlinesIsPrefix(text);
    var out := TrimNewlines(text);
    hide TrimNewlines;
    assert part == text[..|part|] && out == text[..|out|];
    if |part| > |out| {
      forall k | |out| <= k < |part|
        ensures part[k] == '\n'
      {
        assert part[k] == text[k];
      }
    }
  }

  /** A shown call is in the printed text, inside its group and below the first row of the group. */
  lemma CallInOutput(v: View, s: seq<Shot>, f: nat, bs: seq<Block>, out: string, i: nat)
    requires Honest(v.look)
    requires |bs| == |s| && Spans(bs) == SpansBelow(v, s, f, |s|) && out == Picture(v, s, f)
    requires i < |s| && ToolLike(s[i].c) && !HiddenRow(s[i].c)
    ensures
      var a, b := RunStart(s, i), GroupEnd(s, i);
      var above, group := Above(v, s, f, a), GroupText(v, s, a, b);
      && Newlines(above) < bs[i].top <= bs[i].bottom <= Newlines(above + group)
      && (|| above + group <= out
          || (out <= above + group && forall k :: |out| <= k < |above + group| ==> (above + group)[k] == '\n'))
      && (group != "" && group[|group| - 1] != '\n' ==> above + group <= out)
  {
    hide SpansBelow, SpanOf, Above, Newlines, GroupText;
    SpansBelowAt(v, s, f, |s|, i);
    CallRows(v, s, f, i);
    assert Spans(bs)[i] == (bs[i].top, bs[i].bottom);
    var a, b := RunStart(s, i), GroupEnd(s, i);
    TrimmedPrefix(Above(v, s, f, |s|), Above(v, s, f, a) + GroupText(v, s, a, b));
  }

  /** The recorded ranges of shown blocks are disjoint and in the order of the list. */
  lemma RecordedIncrease(v: View, s: seq<Shot>, f: nat, bs: seq<Block>, i: nat, j: nat)
    requires Honest(v.look) && |bs| == |s| && Spans(bs) == SpansBelow(v, s, f, |s|)
    requires i < j < |s| && Visible(s[i].c) && Visible(s[j].c)
    ensures bs[i].top <= bs[i].bottom < bs[j].top
  {
    hide SpansBelow, SpanOf;
    SpansBelowAt(v, s, f, |s|, i);
    SpansBelowAt(v, s, f, |s|, j);
    RangesIncrease(v, s, f, i, j);
    assert Spans(bs)[i] == (bs[i].top, bs[i].bottom) && Spans(bs)[j] == (bs[j].top, bs[j].bottom);
  }

  // ---------------------------------------------------------------- the printed text and the current list

  /** Args and diff are short enough to survive releaseAfterCache. */
  predicate Small(c: Content) {
    c.kind.Tool? || c.kind.Approve? ==> |c.args| <= MaxCachedArgs && |c.diff| <= MaxCachedArgs
  }

  /** What the cache holds of this block is what it is. */
  predicate Lasting(c: Content) {
    Small(c) && !Ticking(c)
  }

  /** The list as it is; the live block shows what it is drawn with. */
  ghost function Current(s: seq<Shot>, bs: seq<Block>, prefs: Settings, now: int): (t: seq<Shot>)
    requires |s| == |bs|
    ensures |t| == |s| && forall i :: 0 <= i < |s| ==> t[i] == ShotOf(bs[i].content.(text := s[i].c.text), prefs, now)
  {
    seq(|s|, i requires 0 <= i < |s| => ShotOf(bs[i].content.(text := s[i].c.text), prefs, now))
  }

  lemma LastingAlike(prefs: Settings, x: Shot, b: Block, now: int)
    requires Tracks(x.c, b) && UpToDate(prefs, x, b.content) && Lasting(b.content)
    ensures Alike(x, ShotOf(b.content.(text := x.c.text), prefs, now)) && ShownText(b.content.text, x.c.text, false)
  {
    LastingIs(prefs, x, b);
    SignedText(b.content, prefs, x.c.text);
    hide Signed, Tracks, Released;
  }

  lemma LastingIs(prefs: Settings, x: Shot, b: Block)
    requires Tracks(x.c, b) && UpToDate(prefs, x, b.content) && Lasting(b.content)
    ensures x.c == Signed(b.content, prefs.model) && x.c.text == b.content.text && Ticking(x.c) == Ticking(b.content)
  {
    UpToDateIs(prefs, x, b);
    SmallStays(x.c);
    SignedKeeps(b.content, prefs);
    hide Signed, Tracks, UpToDate, Released;
  }

  lemma SmallStays(c: Content)
    requires Small(Released(c))
    ensures Released(c) == c
  {
    if c.kind.Tool? || c.kind.Approve? {
      ShortUncapped(c.args);
      ShortUncapped(c.diff);
    }
    hide CapTo;
    assert c.(args := c.args, diff := c.diff) == c;
  }

  lemma ShortUncapped(s: string)
    ensures |CapTo(s, MaxCachedArgs)| <= MaxCachedArgs ==> CapTo(s, MaxCachedArgs) == s
  {
  }

  lemma SignedKeeps(c: Content, prefs: Settings)
    ensures Signed(c, prefs.model).text == c.text && Ticking(Signed(c, prefs.model)) == Ticking(c)
    ensures Small(Signed(c, prefs.model)) == Small(c)
  {
  }

  lemma DrawnAlike(v: View, prefs: Settings, x: Shot, b: Block, b': Block, live: bool, now: int)
    requires DrawnNow(v, prefs, x, b, b', live, now) && InStep(v.look, prefs, b.content, b.memo)
    ensures Alike(x, ShotOf(b.content.(text := x.c.text), prefs, now)) && ShownText(b.content.text, x.c.text, live)
  {
    hide InStep, Reuses, Memoized, Ticking;
    SignedText(b.content, prefs, x.c.text);
    hide Signed;
  }

  lemma SignedText(c: Content, prefs: Settings, text: string)
    ensures Signed(c.(text := text), prefs.model) == Signed(c, prefs.model).(text := text)
  {
  }

  /** `shown` is the whole text, or, for the live block, all but a tail of fewer than 64 bytes; a line break is
      shown at once. */
  predicate ShownText(text: string, shown: string, live: bool) {
    && shown <= text && |text| - |shown| < StreamBatch
    && (!live || EndsInNewline(text) ==> shown == text)
  }

  /** The main theorem about renderBlocks: `s` is what its contract records of the drawing, `bs` the blocks before it,
      of which the first k are in the cache already. When the remembered cards and the cache are in step and those k
      blocks are what they were, the text is that of the current list drawn from scratch. Nothing is asked of the
      other blocks. */
  lemma PictureIsCurrent(v: View, prefs: Settings, s: seq<Shot>, bs: seq<Block>, bs': seq<Block>, cur: Option<nat>,
                         k: nat, f: nat, now: int)
    requires |s| == |bs| && k <= f <= |s|
    requires Tracked(s[..k], bs) && Shots(v, prefs, s, bs, bs', k, |s|, cur, now)
    requires AllInStep(v.look, prefs, bs) && FrozenInStep(prefs, s[..k], bs)
    requires forall i :: 0 <= i < k ==> Lasting(bs[i].content)
    ensures Picture(v, s, f) == Picture(v, Current(s, bs, prefs, now), f)
    ensures forall i :: 0 <= i < |s| ==> ShownText(bs[i].content.text, s[i].c.text, i >= k && cur == Some(bs[i].uid))
  {
    var t := Current(s, bs, prefs, now);
    forall i | 0 <= i < |s|
      ensures Alike(s[i], t[i])
      ensures ShownText(bs[i].content.text, s[i].c.text, i >= k && cur == Some(bs[i].uid))
    {
      hide InStep, DrawnNow, Tracks, Lasting, UpToDate, Alike, ShownText;
      assert InStep(v.look, prefs, bs[i].content, bs[i].memo);
      if i < k {
        assert s[..k][i] == s[i] && Tracks(s[..k][i].c, bs[i]) && UpToDate(prefs, s[..k][i], bs[i].content);
        LastingAlike(prefs, s[i], bs[i], now);
      } else {
        DrawnAlike(v, prefs, s[i], bs[i], bs'[i], cur == Some(bs[i].uid), now);
      }
    }
    hide Tracked, Shots, AllInStep, FrozenInStep;
    AboveAlike(v, s, t, f, f, |s|);
  }

  /** Every block shows its whole text: none is live, or the live one ends in a line break. */
  ghost predicate ShownWhole(bs: seq<Block>, cur: Option<nat>) {
    forall i :: 0 <= i < |bs| && cur == Some(bs[i].uid) ==> EndsInNewline(bs[i].content.text)
  }

  /** What renderBlocks prints does not depend on how the blocks came about, what is cached or what was drawn before:
      two lists of the same contents, with cards in step, print the same. A live block must end in a line break, for
      what is shown of it otherwise is a matter of when it was last drawn. */
  lemma HistoryDoesNotMatter(v: View, prefs: Settings, s: seq<Shot>, bs: seq<Block>, r: seq<Block>, cur: Option<nat>,
                             k: nat, s': seq<Shot>, bs': seq<Block>, r': seq<Block>, cur': Option<nat>, k': nat,
                             f: nat, now: int)
    requires |s| == |bs| == |s'| == |bs'| && k <= f <= |s| && k' <= f && Contents(bs) == Contents(bs')
    requires Tracked(s[..k], bs) && Shots(v, prefs, s, bs, r, k, |s|, cur, now)
    requires Tracked(s'[..k'], bs') && Shots(v, prefs, s', bs', r', k', |s'|, cur', now)
    requires AllInStep(v.look, prefs, bs) && FrozenInStep(prefs, s[..k], bs) && ShownWhole(bs, cur)
    requires AllInStep(v.look, prefs, bs') && FrozenInStep(prefs, s'[..k'], bs') && ShownWhole(bs', cur')
    requires forall i :: 0 <= i < k || 0 <= i < k' ==> Lasting(bs[i].content)
    ensures Picture(v, s, f) == Picture(v, s', f)
  {
    hide Picture, Tracked, Shots, AllInStep, FrozenInStep, EndsInNewline, Lasting;
    assert forall i :: 0 <= i < |bs| ==> bs'[i].content == Contents(bs')[i] == Contents(bs)[i] == bs[i].content;
    PictureIsCurrent(v, prefs, s, bs, r, cur, k, f, now);
    PictureIsCurrent(v, prefs, s', bs', r', cur', k', f, now);
    forall i | 0 <= i < |s|
      ensures Current(s, bs, prefs, now)[i] == Current(s', bs', prefs, now)[i]
    {
      assert ShownText(bs[i].content.text, s[i].c.text, i >= k && cur == Some(bs[i].uid));
      assert ShownText(bs'[i].content.text, s'[i].c.text, i >= k' && cur' == Some(bs'[i].uid));
    }
    assert Current(s, bs, prefs, now) == Current(s', bs', prefs, now);
  }

  /** renderBlocks prints the current list, drawn from scratch. That remembered cards and cache are in step is kept by
      every mutator of the session but four: the click on a reasoning block, a delta under another model, the choice
      of another model and a change of keys. Of the blocks, only those that are in the cache already must be what they
      were when they entered it. */
  method RenderSettled(session: Session, now: int, splash: string) returns (out: string, ghost s: seq<Shot>)
    requires session.Valid() && session.CardsInStep() && HasConversation(Contents(session.blocks))
    requires forall i :: 0 <= i < session.cacheIdx && i < |session.blocks| ==> Lasting(session.blocks[i].content)
    modifies session
    ensures session.Valid() && session.CardsInStep() && session.TheView() == old(session.TheView())
    ensures session.settings == old(session.settings) && |s| == |session.blocks| == |old(session.blocks)|
    ensures out == Picture(session.TheView(), Current(s, old(session.blocks), session.settings, now), session.cacheIdx)
    ensures session.cacheIdx == Frontier(Contents(session.blocks), session.cur.Some?, 0)
    ensures forall i :: 0 <= i < |s| ==>
              var b := old(session.blocks)[i];
              ShownText(b.content.text, s[i].c.text, session.cur == Some(b.uid))
  {
    hide Picture, Frontier, Shots, ShownText, Lasting, OnlyReleasedOrRedrawn, AllInStep, HasConversation, SpansBelow,
         Tracked, Session.Valid, FrozenInStep;
    CachedIsTracked(session);
    ghost var bs, k, f0 := session.blocks, session.cacheIdx, session.frozen;
    out, s := session.RenderBlocks(now, splash);
    SettledPicture(session.TheView(), session.settings, s, bs, session.blocks, session.cur, f0, k,
                   session.cacheIdx, now);
  }

  lemma SettledPicture(v: View, prefs: Settings, s: seq<Shot>, bs: seq<Block>, bs': seq<Block>, cur: Option<nat>,
                       f0: seq<Shot>, k: nat, f: nat, now: int)
    requires |s| == |bs| && k == |f0| <= f <= |s| && f0 <= s
    requires Tracked(f0, bs) && Shots(v, prefs, s, bs, bs', k, |s|, cur, now)
    requires AllInStep(v.look, prefs, bs) && FrozenInStep(prefs, f0, bs)
    requires forall i :: 0 <= i < k ==> Lasting(bs[i].content)
    ensures Picture(v, s, f) == Picture(v, Current(s, bs, prefs, now), f)
    ensures forall i :: 0 <= i < |s| ==> ShownText(bs[i].content.text, s[i].c.text, cur == Some(bs[i].uid))
  {
    hide Picture, Shots, ShownText, Lasting, AllInStep, Tracked, FrozenInStep;
    assert s[..k] == f0;
    PictureIsCurrent(v, prefs, s, bs, bs', cur, k, f, now);
    forall i | 0 <= i < |s|
      ensures ShownText(bs[i].content.text, s[i].c.text, cur == Some(bs[i].uid))
    {
      if i < k {
        WholeShown(bs[i].content.text, s[i].c.text, cur == Some(bs[i].uid));
      }
    }
  }

  lemma WholeShown(text: string, shown: string, live: bool)
    requires ShownText(text, shown, false)
    ensures ShownText(text, shown, live)
  {
  }

  lemma CachedIsTracked(session: Session)
    requires session.Valid()
    ensures |session.frozen| == session.cacheIdx <= |session.blocks|
    ensures Tracked(session.frozen, session.blocks)
    ensures session.frozen[..session.cacheIdx] == session.frozen
    ensures session.cur.Some? ==> session.cacheIdx < |session.blocks|
  {
  }

  // ---------------------------------------------------------------- eviction

  predicate WellTrimmed(cs: seq<Content>) {
    |cs| <= MaxBlocks && forall i :: 0 < i < |cs| ==> !cs[i].kind.Trimmed?
  }

  function Hidden(cs: seq<Content>): nat {
    if cs != [] && cs[0].kind.Trimmed? then cs[0].trimmed else 0
  }

  /** The blocks that are not the marker. */
  function Kept(cs: seq<Content>): seq<Content> {
    if cs != [] && cs[0].kind.Trimmed? then cs[1..] else cs
  }

  lemma PushedShape(cs: seq<Content>, c: Content)
    requires WellTrimmed(cs) && !c.kind.Trimmed?
    ensures |cs| < MaxBlocks ==> Pushed(cs, c) == cs + [c]
    ensures |cs| == MaxBlocks ==>
              Pushed(cs, c) == [Marker(if cs[0].kind.Trimmed? then cs[0].trimmed + 1 else 2)] + cs[2..] + [c]
  {
    if |cs| == MaxBlocks {
      assert (cs + [c])[2..] == cs[2..] + [c];
    }
  }

  /** One push: the list stays short, no block is lost count of, and what is kept is the newest. */
  lemma PushKeepsCount(cs: seq<Content>, c: Content)
    requires WellTrimmed(cs) && !c.kind.Trimmed?
    ensures WellTrimmed(Pushed(cs, c))
    ensures Hidden(Pushed(cs, c)) + |Kept(Pushed(cs, c))| == Hidden(cs) + |Kept(cs)| + 1
    ensures exists gone: seq<Content> :: Kept(cs) + [c] == gone + Kept(Pushed(cs, c))
  {
    hide Pushed;
    PushedShape(cs, c);
    if |cs| == MaxBlocks {
      var kept := cs[2..] + [c];
      assert Pushed(cs, c)[1..] == kept;
      var gone := if cs[0].kind.Trimmed? then [cs[1]] else [cs[0], cs[1]];
      assert Kept(cs) == gone + cs[2..];
      assert Kept(cs) + [c] == gone + kept;
    } else {
      assert cs != [] ==> (cs + [c])[1..] == cs[1..] + [c];
      assert Kept(cs) + [c] == [] + Kept(Pushed(cs, c));
    }
  }

  function PushedAll(items: seq<Content>): seq<Content> {
    if items == [] then [] else Pushed(PushedAll(items[..|items| - 1]), items[|items| - 1])
  }

  /** The 400 rows left of a long list. */
  function Newest(items: seq<Content>): seq<Content> {
    if |items| <= MaxBlocks then items
    else [Marker(|items| - (MaxBlocks - 1))] + items[|items| - (MaxBlocks - 1)..]
  }

  lemma NewestStep(items: seq<Content>, c: Content)
    requires (forall i :: 0 <= i < |items| ==> !items[i].kind.Trimmed?) && !c.kind.Trimmed?
    ensures WellTrimmed(Newest(items)) && Pushed(Newest(items), c) == Newest(items + [c])
  {
    hide Pushed;
    PushedShape(Newest(items), c);
    if |items| >= MaxBlocks {
      var k := |items| + 1 - (MaxBlocks - 1);
      assert Newest(items)[2..] == items[k..];
      assert (items + [c])[k..] == items[k..] + [c];
    }
  }

  /** A whole run of pushes: everything, or the 399 newest blocks below a marker that counts the others. */
  lemma {:induction false} PushedAllIs(items: seq<Content>)
    requires forall i :: 0 <= i < |items| ==> !items[i].kind.Trimmed?
    ensures PushedAll(items) == Newest(items)
  {
    hide Pushed, Newest;
    if items != [] {
      var n := |items| - 1;
      PushedAllIs(items[..n]);
      NewestStep(items[..n], items[n]);
      assert items == items[..n] + [items[n]];
    } else {
      NewestOfNone();
    }
  }

  lemma NewestOfNone()
    ensures Newest([]) == []
  {
  }

  /** What push does to the identities and to the focus of a list of at most 400 blocks: PushedIds and
      FocusAfterPush. */
  lemma ShortPush(cs: seq<Content>, c: Content, ids: seq<nat>, marker: nat, id: nat, focus: int)
    requires WellTrimmed(cs) && |ids| == |cs| && -1 <= focus < |cs|
    ensures
      var drop := Dropped(cs + [c]);
      && drop == (if |cs| < MaxBlocks then 0 else 2)
      && PushedIds(ids, drop, marker, id) == (if |cs| < MaxBlocks then ids + [id] else [marker] + ids[2..] + [id])
      && FocusAfterPush(cs, c, focus) == (if |cs| < MaxBlocks then focus else Shifted(focus, 1))
  {
    if |cs| == MaxBlocks {
      assert (ids + [id])[2..] == ids[2..] + [id];
    }
  }

  /** The focus when n blocks have moved up. */
  function Shifted(focus: int, n: nat): int {
    if focus - n < 0 then -1 else focus - n
  }

  /** A block that is pushed, with its identity and that of the marker put above it if older ones must go. */
  datatype Arrival = Arrival(c: Content, marker: nat, id: nat)

  function ListAfter(cs: seq<Content>, news: seq<Arrival>): seq<Content> {
    if news == [] then cs else Pushed(ListAfter(cs, news[..|news| - 1]), news[|news| - 1].c)
  }

  /** The identities of the same list. */
  function IdsAfter(cs: seq<Content>, ids: seq<nat>, news: seq<Arrival>): (r: seq<nat>)
    requires |ids| == |cs|
    ensures |r| == |ListAfter(cs, news)|
  {
    if news == [] then ids
    else
      var before, x := ListAfter(cs, news[..|news| - 1]), news[|news| - 1];
      PushedIds(IdsAfter(cs, ids, news[..|news| - 1]), Dropped(before + [x.c]), x.marker, x.id)
  }

  /** The focus in the same list. */
  function FocusAfter(cs: seq<Content>, news: seq<Arrival>, focus: int): int {
    if news == [] then focus
    else
      FocusAfterPush(ListAfter(cs, news[..|news| - 1]), news[|news| - 1].c, FocusAfter(cs, news[..|news| - 1], focus))
  }

  /** How many blocks such a run of pushes moves out of the list. */
  function Gone(n: nat, pushes: nat): nat {
    if n + pushes <= MaxBlocks then 0 else n + pushes - MaxBlocks
  }

  ghost predicate NoMarkers(news: seq<Arrival>) {
    forall i :: 0 <= i < |news| ==> !news[i].c.kind.Trimmed?
  }

  lemma {:induction false} ListStaysShort(cs: seq<Content>, news: seq<Arrival>)
    requires WellTrimmed(cs) && NoMarkers(news)
    ensures WellTrimmed(ListAfter(cs, news)) && |ListAfter(cs, news)| == |cs| + |news| - Gone(|cs|, |news|)
    decreases |news|
  {
    hide Pushed;
    if news != [] {
      var before, c := ListAfter(cs, news[..|news| - 1]), news[|news| - 1].c;
      ListStaysShort(cs, news[..|news| - 1]);
      PushKeepsCount(before, c);
      PushedShape(before, c);
    }
  }

  /** Over any run of pushes: the focus names the block it named before as long as that block is kept, and none once
      it is gone, but for one moment: when the marker has just taken the block's place the focus is on the marker. */
  lemma FocusNamesItsBlock(cs: seq<Content>, ids: seq<nat>, news: seq<Arrival>, focus: int)
    requires WellTrimmed(cs) && |ids| == |cs| && NoMarkers(news) && 0 <= focus < |cs|
    ensures
      var gone := Gone(|cs|, |news|);
      var ids', focus' := IdsAfter(cs, ids, news), FocusAfter(cs, news, focus);
      && |ids'| == |cs| + |news| - gone
      && focus' == Shifted(focus, gone)
      && (gone == 0 || focus - gone >= 1 ==> ids'[focus'] == ids[focus])
      && (gone > 0 && focus - gone == 0 ==> ids'[focus'] == news[|news| - 1].marker)
      && (focus - gone < 0 ==> focus' == -1)
  {
    RunKeeps(cs, ids, news, focus);
  }

  /** Where block k of the list goes. */
  lemma {:induction false} RunKeeps(cs: seq<Content>, ids: seq<nat>, news: seq<Arrival>, k: nat)
    requires WellTrimmed(cs) && |ids| == |cs| && NoMarkers(news) && k < |cs|
    ensures
      var gone := Gone(|cs|, |news|);
      var ids' := IdsAfter(cs, ids, news);
      && |ids'| == |cs| + |news| - gone
      && FocusAfter(cs, news, k) == Shifted(k, gone)
      && (gone == 0 || k - gone >= 1 ==> ids'[k - gone] == ids[k])
      && (gone > 0 ==> ids'[0] == news[|news| - 1].marker)
    decreases |news|
  {
    hide Pushed, WellTrimmed, Dropped, PushedIds, FocusAfterPush;
    ListStaysShort(cs, news);
    if news != [] {
      var init, x := news[..|news| - 1], news[|news| - 1];
      ListStaysShort(cs, init);
      RunKeeps(cs, ids, init, k);
      ShortPush(ListAfter(cs, init), x.c, IdsAfter(cs, ids, init), x.marker, x.id, FocusAfter(cs, init, k));
    }
  }

  // ---------------------------------------------------------------- discarding a failed attempt

  /** What is thrown away is the maximal streaming tail; what is above it is untouched, and a second discard finds
      nothing. */
  lemma DiscardTakesTheTail(cs: seq<Content>)
    ensures
      var n := StreamStart(cs);
      && (forall i :: n <= i < |cs| ==> Streaming(cs[i].kind))
      && (n > 0 ==> !Streaming(cs[n - 1].kind))
      && cs[..n][..StreamStart(cs[..n])] == cs[..n]
  {
    hide StreamStart;
    var n := StreamStart(cs);
    StreamStartIs(cs[..n], n);
    assert cs[..n][..n] == cs[..n];
  }
}
