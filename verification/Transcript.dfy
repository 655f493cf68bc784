/** The transcript as a value: what a list of blocks looks like when it is drawn.

    Nothing here knows about caches. A block's content is a record, a drawn block is a `Shot` (a content
    and the time it was drawn at), and the text of a list of shots is defined index by index: every block
    contributes a piece, and the pieces of a maximal run of tool blocks are merged into one group. The
    session in TranscriptSession.dfy, with its caches, is proved to print exactly this text. */
module Transcript {
  import opened Options
  import opened Text

  datatype Kind =
    | User | Assistant | Thinking | Tool | ToolResult | Info | Success | Warn | Error | Approve | Trimmed | Raw

  datatype Approval = Pending | Approved | Always | Denied

  /** The fields of a block that its picture depends on. `timed` says that `started` is not the zero time. */
  datatype Content = Content(
    kind: Kind,
    text: string,
    name: string,
    args: string,
    output: string,
    diff: string,
    timed: bool,
    started: int,
    dur: nat,
    collapsed: bool,
    model: string,
    sub: bool,
    id: string,
    expanded: bool,
    ok: bool,
    hasOk: bool,
    approval: Approval,
    trimmed: nat)

  function Fresh(kind: Kind): Content {
    Content(kind, "", "", "", "", "", false, 0, 0, false, "", false, "", false, false, false, Pending, 0)
  }

  predicate Streaming(kind: Kind) {
    kind.Assistant? || kind.Thinking?
  }

  /** Calls and results belong to the compact activity group. */
  predicate ToolLike(c: Content) {
    c.kind.Tool? || c.kind.ToolResult?
  }

  /** isInFlight: a top-level call without its result. */
  predicate PendingTop(c: Content) {
    c.kind.Tool? && !c.sub && c.dur == 0
  }

  /** block.inFlight: the row shows a running clock. Unlike `PendingTop` it is also true of nested calls. */
  predicate Ticking(c: Content) {
    c.dur == 0 && c.timed
  }

  /** A running scout is shown in a panel of its own, so its row is left out of the group. */
  predicate HiddenRow(c: Content) {
    c.kind.Tool? && Ticking(c) && (c.name == "spawn" || c.name == "subagent")
  }

  predicate Conversational(c: Content) {
    c.kind.User? || c.kind.Assistant? || c.kind.Thinking? || ToolLike(c) || c.kind.Approve?
  }

  predicate HasConversation(cs: seq<Content>) {
    exists i :: 0 <= i < |cs| && Conversational(cs[i])
  }

  /** The kinds whose finished card is remembered from one drawing to the next. */
  predicate Memoable(kind: Kind) {
    kind.Assistant? || kind.Thinking? || kind.User?
  }

  // ---------------------------------------------------------------- drawing

  /** The key of every action, as the cards name it. */
  type Keys = map<string, string>

  /** Settings that show in a drawing and can change without a word to the transcript: the selected model, if there is
      one, and the keys. */
  datatype Settings = Settings(model: Option<string>, keys: Keys)

  /** The styling library, taken as given: arbitrary functions from what they are shown to text. `mark` puts the focus
      marker and the names of keys into a finished card. */
  datatype Look = Look(
    card: (Content, int, string, Keys) -> string,
    mark: (string, bool, Keys) -> string,
    row: (Content, int, Option<int>, bool, string, Keys) -> string,
    heading: (seq<Content>, int, string, Keys) -> string,
    frame: (int, string) -> string)

  /** A reply that names no model is drawn under the selected one. */
  function Signed(c: Content, model: Option<string>): Content {
    if c.kind.Assistant? && c.model == "" && model.Some? then c.(model := model.value) else c
  }

  /** The one thing asked of it: the frame around a group is not empty and loses no row. */
  ghost predicate Honest(look: Look) {
    forall w: int, s: string :: look.frame(w, s) != "" && Newlines(look.frame(w, s)) >= Newlines(s)
  }

  /** Width, theme and focus: every change of these clears the prefix cache. */
  datatype View = View(look: Look, width: int, theme: string, focus: int)

  /** A block as it was drawn: what its card shows, the time, the keys its card was made with, and those it was marked
      with. */
  datatype Shot = Shot(c: Content, at: int, keys: Keys, hints: Keys)

  /** A block drawn from scratch. */
  function ShotOf(c: Content, prefs: Settings, now: int): Shot {
    Shot(Signed(c, prefs.model), now, prefs.keys, prefs.keys)
  }

  /** A block that is not part of an activity group. */
  function BlockText(v: View, x: Shot, i: int): string {
    v.look.mark(v.look.card(x.c, v.width, v.theme, x.keys), i == v.focus, x.hints)
  }

  function InnerWidth(w: int): int {
    if w - 4 > 8 then w - 4 else 8
  }

  function Elapsed(s: Shot): Option<int> {
    if Ticking(s.c) then Some(s.at - s.c.started) else None
  }

  function RowText(v: View, s: Shot, i: int): string {
    v.look.row(s.c, InnerWidth(v.width), Elapsed(s), i == v.focus, v.theme, s.keys)
  }

  /** The visible rows of blocks a..b, each on a new line. */
  function Rows(v: View, s: seq<Shot>, a: nat, b: nat): string
    requires a <= b <= |s|
  {
    if a == b then ""
    else Rows(v, s, a, b - 1) + (if HiddenRow(s[b - 1].c) then "" else "\n" + RowText(v, s[b - 1], b - 1))
  }

  function VisibleOf(s: seq<Shot>, a: nat, b: nat): seq<Content>
    requires a <= b <= |s|
  {
    if a == b then [] else VisibleOf(s, a, b - 1) + (if HiddenRow(s[b - 1].c) then [] else [s[b - 1].c])
  }

  function Heading(v: View, s: seq<Shot>, a: nat, b: nat): string
    requires a < b <= |s|
  {
    v.look.heading(VisibleOf(s, a, b), InnerWidth(v.width), v.theme, s[b - 1].keys)
  }

  /** One activity group. */
  function GroupText(v: View, s: seq<Shot>, a: nat, b: nat): string
    requires a <= b <= |s|
  {
    if a == b || VisibleOf(s, a, b) == [] then ""
    else v.look.frame(v.width, Heading(v, s, a, b) + Rows(v, s, a, b))
  }

  /** Where the run of tool blocks that block i lies in begins. */
  function RunStart(s: seq<Shot>, i: nat): (a: nat)
    requires i < |s|
    ensures a <= i
    ensures forall j :: a <= j < i ==> ToolLike(s[j].c)
    ensures a > 0 ==> !ToolLike(s[a - 1].c)
  {
    if i == 0 || !ToolLike(s[i - 1].c) then i else RunStart(s, i - 1)
  }

  /** What block i adds to the text when the blocks before `f` come from the prefix cache: its card, or, for
      the last block of a maximal run of tool blocks, the group of the whole run. A group without a visible
      row leaves a gap in the cached part only. */
  function Piece(v: View, s: seq<Shot>, f: nat, i: nat): string
    requires i < |s|
  {
    if !ToolLike(s[i].c) then BlockText(v, s[i], i) + "\n\n"
    else if i + 1 < |s| && ToolLike(s[i + 1].c) then ""
    else
      var g := GroupText(v, s, RunStart(s, i), i + 1);
      if g == "" && f <= i then "" else g + "\n\n"
  }

  /** The text above block i. */
  function Above(v: View, s: seq<Shot>, f: nat, i: nat): string
    requires i <= |s|
  {
    if i == 0 then "" else Above(v, s, f, i - 1) + Piece(v, s, f, i - 1)
  }

  /** The whole transcript. */
  function Picture(v: View, s: seq<Shot>, f: nat): string {
    TrimNewlines(Above(v, s, f, |s|))
  }

  // ---------------------------------------------------------------- the cache frontier

  function RunEnd(cs: seq<Content>, i: nat): (end: nat)
    requires i <= |cs|
    ensures i <= end <= |cs|
    ensures forall j :: i <= j < end ==> ToolLike(cs[j])
    ensures end < |cs| ==> !ToolLike(cs[end])
    decreases |cs| - i
  {
    if i < |cs| && ToolLike(cs[i]) then RunEnd(cs, i + 1) else i
  }

  predicate AnyPending(cs: seq<Content>, a: nat, b: nat)
    requires a <= b <= |cs|
  {
    exists j :: a <= j < b && PendingTop(cs[j])
  }

  /** Starting at block i, the first block that must stay out of the prefix cache: the live one, a pending
      call, a run with a pending call, or a run that reaches the end of the list. */
  function Frontier(cs: seq<Content>, live: bool, i: nat): (f: nat)
    requires i <= |cs|
    ensures i <= f <= |cs|
    decreases |cs| - i
  {
    if i == |cs| || (live && i == |cs| - 1) || PendingTop(cs[i]) then i
    else if ToolLike(cs[i]) then
      var end := RunEnd(cs, i);
      if end == |cs| || AnyPending(cs, i, end) then i else Frontier(cs, live, end)
    else Frontier(cs, live, i + 1)
  }

  /** `k` does not split a run of tool blocks, a run at the end of the list lies above it, and no block below
      it is live or pending. */
  ghost predicate Cut(cs: seq<Content>, live: bool, k: nat) {
    && k <= |cs|
    && (live ==> k < |cs|)
    && (forall i :: 0 <= i < k ==> !PendingTop(cs[i]))
    && (k > 0 && ToolLike(cs[k - 1]) ==> k < |cs| && !ToolLike(cs[k]))
  }

  /** `i` is where a unit (a block, or a whole run) begins. */
  ghost predicate Boundary(cs: seq<Content>, i: nat) {
    i <= |cs| && (0 < i < |cs| ==> !(ToolLike(cs[i - 1]) && ToolLike(cs[i])))
  }

  /** Extending the cache from any cut reaches the same frontier as filling an empty cache. */
  lemma {:induction false} FrontierFromCut(cs: seq<Content>, live: bool, i: nat, k: nat)
    requires Cut(cs, live, k) && i <= k && Boundary(cs, i)
    ensures Frontier(cs, live, i) == Frontier(cs, live, k)
    decreases k - i
  {
    if i < k {
      if ToolLike(cs[i]) {
        var end := RunEnd(cs, i);
        if k < end {
          assert false;
        }
        FrontierFromCut(cs, live, end, k);
      } else {
        FrontierFromCut(cs, live, i + 1, k);
      }
    }
  }

  /** The frontier is itself a cut, so a filled cache never splits a run and never holds a trailing one. */
  lemma {:induction false} FrontierIsCut(cs: seq<Content>, live: bool, k: nat)
    requires Cut(cs, live, k) && (live ==> |cs| > 0 && !ToolLike(cs[|cs| - 1]))
    ensures Cut(cs, live, Frontier(cs, live, k))
    decreases |cs| - k
  {
    if k == |cs| || (live && k == |cs| - 1) || PendingTop(cs[k]) {
    } else if ToolLike(cs[k]) {
      var end := RunEnd(cs, k);
      if end < |cs| && !AnyPending(cs, k, end) {
        FrontierIsCut(cs, live, end);
      }
    } else {
      FrontierIsCut(cs, live, k + 1);
    }
  }

  // ---------------------------------------------------------------- shapes

  /** Two lists that the frontier and the grouping cannot tell apart. */
  ghost predicate SameShape(a: seq<Content>, b: seq<Content>) {
    |a| == |b| && forall i :: 0 <= i < |a| ==> a[i].kind == b[i].kind && a[i].sub == b[i].sub && a[i].dur == b[i].dur
  }

  lemma {:induction false} RunEndShape(a: seq<Content>, b: seq<Content>, i: nat)
    requires SameShape(a, b) && i <= |a|
    ensures RunEnd(a, i) == RunEnd(b, i)
    decreases |a| - i
  {
    if i < |a| && ToolLike(a[i]) {
      RunEndShape(a, b, i + 1);
    }
  }

  lemma {:induction false} FrontierShape(a: seq<Content>, b: seq<Content>, live: bool, i: nat)
    requires SameShape(a, b) && i <= |a|
    ensures Frontier(a, live, i) == Frontier(b, live, i)
    decreases |a| - i
  {
    if i == |a| || (live && i == |a| - 1) || PendingTop(a[i]) {
    } else if ToolLike(a[i]) {
      RunEndShape(a, b, i);
      var end := RunEnd(a, i);
      assert AnyPending(a, i, end) == AnyPending(b, i, end) by {
        if j :| i <= j < end && PendingTop(a[j]) { assert PendingTop(b[j]); }
        if j :| i <= j < end && PendingTop(b[j]) { assert PendingTop(a[j]); }
      }
      if end < |a| && !AnyPending(a, i, end) {
        FrontierShape(a, b, live, end);
      }
    } else {
      FrontierShape(a, b, live, i + 1);
    }
  }

  // ---------------------------------------------------------------- congruence

  /** Drawn the same: the time matters only while a clock is running. */
  ghost predicate Alike(a: Shot, b: Shot) {
    a.c == b.c && a.keys == b.keys && a.hints == b.hints && (Ticking(a.c) ==> a.at == b.at)
  }

  lemma {:induction false} GroupAlike(v: View, s: seq<Shot>, t: seq<Shot>, a: nat, b: nat)
    requires a <= b <= |s| && b <= |t| && forall j :: 0 <= j < b ==> Alike(s[j], t[j])
    ensures Rows(v, s, a, b) == Rows(v, t, a, b)
    ensures VisibleOf(s, a, b) == VisibleOf(t, a, b)
    ensures GroupText(v, s, a, b) == GroupText(v, t, a, b)
  {
    if a < b {
      GroupAlike(v, s, t, a, b - 1);
      assert Alike(s[b - 1], t[b - 1]);
    }
  }

  lemma {:induction false} RunStartAlike(s: seq<Shot>, t: seq<Shot>, i: nat)
    requires i < |s| && i < |t| && forall j :: 0 <= j < i ==> s[j].c == t[j].c
    ensures RunStart(s, i) == RunStart(t, i)
  {
    if i > 0 && ToolLike(s[i - 1].c) {
      RunStartAlike(s, t, i - 1);
    }
  }

  /** The text above k depends on the shots below k, and on whether a run goes on at k. */
  lemma {:induction false} AboveAlike(v: View, s: seq<Shot>, t: seq<Shot>, f: nat, g: nat, k: nat)
    requires k <= |s| && k <= |t| && forall j :: 0 <= j < k ==> Alike(s[j], t[j])
    requires k > 0 && ToolLike(s[k - 1].c) ==> (k < |s| && ToolLike(s[k].c)) == (k < |t| && ToolLike(t[k].c))
    requires f == g || (k <= f && k <= g)
    ensures Above(v, s, f, k) == Above(v, t, g, k)
  {
    hide Piece;
    if k > 0 {
      assert Alike(s[k - 1], t[k - 1]);
      AboveAlike(v, s, t, f, g, k - 1);
      PieceAlike(v, s, t, f, g, k - 1);
    }
  }

  lemma PieceAlike(v: View, s: seq<Shot>, t: seq<Shot>, f: nat, g: nat, i: nat)
    requires i < |s| && i < |t| && forall j :: 0 <= j <= i ==> Alike(s[j], t[j])
    requires ToolLike(s[i].c) ==> (i + 1 < |s| && ToolLike(s[i + 1].c)) == (i + 1 < |t| && ToolLike(t[i + 1].c))
    requires f == g || (i < f && i < g)
    ensures Piece(v, s, f, i) == Piece(v, t, g, i)
  {
    hide GroupText, RunStart;
    assert Alike(s[i], t[i]);
    RunStartAlike(s, t, i);
    GroupAlike(v, s, t, RunStart(s, i), i + 1);
  }

  /** A maximal run adds exactly its group. */
  lemma {:induction false} AboveRun(v: View, s: seq<Shot>, f: nat, a: nat, b: nat)
    requires a < b <= |s| && forall j :: a <= j < b ==> ToolLike(s[j].c)
    requires a > 0 ==> !ToolLike(s[a - 1].c)
    requires b < |s| ==> !ToolLike(s[b].c)
    ensures Above(v, s, f, b) == Above(v, s, f, a) +
                                 (if GroupText(v, s, a, b) == "" && f < b then "" else GroupText(v, s, a, b) + "\n\n")
  {
    hide GroupText, BlockText, RunStart;
    InsideRun(v, s, f, a, b - 1);
    RunStartIs(s, a, b - 1);
    assert Piece(v, s, f, b - 1) ==
           if GroupText(v, s, a, b) == "" && f < b then "" else GroupText(v, s, a, b) + "\n\n";
  }

  lemma {:induction false} RunStartIs(s: seq<Shot>, a: nat, i: nat)
    requires a <= i < |s| && forall j :: a <= j < i ==> ToolLike(s[j].c)
    requires a > 0 ==> !ToolLike(s[a - 1].c)
    ensures RunStart(s, i) == a
  {
    if a < i {
      RunStartIs(s, a, i - 1);
    }
  }

  lemma {:induction false} InsideRun(v: View, s: seq<Shot>, f: nat, a: nat, i: nat)
    requires a <= i < |s| && forall j :: a <= j <= i ==> ToolLike(s[j].c)
    ensures Above(v, s, f, i) == Above(v, s, f, a)
  {
    if a < i {
      InsideRun(v, s, f, a, i - 1);
    }
  }

  // ---------------------------------------------------------------- rows on the screen

  /** Where the rows of call j go in a group that starts at block a and at line `base`: below the heading and
      the rows before it. A call left out of the group has the empty range 0..-1. */
  ghost function RowSpan(v: View, s: seq<Shot>, a: nat, base: int, j: nat): (int, int)
    requires a <= j < |s|
  {
    if HiddenRow(s[j].c) then (0, -1)
    else
      var top := base + 1 + Newlines(Rows(v, s, a, j));
      (top, top + Newlines(RowText(v, s[j], j)))
  }

  /** The first and the last row of block i: its own rows for a card, its rows below the heading for a call. */
  ghost function SpanOf(v: View, s: seq<Shot>, f: nat, i: nat): (int, int)
    requires i < |s|
  {
    if ToolLike(s[i].c) then
      RowSpan(v, s, RunStart(s, i), Newlines(Above(v, s, f, RunStart(s, i))), i)
    else
      var top := Newlines(Above(v, s, f, i));
      (top, top + Newlines(BlockText(v, s[i], i)))
  }

  lemma RowSpanAlike(v: View, s: seq<Shot>, t: seq<Shot>, a: nat, base: int, j: nat)
    requires a <= j < |s| && j < |t| && forall k :: 0 <= k <= j ==> Alike(s[k], t[k])
    ensures RowSpan(v, s, a, base, j) == RowSpan(v, t, a, base, j)
  {
    assert Alike(s[j], t[j]);
    GroupAlike(v, s, t, a, j);
  }

  lemma SpanAlike(v: View, s: seq<Shot>, t: seq<Shot>, f: nat, g: nat, i: nat)
    requires i < |s| && i < |t| && forall j :: 0 <= j <= i ==> Alike(s[j], t[j])
    requires f == g || (i <= f && i <= g)
    ensures SpanOf(v, s, f, i) == SpanOf(v, t, g, i)
  {
    assert Alike(s[i], t[i]);
    if ToolLike(s[i].c) {
      RunStartAlike(s, t, i);
      var a := RunStart(s, i);
      assert a > 0 ==> Alike(s[a - 1], t[a - 1]);
      AboveAlike(v, s, t, f, g, a);
      RowSpanAlike(v, s, t, a, Newlines(Above(v, s, f, a)), i);
    } else {
      AboveAlike(v, s, t, f, g, i);
    }
  }

  // ---------------------------------------------------------------- drawing step by step

  /** The spans of the first n blocks. */
  ghost function SpansBelow(v: View, s: seq<Shot>, f: nat, n: nat): (spans: seq<(int, int)>)
    requires n <= |s|
    ensures |spans| == n
  {
    if n == 0 then [] else SpansBelow(v, s, f, n - 1) + [SpanOf(v, s, f, n - 1)]
  }

  lemma {:induction false} SpansBelowAt(v: View, s: seq<Shot>, f: nat, n: nat, i: nat)
    requires i < n <= |s|
    ensures SpansBelow(v, s, f, n)[i] == SpanOf(v, s, f, i)
  {
    hide SpanOf;
    if i < n - 1 {
      SpansBelowAt(v, s, f, n - 1, i);
    }
  }

  lemma {:induction false} SpansBelowAlike(v: View, s: seq<Shot>, t: seq<Shot>, f: nat, g: nat, n: nat)
    requires n <= |s| && n <= |t| && forall j :: 0 <= j < n ==> Alike(s[j], t[j])
    requires f == g || (n <= f && n <= g)
    ensures SpansBelow(v, s, f, n) == SpansBelow(v, t, g, n)
  {
    hide SpanOf;
    if n > 0 {
      SpanAlike(v, s, t, f, g, n - 1);
      SpansBelowAlike(v, s, t, f, g, n - 1);
    }
  }

  /** `text` is the text of the shots `s`, `lines` its height, and `spans` begins with their line ranges. */
  ghost predicate Drawn(v: View, s: seq<Shot>, f: nat, text: string, lines: int, spans: seq<(int, int)>) {
    && text == Above(v, s, f, |s|) && lines == Newlines(text)
    && |s| <= |spans| && spans[..|s|] == SpansBelow(v, s, f, |s|)
  }

  /** Appending whole units leaves the text above them, and the spans in it, as they were. */
  lemma AboveExtend(v: View, s: seq<Shot>, t: seq<Shot>, f: nat, g: nat)
    requires s <= t && (f == g || (|s| <= f && |s| <= g))
    requires 0 < |s| < |t| && ToolLike(s[|s| - 1].c) ==> !ToolLike(t[|s|].c)
    ensures Above(v, t, g, |s|) == Above(v, s, f, |s|)
    ensures SpansBelow(v, t, g, |s|) == SpansBelow(v, s, f, |s|)
  {
    AboveAlike(v, t, s, g, f, |s|);
    SpansBelowAlike(v, t, s, g, f, |s|);
  }

  lemma GapLines(a: string, b: string)
    ensures Newlines(a + b + "\n\n") == Newlines(a) + Height(b) + 1
  {
    NewlinesConcat(a, b);
    NewlinesConcat(a + b, "\n\n");
    assert "\n\n" == "\n" + "\n";
    NewlinesConcat("\n", "\n");
    assert Newlines("\n") == 1;
  }

  /** One more card. */
  lemma DrawnCard(v: View, s: seq<Shot>, f: nat, g: nat, text: string, lines: int, x: Shot, spans: seq<(int, int)>)
    requires Drawn(v, s, f, text, lines, spans) && (f == g || (|s| <= f && |s| <= g))
    requires !ToolLike(x.c) && |s| < |spans|
    requires spans[|s|] == (lines, lines + Height(BlockText(v, x, |s|)) - 1)
    ensures
      var card := BlockText(v, x, |s|);
      Drawn(v, s + [x], g, text + card + "\n\n", lines + Height(card) + 1, spans)
  {
    hide Newlines, RowSpan, GroupText, BlockText;
    var t := s + [x];
    AboveExtend(v, s, t, f, g);
    var card := BlockText(v, x, |s|);
    assert text + card + "\n\n" == text + (card + "\n\n");
    GapLines(text, card);
    assert Piece(v, t, g, |s|) == card + "\n\n";
    assert spans[..|t|] == spans[..|s|] + [spans[|s|]];
  }

  lemma {:induction false} SpansRun(v: View, t: seq<Shot>, f: nat, a: nat, n: nat, spans: seq<(int, int)>)
    requires a <= n <= |t| <= |spans| && forall j :: a <= j < n ==> ToolLike(t[j].c)
    requires a > 0 ==> !ToolLike(t[a - 1].c)
    requires spans[..a] == SpansBelow(v, t, f, a)
    requires forall j :: a <= j < n ==> spans[j] == RowSpan(v, t, a, Newlines(Above(v, t, f, a)), j)
    ensures spans[..n] == SpansBelow(v, t, f, n)
  {
    hide Newlines, RowSpan, Above, RunStart;
    if a < n {
      SpansRun(v, t, f, a, n - 1, spans);
      RunStartIs(t, a, n - 1);
      assert spans[..n] == spans[..n - 1] + [spans[n - 1]];
    }
  }

  /** One more run: `t` is `s` and the shots of the run. */
  lemma DrawnRun(v: View, s: seq<Shot>, f: nat, g: nat, text: string, lines: int, t: seq<Shot>, spans: seq<(int, int)>)
    requires Drawn(v, s, f, text, lines, spans) && (f == g || (|s| <= f && |s| <= g))
    requires s <= t && |s| < |t| <= |spans|
    requires |s| > 0 ==> !ToolLike(s[|s| - 1].c)
    requires forall j :: |s| <= j < |t| ==> ToolLike(t[j].c) && spans[j] == RowSpan(v, t, |s|, lines, j)
    ensures
      var group := GroupText(v, t, |s|, |t|);
      if group == "" && g < |t| then Drawn(v, t, g, text, lines, spans)
      else Drawn(v, t, g, text + group + "\n\n", lines + Height(group) + 1, spans)
  {
    hide Newlines, RowSpan, GroupText, SpanOf, Above, SpansBelow;
    AboveExtend(v, s, t, f, g);
    AboveRun(v, t, g, |s|, |t|);
    var group := GroupText(v, t, |s|, |t|);
    assert text + group + "\n\n" == text + (group + "\n\n");
    assert text + "" == text;
    GapLines(text, group);
    SpansRun(v, t, g, |s|, |t|, spans);
  }
}
