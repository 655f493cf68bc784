/** The session's side of the transcript (tui/blocks.go): a list of blocks, a live streaming block, a card
    remembered per block, and a prefix cache that is extended but never re-read.

    A block's address is modelled by its `uid`: `cur` names the live block by uid, and two blocks are the same
    block when their uids are equal. */
module TranscriptSession {
  import opened Options
  import opened Text
  import opened Transcript

  const MaxBlocks: nat := 400
  const StreamBatch: nat := 64

  /** A card remembered from an earlier drawing, with the width, theme and text length it was drawn at. */
  datatype Memo = Memo(w: int, len: nat, str: string, theme: string)

  datatype Block = Block(uid: nat, content: Content, memo: Memo, top: int, bottom: int)

  function Contents(bs: seq<Block>): (cs: seq<Content>)
    ensures |cs| == |bs| && forall i :: 0 <= i < |bs| ==> cs[i] == bs[i].content
  {
    seq(|bs|, i requires 0 <= i < |bs| => bs[i].content)
  }

  function Spans(bs: seq<Block>): (spans: seq<(int, int)>)
    ensures |spans| == |bs| && forall i :: 0 <= i < |bs| ==> spans[i] == (bs[i].top, bs[i].bottom)
  {
    seq(|bs|, i requires 0 <= i < |bs| => (bs[i].top, bs[i].bottom))
  }

  function Uids(bs: seq<Block>): (ids: seq<nat>)
    ensures |ids| == |bs| && forall i :: 0 <= i < |bs| ==> ids[i] == bs[i].uid
  {
    seq(|bs|, i requires 0 <= i < |bs| => bs[i].uid)
  }

  function SpanAt(bs: seq<Block>, j: nat): (int, int)
    requires j < |bs|
  {
    (bs[j].top, bs[j].bottom)
  }

  predicate EndsInNewline(s: string) {
    s != "" && s[|s| - 1] == '\n'
  }

  // ---------------------------------------------------------------- the remembered card

  /** An earlier state of content `c`: a prefix of its text, and the two other fields that are changed without
      clearing the memo. */
  function Earlier(c: Content, len: nat, collapsed: bool, model: string): Content
    requires len <= |c.text|
  {
    c.(text := c.text[..len], collapsed := collapsed, model := model)
  }

  ghost predicate CardOf(look: Look, c: Content, m: Memo, collapsed: bool, model: string, keys: Keys) {
    m.len <= |c.text| && m.str == look.card(Earlier(c, m.len, collapsed, model), m.w, m.theme, keys)
  }

  /** The remembered card is that of an earlier state. */
  ghost predicate CardOK(look: Look, c: Content, m: Memo) {
    && (!Memoable(c.kind) ==> m.str == "")
    && (m.str != "" ==> exists collapsed, model, keys :: CardOf(look, c, m, collapsed, model, keys))
  }

  /** The remembered card is that of the present state and settings, up to text still to come. */
  ghost predicate InStep(look: Look, prefs: Settings, c: Content, m: Memo) {
    m.str != "" ==> CardOf(look, c, m, c.collapsed, Signed(c, prefs.model).model, prefs.keys)
  }

  /** The card of `d` is a legitimate picture of content `c`: of its whole text, or, while the block is live,
      of all but a short tail without a closing line break. */
  ghost predicate Shows(d: Content, c: Content, live: bool) {
    && |d.text| <= |c.text| && d == Earlier(c, |d.text|, d.collapsed, d.model)
    && (!live || EndsInNewline(c.text) ==> d.text == c.text)
    && |c.text| - |d.text| < StreamBatch
  }

  /** The remembered card of a finished block serves again. Neither the selected model nor the keys are asked for. */
  predicate Remembers(c: Content, m: Memo, w: int, theme: string) {
    Memoable(c.kind) && m.str != "" && m.w == w && m.theme == theme && m.len == |c.text|
  }

  /** The remembered card serves: for a finished block when nothing changed, for the live one until a line break or
      64 more bytes come. */
  predicate Reuses(c: Content, m: Memo, w: int, theme: string, live: bool) {
    if live then
      w == m.w && !EndsInNewline(c.text) && m.str != "" && m.theme == theme && |c.text| - m.len < StreamBatch
    else Remembers(c, m, w, theme)
  }

  /** The card of `c`. */
  function Card(look: Look, prefs: Settings, c: Content, w: int, theme: string): string {
    look.card(Signed(c, prefs.model), w, theme, prefs.keys)
  }

  /** What renderBlock remembers. */
  function Memoized(look: Look, prefs: Settings, c: Content, m: Memo, w: int, theme: string, live: bool): Memo {
    if Reuses(c, m, w, theme, live) then m else Memo(w, |c.text|, Card(look, prefs, c, w, theme), theme)
  }

  /** `d` is content `c` under the present settings, up to a tail of its text, drawn with the present keys. */
  ghost predicate Faithful(prefs: Settings, d: Content, keys: Keys, c: Content) {
    d == Signed(c, prefs.model).(text := d.text) && keys == prefs.keys
  }

  /** Block `b`, as it is before it is drawn, is drawn as `x`: as it is, or with the remembered card. */
  ghost predicate Pictured(v: View, prefs: Settings, x: Shot, b: Block, live: bool) {
    && (if Reuses(b.content, b.memo, v.width, v.theme, live) then
          v.look.card(x.c, v.width, v.theme, x.keys) == b.memo.str
        else x.c == Signed(b.content, prefs.model) && x.keys == prefs.keys)
    && Shows(x.c, b.content, live)
    && (InStep(v.look, prefs, b.content, b.memo) ==> Faithful(prefs, x.c, x.keys, b.content))
    && x.hints == prefs.keys
  }

  /** The shot of block `b`, and the block `b'` it leaves. */
  ghost predicate DrawnNow(v: View, prefs: Settings, x: Shot, b: Block, b': Block, live: bool, now: int) {
    && x.at == now
    && Pictured(v, prefs, x, b, live)
    && (Memoable(b.content.kind) ==> b'.memo == Memoized(v.look, prefs, b.content, b.memo, v.width, v.theme, live))
  }

  /** Blocks a..b of `bs` are drawn as in `s` and become those of `bs'`. */
  ghost predicate Shots(v: View, prefs: Settings, s: seq<Shot>, bs: seq<Block>, bs': seq<Block>, a: nat, b: nat,
                        cur: Option<nat>, now: int) {
    && a <= b <= |s| && b <= |bs| == |bs'|
    && forall j :: a <= j < b ==> DrawnNow(v, prefs, s[j], bs[j], bs'[j], cur == Some(bs[j].uid), now)
  }

  lemma NoShots(v: View, prefs: Settings, s: seq<Shot>, bs: seq<Block>, a: nat, cur: Option<nat>, now: int)
    requires a <= |s| && a <= |bs|
    ensures Shots(v, prefs, s, bs, bs, a, a, cur, now)
  {
  }

  lemma ShotsThen(v: View, prefs: Settings, s: seq<Shot>, s': seq<Shot>, r: seq<Block>, m: seq<Block>, t: seq<Block>,
                  a: nat, b: nat, c: nat, cur: Option<nat>, now: int)
    requires Shots(v, prefs, s, r, m, a, b, cur, now) && Shots(v, prefs, s', m, t, b, c, cur, now) && s[..b] <= s'
    requires forall j :: b <= j < |r| ==> m[j] == r[j]
    requires forall j :: 0 <= j < b ==> t[j] == m[j]
    ensures Shots(v, prefs, s', r, t, a, c, cur, now)
  {
    hide DrawnNow;
    forall j | a <= j < c
      ensures DrawnNow(v, prefs, s'[j], r[j], t[j], cur == Some(r[j].uid), now)
    {
      assert j < b ==> s'[j] == s[..b][j] == s[j];
    }
  }

  lemma WholeIsPictured(v: View, prefs: Settings, b: Block, b': Block, now: int)
    requires !Memoable(b.content.kind)
    ensures DrawnNow(v, prefs, ShotOf(b.content, prefs, now), b, b', false, now)
  {
    WholeShows(b.content, prefs, false);
  }

  /** The state of the flags in which the remembered card was drawn: the present one, if that fits. */
  lemma MemoFlags(look: Look, prefs: Settings, c: Content, m: Memo) returns (collapsed: bool, model: string, keys: Keys)
    requires CardOK(look, c, m)
    ensures m.str != "" ==> CardOf(look, c, m, collapsed, model, keys)
    ensures InStep(look, prefs, c, m) ==>
              collapsed == c.collapsed && model == Signed(c, prefs.model).model && keys == prefs.keys
  {
    collapsed, model, keys := c.collapsed, Signed(c, prefs.model).model, prefs.keys;
    if m.str != "" && !CardOf(look, c, m, collapsed, model, keys) {
      collapsed, model, keys :| CardOf(look, c, m, collapsed, model, keys);
    }
  }

  lemma FreshCardFits(look: Look, prefs: Settings, c: Content, w: int, theme: string)
    requires Memoable(c.kind)
    ensures
      var m := Memo(w, |c.text|, Card(look, prefs, c, w, theme), theme);
      CardOK(look, c, m) && InStep(look, prefs, c, m)
  {
    var d := Signed(c, prefs.model);
    EarlierIs(c, |c.text|, prefs);
    assert c.text[..|c.text|] == c.text;
    hide Earlier, Signed;
    assert CardOf(look, c, Memo(w, |c.text|, Card(look, prefs, c, w, theme), theme), c.collapsed, d.model, prefs.keys);
  }

  lemma WholeShows(c: Content, prefs: Settings, live: bool)
    ensures Shows(Signed(c, prefs.model), c, live) && Faithful(prefs, Signed(c, prefs.model), prefs.keys, c)
  {
    assert c.text[..|c.text|] == c.text;
  }

  /** The present state, with a prefix of its text, as it is drawn under the present settings. */
  lemma EarlierIs(c: Content, len: nat, prefs: Settings)
    requires len <= |c.text|
    ensures Earlier(c, len, c.collapsed, Signed(c, prefs.model).model) == Signed(c, prefs.model).(text := c.text[..len])
    ensures Earlier(c, len, c.collapsed, Signed(c, prefs.model).model) == Signed(c.(text := c.text[..len]), prefs.model)
  {
  }

  /** What a reused card shows. */
  lemma ReusedShows(look: Look, prefs: Settings, c: Content, m: Memo, collapsed: bool, model: string, keys: Keys,
                    w: int, theme: string, live: bool)
    requires CardOf(look, c, m, collapsed, model, keys) && Reuses(c, m, w, theme, live)
    ensures
      var d := Earlier(c, m.len, collapsed, model);
      && Shows(d, c, live) && look.card(d, w, theme, keys) == m.str
      && (collapsed == c.collapsed && model == Signed(c, prefs.model).model && keys == prefs.keys ==>
            Faithful(prefs, d, keys, c))
  {
    EarlierShows(c, m.len, collapsed, model, live);
    EarlierIs(c, m.len, prefs);
    hide Earlier, Signed, Shows;
  }

  lemma EarlierShows(c: Content, len: nat, collapsed: bool, model: string, live: bool)
    requires len <= |c.text| && |c.text| - len < StreamBatch && (!live || EndsInNewline(c.text) ==> len == |c.text|)
    ensures Earlier(c, len, collapsed, model).text == c.text[..len]
    ensures Shows(Earlier(c, len, collapsed, model), c, live)
  {
    assert len == |c.text| ==> c.text[..len] == c.text;
  }

  lemma Reused(look: Look, prefs: Settings, c: Content, m: Memo, w: int, theme: string, live: bool)
    returns (shown: Content, keys: Keys)
    requires CardOK(look, c, m) && Reuses(c, m, w, theme, live)
    ensures m.str == look.card(shown, w, theme, keys) && Shows(shown, c, live)
    ensures InStep(look, prefs, c, m) ==> Faithful(prefs, shown, keys, c)
  {
    hide Shows, CardOK, InStep, Faithful, CardOf;
    var collapsed, model;
    collapsed, model, keys := MemoFlags(look, prefs, c, m);
    ReusedShows(look, prefs, c, m, collapsed, model, keys, w, theme, live);
    shown := Earlier(c, m.len, collapsed, model);
  }

  /** renderBlock, up to the focus marker. */
  method Draw(look: Look, prefs: Settings, c: Content, m: Memo, w: int, theme: string, live: bool)
    returns (card: string, m': Memo, ghost shown: Content, ghost keys: Keys)
    requires CardOK(look, c, m) && (live ==> Memoable(c.kind))
    ensures CardOK(look, c, m')
    ensures card == look.card(shown, w, theme, keys) && Shows(shown, c, live)
    ensures InStep(look, prefs, c, m) ==> Faithful(prefs, shown, keys, c)
    ensures
      if Reuses(c, m, w, theme, live) then card == m.str else shown == Signed(c, prefs.model) && keys == prefs.keys
    ensures m' == if live || Memoable(c.kind) then Memoized(look, prefs, c, m, w, theme, live) else m
  {
    hide CardOK, InStep, Shows, EndsInNewline, Faithful, Signed;
    var text := c.text;
    WholeShows(c, prefs, live);
    if live {
      var force := w != m.w || EndsInNewline(text) || m.str == "" || m.theme != theme;
      if !force && |text| - m.len < StreamBatch {
        shown, keys := Reused(look, prefs, c, m, w, theme, live);
        return m.str, m, shown, keys;
      }
    } else if Remembers(c, m, w, theme) {
      shown, keys := Reused(look, prefs, c, m, w, theme, live);
      return m.str, m, shown, keys;
    }
    card, m', shown, keys := Card(look, prefs, c, w, theme), m, Signed(c, prefs.model), prefs.keys;
    if live || Memoable(c.kind) {
      m' := Memo(w, |text|, card, theme);
      FreshCardFits(look, prefs, c, w, theme);
    }
  }

  // ---------------------------------------------------------------- what the cache releases

  const MaxCachedArgs: nat := 4096
  const TruncMarker: string := "\n…[truncated]"

  /** capTo. */
  function CapTo(s: string, n: nat): string {
    if n <= 0 || |s| <= n then s else s[..n] + TruncMarker
  }

  /** The lasting effect of releaseAfterCache on a content. */
  function Released(c: Content): Content {
    if c.kind.Tool? || c.kind.Approve? then
      c.(args := CapTo(c.args, MaxCachedArgs), diff := CapTo(c.diff, MaxCachedArgs))
    else c
  }

  function ReleaseAfterCache(b: Block): Block {
    var b' := if Memoable(b.content.kind) then b else b.(memo := b.memo.(str := "", len := 0));
    b'.(content := Released(b.content))
  }

  /** Block `b` is the released form of what was drawn as `d`, up to the two flags. */
  ghost predicate Tracks(d: Content, b: Block) {
    b.content.(collapsed := d.collapsed, model := d.model) == Released(d)
  }

  ghost predicate Tracked(f: seq<Shot>, bs: seq<Block>) {
    |f| <= |bs| && forall i :: 0 <= i < |f| ==> Tracks(f[i].c, bs[i])
  }

  /** Shot `x` was drawn with the flags of `c`, the model it is drawn under, and the keys, that it has now. */
  ghost predicate UpToDate(prefs: Settings, x: Shot, c: Content) {
    && x.c.collapsed == c.collapsed && x.c.model == Signed(c, prefs.model).model
    && x.keys == prefs.keys && x.hints == prefs.keys
  }

  ghost predicate FrozenInStep(prefs: Settings, f: seq<Shot>, bs: seq<Block>) {
    |f| <= |bs| && forall i :: 0 <= i < |f| ==> UpToDate(prefs, f[i], bs[i].content)
  }

  lemma UpToDateIs(prefs: Settings, x: Shot, b: Block)
    requires Tracks(x.c, b) && UpToDate(prefs, x, b.content)
    ensures Released(x.c) == Signed(b.content, prefs.model)
  {
    hide Released;
  }

  lemma ReleaseTracks(look: Look, d: Content, b: Block)
    requires CardOK(look, b.content, b.memo) && Shows(d, b.content, false)
    ensures
      var b' := ReleaseAfterCache(b);
      Tracks(d, b') && CardOK(look, b'.content, b'.memo)
  {
    assert Earlier(b.content, |d.text|, d.collapsed, d.model).text == b.content.text;
  }

  /** Between two lists blocks a..b have been drawn into the cache and released. */
  ghost predicate OnlyReleased(bs: seq<Block>, bs': seq<Block>, a: nat, b: nat) {
    && |bs| == |bs'|
    && (forall i :: 0 <= i < |bs| ==>
          && bs'[i].uid == bs[i].uid
          && bs'[i].content == (if a <= i < b then Released(bs[i].content) else bs[i].content))
    && (forall i :: 0 <= i < |bs| && !(a <= i < b) ==> bs'[i] == bs[i])
  }

  // ---------------------------------------------------------------- invariants

  /** The blocks are distinct and the live block, if any, is the last one and streams. */
  ghost predicate Blocks(look: Look, bs: seq<Block>, cur: Option<nat>, nextUid: nat) {
    && (forall i, j :: 0 <= i < j < |bs| ==> bs[i].uid != bs[j].uid)
    && (forall i :: 0 <= i < |bs| ==> bs[i].uid < nextUid)
    && (cur.Some? ==> |bs| > 0 && bs[|bs| - 1].uid == cur.value && Streaming(bs[|bs| - 1].content.kind))
    && (forall i :: 0 <= i < |bs| ==> CardOK(look, bs[i].content, bs[i].memo))
  }

  /** What the cache is a picture of: `f`, whole units of the list below the first block that must stay out of
      it, whose blocks have since been released and are otherwise as they were drawn. */
  ghost predicate Cached(v: View, bs: seq<Block>, live: bool, f: seq<Shot>, cache: string, lines: int) {
    && Cut(Contents(bs), live, |f|)
    && Tracked(f, bs)
    && Drawn(v, f, |f|, cache, lines, Spans(bs))
  }

  lemma BlocksUpdate(look: Look, bs: seq<Block>, cur: Option<nat>, nextUid: nat, k: nat, b: Block)
    requires Blocks(look, bs, cur, nextUid) && k < |bs|
    requires b.uid == bs[k].uid && b.content.kind == bs[k].content.kind && CardOK(look, b.content, b.memo)
    ensures Blocks(look, bs[k := b], cur, nextUid)
  {
  }

  lemma CutCard(bs: seq<Block>, live: bool, k: nat, b: Block)
    requires Cut(Contents(bs), live, k) && k < |bs| && !ToolLike(bs[k].content) && (live ==> k < |bs| - 1)
    requires b.content == Released(bs[k].content)
    ensures Cut(Contents(bs[k := b]), live, k + 1)
  {
    var cs, cs' := Contents(bs), Contents(bs[k := b]);
    forall i | 0 <= i < k + 1 ensures !PendingTop(cs'[i]) {
      assert i < k ==> cs'[i] == cs[i];
    }
  }

  lemma TrackedCard(bs: seq<Block>, f: seq<Shot>, x: Shot, b: Block)
    requires Tracked(f, bs) && |f| < |bs| && Tracks(x.c, b)
    ensures Tracked(f + [x], bs[|f| := b])
  {
  }

  /** One more card: everything the cache promises. */
  lemma CachedCard(v: View, bs: seq<Block>, live: bool, f: seq<Shot>, cache: string, lines: int, x: Shot, b: Block)
    requires Cached(v, bs, live, f, cache, lines)
    requires |f| < |bs| && !ToolLike(bs[|f|].content) && (live ==> |f| < |bs| - 1)
    requires Tracks(x.c, b) && b.content == Released(bs[|f|].content) && !ToolLike(x.c)
    requires b.top == lines && b.bottom == lines + Height(BlockText(v, x, |f|)) - 1
    ensures
      var text := BlockText(v, x, |f|);
      Cached(v, bs[|f| := b], live, f + [x], cache + text + "\n\n", lines + Height(text) + 1)
  {
    hide SpansBelow, Above, Tracked, Cut, Height, BlockText, Tracks;
    CutCard(bs, live, |f|, b);
    TrackedCard(bs, f, x, b);
    assert Spans(bs[|f| := b])[..|f|] == Spans(bs)[..|f|];
    DrawnCard(v, f, |f|, |f| + 1, cache, lines, x, Spans(bs[|f| := b]));
  }

  function ShotsOf(bs: seq<Block>, prefs: Settings, now: int): (s: seq<Shot>)
    ensures |s| == |bs| && forall i :: 0 <= i < |bs| ==> s[i] == ShotOf(bs[i].content, prefs, now)
  {
    seq(|bs|, i requires 0 <= i < |bs| => ShotOf(bs[i].content, prefs, now))
  }

  /** The run f..t of list `bs` has been drawn as in `t` and released. */
  ghost predicate RunReleased(v: View, bs: seq<Block>, bs': seq<Block>, k: nat, t: seq<Shot>, line: int) {
    && k < |t| < |bs| == |bs'|
    && (forall j :: k <= j < |t| ==>
          && t[j].c == bs[j].content && bs'[j].content == Released(bs[j].content)
          && SpanAt(bs', j) == RowSpan(v, t, k, line, j))
    && (forall j :: 0 <= j < |bs| && !(k <= j < |t|) ==> bs'[j] == bs[j])
  }

  /** One more run: everything the cache promises. */
  lemma CachedRun(v: View, bs: seq<Block>, live: bool, f: seq<Shot>, cache: string, lines: int, t: seq<Shot>,
                  bs': seq<Block>)
    requires Cached(v, bs, live, f, cache, lines)
    requires f <= t && RunReleased(v, bs, bs', |f|, t, lines)
    requires !ToolLike(bs[|t|].content)
    requires forall j :: |f| <= j < |t| ==> ToolLike(bs[j].content) && !PendingTop(bs[j].content)
    ensures
      var text := GroupText(v, t, |f|, |t|);
      Cached(v, bs', live, t, cache + text + "\n\n", lines + Height(text) + 1)
  {
    RunEndsCut(bs, live, f);
    RunCut(v, bs, bs', live, |f|, t, lines);
    RunTracked(v, bs, bs', f, t, lines);
    RunShots(v, bs, bs', |f|, t, lines);
    hide Cut, Tracked, GroupText, Height, RowSpan, RunReleased, Above, SpansBelow;
    DrawnRun(v, f, |f|, |t|, cache, lines, t, Spans(bs'));
  }

  /** A run that follows a cut does not go on a run below it. */
  lemma RunEndsCut(bs: seq<Block>, live: bool, f: seq<Shot>)
    requires Cut(Contents(bs), live, |f|) && Tracked(f, bs) && |f| < |bs| && ToolLike(bs[|f|].content)
    ensures |f| > 0 ==> !ToolLike(f[|f| - 1].c)
  {
    hide InStep, Released;
    assert |f| > 0 ==> Contents(bs)[|f| - 1] == bs[|f| - 1].content && Contents(bs)[|f|] == bs[|f|].content;
    if |f| > 0 {
      TracksKind(f[|f| - 1].c, bs[|f| - 1]);
    }
  }

  lemma TracksKind(d: Content, b: Block)
    requires Tracks(d, b)
    ensures d.kind == b.content.kind
  {
    hide InStep;
  }

  lemma RunCut(v: View, bs: seq<Block>, bs': seq<Block>, live: bool, k: nat, t: seq<Shot>, line: int)
    requires Cut(Contents(bs), live, k) && RunReleased(v, bs, bs', k, t, line) && !ToolLike(bs[|t|].content)
    requires forall j :: k <= j < |t| ==> !PendingTop(bs[j].content)
    ensures Cut(Contents(bs'), live, |t|)
  {
    hide RowSpan;
    forall i | 0 <= i < |t|
      ensures !PendingTop(Contents(bs')[i])
    {
      assert i < k ==> Contents(bs')[i] == Contents(bs)[i];
    }
  }

  lemma RunTracked(v: View, bs: seq<Block>, bs': seq<Block>, f: seq<Shot>, t: seq<Shot>, line: int)
    requires Tracked(f, bs) && f <= t && RunReleased(v, bs, bs', |f|, t, line)
    ensures Tracked(t, bs')
  {
    hide RowSpan, InStep, Released;
    forall i | 0 <= i < |t|
      ensures Tracks(t[i].c, bs'[i])
    {
      if i < |f| {
        assert t[i] == f[i] && bs'[i] == bs[i];
      } else {
        ReleasedTracks(t[i].c, bs'[i]);
      }
    }
  }

  lemma ReleasedTracks(d: Content, b: Block)
    requires b.content == Released(d)
    ensures Tracks(d, b)
  {
  }

  lemma RunShots(v: View, bs: seq<Block>, bs': seq<Block>, k: nat, t: seq<Shot>, line: int)
    requires RunReleased(v, bs, bs', k, t, line)
    ensures k < |t| < |bs'| == |bs| && Spans(bs')[..k] == Spans(bs)[..k]
    ensures forall j :: k <= j < |t| ==> t[j].c == bs[j].content && Spans(bs')[j] == RowSpan(v, t, k, line, j)
  {
    hide RowSpan;
  }

  lemma OnlyReleasedSelf(bs: seq<Block>, a: nat)
    ensures OnlyReleased(bs, bs, a, a)
  {
  }

  lemma OnlyReleasedThen(r: seq<Block>, s: seq<Block>, t: seq<Block>, a: nat, b: nat, c: nat)
    requires OnlyReleased(r, s, a, b) && OnlyReleased(s, t, b, c) && a <= b <= c
    ensures OnlyReleased(r, t, a, c)
  {
    hide InStep, Released;
    assert |r| == |t|;
  }

  /** Between two lists blocks a..b have been drawn and not released. */
  ghost predicate Redrawn(bs: seq<Block>, bs': seq<Block>, a: nat, b: nat) {
    && |bs| == |bs'|
    && (forall i :: 0 <= i < |bs| ==>
          && bs'[i].uid == bs[i].uid && bs'[i].content == bs[i].content)
    && (forall i :: 0 <= i < |bs| && !(a <= i < b) ==> bs'[i] == bs[i])
  }

  lemma RedrawnSelf(bs: seq<Block>, a: nat)
    ensures Redrawn(bs, bs, a, a)
  {
  }

  lemma RedrawnThen(r: seq<Block>, s: seq<Block>, t: seq<Block>, a: nat, b: nat, c: nat)
    requires Redrawn(r, s, a, b) && Redrawn(s, t, b, c) && a <= b <= c
    ensures Redrawn(r, t, a, c)
  {
    hide InStep;
    assert |r| == |t|;
  }

  lemma OnlyReleasedKeeps(bs: seq<Block>, bs': seq<Block>, a: nat, b: nat)
    requires OnlyReleased(bs, bs', a, b)
    ensures |bs'| == |bs| && forall j :: 0 <= j < |bs| && (j < a || b <= j) ==> bs'[j] == bs[j]
  {
    hide InStep, Released;
  }

  lemma RedrawnKeeps(bs: seq<Block>, bs': seq<Block>, a: nat, b: nat)
    requires Redrawn(bs, bs', a, b)
    ensures |bs'| == |bs| && forall j :: 0 <= j < |bs| && (j < a || b <= j) ==> bs'[j] == bs[j]
  {
    hide InStep;
  }

  lemma CachedRedrawn(v: View, bs: seq<Block>, bs': seq<Block>, live: bool, f: seq<Shot>, cache: string, lines: int)
    requires Cached(v, bs, live, f, cache, lines) && Redrawn(bs, bs', |f|, |bs|)
    ensures Cached(v, bs', live, f, cache, lines)
  {
    hide InStep, Above, SpansBelow;
    assert Contents(bs') == Contents(bs);
    assert Spans(bs')[..|f|] == Spans(bs)[..|f|];
  }

  /** What one call of renderBlocks does to the contents: the blocks it adds to the cache are released. */
  ghost predicate OnlyReleasedOrRedrawn(bs: seq<Block>, bs': seq<Block>, a: nat, b: nat) {
    && |bs| == |bs'|
    && (forall i :: 0 <= i < |bs| ==>
          && bs'[i].uid == bs[i].uid
          && bs'[i].content == (if a <= i < b then Released(bs[i].content) else bs[i].content))
    && (forall i :: 0 <= i < |bs| && i < a ==> bs'[i] == bs[i])
  }

  lemma ReleasedThenRedrawn(r: seq<Block>, s: seq<Block>, t: seq<Block>, a: nat, b: nat)
    requires OnlyReleased(r, s, a, b) && Redrawn(s, t, b, |s|) && a <= b
    ensures OnlyReleasedOrRedrawn(r, t, a, b)
  {
    hide InStep, Released;
    assert |r| == |t|;
  }

  /** No run goes on where the shots end. */
  ghost predicate UnitEnds(s: seq<Shot>, bs: seq<Block>) {
    0 < |s| < |bs| && ToolLike(s[|s| - 1].c) ==> !ToolLike(bs[|s|].content)
  }

  lemma FrozenEnds(f: seq<Shot>, bs: seq<Block>, live: bool)
    requires Cut(Contents(bs), live, |f|) && Tracked(f, bs)
    ensures UnitEnds(f, bs)
  {
    hide InStep;
    assert |f| > 0 ==> Tracks(f[|f| - 1].c, bs[|f| - 1]) && Contents(bs)[|f| - 1] == bs[|f| - 1].content;
  }

  // ---------------------------------------------------------------- rows of an activity group

  /** Two lists that differ in the line ranges of blocks a..b at most. */
  ghost predicate Respanned(bs: seq<Block>, bs': seq<Block>, a: nat, b: nat) {
    && |bs| == |bs'|
    && (forall i :: 0 <= i < |bs| ==> bs'[i] == bs[i].(top := bs'[i].top, bottom := bs'[i].bottom))
    && (forall i :: 0 <= i < |bs| && !(a <= i < b) ==> bs'[i] == bs[i])
  }

  lemma ToolShot(c: Content, prefs: Settings, now: int)
    requires ToolLike(c)
    ensures ShotOf(c, prefs, now) == Shot(c, now, prefs.keys, prefs.keys)
  {
  }

  /** Block j is drawn in shot s[j]. */
  ghost predicate InShot(bs: seq<Block>, s: seq<Shot>, a: nat, b: nat, prefs: Settings, now: int) {
    && a <= b <= |s| && b <= |bs|
    && forall j :: a <= j < b ==> ToolLike(bs[j].content) && s[j] == ShotOf(bs[j].content, prefs, now)
  }

  lemma RowsStep(v: View, s: seq<Shot>, a: nat, j: nat)
    requires a <= j < |s| && !HiddenRow(s[j].c)
    ensures Rows(v, s, a, j + 1) == Rows(v, s, a, j) + "\n" + RowText(v, s[j], j)
    ensures Newlines(Rows(v, s, a, j + 1)) == Newlines(Rows(v, s, a, j)) + Height(RowText(v, s[j], j))
  {
    var row := RowText(v, s[j], j);
    assert Rows(v, s, a, j) + ("\n" + row) == Rows(v, s, a, j) + "\n" + row;
    NewlinesConcat(Rows(v, s, a, j), "\n" + row);
    NewlinesConcat("\n", row);
    assert Newlines("\n") == 1;
  }

  lemma HiddenStep(v: View, s: seq<Shot>, a: nat, j: nat)
    requires a <= j < |s| && HiddenRow(s[j].c)
    ensures Rows(v, s, a, j + 1) == Rows(v, s, a, j)
  {
  }

  lemma {:induction false} NoneVisible(s: seq<Shot>, a: nat, j: nat, b: nat)
    requires a <= j < b <= |s| && VisibleOf(s, a, b) == []
    ensures HiddenRow(s[j].c)
  {
    if j < b - 1 {
      NoneVisible(s, a, j, b - 1);
    }
  }

  /** Appending text, or another model name, leaves the remembered card that of an earlier state. */
  lemma GrowCard(look: Look, c: Content, c': Content, m: Memo)
    requires CardOK(look, c, m) && c.text <= c'.text && c' == c.(text := c'.text, model := c'.model)
    ensures CardOK(look, c', m)
  {
    if m.str != "" {
      var collapsed, model, keys :| CardOf(look, c, m, collapsed, model, keys);
      assert c'.text[..m.len] == c.text[..m.len];
      assert Earlier(c', m.len, collapsed, model) == Earlier(c, m.len, collapsed, model);
      assert CardOf(look, c', m, collapsed, model, keys);
    }
  }

  ghost predicate SameBlocks(bs: seq<Block>, bs': seq<Block>) {
    && |bs| == |bs'| && Contents(bs) == Contents(bs')
    && forall i :: 0 <= i < |bs| ==> bs'[i].uid == bs[i].uid && bs'[i].memo == bs[i].memo
  }

  /** No remembered card is out of step with its block. */
  ghost predicate AllInStep(look: Look, prefs: Settings, bs: seq<Block>) {
    forall i :: 0 <= i < |bs| ==> InStep(look, prefs, bs[i].content, bs[i].memo)
  }

  lemma InStepSame(look: Look, prefs: Settings, bs: seq<Block>, bs': seq<Block>)
    requires SameBlocks(bs, bs') && AllInStep(look, prefs, bs)
    ensures AllInStep(look, prefs, bs')
  {
    hide InStep;
    forall i | 0 <= i < |bs'| ensures InStep(look, prefs, bs'[i].content, bs'[i].memo) {
      assert InStep(look, prefs, bs[i].content, bs[i].memo) && Contents(bs)[i] == Contents(bs')[i];
    }
  }

  lemma InStepUpdate(look: Look, prefs: Settings, bs: seq<Block>, k: nat, b: Block)
    requires k < |bs| && AllInStep(look, prefs, bs) && InStep(look, prefs, b.content, b.memo)
    ensures AllInStep(look, prefs, bs[k := b])
  {
    hide InStep;
  }

  lemma InStepAppend(look: Look, prefs: Settings, bs: seq<Block>, b: Block)
    requires AllInStep(look, prefs, bs) && b.memo.str == ""
    ensures AllInStep(look, prefs, bs + [b])
  {
  }

  lemma InStepDropped(look: Look, prefs: Settings, bs: seq<Block>, b: Block, drop: nat)
    requires AllInStep(look, prefs, bs) && b.memo.str == "" && drop <= |bs|
    ensures AllInStep(look, prefs, [b] + bs[drop..])
  {
  }

  lemma InStepPrefix(look: Look, prefs: Settings, bs: seq<Block>, n: nat)
    requires AllInStep(look, prefs, bs) && n <= |bs|
    ensures AllInStep(look, prefs, bs[..n])
  {
    hide InStep;
  }

  /** Drawing keeps the remembered cards in step, and what it adds to the cache is up to date. */
  lemma InStepDrawn(v: View, prefs: Settings, s: seq<Shot>, bs: seq<Block>, bs': seq<Block>, k: nat, f: nat,
                    cur: Option<nat>, now: int)
    requires |s| == |bs| && Shots(v, prefs, s, bs, bs', k, |s|, cur, now) && OnlyReleasedOrRedrawn(bs, bs', k, f)
    requires AllInStep(v.look, prefs, bs) && f <= |s| && FrozenInStep(prefs, s[..k], bs)
    requires forall i :: 0 <= i < |bs'| ==> CardOK(v.look, bs'[i].content, bs'[i].memo)
    ensures AllInStep(v.look, prefs, bs') && FrozenInStep(prefs, s[..f], bs')
  {
    forall i | 0 <= i < |bs'|
      ensures InStep(v.look, prefs, bs'[i].content, bs'[i].memo)
      ensures i < f ==> UpToDate(prefs, s[i], bs'[i].content)
    {
      hide InStep, DrawnNow, UpToDate, CardOK, Released;
      assert InStep(v.look, prefs, bs[i].content, bs[i].memo);
      if i < k {
        assert s[..k][i] == s[i] && UpToDate(prefs, s[..k][i], bs[i].content);
      } else {
        assert DrawnNow(v, prefs, s[i], bs[i], bs'[i], cur == Some(bs[i].uid), now);
        StepDrawn(v, prefs, s[i], bs[i], bs'[i], cur == Some(bs[i].uid), now);
      }
    }
    assert forall i :: 0 <= i < f ==> s[..f][i] == s[i];
  }

  lemma StepDrawn(v: View, prefs: Settings, x: Shot, b: Block, b': Block, live: bool, now: int)
    requires DrawnNow(v, prefs, x, b, b', live, now) && InStep(v.look, prefs, b.content, b.memo)
    requires b'.content == b.content || b'.content == Released(b.content)
    requires CardOK(v.look, b'.content, b'.memo)
    ensures InStep(v.look, prefs, b'.content, b'.memo) && UpToDate(prefs, x, b'.content)
  {
    hide Card, Shows;
    if Memoable(b.content.kind) {
      hide CardOK;
      FreshCardFits(v.look, prefs, b.content, v.width, v.theme);
    }
  }

  lemma FrozenKept(prefs: Settings, f: seq<Shot>, bs: seq<Block>, bs': seq<Block>)
    requires FrozenInStep(prefs, f, bs) && |f| <= |bs'| && forall i :: 0 <= i < |f| ==> bs'[i].content == bs[i].content
    ensures FrozenInStep(prefs, f, bs')
  {
    hide UpToDate;
  }

  /** More text keeps a card in step, as long as the model it is drawn under stays. */
  lemma GrowInStep(look: Look, prefs: Settings, c: Content, c': Content, m: Memo)
    requires InStep(look, prefs, c, m) && c.text <= c'.text && c' == c.(text := c'.text, model := c'.model)
    requires Signed(c', prefs.model).model == Signed(c, prefs.model).model
    ensures InStep(look, prefs, c', m)
  {
    if m.str != "" {
      var model := Signed(c, prefs.model).model;
      assert c'.text[..m.len] == c.text[..m.len];
      assert Earlier(c', m.len, c.collapsed, model) == Earlier(c, m.len, c.collapsed, model);
    }
  }

  lemma CachedEmpty(v: View, bs: seq<Block>, live: bool)
    requires live ==> bs != []
    ensures Cached(v, bs, live, [], "", 0)
  {
    assert Spans(bs)[..0] == [];
  }

  /** The cache does not depend on what is above it in the list. */
  lemma CachedAbove(v: View, bs: seq<Block>, bs': seq<Block>, live: bool, f: seq<Shot>, cache: string, lines: int)
    requires Cached(v, bs, live, f, cache, lines)
    requires |bs| == |bs'| && forall i :: 0 <= i < |f| ==> bs'[i] == bs[i]
    requires |f| < |bs| ==> ToolLike(bs'[|f|].content) == ToolLike(bs[|f|].content)
    ensures Cached(v, bs', live, f, cache, lines)
  {
    hide InStep, Above, SpansBelow;
    assert Spans(bs')[..|f|] == Spans(bs)[..|f|];
    assert forall i :: 0 <= i < |f| ==> Contents(bs')[i] == Contents(bs)[i];
    assert |f| < |bs| ==> Contents(bs)[|f|] == bs[|f|].content && Contents(bs')[|f|] == bs'[|f|].content;
  }

  lemma CachedAppend(v: View, bs: seq<Block>, b: Block, live: bool, live': bool, f: seq<Shot>, cache: string,
                     lines: int)
    requires Cached(v, bs, live, f, cache, lines)
    ensures Cached(v, bs + [b], live', f, cache, lines)
  {
    hide InStep, Above, SpansBelow;
    var bs' := bs + [b];
    assert Spans(bs')[..|f|] == Spans(bs)[..|f|];
    assert forall i :: 0 <= i < |bs| ==> Contents(bs')[i] == Contents(bs)[i];
  }

  lemma BlocksTrimmed(look: Look, bs: seq<Block>, cur: Option<nat>, nextUid: nat, drop: nat, b: Block)
    requires Blocks(look, bs, cur, nextUid) && drop < |bs| && b.uid == nextUid && CardOK(look, b.content, b.memo)
    ensures Blocks(look, [b] + bs[drop..], cur, nextUid + 1)
  {
    hide CardOK;
  }

  lemma BlocksAppend(look: Look, bs: seq<Block>, cur: Option<nat>, nextUid: nat, b: Block)
    requires Blocks(look, bs, cur, nextUid) && b.uid == nextUid && b.memo.str == ""
    ensures Blocks(look, bs + [b], if Streaming(b.content.kind) then Some(nextUid) else None, nextUid + 1)
  {
  }

  lemma BlocksPrefix(look: Look, bs: seq<Block>, cur: Option<nat>, nextUid: nat, n: nat)
    requires Blocks(look, bs, cur, nextUid) && n <= |bs|
    ensures Blocks(look, bs[..n], None, nextUid)
  {
    hide CardOK;
  }

  // ---------------------------------------------------------------- what the mutators do to the contents

  function Marker(count: nat): Content {
    Fresh(Trimmed).(trimmed := count)
  }

  /** How many blocks of an overfull list are dropped, and how many the marker then stands for. */
  function TrimCounts(cs: seq<Content>): (nat, nat)
    requires |cs| > MaxBlocks
  {
    if cs[0].kind.Trimmed? then
      var over := |cs| - MaxBlocks;
      (over + 1, over + cs[0].trimmed)
    else
      var over := |cs| - (MaxBlocks - 1);
      (over, over)
  }

  /** The eviction step of push. */
  function Evicted(full: seq<Content>): seq<Content> {
    if |full| <= MaxBlocks then full
    else var (drop, count) := TrimCounts(full); [Marker(count)] + full[drop..]
  }

  lemma EvictedNone(full: seq<Content>, focus: int)
    requires |full| <= MaxBlocks
    ensures Evicted(full) == full && FocusEvicted(full, focus) == focus
  {
  }

  /** The blocks after an eviction. */
  function TrimmedBlocks(bs: seq<Block>, uid: nat): (bs': seq<Block>)
    requires |bs| > MaxBlocks
  {
    var (drop, count) := TrimCounts(Contents(bs));
    [Block(uid, Marker(count), Memo(0, 0, "", ""), 0, 0)] + bs[if drop <= |bs| then drop else |bs|..]
  }

  lemma TrimmedContents(bs: seq<Block>, uid: nat)
    requires |bs| > MaxBlocks
    ensures Contents(TrimmedBlocks(bs, uid)) == Evicted(Contents(bs))
    ensures |TrimmedBlocks(bs, uid)| == |bs| - Dropped(Contents(bs)) + 1 <= |bs|
    ensures TrimmedBlocks(bs, uid)[0].uid == uid
    ensures TrimmedBlocks(bs, uid)[1..] == bs[Dropped(Contents(bs))..]
    ensures 1 < |TrimmedBlocks(bs, uid)|
  {
    hide Marker;
    var drop := TrimCounts(Contents(bs)).0;
    var bs' := TrimmedBlocks(bs, uid);
    assert Contents(bs') == [bs'[0].content] + Contents(bs)[drop..];
  }

  /** After an eviction: a block at i > 0 is the one that was at i - 1 + n. */
  lemma TrimmedAt(full: seq<Block>, uid: nat, bs': seq<Block>)
    requires |full| > MaxBlocks && SameBlocks(TrimmedBlocks(full, uid), bs')
    ensures
      var n := Dropped(Contents(full));
      && 1 < |bs'| == |full| - n + 1 <= |full|
      && bs'[0].uid == uid
      && (forall i :: 0 < i < |bs'| ==> bs'[i].uid == full[i - 1 + n].uid && bs'[i].memo == full[i - 1 + n].memo)
      && Contents(bs') == Evicted(Contents(full))
  {
    TrimmedContents(full, uid);
    var t, n := TrimmedBlocks(full, uid), Dropped(Contents(full));
    hide Evicted, Dropped, TrimmedBlocks;
    forall i | 0 < i < |bs'|
      ensures bs'[i].uid == full[i - 1 + n].uid && bs'[i].memo == full[i - 1 + n].memo
    {
      assert t[i] == t[1..][i - 1] == full[n..][i - 1];
    }
  }

  /** The identities of the blocks after a push. */
  lemma PushUids(bs: seq<Block>, full: seq<Block>, bs': seq<Block>, uid: nat)
    requires |full| == |bs| + 1 && forall i :: 0 <= i < |bs| ==> full[i].uid == bs[i].uid
    requires if |full| <= MaxBlocks then bs' == full else SameBlocks(TrimmedBlocks(full, uid), bs')
    ensures bs' != [] && bs'[|bs'| - 1].uid == full[|bs|].uid && bs'[|bs'| - 1].memo == full[|bs|].memo
    ensures Uids(bs') == PushedIds(Uids(bs), Dropped(Contents(full)), bs'[0].uid, full[|bs|].uid)
    ensures Contents(bs') == Evicted(Contents(full))
    ensures |full| > MaxBlocks ==> |bs'| <= |full| && bs'[0].uid == uid
    ensures forall i :: 0 < i < |bs'| && |full| > MaxBlocks ==>
              exists k :: 0 <= k < |full| && bs'[i].uid == full[k].uid && bs'[i].memo == full[k].memo
  {
    assert Uids(full) == Uids(bs) + [full[|bs|].uid];
    if |full| > MaxBlocks {
      TrimmedAt(full, uid, bs');
      hide Evicted, SameBlocks, TrimmedBlocks;
      var n := Dropped(Contents(full));
      hide Dropped;
      assert Uids(bs') == [bs'[0].uid] + Uids(full)[n..];
    }
  }

  function FocusEvicted(full: seq<Content>, focus: int): int {
    if |full| <= MaxBlocks || focus < 0 then focus
    else
      var focus' := focus - TrimCounts(full).0 + 1;
      if focus' < 0 then -1 else focus'
  }

  /** The list after a push. */
  function Pushed(cs: seq<Content>, c: Content): seq<Content> {
    Evicted(cs + [c])
  }

  /** How many blocks of a full list a push drops. */
  function Dropped(full: seq<Content>): (n: nat)
    ensures n <= |full|
  {
    if |full| <= MaxBlocks then 0
    else
      var n := TrimCounts(full).0;
      if n <= |full| then n else |full|
  }

  /** The identities after a push of block `id`: those of the blocks that stay, below a new marker when some go. */
  function PushedIds(ids: seq<nat>, drop: nat, marker: nat, id: nat): seq<nat>
    requires drop <= |ids| + 1
  {
    if drop == 0 then ids + [id] else [marker] + (ids + [id])[drop..]
  }

  /** The focus after a push. */
  function FocusAfterPush(cs: seq<Content>, c: Content, focus: int): int {
    FocusEvicted(cs + [c], focus)
  }

  /** A block as push creates it. */
  function NewBlock(kind: Kind, thinkExpanded: bool): (c: Content)
    ensures c.kind == kind
  {
    Fresh(kind).(collapsed := kind.Thinking? && !thinkExpanded)
  }

  const MaxText: nat := 256 * 1024

  /** appendText. */
  function Appended(text: string, s: string): (r: string)
    ensures text <= r
  {
    if |text| >= MaxText then text
    else
      var remain := MaxText - |text|;
      if |s| <= remain then text + s
      else if remain <= |TruncMarker| then text
      else text + s[..remain - |TruncMarker|] + TruncMarker
  }

  /** Where the trailing streaming blocks begin. */
  function StreamStart(cs: seq<Content>): (n: nat)
    ensures n <= |cs|
    ensures forall i :: n <= i < |cs| ==> Streaming(cs[i].kind)
    ensures n > 0 ==> !Streaming(cs[n - 1].kind)
  {
    if cs != [] && Streaming(cs[|cs| - 1].kind) then StreamStart(cs[..|cs| - 1]) else |cs|
  }

  lemma PushedLast(cs: seq<Content>, a: Content, b: Content)
    ensures Pushed(cs, a) != [] && |Pushed(cs, a)| == |Pushed(cs, b)|
    ensures Pushed(cs, a)[|Pushed(cs, a)| - 1 := b] == Pushed(cs, b)
    ensures Pushed(cs, a)[|Pushed(cs, a)| - 1] == a
    ensures forall focus :: FocusAfterPush(cs, a, focus) == FocusAfterPush(cs, b, focus)
  {
  }

  /** The list with a live block of this kind at the end. */
  function Opened(cs: seq<Content>, live: bool, kind: Kind, thinkExpanded: bool): seq<Content> {
    if live && cs != [] && cs[|cs| - 1].kind == kind then cs else Pushed(cs, NewBlock(kind, thinkExpanded))
  }

  /** One more piece of a stream. */
  function Grown(c: Content, text: string, model: Option<string>): (c': Content)
    ensures c.text <= c'.text && c' == c.(text := c'.text, model := c'.model)
  {
    c.(model := if c.kind.Assistant? && model.Some? then model.value else c.model, text := Appended(c.text, text))
  }

  lemma {:induction false} StreamStartIs(cs: seq<Content>, n: nat)
    requires n <= |cs| && (forall i :: n <= i < |cs| ==> Streaming(cs[i].kind))
    requires n > 0 ==> !Streaming(cs[n - 1].kind)
    ensures StreamStart(cs) == n
  {
    if n < |cs| {
      StreamStartIs(cs[..|cs| - 1], n);
    }
  }

  const MaxStored: nat := 64 * 1024

  /** capStored. */
  function CapStored(s: string): string {
    if |s| <= MaxStored then s else s[..MaxStored] + TruncMarker
  }

  function ToolCall(name: string, args: string, sub: bool, id: string, now: int): Content {
    Fresh(Tool).(name := name, args := CapStored(args), sub := sub, id := id, timed := true, started := now)
  }

  /** The pending call a result belongs to: the last one with this id, or the last of all for an unnamed result. */
  function MatchFor(cs: seq<Content>, id: string, n: nat): (m: int)
    requires n <= |cs|
    ensures -1 <= m < n
    ensures m >= 0 ==> cs[m].kind.Tool? && cs[m].dur == 0 && (id == "" || cs[m].id == id)
    ensures forall i :: m < i < n ==> !(cs[i].kind.Tool? && cs[i].dur == 0 && (id == "" || cs[i].id == id))
  {
    if n == 0 then -1
    else if cs[n - 1].kind.Tool? && cs[n - 1].dur == 0 && (id == "" || cs[n - 1].id == id) then n - 1
    else MatchFor(cs, id, n - 1)
  }

  predicate Blank(s: string) {
    forall c :: c in s ==> c in " \t\n\U{000b}\U{000c}\r"
  }

  /** What finalizeInFlight makes of one block, `took` being the time since the call began. */
  function Finalized(c: Content, note: string, took: nat): (c': Content)
    ensures c'.kind == c.kind && (!(c.kind.Tool? && c.dur == 0) ==> c' == c)
  {
    if !(c.kind.Tool? && c.dur == 0) then c
    else if !Blank(c.output) then c.(dur := took)
    else if c.name == "finish" then c.(dur := took, output := "This turn has finished", hasOk := true, ok := true)
    else c.(dur := took, output := note)
  }

  function Since(now: int, started: int): nat {
    if now > started then now - started else 0
  }

  /** The latest approval still pending, or -1. */
  function PendingApproval(cs: seq<Content>, n: nat): (i: int)
    requires n <= |cs|
    ensures -1 <= i < n
    ensures i >= 0 ==> cs[i].kind.Approve? && cs[i].approval.Pending?
    ensures forall j :: i < j < n ==> !(cs[j].kind.Approve? && cs[j].approval.Pending?)
  {
    if n == 0 then -1
    else if cs[n - 1].kind.Approve? && cs[n - 1].approval.Pending? then n - 1
    else PendingApproval(cs, n - 1)
  }

  datatype Decision = Once | Forever | Refuse | Other

  /** What resolveLatestApproval makes of the approval it finds. */
  function Resolved(c: Content, d: Decision): Content
    requires !d.Other?
  {
    c.(approval := if d.Once? then Approved else if d.Forever? then Always else Denied,
       diff := "", args := CapTo(c.args, MaxCachedArgs))
  }

  class Session {
    const look: Look
    var blocks: seq<Block>
    var cur: Option<nat>
    var cache: string
    var cacheIdx: nat
    var cacheLines: nat
    var focused: int
    var width: int
    var theme: string
    var settings: Settings
    var thinkExpanded: bool
    var nextUid: nat
    ghost var frozen: seq<Shot>  // the blocks in the cache, as they were drawn

    function TheView(): View
      reads `width, `theme, `focused
    {
      View(look, width, theme, focused)
    }

    /** The focus marker is compared by block, not by index. */
    predicate Focused(b: Block)
      reads `blocks, `focused
    {
      0 <= focused < |blocks| && blocks[focused].uid == b.uid
    }

    ghost predicate Shape()
      reads `blocks, `cur, `nextUid
    {
      Blocks(look, blocks, cur, nextUid)
    }

    method SetSpan(j: nat, top: int, bottom: int)
      requires Shape() && j < |blocks|
      modifies `blocks
      ensures Shape() && Respanned(old(blocks), blocks, j, j + 1) && SpanAt(blocks, j) == (top, bottom)
    {
      blocks := blocks[j := blocks[j].(top := top, bottom := bottom)];
    }

    /** The first pass over a run: collect what is shown and clear the range of what is not. */
    method CollectVisible(start: nat, end: nat, now: int, ghost s: seq<Shot>) returns (visible: seq<Content>)
      requires Shape() && InShot(blocks, s, start, end, settings, now)
      modifies `blocks
      ensures Shape() && Respanned(old(blocks), blocks, start, end)
      ensures visible == VisibleOf(s, start, end)
      ensures forall j :: start <= j < end && HiddenRow(s[j].c) ==> SpanAt(blocks, j) == (0, -1)
    {
      hide Session.Shape, HiddenRow, Signed;
      visible := [];
      for j := start to end
        invariant Shape() && Respanned(old(blocks), blocks, start, end)
        invariant visible == VisibleOf(s, start, j)
        invariant forall k :: start <= k < j && HiddenRow(s[k].c) ==> SpanAt(blocks, k) == (0, -1)
      {
        ToolShot(blocks[j].content, settings, now);
        if HiddenRow(blocks[j].content) {
          SetSpan(j, 0, -1);
        } else {
          visible := visible + [blocks[j].content];
        }
      }
    }

    /** One row of the second pass: the summary line of a call, or its detail when it is expanded. A hidden call
        adds none and keeps its empty range. */
    method PlaceRow(j: nat, rows: string, line: nat, now: int, ghost s: seq<Shot>, ghost start: nat)
      returns (rows': string, line': nat)
      requires Shape() && start <= j < |blocks| && j < |s|
      requires ToolLike(blocks[j].content) && s[j] == ShotOf(blocks[j].content, settings, now)
      requires HiddenRow(blocks[j].content) ==> SpanAt(blocks, j) == (0, -1)
      requires rows == Rows(TheView(), s, start, j)
      modifies `blocks
      ensures Shape() && Respanned(old(blocks), blocks, j, j + 1)
      ensures rows' == Rows(TheView(), s, start, j + 1)
      ensures line' - Newlines(rows') == line - Newlines(rows)
      ensures SpanAt(blocks, j) == RowSpan(TheView(), s, start, line - 1 - Newlines(rows), j)
    {
      hide Rows, Newlines;
      var c := blocks[j].content;
      if HiddenRow(c) {
        HiddenStep(TheView(), s, start, j);
        return rows, line;
      }
      var elapsed := if Ticking(c) then Some(now - c.started) else None;
      var row := look.row(c, InnerWidth(width), elapsed, Focused(blocks[j]), theme, settings.keys);
      RowsStep(TheView(), s, start, j);
      SetSpan(j, line, line + Height(row) - 1);
      rows', line' := rows + "\n" + row, line + Height(row);
    }

    lemma NoRows(v: View, s: seq<Shot>, a: nat)
      requires a <= |s|
      ensures Rows(v, s, a, a) == "" && Newlines("") == 0
    {
    }

    /** The second pass: the rows, top to bottom. */
    method DrawRows(start: nat, end: nat, lineBase: nat, now: int, ghost s: seq<Shot>) returns (rows: string)
      requires Shape() && InShot(blocks, s, start, end, settings, now)
      requires forall j :: start <= j < end && HiddenRow(s[j].c) ==> SpanAt(blocks, j) == (0, -1)
      modifies `blocks
      ensures Shape() && Respanned(old(blocks), blocks, start, end)
      ensures rows == Rows(TheView(), s, start, end)
      ensures forall j :: start <= j < end ==> SpanAt(blocks, j) == RowSpan(TheView(), s, start, lineBase, j)
    {
      hide Session.Shape, Rows, RowSpan, Newlines, HiddenRow;
      NoRows(TheView(), s, start);
      rows := "";
      var line := lineBase + 1;  // the heading is the first row
      for j := start to end
        invariant Shape() && Respanned(old(blocks), blocks, start, end)
        invariant rows == Rows(TheView(), s, start, j)
        invariant line == lineBase + 1 + Newlines(rows)
        invariant forall k :: start <= k < j ==> SpanAt(blocks, k) == RowSpan(TheView(), s, start, lineBase, k)
        invariant forall k :: j <= k < end && HiddenRow(s[k].c) ==> SpanAt(blocks, k) == (0, -1)
      {
        rows, line := PlaceRow(j, rows, line, now, s, start);
      }
    }

    /** renderToolActivity: one group for a run of tool blocks. */
    method RenderToolActivity(start: nat, end: nat, lineBase: nat, now: int, ghost s: seq<Shot>) returns (out: string)
      requires Shape() && start < end && InShot(blocks, s, start, end, settings, now)
      modifies `blocks
      ensures Shape() && Respanned(old(blocks), blocks, start, end)
      ensures out == GroupText(TheView(), s, start, end)
      ensures forall j :: start <= j < end ==> SpanAt(blocks, j) == RowSpan(TheView(), s, start, lineBase, j)
    {
      var visible := CollectVisible(start, end, now, s);
      if visible == [] {
        forall j | start <= j < end ensures HiddenRow(s[j].c) {
          NoneVisible(s, start, j, end);
        }
        return "";
      }
      var rows := DrawRows(start, end, lineBase, now, s);
      out := look.frame(width, look.heading(visible, InnerWidth(width), theme, settings.keys) + rows);
    }

    /** renderBlock. */
    method RenderBlock(j: nat, ghost now: int) returns (out: string, ghost shown: Shot)
      requires Shape() && j < |blocks|
      modifies `blocks
      ensures |blocks| == |old(blocks)| && blocks == old(blocks)[j := old(blocks[j]).(memo := blocks[j].memo)]
      ensures Shape()
      ensures out == BlockText(TheView(), shown, j) && shown.c.kind == old(blocks[j]).content.kind
      ensures DrawnNow(TheView(), settings, shown, old(blocks[j]), blocks[j], cur == Some(blocks[j].uid), now)
    {
      var b := blocks[j];
      var card, memo;
      ghost var d, keys;
      var live := cur == Some(b.uid) && Streaming(b.content.kind);
      card, memo, d, keys := Draw(look, settings, b.content, b.memo, width, theme, live);
      blocks := blocks[j := b.(memo := memo)];
      out := look.mark(card, Focused(b), settings.keys);
      shown := Shot(d, now, keys, settings.keys);
    }

    ghost predicate Valid()
      reads this
    {
      Shape() && cacheIdx == |frozen| && Cached(TheView(), blocks, cur.Some?, frozen, cache, cacheLines)
    }

    constructor (look: Look, width: int, theme: string, settings: Settings, thinkExpanded: bool)
      ensures Valid() && blocks == [] && CardsInStep() && cur == None
      ensures this.look == look && this.width == width && this.theme == theme
      ensures this.settings == settings && this.thinkExpanded == thinkExpanded
    {
      this.look, this.width, this.theme := look, width, theme;
      this.settings, this.thinkExpanded := settings, thinkExpanded;
      blocks, cur, cache, cacheIdx, cacheLines, focused, nextUid, frozen := [], None, "", 0, 0, -1, 0, [];
    }

    /** Draw block k for the cache: the block as it will be kept, and its card. */
    method FreezeCard(k: nat, line: nat, ghost now: int) returns (b: Block, rendered: string, ghost shown: Shot)
      requires Shape() && k < |blocks| && cur != Some(blocks[k].uid)
      ensures DrawnNow(TheView(), settings, shown, blocks[k], b, false, now)
      ensures b.uid == blocks[k].uid && b.content.kind == blocks[k].content.kind && CardOK(look, b.content, b.memo)
      ensures b.content == Released(blocks[k].content)
      ensures rendered == BlockText(TheView(), shown, k) && shown.c.kind == b.content.kind && Tracks(shown.c, b)
      ensures b.top == line && b.bottom == line + Height(rendered) - 1
    {
      var card, memo;
      ghost var d, keys;
      b := blocks[k];
      card, memo, d, keys := Draw(look, settings, b.content, b.memo, width, theme, false);
      rendered := look.mark(card, Focused(b), settings.keys);
      b := b.(memo := memo, top := line, bottom := line + Height(rendered) - 1);
      ReleaseTracks(look, d, b);
      b := ReleaseAfterCache(b);
      shown := Shot(d, now, keys, settings.keys);
    }

    /** One round of the caching loop of renderBlocks, for a card. */
    method CacheCard(now: int)
      requires Valid() && cacheIdx < |blocks|
      requires cur != Some(blocks[cacheIdx].uid) && !ToolLike(blocks[cacheIdx].content)
      modifies `blocks, `cache, `cacheIdx, `cacheLines, `frozen
      ensures Valid()
      ensures cacheIdx == old(cacheIdx) + 1 && old(frozen) <= frozen && |blocks| == |old(blocks)|
      ensures Shots(TheView(), settings, frozen, old(blocks), blocks, old(cacheIdx), cacheIdx, cur, now)
      ensures OnlyReleased(old(blocks), blocks, old(cacheIdx), cacheIdx)
    {
      hide Cached, Height, Tracks, CardOK, BlockText, Released, DrawnNow;
      assert cur.Some? ==> cacheIdx < |blocks| - 1;
      hide Blocks;
      var b, rendered;
      ghost var shown;
      b, rendered, shown := FreezeCard(cacheIdx, cacheLines, now);
      BlocksUpdate(look, blocks, cur, nextUid, cacheIdx, b);
      CachedCard(TheView(), blocks, cur.Some?, frozen, cache, cacheLines, shown, b);
      blocks, cache, cacheLines, cacheIdx :=
        blocks[cacheIdx := b], cache + rendered + "\n\n", cacheLines + Height(rendered) + 1, cacheIdx + 1;
      frozen := frozen + [shown];
    }

    /** releaseAfterCache for the blocks of a run. */
    method ReleaseRun(a: nat, b: nat)
      requires Shape() && a <= b <= |blocks|
      requires forall j :: a <= j < b ==> ToolLike(blocks[j].content)
      modifies `blocks
      ensures Shape() && |blocks| == |old(blocks)|
      ensures forall j :: 0 <= j < |blocks| ==>
                            blocks[j] == if a <= j < b then ReleaseAfterCache(old(blocks)[j]) else old(blocks)[j]
    {
      for j := a to b
        invariant Shape() && |blocks| == |old(blocks)|
        invariant forall i :: 0 <= i < |blocks| ==>
                                blocks[i] == if a <= i < j then ReleaseAfterCache(old(blocks)[i]) else old(blocks)[i]
      {
        BlocksUpdate(look, blocks, cur, nextUid, j, ReleaseAfterCache(blocks[j]));
        blocks := blocks[j := ReleaseAfterCache(blocks[j])];
      }
    }

    /** Draw and release a run for the cache. */
    method FreezeRun(k: nat, end: nat, line: nat, now: int, ghost t: seq<Shot>) returns (rendered: string)
      requires Shape() && k < end == |t| < |blocks| && InShot(blocks, t, k, end, settings, now)
      requires forall j :: k <= j < end ==> ToolLike(blocks[j].content)
      modifies `blocks
      ensures Shape() && RunReleased(TheView(), old(blocks), blocks, k, t, line)
      ensures OnlyReleased(old(blocks), blocks, k, end)
      ensures rendered == GroupText(TheView(), t, k, end)
    {
      hide GroupText, RowSpan, CardOK;
      rendered := RenderToolActivity(k, end, line, now, t);
      ReleaseRun(k, end);
      forall j | k <= j < end
        ensures t[j].c == old(blocks)[j].content
      {
        ToolShot(old(blocks)[j].content, settings, now);
      }
      hide Signed, ShotOf;
    }

    /** One round of the caching loop of renderBlocks, for a finished run that other blocks follow. */
    method CacheRun(end: nat, now: int)
      requires Valid() && cacheIdx < end < |blocks| && end == RunEnd(Contents(blocks), cacheIdx)
      requires !AnyPending(Contents(blocks), cacheIdx, end)
      modifies `blocks, `cache, `cacheIdx, `cacheLines, `frozen
      ensures Valid()
      ensures cacheIdx == end && old(frozen) <= frozen && |blocks| == |old(blocks)|
      ensures Shots(TheView(), settings, frozen, old(blocks), blocks, old(cacheIdx), cacheIdx, cur, now)
      ensures OnlyReleased(old(blocks), blocks, old(cacheIdx), cacheIdx)
    {
      hide Cached, Height, GroupText, Shots, ShotOf, InShot, RunReleased, OnlyReleased, AnyPending, RunEnd, Blocks;
      ghost var t := frozen + ShotsOf(blocks[cacheIdx..end], settings, now);
      RunIsWhole(cacheIdx, end);
      RunInShot(frozen, cacheIdx, end, now);
      var rendered := FreezeRun(cacheIdx, end, cacheLines, now, t);
      CachedRun(TheView(), old(blocks), cur.Some?, frozen, cache, cacheLines, t, blocks);
      OnlyReleasedKeeps(old(blocks), blocks, cacheIdx, end);
      RunDrawn(t, old(blocks), blocks, cacheIdx, end, now);
      cache, cacheLines, cacheIdx := cache + rendered + "\n\n", cacheLines + Height(rendered) + 1, end;
      frozen := t;
    }

    /** The body of the caching loop of renderBlocks. */
    method CacheNext(now: int) returns (stop: bool)
      requires Valid() && cacheIdx < |blocks|
      modifies `blocks, `cache, `cacheIdx, `cacheLines, `frozen
      ensures Valid() && old(frozen) <= frozen && |blocks| == |old(blocks)|
      ensures stop ==> blocks == old(blocks) && cacheIdx == old(cacheIdx)
      ensures stop ==> cacheIdx == Frontier(Contents(blocks), cur.Some?, cacheIdx)
      ensures !stop ==> old(cacheIdx) < cacheIdx
      ensures Shots(TheView(), settings, frozen, old(blocks), blocks, old(cacheIdx), cacheIdx, cur, now)
      ensures OnlyReleased(old(blocks), blocks, old(cacheIdx), cacheIdx)
    {
      hide Drawn, Tracked, Height, Tracks, CardOK, InStep, Cut, DrawnNow;
      var b := blocks[cacheIdx];
      ghost var cs := Contents(blocks);
      if cur == Some(b.uid) || PendingTop(b.content) {
        return true;
      }
      if ToolLike(b.content) {
        var end := RunEnd(Contents(blocks), cacheIdx);
        if end == |blocks| || AnyPending(Contents(blocks), cacheIdx, end) {
          return true;
        }
        CacheRun(end, now);
      } else {
        CacheCard(now);
      }
      return false;
    }

    /** The caching loop of renderBlocks. */
    method FillCache(now: int)
      requires Valid()
      modifies `blocks, `cache, `cacheIdx, `cacheLines, `frozen
      ensures Valid()
      ensures cacheIdx == Frontier(Contents(blocks), cur.Some?, 0)
      ensures old(cacheIdx) <= cacheIdx && old(frozen) <= frozen && |blocks| == |old(blocks)|
      ensures Shots(TheView(), settings, frozen, old(blocks), blocks, old(cacheIdx), cacheIdx, cur, now)
      ensures OnlyReleased(old(blocks), blocks, old(cacheIdx), cacheIdx)
    {
      hide Drawn, Tracked, Height, OnlyReleased, Blocks, Shots;
      CacheInList();
      OnlyReleasedSelf(blocks, cacheIdx);
      NoShots(TheView(), settings, frozen, blocks, cacheIdx, cur, now);
      while cacheIdx < |blocks|
        invariant Valid() && |blocks| == |old(blocks)|
        invariant old(cacheIdx) <= cacheIdx && old(frozen) <= frozen
        invariant Shots(TheView(), settings, frozen, old(blocks), blocks, old(cacheIdx), cacheIdx, cur, now)
        invariant OnlyReleased(old(blocks), blocks, old(cacheIdx), cacheIdx)
        decreases |blocks| - cacheIdx
      {
        ghost var bs, k, f := blocks, cacheIdx, frozen;
        OnlyReleasedKeeps(old(blocks), bs, old(cacheIdx), k);
        var stop := CacheNext(now);
        OnlyReleasedKeeps(bs, blocks, k, cacheIdx);
        OnlyReleasedThen(old(blocks), bs, blocks, old(cacheIdx), k, cacheIdx);
        ShotsThen(TheView(), settings, f, frozen, old(blocks), bs, blocks, old(cacheIdx), k, cacheIdx, cur, now);
        if stop {
          break;
        }
      }
      FrontierFromCut(Contents(blocks), cur.Some?, 0, cacheIdx);
    }

    lemma RunIsWhole(a: nat, b: nat)
      requires a <= b <= |blocks| && b == RunEnd(Contents(blocks), a) && !AnyPending(Contents(blocks), a, b)
      ensures forall j :: a <= j < b ==> ToolLike(blocks[j].content) && !PendingTop(blocks[j].content)
      ensures b < |blocks| ==> !ToolLike(blocks[b].content)
    {
      forall j | a <= j < b
        ensures ToolLike(blocks[j].content) && !PendingTop(blocks[j].content)
      {
        assert Contents(blocks)[j] == blocks[j].content;
      }
      assert b < |blocks| ==> Contents(blocks)[b] == blocks[b].content;
    }

    lemma RunInShot(f: seq<Shot>, a: nat, b: nat, now: int)
      requires a == |f| <= b <= |blocks| && forall j :: a <= j < b ==> ToolLike(blocks[j].content)
      ensures
        var t := f + ShotsOf(blocks[a..b], settings, now);
        |t| == b && f <= t && InShot(blocks, t, a, b, settings, now)
    {
    }

    lemma InShotTools(bs: seq<Block>, t: seq<Shot>, a: nat, b: nat, now: int)
      requires InShot(bs, t, a, b, settings, now)
      ensures forall j :: a <= j < b ==> t[j].c == bs[j].content && ToolLike(t[j].c)
    {
      forall j | a <= j < b
        ensures t[j].c == bs[j].content
      {
        ToolShot(bs[j].content, settings, now);
      }
    }

    /** The blocks of a run are drawn as they are. */
    lemma RunDrawn(t: seq<Shot>, bs: seq<Block>, bs': seq<Block>, a: nat, b: nat, now: int)
      requires Blocks(look, bs, cur, nextUid) && a <= b <= |t| && b <= |bs| == |bs'|
      requires InShot(bs, t, a, b, settings, now)
      ensures Shots(TheView(), settings, t, bs, bs', a, b, cur, now)
    {
      forall j | a <= j < b
        ensures DrawnNow(TheView(), settings, t[j], bs[j], bs'[j], cur == Some(bs[j].uid), now)
      {
        hide DrawnNow, Blocks, ShotOf;
        LiveStreams(bs, j);
        WholeIsPictured(TheView(), settings, bs[j], bs'[j], now);
      }
    }

    lemma LiveStreams(bs: seq<Block>, j: nat)
      requires Blocks(look, bs, cur, nextUid) && j < |bs| && ToolLike(bs[j].content)
      ensures cur != Some(bs[j].uid) && !Memoable(bs[j].content.kind)
    {
    }

    /** A card below the cache: the second loop of renderBlocks. */
    method TailCard(k: nat, text: string, line: nat, now: int, ghost s: seq<Shot>)
      returns (text': string, line': nat, ghost s': seq<Shot>)
      requires Shape() && k == |s| < |blocks| && cacheIdx <= k && !ToolLike(blocks[k].content)
      requires Drawn(TheView(), s, cacheIdx, text, line, Spans(blocks))
      modifies `blocks
      ensures Shape() && Redrawn(old(blocks), blocks, k, k + 1)
      ensures Drawn(TheView(), s', cacheIdx, text', line', Spans(blocks))
      ensures |s'| == k + 1 && s <= s' && !ToolLike(s'[k].c)
      ensures Shots(TheView(), settings, s', old(blocks), blocks, k, k + 1, cur, now)
    {
      hide BlockText, Height, CardOK, Above, SpansBelow, Pictured, Memoized;
      var rendered;
      ghost var bs := blocks;
      ghost var shown;
      rendered, shown := RenderBlock(k, now);
      SetSpan(k, line, line + Height(rendered) - 1);
      assert Spans(blocks)[..k] == Spans(bs)[..k];
      DrawnCard(TheView(), s, cacheIdx, cacheIdx, text, line, shown, Spans(blocks));
      text', line', s' := text + rendered + "\n\n", line + Height(rendered) + 1, s + [shown];
    }

    /** A run below the cache: the second loop of renderBlocks. */
    method TailRun(k: nat, end: nat, text: string, line: nat, now: int, ghost s: seq<Shot>)
      returns (text': string, line': nat, ghost s': seq<Shot>)
      requires Shape() && k == |s| < end <= |blocks| && cacheIdx <= k
      requires forall j :: k <= j < end ==> ToolLike(blocks[j].content)
      requires k > 0 ==> !ToolLike(s[k - 1].c)
      requires Drawn(TheView(), s, cacheIdx, text, line, Spans(blocks))
      modifies `blocks
      ensures Shape() && Redrawn(old(blocks), blocks, k, end)
      ensures Drawn(TheView(), s', cacheIdx, text', line', Spans(blocks))
      ensures |s'| == end && s <= s'
      ensures InShot(old(blocks), s', k, end, settings, now)
    {
      hide GroupText, Height, CardOK, Above, SpansBelow, RowSpan, InShot, ShotOf, Blocks;
      ghost var bs := blocks;
      s' := s + ShotsOf(blocks[k..end], settings, now);
      RunInShot(s, k, end, now);
      InShotTools(bs, s', k, end, now);
      var rendered := RenderToolActivity(k, end, line, now, s');
      assert Spans(blocks)[..k] == Spans(bs)[..k];
      DrawnRun(TheView(), s, cacheIdx, cacheIdx, text, line, s', Spans(blocks));
      if rendered != "" {
        text', line' := text + rendered + "\n\n", line + Height(rendered) + 1;
      } else {
        text', line' := text, line;
      }
    }

    /** The body of the second loop of renderBlocks. */
    method TailNext(k: nat, text: string, line: nat, now: int, ghost s: seq<Shot>)
      returns (k': nat, text': string, line': nat, ghost s': seq<Shot>)
      requires Shape() && cacheIdx <= k == |s| < |blocks| && UnitEnds(s, blocks)
      requires Drawn(TheView(), s, cacheIdx, text, line, Spans(blocks))
      modifies `blocks
      ensures Shape() && k < k' == |s'| <= |blocks| == |old(blocks)|
      ensures Redrawn(old(blocks), blocks, k, k') && UnitEnds(s', blocks)
      ensures Drawn(TheView(), s', cacheIdx, text', line', Spans(blocks)) && s <= s'
      ensures Shots(TheView(), settings, s', old(blocks), blocks, k, k', cur, now)
    {
      hide Drawn, CardOK, Shots, ShotOf;
      if ToolLike(blocks[k].content) {
        k' := RunEnd(Contents(blocks), k);
        forall j | k <= j < k' ensures ToolLike(blocks[j].content) {
          assert Contents(blocks)[j] == blocks[j].content;
        }
        text', line', s' := TailRun(k, k', text, line, now, s);
        RunDrawn(s', old(blocks), blocks, k, k', now);
        assert k' < |blocks| ==> blocks[k'].content == Contents(old(blocks))[k'];
      } else {
        text', line', s' := TailCard(k, text, line, now, s);
        k' := k + 1;
      }
    }

    /** The second loop of renderBlocks. */
    method DrawTail(now: int) returns (text: string, ghost s: seq<Shot>)
      requires Valid()
      modifies `blocks
      ensures Valid() && |s| == |blocks| && frozen <= s && Redrawn(old(blocks), blocks, cacheIdx, |blocks|)
      ensures text == Above(TheView(), s, cacheIdx, |s|)
      ensures Spans(blocks) == SpansBelow(TheView(), s, cacheIdx, |s|)
      ensures Shots(TheView(), settings, s, old(blocks), blocks, cacheIdx, |s|, cur, now)
    {
      hide CardOK, InStep, Above, SpansBelow, Shots, Redrawn;
      text, s := cache, frozen;
      var line, k := cacheLines, cacheIdx;
      RedrawnSelf(blocks, k);
      NoShots(TheView(), settings, s, blocks, k, cur, now);
      FrozenEnds(frozen, blocks, cur.Some?);
      while k < |blocks|
        invariant Shape() && cacheIdx <= k == |s| <= |blocks| == |old(blocks)| && frozen <= s && UnitEnds(s, blocks)
        invariant Redrawn(old(blocks), blocks, cacheIdx, k)
        invariant Drawn(TheView(), s, cacheIdx, text, line, Spans(blocks))
        invariant Shots(TheView(), settings, s, old(blocks), blocks, cacheIdx, k, cur, now)
        decreases |old(blocks)| - k
      {
        ghost var bs, i, r := blocks, k, s;
        RedrawnKeeps(old(blocks), bs, cacheIdx, i);
        k, text, line, s := TailNext(k, text, line, now, s);
        RedrawnKeeps(bs, blocks, i, k);
        RedrawnThen(old(blocks), bs, blocks, cacheIdx, i, k);
        ShotsThen(TheView(), settings, r, s, old(blocks), bs, blocks, cacheIdx, i, k, cur, now);
      }
      CachedRedrawn(TheView(), old(blocks), blocks, cur.Some?, frozen, cache, cacheLines);
      assert Spans(blocks)[..|s|] == Spans(blocks);
    }

    /** renderBlocks. `splash` is the welcome or failure screen, shown while there is no conversation; `s` records
        what was drawn: the frozen shots of the cached blocks, and the others as they are now. */
    method RenderBlocks(now: int, splash: string) returns (out: string, ghost s: seq<Shot>)
      requires Valid()
      modifies `blocks, `cache, `cacheIdx, `cacheLines, `frozen
      ensures Valid()
      ensures !HasConversation(Contents(old(blocks))) ==> out == splash && blocks == old(blocks)
      ensures HasConversation(Contents(old(blocks))) ==>
                && cacheIdx == Frontier(Contents(blocks), cur.Some?, 0)
                && old(frozen) <= frozen <= s && |frozen| == cacheIdx && |s| == |blocks| == |old(blocks)|
                && old(cacheIdx) <= cacheIdx <= |blocks|
                && Shots(TheView(), settings, s, old(blocks), blocks, old(cacheIdx), |s|, cur, now)
                && out == Picture(TheView(), s, cacheIdx)
                && Spans(blocks) == SpansBelow(TheView(), s, cacheIdx, |s|)
                && OnlyReleasedOrRedrawn(old(blocks), blocks, old(cacheIdx), cacheIdx)
      ensures old(CardsInStep()) ==> CardsInStep()
    {
      hide CardOK, InStep, Above, SpansBelow, Shots, Cached, Blocks, AllInStep, OnlyReleasedOrRedrawn;
      if !HasConversation(Contents(blocks)) {
        return splash, [];
      }
      ghost var bs := blocks;
      FillCache(now);
      ghost var mid := blocks;
      OnlyReleasedKeeps(bs, mid, old(cacheIdx), cacheIdx);
      var text;
      text, s := DrawTail(now);
      RedrawnKeeps(mid, blocks, cacheIdx, |mid|);
      ShotsThen(TheView(), settings, frozen, s, bs, mid, blocks, old(cacheIdx), cacheIdx, |s|, cur, now);
      out := TrimNewlines(text);
      assert Contents(mid) == Contents(blocks);
      ReleasedThenRedrawn(bs, mid, blocks, old(cacheIdx), cacheIdx);
      if old(CardsInStep()) {
        DrawnInStep(bs, s, old(cacheIdx), now);
      }
    }

    lemma DrawnInStep(bs: seq<Block>, s: seq<Shot>, k: nat, now: int)
      requires Valid() && k <= cacheIdx <= |s| == |bs| && frozen <= s
      requires Shots(TheView(), settings, s, bs, blocks, k, |s|, cur, now)
      requires OnlyReleasedOrRedrawn(bs, blocks, k, cacheIdx)
      requires AllInStep(look, settings, bs) && FrozenInStep(settings, s[..k], bs)
      ensures CardsInStep()
    {
      hide Cached, CardOK, AllInStep, FrozenInStep, OnlyReleasedOrRedrawn, Shots;
      InStepDrawn(TheView(), settings, s, bs, blocks, k, cacheIdx, cur, now);
      assert s[..cacheIdx] == frozen;
    }

    // -------------------------------------------------------------- mutators

    /** The remembered cards are those of the blocks and settings as they are. */
    ghost predicate MemosInStep()
      reads `blocks, `settings
    {
      AllInStep(look, settings, blocks)
    }

    /** And so is what the cache holds, but for arguments and clocks. */
    ghost predicate CardsInStep()
      reads `blocks, `settings, `frozen
    {
      MemosInStep() && FrozenInStep(settings, frozen, blocks)
    }

    /** The loop of invalidateAll. */
    method ClearSpans()
      requires Shape()
      modifies `blocks
      ensures Shape() && Respanned(old(blocks), blocks, 0, |blocks|)
      ensures forall i :: 0 <= i < |blocks| ==> SpanAt(blocks, i) == (0, -1)
    {
      hide Session.Shape;
      for i := 0 to |blocks|
        invariant Shape() && Respanned(old(blocks), blocks, 0, |blocks|)
        invariant forall j :: 0 <= j < i ==> SpanAt(blocks, j) == (0, -1)
      {
        ghost var bs := blocks;
        SetSpan(i, 0, -1);
        forall j | 0 <= j < i + 1
          ensures SpanAt(blocks, j) == (0, -1)
        {
          assert j < i ==> SpanAt(bs, j) == (0, -1) && blocks[j] == bs[j];
        }
      }
    }

    lemma LiveHasBlock()
      requires Shape()
      ensures cur.Some? ==> blocks != []
    {
    }

    /** invalidateAll. */
    method InvalidateAll()
      requires Shape()
      modifies `blocks, `cache, `cacheIdx, `cacheLines, `frozen
      ensures Valid() && cacheIdx == 0 && cache == "" && SameBlocks(old(blocks), blocks)
      ensures forall i :: 0 <= i < |blocks| ==> SpanAt(blocks, i) == (0, -1)
      ensures old(MemosInStep()) ==> CardsInStep()
    {
      hide CardOK, Blocks, AllInStep, Cached, UpToDate;
      cache, cacheIdx, cacheLines, frozen := "", 0, 0, [];
      ClearSpans();
      assert Contents(blocks) == Contents(old(blocks));
      LiveHasBlock();
      CachedEmpty(TheView(), blocks, cur.Some?);
      if AllInStep(look, settings, old(blocks)) {
        InStepSame(look, settings, old(blocks), blocks);
      }
    }

    /** The first step of push: the previous streaming block will be drawn afresh. */
    method CloseCur()
      requires Valid()
      modifies `blocks
      ensures Valid() && |blocks| == |old(blocks)| && Contents(blocks) == old(Contents(blocks))
      ensures forall i :: 0 <= i < |blocks| ==> blocks[i].uid == old(blocks)[i].uid
      ensures forall i :: 0 <= i < |blocks| && cur == Some(blocks[i].uid) ==> blocks[i].memo.str == ""
      ensures old(CardsInStep()) ==> CardsInStep()
    {
      hide Cached, AllInStep, FrozenInStep;
      CurIsLast();
      if cur.Some? {
        var k := |blocks| - 1;
        var b := blocks[k].(memo := blocks[k].memo.(str := "", len := 0));
        BlocksUpdate(look, blocks, cur, nextUid, k, b);
        CachedAbove(TheView(), blocks, blocks[k := b], cur.Some?, frozen, cache, cacheLines);
        if CardsInStep() {
          InStepUpdate(look, settings, blocks, k, b);
          FrozenKept(settings, frozen, blocks, blocks[k := b]);
        }
        blocks := blocks[k := b];
        assert Contents(blocks) == Contents(old(blocks));
      }
    }

    lemma CacheInList()
      requires Valid()
      ensures cacheIdx <= |blocks|
    {
    }

    /** The second step of push: the new block, live when it streams. */
    method Append(c: Content)
      requires Valid()
      modifies `blocks, `cur, `nextUid
      ensures Valid() && cacheIdx < |blocks| == |old(blocks)| + 1 && blocks[|blocks| - 1].memo.str == ""
      ensures blocks[..|blocks| - 1] == old(blocks)
      ensures blocks[|blocks| - 1].uid == old(nextUid) && nextUid == old(nextUid) + 1
      ensures Contents(blocks) == old(Contents(blocks)) + [c]
      ensures cur == if Streaming(c.kind) then Some(blocks[|blocks| - 1].uid) else None
      ensures old(CardsInStep()) ==> CardsInStep()
    {
      hide Cached, CardOK, AllInStep, FrozenInStep;
      CurIsLast();
      CacheInList();
      hide Blocks;
      var b := Block(nextUid, c, Memo(0, 0, "", ""), 0, 0);
      CachedAppend(TheView(), blocks, b, cur.Some?, Streaming(c.kind), frozen, cache, cacheLines);
      BlocksAppend(look, blocks, cur, nextUid, b);
      if CardsInStep() {
        AppendInStep(b);
      }
      blocks := blocks + [b];
      cur := if Streaming(c.kind) then Some(nextUid) else None;
      nextUid := nextUid + 1;
      assert Contents(blocks) == Contents(old(blocks)) + [c];
    }

    lemma AppendInStep(b: Block)
      requires CardsInStep() && b.memo.str == ""
      ensures AllInStep(look, settings, blocks + [b]) && FrozenInStep(settings, frozen, blocks + [b])
    {
      InStepAppend(look, settings, blocks, b);
      FrozenKept(settings, frozen, blocks, blocks + [b]);
    }

    lemma TrimLength()
      requires Valid() && MaxBlocks < |blocks|
      ensures 0 < TrimCounts(Contents(blocks)).0 < |blocks| && Shape()
    {
    }

    /** The eviction step of push: a marker for the oldest blocks, the others as they were. */
    method Trim()
      requires Valid() && MaxBlocks < |blocks|
      modifies `blocks, `nextUid, `cache, `cacheIdx, `cacheLines, `frozen, `focused
      ensures Valid() && cacheIdx == 0
      ensures SameBlocks(TrimmedBlocks(old(blocks), old(nextUid)), blocks)
      ensures focused == FocusEvicted(old(Contents(blocks)), old(focused))
      ensures old(CardsInStep()) ==> CardsInStep()
    {
      hide Session.Valid, AllInStep;
      TrimLength();
      var (drop, count) := TrimCounts(Contents(blocks));
      var marker := Block(nextUid, Marker(count), Memo(0, 0, "", ""), 0, 0);
      BlocksTrimmed(look, blocks, cur, nextUid, drop, marker);
      if CardsInStep() {
        InStepDropped(look, settings, blocks, marker, drop);
      }
      hide Blocks, CardOK, TrimCounts;
      blocks := [marker] + blocks[drop..];
      nextUid := nextUid + 1;
      if focused >= 0 {
        focused := focused - drop + 1;
        if focused < 0 {
          focused := -1;
        }
      }
      InvalidateAll();
    }

    /** push. */
    method Push(kind: Kind)
      requires Valid()
      modifies `blocks, `cur, `cache, `cacheIdx, `cacheLines, `frozen, `focused, `nextUid
      ensures Valid() && blocks != [] && cacheIdx < |blocks|
      ensures Contents(blocks) == Pushed(old(Contents(blocks)), NewBlock(kind, thinkExpanded))
      ensures focused == FocusAfterPush(old(Contents(blocks)), NewBlock(kind, thinkExpanded), old(focused))
      ensures cur == if Streaming(kind) then Some(blocks[|blocks| - 1].uid) else None
      ensures blocks[|blocks| - 1].memo.str == ""
      ensures
        Uids(blocks) ==
        PushedIds(old(Uids(blocks)), Dropped(old(Contents(blocks)) + [NewBlock(kind, thinkExpanded)]),
                  blocks[0].uid, blocks[|blocks| - 1].uid)
      ensures blocks[|blocks| - 1].uid >= old(nextUid)
      ensures |blocks| <= |old(blocks)| ==> blocks[0].uid >= old(nextUid)
      ensures forall i :: 0 <= i < |blocks| && old(cur) == Some(blocks[i].uid) ==> blocks[i].memo.str == ""
      ensures old(CardsInStep()) ==> CardsInStep()
    {
      hide Session.Valid, Session.Shape, TrimCounts, NewBlock, AllInStep, Evicted, FocusEvicted, Dropped, PushedIds,
           TrimmedBlocks, SameBlocks, Session.CardsInStep;
      UidsBelow();
      CloseCur();
      Append(NewBlock(kind, thinkExpanded));
      ghost var full, uid := blocks, nextUid;
      if |blocks| > MaxBlocks {
        Trim();
      } else {
        EvictedNone(Contents(full), focused);
      }
      PushUids(old(blocks), full, blocks, uid);
    }

    lemma UidsBelow()
      requires Valid()
      ensures forall i :: 0 <= i < |blocks| ==> blocks[i].uid < nextUid
      ensures cur.Some? ==> cur.value < nextUid
    {
    }

    /** Assign fields of the last block. */
    method Amend(c: Content)
      requires Valid() && cacheIdx < |blocks|
      requires var b := blocks[|blocks| - 1]; CardOK(look, c, b.memo) && c.kind == b.content.kind
      modifies `blocks
      ensures Valid() && |blocks| == |old(blocks)|
      ensures Contents(blocks) == old(Contents(blocks))[|blocks| - 1 := c]
      ensures blocks[|blocks| - 1].uid == old(blocks)[|blocks| - 1].uid
      ensures blocks[|blocks| - 1].memo == old(blocks)[|blocks| - 1].memo
      ensures old(CardsInStep()) && InStep(look, settings, c, old(blocks)[|blocks| - 1].memo) ==> CardsInStep()
    {
      hide Cached, Blocks, CardOK, AllInStep, InStep;
      CacheInList();
      var k := |blocks| - 1;
      var b := blocks[k].(content := c);
      BlocksUpdate(look, blocks, cur, nextUid, k, b);
      CachedAbove(TheView(), blocks, blocks[k := b], cur.Some?, frozen, cache, cacheLines);
      if CardsInStep() && InStep(look, settings, c, b.memo) {
        InStepUpdate(look, settings, blocks, k, b);
        FrozenKept(settings, frozen, blocks, blocks[k := b]);
      }
      blocks := blocks[k := b];
      assert Contents(blocks) == Contents(old(blocks))[k := c];
    }

    /** Push a block with all its fields: logUser, logError, logPersist, logRaw, logTool, logToolResult and
        logApproveDiff differ in the content they push. */
    method Log(c: Content)
      requires Valid() && !Streaming(c.kind)
      modifies `blocks, `cur, `cache, `cacheIdx, `cacheLines, `frozen, `focused, `nextUid
      ensures Valid() && cur == None
      ensures Contents(blocks) == Pushed(old(Contents(blocks)), c)
      ensures focused == FocusAfterPush(old(Contents(blocks)), c, old(focused))
      ensures old(CardsInStep()) ==> CardsInStep()
    {
      hide Blocks, Cached, Pushed, NewBlock, AllInStep;
      ghost var c0 := NewBlock(c.kind, thinkExpanded);
      Push(c.kind);
      PushedLast(old(Contents(blocks)), c0, c);
      Amend(c);
    }

    /** A block of this kind is live. */
    ghost predicate Continues(kind: Kind)
      reads `blocks, `cur
    {
      cur.Some? && blocks != [] && blocks[|blocks| - 1].content.kind == kind
    }

    /** The `tool_call` event. */
    method LogTool(name: string, args: string, sub: bool, id: string, now: int)
      requires Valid()
      modifies `blocks, `cur, `cache, `cacheIdx, `cacheLines, `frozen, `focused, `nextUid
      ensures Valid() && cur == None
      ensures Contents(blocks) == Pushed(old(Contents(blocks)), ToolCall(name, args, sub, id, now))
      ensures focused == FocusAfterPush(old(Contents(blocks)), ToolCall(name, args, sub, id, now), old(focused))
      ensures old(CardsInStep()) ==> CardsInStep()
    {
      hide Blocks, Cached, Pushed, CapStored, FocusAfterPush;
      Log(ToolCall(name, args, sub, id, now));
    }

    /** Start a streaming block unless one of this kind is live. */
    method OpenStream(kind: Kind)
      requires Valid() && Streaming(kind)
      modifies `blocks, `cur, `cache, `cacheIdx, `cacheLines, `frozen, `focused, `nextUid
      ensures Valid() && cur.Some? && 0 < |blocks| && blocks[|blocks| - 1].content.kind == kind
      ensures Contents(blocks) == Opened(old(Contents(blocks)), old(cur).Some?, kind, thinkExpanded)
      ensures old(Continues(kind)) ==> blocks == old(blocks) && cur == old(cur) && cacheIdx == old(cacheIdx)
      ensures !old(Continues(kind)) ==> blocks[|blocks| - 1].memo.str == ""
      ensures old(CardsInStep()) ==> CardsInStep()
    {
      hide Session.Valid, Session.Shape, Pushed, CardOK, NewBlock, AllInStep, PushedIds;
      CurIsLast();
      if cur == None || blocks[|blocks| - 1].content.kind != kind {
        var c := NewBlock(kind, thinkExpanded);
        PushedLast(Contents(blocks), c, c);
        Push(kind);
        CurIsLast();
      }
    }

    lemma CurIsLast()
      requires Valid()
      ensures cur.Some? ==> cur == Some(blocks[|blocks| - 1].uid)
      ensures cur.Some? ==> 0 < |blocks| && cacheIdx < |blocks|
      ensures cur.Some? ==> Contents(blocks)[|blocks| - 1] == blocks[|blocks| - 1].content
      ensures forall i :: 0 <= i < |blocks| ==> CardOK(look, blocks[i].content, blocks[i].memo)
    {
    }

    /** The `delta` and `thinking` events; a delta names the selected model, if there is one. */
    method Stream(kind: Kind, text: string)
      requires Valid() && Streaming(kind)
      modifies `blocks, `cur, `cache, `cacheIdx, `cacheLines, `frozen, `focused, `nextUid
      ensures Valid() && cur.Some?
      ensures
        var cs := Opened(old(Contents(blocks)), old(cur).Some?, kind, thinkExpanded);
        && cs != []
        && Contents(blocks) == cs[|cs| - 1 := Grown(cs[|cs| - 1], text, settings.model)]
      ensures blocks != [] && cacheIdx < |blocks| && cur == Some(blocks[|blocks| - 1].uid)
      ensures !old(Continues(kind)) ==> blocks[|blocks| - 1].memo.str == ""
      ensures
        old(Continues(kind)) ==>
          && |blocks| == |old(blocks)| && cur == old(cur) && cacheIdx == old(cacheIdx)
          && blocks[|blocks| - 1].content == Grown(old(blocks)[|blocks| - 1].content, text, settings.model)
          && blocks[|blocks| - 1].memo == old(blocks)[|blocks| - 1].memo
      ensures
        old(CardsInStep() && (Continues(kind) && kind.Assistant? && settings.model.Some? ==>
                                blocks[|blocks| - 1].content.model in {"", settings.model.value}))
        ==> CardsInStep()
    {
      hide Blocks, Cached, Opened, Grown, CardOK, AllInStep, InStep, FrozenInStep;
      OpenStream(kind);
      CurIsLast();
      var model := settings.model;
      var c := blocks[|blocks| - 1].content;
      GrowCard(look, c, Grown(c, text, model), blocks[|blocks| - 1].memo);
      if
        && CardsInStep()
        && (blocks[|blocks| - 1].memo.str == "" || !c.kind.Assistant? || model.None? || c.model in {"", model.value})
      {
        StreamInStep(c, text);
      }
      Amend(Grown(c, text, model));
    }

    lemma StreamInStep(c: Content, text: string)
      requires blocks != [] && c == blocks[|blocks| - 1].content && MemosInStep()
      requires
        || blocks[|blocks| - 1].memo.str == "" || !c.kind.Assistant? || settings.model.None?
        || c.model in {"", settings.model.value}
      ensures InStep(look, settings, Grown(c, text, settings.model), blocks[|blocks| - 1].memo)
    {
      var c', m := Grown(c, text, settings.model), blocks[|blocks| - 1].memo;
      assert InStep(look, settings, c, m);
      if m.str != "" {
        GrowInStep(look, settings, c, c', m);
      }
    }

    /** Assign fields of any block; the caller must invalidate the cache. */
    method Rewrite(i: nat, c: Content, forget: bool)
      requires Shape() && i < |blocks| && c.kind == blocks[i].content.kind
      requires forget || CardOK(look, c, blocks[i].memo)
      modifies `blocks
      ensures Shape() && |blocks| == |old(blocks)| && Contents(blocks) == old(Contents(blocks))[i := c]
      ensures forall j :: 0 <= j < |blocks| && j != i ==> blocks[j] == old(blocks)[j]
      ensures blocks[i].uid == old(blocks)[i].uid && blocks[i].content == c
      ensures blocks[i].memo.str == if forget then "" else old(blocks)[i].memo.str
      ensures !forget ==> blocks[i].memo == old(blocks)[i].memo
      ensures old(MemosInStep()) && (forget || old(blocks)[i].memo.str == "") ==> MemosInStep()
    {
      hide AllInStep;
      var m := blocks[i].memo;
      var b := blocks[i].(content := c, memo := if forget then m.(str := "", len := 0) else m);
      if MemosInStep() && b.memo.str == "" {
        InStepUpdate(look, settings, blocks, i, b);
      }
      BlocksUpdate(look, blocks, cur, nextUid, i, b);
      blocks := blocks[i := b];
      assert Contents(blocks) == Contents(old(blocks))[i := c];
    }

    /** The `tool_result` event; `took` is the time since the matching call began. */
    method ToolResult(id: string, out: string, diff: string, ok: bool, took: nat)
      requires Valid()
      modifies `blocks, `cur, `cache, `cacheIdx, `cacheLines, `frozen, `focused, `nextUid
      ensures Valid() && cur == None
      ensures
        var cs := old(Contents(blocks));
        var m := MatchFor(cs, id, |cs|);
        Contents(blocks) ==
          if m < 0 then Pushed(cs, Fresh(Kind.ToolResult).(output := CapStored(out)))
          else cs[m := cs[m].(output := CapStored(out), diff := CapStored(diff), ok := ok, hasOk := true, dur := took)]
      ensures old(CardsInStep()) ==> CardsInStep()
    {
      hide Cached, Pushed, AllInStep, FrozenInStep, CardOK;
      var m := MatchFor(Contents(blocks), id, |blocks|);
      if m < 0 {
        Log(Fresh(Kind.ToolResult).(output := CapStored(out)));
        return;
      }
      var c := blocks[m].content;
      c := c.(output := CapStored(out), diff := CapStored(diff), ok := ok, hasOk := true, dur := took);
      ToolsKeepNoCard(m, c);
      Rewrite(m, c, false);
      cur := None;
      InvalidateAll();
    }

    /** The loop of finalizeInFlight. */
    method FinalizeBlocks(note: string, now: int) returns (changed: bool)
      requires Shape()
      modifies `blocks
      ensures Shape() && |blocks| == |old(blocks)| && (!changed ==> blocks == old(blocks))
      ensures forall i :: 0 <= i < |blocks| ==>
                blocks[i].content == Finalized(old(blocks)[i].content, note, Since(now, old(blocks)[i].content.started))
      ensures old(MemosInStep()) ==> MemosInStep()
    {
      hide CardOK, Blocks, Since, Finalized, AllInStep;
      changed := false;
      for i := 0 to |blocks|
        invariant Shape() && |blocks| == |old(blocks)| && (!changed ==> blocks == old(blocks))
        invariant old(MemosInStep()) ==> MemosInStep()
        invariant forall j :: i <= j < |blocks| ==> blocks[j] == old(blocks)[j]
        invariant forall j :: 0 <= j < i ==>
                    var c := old(blocks)[j].content;
                    blocks[j].content == Finalized(c, note, Since(now, c.started))
      {
        var c := blocks[i].content;
        if c.kind.Tool? && c.dur == 0 {
          var c' := Finalized(c, note, Since(now, c.started));
          ToolsKeepNoCard(i, c');
          Rewrite(i, c', false);
          changed := true;
        }
      }
    }

    lemma ToolsKeepNoCard(i: nat, c: Content)
      requires Shape() && i < |blocks| && !Memoable(blocks[i].content.kind) && c.kind == blocks[i].content.kind
      ensures CardOK(look, c, blocks[i].memo) && blocks[i].memo.str == ""
    {
    }

    /** finalizeInFlight. */
    method FinalizeInFlight(note: string, now: int)
      requires Valid()
      modifies `blocks, `cache, `cacheIdx, `cacheLines, `frozen
      ensures Valid() && |blocks| == |old(blocks)|
      ensures forall i :: 0 <= i < |blocks| ==>
                blocks[i].content == Finalized(old(blocks)[i].content, note, Since(now, old(blocks)[i].content.started))
      ensures old(CardsInStep()) ==> CardsInStep()
    {
      hide Cached, CardOK, Blocks, AllInStep;
      var changed := FinalizeBlocks(note, now);
      if changed {
        ghost var bs := blocks;
        InvalidateAll();
        assert forall i :: 0 <= i < |blocks| ==> blocks[i].content == Contents(bs)[i];
      }
    }

    /** The last block with this address, or -1. */
    method LastIndexOf(uid: nat) returns (i: int)
      ensures -1 <= i < |blocks| && (i >= 0 ==> blocks[i].uid == uid)
      ensures forall j :: i < j < |blocks| ==> blocks[j].uid != uid
    {
      i := |blocks| - 1;
      while i >= 0 && blocks[i].uid != uid
        invariant -1 <= i < |blocks|
        invariant forall j :: i < j < |blocks| ==> blocks[j].uid != uid
      {
        i := i - 1;
      }
    }

    /** The search of discardPartialStreamOutput: from the live block if there is one, from the end otherwise. */
    method FindDropFrom() returns (dropFrom: nat)
      requires Shape()
      ensures dropFrom == StreamStart(Contents(blocks))
    {
      hide CardOK;
      dropFrom := |blocks|;
      if cur.Some? {
        var i := LastIndexOf(cur.value);
        dropFrom := i;
      }
      while dropFrom > 0 && Streaming(blocks[dropFrom - 1].content.kind)
        invariant 0 <= dropFrom <= |blocks|
        invariant forall i :: dropFrom <= i < |blocks| ==> Streaming(Contents(blocks)[i].kind)
      {
        dropFrom := dropFrom - 1;
      }
      StreamStartIs(Contents(blocks), dropFrom);
    }

    lemma NoneLive()
      requires Valid() && StreamStart(Contents(blocks)) == |blocks|
      ensures cur == None
    {
    }

    /** discardPartialStreamOutput. */
    method DiscardPartialStreamOutput()
      requires Valid()
      modifies `blocks, `cur, `cache, `cacheIdx, `cacheLines, `frozen
      ensures Valid() && cur == None
      ensures Contents(blocks) == old(Contents(blocks))[..StreamStart(old(Contents(blocks)))]
      ensures old(CardsInStep()) ==> CardsInStep()
    {
      hide Drawn, Above, Cached, CardOK, StreamStart, AllInStep;
      var dropFrom := FindDropFrom();
      if dropFrom == |blocks| {
        assert Contents(blocks)[..dropFrom] == Contents(blocks);
        NoneLive();
        return;
      }
      BlocksPrefix(look, blocks, cur, nextUid, dropFrom);
      hide Blocks;
      if CardsInStep() {
        InStepPrefix(look, settings, blocks, dropFrom);
      }
      blocks := blocks[..dropFrom];
      cur := None;
      assert Contents(blocks) == Contents(old(blocks))[..dropFrom];
      InvalidateAll();
    }

    /** resolveLatestApproval. */
    method ResolveLatestApproval(d: Decision)
      requires Valid()
      modifies `blocks, `cache, `cacheIdx, `cacheLines, `frozen
      ensures Valid()
      ensures
        var cs := old(Contents(blocks));
        var i := PendingApproval(cs, |cs|);
        Contents(blocks) == if i < 0 || d.Other? then cs else cs[i := Resolved(cs[i], d)]
      ensures old(CardsInStep()) ==> CardsInStep()
    {
      hide Cached, CardOK, Blocks, AllInStep;
      var i := PendingApproval(Contents(blocks), |blocks|);
      if i < 0 || d.Other? {
        return;
      }
      ToolsKeepNoCard(i, Resolved(blocks[i].content, d));
      Rewrite(i, Resolved(blocks[i].content, d), false);
      InvalidateAll();
    }

    /** The end of a turn takes the live mark off the last block and leaves the rest to renderBlocks. */
    method EndStream()
      requires Valid()
      modifies `cur
      ensures Valid() && cur == None
    {
      hide Drawn, CardOK;
      cur := None;
    }

    /** Ctrl+T: every reasoning block is folded or unfolded, and its remembered card dropped. */
    method ToggleReasoning()
      requires Valid()
      modifies `thinkExpanded, `blocks, `cache, `cacheIdx, `cacheLines, `frozen
      ensures Valid() && thinkExpanded == !old(thinkExpanded) && |blocks| == |old(blocks)|
      ensures forall i :: 0 <= i < |blocks| ==>
                if old(blocks)[i].content.kind.Thinking? then
                  blocks[i].content == old(blocks)[i].content.(collapsed := !thinkExpanded) && blocks[i].memo.str == ""
                else blocks[i].content == old(blocks)[i].content && blocks[i].memo == old(blocks)[i].memo
      ensures old(CardsInStep()) ==> CardsInStep()
    {
      hide Cached, CardOK, Blocks, AllInStep;
      thinkExpanded := !thinkExpanded;
      for i := 0 to |blocks|
        invariant old(MemosInStep()) ==> MemosInStep()
        invariant Shape() && |blocks| == |old(blocks)| && thinkExpanded == !old(thinkExpanded)
        invariant forall j :: i <= j < |blocks| ==> blocks[j] == old(blocks)[j]
        invariant forall j :: 0 <= j < i ==>
                    if old(blocks)[j].content.kind.Thinking? then
                      && blocks[j].content == old(blocks)[j].content.(collapsed := !thinkExpanded)
                      && blocks[j].memo.str == ""
                    else blocks[j].content == old(blocks)[j].content && blocks[j].memo == old(blocks)[j].memo
      {
        if blocks[i].content.kind.Thinking? {
          Rewrite(i, blocks[i].content.(collapsed := !thinkExpanded), true);
          assert blocks[i].content == Contents(blocks)[i];
        }
      }
      ghost var bs := blocks;
      InvalidateAll();
      assert forall i :: 0 <= i < |blocks| ==> blocks[i].content == Contents(bs)[i];
    }

    /** A click on a reasoning block folds or unfolds it and focuses it; the remembered card is left alone. */
    method ClickReasoning(i: nat)
      requires Valid() && i < |blocks| && blocks[i].content.kind.Thinking?
      modifies `blocks, `focused, `cache, `cacheIdx, `cacheLines, `frozen
      ensures Valid() && focused == i && |blocks| == |old(blocks)| && cacheIdx == 0
      ensures
        var c := old(blocks)[i].content;
        Contents(blocks) == old(Contents(blocks))[i := c.(collapsed := !c.collapsed)]
      ensures blocks[i].memo == old(blocks)[i].memo && blocks[i].uid == old(blocks)[i].uid
      ensures
        var b := old(blocks)[i];
        Remembers(blocks[i].content, blocks[i].memo, width, theme) == Remembers(b.content, b.memo, width, theme)
      ensures forall j :: 0 <= j < |blocks| ==> blocks[j].uid == old(blocks)[j].uid
    {
      hide Cached, Blocks;
      var c := blocks[i].content.(collapsed := !blocks[i].content.collapsed);
      FlipKeepsCard(i, c);
      Rewrite(i, c, false);
      focused := i;
      ghost var bs := blocks;
      InvalidateAll();
      assert blocks[i].content == Contents(bs)[i];
    }

    lemma FlipKeepsCard(i: nat, c: Content)
      requires Shape() && i < |blocks| && c == blocks[i].content.(collapsed := c.collapsed)
      ensures CardOK(look, c, blocks[i].memo)
    {
      var b := blocks[i];
      if b.memo.str != "" {
        var collapsed, model, keys :| CardOf(look, b.content, b.memo, collapsed, model, keys);
        assert Earlier(c, b.memo.len, collapsed, model) == Earlier(b.content, b.memo.len, collapsed, model);
        assert CardOf(look, c, b.memo, collapsed, model, keys);
      }
    }

    /** A click unfolds the output of a call or result, or folds it, and focuses it. */
    method ToggleOutput(i: nat)
      requires Valid() && i < |blocks| && ToolLike(blocks[i].content)
      modifies `blocks, `focused, `cache, `cacheIdx, `cacheLines, `frozen
      ensures Valid() && focused == i && |blocks| == |old(blocks)|
      ensures
        var c := old(blocks)[i].content;
        Contents(blocks) == old(Contents(blocks))[i := c.(expanded := !c.expanded)]
      ensures old(CardsInStep()) ==> CardsInStep()
    {
      hide Cached, Blocks, CardOK, AllInStep;
      var c := blocks[i].content.(expanded := !blocks[i].content.expanded);
      ToolsKeepNoCard(i, c);
      Rewrite(i, c, false);
      focused := i;
      InvalidateAll();
    }

    /** Moving the focus, resizing and switching the theme redraw everything from the remembered cards. */
    method Redisplay(focus: int, w: int, theme: string)
      requires Valid()
      modifies `focused, `width, `theme, `blocks, `cache, `cacheIdx, `cacheLines, `frozen
      ensures Valid() && focused == focus && width == w && this.theme == theme && cacheIdx == 0
      ensures SameBlocks(old(blocks), blocks)
      ensures Contents(blocks) == old(Contents(blocks))
      ensures old(CardsInStep()) ==> CardsInStep()
    {
      hide Cached, Blocks, CardOK, AllInStep;
      focused, width, this.theme := focus, w, theme;
      InvalidateAll();
    }

    /** applyModels, /model and the model picker: another model is selected, or none, and nothing is drawn afresh. */
    method SelectModel(model: Option<string>)
      requires Valid()
      modifies `settings
      ensures Valid() && settings == old(settings).(model := model)
      ensures
        && old(CardsInStep())
        && (forall i :: 0 <= i < |blocks| && blocks[i].content.kind.Assistant? ==> blocks[i].content.model != "")
        ==> CardsInStep()
    {
      hide Blocks, Cached;
      settings := settings.(model := model);
    }

    /** applyKeybind, resetKeybind and clearKeybind: an action gets another key, and nothing is drawn afresh. */
    method Rebind(action: string, key: string)
      requires Valid()
      modifies `settings
      ensures Valid() && settings == old(settings).(keys := old(settings.keys)[action := key])
    {
      hide Blocks, Cached;
      settings := settings.(keys := settings.keys[action := key]);
    }

    /** The `reset` event, /clear and /reset. */
    method Clear()
      requires Valid()
      modifies `blocks, `cur, `cache, `cacheIdx, `cacheLines, `frozen
      ensures Valid() && blocks == [] && cur == None && CardsInStep()
    {
      blocks, cur := [], None;
      InvalidateAll();
    }
  }
}
