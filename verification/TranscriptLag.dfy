/** Where the printed transcript lags behind the blocks, with the exact condition of each case and a run that ends in
    it: a click on a reasoning block, a change of model during a stream, the choice of another model over replies that
    name none, a change of keys, a nested call whose clock runs, and a call with long arguments. */
module TranscriptLag {
  import opened Options
  import opened Text
  import opened Transcript
  import opened TranscriptSession
  import opened TranscriptTheorems
  import TranscriptHistory

  // ---------------------------------------------------------------- after a click, and after a change of model

  /** The card printed for block i. */
  function PrintedCard(v: View, s: seq<Shot>, i: nat): string
    requires i < |s|
  {
    v.look.card(s[i].c, v.width, v.theme, s[i].keys)
  }

  /** A remembered card that is in step and of the whole text is the present card. */
  lemma RememberedCard(look: Look, prefs: Settings, c: Content, m: Memo, w: int, theme: string)
    requires InStep(look, prefs, c, m) && Remembers(c, m, w, theme)
    ensures m.str == Card(look, prefs, c, w, theme)
  {
    EarlierIs(c, m.len, prefs);
    assert c.text[..m.len] == c.text;
    hide Signed, Earlier;
  }

  /** The remembered card is of this width, this theme and this length of text. */
  predicate Fits(b: Block, w: int, theme: string) {
    b.memo.str != "" && b.memo.w == w && b.memo.theme == theme && b.memo.len == |b.content.text|
  }

  /** A finished block that has been drawn is remembered, unless its card is empty. */
  lemma DrawnIsRemembered(v: View, prefs: Settings, x: Shot, b: Block, b': Block, now: int)
    requires DrawnNow(v, prefs, x, b, b', false, now) && b'.content == b.content
    requires b.content.kind in {User, Assistant, Thinking}
    ensures
      || (Fits(b', v.width, v.theme) && Remembers(b'.content, b'.memo, v.width, v.theme))
      || b'.memo.str == Card(v.look, prefs, b.content, v.width, v.theme) == ""
  {
  }

  lemma HasBlock(cs: seq<Content>, i: nat)
    requires i < |cs| && Conversational(cs[i])
    ensures HasConversation(cs)
  {
  }

  /** After a click on a finished reasoning block the next drawing shows it as it was exactly when its card is
      remembered for this width and theme (or folding makes no difference); a block that has been drawn is
      (`DrawnIsRemembered`). */
  method ClickThenRender(session: Session, i: nat, now: int, splash: string) returns (out: string, ghost s: seq<Shot>)
    requires session.Valid() && session.CardsInStep() && i < |session.blocks|
    requires session.blocks[i].content.kind.Thinking? && session.cur != Some(session.blocks[i].uid)
    modifies session
    ensures session.Valid() && i < |s| == |session.blocks| == |old(session.blocks)|
    ensures out == Picture(session.TheView(), s, session.cacheIdx)
    ensures session.width == old(session.width) && session.theme == old(session.theme)
    ensures session.settings == old(session.settings)
    ensures
      var c := old(session.blocks)[i].content;
      session.blocks[i].content == c.(collapsed := !c.collapsed)
    ensures
      var b, w, theme := old(session.blocks)[i], session.width, session.theme;
      var folded := b.content.(collapsed := !b.content.collapsed);
      var before := Card(session.look, session.settings, b.content, w, theme);
      var after := Card(session.look, session.settings, folded, w, theme);
      var kept := Fits(b, w, theme);
      && PrintedCard(session.TheView(), s, i) == (if kept then before else after)
      && (PrintedCard(session.TheView(), s, i) == after <==> !kept || before == after)
  {
    hide Session.Valid, AllInStep, Picture, Frontier, Shots, OnlyReleasedOrRedrawn, HasConversation, SpansBelow,
         Remembers, InStep;
    ghost var b := session.blocks[i];
    CardIsInStep(session.look, session.settings, session.blocks, i);
    session.ClickReasoning(i);
    assert Contents(session.blocks)[i] == session.blocks[i].content;
    HasBlock(Contents(session.blocks), i);
    ghost var bs := session.blocks;
    out, s := session.RenderBlocks(now, splash);
    FitsAre(b, session.width, session.theme);
    ClickedCard(session.TheView(), session.settings, s, b, bs, session.blocks, i, session.cur, now);
    ThinkingStays(bs, session.blocks, i);
  }

  lemma CardIsInStep(look: Look, prefs: Settings, bs: seq<Block>, i: nat)
    requires AllInStep(look, prefs, bs) && i < |bs|
    ensures InStep(look, prefs, bs[i].content, bs[i].memo)
  {
  }

  lemma ThinkingStays(bs: seq<Block>, bs': seq<Block>, i: nat)
    requires exists a: nat, b: nat :: OnlyReleasedOrRedrawn(bs, bs', a, b)
    requires i < |bs| && Memoable(bs[i].content.kind)
    ensures |bs'| == |bs| && bs'[i].content == bs[i].content && bs'[i].uid == bs[i].uid
  {
  }

  lemma AllStay(bs: seq<Block>, bs': seq<Block>)
    requires exists a: nat, b: nat :: OnlyReleasedOrRedrawn(bs, bs', a, b)
    ensures |bs'| == |bs|
    ensures forall i :: 0 <= i < |bs| && Memoable(bs[i].content.kind) ==> bs'[i].content == bs[i].content
  {
  }

  lemma ClickedCard(v: View, prefs: Settings, s: seq<Shot>, b: Block, bs: seq<Block>, bs': seq<Block>, i: nat,
                    cur: Option<nat>, now: int)
    requires i < |bs| && i < |s| && Shots(v, prefs, s, bs, bs', 0, |s|, cur, now) && cur != Some(bs[i].uid)
    requires InStep(v.look, prefs, b.content, b.memo) && bs[i].memo == b.memo
    requires bs[i].content == b.content.(collapsed := !b.content.collapsed)
    ensures
      PrintedCard(v, s, i) ==
      var kept := Remembers(b.content, b.memo, v.width, v.theme);
      Card(v.look, prefs, if kept then b.content else bs[i].content, v.width, v.theme)
  {
    hide InStep;
    assert DrawnNow(v, prefs, s[i], bs[i], bs'[i], false, now);
    if Remembers(b.content, b.memo, v.width, v.theme) {
      RememberedCard(v.look, prefs, b.content, b.memo, v.width, v.theme);
    }
  }

  /** The card of the live block serves again: same width and theme, no line break at the end, fewer than 64 new
      characters. */
  predicate FitsLive(text: string, m: Memo, w: int, theme: string) {
    && m.str != "" && m.w == w && m.theme == theme
    && (text == "" || text[|text| - 1] != '\n') && |text| - m.len < 64
  }

  lemma FitsAre(b: Block, w: int, theme: string)
    ensures Reuses(b.content, b.memo, w, theme, true) <==> FitsLive(b.content.text, b.memo, w, theme)
    ensures b.content.kind in {User, Assistant, Thinking} ==>
              (Remembers(b.content, b.memo, w, theme) <==> Fits(b, w, theme))
  {
  }

  /** A delta names the selected model. If that is another one than before, the next drawing shows the old text under
      the old model exactly when the card can be reused: no line break at the end, fewer than 64 new bytes, the same
      width and theme. */
  method DeltaThenRender(session: Session, text: string, now: int, splash: string)
    returns (out: string, ghost s: seq<Shot>)
    requires session.Valid() && session.CardsInStep() && session.Continues(Assistant)
    modifies session
    ensures session.Valid() && 0 < |s| == |session.blocks| == |old(session.blocks)|
    ensures out == Picture(session.TheView(), s, session.cacheIdx)
    ensures session.width == old(session.width) && session.theme == old(session.theme)
    ensures session.settings == old(session.settings)
    ensures
      var b, w, theme := old(session.blocks)[|s| - 1], session.width, session.theme;
      var grown := Grown(b.content, text, session.settings.model);
      && session.blocks[|s| - 1].content == grown
      && PrintedCard(session.TheView(), s, |s| - 1) ==
         if FitsLive(grown.text, b.memo, w, theme) then b.memo.str
         else Card(session.look, session.settings, grown, w, theme)
    ensures
      var b, w, theme := old(session.blocks)[|s| - 1], session.width, session.theme;
      FitsLive(Grown(b.content, text, session.settings.model).text, b.memo, w, theme) ==>
        && b.memo.len <= |b.content.text|
        && b.memo.str
           == Card(session.look, session.settings, b.content.(text := b.content.text[..b.memo.len]), w, theme)
  {
    hide Session.Valid, AllInStep, Picture, Frontier, Shots, OnlyReleasedOrRedrawn, HasConversation, SpansBelow, Grown,
         Reuses, InStep, Opened, Contents, PushedIds, FrozenInStep, Card, Signed;
    ghost var i := |session.blocks| - 1;
    ghost var b := session.blocks[i];
    ghost var grown := Grown(b.content, text, session.settings.model);
    CardIsInStep(session.look, session.settings, session.blocks, i);
    session.Stream(Assistant, text);
    assert Contents(session.blocks)[i] == session.blocks[i].content;
    HasBlock(Contents(session.blocks), i);
    ghost var bs, k := session.blocks, session.cacheIdx;
    out, s := session.RenderBlocks(now, splash);
    LiveCard(session.TheView(), session.settings, s, bs, session.blocks, k, i, session.cur, now);
    ThinkingStays(bs, session.blocks, i);
    OldModelCard(session.look, session.settings, b.content, b.memo, grown, session.width, session.theme);
    FitsAre(bs[i], session.width, session.theme);
  }

  lemma LiveCard(v: View, prefs: Settings, s: seq<Shot>, bs: seq<Block>, bs': seq<Block>, k: nat, i: nat,
                 cur: Option<nat>, now: int)
    requires k <= i < |bs| && i < |s| && Shots(v, prefs, s, bs, bs', k, |s|, cur, now) && cur == Some(bs[i].uid)
    ensures
      var b := bs[i];
      PrintedCard(v, s, i) ==
      if Reuses(b.content, b.memo, v.width, v.theme, true) then b.memo.str
      else Card(v.look, prefs, b.content, v.width, v.theme)
  {
    hide InStep;
    assert DrawnNow(v, prefs, s[i], bs[i], bs'[i], true, now);
  }

  lemma OldModelCard(look: Look, prefs: Settings, c: Content, m: Memo, grown: Content, w: int, theme: string)
    requires InStep(look, prefs, c, m)
    ensures Reuses(grown, m, w, theme, true) ==>
              m.len <= |c.text| && m.str == Card(look, prefs, c.(text := c.text[..m.len]), w, theme)
  {
    hide Signed, Earlier;
    if Reuses(grown, m, w, theme, true) {
      EarlierIs(c, m.len, prefs);
    }
  }

  // ---------------------------------------------------------------- after a change of settings

  /** What block `b` shows of its text: the live block's card can be short of a tail. */
  function Seen(b: Block, reused: bool): Content {
    if reused && b.memo.len <= |b.content.text| then b.content.(text := b.content.text[..b.memo.len]) else b.content
  }

  /** Block `b` is printed as card `x` after the settings changed from `was` to `prefs`: under the old ones if it is
      in the cache or its remembered card serves again, under the new ones otherwise. */
  ghost predicate Lags(v: View, was: Settings, prefs: Settings, b: Block, cached: bool, live: bool, x: Shot) {
    var reused := !cached && Reuses(b.content, b.memo, v.width, v.theme, live);
    && v.look.card(x.c, v.width, v.theme, x.keys)
       == Card(v.look, if cached || reused then was else prefs, Seen(b, reused), v.width, v.theme)
    && x.hints == if cached then was.keys else prefs.keys
  }

  lemma CachedLags(v: View, was: Settings, prefs: Settings, b: Block, live: bool, x: Shot)
    requires Tracks(x.c, b) && UpToDate(was, x, b.content) && Memoable(b.content.kind)
    ensures Lags(v, was, prefs, b, true, live, x)
  {
    CachedIs(was, x, b);
    hide Tracks, UpToDate, Signed;
  }

  lemma CachedIs(was: Settings, x: Shot, b: Block)
    requires Tracks(x.c, b) && UpToDate(was, x, b.content) && Memoable(b.content.kind)
    ensures x.c == Signed(b.content, was.model) && x.keys == x.hints == was.keys
  {
    UpToDateIs(was, x, b);
    hide Signed;
  }

  lemma UncachedLags(v: View, was: Settings, prefs: Settings, b: Block, b': Block, live: bool, x: Shot, now: int)
    requires DrawnNow(v, prefs, x, b, b', live, now) && InStep(v.look, was, b.content, b.memo)
    ensures Lags(v, was, prefs, b, false, live, x)
  {
    hide Card;
    if Reuses(b.content, b.memo, v.width, v.theme, live) {
      ReusedCard(v.look, was, b.content, b.memo, v.width, v.theme, live);
    } else {
      FreshCard(v, prefs, b, x);
    }
  }

  lemma ReusedCard(look: Look, prefs: Settings, c: Content, m: Memo, w: int, theme: string, live: bool)
    requires InStep(look, prefs, c, m) && Reuses(c, m, w, theme, live)
    ensures m.len <= |c.text| && m.str == Card(look, prefs, c.(text := c.text[..m.len]), w, theme)
  {
    EarlierIs(c, m.len, prefs);
    hide Signed, Earlier;
  }

  lemma FreshCard(v: View, prefs: Settings, b: Block, x: Shot)
    requires x.c == Signed(b.content, prefs.model) && x.keys == prefs.keys
    ensures v.look.card(x.c, v.width, v.theme, x.keys) == Card(v.look, prefs, b.content, v.width, v.theme)
  {
  }

  /** The printed cards after a change of settings. */
  ghost predicate AllLag(v: View, was: Settings, prefs: Settings, s: seq<Shot>, bs: seq<Block>, k: nat,
                         cur: Option<nat>) {
    && |s| == |bs|
    && (forall i :: 0 <= i < |s| && Memoable(bs[i].content.kind) ==>
          Lags(v, was, prefs, bs[i], i < k, cur == Some(bs[i].uid), s[i]))
    && (forall i :: 0 <= i < |s| && !Memoable(bs[i].content.kind) ==>
          s[i].keys == s[i].hints == if i < k then was.keys else prefs.keys)
  }

  lemma ChangeLags(v: View, was: Settings, prefs: Settings, s: seq<Shot>, f: seq<Shot>, bs: seq<Block>, bs': seq<Block>,
                   cur: Option<nat>, now: int)
    requires |s| == |bs| && f <= s && Tracked(f, bs) && Shots(v, prefs, s, bs, bs', |f|, |s|, cur, now)
    requires AllInStep(v.look, was, bs) && FrozenInStep(was, f, bs)
    requires forall i :: 0 <= i < |bs| && cur == Some(bs[i].uid) ==> Memoable(bs[i].content.kind)
    ensures AllLag(v, was, prefs, s, bs, |f|, cur)
  {
    forall i | 0 <= i < |s|
      ensures Memoable(bs[i].content.kind) ==> Lags(v, was, prefs, bs[i], i < |f|, cur == Some(bs[i].uid), s[i])
      ensures !Memoable(bs[i].content.kind) ==> s[i].keys == s[i].hints == if i < |f| then was.keys else prefs.keys
    {
      hide Lags, Tracks, InStep, UpToDate, DrawnNow;
      if i < |f| {
        assert f[i] == s[i] && Tracks(f[i].c, bs[i]) && UpToDate(was, f[i], bs[i].content);
        CachedKeys(was, s[i], bs[i].content);
        if Memoable(bs[i].content.kind) {
          CachedLags(v, was, prefs, bs[i], cur == Some(bs[i].uid), s[i]);
        }
      } else {
        var live := cur == Some(bs[i].uid);
        assert InStep(v.look, was, bs[i].content, bs[i].memo) && DrawnNow(v, prefs, s[i], bs[i], bs'[i], live, now);
        UncachedLags(v, was, prefs, bs[i], bs'[i], live, s[i], now);
        FreshKeys(v, prefs, s[i], bs[i], bs'[i], live, now);
        if !Memoable(bs[i].content.kind) {
          assert !live && !Reuses(bs[i].content, bs[i].memo, v.width, v.theme, live);
        }
      }
    }
  }

  lemma LiveStreams(session: Session)
    requires session.Valid()
    ensures forall i :: 0 <= i < |session.blocks| && session.cur == Some(session.blocks[i].uid) ==>
              Memoable(session.blocks[i].content.kind)
  {
  }

  lemma CachedKeys(was: Settings, x: Shot, c: Content)
    requires UpToDate(was, x, c)
    ensures x.keys == x.hints == was.keys
  {
  }

  lemma FreshKeys(v: View, prefs: Settings, x: Shot, b: Block, b': Block, live: bool, now: int)
    requires DrawnNow(v, prefs, x, b, b', live, now)
    ensures x.hints == prefs.keys && (!Reuses(b.content, b.memo, v.width, v.theme, live) ==> x.keys == prefs.keys)
  {
  }

  /** The selected model shows only in replies that name none. */
  lemma OnlyUnsignedShow(look: Look, was: Settings, prefs: Settings, c: Content, w: int, theme: string)
    requires was.keys == prefs.keys && !(c.kind.Assistant? && c.model == "")
    ensures Card(look, was, c, w, theme) == Card(look, prefs, c, w, theme)
  {
  }

  /** A reply is printed under the model that was selected before. */
  predicate Stale(b: Block, cached: bool, w: int, theme: string, live: bool) {
    b.content.kind.Assistant? && b.content.model == "" && (cached || Reuses(b.content, b.memo, w, theme, live))
  }

  /** After another model is selected the next drawing prints a block as that model would have it, unless it is a
      reply that names no model and is in the cache or has its remembered card used again: such a reply is printed
      under the old one, and is right exactly when the card is the same under both. */
  method SelectThenRender(session: Session, model: Option<string>, now: int, splash: string)
    returns (out: string, ghost s: seq<Shot>)
    requires session.Valid() && session.CardsInStep() && HasConversation(Contents(session.blocks))
    modifies session
    ensures session.Valid() && |s| == |session.blocks| == |old(session.blocks)|
    ensures session.TheView() == old(session.TheView()) && session.cur == old(session.cur)
    ensures session.settings == old(session.settings).(model := model)
    ensures out == Picture(session.TheView(), s, session.cacheIdx)
    ensures forall i :: 0 <= i < |s| && Memoable(old(session.blocks)[i].content.kind) ==>
              session.blocks[i].content == old(session.blocks)[i].content
    ensures AllLag(session.TheView(), old(session.settings), session.settings, s, old(session.blocks),
                   old(session.cacheIdx), session.cur)
    ensures forall i :: 0 <= i < |s| && Memoable(old(session.blocks)[i].content.kind) ==>
              var b, w, theme, live :=
                old(session.blocks)[i], session.width, session.theme, session.cur == Some(old(session.blocks)[i].uid);
              var cached := i < old(session.cacheIdx);
              var c := Seen(b, !cached && Reuses(b.content, b.memo, w, theme, live));
              var before := Card(session.look, old(session.settings), c, w, theme);
              var after := Card(session.look, session.settings, c, w, theme);
              && PrintedCard(session.TheView(), s, i) == (if Stale(b, cached, w, theme, live) then before else after)
              && (PrintedCard(session.TheView(), s, i) == after
                  <==> !Stale(b, cached, w, theme, live) || before == after)
  {
    hide Session.Valid, AllInStep, Picture, Frontier, Shots, OnlyReleasedOrRedrawn, HasConversation, SpansBelow,
         Tracked, FrozenInStep, Card, Reuses;
    CachedIsTracked(session);
    LiveStreams(session);
    ghost var was, bs, f := session.settings, session.blocks, session.frozen;
    session.SelectModel(model);
    out, s := session.RenderBlocks(now, splash);
    ChangeLags(session.TheView(), was, session.settings, s, f, bs, session.blocks, session.cur, now);
    AllStay(bs, session.blocks);
    forall i | 0 <= i < |s| && Memoable(bs[i].content.kind)
      ensures
        var live, cached := session.cur == Some(bs[i].uid), i < |f|;
        var printed := PrintedCard(session.TheView(), s, i);
        SelectedCard(session.TheView(), was, session.settings, bs[i], cached, live, printed)
    {
      SelectLags(session.TheView(), was, session.settings, bs[i], i < |f|, session.cur == Some(bs[i].uid), s[i]);
    }
  }

  ghost predicate SelectedCard(v: View, was: Settings, prefs: Settings, b: Block, cached: bool, live: bool,
                               printed: string) {
    var c := Seen(b, !cached && Reuses(b.content, b.memo, v.width, v.theme, live));
    var before, after := Card(v.look, was, c, v.width, v.theme), Card(v.look, prefs, c, v.width, v.theme);
    printed == if Stale(b, cached, v.width, v.theme, live) then before else after
  }

  lemma SelectLags(v: View, was: Settings, prefs: Settings, b: Block, cached: bool, live: bool, x: Shot)
    requires Lags(v, was, prefs, b, cached, live, x) && was.keys == prefs.keys
    ensures SelectedCard(v, was, prefs, b, cached, live, v.look.card(x.c, v.width, v.theme, x.keys))
  {
    hide Card, Reuses;
    var c := Seen(b, !cached && Reuses(b.content, b.memo, v.width, v.theme, live));
    if !(c.kind.Assistant? && c.model == "") {
      OnlyUnsignedShow(v.look, was, prefs, c, v.width, v.theme);
    }
  }

  /** After a change of keys the next drawing prints what is in the cache with the old keys throughout, a remembered
      card that serves again with the old keys inside and the new ones put into it, and all else with the new ones. */
  method RebindThenRender(session: Session, action: string, key: string, now: int, splash: string)
    returns (out: string, ghost s: seq<Shot>)
    requires session.Valid() && session.CardsInStep() && HasConversation(Contents(session.blocks))
    modifies session
    ensures session.Valid() && |s| == |session.blocks| == |old(session.blocks)|
    ensures session.TheView() == old(session.TheView()) && session.cur == old(session.cur)
    ensures session.settings == old(session.settings).(keys := old(session.settings.keys)[action := key])
    ensures out == Picture(session.TheView(), s, session.cacheIdx)
    ensures forall i :: 0 <= i < |s| && Memoable(old(session.blocks)[i].content.kind) ==>
              session.blocks[i].content == old(session.blocks)[i].content
    ensures AllLag(session.TheView(), old(session.settings), session.settings, s, old(session.blocks),
                   old(session.cacheIdx), session.cur)
  {
    hide Session.Valid, AllInStep, Picture, Frontier, Shots, OnlyReleasedOrRedrawn, HasConversation, SpansBelow,
         Tracked, FrozenInStep, Lags;
    CachedIsTracked(session);
    LiveStreams(session);
    ghost var was, bs, f := session.settings, session.blocks, session.frozen;
    session.Rebind(action, key);
    out, s := session.RenderBlocks(now, splash);
    ChangeLags(session.TheView(), was, session.settings, s, f, bs, session.blocks, session.cur, now);
    AllStay(bs, session.blocks);
  }

  // ---------------------------------------------------------------- what the cache keeps

  /** Drawn twice with nothing happening in between: a call that entered the cache the first time is printed the second
      time with the clock of the first, every other call with its own. */
  method RenderTwice(session: Session, now1: int, now2: int, splash: string)
    returns (out: string, ghost s: seq<Shot>, ghost f: nat)
    requires session.Valid() && HasConversation(Contents(session.blocks))
    modifies session
    ensures session.Valid() && |s| == |session.blocks| == |old(session.blocks)| && f <= |s|
    ensures out == Picture(session.TheView(), s, session.cacheIdx)
    ensures session.TheView() == old(session.TheView()) && session.cur == old(session.cur)
    ensures session.settings == old(session.settings)
    ensures f == Frontier(old(Contents(session.blocks)), session.cur.Some?, 0) == session.cacheIdx
    ensures forall i :: old(session.cacheIdx) <= i < f && ToolLike(old(session.blocks)[i].content) ==>
              s[i] == ShotOf(old(session.blocks)[i].content, session.settings, now1)
    ensures forall i :: f <= i < |s| && old(session.cacheIdx) <= i && ToolLike(old(session.blocks)[i].content) ==>
              s[i] == ShotOf(old(session.blocks)[i].content, session.settings, now2)
  {
    hide Session.Valid, Picture, Frontier, Shots, OnlyReleasedOrRedrawn, HasConversation, SpansBelow;
    NoToolCards(session);
    ghost var bs, k := session.blocks, session.cacheIdx;
    ghost var s1;
    out, s1 := session.RenderBlocks(now1, splash);
    ghost var mid := session.blocks;
    f := session.cacheIdx;
    StillConversation(bs, mid, k, f);
    FrontierAgain(bs, mid, session.cur.Some?, k, f);
    NoToolCards(session);
    out, s := session.RenderBlocks(now2, splash);
    FrontierAgain(mid, session.blocks, session.cur.Some?, f, session.cacheIdx);
    ToolShots(session.TheView(), session.settings, s1, bs, mid, k, session.cur, now1);
    ToolShots(session.TheView(), session.settings, s, mid, session.blocks, f, session.cur, now2);
    SameAbove(bs, mid, k, f);
    assert s[..f] == s1[..f];
    forall i | k <= i < f && ToolLike(bs[i].content)
      ensures s[i] == ShotOf(bs[i].content, session.settings, now1)
    {
      assert s[i] == s[..f][i] == s1[..f][i] == s1[i];
    }
  }

  lemma NoToolCards(session: Session)
    requires session.Valid()
    ensures forall i :: 0 <= i < |session.blocks| && ToolLike(session.blocks[i].content) ==>
              session.blocks[i].memo.str == ""
  {
  }

  lemma ToolShots(v: View, prefs: Settings, s: seq<Shot>, bs: seq<Block>, bs': seq<Block>, k: nat, cur: Option<nat>,
                  now: int)
    requires Shots(v, prefs, s, bs, bs', k, |s|, cur, now) && |s| == |bs|
    requires forall i :: 0 <= i < |bs| && ToolLike(bs[i].content) ==> bs[i].memo.str == ""
    ensures forall i :: k <= i < |s| && ToolLike(bs[i].content) ==> s[i] == ShotOf(bs[i].content, prefs, now)
  {
    forall i | k <= i < |s| && ToolLike(bs[i].content)
      ensures s[i] == ShotOf(bs[i].content, prefs, now)
    {
      assert DrawnNow(v, prefs, s[i], bs[i], bs'[i], cur == Some(bs[i].uid), now);
    }
  }

  lemma SameAbove(bs: seq<Block>, bs': seq<Block>, k: nat, f: nat)
    requires OnlyReleasedOrRedrawn(bs, bs', k, f)
    ensures |bs'| == |bs| && forall i :: 0 <= i < |bs| ==>
              && ToolLike(bs'[i].content) == ToolLike(bs[i].content)
              && (i < k || f <= i ==> bs'[i].content == bs[i].content)
              && (k <= i < f ==> bs'[i].content == Released(bs[i].content))
  {
  }

  lemma StillConversation(bs: seq<Block>, bs': seq<Block>, k: nat, f: nat)
    requires OnlyReleasedOrRedrawn(bs, bs', k, f) && HasConversation(Contents(bs))
    ensures HasConversation(Contents(bs'))
  {
    var i :| 0 <= i < |bs| && Conversational(Contents(bs)[i]);
    assert Conversational(Contents(bs')[i]);
  }

  lemma FrontierAgain(bs: seq<Block>, bs': seq<Block>, live: bool, k: nat, f: nat)
    requires OnlyReleasedOrRedrawn(bs, bs', k, f)
    ensures Frontier(Contents(bs), live, 0) == Frontier(Contents(bs'), live, 0)
  {
    hide InStep;
    forall i | 0 <= i < |bs|
      ensures Contents(bs')[i].kind == Contents(bs)[i].kind && Contents(bs')[i].sub == Contents(bs)[i].sub
      ensures Contents(bs')[i].dur == Contents(bs)[i].dur
    {
      assert Contents(bs')[i] == bs'[i].content && Contents(bs)[i] == bs[i].content;
    }
    FrontierShape(Contents(bs), Contents(bs'), live, 0);
  }

  /** The row shows the clock; times are counted in the tenths of a second that it shows. */
  ghost predicate Clocked(look: Look) {
    forall c, w, a, b, focus, theme, keys ::
      look.row(c, w, Some(a), focus, theme, keys) == look.row(c, w, Some(b), focus, theme, keys) ==> a == b
  }

  /** The row of a call printed with the clock of an earlier time is its present row exactly when no clock runs in it. A
      nested call is cached while its clock runs. */
  lemma CachedClock(v: View, x: Shot, i: nat, at: int)
    requires Clocked(v.look)
    ensures RowText(v, x, i) == RowText(v, x.(at := at), i) <==> !Ticking(x.c) || x.at == at
  {
    if Ticking(x.c) && RowText(v, x, i) == RowText(v, x.(at := at), i) {
      assert Some(x.at - x.c.started) == Elapsed(x);
    }
  }

  predicate Capped(s: string) {
    |s| > MaxCachedArgs && s == s[..MaxCachedArgs] + TruncMarker
  }

  lemma CapOnce(s: string)
    ensures CapTo(s, MaxCachedArgs) == s <==> |s| <= MaxCachedArgs || Capped(s)
    ensures CapTo(CapTo(s, MaxCachedArgs), MaxCachedArgs) == CapTo(s, MaxCachedArgs)
  {
    if |s| > MaxCachedArgs {
      assert CapTo(s, MaxCachedArgs)[..MaxCachedArgs] == s[..MaxCachedArgs];
    }
  }

  /** releaseAfterCache leaves a block as it was exactly when args and diff are short or were capped before. */
  lemma ReleaseIsHarmless(c: Content)
    ensures
      Released(c) == c <==>
      (c.kind.Tool? || c.kind.Approve? ==>
         (|c.args| <= MaxCachedArgs || Capped(c.args)) && (|c.diff| <= MaxCachedArgs || Capped(c.diff)))
    ensures Released(Released(c)) == Released(c)
  {
    CapOnce(c.args);
    CapOnce(c.diff);
    hide CapTo, Capped;
    assert c.(args := c.args, diff := c.diff) == c;
  }

  /** A redraw from scratch (a resize to the same size will do): a call that entered the cache before it is printed from
      its full contents the first time and from what was left of it the second time. `ReleaseIsHarmless` says when the
      two are the same. */
  method RenderRefreshed(session: Session, now1: int, now2: int, splash: string)
    returns (out1: string, ghost s1: seq<Shot>, out2: string, ghost s2: seq<Shot>, ghost f: nat)
    requires session.Valid() && HasConversation(Contents(session.blocks))
    modifies session
    ensures session.Valid() && |s1| == |s2| == |session.blocks| == |old(session.blocks)| && f <= |s1|
    ensures f == Frontier(old(Contents(session.blocks)), session.cur.Some?, 0)
    ensures session.settings == old(session.settings)
    ensures out1 == Picture(session.TheView(), s1, f) && out2 == Picture(session.TheView(), s2, f)
    ensures forall i :: old(session.cacheIdx) <= i < |s1| && ToolLike(old(session.blocks)[i].content) ==>
              var c := old(session.blocks)[i].content;
              && s1[i] == ShotOf(c, session.settings, now1)
              && s2[i] == ShotOf(if i < f then Released(c) else c, session.settings, now2)
  {
    hide Session.Valid, Picture, Frontier, Shots, OnlyReleasedOrRedrawn, HasConversation, SpansBelow, Released;
    NoToolCards(session);
    ghost var bs, k := session.blocks, session.cacheIdx;
    out1, s1 := session.RenderBlocks(now1, splash);
    ghost var mid := session.blocks;
    f := session.cacheIdx;
    StillConversation(bs, mid, k, f);
    FrontierAgain(bs, mid, session.cur.Some?, k, f);
    session.Redisplay(session.focused, session.width, session.theme);
    ghost var clean := session.blocks;
    NoToolCards(session);
    out2, s2 := session.RenderBlocks(now2, splash);
    FrontierAgain(clean, session.blocks, session.cur.Some?, 0, session.cacheIdx);
    ToolShots(session.TheView(), session.settings, s1, bs, mid, k, session.cur, now1);
    ToolShots(session.TheView(), session.settings, s2, clean, session.blocks, 0, session.cur, now2);
    SameAbove(bs, mid, k, f);
    forall i | 0 <= i < |clean|
      ensures clean[i].content == mid[i].content
    {
      assert Contents(clean)[i] == Contents(mid)[i];
    }
  }

  // ---------------------------------------------------------------- runs

  function Thought(text: string): Content {
    NewBlock(Thinking, true).(text := Appended("", text))
  }

  function Reply(text: string, model: string): Content {
    NewBlock(Assistant, true).(text := Appended("", text), model := model)
  }

  lemma FirstBlocks(c: Content, d: Content)
    ensures Pushed([], c) == [c] && Pushed([c], d) == [c, d]
  {
  }

  lemma FirstStream(kind: Kind, text: string, model: Option<string>)
    requires Streaming(kind)
    ensures
      var cs := Opened([], false, kind, true);
      var c := NewBlock(kind, true);
      && cs == [c] && cs[|cs| - 1 := Grown(cs[|cs| - 1], text, model)] == [Grown(c, text, model)]
  {
    FirstBlocks(NewBlock(kind, true), NewBlock(kind, true));
  }

  lemma TwoBlocks(bs: seq<Block>, c: Content, d: Content)
    requires Contents(bs) == [c, d]
    ensures |bs| == 2 && bs[0].content == c && bs[1].content == d
  {
    assert |Contents(bs)| == 2 && Contents(bs)[0] == c && Contents(bs)[1] == d;
  }

  lemma FirstShot(v: View, prefs: Settings, s: seq<Shot>, bs: seq<Block>, bs': seq<Block>, cur: Option<nat>, now: int)
    requires bs != [] && Shots(v, prefs, s, bs, bs', 0, |s|, cur, now) && |s| == |bs|
    ensures DrawnNow(v, prefs, s[0], bs[0], bs'[0], cur == Some(bs[0].uid), now)
  {
  }

  /** A thought is streamed, the user speaks, the transcript is drawn. */
  method DrawnThought(look: Look, w: int, theme: string, prefs: Settings, text: string, now: int, splash: string)
    returns (session: Session)
    requires Card(look, prefs, Thought(text), w, theme) != ""
    ensures session.Valid() && session.CardsInStep() && session.cur == None && fresh(session)
    ensures session.settings == prefs
    ensures session.look == look && session.width == w && session.theme == theme
    ensures |session.blocks| == 2 && session.blocks[0].content == Thought(text)
    ensures Remembers(session.blocks[0].content, session.blocks[0].memo, w, theme)
  {
    hide Session.Valid, AllInStep, Picture, Frontier, Shots, OnlyReleasedOrRedrawn, HasConversation, SpansBelow, Pushed,
         Opened, Remembers, DrawnNow, PushedIds, FrozenInStep, Card, FocusAfterPush, Signed;
    session := new Session(look, w, theme, prefs, true);
    session.Stream(Thinking, text);
    FirstStream(Thinking, text, prefs.model);
    FirstBlocks(Thought(text), Fresh(User));
    session.Log(Fresh(User));
    session.Redisplay(-1, w, theme);
    TwoBlocks(session.blocks, Thought(text), Fresh(User));
    HasBlock(Contents(session.blocks), 0);
    ghost var bs := session.blocks;
    ghost var s;
    var out;
    out, s := session.RenderBlocks(now, splash);
    FirstShot(session.TheView(), prefs, s, bs, session.blocks, session.cur, now);
    ThinkingStays(bs, session.blocks, 0);
    DrawnIsRemembered(session.TheView(), prefs, s[0], bs[0], session.blocks[0], now);
  }

  /** Then the thought is clicked: it is folded, and printed unfolded. */
  method FoldStaysOpen(look: Look, w: int, theme: string, prefs: Settings, text: string, now1: int, now2: int,
                       splash: string)
    returns (session: Session, out: string, ghost s: seq<Shot>)
    requires Card(look, prefs, Thought(text), w, theme) != ""
    ensures session.Valid() && session.look == look && session.width == w && session.theme == theme
    ensures session.settings == prefs
    ensures |s| == |session.blocks| == 2 && out == Picture(session.TheView(), s, session.cacheIdx)
    ensures session.blocks[0].content == Thought(text).(collapsed := true)
    ensures PrintedCard(session.TheView(), s, 0) == Card(look, prefs, Thought(text), w, theme)
  {
    hide Session.Valid, AllInStep, Picture, Shots, Remembers, FrozenInStep, Card, Signed;
    session := DrawnThought(look, w, theme, prefs, text, now1, splash);
    FitsAre(session.blocks[0], w, theme);
    out, s := ClickThenRender(session, 0, now2, splash);
  }

  /** A reply is streamed and drawn. */
  method DrawnReply(look: Look, w: int, theme: string, prefs: Settings, text: string, now: int, splash: string)
    returns (session: Session)
    requires prefs.model.Some?
    ensures session.Valid() && session.CardsInStep() && session.Continues(Assistant) && session.settings == prefs
    ensures session.look == look && session.width == w && session.theme == theme && fresh(session)
    ensures
      var c := Reply(text, prefs.model.value);
      && |session.blocks| == 1 && session.blocks[0].content == c
      && session.blocks[0].memo == Memo(w, |c.text|, Card(look, prefs, c, w, theme), theme)
  {
    hide Session.Valid, AllInStep, Picture, Frontier, Shots, OnlyReleasedOrRedrawn, HasConversation, SpansBelow, Pushed,
         Opened, DrawnNow, PushedIds, FrozenInStep, Card, Signed;
    session := new Session(look, w, theme, prefs, true);
    session.Stream(Assistant, text);
    FirstStream(Assistant, text, prefs.model);
    session.Redisplay(-1, w, theme);
    OneBlock(session.blocks, Reply(text, prefs.model.value));
    HasBlock(Contents(session.blocks), 0);
    ghost var bs := session.blocks;
    ghost var s;
    var out;
    out, s := session.RenderBlocks(now, splash);
    FirstShot(session.TheView(), prefs, s, bs, session.blocks, session.cur, now);
    ThinkingStays(bs, session.blocks, 0);
    LiveMemo(session.TheView(), prefs, s[0], bs[0], session.blocks[0], now);
  }

  /** A reply is streamed under one model and drawn; another model is selected and a short delta comes: the block
      names the new model, and the old text is printed under the old one. */
  method OldModelStays(look: Look, w: int, theme: string, prefs: Settings, text1: string, text2: string, model2: string,
                       now1: int, now2: int, splash: string)
    returns (session: Session, out: string, ghost s: seq<Shot>)
    requires prefs.model.Some? && prefs.model.value != ""
    requires Card(look, prefs, Reply(text1, prefs.model.value), w, theme) != ""
    requires
      var first := Reply(text1, prefs.model.value);
      var grown := Grown(first, text2, Some(model2));
      !EndsInNewline(grown.text) && |grown.text| - |first.text| < StreamBatch
    ensures session.Valid() && session.look == look && session.width == w && session.theme == theme
    ensures session.settings == prefs.(model := Some(model2))
    ensures |s| == |session.blocks| == 1 && out == Picture(session.TheView(), s, session.cacheIdx)
    ensures session.blocks[0].content == Grown(Reply(text1, prefs.model.value), text2, Some(model2))
    ensures session.blocks[0].content.model == model2
    ensures PrintedCard(session.TheView(), s, 0) == Card(look, prefs, Reply(text1, prefs.model.value), w, theme)
  {
    hide Session.Valid, AllInStep, Picture, Shots, FrozenInStep, Card, Signed, Appended;
    session := DrawnReply(look, w, theme, prefs, text1, now1, splash);
    session.SelectModel(Some(model2));
    out, s := DeltaThenRender(session, text2, now2, splash);
  }

  lemma OneBlock(bs: seq<Block>, c: Content)
    requires Contents(bs) == [c]
    ensures |bs| == 1 && bs[0].content == c
  {
    assert |Contents(bs)| == 1 && Contents(bs)[0] == c;
  }

  lemma LiveMemo(v: View, prefs: Settings, x: Shot, b: Block, b': Block, now: int)
    requires DrawnNow(v, prefs, x, b, b', true, now) && Memoable(b.content.kind) && b.memo.str == ""
    ensures b'.memo == Memo(v.width, |b.content.text|, Card(v.look, prefs, b.content, v.width, v.theme), v.theme)
  {
  }

  /** A stored session is loaded while no model is selected, and drawn. */
  method LoadedReply(look: Look, w: int, theme: string, keys: Keys, said: string, now: int, splash: string)
    returns (session: Session)
    ensures session.Valid() && session.CardsInStep() && session.cur == None && fresh(session)
    ensures session.look == look && session.width == w && session.theme == theme
    ensures session.settings == Settings(None, keys)
    ensures Contents(session.blocks) == [Reply(said, "")] && session.cacheIdx == 1
    ensures HasConversation(Contents(session.blocks)) && session.blocks[0].content == Reply(said, "")
  {
    hide Session.Valid, AllInStep, Picture, Frontier, Shots, OnlyReleasedOrRedrawn, HasConversation, SpansBelow,
         FrozenInStep, TranscriptHistory.Kept, TranscriptHistory.AllEntries, Newest;
    session := new Session(look, w, theme, Settings(None, keys), true);
    TranscriptHistory.RebuildBlocksFromHistory(session, [TranscriptHistory.Replied(None, Some(said), [])]);
    OneReply(said);
    OneBlock(session.blocks, Reply(said, ""));
    HasBlock(Contents(session.blocks), 0);
    ghost var bs := session.blocks;
    ghost var s;
    var out;
    out, s := session.RenderBlocks(now, splash);
    ThinkingStays(bs, session.blocks, 0);
    OneContent(session.blocks, Reply(said, ""));
    HasBlock(Contents(session.blocks), 0);
    LoneReply(Contents(session.blocks));
  }

  /** Then a model is selected: the reply, which names none, is printed without one. */
  method LoadedReplyStays(look: Look, w: int, theme: string, keys: Keys, said: string, model: string, now1: int,
                          now2: int, splash: string)
    returns (session: Session, out: string, ghost s: seq<Shot>)
    ensures session.Valid() && session.look == look && session.width == w && session.theme == theme
    ensures session.settings == Settings(Some(model), keys)
    ensures |s| == |session.blocks| == 1 && out == Picture(session.TheView(), s, session.cacheIdx)
    ensures session.blocks[0].content == Reply(said, "")
    ensures PrintedCard(session.TheView(), s, 0) == look.card(Reply(said, ""), w, theme, keys)
    ensures
      Card(look, session.settings, session.blocks[0].content, w, theme) == look.card(Reply(said, model), w, theme, keys)
  {
    hide Session.Valid, AllInStep, Picture, Shots, HasConversation, FrozenInStep, AllLag, Lags;
    session := LoadedReply(look, w, theme, keys, said, now1, splash);
    out, s := SelectThenRender(session, Some(model), now2, splash);
  }

  /** Or an action gets another key: the reply is printed with the old one. */
  method OldKeysStay(look: Look, w: int, theme: string, keys: Keys, said: string, action: string, key: string,
                     now1: int, now2: int, splash: string)
    returns (session: Session, out: string, ghost s: seq<Shot>)
    ensures session.Valid() && session.look == look && session.width == w && session.theme == theme
    ensures session.settings == Settings(None, keys[action := key])
    ensures |s| == |session.blocks| == 1 && out == Picture(session.TheView(), s, session.cacheIdx)
    ensures session.blocks[0].content == Reply(said, "")
    ensures
      var v := session.TheView();
      BlockText(v, s[0], 0) == look.mark(look.card(Reply(said, ""), w, theme, keys), v.focus == 0, keys)
  {
    hide Session.Valid, AllInStep, Picture, Shots, HasConversation, FrozenInStep, Reuses;
    session := LoadedReply(look, w, theme, keys, said, now1, splash);
    out, s := RebindThenRender(session, action, key, now2, splash);
  }

  lemma OneContent(bs: seq<Block>, c: Content)
    requires |bs| == 1 && bs[0].content == c
    ensures Contents(bs) == [c] && Contents(bs)[0].kind == c.kind
  {
  }

  lemma LoneReply(cs: seq<Content>)
    requires |cs| == 1 && cs[0].kind.Assistant?
    ensures Frontier(cs, false, 0) == 1
  {
  }

  /** A stored reply, loaded while no model is selected. */
  lemma OneReply(said: string)
    ensures
      var es := TranscriptHistory.AllEntries([TranscriptHistory.Replied(None, Some(said), [])], true, "");
      TranscriptHistory.AllStorable(es) && Newest(TranscriptHistory.Kept(es, |es|).items) == [Reply(said, "")]
  {
    var ms := [TranscriptHistory.Replied(None, Some(said), [])];
    assert ms[..0] == [] && TranscriptHistory.AllEntries([], true, "") == [];
    var es := [TranscriptHistory.Show(Reply(said, ""), "")];
    assert TranscriptHistory.Entries(ms[0], true, "") == es;
    assert TranscriptHistory.AllEntries(ms, true, "") == es;
    assert TranscriptHistory.Kept(es, 0) == TranscriptHistory.Book([], map[]);
    assert TranscriptHistory.Kept(es, 1).items == [Reply(said, "")];
  }

  /** A nested call runs, the user speaks, the transcript is drawn twice: the second time the call is printed with the
      clock of the first. */
  method ClockStops(look: Look, w: int, theme: string, prefs: Settings, name: string, args: string, id: string,
                    started: int, now1: int, now2: int, splash: string)
    returns (session: Session, out: string, ghost s: seq<Shot>)
    ensures session.Valid() && session.look == look && session.width == w && session.theme == theme
    ensures |s| == |session.blocks| == 2 && out == Picture(session.TheView(), s, session.cacheIdx)
    ensures s[0] == ShotOf(ToolCall(name, args, true, id, started), prefs, now1)
    ensures Elapsed(s[0]) == Some(now1 - started)
  {
    hide Session.Valid, AllInStep, Picture, Shots, OnlyReleasedOrRedrawn, HasConversation, SpansBelow, Pushed, Frontier,
         PushedIds;
    session := new Session(look, w, theme, prefs, true);
    var call := ToolCall(name, args, true, id, started);
    FirstBlocks(call, Fresh(User));
    session.LogTool(name, args, true, id, started);
    session.Log(Fresh(User));
    session.Redisplay(-1, w, theme);
    TwoBlocks(session.blocks, call, Fresh(User));
    HasBlock(Contents(session.blocks), 0);
    NestedIsCached(Contents(session.blocks));
    ghost var f;
    out, s, f := RenderTwice(session, now1, now2, splash);
  }

  /** A nested call that runs, below another block, is in the cache. */
  lemma NestedIsCached(cs: seq<Content>)
    requires |cs| == 2 && cs[0].kind.Tool? && cs[0].sub && cs[1].kind.User?
    ensures Frontier(cs, false, 0) == 2
  {
    assert RunEnd(cs, 0) == 1;
    assert !AnyPending(cs, 0, 1);
    assert Frontier(cs, false, 1) == Frontier(cs, false, 2) == 2;
  }
}
