/** Loading a session (rebuildBlocksFromHistory): the transcript of a list of stored messages. Messages are already
    decoded: thinking and visible text are apart, and a text that is blank is missing. */
module TranscriptHistory {
  import opened Options
  import opened Transcript
  import opened TranscriptSession
  import opened TranscriptTheorems

  datatype Call = Call(name: string, args: string, sub: bool, id: string)

  datatype Message =
    | Asked(text: Option<string>)
    | Replied(thought: Option<string>, said: Option<string>, calls: seq<Call>)
    | Output(id: string, out: string)

  /** One change to the transcript: a block, with the id under which it waits for a result, or a result. */
  datatype Entry = Show(c: Content, id: string) | Result(id: string, out: string)

  function Written(kind: Kind, thinkExpanded: bool, text: Option<string>, model: string): seq<Entry> {
    if text.None? then []
    else [Show(NewBlock(kind, thinkExpanded).(text := Appended("", text.value), model := model), "")]
  }

  /** A stored call has no clock and counts as finished. */
  function CallBlock(k: Call): Content {
    Fresh(Tool).(name := k.name, args := CapStored(k.args), sub := k.sub, id := k.id, dur := 1)
  }

  function Called(calls: seq<Call>): seq<Entry> {
    if calls == [] then []
    else (if calls[0].name == "" then [] else [Show(CallBlock(calls[0]), calls[0].id)]) + Called(calls[1..])
  }

  function Entries(m: Message, thinkExpanded: bool, model: string): seq<Entry> {
    match m
    case Asked(text) => Written(User, thinkExpanded, text, "")
    case Replied(thought, said, calls) =>
      Written(Thinking, thinkExpanded, thought, "") + Written(Assistant, thinkExpanded, said, model) + Called(calls)
    case Output(id, out) => [Result(id, CapStored(out))]
  }

  function AllEntries(ms: seq<Message>, thinkExpanded: bool, model: string): seq<Entry> {
    if ms == [] then []
    else AllEntries(ms[..|ms| - 1], thinkExpanded, model) + Entries(ms[|ms| - 1], thinkExpanded, model)
  }

  // ---------------------------------------------------------------- without a limit on the blocks

  /** Blocks are known by the order in which they were made; `pending` has the calls without a result. */
  datatype Book = Book(items: seq<Content>, pending: map<string, nat>)

  predicate Sound(b: Book) {
    && (forall id :: id in b.pending ==> b.pending[id] < |b.items| && b.items[b.pending[id]].kind.Tool?)
    && (forall i :: 0 <= i < |b.items| ==> !b.items[i].kind.Trimmed?)
  }

  predicate Storable(e: Entry) {
    e.Show? ==> !e.c.kind.Trimmed? && (e.id != "" ==> e.c.kind.Tool?)
  }

  function Unclaimed(out: string): Content {
    Fresh(ToolResult).(output := out)
  }

  function Add(b: Book, e: Entry): (b': Book)
    requires Sound(b) && Storable(e)
    ensures Sound(b')
  {
    match e
    case Show(c, id) =>
      Book(b.items + [c], if id == "" then b.pending else b.pending[id := |b.items|])
    case Result(id, out) =>
      if id != "" && id in b.pending then
        var k := b.pending[id];
        Book(b.items[k := b.items[k].(output := out)], b.pending - {id})
      else Book(b.items + [Unclaimed(out)], b.pending)
  }

  predicate AllStorable(es: seq<Entry>) {
    forall i :: 0 <= i < |es| ==> Storable(es[i])
  }

  /** The first n entries. */
  function Kept(es: seq<Entry>, n: nat): (b: Book)
    requires AllStorable(es) && n <= |es|
    ensures Sound(b)
  {
    if n == 0 then Book([], map[]) else Add(Kept(es, n - 1), es[n - 1])
  }

  // ---------------------------------------------------------------- which result belongs to which call

  /** The call with this id that waits after n entries: the latest one, unless it has its result. */
  function Waiting(es: seq<Entry>, n: nat, id: string): (i: int)
    requires n <= |es|
    ensures -1 <= i < n
    ensures i >= 0 ==> es[i].Show? && es[i].id == id
  {
    if n == 0 then -1
    else if es[n - 1].id == id then (if es[n - 1].Show? then n - 1 else -1)
    else Waiting(es, n - 1, id)
  }

  /** Entry j is the result of the call at entry i. */
  predicate Answers(es: seq<Entry>, i: int, j: nat)
    requires j < |es|
  {
    es[j].Result? && es[j].id != "" && i >= 0 && Waiting(es, j, es[j].id) == i
  }

  /** Entry j makes a block of its own. */
  predicate Makes(es: seq<Entry>, j: nat)
    requires j < |es|
  {
    es[j].Show? || es[j].id == "" || Waiting(es, j, es[j].id) < 0
  }

  function Place(es: seq<Entry>, n: nat): nat
    requires n <= |es|
  {
    if n == 0 then 0 else Place(es, n - 1) + if Makes(es, n - 1) then 1 else 0
  }

  lemma {:induction false} PlaceGrows(es: seq<Entry>, i: nat, n: nat)
    requires i < n <= |es|
    ensures Place(es, i) + (if Makes(es, i) then 1 else 0) <= Place(es, n)
    decreases n
  {
    if i < n - 1 {
      PlaceGrows(es, i, n - 1);
    }
  }

  /** One entry: a new block unless it answers a call, and the entries under other ids stay. */
  lemma AddPending(b: Book, e: Entry, id: string)
    requires Sound(b) && Storable(e) && id != ""
    ensures |Add(b, e).items| == |b.items| + if e.Result? && e.id != "" && e.id in b.pending then 0 else 1
    ensures id in Add(b, e).pending <==> if e.id == id then e.Show? else id in b.pending
    ensures id in Add(b, e).pending ==>
              Add(b, e).pending[id] == if e.id == id then |b.items| else b.pending[id]
  {
    hide Unclaimed;
  }

  /** The book's list of waiting calls is the right one. */
  lemma {:induction false} PendingIsWaiting(es: seq<Entry>, n: nat, id: string)
    requires AllStorable(es) && n <= |es| && id != ""
    ensures |Kept(es, n).items| == Place(es, n)
    ensures id in Kept(es, n).pending <==> Waiting(es, n, id) >= 0
    ensures id in Kept(es, n).pending ==> Kept(es, n).pending[id] == Place(es, Waiting(es, n, id))
  {
    hide Add, Sound, Storable;
    if n > 0 {
      AddPending(Kept(es, n - 1), es[n - 1], id);
      PendingIsWaiting(es, n - 1, id);
      if es[n - 1].id != "" {
        PendingIsWaiting(es, n - 1, es[n - 1].id);
      }
    }
  }

  /** The block of entry i after n entries. */
  predicate Holds(es: seq<Entry>, i: nat, n: nat, c: Content)
    requires i < n <= |es|
  {
    if es[i].Result? then c == Unclaimed(es[i].out)
    else
      && (forall j :: i < j < n && Answers(es, i, j) ==> c == es[i].c.(output := es[j].out))
      && ((forall j :: i < j < n ==> !Answers(es, i, j)) ==> c == es[i].c)
  }

  /** A call is answered once. */
  lemma {:induction false} AnsweredOnce(es: seq<Entry>, i: nat, j: nat, n: nat)
    requires i < j < n <= |es| && Answers(es, i, j)
    ensures Waiting(es, n, es[j].id) != i
    decreases n
  {
    if j + 1 < n {
      AnsweredOnce(es, i, j, n - 1);
    }
  }

  /** Every stored block and every output is in the transcript, in order: a call with the output of the first result
      that comes for its id before the id is used again, a result without a waiting call as a block of its own. */
  lemma {:induction false} HistoryIsComplete(es: seq<Entry>, i: nat, n: nat)
    requires AllStorable(es) && i < n <= |es| && Makes(es, i)
    ensures Place(es, i) < |Kept(es, n).items| == Place(es, n)
    ensures Holds(es, i, n, Kept(es, n).items[Place(es, i)])
    decreases n
  {
    hide Kept, Makes, Place, Sound, Unclaimed, Waiting, AllStorable, Holds;
    if i < n - 1 {
      HistoryIsComplete(es, i, n - 1);
      StillHolds(es, i, n);
    } else {
      OwnBlock(es, i);
    }
    PendingIsWaiting(es, n, "x");
  }

  lemma OwnBlock(es: seq<Entry>, i: nat)
    requires AllStorable(es) && i < |es| && Makes(es, i)
    ensures Place(es, i) < |Kept(es, i + 1).items|
    ensures Holds(es, i, i + 1, Kept(es, i + 1).items[Place(es, i)])
  {
    hide Place, Waiting;
    var e := es[i];
    PendingIsWaiting(es, i, if e.id == "" then "x" else e.id);
  }

  /** What one more entry does to the block at p. */
  lemma AddItem(b: Book, e: Entry, p: nat)
    requires Sound(b) && Storable(e)
    ensures |b.items| <= |Add(b, e).items|
    ensures
      p < |b.items| ==>
        Add(b, e).items[p] ==
        if e.Result? && e.id != "" && e.id in b.pending && b.pending[e.id] == p then b.items[p].(output := e.out)
        else b.items[p]
  {
    hide Unclaimed;
  }

  /** What one more entry does to the block of an earlier one. */
  lemma ItemAfter(es: seq<Entry>, i: nat, n: nat)
    requires AllStorable(es) && i < n - 1 < |es| && Makes(es, i)
    ensures Place(es, i) < Place(es, n - 1) == |Kept(es, n - 1).items| <= |Kept(es, n).items|
    ensures
      var c := Kept(es, n - 1).items[Place(es, i)];
      Kept(es, n).items[Place(es, i)] == if Answers(es, i, n - 1) then c.(output := es[n - 1].out) else c
  {
    hide Waiting, Makes, Place, Add;
    var e := es[n - 1];
    PlaceGrows(es, i, n - 1);
    AddItem(Kept(es, n - 1), e, Place(es, i));
    var id := if e.id == "" then "x" else e.id;
    PendingIsWaiting(es, n - 1, id);
    var k := Waiting(es, n - 1, id);
    if k >= 0 && k != i {
      PlacesDiffer(es, i, k);
    }
  }

  lemma PlacesDiffer(es: seq<Entry>, i: nat, k: nat)
    requires i < |es| && k < |es| && i != k && Makes(es, i) && es[k].Show?
    ensures Place(es, i) != Place(es, k)
  {
    if k < i {
      PlaceGrows(es, k, i);
    } else {
      PlaceGrows(es, i, k);
    }
  }

  lemma StillHolds(es: seq<Entry>, i: nat, n: nat)
    requires AllStorable(es) && i < n - 1 < |es| && Makes(es, i)
    requires Place(es, i) < |Kept(es, n - 1).items|
    requires Holds(es, i, n - 1, Kept(es, n - 1).items[Place(es, i)])
    ensures Place(es, i) < |Kept(es, n).items| && Holds(es, i, n, Kept(es, n).items[Place(es, i)])
  {
    hide Kept, Makes, Place, Sound, Unclaimed, Waiting, AllStorable;
    ItemAfter(es, i, n);
    if Answers(es, i, n - 1) {
      forall j | i < j < n - 1
        ensures !Answers(es, i, j)
      {
        if Answers(es, i, j) {
          SameId(es, i, j, n - 1);
          AnsweredOnce(es, i, j, n - 1);
        }
      }
    }
  }

  lemma SameId(es: seq<Entry>, i: nat, j: nat, k: nat)
    requires j < |es| && k < |es| && Answers(es, i, j) && Answers(es, i, k)
    ensures es[j].id == es[k].id == es[i].id && es[i].Show?
  {
  }

  // ---------------------------------------------------------------- the session's code

  /** Where the k-th of n blocks is in the trimmed list, if it is still there. */
  function Position(n: nat, k: nat): (p: Option<nat>)
    requires k < n
  {
    if n <= MaxBlocks then Some(k) else if k + MaxBlocks > n then Some(k + MaxBlocks - n) else None
  }

  lemma NewestUpdate(items: seq<Content>, k: nat, c: Content)
    requires k < |items|
    ensures
      var p := Position(|items|, k);
      && (p.Some? ==> p.value < |Newest(items)| && Newest(items)[p.value] == items[k])
      && Newest(items[k := c]) == if p.Some? then Newest(items)[p.value := c] else Newest(items)
  {
    hide Marker, Newest;
    NewestUnfolds(items);
    NewestUnfolds(items[k := c]);
    if |items| > MaxBlocks {
      var cut := |items| - (MaxBlocks - 1);
      BelowMark(Marker(cut), items, k, c, cut);
    }
  }

  lemma NewestUnfolds(items: seq<Content>)
    ensures |items| <= MaxBlocks ==> Newest(items) == items
    ensures |items| > MaxBlocks ==>
              var cut := |items| - (MaxBlocks - 1);
              Newest(items) == [Marker(cut)] + items[cut..]
  {
    hide Marker;
  }

  lemma BelowMark<T>(mark: T, items: seq<T>, k: nat, c: T, cut: nat)
    requires k < |items| && cut <= |items|
    ensures k < cut ==> [mark] + items[k := c][cut..] == [mark] + items[cut..]
    ensures k >= cut ==> [mark] + items[k := c][cut..] == ([mark] + items[cut..])[k - cut + 1 := c]
    ensures k >= cut ==> ([mark] + items[cut..])[k - cut + 1] == items[k]
  {
  }

  lemma NoCard(look: Look, c: Content, m: Memo)
    requires m.str == ""
    ensures CardOK(look, c, m)
  {
  }

  lemma StepNewest(items: seq<Content>, c: Content)
    requires (forall i :: 0 <= i < |items| ==> !items[i].kind.Trimmed?) && !c.kind.Trimmed?
    ensures Pushed(Newest(items), c) == Newest(items + [c])
  {
    NewestStep(items, c);
  }

  method ShowBlock(s: Session, c: Content)
    requires s.Valid()
    modifies s`blocks, s`cur, s`cache, s`cacheIdx, s`cacheLines, s`frozen, s`focused, s`nextUid
    ensures s.Valid()
    ensures Contents(s.blocks) == Pushed(old(Contents(s.blocks)), c)
    ensures old(s.CardsInStep()) ==> s.CardsInStep()
  {
    hide Pushed, NewBlock, CardOK, Session.Valid, AllInStep, FrozenInStep, PushedIds;
    var c0 := NewBlock(c.kind, s.thinkExpanded);
    ghost var cs := Contents(s.blocks);
    s.Push(c.kind);
    PushedLast(cs, c0, c);
    NoCard(s.look, c, s.blocks[|s.blocks| - 1].memo);
    assert Contents(s.blocks)[|s.blocks| - 1] == c0;
    s.Amend(c);
  }

  /** An output goes to its block, wherever that is; nothing is seen of it if the block was evicted. */
  method FillOutput(s: Session, made: nat, k: nat, out: string, ghost items: seq<Content>)
    requires s.Valid() && k < made == |items| && Contents(s.blocks) == Newest(items)
    requires items[k].kind.Tool?
    modifies s`blocks, s`cur, s`cache, s`cacheIdx, s`cacheLines, s`frozen, s`focused, s`nextUid
    ensures s.Valid()
    ensures Contents(s.blocks) == Newest(items[k := items[k].(output := out)])
    ensures old(s.CardsInStep()) ==> s.CardsInStep()
  {
    hide Newest, CardOK, AllInStep, FrozenInStep, Cached, Blocks;
    NewestUpdate(items, k, items[k].(output := out));
    var p := Position(made, k);
    if p.Some? {
      assert Contents(s.blocks)[p.value] == items[k];
      var c := s.blocks[p.value].content.(output := out);
      s.ToolsKeepNoCard(p.value, c);
      s.Rewrite(p.value, c, false);
      ghost var cs := s.blocks;
      s.InvalidateAll();
      assert Contents(s.blocks) == Contents(cs);
    }
  }

  lemma {:induction false} CalledStorable(calls: seq<Call>)
    ensures AllStorable(Called(calls))
  {
    if calls != [] {
      CalledStorable(calls[1..]);
    }
  }

  /** Every history can be stored. */
  lemma {:induction false} HistoryStorable(ms: seq<Message>, thinkExpanded: bool, model: string)
    ensures AllStorable(AllEntries(ms, thinkExpanded, model))
  {
    hide AllStorable, Entries;
    if ms != [] {
      HistoryStorable(ms[..|ms| - 1], thinkExpanded, model);
      EntriesStorable(ms[|ms| - 1], thinkExpanded, model);
      StorableConcat(AllEntries(ms[..|ms| - 1], thinkExpanded, model), Entries(ms[|ms| - 1], thinkExpanded, model));
    } else {
      NothingStorable();
    }
  }

  lemma NothingStorable()
    ensures AllStorable([])
  {
  }

  lemma StorableConcat(a: seq<Entry>, b: seq<Entry>)
    requires AllStorable(a) && AllStorable(b)
    ensures AllStorable(a + b)
  {
    hide Storable;
  }

  lemma WrittenStorable(kind: Kind, thinkExpanded: bool, text: Option<string>, model: string)
    requires !kind.Trimmed?
    ensures AllStorable(Written(kind, thinkExpanded, text, model))
  {
  }

  lemma EntriesStorable(m: Message, thinkExpanded: bool, model: string)
    ensures AllStorable(Entries(m, thinkExpanded, model))
  {
    hide Written, Called;
    match m {
      case Asked(text) => WrittenStorable(User, thinkExpanded, text, "");
      case Replied(thought, said, calls) =>
        WrittenStorable(Thinking, thinkExpanded, thought, "");
        WrittenStorable(Assistant, thinkExpanded, said, model);
        CalledStorable(calls);
        hide AllStorable;
        var a, b := Written(Thinking, thinkExpanded, thought, ""), Written(Assistant, thinkExpanded, said, model);
        StorableConcat(a, b);
        StorableConcat(a + b, Called(calls));
      case Output(_, _) =>
    }
  }

  method ApplyEntry(s: Session, made: nat, pending: map<string, nat>, e: Entry, ghost book: Book)
    returns (made': nat, pending': map<string, nat>)
    requires s.Valid() && Sound(book) && Storable(e)
    requires Contents(s.blocks) == Newest(book.items) && made == |book.items| && pending == book.pending
    modifies s`blocks, s`cur, s`cache, s`cacheIdx, s`cacheLines, s`frozen, s`focused, s`nextUid
    ensures s.Valid()
    ensures Contents(s.blocks) == Newest(Add(book, e).items)
    ensures made' == |Add(book, e).items| && pending' == Add(book, e).pending
    ensures old(s.CardsInStep()) ==> s.CardsInStep()
  {
    hide Newest, Pushed, Session.Valid, AllInStep, FrozenInStep;
    made', pending' := made, pending;
    match e {
      case Show(c, id) =>
        StepNewest(book.items, c);
        ShowBlock(s, c);
        if id != "" {
          pending' := pending'[id := made];
        }
        made' := made + 1;
      case Result(id, out) =>
        if id != "" && id in pending {
          FillOutput(s, made, pending[id], out, book.items);
          pending' := pending' - {id};
        } else {
          StepNewest(book.items, Unclaimed(out));
          ShowBlock(s, Unclaimed(out));
          made' := made + 1;
        }
    }
  }

  /** What a loaded reply has as its model: the selected one, or none. */
  function IdOf(model: Option<string>): string {
    if model.None? then "" else model.value
  }

  /** The loaded transcript is what the whole history would show, with all but its newest blocks behind the marker. */
  method RebuildBlocksFromHistory(s: Session, ms: seq<Message>)
    requires s.Valid()
    modifies s`blocks, s`cur, s`cache, s`cacheIdx, s`cacheLines, s`frozen, s`focused, s`nextUid
    ensures s.Valid() && s.CardsInStep() && s.cur == None && s.cacheIdx == 0
    ensures
      var es := AllEntries(ms, s.thinkExpanded, IdOf(s.settings.model));
      AllStorable(es) && Contents(s.blocks) == Newest(Kept(es, |es|).items)
  {
    hide Newest, AllEntries, Add, Storable, Sound, Session.Valid, AllInStep, FrozenInStep;
    var model := IdOf(s.settings.model);
    var es := AllEntries(ms, s.thinkExpanded, model);
    HistoryStorable(ms, s.thinkExpanded, model);
    s.Clear();
    NewestOfNone();
    var made, pending: map<string, nat> := 0, map[];
    for i := 0 to |es|
      invariant s.Valid() && s.CardsInStep() && Contents(s.blocks) == Newest(Kept(es, i).items)
      invariant made == |Kept(es, i).items| && pending == Kept(es, i).pending
    {
      made, pending := ApplyEntry(s, made, pending, es[i], Kept(es, i));
    }
    s.EndStream();
    Refresh(s);
  }

  /** The caller of rebuildBlocksFromHistory drops the cache. */
  method Refresh(s: Session)
    requires s.Valid() && s.cur == None
    modifies s`blocks, s`cache, s`cacheIdx, s`cacheLines, s`frozen
    ensures s.Valid() && s.cur == None && s.cacheIdx == 0 && Contents(s.blocks) == old(Contents(s.blocks))
    ensures old(s.CardsInStep()) ==> s.CardsInStep()
  {
    ghost var bs := s.blocks;
    s.InvalidateAll();
    assert forall i :: 0 <= i < |bs| ==> Contents(s.blocks)[i] == Contents(bs)[i];
  }
}
