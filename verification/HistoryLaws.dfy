/** What a loaded transcript shows of the stored messages: everything that was asked, thought, said and called, in
    order, and every output. */
module HistoryLaws {
  import opened Options
  import opened Transcript
  import opened TranscriptSession
  import opened TranscriptHistory

  /** What a reader of the messages expects to see, one thing after the other. */
  datatype Sight =
    | Question(text: string)
    | Thought(text: string, folded: bool)
    | Reply(text: string, model: string)
    | Use(name: string, args: string, sub: bool, id: string)
    | Came(id: string, out: string)

  /** A text that is too long is cut at 256 KiB, its mark included. */
  function Short(text: string): string {
    if |text| <= 262144 then text else text[..262144 - |"\n…[truncated]"|] + "\n…[truncated]"
  }

  /** Arguments and outputs are cut behind 64 KiB. */
  function Brief(s: string): string {
    if |s| <= 65536 then s else s[..65536] + "\n…[truncated]"
  }

  function Uses(calls: seq<Call>): seq<Sight> {
    if calls == [] then []
    else
      (if calls[0].name == "" then []
       else [Use(calls[0].name, Brief(calls[0].args), calls[0].sub, calls[0].id)]) + Uses(calls[1..])
  }

  function Sights(m: Message, thinkExpanded: bool, model: string): seq<Sight> {
    match m
    case Asked(text) => if text == None then [] else [Question(Short(text.value))]
    case Replied(thought, said, calls) =>
      (if thought == None then [] else [Thought(Short(thought.value), !thinkExpanded)])
      + (if said == None then [] else [Reply(Short(said.value), model)])
      + Uses(calls)
    case Output(id, out) => [Came(id, Brief(out))]
  }

  function AllSights(ms: seq<Message>, thinkExpanded: bool, model: string): seq<Sight> {
    if ms == [] then []
    else AllSights(ms[..|ms| - 1], thinkExpanded, model) + Sights(ms[|ms| - 1], thinkExpanded, model)
  }

  // ---------------------------------------------------------------- the entries are the messages

  /** What a block shows of these; results without a call are left out here. */
  function SightOf(c: Content): Option<Sight> {
    match c.kind
    case User => Some(Question(c.text))
    case Thinking => Some(Thought(c.text, c.collapsed))
    case Assistant => Some(Reply(c.text, c.model))
    case Tool => Some(Use(c.name, c.args, c.sub, c.id))
    case _ => None
  }

  /** An entry stands for this sight: a finished block with nothing else in it, or a result. */
  predicate Means(e: Entry, x: Sight) {
    match e
    case Result(id, out) => x == Came(id, out)
    case Show(c, id) =>
      && SightOf(c) == Some(x)
      && (if c.kind == Tool then id == c.id && c.dur == 1 && !c.timed && c.output == "" else id == "")
  }

  predicate MeanAll(es: seq<Entry>, xs: seq<Sight>) {
    |es| == |xs| && forall i :: 0 <= i < |es| ==> Means(es[i], xs[i])
  }

  lemma MeanConcat(a: seq<Entry>, x: seq<Sight>, b: seq<Entry>, y: seq<Sight>)
    requires MeanAll(a, x) && MeanAll(b, y)
    ensures MeanAll(a + b, x + y)
  {
    hide Means;
  }

  lemma CutsAre(s: string)
    ensures Appended("", s) == Short(s) && CapStored(s) == Brief(s)
  {
    assert "" + s == s;
  }

  lemma {:induction false} CallsMean(calls: seq<Call>)
    ensures MeanAll(Called(calls), Uses(calls))
  {
    if calls != [] {
      CallsMean(calls[1..]);
      if calls[0].name != "" {
        CallMeans(calls[0]);
        hide Means, Brief;
        var e := Show(CallBlock(calls[0]), calls[0].id);
        var x := Use(calls[0].name, Brief(calls[0].args), calls[0].sub, calls[0].id);
        MeanConcat([e], [x], Called(calls[1..]), Uses(calls[1..]));
      } else {
        assert [] + Called(calls[1..]) == Called(calls[1..]);
      }
    }
  }

  lemma CallMeans(k: Call)
    ensures Means(Show(CallBlock(k), k.id), Use(k.name, Brief(k.args), k.sub, k.id))
  {
    CutsAre(k.args);
    hide Brief, CapStored;
  }

  lemma WrittenMeans(kind: Kind, thinkExpanded: bool, text: Option<string>, model: string)
    requires kind.User? || kind.Thinking? || kind.Assistant?
    ensures
      MeanAll(Written(kind, thinkExpanded, text, model),
              if text == None then []
              else if kind.User? then [Question(Short(text.value))]
              else if kind.Thinking? then [Thought(Short(text.value), !thinkExpanded)]
              else [Reply(Short(text.value), model)])
  {
    if text.Some? {
      CutsAre(text.value);
    }
    hide Short, Appended;
  }

  lemma MessageMeans(m: Message, thinkExpanded: bool, model: string)
    ensures MeanAll(Entries(m, thinkExpanded, model), Sights(m, thinkExpanded, model))
  {
    hide Written, Short, Called, Uses, Brief, CapStored;
    match m {
      case Asked(text) => WrittenMeans(User, thinkExpanded, text, "");
      case Replied(thought, said, calls) =>
        hide MeanAll;
        WrittenMeans(Thinking, thinkExpanded, thought, "");
        WrittenMeans(Assistant, thinkExpanded, said, model);
        CallsMean(calls);
        var a := if thought == None then [] else [Thought(Short(thought.value), !thinkExpanded)];
        var b := if said == None then [] else [Reply(Short(said.value), model)];
        MeanConcat(Written(Thinking, thinkExpanded, thought, ""), a, Written(Assistant, thinkExpanded, said, model), b);
        var es := Written(Thinking, thinkExpanded, thought, "") + Written(Assistant, thinkExpanded, said, model);
        MeanConcat(es, a + b, Called(calls), Uses(calls));
      case Output(id, out) => CutsAre(out);
    }
  }

  /** The entries are the messages: one for everything there is to see, in order. */
  lemma {:induction false} EntriesAreMessages(ms: seq<Message>, thinkExpanded: bool, model: string)
    ensures MeanAll(AllEntries(ms, thinkExpanded, model), AllSights(ms, thinkExpanded, model))
  {
    hide MeanAll, Entries, Sights;
    if ms == [] {
      NothingMeans();
    } else {
      EntriesAreMessages(ms[..|ms| - 1], thinkExpanded, model);
      MessageMeans(ms[|ms| - 1], thinkExpanded, model);
      MeanConcat(AllEntries(ms[..|ms| - 1], thinkExpanded, model), AllSights(ms[..|ms| - 1], thinkExpanded, model),
                 Entries(ms[|ms| - 1], thinkExpanded, model), Sights(ms[|ms| - 1], thinkExpanded, model));
    }
  }

  lemma NothingMeans()
    ensures MeanAll([], [])
  {
  }

  // ---------------------------------------------------------------- the blocks are the messages

  /** What the blocks of a transcript show, in order. */
  function Seen(items: seq<Content>): seq<Sight> {
    if items == [] then []
    else
      var x := SightOf(items[|items| - 1]);
      Seen(items[..|items| - 1]) + if x == None then [] else [x.value]
  }

  function WithoutOutputs(xs: seq<Sight>): seq<Sight> {
    if xs == [] then []
    else WithoutOutputs(xs[..|xs| - 1]) + if xs[|xs| - 1].Came? then [] else [xs[|xs| - 1]]
  }

  lemma SeenMore(items: seq<Content>, c: Content)
    ensures Seen(items + [c]) == Seen(items) + if SightOf(c) == None then [] else [SightOf(c).value]
  {
    assert (items + [c])[..|items|] == items;
  }

  lemma {:induction false} SeenUpdate(items: seq<Content>, k: nat, c: Content)
    requires k < |items| && SightOf(c) == SightOf(items[k])
    ensures Seen(items[k := c]) == Seen(items)
    decreases |items|
  {
    hide SightOf;
    var init := items[..|items| - 1];
    if k < |items| - 1 {
      SeenUpdate(init, k, c);
      assert items[k := c][..|items| - 1] == init[k := c];
    } else {
      assert items[k := c][..|items| - 1] == init;
    }
  }

  lemma AddSeen(b: Book, e: Entry, x: Sight)
    requires Sound(b) && Storable(e) && Means(e, x)
    ensures Seen(Add(b, e).items) == Seen(b.items) + if x.Came? then [] else [x]
  {
    hide Seen;
    match e {
      case Show(c, id) => SeenMore(b.items, c);
      case Result(id, out) =>
        if id != "" && id in b.pending {
          var k := b.pending[id];
          SeenUpdate(b.items, k, b.items[k].(output := out));
        } else {
          SeenMore(b.items, Unclaimed(out));
        }
    }
  }

  lemma {:induction false} KeptSeen(es: seq<Entry>, xs: seq<Sight>, n: nat)
    requires AllStorable(es) && MeanAll(es, xs) && n <= |es|
    ensures Seen(Kept(es, n).items) == WithoutOutputs(xs[..n])
  {
    hide Seen, Add, Sound, Storable, Means;
    if n == 0 {
      NothingSeen();
    } else {
      KeptSeen(es, xs, n - 1);
      AddSeen(Kept(es, n - 1), es[n - 1], xs[n - 1]);
      assert xs[..n][..n - 1] == xs[..n - 1];
    }
  }

  lemma NothingSeen()
    ensures Seen([]) == []
  {
  }

  /** Without the limit on blocks a loaded transcript shows, in order, what was asked, thought, said and called in the
      messages, each with its text, model, name, arguments, nesting and id, and nothing else but outputs. */
  lemma MessagesAreShown(ms: seq<Message>, thinkExpanded: bool, model: string)
    ensures
      var es := AllEntries(ms, thinkExpanded, model);
      AllStorable(es) && Seen(Kept(es, |es|).items) == WithoutOutputs(AllSights(ms, thinkExpanded, model))
  {
    hide AllEntries, AllSights, Seen, WithoutOutputs, AllStorable, Kept;
    var es, xs := AllEntries(ms, thinkExpanded, model), AllSights(ms, thinkExpanded, model);
    HistoryStorable(ms, thinkExpanded, model);
    EntriesAreMessages(ms, thinkExpanded, model);
    KeptSeen(es, xs, |es|);
    assert xs[..|es|] == xs;
  }

  /** Every output is on the block of a call with its id, or on a block of its own. */
  predicate Carries(c: Content, id: string, out: string) {
    c.output == out && (c.kind == ToolResult || (c.kind == Tool && c.id == id && id != ""))
  }

  lemma OutputIsKept(es: seq<Entry>, xs: seq<Sight>, j: nat)
    requires AllStorable(es) && MeanAll(es, xs) && j < |es| && es[j].Result?
    ensures exists p :: 0 <= p < |Kept(es, |es|).items| && Carries(Kept(es, |es|).items[p], es[j].id, es[j].out)
  {
    hide Kept, Place, Waiting, AllStorable, Unclaimed;
    var items := Kept(es, |es|).items;
    if Makes(es, j) {
      HistoryIsComplete(es, j, |es|);
      UnclaimedIs(es[j].out);
      assert Carries(items[Place(es, j)], es[j].id, es[j].out);
    } else {
      var i := Waiting(es, j, es[j].id);
      assert Answers(es, i, j) && es[i].Show?;
      HistoryIsComplete(es, i, |es|);
      StorableAt(es, i);
      assert Means(es[i], xs[i]);
      assert Carries(items[Place(es, i)], es[j].id, es[j].out);
    }
  }

  lemma StorableAt(es: seq<Entry>, i: nat)
    requires AllStorable(es) && i < |es|
    ensures es[i].Show? && es[i].id != "" ==> es[i].c.kind.Tool?
  {
  }

  lemma UnclaimedIs(out: string)
    ensures Unclaimed(out).kind == ToolResult && Unclaimed(out).output == out
  {
  }

  lemma OutputsAreShown(ms: seq<Message>, thinkExpanded: bool, model: string, k: nat)
    requires k < |ms| && ms[k].Output?
    ensures
      var es := AllEntries(ms, thinkExpanded, model);
      && AllStorable(es)
      && exists p :: 0 <= p < |Kept(es, |es|).items| && Carries(Kept(es, |es|).items[p], ms[k].id, Brief(ms[k].out))
  {
    hide AllEntries, AllSights, AllStorable, Kept, Brief, Carries, Means;
    var es, xs := AllEntries(ms, thinkExpanded, model), AllSights(ms, thinkExpanded, model);
    HistoryStorable(ms, thinkExpanded, model);
    EntriesAreMessages(ms, thinkExpanded, model);
    var j := OutputAt(ms, thinkExpanded, model, k);
    assert Means(es[j], xs[j]);
    CameMeans(es[j], ms[k].id, Brief(ms[k].out));
    OutputIsKept(es, xs, j);
  }

  lemma CameMeans(e: Entry, id: string, out: string)
    requires Means(e, Came(id, out))
    ensures e == Result(id, out)
  {
    hide SightOf;
    match e {
      case Show(c, _) => NotCame(c);
      case Result(_, _) =>
    }
  }

  lemma NotCame(c: Content)
    ensures SightOf(c).Some? ==> !SightOf(c).value.Came?
  {
  }

  /** Where an output is among the sights. */
  lemma {:induction false} OutputAt(ms: seq<Message>, thinkExpanded: bool, model: string, k: nat) returns (j: nat)
    requires k < |ms| && ms[k].Output?
    ensures j < |AllSights(ms, thinkExpanded, model)|
    ensures AllSights(ms, thinkExpanded, model)[j] == Came(ms[k].id, Brief(ms[k].out))
    decreases |ms|
  {
    hide Sights, Brief;
    var init := ms[..|ms| - 1];
    if k < |ms| - 1 {
      j := OutputAt(init, thinkExpanded, model, k);
    } else {
      j := |AllSights(init, thinkExpanded, model)|;
      OutputSight(ms[k], thinkExpanded, model);
    }
  }

  lemma OutputSight(m: Message, thinkExpanded: bool, model: string)
    requires m.Output?
    ensures Sights(m, thinkExpanded, model) == [Came(m.id, Brief(m.out))]
  {
  }
}
