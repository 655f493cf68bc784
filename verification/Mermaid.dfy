/** Mermaid fences become plain fences under a caption (tui/markdown_polish.go). A text is the list of its lines. */
module Mermaid {

  const TICKS := "```"

  /** White space as strings.TrimSpace knows it. */
  predicate Space(c: char) {
    || c == ' ' || '\t' <= c <= '\r' || c == '\U{85}' || c == '\U{A0}' || c == '\U{1680}'
    || '\U{2000}' <= c <= '\U{200A}'
    || c == '\U{2028}' || c == '\U{2029}' || c == '\U{202F}' || c == '\U{205F}' || c == '\U{3000}'
  }

  function TrimLeft(s: string): string {
    if s != [] && Space(s[0]) then TrimLeft(s[1..]) else s
  }

  function TrimRight(s: string): string {
    if s != [] && Space(s[|s| - 1]) then TrimRight(s[..|s| - 1]) else s
  }

  function Trim(s: string): string {
    TrimRight(TrimLeft(s))
  }

  /** Up to the first blank or tab. */
  function FirstWord(s: string): string {
    if s == [] || s[0] == ' ' || s[0] == '\t' then [] else [s[0]] + FirstWord(s[1..])
  }

  function Lower(s: string): string {
    if s == [] then []
    else [if 'A' <= s[0] <= 'Z' then ((s[0] as int) + 32) as char else s[0]] + Lower(s[1..])
  }

  /** isMermaidFence, on a trimmed line. */
  predicate Opens(trimmed: string) {
    TICKS <= trimmed && Lower(FirstWord(Trim(trimmed[3..]))) == "mermaid"
  }

  predicate Closes(line: string) {
    TICKS <= Trim(line)
  }

  function Digits(n: nat): string {
    if n < 10 then [('0' as int + n) as char] else Digits(n / 10) + [('0' as int + n % 10) as char]
  }

  function Caption(n: nat): string {
    "> \U{2592} Mermaid diagram \U{B7} " + Digits(n) + " line" + if n == 1 then "" else "s"
  }

  /** The lines of the diagram: up to a line that closes the fence, or all. */
  function BodyLen(lines: seq<string>): (n: nat)
    ensures n <= |lines|
    ensures n < |lines| ==> Closes(lines[n])
    ensures forall k :: 0 <= k < n ==> !Closes(lines[k])
  {
    if lines == [] || Closes(lines[0]) then 0 else 1 + BodyLen(lines[1..])
  }

  function Framed(body: seq<string>): seq<string> {
    [Caption(|body|), "", "```text"] + body + ["```"]
  }

  function Transformed(lines: seq<string>): seq<string>
    decreases |lines|
  {
    if lines == [] then []
    else if Opens(Trim(lines[0])) then
      var n := BodyLen(lines[1..]);
      var next := if n < |lines| - 1 then n + 2 else n + 1;
      Framed(lines[1..1 + n]) + Transformed(lines[next..])
    else [lines[0]] + Transformed(lines[1..])
  }

  method IsMermaidFence(trimmed: string) returns (yes: bool)
    ensures yes == Opens(trimmed)
  {
    if !(TICKS <= trimmed) {
      return false;
    }
    var info := Trim(trimmed[3..]);
    if info == "" {
      return false;
    }
    var lang := info;
    var idx := 0;
    while idx < |info| && info[idx] != ' ' && info[idx] != '\t'
      invariant 0 <= idx <= |info|
      invariant FirstWord(info) == info[..idx] + FirstWord(info[idx..])
    {
      assert info[idx..][1..] == info[idx + 1..];
      idx := idx + 1;
    }
    lang := info[..idx];
    assert FirstWord(info[idx..]) == [] && info[..idx] + [] == info[..idx];
    return Lower(lang) == "mermaid";
  }

  method ReadBody(lines: seq<string>, start: nat) returns (body: seq<string>, i: nat)
    requires start <= |lines|
    ensures |body| == BodyLen(lines[start..]) && i == start + |body| && body == lines[start..][..|body|]
  {
    hide Closes;
    i := start;
    body := [];
    while i < |lines| && !Closes(lines[i])
      invariant start <= i <= |lines| && |body| == i - start
      invariant body == lines[start..][..i - start]
      invariant BodyLen(lines[start..]) == i - start + BodyLen(lines[i..])
    {
      assert lines[i..][1..] == lines[i + 1..];
      body := body + [lines[i]];
      i := i + 1;
    }
  }

  lemma FenceStep(lines: seq<string>, i: nat)
    requires i < |lines| && Opens(Trim(lines[i]))
    ensures
      var n := BodyLen(lines[i + 1..]);
      var next := if i + 1 + n < |lines| then i + n + 2 else i + n + 1;
      Transformed(lines[i..]) == Framed(lines[i + 1..][..n]) + Transformed(lines[next..])
  {
    hide Opens, Trim, Framed, BodyLen;
    var rest := lines[i..];
    assert rest[1..] == lines[i + 1..];
    var n := BodyLen(rest[1..]);
    assert rest[1..1 + n] == lines[i + 1..][..n];
    var next := if n < |rest| - 1 then n + 2 else n + 1;
    assert rest[next..] == lines[i + next..];
  }

  lemma LineStep(lines: seq<string>, i: nat)
    requires i < |lines| && !Opens(Trim(lines[i]))
    ensures Transformed(lines[i..]) == [lines[i]] + Transformed(lines[i + 1..])
  {
    assert lines[i..][1..] == lines[i + 1..];
  }

  method TransformMermaidBlocks(lines: seq<string>) returns (out: seq<string>)
    ensures out == Transformed(lines)
  {
    hide Opens, Trim, BodyLen, Transformed;
    assert lines[0..] == lines;
    out := [];
    var i := 0;
    while i < |lines|
      invariant 0 <= i <= |lines|
      invariant out + Transformed(lines[i..]) == Transformed(lines)
    {
      var fence := IsMermaidFence(Trim(lines[i]));
      if fence {
        FenceStep(lines, i);
        var body;
        body, i := ReadBody(lines, i + 1);
        out := out + Framed(body);
        if i < |lines| {
          i := i + 1;
        }
      } else {
        LineStep(lines, i);
        out := out + [lines[i]];
        i := i + 1;
      }
    }
    NothingTransformed();
    assert lines[i..] == [] && out + [] == out;
  }

  lemma NothingTransformed()
    ensures Transformed([]) == []
  {
  }

  // ---------------------------------------------------------------- what comes out

  predicate NoneOpens(lines: seq<string>) {
    forall k :: 0 <= k < |lines| ==> !Opens(Trim(lines[k]))
  }

  lemma {:induction false} TrimRightKeepsFirst(s: string)
    requires s != [] && !Space(s[0])
    ensures TrimRight(s) != [] && TrimRight(s)[0] == s[0]
    decreases |s|
  {
    if Space(s[|s| - 1]) {
      TrimRightKeepsFirst(s[..|s| - 1]);
    }
  }

  lemma FrameStaysShut(n: nat)
    ensures !Opens(Trim(Caption(n))) && !Opens(Trim("")) && !Opens(Trim("```text")) && !Opens(Trim("```"))
  {
    TrimRightKeepsFirst(Caption(n));
    assert Trim("```text") == "```text";
    assert "```text"[3..] == "text";
    assert FirstWord("text") == "text" by {
      assert "text"[1..] == "ext" && "ext"[1..] == "xt" && "xt"[1..] == "t" && "t"[1..] == "";
    }
    assert Lower("text")[0] == 't';
    assert "```"[3..] == "";
  }

  lemma TrimOnce(s: string)
    ensures Opens(Trim(s)) ==> Closes(s)
  {
  }

  /** No fence of the result is a mermaid fence. */
  lemma {:induction false} NoMermaidLeft(lines: seq<string>)
    ensures NoneOpens(Transformed(lines))
    decreases |lines|
  {
    hide Opens, Trim, Closes, Caption, BodyLen;
    if lines == [] {
    } else if Opens(Trim(lines[0])) {
      var n := BodyLen(lines[1..]);
      NoMermaidLeft(lines[if n < |lines| - 1 then n + 2 else n + 1..]);
      BodyStaysShut(lines[1..]);
      assert lines[1..1 + n] == lines[1..][..n];
    } else {
      NoMermaidLeft(lines[1..]);
    }
  }

  lemma BodyStaysShut(lines: seq<string>)
    ensures NoneOpens(Framed(lines[..BodyLen(lines)]))
  {
    hide Opens, Trim, Closes, Caption, BodyLen;
    var n := BodyLen(lines);
    FrameStaysShut(n);
    forall k | 0 <= k < n
      ensures !Opens(Trim(lines[k]))
    {
      TrimOnce(lines[k]);
    }
  }

  lemma {:induction false} OthersUntouched(lines: seq<string>)
    ensures Transformed(lines) == lines <==> NoneOpens(lines)
    decreases |lines|
  {
    NoMermaidLeft(lines);
    if lines != [] && NoneOpens(lines) {
      assert NoneOpens(lines[1..]);
      OthersUntouched(lines[1..]);
    }
  }

  /** The transformation is its own repetition. */
  lemma TransformedOnce(lines: seq<string>)
    ensures Transformed(Transformed(lines)) == Transformed(lines)
  {
    NoMermaidLeft(lines);
    OthersUntouched(Transformed(lines));
  }

  // ---------------------------------------------------------------- a text with a diagram

  /** The white space that counts at the ends of a line. */
  const WHITE: set<char> := {
    ' ', '\t', '\n', '\U{b}', '\U{c}', '\r', '\U{85}', '\U{A0}', '\U{1680}', '\U{2000}', '\U{2001}', '\U{2002}',
    '\U{2003}', '\U{2004}', '\U{2005}', '\U{2006}', '\U{2007}', '\U{2008}', '\U{2009}', '\U{200A}', '\U{2028}',
    '\U{2029}', '\U{202F}', '\U{205F}', '\U{3000}'}

  lemma SpaceIsWhite(c: char)
    ensures Space(c) <==> c in WHITE
  {
  }

  /** `core` is `s` without the white space at its ends. */
  ghost predicate Stripped(s: string, core: string) {
    && (core != "" ==> core[0] !in WHITE && core[|core| - 1] !in WHITE)
    && exists a: string, b: string ::
         && s == a + core + b
         && (forall k :: 0 <= k < |a| ==> a[k] in WHITE) && (forall k :: 0 <= k < |b| ==> b[k] in WHITE)
  }

  lemma {:induction false} LeftTrimmed(s: string) returns (a: string)
    ensures s == a + TrimLeft(s) && forall k :: 0 <= k < |a| ==> a[k] in WHITE
    ensures TrimLeft(s) != "" ==> TrimLeft(s)[0] !in WHITE
  {
    a := "";
    if s != [] {
      SpaceIsWhite(s[0]);
      hide Space;
      if Space(s[0]) {
        var rest := LeftTrimmed(s[1..]);
        a := [s[0]] + rest;
      }
    }
  }

  lemma {:induction false} RightTrimmed(s: string) returns (b: string)
    ensures s == TrimRight(s) + b && forall k :: 0 <= k < |b| ==> b[k] in WHITE
    ensures TrimRight(s) != "" ==> TrimRight(s)[|TrimRight(s)| - 1] !in WHITE
  {
    b := "";
    if s != [] {
      SpaceIsWhite(s[|s| - 1]);
      hide Space;
      if Space(s[|s| - 1]) {
        var rest := RightTrimmed(s[..|s| - 1]);
        b := rest + [s[|s| - 1]];
      }
    }
  }

  lemma TrimStrips(s: string)
    ensures Stripped(s, Trim(s))
  {
    var a := LeftTrimmed(s);
    var b := RightTrimmed(TrimLeft(s));
    hide TrimLeft, TrimRight;
    assert TrimLeft(s) == Trim(s) + b;
    assert s == a + Trim(s) + b;
    assert Trim(s) != "" ==> TrimLeft(s)[0] == Trim(s)[0];
  }

  /** The letters of a mermaid fence, in any mixture of cases. */
  predicate SaysMermaid(word: string) {
    |word| == 7 && forall k :: 0 <= k < 7 ==> word[k] in {"mermaid"[k], "MERMAID"[k]}
  }

  lemma {:induction false} LowerAt(s: string)
    ensures |Lower(s)| == |s|
    ensures forall k :: 0 <= k < |s| ==>
              Lower(s)[k] == if 'A' <= s[k] <= 'Z' then ((s[k] as int) + 32) as char else s[k]
  {
    if s != [] {
      LowerAt(s[1..]);
    }
  }

  lemma LowerSays(s: string)
    ensures Lower(s) == "mermaid" <==> SaysMermaid(s)
  {
    LowerAt(s);
    hide Lower;
    if |s| == 7 {
      assert "MERMAID" == ['M', 'E', 'R', 'M', 'A', 'I', 'D'];
      assert SaysMermaid(s) <==> forall k :: 0 <= k < 7 ==> Lower(s)[k] == "mermaid"[k] by {
        forall k | 0 <= k < 7
          ensures s[k] in {"mermaid"[k], "MERMAID"[k]} <==> Lower(s)[k] == "mermaid"[k]
        {
          OneLetter(s[k], "mermaid"[k], "MERMAID"[k]);
        }
      }
    }
  }

  lemma OneLetter(c: char, small: char, big: char)
    requires 'a' <= small <= 'z' && big as int == small as int - 32
    ensures c in {small, big} <==> (if 'A' <= c <= 'Z' then ((c as int) + 32) as char else c) == small
  {
  }

  lemma {:induction false} FirstWordIs(s: string)
    ensures FirstWord(s) <= s && forall k :: 0 <= k < |FirstWord(s)| ==> s[k] != ' ' && s[k] != '\t'
    ensures |FirstWord(s)| < |s| ==> s[|FirstWord(s)|] in {' ', '\t'}
  {
    if s != [] && s[0] != ' ' && s[0] != '\t' {
      FirstWordIs(s[1..]);
    }
  }

  /** A line opens a diagram when, without the white space around it, it is three ticks and, behind more white space,
      the word "mermaid", alone or before a blank or tab. */
  ghost predicate OpensDiagram(line: string) {
    exists core: string, info: string ::
      && Stripped(line, core) && core[..if |core| < 3 then |core| else 3] == "```"
      && Stripped(core[3..], info) && |info| >= 7 && SaysMermaid(info[..7])
      && (|info| > 7 ==> info[7] in {' ', '\t'})
  }

  lemma FenceOpens(line: string)
    requires Opens(Trim(line))
    ensures OpensDiagram(line)
  {
    hide Lower, FirstWord, Trim, Stripped;
    var core := Trim(line);
    var info := Trim(core[3..]);
    TrimStrips(line);
    TrimStrips(core[3..]);
    LowerSays(FirstWord(info));
    FirstWordIs(info);
    assert info[..7] == FirstWord(info);
  }

  lemma StrippedOnce(s: string, core: string, core': string)
    requires Stripped(s, core) && Stripped(s, core')
    ensures core == core'
  {
    var a: string, b: string :| s == a + core + b
      && (forall k :: 0 <= k < |a| ==> a[k] in WHITE) && (forall k :: 0 <= k < |b| ==> b[k] in WHITE);
    var a': string, b': string :| s == a' + core' + b'
      && (forall k :: 0 <= k < |a'| ==> a'[k] in WHITE) && (forall k :: 0 <= k < |b'| ==> b'[k] in WHITE);
    if core == "" {
      WhiteHasNoCore(a, core, b, a', core', b');
    } else if core' == "" {
      WhiteHasNoCore(a', core', b', a, core, b);
    } else {
      SameStart(s, a, core + b, a', core' + b');
      assert core + b == s[|a|..] && core' + b' == s[|a'|..];
      SameEnd(core + b, core, b, core', b');
    }
  }

  lemma WhiteHasNoCore(a: string, core: string, b: string, a': string, core': string, b': string)
    requires a + core + b == a' + core' + b' && core == ""
    requires (forall k :: 0 <= k < |a| ==> a[k] in WHITE) && (forall k :: 0 <= k < |b| ==> b[k] in WHITE)
    ensures forall k :: 0 <= k < |core'| ==> core'[k] in WHITE
  {
    var s := a + core + b;
    assert forall k :: 0 <= k < |s| ==> s[k] in WHITE;
    forall k | 0 <= k < |core'|
      ensures core'[k] in WHITE
    {
      assert s[|a'| + k] == core'[k];
    }
  }

  lemma SameStart(s: string, a: string, x: string, a': string, x': string)
    requires s == a + x == a' + x' && x != "" && x' != "" && x[0] !in WHITE && x'[0] !in WHITE
    requires (forall k :: 0 <= k < |a| ==> a[k] in WHITE) && (forall k :: 0 <= k < |a'| ==> a'[k] in WHITE)
    ensures |a| == |a'|
  {
    assert s[|a|] == x[0] && s[|a'|] == x'[0];
  }

  lemma SameEnd(s: string, x: string, b: string, x': string, b': string)
    requires s == x + b == x' + b' && x != "" && x' != "" && x[|x| - 1] !in WHITE && x'[|x'| - 1] !in WHITE
    requires (forall k :: 0 <= k < |b| ==> b[k] in WHITE) && (forall k :: 0 <= k < |b'| ==> b'[k] in WHITE)
    ensures x == x'
  {
    assert s[|x| - 1] == x[|x| - 1] && s[|x'| - 1] == x'[|x'| - 1];
    assert x == s[..|x|] && x' == s[..|x'|];
  }

  lemma {:induction false} FirstWordEnds(s: string, n: nat)
    requires n <= |s| && (forall k :: 0 <= k < n ==> s[k] != ' ' && s[k] != '\t') && (n < |s| ==> s[n] in {' ', '\t'})
    ensures FirstWord(s) == s[..n]
  {
    if n > 0 {
      FirstWordEnds(s[1..], n - 1);
      assert s[..n] == [s[0]] + s[1..][..n - 1];
    }
  }

  lemma WordOpens(info: string)
    requires |info| >= 7 && SaysMermaid(info[..7]) && (|info| > 7 ==> info[7] in {' ', '\t'})
    ensures Lower(FirstWord(info)) == "mermaid"
  {
    hide Lower, FirstWord;
    forall k | 0 <= k < 7
      ensures info[k] != ' ' && info[k] != '\t'
    {
      assert info[..7][k] == info[k] && info[k] in {"mermaid"[k], "MERMAID"[k]};
    }
    FirstWordEnds(info, 7);
    LowerSays(info[..7]);
  }

  /** A fence is taken for a mermaid fence exactly when it is one. */
  lemma FenceExact(line: string)
    ensures Opens(Trim(line)) <==> OpensDiagram(line)
  {
    hide OpensDiagram, Opens, Trim;
    if Opens(Trim(line)) {
      FenceOpens(line);
    }
    if OpensDiagram(line) {
      DiagramOpens(line);
    }
  }

  lemma DiagramOpens(line: string)
    requires OpensDiagram(line)
    ensures Opens(Trim(line))
  {
    hide Lower, FirstWord, Trim, Stripped, SaysMermaid;
    var core: string, info: string :|
      && Stripped(line, core) && core[..if |core| < 3 then |core| else 3] == "```"
      && Stripped(core[3..], info) && |info| >= 7 && SaysMermaid(info[..7])
      && (|info| > 7 ==> info[7] in {' ', '\t'});
    TrimIs(line, core);
    TrimIs(core[3..], info);
    WordOpens(info);
  }

  lemma TrimIs(s: string, core: string)
    requires Stripped(s, core)
    ensures Trim(s) == core
  {
    hide Trim, Stripped;
    TrimStrips(s);
    StrippedOnce(s, core, Trim(s));
  }

  /** A line that, without the white space around it, begins with three ticks. */
  ghost predicate HasTicks(line: string) {
    exists core: string :: Stripped(line, core) && |core| >= 3 && core[..3] == "```"
  }

  lemma TicksClose(line: string)
    ensures Closes(line) <==> HasTicks(line)
  {
    hide Trim, Stripped;
    TrimStrips(line);
    if HasTicks(line) {
      var core: string :| Stripped(line, core) && |core| >= 3 && core[..3] == "```";
      StrippedOnce(line, core, Trim(line));
    } else {
      assert !(|Trim(line)| >= 3 && Trim(line)[..3] == "```");
    }
  }

  /** The number that a string of digits stands for. */
  function Number(s: string): nat {
    if s == [] || s[|s| - 1] < '0' then 0 else 10 * Number(s[..|s| - 1]) + (s[|s| - 1] as int - '0' as int)
  }

  lemma {:induction false} DigitsAre(n: nat)
    ensures Number(Digits(n)) == n && Digits(n) != [] && (n > 0 ==> Digits(n)[0] != '0')
    ensures forall k :: 0 <= k < |Digits(n)| ==> '0' <= Digits(n)[k] <= '9'
  {
    if n >= 10 {
      DigitsAre(n / 10);
      var d := Digits(n);
      assert d[..|d| - 1] == Digits(n / 10);
    } else {
      assert Digits(n)[..0] == [];
    }
  }

  lemma {:induction false} BodyIs(body: seq<string>, rest: seq<string>)
    requires (forall k :: 0 <= k < |body| ==> !Closes(body[k])) && (rest != [] ==> Closes(rest[0]))
    ensures BodyLen(body + rest) == |body|
    decreases |body|
  {
    hide Closes;
    if body != [] {
      assert (body + rest)[1..] == body[1..] + rest;
      BodyIs(body[1..], rest);
    } else {
      assert body + rest == rest;
    }
  }

  lemma {:induction false} OthersFirst(above: seq<string>, rest: seq<string>)
    requires NoneOpens(above)
    ensures Transformed(above + rest) == above + Transformed(rest)
    decreases |above|
  {
    hide Opens, Trim, BodyLen;
    if above == [] {
      assert above + rest == rest;
    } else {
      assert (above + rest)[1..] == above[1..] + rest && (above + rest)[0] == above[0];
      OthersFirst(above[1..], rest);
      assert above + Transformed(rest) == [above[0]] + (above[1..] + Transformed(rest));
    }
  }

  /** The first diagram of a text, from the line that opens it down to the next line with ticks or to the end, stands
      in a plain fence below an empty line and a caption that counts its lines; the lines above it, its own lines and
      what is below it are all there. `close` has the line with ticks, if there is one. */
  lemma DiagramIsFramed(above: seq<string>, open: string, body: seq<string>, close: seq<string>, below: seq<string>)
    requires (forall k :: 0 <= k < |above| ==> !OpensDiagram(above[k])) && OpensDiagram(open)
    requires (forall k :: 0 <= k < |body| ==> !HasTicks(body[k]))
    requires (|close| == 1 && HasTicks(close[0])) || (close == [] && below == [])
    ensures exists count: string ::
              && Number(count) == |body| && count != "" && (body != [] ==> count[0] != '0')
              && (forall k :: 0 <= k < |count| ==> '0' <= count[k] <= '9')
              && Transformed(above + [open] + body + close + below) ==
                 above + ["> ▒ Mermaid diagram · " + count + (if |body| == 1 then " line" else " lines"), "", "```text"]
                 + body + ["```"] + Transformed(below)
  {
    hide Opens, Trim, Closes, OpensDiagram, HasTicks, Transformed, BodyLen, Digits, Number;
    forall k | 0 <= k < |above|
      ensures !Opens(Trim(above[k]))
    {
      FenceExact(above[k]);
    }
    FenceExact(open);
    forall k | 0 <= k < |body|
      ensures !Closes(body[k])
    {
      TicksClose(body[k]);
    }
    if close != [] {
      TicksClose(close[0]);
    }
    var rest := [open] + body + close + below;
    OthersFirst(above, rest);
    assert above + [open] + body + close + below == above + rest;
    DiagramStep(open, body, close, below);
    DigitsAre(|body|);
    CaptionIs(|body|);
    var text := Transformed(below);
    assert above + (Framed(body) + text) == above + [Caption(|body|), "", "```text"] + body + ["```"] + text;
  }

  lemma CaptionIs(n: nat)
    ensures Caption(n) == "> ▒ Mermaid diagram · " + Digits(n) + (if n == 1 then " line" else " lines")
  {
    hide Digits;
    assert "> \U{2592} Mermaid diagram \U{B7} " == "> ▒ Mermaid diagram · ";
  }

  lemma DiagramStep(open: string, body: seq<string>, close: seq<string>, below: seq<string>)
    requires Opens(Trim(open)) && (forall k :: 0 <= k < |body| ==> !Closes(body[k]))
    requires (|close| == 1 && Closes(close[0])) || (close == [] && below == [])
    ensures Transformed([open] + body + close + below) == Framed(body) + Transformed(below)
  {
    hide Opens, Trim, Closes, BodyLen, Framed;
    var lines := [open] + body + close + below;
    assert lines[1..] == body + (close + below);
    BodyIs(body, close + below);
    assert lines[1..1 + |body|] == body;
    if close == [] {
      assert lines[|body| + 1..] == below;
    } else {
      assert lines[|body| + 2..] == below;
    }
  }
}
