/** The printer of LaTeX fragments (tui/markdown_polish.go). */
module MathPrinter {

  /** The tables of tui/markdown_polish_tables.go. */
  datatype Tables = Tables(
    greek: map<string, string>, ops: map<string, string>, blackboard: map<string, string>,
    super: map<char, char>, sub: map<char, char>)

  const SLASH := "\U{2044}"
  const RADICAL := "\U{221A}"

  /** The commands that mathCommand itself knows are not in the symbol tables, which it asks first. */
  ghost predicate Ordinary(t: Tables) {
    forall name :: Known(name) ==> name !in t.greek && name !in t.ops
  }

  /** The commands that are followed by arguments. */
  predicate ArgumentName(name: string) {
    name in {"frac", "sqrt", "mathrm", "text", "mathbf", "mathit", "mathcal", "operatorname", "mathbb"}
  }

  predicate Known(name: string) {
    name == "frac" || name == "sqrt" || name == "mathbb" || Verbatim(name)
  }

  predicate Letter(c: char) {
    'a' <= c <= 'z' || 'A' <= c <= 'Z'
  }

  // ---------------------------------------------------------------- what is read

  function Rest(s: string, n: nat): (r: string)
    ensures n <= |s| ==> r == s[n..]
    ensures n >= |s| ==> r == []
  {
    if n <= |s| then s[n..] else []
  }

  function NameLen(s: string): (n: nat)
    ensures n <= |s|
  {
    if s != [] && Letter(s[0]) then 1 + NameLen(s[1..]) else 0
  }

  function Deeper(c: char, depth: nat): nat
    requires depth > 0
  {
    if c == '{' then depth + 1 else if c == '}' then depth - 1 else depth
  }

  /** The characters before the brace that closes the group, or all of them. */
  function CloseAt(s: string, depth: nat): (n: nat)
    requires depth > 0
    ensures n <= |s|
  {
    if s == [] || Deeper(s[0], depth) == 0 then 0 else 1 + CloseAt(s[1..], Deeper(s[0], depth))
  }

  /** A braced group or a single character, and how far reading it goes: one past the end for a group that is never
      closed. */
  function Group(s: string): (r: (string, nat))
    ensures |r.0| <= |s| && r.1 <= |s| + 1
    ensures s == [] ==> r == ("", 0)
  {
    if s == [] then ("", 0)
    else if s[0] == '{' then
      var n := CloseAt(s[1..], 1);
      (s[1..1 + n], n + 2)
    else ([s[0]], 1)
  }

  function IndexLen(s: string): (n: nat)
    ensures n <= |s|
  {
    if s == [] || s[0] == ']' then 0 else 1 + IndexLen(s[1..])
  }

  /** The token after `^` or `_`. */
  function ScriptToken(s: string): (r: (string, nat))
    ensures |r.0| <= |s| && r.1 <= |s| + 1
    ensures s == [] ==> r == ("", 0)
  {
    if s == [] then ("", 0)
    else if s[0] == '{' then Group(s)
    else if s[0] == '\\' then (s[..1 + NameLen(s[1..])], 1 + NameLen(s[1..]))
    else ([s[0]], 1)
  }

  // ---------------------------------------------------------------- what is written

  function Scripted(m: map<char, char>, s: string): string {
    if s == [] then [] else [if s[0] in m then m[s[0]] else s[0]] + Scripted(m, s[1..])
  }

  predicate Verbatim(name: string) {
    name in ["mathrm", "text", "mathbf", "mathit", "mathcal", "operatorname"]
  }

  function ControlSymbol(s: string): (r: (string, nat))
    ensures 1 <= r.1 <= |s| + 1
  {
    if s == [] then ("", 1)
    else if s[0] in ",:;!" then ("", 2)
    else if s[0] in " \t" then (" ", 2)
    else ([s[0]], 2)
  }

  /** A command without arguments, by its name. */
  function Word(t: Tables, name: string): string {
    if name in t.greek then t.greek[name]
    else if name in t.ops then t.ops[name]
    else if name == "left" || name == "right" then ""
    else if name == "quad" then "  "
    else if name == "qquad" then "    "
    else name
  }

  predicate TakesArgument(t: Tables, name: string) {
    && name !in t.greek && name !in t.ops
    && (name == "frac" || name == "sqrt" || Verbatim(name) || name == "mathbb")
  }

  function Fraction(t: Tables, s: string): (r: (string, nat))
    ensures r.1 <= |s| + 1
    decreases |s|, 3
  {
    var (a, n) := Group(s);
    var (c, m) := Group(Rest(s, n));
    (Pretty(t, a) + SLASH + Pretty(t, c), n + m)
  }

  function Radicand(t: Tables, s: string): string
    decreases |s|, 3
  {
    RADICAL + if |s| > 1 then "(" + Pretty(t, s) + ")" else Pretty(t, s)
  }

  function Root(t: Tables, s: string): (r: (string, nat))
    ensures r.1 <= |s| + 1
    decreases |s|, 4
  {
    var k := if s != [] && s[0] == '[' then IndexLen(s[1..]) + 2 else 0;
    var index := if k > 0 then Scripted(t.super, s[1..k - 1]) else "";
    var (body, n) := Group(Rest(s, k));
    (index + Radicand(t, body), k + n)
  }

  /** A command with arguments, which start at s. */
  function Argued(t: Tables, name: string, s: string): (r: (string, nat))
    ensures r.1 <= |s| + 1
    decreases |s|, 5
  {
    if name == "frac" then Fraction(t, s)
    else if name == "sqrt" then Root(t, s)
    else
      var (body, k) := Group(s);
      (if name == "mathbb" && body in t.blackboard then t.blackboard[body] else body, k)
  }

  /** What a command writes, and how far it reads, the backslash included. */
  function Command(t: Tables, s: string): (r: (string, nat))
    requires s != [] && s[0] == '\\'
    ensures 1 <= r.1 <= |s| + 1
    decreases |s|, 0
  {
    var n := NameLen(s[1..]);
    var name := s[1..1 + n];
    var rest := s[1 + n..];
    if n == 0 then ControlSymbol(rest)
    else if !TakesArgument(t, name) then (Word(t, name), 1 + n)
    else var (out, k) := Argued(t, name, rest); (out, 1 + n + k)
  }

  function Token(t: Tables, s: string): (r: (string, nat))
    requires s != []
    ensures 1 <= r.1 <= |s| + 1
    decreases |s|, 1
  {
    match s[0]
    case '\\' => Command(t, s)
    case '^' => var (tok, n) := ScriptToken(s[1..]); (Scripted(t.super, Pretty(t, tok)), 1 + n)
    case '_' => var (tok, n) := ScriptToken(s[1..]); (Scripted(t.sub, Pretty(t, tok)), 1 + n)
    case '{' => ("", 1)
    case '}' => ("", 1)
    case c => ([c], 1)
  }

  function Pretty(t: Tables, s: string): string
    decreases |s|, 2
  {
    if s == [] then "" else Token(t, s).0 + Pretty(t, Rest(s, Token(t, s).1))
  }

  // ---------------------------------------------------------------- the program

  /** The brace counter of readGroup, from behind the opening brace. */
  method FindClose(r: string, i: nat) returns (j: nat)
    requires i <= |r|
    ensures j == i + CloseAt(r[i..], 1) && j <= |r|
  {
    var depth := 1;
    j := i;
    while j < |r| && depth > 0
      invariant i <= j <= |r|
      invariant depth > 0 ==> CloseAt(r[i..], 1) == j - i + CloseAt(r[j..], depth)
      invariant depth == 0 ==> CloseAt(r[i..], 1) == j - i
      decreases |r| - j, depth
    {
      assert r[j..][1..] == r[j + 1..];
      if r[j] == '{' {
        depth := depth + 1;
      } else if r[j] == '}' {
        depth := depth - 1;
      }
      if depth > 0 {
        j := j + 1;
      }
    }
  }

  method ReadGroup(r: string, i: nat) returns (body: string, next: nat)
    ensures (body, next - i) == Group(Rest(r, i)) && next >= i
    ensures i < |r| ==> i < next <= |r| + 1 && |body| <= |r| - i
  {
    hide CloseAt;
    if i >= |r| {
      return "", i;
    }
    if r[i] == '{' {
      var j := FindClose(r, i + 1);
      assert r[i..][1..] == r[i + 1..];
      assert r[i..][1..1 + (j - (i + 1))] == r[i + 1..j];
      return r[i + 1..j], j + 1;
    }
    return [r[i]], i + 1;
  }

  method NameEnd(r: string, i: nat) returns (j: nat)
    requires i <= |r|
    ensures j == i + NameLen(r[i..]) && j <= |r|
  {
    j := i;
    while j < |r| && Letter(r[j])
      invariant i <= j <= |r|
      invariant i + NameLen(r[i..]) == j + NameLen(r[j..])
    {
      assert r[j..][1..] == r[j + 1..];
      j := j + 1;
    }
  }

  /** toSuperscript and toSubscript. */
  method ToScript(m: map<char, char>, s: string) returns (out: string)
    ensures out == Scripted(m, s)
  {
    out := "";
    var i := 0;
    while i < |s|
      invariant 0 <= i <= |s|
      invariant out + Scripted(m, s[i..]) == Scripted(m, s)
    {
      assert s[i..][1..] == s[i + 1..];
      out := out + [if s[i] in m then m[s[i]] else s[i]];
      i := i + 1;
    }
  }

  lemma PrettyStep(t: Tables, r: string, i: nat)
    requires i < |r|
    ensures Pretty(t, Rest(r, i)) == Token(t, r[i..]).0 + Pretty(t, Rest(r, i + Token(t, r[i..]).1))
  {
    hide Token;
    assert Rest(r[i..], Token(t, r[i..]).1) == Rest(r, i + Token(t, r[i..]).1);
  }

  /** The switch of prettyMath. */
  method WriteToken(t: Tables, b: string, r: string, i: nat) returns (out: string, next: nat)
    requires i < |r|
    ensures (out, next) == (b + Token(t, r[i..]).0, i + Token(t, r[i..]).1)
    decreases |r|, 3
  {
    hide Pretty, Command, ScriptToken, Scripted;
    assert r[i..][1..] == r[i + 1..] && b + "" == b;
    match r[i] {
      case '\\' => out, next := MathCommand(t, b, r, i);
      case '^' => out, next := WriteScript(t, b, r, i + 1, t.super);
      case '_' => out, next := WriteScript(t, b, r, i + 1, t.sub);
      case '{' => out, next := b, i + 1;
      case '}' => out, next := b, i + 1;
      case c => out, next := b + [c], i + 1;
    }
  }

  method PrettyMath(t: Tables, r: string) returns (b: string)
    ensures b == Pretty(t, r)
    decreases |r|, 4
  {
    hide Pretty, Token, Rest;
    b := "";
    var i := 0;
    while i < |r|
      invariant 0 <= i <= |r| + 1
      invariant b + Pretty(t, Rest(r, i)) == Pretty(t, r)
    {
      PrettyStep(t, r, i);
      b, i := WriteToken(t, b, r, i);
    }
    PrettyOfNothing(t);
  }

  lemma PrettyOfNothing(t: Tables)
    ensures Pretty(t, "") == ""
  {
  }

  method WriteFraction(t: Tables, b: string, r: string, i: nat) returns (out: string, next: nat)
    requires 0 < i <= |r|
    ensures (out, next) == (b + Fraction(t, r[i..]).0, i + Fraction(t, r[i..]).1)
    decreases |r|, 0
  {
    hide Pretty, Group;
    var a, ni := ReadGroup(r, i);
    var c, nj := ReadGroup(r, ni);
    assert Rest(r, ni) == Rest(r[i..], ni - i);
    var num := PrettyMath(t, a);
    var den := PrettyMath(t, c);
    out := b + num + SLASH + den;
    next := nj;
    assert out == b + (num + SLASH + den);
  }

  /** The optional `[n]` of a root: where it starts, where it stops, and where to go on. */
  method ReadIndex(r: string, i: nat) returns (index: string, k: nat)
    requires i < |r| && r[i] == '['
    ensures k == i + IndexLen(r[i..][1..]) + 2 && index == r[i..][1..k - i - 1]
  {
    var end := i + 1;
    assert r[i..][1..] == r[i + 1..];
    while end < |r| && r[end] != ']'
      invariant i + 1 <= end <= |r|
      invariant IndexLen(r[i + 1..]) == end - (i + 1) + IndexLen(r[end..])
    {
      assert r[end..][1..] == r[end + 1..];
      end := end + 1;
    }
    assert r[i..][1..end - i] == r[i + 1..end];
    return r[i + 1..end], end + 1;
  }

  method WriteRoot(t: Tables, b: string, r: string, i: nat) returns (out: string, next: nat)
    requires 0 < i <= |r|
    ensures (out, next) == (b + Root(t, r[i..]).0, i + Root(t, r[i..]).1)
    decreases |r|, 0
  {
    hide Pretty, Group, Scripted, IndexLen;
    var power := "";
    var k := i;
    if k < |r| && r[k] == '[' {
      var index;
      index, k := ReadIndex(r, i);
      power := ToScript(t.super, index);
    }
    var body, ni := ReadGroup(r, k);
    assert Rest(r, k) == Rest(r[i..], k - i);
    var inner := PrettyMath(t, body);
    if |body| > 1 {
      inner := "(" + inner + ")";
    }
    inner := RADICAL + inner;
    out := b + (power + inner);
    next := ni;
  }

  method WriteControlSymbol(b: string, r: string, j: nat) returns (out: string, next: nat)
    requires 0 < j <= |r|
    ensures (out, next) == (b + ControlSymbol(r[j..]).0, j - 1 + ControlSymbol(r[j..]).1)
  {
    assert b + "" == b;
    if j >= |r| {
      return b, j;
    }
    match r[j] {
      case ',' | ':' | ';' | '!' => return b, j + 1;
      case ' ' | '\t' => return b + " ", j + 1;
      case c => return b + [c], j + 1;
    }
  }

  /** A command whose name has been read. */
  method WriteCommand(t: Tables, b: string, r: string, j: nat, name: string) returns (out: string, next: nat)
    requires 0 < j <= |r|
    ensures
      (out, next) ==
      if TakesArgument(t, name) then (b + Argued(t, name, r[j..]).0, j + Argued(t, name, r[j..]).1)
      else (b + Word(t, name), j)
    decreases |r|, 1
  {
    hide Fraction, Root, Group;
    if name in t.greek {
      return b + t.greek[name], j;
    }
    if name in t.ops {
      return b + t.ops[name], j;
    }
    if name == "frac" {
      out, next := WriteFraction(t, b, r, j);
    } else if name == "sqrt" {
      out, next := WriteRoot(t, b, r, j);
    } else if Verbatim(name) {
      var body, ni := ReadGroup(r, j);
      return b + body, ni;
    } else if name == "mathbb" {
      var body, ni := ReadGroup(r, j);
      return b + (if body in t.blackboard then t.blackboard[body] else body), ni;
    } else {
      return b + Word(t, name), j;
    }
  }

  method MathCommand(t: Tables, b: string, r: string, i: nat) returns (out: string, next: nat)
    requires i < |r| && r[i] == '\\'
    ensures (out, next) == (b + Command(t, r[i..]).0, i + Command(t, r[i..]).1)
    decreases |r|, 2
  {
    hide Argued, TakesArgument, Word, ControlSymbol, NameLen;
    var j := NameEnd(r, i + 1);
    assert r[i..][1..] == r[i + 1..];
    var name := r[i + 1..j];
    assert r[i..][1..1 + (j - (i + 1))] == name;
    assert r[i..][1 + (j - (i + 1))..] == r[j..];
    if name == "" {
      out, next := WriteControlSymbol(b, r, j);
    } else {
      out, next := WriteCommand(t, b, r, j, name);
    }
  }

  method WriteScript(t: Tables, b: string, r: string, i: nat, m: map<char, char>) returns (out: string, next: nat)
    requires 0 < i <= |r|
    ensures
      var (tok, n) := ScriptToken(r[i..]);
      out == b + Scripted(m, Pretty(t, tok)) && next == i + n
    decreases |r|, 1
  {
    hide Pretty, Scripted, CloseAt;
    var tok := "";
    next := i;
    if i < |r| && r[i] == '{' {
      tok, next := ReadGroup(r, i);
    } else if i < |r| && r[i] == '\\' {
      var j := NameEnd(r, i + 1);
      assert r[i..][1..] == r[i + 1..];
      assert r[i..][..j - i] == r[i..j];
      tok := r[i..j];
      next := j;
    } else if i < |r| {
      tok := [r[i]];
      next := i + 1;
    }
    var p := PrettyMath(t, tok);
    var s := ToScript(m, p);
    out := b + s;
  }

  // ---------------------------------------------------------------- groups

  /** The depth after reading s, starting inside `depth` groups; 0 once the outermost of them is closed. */
  function Scan(s: string, depth: nat): nat {
    if depth == 0 || s == [] then depth else Scan(s[1..], Deeper(s[0], depth))
  }

  /** Text that opens and closes its own groups. */
  predicate Balanced(s: string) {
    Scan(s, 1) == 1
  }

  lemma {:induction false} ScanConcat(a: string, b: string, depth: nat)
    ensures Scan(a + b, depth) == Scan(b, Scan(a, depth))
    decreases |a|
  {
    if a == [] || depth == 0 {
      assert a == [] ==> a + b == b;
    } else {
      assert (a + b)[1..] == a[1..] + b;
      ScanConcat(a[1..], b, Deeper(a[0], depth));
    }
  }

  /** Text that is balanced in one group is so in any. */
  lemma {:induction false} ScanShift(s: string, depth: nat, more: nat)
    requires Scan(s, depth) > 0
    ensures Scan(s, depth + more) == Scan(s, depth) + more
    decreases |s|
  {
    if s != [] {
      ScanShift(s[1..], Deeper(s[0], depth), more);
    }
  }

  lemma {:induction false} CloseAtScans(s: string, rest: string, depth: nat)
    requires depth > 0
    ensures Scan(s, depth) > 0 ==> CloseAt(s + rest, depth) == |s| + CloseAt(rest, Scan(s, depth))
    ensures Scan(s, depth) == 0 ==> CloseAt(s + rest, depth) < |s|
    decreases |s|
  {
    if s == [] {
      assert s + rest == rest;
    } else {
      assert (s + rest)[1..] == s[1..] + rest;
      if Deeper(s[0], depth) > 0 {
        CloseAtScans(s[1..], rest, Deeper(s[0], depth));
      }
    }
  }

  /** A group comes back as it was written exactly when its text is balanced. */
  lemma GroupComesBack(s: string, rest: string)
    ensures Group("{" + s + "}" + rest) == (s, |s| + 2) <==> Balanced(s)
  {
    var all := "{" + s + "}" + rest;
    assert all[1..] == s + ("}" + rest);
    CloseAtScans(s, "}" + rest, 1);
    if Scan(s, 1) == 1 {
      assert CloseAt("}" + rest, 1) == 0;
      assert all[1..1 + |s|] == s;
    }
  }

  /** Without its closing brace a group is all the rest of the text, and reading goes one past the end. */
  lemma OpenGroupTakesAll(s: string)
    requires Scan(s, 1) > 0
    ensures Group("{" + s) == (s, |s| + 2)
  {
    hide CloseAt, Scan;
    CloseAtScans(s, "", 1);
    assert s + "" == s;
    assert ("{" + s)[1..] == s;
    assert ("{" + s)[1..1 + |s|] == s;
  }

  // ---------------------------------------------------------------- formulas

  /** An argument: a group, or a single character. */
  datatype Arg = Grouped(items: seq<Item>) | Lone(c: char)

  /** What a fragment is made of. */
  datatype Item =
    | Plain(c: char)
    | Named(name: string)
    | Quotient(above: Arg, below: Arg)
    | Radical(under: Arg)
    | Power(index: string, under: Arg)
    | Script(up: bool, arg: Arg)
    | RaisedName(up: bool, name: string)
    | Braced(body: seq<Item>)
    | Text(command: string, raw: string, braced: bool)
    | Control(c: char)

  predicate Special(c: char) {
    c == '\\' || c == '^' || c == '_' || c == '{' || c == '}'
  }

  predicate Alpha(c: char) {
    'a' <= c <= 'z' || 'A' <= c <= 'Z'
  }

  predicate Nameable(t: Tables, name: string) {
    && name != "" && (forall k :: 0 <= k < |name| ==> Alpha(name[k]))
    && (name in t.greek || name in t.ops || !ArgumentName(name))
  }

  /** A name ends here. */
  predicate Stops(next: string) {
    next == "" || !Alpha(next[0])
  }

  /** The argument can follow a name without becoming part of it. */
  predicate Follows(a: Arg) {
    a.Lone? ==> !Alpha(a.c)
  }

  lemma NameableIs(t: Tables, name: string)
    requires Nameable(t, name)
    ensures name != "" && NameLen(name) == |name| && !TakesArgument(t, name)
  {
    ArgumentNamesAre(name);
    hide ArgumentName, Verbatim;
    NameIsLetters(name);
  }

  lemma StopsIs(next: string)
    ensures Stops(next) <==> next == "" || !Letter(next[0])
  {
  }

  lemma ArgumentNamesAre(name: string)
    ensures Known(name) <==> ArgumentName(name)
    ensures Verbatim(name) || name == "mathbb" <==> ArgumentName(name) && name != "frac" && name != "sqrt"
  {
  }

  /** A script, character by character: the one of the table if it has one, the character itself otherwise. */
  function Shifted(m: map<char, char>, s: string): (r: string)
    ensures |r| == |s|
    ensures forall i :: 0 <= i < |s| ==> r[i] == if s[i] in m then m[s[i]] else s[i]
  {
    seq(|s|, i requires 0 <= i < |s| => if s[i] in m then m[s[i]] else s[i])
  }

  lemma {:induction false} ScriptedIs(m: map<char, char>, s: string)
    ensures Scripted(m, s) == Shifted(m, s)
  {
    if s != [] {
      ScriptedIs(m, s[1..]);
      assert Shifted(m, s) == [Shifted(m, s)[0]] + Shifted(m, s[1..]);
    }
  }

  /** What a name stands for: a letter, an operator, nothing, blanks, or itself. */
  function Symbol(t: Tables, name: string): (r: string)
    ensures name in t.greek ==> r == t.greek[name]
    ensures name !in t.greek && name in t.ops ==> r == t.ops[name]
    ensures name !in t.greek && name !in t.ops && name in {"left", "right"} ==> r == ""
    ensures name !in t.greek && name !in t.ops && name == "quad" ==> r == "  "
    ensures name !in t.greek && name !in t.ops && name == "qquad" ==> r == "    "
    ensures name !in t.greek && name !in t.ops && name !in {"left", "right", "quad", "qquad"} ==> r == name
  {
    if name in t.greek then t.greek[name]
    else if name in t.ops then t.ops[name]
    else if name in {"left", "right"} then ""
    else if name == "quad" then "  "
    else if name == "qquad" then "    "
    else name
  }

  lemma WordIs(t: Tables, name: string)
    ensures Word(t, name) == Symbol(t, name)
  {
  }

  /** An item, and the text `next` that follows it: the only thing asked of that is not to go on a name. */
  predicate Fine(t: Tables, x: Item, next: string)
    decreases x
  {
    match x
    case Plain(c) => !Special(c)
    case Named(name) => Nameable(t, name) && Stops(next)
    case Quotient(above, below) => Follows(above) && ArgFine(t, above) && ArgFine(t, below)
    case Radical(under) => Follows(under) && under != Lone('[') && ArgFine(t, under)
    case Power(index, under) => IndexLen(index) == |index| && Balanced(index) && ArgFine(t, under)
    case Script(_, arg) => ArgFine(t, arg)
    case RaisedName(_, name) => Nameable(t, name) && Stops(next)
    case Braced(body) => AllFine(t, body, "}")
    case Text(command, raw, braced) =>
      && ArgumentName(command) && command != "frac" && command != "sqrt"
      && if braced then Balanced(raw) else |raw| == 1 && !Alpha(raw[0]) && raw[0] != '{' && raw[0] != '}'
    case Control(c) => !Alpha(c) && c != '{' && c != '}'
  }

  predicate ArgFine(t: Tables, a: Arg)
    decreases a
  {
    match a
    case Grouped(items) => AllFine(t, items, "")
    case Lone(c) => !Special(c)
  }

  predicate AllFine(t: Tables, xs: seq<Item>, next: string)
    decreases xs
  {
    xs != [] ==> Fine(t, xs[0], Sources(xs[1..]) + next) && AllFine(t, xs[1..], next)
  }

  function Braces(s: string): string {
    "{" + s + "}"
  }

  function Mark(up: bool): string {
    if up then "^" else "_"
  }

  /** The item as LaTeX. */
  function Source(x: Item): string
    decreases x
  {
    match x
    case Plain(c) => [c]
    case Named(name) => "\\" + name
    case Quotient(above, below) => "\\frac" + ArgSource(above) + ArgSource(below)
    case Radical(under) => "\\sqrt" + ArgSource(under)
    case Power(index, under) => "\\sqrt[" + index + "]" + ArgSource(under)
    case Script(up, arg) => Mark(up) + ArgSource(arg)
    case RaisedName(up, name) => Mark(up) + "\\" + name
    case Braced(body) => Braces(Sources(body))
    case Text(command, raw, braced) => "\\" + command + if braced then Braces(raw) else raw
    case Control(c) => ['\\', c]
  }

  function ArgSource(a: Arg): string
    decreases a
  {
    match a
    case Grouped(items) => Braces(Sources(items))
    case Lone(c) => [c]
  }

  function Sources(xs: seq<Item>): string
    decreases xs
  {
    if xs == [] then "" else Source(xs[0]) + Sources(xs[1..])
  }

  /** What readGroup makes of the argument. */
  function ArgBody(a: Arg): string {
    match a
    case Grouped(items) => Sources(items)
    case Lone(c) => [c]
  }

  /** A radicand of one character needs no parentheses. */
  predicate Single(a: Arg) {
    a.Lone? || a.items == [] || (|a.items| == 1 && a.items[0].Plain?)
  }

  /** The item as it is to be read. */
  function Meaning(t: Tables, x: Item): string
    decreases x
  {
    match x
    case Plain(c) => [c]
    case Named(name) => Symbol(t, name)
    case Quotient(above, below) => ArgMeaning(t, above) + "\U{2044}" + ArgMeaning(t, below)
    case Radical(under) =>
      "\U{221A}" + (if Single(under) then ArgMeaning(t, under) else "(" + ArgMeaning(t, under) + ")")
    case Power(index, under) =>
      Shifted(t.super, index)
      + "\U{221A}" + (if Single(under) then ArgMeaning(t, under) else "(" + ArgMeaning(t, under) + ")")
    case Script(up, arg) => Shifted(if up then t.super else t.sub, ArgMeaning(t, arg))
    case RaisedName(up, name) => Shifted(if up then t.super else t.sub, Symbol(t, name))
    case Braced(body) => Meanings(t, body)
    case Text(command, raw, _) => if command == "mathbb" && raw in t.blackboard then t.blackboard[raw] else raw
    case Control(c) => if c in ",:;!" then "" else if c in " \t" then " " else [c]
  }

  function ArgMeaning(t: Tables, a: Arg): string
    decreases a
  {
    match a
    case Grouped(items) => Meanings(t, items)
    case Lone(c) => [c]
  }

  function Marks(t: Tables, up: bool): map<char, char> {
    if up then t.super else t.sub
  }

  function Meanings(t: Tables, xs: seq<Item>): string
    decreases xs
  {
    if xs == [] then "" else Meaning(t, xs[0]) + Meanings(t, xs[1..])
  }

  // ---------------------------------------------------------------- formulas are balanced

  lemma {:induction false} NameIsLetters(name: string)
    ensures NameLen(name) == |name| <==> forall k :: 0 <= k < |name| ==> Letter(name[k])
    decreases |name|
  {
    if name != [] {
      NameIsLetters(name[1..]);
      assert forall k :: 0 < k < |name| ==> name[k] == name[1..][k - 1];
    }
  }

  lemma NameBalanced(before: string, name: string, depth: nat)
    requires depth > 0 && NameLen(name) == |name| && '{' !in before && '}' !in before
    ensures Scan(before + name, depth) == depth
  {
    hide Scan, NameLen;
    NameIsLetters(name);
    var s := before + name;
    assert forall k :: |before| <= k < |s| ==> s[k] == name[k - |before|];
    BalancedName(s, depth);
  }

  lemma TextBalanced(command: string, raw: string, braced: bool, depth: nat)
    requires Known(command) && depth > 0
    requires if braced then Balanced(raw) else '{' !in raw && '}' !in raw
    ensures Scan("\\" + command + (if braced then Braces(raw) else raw), depth) == depth
  {
    hide Scan, Known, NameLen;
    ArgumentNames(command);
    NameIsLetters(command);
    NameBalanced("\\", command, depth);
    if braced {
      ScanShift(raw, 1, depth);
      BracesBalanced("\\" + command, raw, depth);
    } else {
      BalancedName(raw, depth);
      ScanConcat("\\" + command, raw, depth);
    }
  }

  lemma {:induction false} ArgBalanced(t: Tables, before: string, a: Arg, depth: nat)
    requires ArgFine(t, a) && depth > 0 && Scan(before, depth) == depth
    ensures Scan(before + ArgSource(a), depth) == depth
    decreases a, 2
  {
    hide Scan;
    match a {
      case Grouped(items) =>
        SourcesBalanced(t, items, "", depth + 1);
        BracesBalanced(before, Sources(items), depth);
      case Lone(c) =>
        BalancedPlain([c], depth);
        ScanConcat(before, [c], depth);
    }
  }

  lemma {:induction false} SourceBalanced(t: Tables, x: Item, next: string, depth: nat)
    requires Fine(t, x, next) && depth > 0
    ensures Scan(Source(x), depth) == depth
    decreases x, 1
  {
    hide Scan, NameLen;
    match x {
      case Plain(c) => BalancedPlain([c], depth);
      case Named(name) =>
        NameableIs(t, name);
        NameBalanced("\\", name, depth);
      case Quotient(above, below) =>
        BalancedName("\\frac", depth);
        ArgBalanced(t, "\\frac", above, depth);
        ArgBalanced(t, "\\frac" + ArgSource(above), below, depth);
      case Radical(under) =>
        BalancedName("\\sqrt", depth);
        ArgBalanced(t, "\\sqrt", under, depth);
      case Power(index, under) =>
        IndexBalanced(index, depth);
        ArgBalanced(t, "\\sqrt[" + index + "]", under, depth);
      case Script(up, arg) =>
        BalancedPlain(Mark(up), depth);
        ArgBalanced(t, Mark(up), arg, depth);
      case RaisedName(up, name) =>
        NameableIs(t, name);
        NameBalanced(Mark(up) + "\\", name, depth);
      case Braced(body) =>
        SourcesBalanced(t, body, "}", depth + 1);
        BalancedName("", depth);
        BracesBalanced("", Sources(body), depth);
        assert "" + Braces(Sources(body)) == Braces(Sources(body));
      case Text(command, raw, braced) => TextBalanced(command, raw, braced, depth);
      case Control(c) => BalancedName(['\\', c], depth);
    }
  }

  lemma IndexBalanced(index: string, depth: nat)
    requires depth > 0 && Balanced(index)
    ensures Scan("\\sqrt[" + index + "]", depth) == depth
  {
    BalancedName("\\sqrt[", depth);
    ScanShift(index, 1, depth - 1);
    ScanConcat("\\sqrt[", index, depth);
    BalancedPlain("]", depth);
    ScanConcat("\\sqrt[" + index, "]", depth);
  }

  lemma BalancedPlain(s: string, depth: nat)
    requires |s| == 1 && s[0] != '{' && s[0] != '}' && depth > 0
    ensures Scan(s, depth) == depth
  {
    assert s[1..] == "";
  }

  lemma {:induction false} BalancedName(s: string, depth: nat)
    requires '{' !in s && '}' !in s && depth > 0
    ensures Scan(s, depth) == depth
    decreases |s|
  {
    if s != [] {
      BalancedName(s[1..], depth);
    }
  }

  lemma BracesBalanced(before: string, s: string, depth: nat)
    requires depth > 0 && Scan(before, depth) == depth && Scan(s, depth + 1) == depth + 1
    ensures Scan(before + Braces(s), depth) == depth
  {
    hide Scan;
    ScanConcat(before, Braces(s), depth);
    ScanConcat("{" + s, "}", depth);
    ScanConcat("{", s, depth);
    ScanOne('{', depth);
    ScanOne('}', depth + 1);
    assert "{" + s + "}" == Braces(s);
  }

  lemma ScanOne(c: char, depth: nat)
    requires depth > 0
    ensures Scan([c], depth) == Deeper(c, depth)
  {
    assert [c][1..] == "";
  }

  lemma {:induction false} SourcesBalanced(t: Tables, xs: seq<Item>, next: string, depth: nat)
    requires AllFine(t, xs, next) && depth > 0
    ensures Scan(Sources(xs), depth) == depth
    decreases xs, 0
  {
    hide Scan, Fine;
    if xs == [] {
      BalancedName("", depth);
    } else {
      SourceBalanced(t, xs[0], Sources(xs[1..]) + next, depth);
      SourcesBalanced(t, xs[1..], next, depth);
      ScanConcat(Source(xs[0]), Sources(xs[1..]), depth);
    }
  }

  lemma SourceLength(t: Tables, x: Item, next: string)
    requires Fine(t, x, next)
    ensures |Source(x)| > 0 && (|Source(x)| == 1 <==> x.Plain?)
  {
    hide NameLen, IndexLen, Scan;
    if x.Script? {
      assert |ArgSource(x.arg)| > 0;
    }
  }

  lemma SingleIsShort(t: Tables, a: Arg)
    requires ArgFine(t, a)
    ensures |ArgBody(a)| > 1 <==> !Single(a)
  {
    hide Fine, Source;
    if a.Grouped? && a.items != [] {
      var xs := a.items;
      SourceLength(t, xs[0], Sources(xs[1..]) + "");
      assert Sources(xs) == Source(xs[0]) + Sources(xs[1..]);
      if |xs| > 1 {
        assert AllFine(t, xs[1..], "");
        SourceLength(t, xs[1], Sources(xs[1..][1..]) + "");
        assert Sources(xs[1..]) == Source(xs[1]) + Sources(xs[1..][1..]);
      }
    }
  }

  // ---------------------------------------------------------------- formulas are printed

  lemma {:induction false} NameStops(name: string, rest: string)
    requires NameLen(name) == |name| && (rest == [] || !Letter(rest[0]))
    ensures NameLen(name + rest) == |name|
    decreases |name|
  {
    if name == [] {
      assert name + rest == rest;
    } else {
      assert (name + rest)[1..] == name[1..] + rest;
      NameStops(name[1..], rest);
    }
  }

  /** A command as it is read: its name, and what follows the name. */
  lemma CommandRead(name: string, rest: string)
    requires NameLen(name) == |name| && (rest == [] || !Letter(rest[0]))
    ensures
      var s := "\\" + name + rest;
      && NameLen(s[1..]) == |name| && s[1..1 + |name|] == name && s[1 + |name|..] == rest
  {
    hide NameLen, Letter;
    var s := "\\" + name + rest;
    assert s[1..] == name + rest;
    NameStops(name, rest);
    assert s[1..1 + |name|] == s[1..][..|name|] == name;
    assert s[1 + |name|..] == s[1..][|name|..] == rest;
  }

  lemma BraceDropped(t: Tables, s: string)
    requires s != [] && (s[0] == '{' || s[0] == '}')
    ensures Pretty(t, s) == Pretty(t, s[1..])
  {
  }

  /** A name without arguments is printed as its word, whatever follows that is not a letter. */
  lemma NamedPrints(t: Tables, name: string, rest: string)
    requires Nameable(t, name) && Stops(rest)
    ensures Pretty(t, "\\" + name + rest) == Word(t, name) + Pretty(t, rest)
  {
    hide NameLen, TakesArgument, Word, ControlSymbol, Argued, Nameable;
    var s := "\\" + name + rest;
    NameableIs(t, name);
    CommandRead(name, rest);
    assert Command(t, s) == (Word(t, name), 1 + |name|);
    assert Token(t, s) == Command(t, s);
    assert Rest(s, 1 + |name|) == rest;
  }

  lemma GroupsRead(t: Tables, s: string, rest: string)
    requires Balanced(s)
    ensures Group(Braces(s) + rest) == (s, |s| + 2) && Rest(Braces(s) + rest, |s| + 2) == rest
  {
    GroupComesBack(s, rest);
  }

  /** `src` is how an argument is written that reads as `body`. */
  predicate Written(src: string, body: string) {
    (src == Braces(body) && Balanced(body)) || (src == body && |body| == 1 && body[0] != '{')
  }

  lemma WrittenReads(t: Tables, src: string, body: string, rest: string)
    requires Written(src, body)
    ensures Group(src + rest) == (body, |src|) && Rest(src + rest, |src|) == rest && src != ""
  {
    if src == Braces(body) && Balanced(body) {
      GroupsRead(t, body, rest);
    } else {
      assert src == [body[0]] && (src + rest)[0] == body[0];
    }
  }

  lemma ArgWritten(t: Tables, a: Arg)
    requires ArgFine(t, a)
    ensures Written(ArgSource(a), ArgBody(a))
    ensures Follows(a) ==> !Letter(ArgSource(a)[0])
  {
    hide Scan;
    match a {
      case Grouped(items) => SourcesBalanced(t, items, "", 1);
      case Lone(c) =>
    }
  }

  lemma CommandIs(t: Tables, name: string, after: string)
    requires TakesArgument(t, name) && (after == [] || !Letter(after[0]))
    requires name != "" && NameLen(name) == |name|
    ensures
      var (out, n) := Argued(t, name, after);
      Command(t, "\\" + name + after) == (out, 1 + |name| + n)
  {
    hide Argued, NameLen, TakesArgument, Word, ControlSymbol, Pretty;
    CommandRead(name, after);
  }

  lemma CommandPrints(t: Tables, name: string, after: string)
    requires TakesArgument(t, name) && (after == [] || !Letter(after[0]))
    requires name != "" && forall k :: 0 <= k < |name| ==> Letter(name[k])
    ensures
      var (out, n) := Argued(t, name, after);
      Pretty(t, "\\" + name + after) == out + Pretty(t, Rest(after, n))
  {
    hide Argued, NameLen, TakesArgument, Command, Letter;
    var s := "\\" + name + after;
    NameIsLetters(name);
    CommandIs(t, name, after);
    var n := Argued(t, name, after).1;
    assert s[1 + |name|..] == after;
    assert Rest(s, 1 + |name| + n) == Rest(after, n);
    assert Token(t, s) == Command(t, s);
  }

  lemma QuotientPrints(t: Tables, src1: string, a: string, src2: string, c: string, rest: string)
    requires Ordinary(t) && Written(src1, a) && Written(src2, c) && src1 != "" && !Letter(src1[0])
    ensures Pretty(t, "\\frac" + src1 + src2 + rest) == Pretty(t, a) + SLASH + Pretty(t, c) + Pretty(t, rest)
  {
    hide Group, Pretty, Written;
    var after := src1 + (src2 + rest);
    assert Known("frac");
    CommandPrints(t, "frac", after);
    WrittenReads(t, src1, a, src2 + rest);
    WrittenReads(t, src2, c, rest);
    assert Rest(after, |src1| + |src2|) == rest;
    assert "\\" + "frac" + after == "\\frac" + src1 + src2 + rest;
  }

  lemma RadicalPrints(t: Tables, src: string, a: string, rest: string)
    requires Ordinary(t) && Written(src, a) && src != "" && !Letter(src[0]) && src[0] != '['
    ensures Pretty(t, "\\sqrt" + src + rest) == Radicand(t, a) + Pretty(t, rest)
  {
    hide Group, Pretty, Written, Radicand;
    var after := src + rest;
    assert Known("sqrt");
    CommandPrints(t, "sqrt", after);
    WrittenReads(t, src, a, rest);
    assert after[0] == src[0];
    assert "" + Radicand(t, a) == Radicand(t, a);
    assert Root(t, after) == (Radicand(t, a), |src|);
    assert "\\" + "sqrt" + after == "\\sqrt" + src + rest;
  }

  lemma {:induction false} IndexStops(index: string, rest: string)
    requires IndexLen(index) == |index|
    ensures IndexLen(index + "]" + rest) == |index|
    decreases |index|
  {
    if index == [] {
      assert index + "]" + rest == "]" + rest;
    } else {
      assert (index + "]" + rest)[1..] == index[1..] + "]" + rest;
      IndexStops(index[1..], rest);
    }
  }

  lemma Parts(a: string, b: string, c: string)
    ensures (a + b + c)[|a|..|a| + |b|] == b && (a + b + c)[|a|..] == b + c
  {
  }

  lemma IndexRead(index: string, inner: string)
    requires IndexLen(index) == |index|
    ensures
      var after := "[" + index + "]" + inner;
      && IndexLen(after[1..]) == |index| && after[1..1 + |index|] == index && Rest(after, |index| + 2) == inner
  {
    hide IndexLen;
    var after := "[" + index + "]" + inner;
    IndexStops(index, inner);
    assert after == "[" + index + ("]" + inner);
    Parts("[", index, "]" + inner);
    assert index + ("]" + inner) == index + "]" + inner;
    Parts("[" + index + "]", inner, "");
  }

  lemma PowerRead(t: Tables, index: string, inner: string)
    requires IndexLen(index) == |index|
    ensures
      var (body, n) := Group(inner);
      Root(t, "[" + index + "]" + inner) == (Scripted(t.super, index) + Radicand(t, body), |index| + 2 + n)
  {
    hide Group, Radicand, IndexLen, Scripted, Rest;
    IndexRead(index, inner);
  }

  lemma PowerPrints(t: Tables, index: string, src: string, a: string, rest: string)
    requires Ordinary(t) && Written(src, a) && IndexLen(index) == |index|
    ensures
      Pretty(t, "\\sqrt[" + index + "]" + src + rest)
      == Scripted(t.super, index) + Radicand(t, a) + Pretty(t, rest)
  {
    hide Root, Group, Pretty, Written, IndexLen, Scripted, Radicand;
    var after := "[" + index + "]" + (src + rest);
    assert Known("sqrt");
    CommandPrints(t, "sqrt", after);
    PowerRead(t, index, src + rest);
    WrittenReads(t, src, a, rest);
    assert Rest(after, |index| + 2 + |src|) == Rest(src + rest, |src|);
    assert "\\" + "sqrt" + after == "\\sqrt[" + index + "]" + src + rest;
  }

  lemma ScriptPrints(t: Tables, up: bool, src: string, a: string, rest: string)
    requires Written(src, a) && src != "" && src[0] != '\\'
    ensures Pretty(t, Mark(up) + src + rest) == Scripted(Marks(t, up), Pretty(t, a)) + Pretty(t, rest)
  {
    hide Group, Scripted, Written, NameLen;
    var s := Mark(up) + src + rest;
    WrittenReads(t, src, a, rest);
    assert s[1..] == src + rest;
    SingleToken(src + rest);
    assert Rest(s, 1 + |src|) == Rest(s[1..], |src|);
    assert Token(t, s) == (Scripted(Marks(t, up), Pretty(t, a)), 1 + |src|);
  }

  lemma SingleToken(s: string)
    requires s != "" && s[0] != '\\'
    ensures ScriptToken(s) == Group(s)
  {
  }

  lemma ArgumentNames(name: string)
    requires Known(name)
    ensures name != "" && forall k :: 0 <= k < |name| ==> Letter(name[k])
  {
  }

  lemma ControlPrints(t: Tables, c: char, rest: string)
    requires !Letter(c)
    ensures
      Pretty(t, ['\\', c] + rest) == (if c in ",:;!" then "" else if c in " \t" then " " else [c]) + Pretty(t, rest)
  {
    hide TakesArgument, Word, Argued, Letter;
    var s := ['\\', c] + rest;
    assert s[1..] == [c] + rest && s[1..][0] == c;
    assert s[1 + 0..] == s[1..];
    assert Command(t, s) == ControlSymbol(s[1..]);
    assert Rest(s, 2) == rest;
    assert Token(t, s) == Command(t, s);
  }

  lemma NameToken(name: string, after: string)
    requires NameLen(name) == |name| && (after == [] || !Letter(after[0]))
    ensures ScriptToken("\\" + name + after) == ("\\" + name, 1 + |name|)
  {
    hide NameLen, Letter;
    CommandRead(name, after);
    var s := "\\" + name + after;
    assert s[..1 + |name|] == "\\" + name;
  }

  /** A command after a script mark. The script takes its name alone, and that is the whole command exactly when it
      takes no argument, or none is there. */
  lemma CommandInScript(t: Tables, up: bool, name: string, after: string)
    requires name != "" && NameLen(name) == |name| && Stops(after)
    ensures ScriptToken("\\" + name + after) == ("\\" + name, 1 + |name|)
    ensures
      Pretty(t, Mark(up) + ("\\" + name + after))
      == Scripted(Marks(t, up), Pretty(t, "\\" + name)) + Pretty(t, after)
    ensures
      ScriptToken("\\" + name + after).1 == Command(t, "\\" + name + after).1
      <==> !TakesArgument(t, name) || after == ""
  {
    hide Scripted, NameLen, TakesArgument, Word, Command, ScriptToken, Pretty, Letter;
    StopsIs(after);
    NameToken(name, after);
    ScriptedName(t, up, name, after);
    CommandReach(t, name, after);
  }

  lemma ScriptedName(t: Tables, up: bool, name: string, after: string)
    requires ScriptToken("\\" + name + after) == ("\\" + name, 1 + |name|)
    ensures
      Pretty(t, Mark(up) + ("\\" + name + after))
      == Scripted(Marks(t, up), Pretty(t, "\\" + name)) + Pretty(t, after)
  {
    hide Scripted, Command, ScriptToken, NameLen;
    var s := Mark(up) + ("\\" + name + after);
    assert s[1..] == "\\" + name + after;
    assert Token(t, s) == (Scripted(Marks(t, up), Pretty(t, "\\" + name)), 2 + |name|);
    assert Rest(s, 2 + |name|) == after;
  }

  lemma CommandReach(t: Tables, name: string, after: string)
    requires name != "" && NameLen(name) == |name| && Stops(after)
    ensures Command(t, "\\" + name + after).1 >= 1 + |name|
    ensures Command(t, "\\" + name + after).1 == 1 + |name| <==> !TakesArgument(t, name) || after == ""
  {
    hide Argued, NameLen, TakesArgument, Word, ControlSymbol;
    CommandRead(name, after);
    if TakesArgument(t, name) {
      CommandIs(t, name, after);
      ArgumentReach(t, name, after);
    }
  }

  lemma ArgumentReach(t: Tables, name: string, after: string)
    ensures Argued(t, name, after).1 == 0 <==> after == ""
  {
    hide Pretty, Scripted, CloseAt, IndexLen;
    assert after == "" ==> Rest(after, 0) == "";
  }

  lemma RaisedNamePrints(t: Tables, up: bool, name: string, rest: string)
    requires Nameable(t, name) && Stops(rest)
    ensures Pretty(t, Mark(up) + "\\" + name + rest) == Scripted(Marks(t, up), Word(t, name)) + Pretty(t, rest)
  {
    hide Scripted, NameLen, TakesArgument, Word, Pretty, Nameable;
    NameableIs(t, name);
    CommandInScript(t, up, name, rest);
    NamedPrints(t, name, "");
    PrettyOfNothing(t);
    assert "\\" + name + "" == "\\" + name && Word(t, name) + "" == Word(t, name);
    assert Mark(up) + "\\" + name + rest == Mark(up) + ("\\" + name + rest);
  }

  lemma TextPrints(t: Tables, command: string, src: string, raw: string, rest: string)
    requires Ordinary(t) && Written(src, raw) && src != "" && !Letter(src[0])
    requires Verbatim(command) || command == "mathbb"
    ensures
      Pretty(t, "\\" + command + src + rest)
      == (if command == "mathbb" && raw in t.blackboard then t.blackboard[raw] else raw) + Pretty(t, rest)
  {
    hide Group, Pretty, Written;
    var after := src + rest;
    assert Known(command);
    ArgumentNames(command);
    CommandPrints(t, command, after);
    WrittenReads(t, src, raw, rest);
    assert "\\" + command + after == "\\" + command + src + rest;
  }

  /** One item in front of anything that does not go on its name. */
  lemma {:induction false} ItemPrints(t: Tables, x: Item, rest: string)
    requires Ordinary(t) && Fine(t, x, rest)
    ensures Pretty(t, Source(x) + rest) == Meaning(t, x) + Pretty(t, rest)
    decreases x, 1
  {
    hide Pretty, Scan, Written, NameLen, TakesArgument, Stops;
    match x {
      case Plain(c) => PlainPrints(t, c, rest);
      case Named(name) =>
        NamedPrints(t, name, rest);
        WordIs(t, name);
      case Quotient(above, below) =>
        ArgPrints(t, above);
        ArgPrints(t, below);
        QuotientPrints(t, ArgSource(above), ArgBody(above), ArgSource(below), ArgBody(below), rest);
      case Radical(under) =>
        ArgPrints(t, under);
        NotAnIndex(under);
        RadicalPrints(t, ArgSource(under), ArgBody(under), rest);
      case Power(index, under) =>
        ArgPrints(t, under);
        PowerPrints(t, index, ArgSource(under), ArgBody(under), rest);
        ScriptedIs(t.super, index);
      case Script(up, arg) =>
        ArgPrints(t, arg);
        NotACommand(t, arg);
        ScriptPrints(t, up, ArgSource(arg), ArgBody(arg), rest);
        ScriptedIs(Marks(t, up), ArgMeaning(t, arg));
      case RaisedName(up, name) =>
        RaisedNamePrints(t, up, name, rest);
        WordIs(t, name);
        ScriptedIs(Marks(t, up), Word(t, name));
      case Braced(body) => BracedPrints(t, body, rest);
      case Text(command, raw, braced) =>
        TextWritten(t, raw, braced);
        ArgumentNamesAre(command);
        TextPrints(t, command, if braced then Braces(raw) else raw, raw, rest);
      case Control(c) => ControlPrints(t, c, rest);
    }
  }

  lemma NotAnIndex(a: Arg)
    requires a != Lone('[')
    ensures ArgSource(a) != "" && ArgSource(a)[0] != '['
  {
  }

  lemma NotACommand(t: Tables, a: Arg)
    requires ArgFine(t, a)
    ensures ArgSource(a) != "" && ArgSource(a)[0] != '\\'
  {
  }

  lemma TextWritten(t: Tables, raw: string, braced: bool)
    requires if braced then Balanced(raw) else |raw| == 1 && !Letter(raw[0]) && raw[0] != '{'
    ensures
      var src := if braced then Braces(raw) else raw;
      Written(src, raw) && src != "" && !Letter(src[0])
  {
  }

  lemma PlainPrints(t: Tables, c: char, rest: string)
    requires !Special(c)
    ensures Pretty(t, [c] + rest) == [c] + Pretty(t, rest)
  {
    assert ([c] + rest)[1..] == rest;
  }

  lemma {:induction false} BracedPrints(t: Tables, body: seq<Item>, rest: string)
    requires Ordinary(t) && AllFine(t, body, "}")
    ensures Pretty(t, Braces(Sources(body)) + rest) == Meanings(t, body) + Pretty(t, rest)
    decreases body, 2
  {
    hide Sources, Meanings, Pretty, AllFine;
    var all := Braces(Sources(body)) + rest;
    var inner := Sources(body) + ("}" + rest);
    BraceDropped(t, all);
    assert all[1..] == inner;
    AllFineStops(t, body, "}", "}" + rest);
    FormulaPrints(t, body, "}" + rest);
    BraceDropped(t, "}" + rest);
    assert ("}" + rest)[1..] == rest;
  }

  /** All that matters of what follows is whether a name ends there. */
  lemma {:induction false} AllFineStops(t: Tables, xs: seq<Item>, next: string, next': string)
    requires AllFine(t, xs, next) && Stops(next) == Stops(next')
    ensures AllFine(t, xs, next')
    decreases xs
  {
    if xs != [] {
      AllFineStops(t, xs[1..], next, next');
      var tail := Sources(xs[1..]);
      assert tail == "" ==> tail + next == next && tail + next' == next';
      assert Stops(tail + next) == Stops(tail + next');
      FineStops(t, xs[0], tail + next, tail + next');
    }
  }

  lemma FineStops(t: Tables, x: Item, next: string, next': string)
    requires Fine(t, x, next) && Stops(next) == Stops(next')
    ensures Fine(t, x, next')
  {
    hide Stops, AllFine, ArgFine;
  }

  /** An argument reads as what is inside it, and prints as its meaning. */
  lemma {:induction false} ArgPrints(t: Tables, a: Arg)
    requires Ordinary(t) && ArgFine(t, a)
    ensures Written(ArgSource(a), ArgBody(a)) && ArgSource(a) != "" && (Follows(a) ==> !Letter(ArgSource(a)[0]))
    ensures Pretty(t, ArgBody(a)) == ArgMeaning(t, a)
    ensures |ArgBody(a)| > 1 <==> !Single(a)
    decreases a, 2
  {
    hide Pretty, Written, Sources, Meanings;
    ArgWritten(t, a);
    SingleIsShort(t, a);
    PrettyOfNothing(t);
    match a {
      case Grouped(items) =>
        FormulaPrints(t, items, "");
        assert Sources(items) + "" == Sources(items);
        assert Meanings(t, items) + "" == Meanings(t, items);
      case Lone(c) =>
        PlainPrints(t, c, "");
        assert [c] + "" == [c];
    }
  }

  /** The printer says what the formula means: every formula made of characters, symbols, fractions, roots, scripts,
      groups and text, with its arguments in braces or as single characters, nested in any way and followed by anything
      that does not go on its last name, is printed as its meaning. */
  lemma {:induction false} FormulaPrints(t: Tables, xs: seq<Item>, rest: string)
    requires Ordinary(t) && AllFine(t, xs, rest)
    ensures Pretty(t, Sources(xs) + rest) == Meanings(t, xs) + Pretty(t, rest)
    decreases xs, 0
  {
    hide Pretty, Fine;
    if xs == [] {
      assert Sources(xs) + rest == rest;
    } else {
      ItemPrints(t, xs[0], Sources(xs[1..]) + rest);
      FormulaPrints(t, xs[1..], rest);
      hide Source, Meaning;
      assert Sources(xs) + rest == Source(xs[0]) + (Sources(xs[1..]) + rest);
      Regroup(Meaning(t, xs[0]), Meanings(t, xs[1..]), Pretty(t, rest));
    }
  }

  lemma Regroup(a: string, b: string, c: string)
    ensures a + (b + c) == a + b + c
  {
  }

  /** Text without commands and scripts is printed as it is, without its braces. */
  function WithoutBraces(s: string): string {
    if s == [] then [] else (if s[0] == '{' || s[0] == '}' then [] else [s[0]]) + WithoutBraces(s[1..])
  }

  lemma {:induction false} PlainTextPrints(t: Tables, s: string)
    requires forall k :: 0 <= k < |s| ==> s[k] != '\\' && s[k] != '^' && s[k] != '_'
    ensures Pretty(t, s) == WithoutBraces(s)
    ensures '{' !in s && '}' !in s ==> Pretty(t, s) == s
    decreases |s|
  {
    if s != [] {
      PlainTextPrints(t, s[1..]);
    }
  }

  /** So a fraction right after `^` loses its braces, and its parts come after a raised stroke instead of around it. */
  lemma BareFractionInScript(t: Tables, a: string, c: string)
    requires Ordinary(t) && Balanced(a) && Balanced(c)
    ensures
      Pretty(t, "^\\frac" + Braces(a) + Braces(c)) == Scripted(t.super, SLASH) + Pretty(t, Braces(a) + Braces(c))
    ensures
      Pretty(t, "^" + Braces("\\frac" + Braces(a) + Braces(c)))
      == Scripted(t.super, Pretty(t, a) + SLASH + Pretty(t, c))
  {
    hide Pretty, Group, Scan, Scripted, NameLen;
    var groups := Braces(a) + Braces(c);
    NameIsLettersOf("frac");
    CommandInScript(t, true, "frac", groups);
    PrintedBare(t);
    assert Mark(true) + ("\\" + "frac" + groups) == "^\\frac" + Braces(a) + Braces(c);
    assert "\\" + "frac" == "\\frac";
    var inner := "\\frac" + Braces(a) + Braces(c);
    FractionBalanced(a, c);
    BracedFraction(t, a, c);
    ScriptPrints(t, true, Braces(inner), inner, "");
    PrettyOfNothing(t);
    assert Mark(true) + Braces(inner) + "" == "^" + Braces(inner);
    var quotient := Pretty(t, a) + SLASH + Pretty(t, c);
    assert Scripted(t.super, quotient) + "" == Scripted(t.super, quotient);
  }

  lemma NameIsLettersOf(name: string)
    requires Known(name)
    ensures NameLen(name) == |name| > 0
  {
    ArgumentNames(name);
    NameIsLetters(name);
  }

  lemma BracedFraction(t: Tables, a: string, c: string)
    requires Ordinary(t) && Balanced(a) && Balanced(c)
    ensures Pretty(t, "\\frac" + Braces(a) + Braces(c)) == Pretty(t, a) + SLASH + Pretty(t, c)
  {
    hide Pretty, Scan;
    QuotientPrints(t, Braces(a), a, Braces(c), c, "");
    PrettyOfNothing(t);
    var inner := "\\frac" + Braces(a) + Braces(c);
    assert inner + "" == inner;
    var quotient := Pretty(t, a) + SLASH + Pretty(t, c);
    assert quotient + "" == quotient;
  }

  lemma NoFraction(t: Tables)
    ensures Fraction(t, "") == (SLASH, 0)
  {
    hide Pretty;
    PrettyOfNothing(t);
    assert "" + SLASH + "" == SLASH;
  }

  lemma FractionBalanced(a: string, c: string)
    requires Balanced(a) && Balanced(c)
    ensures Balanced("\\frac" + Braces(a) + Braces(c))
  {
    hide Scan;
    ScanShift(a, 1, 1);
    ScanShift(c, 1, 1);
    BalancedName("\\frac", 1);
    BracesBalanced("\\frac", a, 1);
    BracesBalanced("\\frac" + Braces(a), c, 1);
  }

  lemma PrintedBare(t: Tables)
    requires Ordinary(t)
    ensures Pretty(t, "\\frac") == SLASH
  {
    hide Pretty, Fraction;
    NoFraction(t);
    assert Known("frac");
    CommandPrints(t, "frac", "");
    assert "\\" + "frac" + "" == "\\frac";
    PrettyOfNothing(t);
    assert SLASH + "" == SLASH;
  }

  /** A formula that is cut short: a command without its arguments prints what it adds to them, a lone backslash and a
      lone mark print nothing. */
  lemma CutShort(t: Tables, name: string)
    requires Ordinary(t) && "" !in t.blackboard && ArgumentName(name)
    ensures Pretty(t, "\\" + name) == if name == "frac" then "\U{2044}" else if name == "sqrt" then "\U{221A}" else ""
    ensures Pretty(t, "\\") == "" && Pretty(t, "^") == "" && Pretty(t, "_") == ""
  {
    ArgumentNamesAre(name);
    ArgumentNames(name);
    assert Known(name);
    hide Pretty, NameLen, ArgumentName;
    CommandPrints(t, name, "");
    assert "\\" + name + "" == "\\" + name;
    PrettyOfNothing(t);
    NothingArgued(t, name);
    LoneMarks(t);
  }

  lemma NothingArgued(t: Tables, name: string)
    requires Known(name) && "" !in t.blackboard
    ensures Argued(t, name, "") == (if name == "frac" then SLASH else if name == "sqrt" then RADICAL else "", 0)
  {
    hide Pretty;
    NoFraction(t);
    PrettyOfNothing(t);
    assert "" + (RADICAL + "") == RADICAL;
  }

  lemma LoneMarks(t: Tables)
    ensures Pretty(t, "\\") == "" && Pretty(t, "^") == "" && Pretty(t, "_") == ""
  {
    hide Argued;
    PrettyOfNothing(t);
    assert "\\"[1..] == "" && "^"[1..] == "" && "_"[1..] == "";
  }
}
