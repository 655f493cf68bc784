/** inputContent: the rows the composer paints, with a cell for the cursor, against the rows of the text. */
module ComposerBox {
  import opened Composer

  // ---------------------------------------------------------------- rows around the cursor

  lemma {:induction false} WrapHasNoBreak(r: string, w: nat, i: nat)
    requires w >= 1 && i < |Wrap(r, w)| && forall j :: 0 <= j < |r| ==> r[j] != '\n'
    ensures forall j :: 0 <= j < |Wrap(r, w)[i]| ==> Wrap(r, w)[i][j] != '\n'
    decreases |r|
  {
    if |r| > w && i > 0 {
      WrapHasNoBreak(r[w..], w, i - 1);
    }
  }

  lemma {:induction false} RowsHaveNoBreak(r: string, w: nat, i: nat)
    requires w >= 1 && i < |Rows(r, w)|
    ensures forall j :: 0 <= j < |Rows(r, w)[i]| ==> Rows(r, w)[i][j] != '\n'
    decreases |r|
  {
    hide Wrap;
    var k := NextBreak(r, 0);
    RowsSplit(r, w, 0, k);
    if i < |Wrap(r[..k], w)| {
      assert k == |r| ==> r[..k] == r;
      WrapHasNoBreak(r[..k], w, i);
    } else {
      RowsHaveNoBreak(r[k + 1..], w, i - |Wrap(r[..k], w)|);
    }
  }

  /** A row that is full and is not ended by a line break. */
  lemma FullRow(y: string, w: nat, at: nat)
    requires 1 <= w < |y| && forall j :: 0 <= j <= w ==> y[j] != '\n'
    ensures Rows(y, w) == [y[..w]] + Rows(y[w..], w)
    ensures Starts(y, w, at) == [at] + Starts(y[w..], w, at + w)
  {
    hide Rows, Starts, NextBreak;
    var k := NextBreak(y, 0);
    RowsSplit(y, w, at, k);
    RowsSplit(y[w..], w, at + w, k - w);
    if k == |y| {
    } else {
      assert y[..k][..w] == y[..w] && y[..k][w..] == y[w..][..k - w];
      assert y[w..][k - w + 1..] == y[k + 1..];
    }
  }

  function Last(rows: seq<string>): string
    requires rows != []
  {
    rows[|rows| - 1]
  }

  /** More text goes on in the last row of what is there. */
  lemma {:induction false} RowsGoOn(a: string, b: string, w: nat, at: nat)
    requires w >= 1
    ensures
      var n, last := |Rows(a, w)| - 1, Last(Rows(a, w));
      && |last| <= |a|
      && Rows(a + b, w) == Rows(a, w)[..n] + Rows(last + b, w)
      && Starts(a + b, w, at) == Starts(a, w, at)[..n] + Starts(last + b, w, at + |a| - |last|)
    decreases |a|, 1
  {
    hide Rows, Starts, NextBreak;
    var k := NextBreak(a, 0);
    if k < |a| {
      BreakGoesOn(a, b, w, at, k);
    } else {
      RowsSplit(a, w, at, k);
      if |a| <= w {
        assert Rows(a, w) == [a];
      } else {
        RowGoesOn(a, b, w, at);
      }
    }
  }

  lemma {:induction false} BreakGoesOn(a: string, b: string, w: nat, at: nat, k: nat)
    requires w >= 1 && k == NextBreak(a, 0) < |a|
    ensures
      var n, last := |Rows(a, w)| - 1, Last(Rows(a, w));
      && |last| <= |a|
      && Rows(a + b, w) == Rows(a, w)[..n] + Rows(last + b, w)
      && Starts(a + b, w, at) == Starts(a, w, at)[..n] + Starts(last + b, w, at + |a| - |last|)
    decreases |a|, 0
  {
    hide Rows, Starts, NextBreak, Wrap, WrapStarts;
    var a' := a[k + 1..];
    RowsSplit(a, w, at, k);
    RowsSplit(a + b, w, at, k);
    assert (a + b)[..k] == a[..k] && (a + b)[k + 1..] == a' + b;
    RowsGoOn(a', b, w, at + k + 1);
    Prefix(Wrap(a[..k], w), Rows(a', w), Rows(Last(Rows(a', w)) + b, w));
    var last := Last(Rows(a', w));
    Prefix(WrapStarts(a[..k], w, at), Starts(a', w, at + k + 1), Starts(last + b, w, at + |a| - |last|));
  }

  lemma {:induction false} RowGoesOn(a: string, b: string, w: nat, at: nat)
    requires w >= 1 && NextBreak(a, 0) == |a| > w
    ensures
      var n, last := |Rows(a, w)| - 1, Last(Rows(a, w));
      && |last| <= |a|
      && Rows(a + b, w) == Rows(a, w)[..n] + Rows(last + b, w)
      && Starts(a + b, w, at) == Starts(a, w, at)[..n] + Starts(last + b, w, at + |a| - |last|)
    decreases |a|, 0
  {
    hide Rows, Starts, NextBreak, Wrap, WrapStarts;
    var a' := a[w..];
    FullRow(a, w, at);
    FullRow(a + b, w, at);
    assert (a + b)[..w] == a[..w] && (a + b)[w..] == a' + b;
    RowsGoOn(a', b, w, at + w);
    Prefix([a[..w]], Rows(a', w), Rows(Last(Rows(a', w)) + b, w));
    Prefix([at], Starts(a', w, at + w), Starts(Last(Rows(a', w)) + b, w, at + |a| - |Last(Rows(a', w))|));
  }

  lemma Prefix<T>(x: seq<T>, y: seq<T>, z: seq<T>)
    requires y != []
    ensures x + (y[..|y| - 1] + z) == (x + y)[..|x + y| - 1] + z
  {
  }

  // ---------------------------------------------------------------- what is painted

  /** The row and column of the cursor, the rows above it and the text before it in its row: a cursor behind a full
      row moves to a fresh one. */
  datatype Spot = Spot(above: seq<string>, head: string)

  function SpotAt(before: string, w: nat): (s: Spot)
    requires w >= 1
  {
    var rows := Rows(before, w);
    if |Last(rows)| >= w then Spot(rows, "") else Spot(rows[..|rows| - 1], Last(rows))
  }

  function Min(a: int, b: int): int {
    if a < b then a else b
  }

  /** How much of `rest` inputContent puts behind the cursor cell. */
  function Limit(rest: string, avail: nat): (n: nat)
    ensures n <= |rest| && n <= avail
  {
    Min(avail, NextBreak(rest, 0))
  }

  /** The rows inputContent paints, before the box is capped. */
  function Painted(r: string, pos: nat, w: nat): seq<string>
    requires w >= 1 && pos <= |r|
  {
    var s := SpotAt(r[..pos], w);
    var after := r[pos..];
    var atBreak := after != "" && after[0] == '\n';
    var cell := if after == "" || atBreak then ' ' else after[0];
    var rest := if after == "" then "" else after[1..];
    var limit := Limit(rest, if w < |s.head| + 1 then 0 else w - |s.head| - 1);
    var breaks := limit < |rest| && rest[limit] == '\n';
    var tail := if breaks then rest[limit + 1..] else rest[limit..];
    s.above + [s.head + [cell] + rest[..limit]] + (if atBreak || breaks || tail != "" then Rows(tail, w) else [])
  }

  /** The rows the box should show: those of the text, with a cell for a cursor that is on no character. */
  function Wanted(r: string, pos: nat, w: nat): seq<string>
    requires w >= 1 && pos <= |r|
  {
    var s := SpotAt(r[..pos], w);
    if pos == |r| then s.above + [s.head + " "]
    else if r[pos] == '\n' then s.above + [s.head + " "] + Rows(r[pos + 1..], w)
    else Rows(r, w)
  }

  lemma SpotFits(before: string, w: nat)
    requires w >= 1
    ensures
      var s := SpotAt(before, w);
      && |s.head| < w
      && (forall j :: 0 <= j < |s.head| ==> s.head[j] != '\n')
      && (forall i :: 0 <= i < |s.above| ==> |s.above[i]| <= w)
  {
    hide Rows, Starts;
    var rows := Rows(before, w);
    forall i | 0 <= i < |rows| ensures |rows[i]| <= w {
      RowsFit(before, w, 0, i);
    }
    RowsHaveNoBreak(before, w, |rows| - 1);
  }

  /** The rows of a text split at a spot. */
  lemma RowsFromSpot(before: string, b: string, w: nat, at: nat)
    requires w >= 1 && b != "" && b[0] != '\n'
    ensures
      var s := SpotAt(before, w);
      && |s.head| <= |before|
      && Rows(before + b, w) == s.above + Rows(s.head + b, w)
      && |Starts(before + b, w, at)| > |s.above|
      && Starts(before + b, w, at)[|s.above|] == at + |before| - |s.head|
  {
    hide Rows, Starts;
    var rows := Rows(before, w);
    var last := Last(rows);
    RowsGoOn(before, b, w, at);
    RowsFit(before, w, at, |rows| - 1);
    RowsHaveNoBreak(before, w, |rows| - 1);
    FirstStart(last + b, w, at + |before| - |last|);
    if |last| >= w {
      FullRow(last + b, w, at + |before| - |last|);
      assert (last + b)[..w] == last && (last + b)[w..] == b;
      assert rows[..|rows| - 1] + [last] == rows;
      FirstStart(b, w, at + |before|);
      assert "" + b == b;
    }
  }

  lemma FirstStart(r: string, w: nat, at: nat)
    requires w >= 1
    ensures Starts(r, w, at)[0] == at
  {
  }

  /** The first row of a text that begins with a partly filled row. */
  lemma CursorRow(head: string, c: char, rest: string, w: nat)
    requires |head| < w && c != '\n' && forall j :: 0 <= j < |head| ==> head[j] != '\n'
    ensures
      var limit := Limit(rest, w - |head| - 1);
      var breaks := limit < |rest| && rest[limit] == '\n';
      var tail := if breaks then rest[limit + 1..] else rest[limit..];
      Rows(head + [c] + rest, w) ==
      [head + [c] + rest[..limit]] + (if breaks || tail != "" then Rows(tail, w) else [])
  {
    hide Rows, Starts, NextBreak;
    var y := head + [c] + rest;
    var k := NextBreak(rest, 0);
    var limit := Limit(rest, w - |head| - 1);
    var m := |head| + 1 + limit;
    assert y[..m] == head + [c] + rest[..limit];
    if k == limit {
      RowsSplit(y, w, 0, m);
      assert Wrap(y[..m], w) == [y[..m]];
      assert k < |rest| ==> y[m + 1..] == rest[limit + 1..];
      assert y[..|y|] == y;
    } else {
      FullRow(y, w, 0);
      assert y[w..] == rest[limit..];
    }
  }

  /** When the box shows what it should: everywhere but on a line break, and there only before the end of the text
      or in the last column of a line that more text follows. */
  predicate PaintsRight(r: string, pos: nat, w: nat)
    requires w >= 1 && pos <= |r|
  {
    || pos == |r|
    || r[pos] != '\n'
    || pos + 1 == |r|
    || (|SpotAt(r[..pos], w).head| == w - 1 && r[pos + 1] != '\n')
  }

  /** On a character the painted rows are exactly the rows of the text, and the cell is at the cursor's offset. */
  lemma PaintedOnCharacter(r: string, pos: nat, w: nat)
    requires w >= 1 && pos < |r| && r[pos] != '\n'
    ensures
      var s := SpotAt(r[..pos], w);
      && Painted(r, pos, w) == Rows(r, w)
      && |s.above| < |Rows(r, w)| && |s.head| < |Rows(r, w)[|s.above|]|
      && Rows(r, w)[|s.above|][|s.head|] == r[pos]
      && Starts(r, w, 0)[|s.above|] + |s.head| == pos
  {
    hide Rows, Starts, Limit, SpotAt, NextBreak;
    var s := SpotAt(r[..pos], w);
    SpotFits(r[..pos], w);
    RowsAround(r, pos, w);
    assert r[pos..][1..] == r[pos + 1..];
  }

  /** The rows of the text, split at the cursor the way the painter builds them. */
  lemma RowsAround(r: string, pos: nat, w: nat)
    requires w >= 1 && pos < |r| && r[pos] != '\n'
    ensures
      var s, rest := SpotAt(r[..pos], w), r[pos + 1..];
      && |s.head| < w
      && var limit := Limit(rest, w - |s.head| - 1);
      var breaks := limit < |rest| && rest[limit] == '\n';
      var tail := if breaks then rest[limit + 1..] else rest[limit..];
      && Rows(r, w)
         == s.above + [s.head + [r[pos]] + rest[..limit]] + (if breaks || tail != "" then Rows(tail, w) else [])
      && |Starts(r, w, 0)| > |s.above| && Starts(r, w, 0)[|s.above|] + |s.head| == pos
  {
    hide Rows, Starts, Limit, SpotAt, NextBreak;
    var s := SpotAt(r[..pos], w);
    SpotFits(r[..pos], w);
    var c, rest := r[pos], r[pos + 1..];
    assert r == r[..pos] + ([c] + rest);
    RowsFromSpot(r[..pos], [c] + rest, w, 0);
    assert s.head + ([c] + rest) == s.head + [c] + rest;
    CursorRow(s.head, c, rest, w);
  }

  /** The painted rows are the wanted ones exactly when `PaintsRight` says so. */
  lemma PaintedIsWanted(r: string, pos: nat, w: nat)
    requires w >= 1 && pos <= |r|
    ensures Painted(r, pos, w) == Wanted(r, pos, w) <==> PaintsRight(r, pos, w)
  {
    hide Rows, Starts, SpotAt;
    var s := SpotAt(r[..pos], w);
    SpotFits(r[..pos], w);
    if pos == |r| {
      assert r[pos..] == "" && s.head + [' '] + "" == s.head + " ";
    } else if r[pos] != '\n' {
      PaintedOnCharacter(r, pos, w);
    } else {
      OnBreak(r, pos, w);
    }
  }

  lemma OnBreak(r: string, pos: nat, w: nat)
    requires w >= 1 && pos < |r| && r[pos] == '\n'
    ensures Painted(r, pos, w) == Wanted(r, pos, w) <==> PaintsRight(r, pos, w)
  {
    hide Rows, Starts, SpotAt, NextBreak;
    var s := SpotAt(r[..pos], w);
    SpotFits(r[..pos], w);
    var rest := r[pos + 1..];
    assert r[pos..][1..] == rest;
    var limit := Limit(rest, w - |s.head| - 1);
    var at := |s.above|;
    if rest == "" {
      assert s.head + [' '] + "" == s.head + " ";
    } else if rest[0] == '\n' {
      NextBreakIs(rest, 0, 0);
      RowsSplit(rest, w, 0, 0);
      assert |Wanted(r, pos, w)| == |s.above| + 2 + |Rows(rest[1..], w)|;
      assert |Painted(r, pos, w)| == |s.above| + 1 + |Rows(rest[1..], w)|;
    } else if |s.head| == w - 1 {
      assert limit == 0 && rest[..0] == "" && rest[0..] == rest;
      assert s.head + [' '] + "" == s.head + " ";
    } else {
      assert limit > 0;
      assert |Painted(r, pos, w)[at]| > |s.head| + 1;
      assert |Wanted(r, pos, w)[at]| == |s.head| + 1;
    }
  }

  /** Every painted row fits the width. */
  lemma PaintedFits(r: string, pos: nat, w: nat, i: nat)
    requires w >= 1 && pos <= |r| && i < |Painted(r, pos, w)|
    ensures |Painted(r, pos, w)[i]| <= w
  {
    hide Rows, Starts, SpotAt;
    var s := SpotAt(r[..pos], w);
    SpotFits(r[..pos], w);
    var after := r[pos..];
    var rest := if after == "" then "" else after[1..];
    var limit := Limit(rest, w - |s.head| - 1);
    var tail := if limit < |rest| && rest[limit] == '\n' then rest[limit + 1..] else rest[limit..];
    if i > |s.above| {
      RowsFit(tail, w, 0, i - |s.above| - 1);
    }
  }

  // ---------------------------------------------------------------- the code of inputContent

  const MaxInputLines: nat := 5

  /** The visible part of the box: rows from..to of n, around the cursor row. */
  function Window(n: nat, cursor: nat): (nat, nat) {
    if n <= MaxInputLines then (0, n)
    else
      var start := if cursor < MaxInputLines / 2 then 0 else cursor - MaxInputLines / 2;
      if start + MaxInputLines > n then (n - MaxInputLines, n) else (start, start + MaxInputLines)
  }

  /** The window holds the cursor row, and the rows nearest to it. */
  lemma WindowHoldsCursor(n: nat, cursor: nat)
    requires cursor < n
    ensures
      var (a, b) := Window(n, cursor);
      && a <= cursor < b <= n && b - a == Min(n, MaxInputLines)
      && (a > 0 ==> b == n || cursor - a == MaxInputLines / 2)
      && (b < n ==> a == 0 || cursor - a == MaxInputLines / 2)
  {
  }

  /** inputContent for a text that is not empty. `rows` are the rows before capping, `line` and `col` the place of
      the cursor cell, `out` the rows shown, with a mark where rows are hidden. */
  method InputContent(value: string, cursor: int, width: int)
    returns (out: seq<string>, rows: seq<string>, line: nat, col: nat)
    ensures
      var w, pos := Width(width), if cursor < 0 then 0 else Min(cursor, |value|);
      && rows == Painted(value, pos, w)
      && line == |SpotAt(value[..pos], w).above| && col == |SpotAt(value[..pos], w).head|
      && line < |rows|
    ensures
      var (a, b) := Window(|rows|, line);
      a <= b <= |rows| && out == (if a > 0 then ["…"] else []) + rows[a..b] + (if b < |rows| then ["…"] else [])
  {
    hide Rows, SpotAt, Limit, Window;
    var w := if width < 1 then 1 else width;
    var pos := cursor;
    if pos < 0 {
      pos := 0;
    }
    if pos > |value| {
      pos := |value|;
    }
    var before, after := value[..pos], value[pos..];
    var beforeLines, cLine, cCol := CursorSpot(before, w);
    var curChar, rest, newlineConsumed := ' ', "", false;
    if |after| > 0 {
      if after[0] == '\n' {
        newlineConsumed := true;
      } else {
        curChar := after[0];
      }
      rest := after[1..];
    }
    var limit := LimitFor(rest, w - cCol - 1);
    var restAfter;
    if limit < |rest| && rest[limit] == '\n' {
      newlineConsumed := true;
      restAfter := rest[limit + 1..];
    } else {
      restAfter := rest[limit..];
    }
    var restLines := [];
    if newlineConsumed || |restAfter| > 0 {
      restLines := WrapRunesMultiline(restAfter, w);
    }
    rows := beforeLines[..cLine] + [beforeLines[cLine] + [curChar] + rest[..limit]] + restLines;
    line, col := cLine, cCol;
    out := Capped(rows, cLine);
  }

  /** The display rows before the cursor; a full last row sends the cursor to a fresh one. */
  method CursorSpot(before: string, w: nat) returns (beforeLines: seq<string>, cLine: nat, cCol: nat)
    requires w >= 1
    ensures |beforeLines| == cLine + 1 && cCol == |beforeLines[cLine]|
    ensures SpotAt(before, w) == Spot(beforeLines[..cLine], beforeLines[cLine])
  {
    hide Rows;
    beforeLines := WrapRunesMultiline(before, w);
    cLine := |beforeLines| - 1;
    cCol := |beforeLines[cLine]|;
    if cCol >= w {
      beforeLines := beforeLines + [""];
      cLine := cLine + 1;
      cCol := 0;
    }
  }

  /** The loop that stops the cursor row at a line break. */
  method LimitFor(rest: string, room: int) returns (limit: nat)
    ensures limit == Limit(rest, if room < 0 then 0 else room)
  {
    var avail := if room < 0 then 0 else room;
    limit := avail;
    var i := 0;
    while i < |rest|
      invariant 0 <= i <= |rest| && limit == avail
      invariant forall j :: 0 <= j < i ==> rest[j] != '\n'
    {
      if rest[i] == '\n' {
        if i < limit {
          limit := i;
        }
        break;
      }
      i := i + 1;
    }
    NextBreakIs(rest, 0, i);
    if limit > |rest| {
      limit := |rest|;
    }
  }

  /** The last step of inputContent. */
  method Capped(rows: seq<string>, cursorIdx: nat) returns (out: seq<string>)
    requires cursorIdx < |rows|
    ensures
      var (a, b) := Window(|rows|, cursorIdx);
      a <= b <= |rows| && out == (if a > 0 then ["…"] else []) + rows[a..b] + (if b < |rows| then ["…"] else [])
  {
    out := rows;
    if |out| > MaxInputLines {
      var half := MaxInputLines / 2;
      var start := cursorIdx - half;
      if start < 0 {
        start := 0;
      }
      var end := start + MaxInputLines;
      if end > |out| {
        end := |out|;
        start := if end - MaxInputLines > 0 then end - MaxInputLines else 0;
      }
      var capped := [];
      if start > 0 {
        capped := capped + ["…"];
      }
      capped := capped + rows[start..end];
      if end < |rows| {
        capped := capped + ["…"];
      }
      out := capped;
    }
  }

  // ---------------------------------------------------------------- clicking into the box

  /** What a click on a row of the box means: a row of the text, the end of the text, nothing, or an index past the
      rows. */
  datatype Click = OnRow(row: nat) | AtEnd | Outside | OutOfRange

  /** The row arithmetic of composerClickCursor; `hint` says that a hint line is shown below the text. */
  function ClickRow(r: string, pos: nat, w: nat, row: nat, hint: bool): Click
    requires w >= 1 && pos <= |r|
  {
    var before := Rows(r[..pos], w);
    var cLine := if |Last(before)| >= w then |before| else |before| - 1;
    var n := |Rows(r, w)|;
    if row >= n && row != cLine then
      if hint && row == n then AtEnd else Outside
    else if n > MaxInputLines || cLine >= MaxInputLines then
      var start0 := if cLine < MaxInputLines / 2 then 0 else cLine - MaxInputLines / 2;
      var end := Min(start0 + MaxInputLines, n);
      var start := if start0 + MaxInputLines > n then (if n < MaxInputLines then 0 else n - MaxInputLines) else start0;
      if start > 0 && row == 0 then Outside
      else
        var vr := if start > 0 then row - 1 else row;
        if vr >= end - start then AtEnd
        else if start + vr < n then OnRow(start + vr)
        else OutOfRange
    else if row < n then OnRow(row)
    else OutOfRange
  }

  /** Rows with a cursor inside the text are at least as many as the cursor needs. */
  lemma CursorRowExists(r: string, pos: nat, w: nat)
    requires w >= 1 && pos < |r|
    ensures |SpotAt(r[..pos], w).above| < |Rows(r, w)|
  {
    hide Rows, Starts, SpotAt;
    if r[pos] != '\n' {
      PaintedOnCharacter(r, pos, w);
    } else {
      BreakSplits(r, pos, w);
      SpotRows(r[..pos], w);
    }
  }

  lemma SpotRows(before: string, w: nat)
    requires w >= 1
    ensures |SpotAt(before, w).above| <= |Rows(before, w)|
  {
  }

  /** A line break separates the rows before it from the rows after it. */
  lemma {:induction false} BreakSplits(r: string, pos: nat, w: nat)
    requires w >= 1 && pos < |r| && r[pos] == '\n'
    ensures Rows(r, w) == Rows(r[..pos], w) + Rows(r[pos + 1..], w)
    decreases |r|
  {
    hide Rows, Starts, Wrap, WrapStarts, NextBreak;
    var k := NextBreak(r, 0);
    RowsSplit(r, w, 0, k);
    if k == pos {
      RowsSplit(r[..pos], w, 0, pos);
    } else {
      BreakSplits(r[k + 1..], pos - k - 1, w);
      RowsSplit(r[..pos], w, 0, k);
      assert r[..pos][..k] == r[..k] && r[..pos][k + 1..] == r[k + 1..][..pos - k - 1];
      assert r[k + 1..][pos - k..] == r[pos + 1..];
    }
  }

  /** A click indexes past the rows exactly on the fresh row of a cursor behind a full last row, in a short text. */
  lemma ClickOutOfRange(r: string, pos: nat, w: nat, row: nat, hint: bool)
    requires w >= 1 && pos <= |r|
    ensures
      ClickRow(r, pos, w, row, hint) == OutOfRange <==>
      pos == |r| && |Last(Rows(r, w))| == w && row == |Rows(r, w)| < MaxInputLines
  {
    hide Rows, Starts;
    if pos < |r| {
      CursorRowExists(r, pos, w);
    } else {
      assert r[..pos] == r;
      RowsFit(r, w, 0, |Rows(r, w)| - 1);
    }
  }

  // ---------------------------------------------------------------- offsets and line/column positions

  /** The text area underneath: a text, and a cursor on one of its lines. */
  class TextArea {
    var value: string
    var row: nat
    var col: nat

    constructor (value: string)
      ensures this.value == value && row == 0 && col == 0
    {
      this.value, row, col := value, 0, 0;
    }

    ghost predicate Valid()
      reads this
    {
      row < |Lines(value)| && col <= |Lines(value)[row]|
    }

    /** inputPosition. */
    method InputPosition() returns (pos: nat)
      requires Valid()
      ensures pos == OffsetOf(value, row, col)
    {
      var parts := Lines(value);
      var r := row;
      if r >= |parts| {
        r := |parts| - 1;
      }
      pos := 0;
      for i := 0 to r
        invariant pos == LineStart(value, i)
      {
        pos := pos + |parts[i]| + 1;
      }
      pos := pos + col;
    }

    method CursorDown()
      requires Valid() && row + 1 < |Lines(value)|
      modifies `row, `col
      ensures Valid() && row == old(row) + 1
    {
      row := row + 1;
      if col > |Lines(value)[row]| {
        col := |Lines(value)[row]|;
      }
    }

    /** setInputCursor: count the line breaks before the offset, and go there. */
    method SetInputCursor(offset: int)
      modifies `row, `col
      ensures Valid()
      ensures OffsetOf(value, row, col) == if offset < 0 then 0 else Min(offset, |value|)
    {
      var pos := offset;
      if pos < 0 {
        pos := 0;
      }
      if pos > |value| {
        pos := |value|;
      }
      var before := Lines(value[..pos]);
      PlaceOfOffset(value, pos);
      row, col := 0, 0;
      for i := 0 to |before| - 1
        invariant Valid() && row == i
      {
        CursorDown();
      }
      col := |before[|before| - 1]|;
    }
  }

  /** strings.Split(s, "\n"). */
  function Lines(s: string): (ls: seq<string>)
    ensures ls != []
    decreases |s|
  {
    var k := NextBreak(s, 0);
    if k == |s| then [s] else [s[..k]] + Lines(s[k + 1..])
  }

  /** Where line i begins. */
  function LineStart(s: string, i: nat): nat
    requires i < |Lines(s)|
  {
    if i == 0 then 0 else LineStart(s, i - 1) + |Lines(s)[i - 1]| + 1
  }

  function OffsetOf(s: string, row: nat, col: nat): nat
    requires row < |Lines(s)|
  {
    LineStart(s, row) + col
  }

  lemma LinesSplit(s: string, k: nat)
    requires k <= |s| && (forall j :: 0 <= j < k ==> s[j] != '\n') && (k < |s| ==> s[k] == '\n')
    ensures Lines(s) == if k == |s| then [s] else [s[..k]] + Lines(s[k + 1..])
  {
    NextBreakIs(s, 0, k);
  }

  lemma {:induction false} LineStartSkips(s: string, k: nat, i: nat)
    requires k < |s| && (forall j :: 0 <= j < k ==> s[j] != '\n') && s[k] == '\n'
    requires i < |Lines(s[k + 1..])|
    ensures i + 1 < |Lines(s)| && LineStart(s, i + 1) == k + 1 + LineStart(s[k + 1..], i)
  {
    LinesSplit(s, k);
    if i > 0 {
      LineStartSkips(s, k, i - 1);
    }
  }

  /** The lines before an offset end on the line of the offset, at its column. */
  lemma {:induction false} PlaceOfOffset(s: string, pos: nat)
    requires pos <= |s|
    ensures
      var before := Lines(s[..pos]);
      var row := |before| - 1;
      && row < |Lines(s)| && |before[row]| <= |Lines(s)[row]|
      && OffsetOf(s, row, |before[row]|) == pos
    decreases |s|
  {
    hide NextBreak, Lines;
    var k := NextBreak(s, 0);
    LinesSplit(s, k);
    if pos <= k {
      LinesSplit(s[..pos], pos);
    } else {
      LinesSplit(s[..pos], k);
      assert s[..pos][..k] == s[..k] && s[..pos][k + 1..] == s[k + 1..][..pos - k - 1];
      PlaceOfOffset(s[k + 1..], pos - k - 1);
      LineStartSkips(s, k, |Lines(s[..pos])| - 2);
    }
  }

  /** An offset names one place: line and column can be read back from it. */
  lemma {:induction false} PlaceIsUnique(s: string, row: nat, col: nat)
    requires row < |Lines(s)| && col <= |Lines(s)[row]|
    ensures
      var pos := OffsetOf(s, row, col);
      pos <= |s| && |Lines(s[..pos])| == row + 1 && |Lines(s[..pos])[row]| == col
    decreases |s|
  {
    hide NextBreak, Lines;
    var k := NextBreak(s, 0);
    LinesSplit(s, k);
    var pos := OffsetOf(s, row, col);
    if row == 0 {
      LinesSplit(s[..pos], pos);
    } else {
      LineStartSkips(s, k, row - 1);
      PlaceIsUnique(s[k + 1..], row - 1, col);
      LinesSplit(s[..pos], k);
      assert s[..pos][k + 1..] == s[k + 1..][..pos - k - 1];
    }
  }
}
