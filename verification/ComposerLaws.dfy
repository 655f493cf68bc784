/** What the composer box shows, said of the text itself: no character is lost, rows are full, the window is centred,
    and a click on a shown row is a click on the row of the text that is shown there. */
module ComposerLaws {
  import opened Composer
  import opened ComposerBox

  /** The text without its line breaks. */
  function NoBreaks(s: string): string {
    if s == "" then "" else (if s[0] == '\n' then "" else [s[0]]) + NoBreaks(s[1..])
  }

  /** The rows, one after the other. */
  function Joined(rows: seq<string>): string {
    if rows == [] then "" else rows[0] + Joined(rows[1..])
  }

  lemma {:induction false} NoBreaksConcat(a: string, b: string)
    ensures NoBreaks(a + b) == NoBreaks(a) + NoBreaks(b)
    decreases |a|
  {
    if a == "" {
      assert a + b == b;
    } else {
      assert (a + b)[1..] == a[1..] + b;
      NoBreaksConcat(a[1..], b);
    }
  }

  lemma {:induction false} NoBreaksPlain(s: string)
    requires forall i :: 0 <= i < |s| ==> s[i] != '\n'
    ensures NoBreaks(s) == s
  {
    if s != "" {
      NoBreaksPlain(s[1..]);
    }
  }

  lemma {:induction false} JoinedConcat(a: seq<string>, b: seq<string>)
    ensures Joined(a + b) == Joined(a) + Joined(b)
    decreases |a|
  {
    if a == [] {
      assert a + b == b;
    } else {
      assert (a + b)[1..] == a[1..] + b;
      JoinedConcat(a[1..], b);
    }
  }

  lemma JoinedOne(row: string)
    ensures Joined([row]) == row
  {
    assert [row][1..] == [];
  }

  lemma {:induction false} WrapJoins(r: string, w: nat)
    requires w >= 1
    ensures Joined(Wrap(r, w)) == r
    decreases |r|
  {
    if |r| <= w {
      JoinedOne(r);
    } else {
      WrapJoins(r[w..], w);
      assert ([r[..w]] + Wrap(r[w..], w))[1..] == Wrap(r[w..], w);
    }
  }

  /** The rows of a text hold every character of it but the line breaks, in order. */
  lemma {:induction false} RowsJoin(r: string, w: nat)
    requires w >= 1
    ensures Joined(Rows(r, w)) == NoBreaks(r)
    decreases |r|
  {
    hide Wrap, NextBreak;
    var k := NextBreak(r, 0);
    RowsSplit(r, w, 0, k);
    hide Rows, Starts;
    WrapJoins(r[..k], w);
    NoBreaksPlain(r[..k]);
    if k == |r| {
      assert r[..k] == r;
    } else {
      RowsJoin(r[k + 1..], w);
      JoinedConcat(Wrap(r[..k], w), Rows(r[k + 1..], w));
      NoBreaksAt(r, k);
    }
  }

  lemma NoBreaksAt(r: string, k: nat)
    requires k < |r| && r[k] == '\n'
    ensures NoBreaks(r) == NoBreaks(r[..k]) + NoBreaks(r[k + 1..])
  {
    var tail := r[k..];
    assert NoBreaks(tail) == NoBreaks(tail[1..]);
    hide NoBreaks;
    assert tail[1..] == r[k + 1..];
    assert r == r[..k] + tail;
    NoBreaksConcat(r[..k], tail);
  }

  lemma {:induction false} WrapAt(r: string, w: nat, i: nat)
    requires w >= 1 && i < |Wrap(r, w)|
    ensures i * w <= |r| && Wrap(r, w)[i] == r[i * w..Min((i + 1) * w, |r|)]
    decreases |r|
  {
    if |r| <= w {
      assert r[0..|r|] == r;
    } else if i > 0 {
      WrapAt(r[w..], w, i - 1);
      assert (i - 1) * w + w == i * w && i * w + w == (i + 1) * w;
      SliceOfSlice(r, w, |r|, (i - 1) * w, Min(i * w, |r| - w));
      assert r[w..|r|] == r[w..];
    } else {
      assert 0 * w == 0 && 1 * w == w;
    }
  }

  /** The text before the cursor is in the rows above it and the head of its row. */
  lemma SpotJoins(before: string, w: nat)
    requires w >= 1
    ensures
      var s := SpotAt(before, w);
      Joined(s.above) + s.head == NoBreaks(before)
  {
    hide Rows;
    var rows := Rows(before, w);
    RowsJoin(before, w);
    if |Last(rows)| >= w {
    } else {
      assert rows == rows[..|rows| - 1] + [Last(rows)];
      JoinedConcat(rows[..|rows| - 1], [Last(rows)]);
      JoinedOne(Last(rows));
    }
  }

  /** What stands behind the cursor cell, and on the rows below. */
  lemma RestJoins(rest: string, limit: nat, w: nat, force: bool)
    requires w >= 1 && limit <= |rest| && forall i :: 0 <= i < limit ==> rest[i] != '\n'
    ensures
      var breaks := limit < |rest| && rest[limit] == '\n';
      var tail := if breaks then rest[limit + 1..] else rest[limit..];
      rest[..limit] + Joined(if force || breaks || tail != "" then Rows(tail, w) else []) == NoBreaks(rest)
  {
    hide Rows;
    var breaks := limit < |rest| && rest[limit] == '\n';
    var tail := if breaks then rest[limit + 1..] else rest[limit..];
    RowsJoin(tail, w);
    NoBreaksPlain(rest[..limit]);
    if breaks {
      NoBreaksAt(rest, limit);
    } else {
      assert rest == rest[..limit] + rest[limit..];
      NoBreaksConcat(rest[..limit], rest[limit..]);
    }
  }

  /** What is painted has every character of the text but the line breaks, in order, and nothing else but the cell of a
      cursor that is on no character. */
  lemma NothingLost(r: string, pos: nat, w: nat)
    requires w >= 1 && pos <= |r|
    ensures
      Joined(Painted(r, pos, w)) ==
      NoBreaks(r[..pos]) + (if pos == |r| || r[pos] == '\n' then " " else "") + NoBreaks(r[pos..])
  {
    hide Rows, SpotAt, NextBreak, Limit, NoBreaks, Joined;
    var s := SpotAt(r[..pos], w);
    var after := r[pos..];
    var atBreak := after != "" && after[0] == '\n';
    var cell := if after == "" || atBreak then ' ' else after[0];
    var rest := if after == "" then "" else after[1..];
    SpotFits(r[..pos], w);
    var room := w - |s.head| - 1;
    var limit := Limit(rest, room);
    var breaks := limit < |rest| && rest[limit] == '\n';
    var tail := if breaks then rest[limit + 1..] else rest[limit..];
    var below := if atBreak || breaks || tail != "" then Rows(tail, w) else [];
    assert Painted(r, pos, w) == s.above + [s.head + [cell] + rest[..limit]] + below;
    hide Painted;
    SpotJoins(r[..pos], w);
    LimitStops(rest, room);
    RestJoins(rest, limit, w, atBreak);
    PaintedJoins(s.above, s.head, cell, rest[..limit], below);
    CellReads(after, cell);
    Regroup(NoBreaks(r[..pos]), if after == "" || after[0] == '\n' then " " else "", NoBreaks(after));
  }

  lemma LimitStops(rest: string, avail: nat)
    ensures forall i :: 0 <= i < Limit(rest, avail) ==> rest[i] != '\n'
  {
  }

  lemma Regroup(a: string, b: string, c: string)
    ensures a + (b + c) == a + b + c
  {
  }

  lemma CellReads(after: string, cell: char)
    requires cell == if after == "" || after[0] == '\n' then ' ' else after[0]
    ensures
      [cell] + NoBreaks(if after == "" then "" else after[1..])
      == (if after == "" || after[0] == '\n' then " " else "") + NoBreaks(after)
  {
  }

  lemma PaintedJoins(above: seq<string>, head: string, cell: char, piece: string, below: seq<string>)
    ensures
      Joined(above + [head + [cell] + piece] + below) == (Joined(above) + head) + ([cell] + (piece + Joined(below)))
  {
    var row := head + [cell] + piece;
    JoinedConcat(above + [row], below);
    JoinedConcat(above, [row]);
    JoinedOne(row);
  }

  /** With the cursor on a line break the row of the cursor holds what is before it in its row, a blank cell, and as
      much of the next line as there is room for; the rest of that line, or the line after it, begins the next row. */
  lemma CursorRowOnBreak(r: string, pos: nat, w: nat, rest: string, end: nat)
    requires w >= 1 && pos < |r| && r[pos] == '\n' && rest == r[pos + 1..]
    requires end <= |rest| && (forall i :: 0 <= i < end ==> rest[i] != '\n') && (end < |rest| ==> rest[end] == '\n')
    ensures
      var s := SpotAt(r[..pos], w);
      var room := Min(w - |s.head| - 1, end);
      && 0 <= room
      && |Painted(r, pos, w)| > |s.above|
      && Painted(r, pos, w)[..|s.above|] == s.above
      && Painted(r, pos, w)[|s.above|] == s.head + " " + rest[..room]
      && Painted(r, pos, w)[|s.above| + 1..] == Rows(if room == end < |rest| then rest[end + 1..] else rest[room..], w)
  {
    hide Rows, SpotAt, Painted, Limit;
    var s := SpotAt(r[..pos], w);
    PaintedOnBreak(r, pos, w);
    var room := Min(w - |s.head| - 1, end);
    LimitOnBreak(rest, w - |s.head| - 1, end);
    assert room < end ==> rest[room] != '\n';
    var tail := if room == end < |rest| then rest[end + 1..] else rest[room..];
    OneRow(s.above, s.head + " " + rest[..room], Rows(tail, w));
  }

  lemma OneRow(above: seq<string>, row: string, below: seq<string>)
    ensures
      var rows := above + [row] + below;
      |rows| > |above| && rows[..|above|] == above && rows[|above|] == row && rows[|above| + 1..] == below
  {
  }

  lemma PaintedOnBreak(r: string, pos: nat, w: nat)
    requires w >= 1 && pos < |r| && r[pos] == '\n'
    ensures
      var s, rest := SpotAt(r[..pos], w), r[pos + 1..];
      |s.head| < w &&
      var limit := Limit(rest, w - |s.head| - 1);
      var tail := if limit < |rest| && rest[limit] == '\n' then rest[limit + 1..] else rest[limit..];
      Painted(r, pos, w) == s.above + [s.head + " " + rest[..limit]] + Rows(tail, w)
  {
    hide Rows, SpotAt, Limit;
    SpotFits(r[..pos], w);
    assert r[pos..][1..] == r[pos + 1..];
  }

  /** With the next line break at `end` and `avail` columns left. */
  lemma LimitOnBreak(rest: string, avail: nat, end: nat)
    requires end <= |rest| && (forall i :: 0 <= i < end ==> rest[i] != '\n') && (end < |rest| ==> rest[end] == '\n')
    ensures Limit(rest, avail) == Min(avail, end)
  {
    NextBreakIs(rest, 0, end);
  }

  /** The window: all of at most five rows, and otherwise five, with two rows above the cursor and two below it unless
      an end is nearer. */
  lemma WindowIsCentred(n: nat, cursor: nat)
    requires cursor < n
    ensures
      Window(n, cursor) ==
      if n <= 5 then (0, n)
      else if cursor <= 2 then (0, 5)
      else if cursor + 3 >= n then (n - 5, n)
      else (cursor - 2, cursor + 3)
  {
  }

  /** A click on a row of the box that shows text means the row of the text that is shown there; a click on the mark
      above means nothing, and one on the mark below the end of the text. */
  lemma ClickLands(r: string, pos: nat, w: nat, row: nat, hint: bool)
    requires w >= 1 && pos < |r| && r[pos] != '\n'
    ensures
      var n := |Rows(r, w)|;
      var (a, b) := Window(n, |SpotAt(r[..pos], w).above|);
      var top := if a > 0 then 1 else 0;
      && Painted(r, pos, w) == Rows(r, w)
      && (top <= row < top + (b - a) ==> ClickRow(r, pos, w, row, hint) == OnRow(a + row - top))
      && (a > 0 && row == 0 ==> ClickRow(r, pos, w, row, hint) == Outside)
      && (b < n && row == top + (b - a) ==> ClickRow(r, pos, w, row, hint) == AtEnd)
  {
    hide Rows, Painted;
    PaintedOnCharacter(r, pos, w);
    WindowHoldsCursor(|Rows(r, w)|, |SpotAt(r[..pos], w).above|);
  }

  /** A click below all rows of a short text means its end on the hint line, and nothing elsewhere. */
  lemma ClickBelow(r: string, pos: nat, w: nat, row: nat, hint: bool)
    requires w >= 1 && pos < |r| && r[pos] != '\n' && row >= |Rows(r, w)|
    ensures ClickRow(r, pos, w, row, hint) == if hint && row == |Rows(r, w)| then AtEnd else Outside
  {
    hide Rows, Painted;
    PaintedOnCharacter(r, pos, w);
  }

  function WithBreaks(ls: seq<string>): string
    requires ls != []
  {
    if |ls| == 1 then ls[0] else ls[0] + "\n" + WithBreaks(ls[1..])
  }

  /** The lines of a text have no line break in them, and joined with line breaks they are the text. */
  lemma {:induction false} LinesJoin(s: string)
    ensures WithBreaks(Lines(s)) == s
    ensures forall i, j :: 0 <= i < |Lines(s)| && 0 <= j < |Lines(s)[i]| ==> Lines(s)[i][j] != '\n'
    decreases |s|
  {
    var k := NextBreak(s, 0);
    LinesSplit(s, k);
    hide Lines, NextBreak, WithBreaks;
    if k == |s| {
      OneLine(s);
    } else {
      LinesJoin(s[k + 1..]);
      OneMoreLine(s[..k], Lines(s[k + 1..]));
      assert s == s[..k] + "\n" + s[k + 1..];
    }
  }

  lemma OneLine(line: string)
    ensures WithBreaks([line]) == line
  {
  }

  lemma OneMoreLine(line: string, rest: seq<string>)
    requires rest != [] && (forall j :: 0 <= j < |line| ==> line[j] != '\n')
    requires forall i, j :: 0 <= i < |rest| && 0 <= j < |rest[i]| ==> rest[i][j] != '\n'
    ensures WithBreaks([line] + rest) == line + "\n" + WithBreaks(rest)
    ensures
      var ls := [line] + rest;
      forall i, j :: 0 <= i < |ls| && 0 <= j < |ls[i]| ==> ls[i][j] != '\n'
  {
    assert ([line] + rest)[1..] == rest;
  }
}
