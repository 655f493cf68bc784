/** The composer box (tui/render.go, tui/chrome_mouse.go, tui/composer.go): hard wrapping, the painted rows with the
    cursor cell, the window that keeps the box small, and the offset at which a row begins. */
module Composer {

  /** A width below one counts as one. */
  function Width(w: int): (n: nat)
    ensures n >= 1
  {
    if w < 1 then 1 else w
  }

  // ---------------------------------------------------------------- the rows of a text

  /** One line of text in rows of at most w characters; an empty line is one empty row. */
  function Wrap(r: string, w: nat): (rows: seq<string>)
    requires w >= 1
    ensures rows != []
    decreases |r|
  {
    if |r| <= w then [r] else [r[..w]] + Wrap(r[w..], w)
  }

  /** The first line break at or after i, or the end. */
  function NextBreak(r: string, i: nat): (k: nat)
    requires i <= |r|
    ensures i <= k <= |r|
    ensures forall j :: i <= j < k ==> r[j] != '\n'
    ensures k < |r| ==> r[k] == '\n'
    decreases |r| - i
  {
    if i == |r| || r[i] == '\n' then i else NextBreak(r, i + 1)
  }

  /** The rows of a text with line breaks. */
  function Rows(r: string, w: nat): (rows: seq<string>)
    requires w >= 1
    ensures rows != []
    decreases |r|
  {
    var k := NextBreak(r, 0);
    if k == |r| then Wrap(r, w) else Wrap(r[..k], w) + Rows(r[k + 1..], w)
  }

  /** Where the rows of a line begin, the line itself beginning at `at`. */
  function WrapStarts(r: string, w: nat, at: nat): (starts: seq<nat>)
    requires w >= 1
    ensures |starts| == |Wrap(r, w)|
    decreases |r|
  {
    if |r| <= w then [at] else [at] + WrapStarts(r[w..], w, at + w)
  }

  /** Where the rows of a text begin. */
  function Starts(r: string, w: nat, at: nat): (starts: seq<nat>)
    requires w >= 1
    ensures |starts| == |Rows(r, w)|
    decreases |r|
  {
    var k := NextBreak(r, 0);
    if k == |r| then WrapStarts(r, w, at) else WrapStarts(r[..k], w, at) + Starts(r[k + 1..], w, at + k + 1)
  }

  lemma NextBreakIs(r: string, i: nat, k: nat)
    requires i <= k <= |r| && (forall j :: i <= j < k ==> r[j] != '\n') && (k < |r| ==> r[k] == '\n')
    ensures NextBreak(r, i) == k
  {
  }

  lemma {:induction false} WrapFits(r: string, w: nat, at: nat, i: nat)
    requires w >= 1 && i < |Wrap(r, w)|
    ensures |Wrap(r, w)[i]| <= w && RowAt(r, at, Wrap(r, w)[i], WrapStarts(r, w, at)[i])
    decreases |r|
  {
    if |r| > w && i > 0 {
      WrapFits(r[w..], w, at + w, i - 1);
      assert r[w..|r|] == r[w..];
      RowAtIn(r, w, |r|, at, Wrap(r, w)[i], WrapStarts(r, w, at)[i]);
    }
  }

  /** The rows of a text are the rows of its first line and of what follows it. */
  lemma RowsSplit(r: string, w: nat, at: nat, k: nat)
    requires w >= 1 && k <= |r| && (forall j :: 0 <= j < k ==> r[j] != '\n') && (k < |r| ==> r[k] == '\n')
    ensures k == |r| ==> Rows(r, w) == Wrap(r, w) && Starts(r, w, at) == WrapStarts(r, w, at)
    ensures k < |r| ==>
              && Rows(r, w) == Wrap(r[..k], w) + Rows(r[k + 1..], w)
              && Starts(r, w, at) == WrapStarts(r[..k], w, at) + Starts(r[k + 1..], w, at + k + 1)
  {
    hide Wrap, WrapStarts, NextBreak;
    NextBreakIs(r, 0, k);
  }

  /** Row i lies at its start, inside the text. */
  predicate RowAt(r: string, at: nat, row: string, start: nat) {
    at <= start && start - at + |row| <= |r| && row == r[start - at..start - at + |row|]
  }

  lemma RowAtIn(r: string, a: nat, b: nat, at: nat, row: string, start: nat)
    requires a <= b <= |r| && RowAt(r[a..b], at + a, row, start)
    ensures RowAt(r, at, row, start)
  {
    var d := start - at - a;
    SliceOfSlice(r, a, b, d, d + |row|);
  }

  lemma SliceOfSlice(r: string, a: nat, b: nat, c: nat, d: nat)
    requires a <= b <= |r| && c <= d <= b - a
    ensures r[a..b][c..d] == r[a + c..a + d]
  {
    assert |r[a..b][c..d]| == |r[a + c..a + d]|;
    forall k | 0 <= k < d - c
      ensures r[a..b][c..d][k] == r[a + c..a + d][k]
    {
      assert r[a..b][c..d][k] == r[a..b][c + k] == r[a + c + k];
    }
  }

  /** Every row fits the width and is the piece of the text at its start. */
  lemma {:induction false} RowsFit(r: string, w: nat, at: nat, i: nat)
    requires w >= 1 && i < |Rows(r, w)|
    ensures |Rows(r, w)[i]| <= w && RowAt(r, at, Rows(r, w)[i], Starts(r, w, at)[i])
    decreases |r|
  {
    hide RowAt, Wrap, WrapStarts, Rows, Starts;
    var k := NextBreak(r, 0);
    RowsSplit(r, w, at, k);
    if k == |r| {
      WrapFits(r, w, at, i);
    } else {
      var n := |Wrap(r[..k], w)|;
      if i < n {
        WrapFits(r[..k], w, at, i);
        assert r[0..k] == r[..k];
        RowAtIn(r, 0, k, at, Rows(r, w)[i], Starts(r, w, at)[i]);
      } else {
        RowsFit(r[k + 1..], w, at + k + 1, i - n);
        assert r[k + 1..|r|] == r[k + 1..];
        RowAtIn(r, k + 1, |r|, at, Rows(r, w)[i], Starts(r, w, at)[i]);
      }
    }
  }

  // ---------------------------------------------------------------- the loops of render.go and chrome_mouse.go

  /** wrapRunes. */
  method WrapRunes(r: string, width: int) returns (lines: seq<string>)
    ensures lines == Wrap(r, Width(width))
  {
    var w := if width < 1 then 1 else width;
    lines := [];
    var rest := r;
    while |rest| > 0
      invariant rest == "" ==> lines == if r == "" then [] else Wrap(r, w)
      invariant rest != "" ==> lines + Wrap(rest, w) == Wrap(r, w)
      decreases |rest|
    {
      var n := w;
      if n > |rest| {
        n := |rest|;
      }
      assert rest[..|rest|] == rest;
      lines := lines + [rest[..n]];
      rest := rest[n..];
    }
    if |lines| == 0 {
      lines := [""];
    }
  }

  /** The rows of the line from `start` to the break at i, and those of what follows. */
  lemma LineStep(r: string, w: nat, start: nat, i: nat)
    requires w >= 1 && start <= i <= |r| && (forall j :: start <= j < i ==> r[j] != '\n') && (i < |r| ==> r[i] == '\n')
    ensures
      Rows(r[start..], w) == if i == |r| then Wrap(r[start..i], w) else Wrap(r[start..i], w) + Rows(r[i + 1..], w)
  {
    hide Rows, Wrap, Starts, WrapStarts;
    var line := r[start..];
    forall j | 0 <= j < i - start
      ensures line[j] != '\n'
    {
      assert line[j] == r[start + j];
    }
    RowsSplit(line, w, 0, i - start);
    assert line[..i - start] == r[start..i];
    assert i == |r| ==> line == r[start..i];
    assert i < |r| ==> line[i - start + 1..] == r[i + 1..];
  }

  /** wrapRunesMultiline. */
  method WrapRunesMultiline(r: string, width: int) returns (out: seq<string>)
    ensures out == Rows(r, Width(width))
  {
    hide Rows, Wrap;
    var w := if width < 1 then 1 else width;
    out := [];
    var start := 0;
    assert r[0..] == r;
    for i := 0 to |r|
      invariant start <= i && forall j :: start <= j < i ==> r[j] != '\n'
      invariant out + Rows(r[start..], w) == Rows(r, w)
    {
      if r[i] == '\n' {
        LineStep(r, w, start, i);
        var rows := WrapRunes(r[start..i], w);
        assert out + (rows + Rows(r[i + 1..], w)) == out + rows + Rows(r[i + 1..], w);
        out := out + rows;
        start := i + 1;
      }
    }
    LineStep(r, w, start, |r|);
    assert r[start..] == r[start..|r|];
    var rows := WrapRunes(r[start..], w);
    out := out + rows;
    if |out| == 0 {
      out := [""];
    }
  }

  lemma MulAtLeast(a: nat, w: nat)
    requires a >= 1
    ensures a * w >= w
  {
    assert a * w == (a - 1) * w + w;
  }

  lemma DivIs(n: nat, w: nat, q: nat, m: nat)
    requires w >= 1 && n == q * w + m && m < w
    ensures n / w == q && n % w == m
  {
    var p, k := n / w, n % w;
    assert n == p * w + k;
    assert (p - q) * w == m - k;
    if p < q {
      MulAtLeast(q - p, w);
    } else if p > q {
      MulAtLeast(p - q, w);
    }
  }

  lemma DivStep(n: nat, w: nat)
    requires 1 <= w <= n
    ensures n / w == (n - w) / w + 1 && n % w == (n - w) % w
  {
    var q, m := (n - w) / w, (n - w) % w;
    assert n - w == q * w + m;
    assert (q + 1) * w == q * w + w;
    DivIs(n, w, q + 1, m);
  }

  /** The number of rows of a line, as wrappedRuneOffset counts them. */
  function RowCount(n: nat, w: nat): nat
    requires w >= 1
  {
    if n == 0 then 1 else n / w + (if n % w != 0 then 1 else 0)
  }

  lemma {:induction false} WrapCount(r: string, w: nat)
    requires w >= 1
    ensures |Wrap(r, w)| == RowCount(|r|, w)
    decreases |r|
  {
    if |r| < w {
      DivIs(|r|, w, 0, |r|);
    } else if |r| == w {
      DivIs(w, w, 1, 0);
    } else {
      WrapCount(r[w..], w);
      DivStep(|r|, w);
    }
  }

  lemma {:induction false} WrapStartAt(r: string, w: nat, at: nat, i: nat)
    requires w >= 1 && i < |Wrap(r, w)|
    ensures WrapStarts(r, w, at)[i] == at + i * w && i * w <= |r|
    decreases |r|
  {
    if i > 0 {
      WrapStartAt(r[w..], w, at + w, i - 1);
      assert (i - 1) * w + w == i * w;
    }
  }

  /** The part of wrappedRuneOffset still to do: the lines from `pos`, of which rowIdx rows lie above. */
  ghost predicate Scanned(r: string, w: nat, pos: nat, rowIdx: nat)
    requires w >= 1 && pos <= |r|
  {
    && |Rows(r, w)| == rowIdx + |Rows(r[pos..], w)|
    && Starts(r, w, 0)[rowIdx..] == Starts(r[pos..], w, pos)
  }

  /** One line of a text: its rows, and what follows them. */
  lemma LineOf(r: string, w: nat, pos: nat, segEnd: nat)
    requires w >= 1 && pos <= segEnd <= |r|
    requires (forall j :: pos <= j < segEnd ==> r[j] != '\n') && (segEnd < |r| ==> r[segEnd] == '\n')
    ensures
      var n := RowCount(segEnd - pos, w);
      && n <= |Rows(r[pos..], w)|
      && (forall i: nat :: i < n ==> Starts(r[pos..], w, pos)[i] == pos + i * w <= segEnd)
      && (segEnd < |r| ==> |Rows(r[pos..], w)| == n + |Rows(r[segEnd + 1..], w)|)
      && (segEnd < |r| ==> Starts(r[pos..], w, pos)[n..] == Starts(r[segEnd + 1..], w, segEnd + 1))
      && (segEnd == |r| ==> |Rows(r[pos..], w)| == n)
  {
    hide Rows, Starts, Wrap, WrapStarts, RowCount;
    var rest, seg, k := r[pos..], r[pos..segEnd], segEnd - pos;
    RowsSplit(rest, w, pos, k);
    WrapCount(seg, w);
    assert rest[..k] == seg;
    assert segEnd < |r| ==> rest[k + 1..] == r[segEnd + 1..];
    assert segEnd == |r| ==> rest == seg;
    forall i: nat | i < |Wrap(seg, w)| ensures Starts(rest, w, pos)[i] == pos + i * w <= segEnd {
      WrapStartAt(seg, w, pos, i);
    }
  }

  lemma ScanLine(r: string, w: nat, pos: nat, rowIdx: nat, segEnd: nat, row: nat)
    requires w >= 1 && pos <= segEnd <= |r| && Scanned(r, w, pos, rowIdx) && rowIdx <= row
    requires (forall j :: pos <= j < segEnd ==> r[j] != '\n') && (segEnd < |r| ==> r[segEnd] == '\n')
    ensures
      var rows := RowCount(segEnd - pos, w);
      && (row < rowIdx + rows ==>
            row < |Rows(r, w)| && Starts(r, w, 0)[row] == pos + (row - rowIdx) * w <= segEnd)
      && (segEnd < |r| ==> Scanned(r, w, segEnd + 1, rowIdx + rows))
      && (segEnd == |r| ==> |Rows(r, w)| == rowIdx + rows)
  {
    hide Rows, Starts, RowCount;
    LineOf(r, w, pos, segEnd);
    var all, n := Starts(r, w, 0), RowCount(segEnd - pos, w);
    assert all[rowIdx + n..] == all[rowIdx..][n..];
    if row < rowIdx + n {
      assert all[row] == all[rowIdx..][row - rowIdx];
    }
  }

  /** wrappedRuneOffset: the offset is computed without building the rows. */
  method WrappedRuneOffset(r: string, width: int, row: nat) returns (offset: nat)
    ensures
      var w := Width(width);
      offset == if row < |Rows(r, w)| then Starts(r, w, 0)[row] else |r|
  {
    hide Rows, Starts;
    var w := if width < 1 then 1 else width;
    var pos: nat, rowIdx: nat := 0, 0;
    assert r[0..] == r;
    while pos <= |r|
      invariant 0 <= pos <= |r| && rowIdx <= row
      invariant Scanned(r, w, pos, rowIdx)
      decreases |r| - pos
    {
      var segEnd := pos;
      while segEnd < |r| && r[segEnd] != '\n'
        invariant pos <= segEnd <= |r| && forall j :: pos <= j < segEnd ==> r[j] != '\n'
      {
        segEnd := segEnd + 1;
      }
      var segLen := segEnd - pos;
      var rows := segLen / w;
      if segLen % w != 0 {
        rows := rows + 1;
      }
      if segLen == 0 {
        rows := 1;
      }
      ScanLine(r, w, pos, rowIdx, segEnd, row);
      assert rows == RowCount(segLen, w);
      if row < rowIdx + rows {
        var off := pos + (row - rowIdx) * w;
        if off > segEnd {
          off := segEnd;
        }
        return off;
      }
      rowIdx := rowIdx + rows;
      if segEnd >= |r| {
        break;
      }
      pos := segEnd + 1;
    }
    return |r|;
  }
}
