/** Greedy wrapping of lines of grapheme clusters (tui/styles.go). */
module LineWrap {

  datatype Cluster = Cluster(text: string, width: nat)

  predicate Blank(c: Cluster) {
    c.text == " "
  }

  /** The columns of the first n clusters. */
  function Width(cs: seq<Cluster>, n: nat): nat
    requires n <= |cs|
  {
    if n == 0 then 0 else Width(cs, n - 1) + cs[n - 1].width
  }

  function Text(cs: seq<Cluster>): string {
    if cs == [] then "" else cs[0].text + Text(cs[1..])
  }

  /** Where filling a row stops. */
  function Fill(cs: seq<Cluster>, w: nat, n: nat): (end: nat)
    requires n <= |cs|
    ensures n <= end <= |cs|
    decreases |cs| - n
  {
    if n == |cs| || (n > 0 && Width(cs, n + 1) > w) then n
    else if Width(cs, n + 1) >= w then n + 1
    else Fill(cs, w, n + 1)
  }

  function LastBlank(cs: seq<Cluster>, n: nat): (k: int)
    requires n <= |cs|
    ensures -1 <= k < n
    ensures k >= 0 ==> Blank(cs[k])
    ensures forall j :: k < j < n ==> !Blank(cs[j])
  {
    if n == 0 then -1 else if Blank(cs[n - 1]) then n - 1 else LastBlank(cs, n - 1)
  }

  /** A row, and whether a blank after it was dropped. */
  datatype Row = Row(cells: seq<Cluster>, dropped: bool)

  /** The row is broken at a blank inside it. */
  predicate Soft(cs: seq<Cluster>, w: nat) {
    Fill(cs, w, 0) < |cs| && LastBlank(cs, Fill(cs, w, 0)) > 0
  }

  function Cut(cs: seq<Cluster>, w: nat): (n: nat)
    ensures n <= |cs|
    ensures Soft(cs, w) ==> 0 < n < |cs| && Blank(cs[n])
  {
    if Soft(cs, w) then LastBlank(cs, Fill(cs, w, 0)) else Fill(cs, w, 0)
  }

  lemma {:induction false} FillAdvances(cs: seq<Cluster>, w: nat)
    requires cs != []
    ensures Cut(cs, w) > 0
  {
  }

  function Rows(cs: seq<Cluster>, w: nat): seq<Row>
    decreases |cs|
  {
    if cs == [] then []
    else
      FillAdvances(cs, w);
      var n := Cut(cs, w);
      if Soft(cs, w) then [Row(cs[..n], true)] + Rows(cs[n + 1..], w)
      else [Row(cs[..n], false)] + Rows(cs[n..], w)
  }

  /** An empty line is one empty row. */
  function LineRows(cs: seq<Cluster>, w: nat): seq<Row> {
    if cs == [] then [Row([], false)] else Rows(cs, w)
  }

  function Texts(rows: seq<Row>): seq<string> {
    if rows == [] then [] else [Text(rows[0].cells)] + Texts(rows[1..])
  }

  function AllRows(lines: seq<seq<Cluster>>, w: nat): seq<Row> {
    if lines == [] then [] else LineRows(lines[0], w) + AllRows(lines[1..], w)
  }

  lemma {:induction false} TextConcat(a: seq<Cluster>, b: seq<Cluster>)
    ensures Text(a + b) == Text(a) + Text(b)
    decreases |a|
  {
    if a == [] {
      assert a + b == b;
    } else {
      assert (a + b)[1..] == a[1..] + b;
      TextConcat(a[1..], b);
    }
  }

  lemma {:induction false} TextsConcat(a: seq<Row>, b: seq<Row>)
    ensures Texts(a + b) == Texts(a) + Texts(b)
    decreases |a|
  {
    if a == [] {
      assert a + b == b;
    } else {
      assert (a + b)[1..] == a[1..] + b;
      TextsConcat(a[1..], b);
    }
  }

  /** What is left of a line after its first row. */
  function After(cs: seq<Cluster>, w: nat): seq<Cluster> {
    if Soft(cs, w) then cs[Cut(cs, w) + 1..] else cs[Cut(cs, w)..]
  }

  lemma RowsUnfold(cs: seq<Cluster>, w: nat)
    requires cs != []
    ensures Rows(cs, w) == [Row(cs[..Cut(cs, w)], Soft(cs, w))] + Rows(After(cs, w), w)
  {
    hide Cut, Soft;
  }

  // ---------------------------------------------------------------- the program

  /** The inner loop of wrapLine. */
  method FillRow(cs: seq<Cluster>, w: nat) returns (end: nat, lastSpace: int)
    ensures end == Fill(cs, w, 0) && lastSpace == LastBlank(cs, end)
  {
    var width := 0;
    end := 0;
    lastSpace := -1;
    while end < |cs|
      invariant 0 <= end <= |cs|
      invariant width == Width(cs, end) && lastSpace == LastBlank(cs, end)
      invariant Fill(cs, w, end) == Fill(cs, w, 0)
    {
      var cw := cs[end].width;
      if end > 0 && width + cw > w {
        break;
      }
      width := width + cw;
      if cs[end].text == " " {
        lastSpace := end;
      }
      end := end + 1;
      if width >= w {
        assert Fill(cs, w, end - 1) == end;
        break;
      }
    }
  }

  method TextOf(cs: seq<Cluster>) returns (b: string)
    ensures b == Text(cs)
  {
    b := "";
    var i := 0;
    while i < |cs|
      invariant 0 <= i <= |cs|
      invariant b + Text(cs[i..]) == Text(cs)
    {
      assert cs[i..][1..] == cs[i + 1..];
      b := b + cs[i].text;
      i := i + 1;
    }
  }

  /** Where a row ends, and whether the blank there is dropped. */
  method FirstCut(cs: seq<Cluster>, w: nat) returns (cut: nat, skip: nat)
    requires cs != []
    ensures cut == Cut(cs, w) > 0 && skip == if Soft(cs, w) then 1 else 0
  {
    FillAdvances(cs, w);
    var end, lastSpace := FillRow(cs, w);
    cut, skip := end, 0;
    if end < |cs| && lastSpace > 0 {
      cut, skip := lastSpace, 1;
    }
  }

  method WrapLine(line: seq<Cluster>, w: nat) returns (out: seq<string>)
    ensures out == Texts(LineRows(line, w))
  {
    hide Rows, Cut, Soft, Text, Texts;
    EmptyLine(w);
    if |line| == 0 {
      return [""];
    }
    out := [];
    var cs := line;
    while |cs| > 0
      invariant out + Texts(Rows(cs, w)) == Texts(Rows(line, w))
      decreases |cs|
    {
      var cut, skip := FirstCut(cs, w);
      var text := TextOf(cs[..cut]);
      RowsUnfold(cs, w);
      OneText(Row(cs[..cut], skip == 1), Rows(cs[cut + skip..], w));
      out := out + [text];
      cs := cs[cut + skip..];
    }
    assert out + [] == out;
  }

  lemma EmptyLine(w: nat)
    ensures Texts([]) == [] && Texts(Rows([], w)) == [] && Texts([Row([], false)]) == [""]
  {
    assert [Row([], false)][1..] == [];
  }

  lemma OneText(row: Row, rest: seq<Row>)
    ensures Texts([row] + rest) == [Text(row.cells)] + Texts(rest)
  {
    assert ([row] + rest)[1..] == rest;
  }

  method WrapPlain(lines: seq<seq<Cluster>>, w: int) returns (out: seq<string>)
    ensures out == Texts(AllRows(lines, if w < 1 then 1 else w))
  {
    hide LineRows, Texts;
    EmptyLine(0);
    var width := if w < 1 then 1 else w;
    out := [];
    var i := 0;
    while i < |lines|
      invariant 0 <= i <= |lines|
      invariant out + Texts(AllRows(lines[i..], width)) == Texts(AllRows(lines, width))
    {
      var rows := WrapLine(lines[i], width);
      assert lines[i..][1..] == lines[i + 1..];
      TextsConcat(LineRows(lines[i], width), AllRows(lines[i + 1..], width));
      out := out + rows;
      i := i + 1;
    }
  }

  // ---------------------------------------------------------------- the rows

  /** The characters of a line, from its rows: a blank goes back to each soft break. */
  function Unwrapped(rows: seq<Row>): string {
    if rows == [] then ""
    else Text(rows[0].cells) + (if rows[0].dropped then " " else "") + Unwrapped(rows[1..])
  }

  predicate Fits(row: Row, w: nat) {
    Width(row.cells, |row.cells|) <= w || |row.cells| == 1
  }

  lemma {:induction false} WidthOfPrefix(cs: seq<Cluster>, n: nat, k: nat)
    requires k <= n <= |cs|
    ensures Width(cs[..n], k) == Width(cs, k)
  {
    if k > 0 {
      WidthOfPrefix(cs, n, k - 1);
    }
  }

  lemma {:induction false} WidthGrows(cs: seq<Cluster>, a: nat, b: nat)
    requires a <= b <= |cs|
    ensures Width(cs, a) <= Width(cs, b)
  {
    if a < b {
      WidthGrows(cs, a, b - 1);
    }
  }

  /** A row is filled as far as it can be: one cluster at least, and no further than the width, but up to it unless
      the line ends or the next cluster is too wide. */
  lemma {:induction false} FillIs(cs: seq<Cluster>, w: nat, n: nat)
    requires n < |cs| && (n > 0 ==> Width(cs, n) < w)
    ensures
      var end := Fill(cs, w, n);
      && end > 0 && (Width(cs, end) <= w || end == 1)
      && (end < |cs| ==> Width(cs, end) >= w || Width(cs, end + 1) > w)
    decreases |cs| - n
  {
    if n > 0 && Width(cs, n + 1) > w {
    } else if Width(cs, n + 1) >= w {
    } else if n + 1 < |cs| {
      FillIs(cs, w, n + 1);
    }
  }

  lemma FirstFits(cs: seq<Cluster>, w: nat)
    requires cs != []
    ensures Fits(Row(cs[..Cut(cs, w)], Soft(cs, w)), w)
  {
    FillAdvances(cs, w);
    FillIs(cs, w, 0);
    var n := Cut(cs, w);
    WidthOfPrefix(cs, n, n);
    WidthGrows(cs, n, Fill(cs, w, 0));
  }

  lemma FirstText(cs: seq<Cluster>, w: nat)
    ensures Text(cs) == Text(cs[..Cut(cs, w)]) + (if Soft(cs, w) then " " else "") + Text(After(cs, w))
  {
    hide Soft, Cut;
    var n := Cut(cs, w);
    TextConcat(cs[..n], cs[n..]);
    assert cs == cs[..n] + cs[n..];
    if Soft(cs, w) {
      assert cs[n..][1..] == After(cs, w);
    }
  }

  lemma FirstRow(cs: seq<Cluster>, w: nat)
    requires cs != []
    ensures
      var row := Row(cs[..Cut(cs, w)], Soft(cs, w));
      && |After(cs, w)| < |cs| && row.cells != []
      && Rows(cs, w) == [row] + Rows(After(cs, w), w)
      && Fits(row, w)
      && Text(cs) == Text(row.cells) + (if row.dropped then " " else "") + Text(After(cs, w))
  {
    hide Rows, Soft, Cut, Fits, Text;
    FillAdvances(cs, w);
    FirstFits(cs, w);
    FirstText(cs, w);
    RowsUnfold(cs, w);
  }

  /** Every row fits, or is one cluster that is wider than the screen; none is empty; and the rows give the line back,
      every character and blank in its place. */
  lemma {:induction false} WrapKeepsLine(cs: seq<Cluster>, w: nat)
    ensures forall k :: 0 <= k < |Rows(cs, w)| ==> Fits(Rows(cs, w)[k], w) && Rows(cs, w)[k].cells != []
    ensures Unwrapped(Rows(cs, w)) == Text(cs)
    ensures |Rows(cs, w)| <= |cs|
    decreases |cs|
  {
    if cs != [] {
      FirstRow(cs, w);
      var rest := After(cs, w);
      var row := Row(cs[..Cut(cs, w)], Soft(cs, w));
      WrapKeepsLine(rest, w);
      hide Rows, After, Fits, Soft, Cut, Text;
      assert ([row] + Rows(rest, w))[1..] == Rows(rest, w);
      forall k | 0 <= k < |Rows(cs, w)|
        ensures Fits(Rows(cs, w)[k], w) && Rows(cs, w)[k].cells != []
      {
        if k > 0 {
          assert Rows(cs, w)[k] == Rows(rest, w)[k - 1];
        }
      }
    }
  }

  /** A position at which a row could end without splitting a word. */
  predicate WordEnd(cs: seq<Cluster>, p: nat)
    requires p <= |cs|
  {
    p == |cs| || Blank(cs[p])
  }

  /** A soft break leaves room for another word exactly when the word it gives up ends where filling stopped, or only
      clusters without width lie between. */
  lemma SoftBreakIsGreedy(cs: seq<Cluster>, w: nat)
    requires Soft(cs, w)
    ensures
      var end := Fill(cs, w, 0);
      && (exists p :: Cut(cs, w) < p <= |cs| && WordEnd(cs, p) && Width(cs, p) <= w)
      <==> (exists p :: end <= p <= |cs| && WordEnd(cs, p) && Width(cs, p) == Width(cs, end))
  {
    var end := Fill(cs, w, 0);
    FillIs(cs, w, 0);
    forall p | Cut(cs, w) < p <= |cs| && WordEnd(cs, p) && Width(cs, p) <= w
      ensures end <= p && Width(cs, p) == Width(cs, end)
    {
      assert end <= p;
      WidthGrows(cs, end, p);
      if end < p {
        WidthGrows(cs, end + 1, p);
      }
    }
  }

  /** For instance a word that fills its row to the last column goes to the next one. */
  lemma FullRowBreaksEarly(a: Cluster, b: Cluster, c: Cluster, w: nat)
    requires a.width > 0 && b.width > 0 && a.width + 1 + b.width == w
    requires !Blank(a) && !Blank(b)
    ensures
      var blank := Cluster(" ", 1);
      Rows([a, blank, b, blank, c], w)[0] == Row([a], true)
  {
    var blank := Cluster(" ", 1);
    var cs := [a, blank, b, blank, c];
    assert Width(cs, 1) == a.width;
    assert Width(cs, 2) == a.width + 1;
    assert Width(cs, 3) == w;
    assert Fill(cs, w, 2) == 3;
    assert Fill(cs, w, 0) == 3;
    assert LastBlank(cs, 3) == LastBlank(cs, 2) == 1;
    assert cs[..1] == [a];
  }

  // ---------------------------------------------------------------- the rows, said again

  function Columns(cs: seq<Cluster>): nat {
    if cs == [] then 0 else cs[0].width + Columns(cs[1..])
  }

  /** A row can take the first n clusters and not one more: it is at its width with the n-th and not before, or the next
      one is too wide, or there is none. The first cluster is taken however wide it is. */
  ghost predicate Takes(cs: seq<Cluster>, w: nat, n: nat) {
    && 0 < n <= |cs|
    && (n > 1 ==> Columns(cs[..n]) <= w)
    && (forall k :: 0 < k < n ==> Columns(cs[..k]) < w)
    && (n < |cs| ==> Columns(cs[..n]) >= w || Columns(cs[..n + 1]) > w)
  }

  /** The first row of a line: all of it if a row can take it, otherwise up to the last blank below the first cluster
      that a row can take, which is dropped, or without such a blank as much as a row can take. */
  ghost predicate Begins(cs: seq<Cluster>, w: nat, row: Row) {
    exists n: nat :: Takes(cs, w, n) &&
      if n < |cs| && exists k :: 0 < k < n && cs[k].text == " " then
        && row.dropped && row.cells < cs[..n] && 0 < |row.cells| && cs[|row.cells|].text == " "
        && forall k :: |row.cells| < k < n ==> cs[k].text != " "
      else row == Row(cs[..n], false)
  }

  /** And so on with what the row leaves. */
  ghost predicate Wraps(cs: seq<Cluster>, w: nat, rows: seq<Row>)
    decreases |rows|
  {
    if cs == [] then rows == []
    else
      && rows != [] && Begins(cs, w, rows[0]) && |rows[0].cells| + (if rows[0].dropped then 1 else 0) <= |cs|
      && Wraps(cs[|rows[0].cells| + if rows[0].dropped then 1 else 0..], w, rows[1..])
  }

  lemma {:induction false} ColumnsMore(cs: seq<Cluster>, c: Cluster)
    ensures Columns(cs + [c]) == Columns(cs) + c.width
  {
    if cs == [] {
      assert [c][1..] == [];
    } else {
      ColumnsMore(cs[1..], c);
      assert (cs + [c])[1..] == cs[1..] + [c];
    }
  }

  lemma {:induction false} ColumnsAre(cs: seq<Cluster>, n: nat)
    requires n <= |cs|
    ensures Columns(cs[..n]) == Width(cs, n)
  {
    if n > 0 {
      ColumnsAre(cs, n - 1);
      ColumnsMore(cs[..n - 1], cs[n - 1]);
      assert cs[..n] == cs[..n - 1] + [cs[n - 1]];
    }
  }

  lemma {:induction false} FillTakes(cs: seq<Cluster>, w: nat, n: nat)
    requires n < |cs| && forall k :: 0 < k <= n ==> Columns(cs[..k]) < w
    ensures Takes(cs, w, Fill(cs, w, n))
    decreases |cs| - n
  {
    ColumnsAre(cs, n);
    ColumnsAre(cs, n + 1);
    if n > 0 && Width(cs, n + 1) > w {
    } else if Width(cs, n + 1) >= w {
    } else if n + 1 < |cs| {
      FillTakes(cs, w, n + 1);
    }
  }

  lemma RowBegins(cs: seq<Cluster>, w: nat)
    requires cs != []
    ensures Begins(cs, w, Row(cs[..Cut(cs, w)], Soft(cs, w)))
  {
    FillTakes(cs, w, 0);
    hide Fill, Takes;
    var end, n := Fill(cs, w, 0), Cut(cs, w);
    assert cs[..n] == cs[..end][..n] && |cs[..n]| == n;
    if Soft(cs, w) {
      assert 0 < n < end && cs[n].text == " ";
    } else {
      assert end < |cs| ==> forall k :: 0 < k < end ==> !Blank(cs[k]);
    }
  }

  /** The rows of every line are these. */
  lemma {:induction false} RowsAreThese(cs: seq<Cluster>, w: nat)
    ensures Wraps(cs, w, Rows(cs, w))
    decreases |cs|
  {
    if cs != [] {
      RowBegins(cs, w);
      RowsUnfold(cs, w);
      FillAdvances(cs, w);
      hide Begins, Soft, Cut, Rows;
      var rest, n := After(cs, w), Cut(cs, w);
      assert ([Row(cs[..n], Soft(cs, w))] + Rows(rest, w))[1..] == Rows(rest, w);
      RowsAreThese(rest, w);
    }
  }

  /** What is printed: one text for each row, the characters of its clusters, and one empty row for an empty line. */
  lemma {:induction false} PrintedTexts(lines: seq<seq<Cluster>>, w: nat, line: seq<Cluster>)
    ensures Texts(AllRows(lines + [line], w)) ==
            Texts(AllRows(lines, w)) + if line == [] then [""] else Texts(Rows(line, w))
    ensures |Texts(Rows(line, w))| == |Rows(line, w)|
    ensures forall k :: 0 <= k < |Rows(line, w)| ==> Texts(Rows(line, w))[k] == Text(Rows(line, w)[k].cells)
    decreases |lines|
  {
    TextsAt(Rows(line, w));
    hide Rows, Texts;
    EmptyLine(w);
    var rows := LineRows(line, w);
    if lines == [] {
      assert [line][1..] == [] && rows + [] == rows && [] + Texts(rows) == Texts(rows);
    } else {
      PrintedTexts(lines[1..], w, line);
      assert (lines + [line])[1..] == lines[1..] + [line];
      TextsConcat(LineRows(lines[0], w), AllRows(lines[1..] + [line], w));
      TextsConcat(LineRows(lines[0], w), AllRows(lines[1..], w));
    }
  }

  lemma {:induction false} TextsAt(rows: seq<Row>)
    ensures |Texts(rows)| == |rows| && forall k :: 0 <= k < |rows| ==> Texts(rows)[k] == Text(rows[k].cells)
  {
    if rows != [] {
      TextsAt(rows[1..]);
    }
  }

  /** No character is added or lost: the text of clusters is theirs in order. */
  lemma TextMore(cs: seq<Cluster>, c: Cluster)
    ensures Text([]) == "" && Text(cs + [c]) == Text(cs) + c.text
  {
    TextConcat(cs, [c]);
    assert [c][1..] == [] && c.text + "" == c.text;
  }
}
