/** The window of a grouped list in a dialogue (renderListModal in tui/modal.go). A list is the groups of its items,
    "" for none. */
module ListWindow {

  /** The lines item i takes when the window starts at `start`: a heading goes above it where the group changes. */
  function Cost(groups: seq<string>, start: nat, i: nat): (c: nat)
    requires start <= i < |groups|
    ensures 1 <= c <= 2
  {
    if groups[i] != "" && (i == start || groups[i] != groups[i - 1]) then 2 else 1
  }

  function Used(groups: seq<string>, start: nat, end: nat): (u: nat)
    requires start <= end <= |groups|
    ensures u >= end - start
    decreases end
  {
    if end == start then 0 else Used(groups, start, end - 1) + Cost(groups, start, end - 1)
  }

  function EndFrom(groups: seq<string>, budget: nat, start: nat, end: nat): (e: nat)
    requires start <= end <= |groups|
    ensures end <= e <= |groups|
    decreases |groups| - end
  {
    if end == |groups| || (end > start && Used(groups, start, end + 1) > budget) then end
    else EndFrom(groups, budget, start, end + 1)
  }

  function WindowEnd(groups: seq<string>, budget: nat, start: nat): (e: nat)
    requires start <= |groups|
    ensures start <= e <= |groups|
  {
    EndFrom(groups, budget, start, start)
  }

  lemma {:induction false} UsedGrows(groups: seq<string>, start: nat, a: nat, b: nat)
    requires start <= a <= b <= |groups|
    ensures Used(groups, start, a) + (b - a) <= Used(groups, start, b)
    decreases b
  {
    if a < b {
      UsedGrows(groups, start, a, b - 1);
    }
  }

  /** The window takes its first item whatever it costs, and further items exactly as long as the budget allows. */
  lemma {:induction false} EndFromIs(groups: seq<string>, budget: nat, start: nat, end: nat, e: nat)
    requires start <= end <= |groups| && start < |groups| && start < e <= |groups|
    requires end > start + 1 ==> Used(groups, start, end) <= budget
    ensures EndFrom(groups, budget, start, end) >= e <==> e <= end || e == start + 1 || Used(groups, start, e) <= budget
    decreases |groups| - end
  {
    if end == |groups| {
    } else if end > start && Used(groups, start, end + 1) > budget {
      if e > end {
        UsedGrows(groups, start, end + 1, e);
      }
    } else {
      EndFromIs(groups, budget, start, end + 1, e);
      if e <= end + 1 && start + 1 < e {
        UsedGrows(groups, start, e, end + 1);
      }
    }
  }

  lemma WindowShows(groups: seq<string>, budget: nat, start: nat, i: nat)
    requires start <= i < |groups|
    ensures i < WindowEnd(groups, budget, start) <==> i == start || Used(groups, start, i + 1) <= budget
  {
    EndFromIs(groups, budget, start, start, i + 1);
  }

  /** Starting one item later never costs more lines. */
  lemma {:induction false} LaterIsCheaper(groups: seq<string>, start: nat, end: nat)
    requires start + 1 <= end <= |groups|
    ensures Used(groups, start + 1, end) < Used(groups, start, end)
    decreases end
  {
    if end > start + 1 {
      LaterIsCheaper(groups, start, end - 1);
      if end - 1 == start + 1 {
        assert Used(groups, start, end - 1) == Cost(groups, start, start);
      }
    }
  }

  // ---------------------------------------------------------------- the window, said again

  /** Where a heading stands when the window starts at `start`. */
  predicate HasHeading(groups: seq<string>, start: nat, i: nat)
    requires start <= i < |groups|
  {
    groups[i] != "" && (i == start || groups[i] != groups[i - 1])
  }

  function Headings(groups: seq<string>, start: nat, end: nat): set<nat>
    requires start <= end <= |groups|
  {
    set i: nat | start <= i < end && HasHeading(groups, start, i)
  }

  /** The lines of items start..end: one for each item and one for each heading. */
  function LinesOf(groups: seq<string>, start: nat, end: nat): nat
    requires start <= end <= |groups|
  {
    end - start + |Headings(groups, start, end)|
  }

  /** The lines that a dialogue has for its list. */
  function Room(height: int, showFilter: bool): nat {
    if showFilter && height > 9 then height - 9 else if !showFilter && height > 8 then height - 8 else 1
  }

  lemma HeadingsMore(groups: seq<string>, start: nat, i: nat)
    requires start <= i < |groups|
    ensures
      |Headings(groups, start, i + 1)| == |Headings(groups, start, i)| + if HasHeading(groups, start, i) then 1 else 0
  {
    hide HasHeading;
    var before, all := Headings(groups, start, i), Headings(groups, start, i + 1);
    if HasHeading(groups, start, i) {
      assert all == before + {i} && i !in before;
    } else {
      assert all == before;
    }
  }

  lemma {:induction false} UsedIs(groups: seq<string>, start: nat, end: nat)
    requires start <= end <= |groups|
    ensures Used(groups, start, end) == LinesOf(groups, start, end)
    decreases end
  {
    if start < end {
      assert Cost(groups, start, end - 1) == if HasHeading(groups, start, end - 1) then 2 else 1;
      hide HasHeading, Cost, Headings;
      UsedIs(groups, start, end - 1);
      HeadingsMore(groups, start, end - 1);
    } else {
      assert Headings(groups, start, end) == {};
    }
  }

  predicate InRoom(groups: seq<string>, room: nat, start: nat, i: nat)
    requires start <= i < |groups|
  {
    i == start || LinesOf(groups, start, i + 1) <= room
  }

  /** An item is in the window exactly when it is the first one or there is room down to it. */
  lemma WindowIsFull(groups: seq<string>, budget: nat, start: nat, i: nat)
    requires start <= i < |groups|
    ensures i < WindowEnd(groups, budget, start) <==> InRoom(groups, budget, start, i)
  {
    UsedIs(groups, start, i + 1);
    WindowShows(groups, budget, start, i);
  }

  /** The group of the last heading. */
  function LastHeading(lines: seq<Line>): string {
    if lines == [] then ""
    else if lines[|lines| - 1].Heading? then lines[|lines| - 1].group
    else LastHeading(lines[..|lines| - 1])
  }

  /** A heading is new and stands directly above an item of its group; an item of a group is below the heading of that
      group and no other, but for the first item when there is no room. */
  predicate HeadedAt(groups: seq<string>, start: nat, room: bool, lines: seq<Line>, p: nat)
    requires p < |lines|
  {
    match lines[p]
    case Heading(group) =>
      && group != "" && LastHeading(lines[..p]) != group
      && p + 1 < |lines| && lines[p + 1].Item? && lines[p + 1].index < |groups| && groups[lines[p + 1].index] == group
    case Item(i) =>
      && i < |groups| && (groups[i] != "" && (room || i > start) ==> LastHeading(lines[..p]) == groups[i])
      && (i == start && !room ==> LastHeading(lines[..p]) == "")
  }

  /** From line n on. */
  predicate Headed(groups: seq<string>, start: nat, room: bool, lines: seq<Line>, n: nat) {
    forall p :: n <= p < |lines| ==> HeadedAt(groups, start, room, lines, p)
  }

  lemma {:induction false} DrawnHeaded(groups: seq<string>, budget: nat, start: nat, end: nat, vi: nat, prev: string,
                                       above: seq<Line>)
    requires start <= vi <= end <= |groups| && LastHeading(above) == prev && (vi == start ==> above == [])
    ensures
      Headed(groups, start, end - start < budget, above + Drawn(groups, budget, start, end, vi, prev), |above|)
    decreases end - vi
  {
    hide Headed, LastHeading;
    var room := end - start < budget;
    if vi < end {
      var heading := groups[vi] != "" && groups[vi] != prev && (room || vi > start);
      var lines := if heading then [Heading(groups[vi]), Item(vi)] else [Item(vi)];
      var prev' := if heading then groups[vi] else prev;
      var rest := Drawn(groups, budget, start, end, vi + 1, prev');
      DrawnStep(groups, budget, start, end, vi, prev);
      hide Drawn;
      LastOf(above, lines, groups[vi], vi, heading);
      DrawnHeaded(groups, budget, start, end, vi + 1, prev', above + lines);
      Regrouped(above, lines, rest);
      OneHeaded(groups, start, room, above, lines, rest, vi, heading);
    } else {
      NothingDrawn(groups, budget, start, end, prev);
      NothingHeaded(groups, start, room, above);
    }
  }

  lemma NothingHeaded(groups: seq<string>, start: nat, room: bool, above: seq<Line>)
    ensures Headed(groups, start, room, above + [], |above|)
  {
  }

  lemma LastOf(above: seq<Line>, lines: seq<Line>, group: string, i: nat, heading: bool)
    requires lines == if heading then [Heading(group), Item(i)] else [Item(i)]
    ensures LastHeading(above + lines) == if heading then group else LastHeading(above)
  {
    var all := above + lines;
    assert all[..|all| - 1] == above + lines[..|lines| - 1];
    if heading {
      assert (above + [Heading(group)])[|above|] == Heading(group);
      assert lines[..1] == [Heading(group)];
    } else {
      assert above + [] == above;
    }
  }

  lemma OneHeaded(groups: seq<string>, start: nat, room: bool, above: seq<Line>, lines: seq<Line>, rest: seq<Line>,
                  i: nat, heading: bool)
    requires start <= i < |groups| && lines == if heading then [Heading(groups[i]), Item(i)] else [Item(i)]
    requires heading <==> groups[i] != "" && groups[i] != LastHeading(above) && (room || i > start)
    requires i == start ==> above == []
    requires Headed(groups, start, room, (above + lines) + rest, |above + lines|)
    ensures Headed(groups, start, room, (above + lines) + rest, |above|)
  {
    var all, n := (above + lines) + rest, |above|;
    assert all[..n] == above;
    NothingAbove();
    HeadingIsLast(above, groups[i]);
    hide LastHeading;
    if heading {
      assert all[n] == Heading(groups[i]) && all[n + 1] == Item(i);
      assert all[..n + 1] == above + [Heading(groups[i])];
      assert HeadedAt(groups, start, room, all, n) && HeadedAt(groups, start, room, all, n + 1);
    } else {
      assert all[n] == Item(i);
      assert HeadedAt(groups, start, room, all, n);
    }
  }

  lemma HeadingIsLast(above: seq<Line>, group: string)
    ensures LastHeading(above + [Heading(group)]) == group
  {
  }

  lemma NothingAbove()
    ensures LastHeading([]) == ""
  {
  }

  // ---------------------------------------------------------------- the program

  datatype Line = Heading(group: string) | Item(index: nat)

  function Budget(height: int, showFilter: bool): (b: nat)
    ensures b >= 1
  {
    var b := if showFilter then height - 9 else height - 8;
    if b < 1 then 1 else b
  }

  /** Which lines are drawn for the items from vi on; `prev` is the last heading. */
  function Drawn(groups: seq<string>, budget: nat, start: nat, end: nat, vi: nat, prev: string): seq<Line>
    requires start <= vi <= end <= |groups|
    decreases end - vi
  {
    if vi == end then []
    else if groups[vi] != "" && groups[vi] != prev && (end - start < budget || vi > start) then
      [Heading(groups[vi]), Item(vi)] + Drawn(groups, budget, start, end, vi + 1, groups[vi])
    else [Item(vi)] + Drawn(groups, budget, start, end, vi + 1, prev)
  }

  class Modal {
    var cursor: int
    var scroll: int

    method FindWindowEnd(groups: seq<string>, budget: nat, start: nat) returns (end: nat)
      requires start <= |groups|
      ensures end == WindowEnd(groups, budget, start)
    {
      var used, group := 0, "";
      end := start;
      while end < |groups|
        invariant start <= end <= |groups|
        invariant used == Used(groups, start, end)
        invariant group == if end == start then "" else groups[end - 1]
        invariant EndFrom(groups, budget, start, end) == WindowEnd(groups, budget, start)
      {
        var g := groups[end];
        var cost := 1;
        if g != "" && g != group {
          cost := cost + 1;
        }
        assert cost == Cost(groups, start, end);
        if used > 0 && used + cost > budget {
          break;
        }
        used := used + cost;
        group := g;
        end := end + 1;
      }
    }

    /** The cursor is brought into the list, and the window down to the cursor, no further than it takes. */
    method Place(groups: seq<string>, budget: nat)
      modifies this
      ensures
        groups == [] ==>
          && cursor == (if old(cursor) < 0 then 0 else old(cursor))
          && scroll == if old(scroll) < 0 then 0 else if old(scroll) > cursor then cursor else old(scroll)
      ensures groups != [] ==> cursor == Clamped(old(cursor), |groups|)
      ensures groups != [] ==>
        var from := if old(scroll) < 0 then 0 else if old(scroll) > cursor then cursor else old(scroll);
        && from <= scroll <= cursor < WindowEnd(groups, budget, scroll)
        && forall k :: from <= k < scroll ==> WindowEnd(groups, budget, k) <= cursor
    {
      var n := |groups|;
      if cursor < 0 {
        cursor := 0;
      }
      if cursor >= n && n > 0 {
        cursor := n - 1;
      }
      if scroll > cursor {
        scroll := cursor;
      }
      if scroll < 0 {
        scroll := 0;
      }
      if n == 0 {
        return;
      }
      ghost var from := scroll;
      var end := FindWindowEnd(groups, budget, scroll);
      while cursor >= end && scroll < cursor
        invariant from <= scroll <= cursor < n
        invariant cursor == Clamped(old(cursor), n)
        invariant end == WindowEnd(groups, budget, scroll)
        invariant forall k :: from <= k < scroll ==> WindowEnd(groups, budget, k) <= cursor
        decreases cursor - scroll
      {
        scroll := scroll + 1;
        end := FindWindowEnd(groups, budget, scroll);
      }
      WindowShows(groups, budget, scroll, cursor);
    }

    /** The list part of renderListModal: the lines fit, they are the items of one window in order, and the item under
        the cursor is among them. */
    method Render(groups: seq<string>, height: int, showFilter: bool) returns (lines: seq<Line>)
      modifies this
      ensures |lines| <= Room(height, showFilter)
      ensures groups == [] ==> lines == []
      ensures groups != [] ==> 0 <= scroll <= cursor < |groups|
      ensures groups != [] ==>
        cursor == if old(cursor) < 0 then 0 else if old(cursor) < |groups| then old(cursor) else |groups| - 1
      ensures groups != [] ==>
        var end := WindowEnd(groups, Room(height, showFilter), scroll);
        && cursor < end
        && Items(lines) == Range(scroll, end)
        && Headed(groups, scroll, end - scroll < Room(height, showFilter), lines, 0)
        && forall i :: scroll <= i < |groups| ==>
             (i < end <==> InRoom(groups, Room(height, showFilter), scroll, i))
    {
      hide Drawn, WindowEnd, Items, InRoom, Headed;
      var budget := Budget(height, showFilter);
      Place(groups, budget);
      if groups == [] {
        return [];
      }
      lines := Draw(groups, budget);
      DrawnFits(groups, budget, scroll);
      var end := WindowEnd(groups, budget, scroll);
      DrawnItems(groups, budget, scroll, end, scroll, "");
      DrawnHeaded(groups, budget, scroll, end, scroll, "", []);
      assert [] + lines == lines;
      forall i | scroll <= i < |groups|
        ensures i < end <==> InRoom(groups, budget, scroll, i)
      {
        WindowIsFull(groups, budget, scroll, i);
      }
    }

    method Draw(groups: seq<string>, budget: nat) returns (lines: seq<Line>)
      requires 0 <= scroll <= |groups|
      ensures
        var end := WindowEnd(groups, budget, scroll);
        lines == Drawn(groups, budget, scroll, end, scroll, "")
    {
      hide Drawn, WindowEnd;
      var visEnd := FindWindowEnd(groups, budget, scroll);
      lines := [];
      var prevGroup := "";
      var vi: nat := scroll;
      while vi < visEnd
        invariant scroll <= vi <= visEnd <= |groups|
        invariant
          lines + Drawn(groups, budget, scroll, visEnd, vi, prevGroup)
          == Drawn(groups, budget, scroll, visEnd, scroll, "")
      {
        var g := groups[vi];
        ghost var was, prev, rest := lines, prevGroup, Drawn(groups, budget, scroll, visEnd, vi, prevGroup);
        if g != "" && g != prevGroup && (visEnd - scroll < budget || vi > scroll) {
          prevGroup := g;
          lines := lines + [Heading(g)];
        }
        lines := lines + [Item(vi)];
        vi := vi + 1;
        DrawnStep(groups, budget, scroll, visEnd, vi - 1, prev);
        Regrouped(was, lines[|was|..], Drawn(groups, budget, scroll, visEnd, vi, prevGroup));
      }
      NothingDrawn(groups, budget, scroll, visEnd, prevGroup);
    }
  }

  lemma NothingDrawn(groups: seq<string>, budget: nat, start: nat, end: nat, prev: string)
    requires start <= end <= |groups|
    ensures Drawn(groups, budget, start, end, end, prev) == []
  {
  }

  lemma DrawnStep(groups: seq<string>, budget: nat, start: nat, end: nat, vi: nat, prev: string)
    requires start <= vi < end <= |groups|
    ensures
      var heading := groups[vi] != "" && groups[vi] != prev && (end - start < budget || vi > start);
      Drawn(groups, budget, start, end, vi, prev)
      == (if heading then [Heading(groups[vi]), Item(vi)] else [Item(vi)])
         + Drawn(groups, budget, start, end, vi + 1, if heading then groups[vi] else prev)
  {
  }

  lemma Regrouped(a: seq<Line>, b: seq<Line>, c: seq<Line>)
    ensures a + (b + c) == (a + b) + c
  {
  }

  function Clamped(cursor: int, n: nat): int
    requires n > 0
  {
    if cursor < 0 then 0 else if cursor >= n then n - 1 else cursor
  }

  // ---------------------------------------------------------------- what is drawn

  /** Among the windows at or above the cursor, those that show it are exactly the ones from some position on, so the
      least scrolling that Place does leaves nothing to skip. */
  lemma VisibleFrom(groups: seq<string>, budget: nat, a: nat, b: nat, cursor: nat)
    requires a <= b <= cursor < |groups|
    ensures cursor < WindowEnd(groups, budget, a) ==> cursor < WindowEnd(groups, budget, b)
    decreases b - a
  {
    if a < b {
      WindowShows(groups, budget, a, cursor);
      WindowShows(groups, budget, a + 1, cursor);
      LaterIsCheaper(groups, a, cursor + 1);
      VisibleFrom(groups, budget, a + 1, b, cursor);
    }
  }

  /** The items of the lines, in order. */
  function Items(lines: seq<Line>): seq<nat> {
    if lines == [] then [] else (if lines[0].Item? then [lines[0].index] else []) + Items(lines[1..])
  }

  function Range(a: nat, b: nat): (r: seq<nat>)
    requires a <= b
    ensures |r| == b - a && forall k :: 0 <= k < |r| ==> r[k] == a + k
    decreases b - a
  {
    if a == b then [] else [a] + Range(a + 1, b)
  }

  lemma ItemsStep(i: nat, group: string, rest: seq<Line>)
    ensures Items([Item(i)] + rest) == Items([Heading(group), Item(i)] + rest) == [i] + Items(rest)
  {
    assert ([Item(i)] + rest)[1..] == rest;
    assert ([Heading(group), Item(i)] + rest)[1..] == [Item(i)] + rest;
  }

  lemma {:induction false} DrawnItems(groups: seq<string>, budget: nat, start: nat, end: nat, vi: nat, prev: string)
    requires start <= vi <= end <= |groups|
    ensures Items(Drawn(groups, budget, start, end, vi, prev)) == Range(vi, end)
    decreases end - vi
  {
    if vi < end {
      var heading := groups[vi] != "" && groups[vi] != prev && (end - start < budget || vi > start);
      var tail := if heading then groups[vi] else prev;
      var rest := Drawn(groups, budget, start, end, vi + 1, tail);
      DrawnStep(groups, budget, start, end, vi, prev);
      DrawnItems(groups, budget, start, end, vi + 1, tail);
      hide Drawn;
      ItemsStep(vi, groups[vi], rest);
    }
  }

  /** When there is room for the first heading, drawing uses no more lines than the window was charged for. */
  lemma {:induction false} DrawnIsPaid(groups: seq<string>, budget: nat, start: nat, end: nat, vi: nat, prev: string)
    requires start <= vi <= end <= |groups| && end - start < budget
    requires vi > start && groups[vi - 1] != "" ==> prev == groups[vi - 1]
    ensures |Drawn(groups, budget, start, end, vi, prev)| + Used(groups, start, vi) <= Used(groups, start, end)
    decreases end - vi
  {
    if vi < end {
      DrawnIsPaid(groups, budget, start, end, vi + 1, if groups[vi] != "" then groups[vi] else prev);
    }
  }

  lemma {:induction false} UngroupedDrawn(groups: seq<string>, budget: nat, start: nat, end: nat, vi: nat)
    requires start <= vi <= end <= |groups|
    requires forall k :: vi <= k < end ==> groups[k] == ""
    ensures |Drawn(groups, budget, start, end, vi, "")| == end - vi
    decreases end - vi
  {
    if vi < end {
      UngroupedDrawn(groups, budget, start, end, vi + 1);
    }
  }

  lemma {:induction false} FreeMeansUngrouped(groups: seq<string>, start: nat, end: nat)
    requires start < end <= |groups| && Used(groups, start, end) == end - start
    ensures forall k :: start <= k < end ==> groups[k] == ""
    decreases end
  {
    if end - 1 > start {
      FreeMeansUngrouped(groups, start, end - 1);
    }
  }

  /** Rows and headings together never exceed the budget, wherever the window starts. */
  lemma DrawnFits(groups: seq<string>, budget: nat, start: nat)
    requires start < |groups| && budget >= 1
    ensures
      var end := WindowEnd(groups, budget, start);
      |Drawn(groups, budget, start, end, start, "")| <= budget
  {
    var end := WindowEnd(groups, budget, start);
    WindowShows(groups, budget, start, start);
    WindowShows(groups, budget, start, end - 1);
    if end - start < budget {
      DrawnIsPaid(groups, budget, start, end, start, "");
    } else if end == start + 1 {
      assert Drawn(groups, budget, start, end, start, "") == [Item(start)];
    } else {
      FreeMeansUngrouped(groups, start, end);
      UngroupedDrawn(groups, budget, start, end, start);
    }
  }
}
