/**
 The dashboard board (frontend/src/dashboard/layout.ts): tiles in two packed columns, drag placement by search
 and keyboard moves. Pixels are reals. The source keeps two parallel lists, widgets and their ids; here a board is one
 list of tiles, a widget together with its id.
 */
module Layout {
  import opened Wrappers

  /** The saved column: never set, `null`, left or right. */
  datatype ColField = Undefined | Null | Left | Right

  datatype Widget = Widget(kind: string, expanded: bool, col: ColField)

  datatype Tile = Tile(id: string, w: Widget)

  /** `heights` holds the measured heights; a widget not measured yet counts as 0 high. */
  datatype Metrics = Metrics(heights: map<string, real>, gap: real, columns: nat)
  {
    predicate Valid() {
      && gap >= 0.0
      && (columns == 1 || columns == 2)
      && forall id :: id in heights ==> heights[id] >= 0.0
    }

    function Height(id: string): real {
      if id in heights then heights[id] else 0.0
    }
  }

  datatype Rect = Rect(left: real, top: real, width: real, height: real)

  function ColOf(w: Widget): nat {
    if w.col == Right then 1 else 0
  }

  predicate IsFull(w: Widget, columns: nat) {
    columns == 1 || w.expanded
  }

  predicate Stacked(a: Widget, b: Widget, columns: nat) {
    columns == 1 || a.expanded || b.expanded || ColOf(a) == ColOf(b)
  }

  function Max(x: real, y: real): real {
    if x >= y then x else y
  }

  predicate DistinctIds(board: seq<Tile>) {
    forall i, j :: 0 <= i < j < |board| ==> board[i].id != board[j].id
  }

  // ---------------------------------------------------------------------------
  // layoutBoard
  // ---------------------------------------------------------------------------

  /** Where the next widget of each column would start, and the tops given out so far. */
  datatype Flow = Flow(left: real, right: real, tops: map<string, real>)
  {
    function Bottom(col: nat): real {
      if col == 1 then right else left
    }
  }

  const START := Flow(0.0, 0.0, map[])

  function TopIn(f: Flow, t: Tile, m: Metrics): real {
    if IsFull(t.w, m.columns) then Max(f.left, f.right) else f.Bottom(ColOf(t.w))
  }

  function Place(f: Flow, t: Tile, m: Metrics): Flow {
    var top := TopIn(f, t, m);
    var next := top + m.Height(t.id) + m.gap;
    if IsFull(t.w, m.columns) then Flow(next, next, f.tops[t.id := top])
    else if ColOf(t.w) == 1 then Flow(f.left, next, f.tops[t.id := top])
    else Flow(next, f.right, f.tops[t.id := top])
  }

  function PlaceAll(f: Flow, board: seq<Tile>, m: Metrics): Flow
    decreases |board|
  {
    if board == [] then f else PlaceAll(Place(f, board[0], m), board[1..], m)
  }

  function Tops(board: seq<Tile>, m: Metrics): map<string, real> {
    PlaceAll(START, board, m).tops
  }

  function BoardHeight(board: seq<Tile>, m: Metrics): real {
    var f := PlaceAll(START, board, m);
    var end := Max(f.left, f.right);
    if end > 0.0 then end - m.gap else 0.0
  }

  lemma {:induction false} PlaceAllAppends(f: Flow, a: seq<Tile>, b: seq<Tile>, m: Metrics)
    ensures PlaceAll(f, a + b, m) == PlaceAll(PlaceAll(f, a, m), b, m)
    decreases |a|
  {
    if a == [] {
      assert a + b == b;
    } else {
      assert (a + b)[1..] == a[1..] + b;
      PlaceAllAppends(Place(f, a[0], m), a[1..], b, m);
    }
  }

  lemma PlaceLast(f: Flow, board: seq<Tile>, i: nat, m: Metrics)
    requires i < |board|
    ensures PlaceAll(f, board[..i + 1], m) == Place(PlaceAll(f, board[..i], m), board[i], m)
  {
    assert board[..i + 1] == board[..i] + [board[i]];
    PlaceAllAppends(f, board[..i], [board[i]], m);
    assert [board[i]][1..] == [];
    assert PlaceAll(Place(PlaceAll(f, board[..i], m), board[i], m), [], m)
        == Place(PlaceAll(f, board[..i], m), board[i], m);
  }

  /** The loop of `layoutBoard`. */
  method LayoutBoard(board: seq<Tile>, m: Metrics) returns (tops: map<string, real>, height: real)
    ensures tops == Tops(board, m)
    ensures height == BoardHeight(board, m)
  {
    var bottoms := new real[2](_ => 0.0);
    tops := map[];
    for i := 0 to |board|
      invariant Flow(bottoms[0], bottoms[1], tops) == PlaceAll(START, board[..i], m)
    {
      PlaceLast(START, board, i, m);
      var t := board[i];
      var height := m.Height(t.id);
      if IsFull(t.w, m.columns) {
        var top := Max(bottoms[0], bottoms[1]);
        tops := tops[t.id := top];
        bottoms[0], bottoms[1] := top + height + m.gap, top + height + m.gap;
      } else {
        var col := ColOf(t.w);
        tops := tops[t.id := bottoms[col]];
        bottoms[col] := bottoms[col] + (height + m.gap);
      }
    }
    assert board[..|board|] == board;
    var end := Max(bottoms[0], bottoms[1]);
    height := if end > 0.0 then end - m.gap else 0.0;
  }

  // ---------------------------------------------------------------------------
  // Packing
  // ---------------------------------------------------------------------------

  function Top(board: seq<Tile>, m: Metrics, i: nat): real
    requires i < |board|
  {
    TopIn(PlaceAll(START, board[..i], m), board[i], m)
  }

  function BottomEdge(board: seq<Tile>, m: Metrics, i: nat): real
    requires i < |board|
  {
    Top(board, m, i) + m.Height(board[i].id)
  }

  /** With distinct ids, the published tops are the tops the loop computed. */
  lemma {:induction false} TopsAreTops(board: seq<Tile>, m: Metrics, n: nat)
    requires DistinctIds(board) && n <= |board|
    ensures var tops := PlaceAll(START, board[..n], m).tops;
            forall i :: 0 <= i < n ==> board[i].id in tops && tops[board[i].id] == Top(board, m, i)
  {
    if n == 0 {
    } else {
      TopsAreTops(board, m, n - 1);
      PlaceLast(START, board, n - 1, m);
    }
  }

  /** Whether a widget takes up room in a column. */
  predicate InColumn(w: Widget, col: nat, columns: nat) {
    IsFull(w, columns) || ColOf(w) == col
  }

  /** A column's bottom is `gap` below its last occupant, and at or below every occupant. */
  lemma {:induction false} BottomOfColumn(board: seq<Tile>, m: Metrics, n: nat, col: nat)
    requires m.Valid() && n <= |board| && col < 2
    ensures var b := PlaceAll(START, board[..n], m).Bottom(col);
            && b >= 0.0
            && (forall i :: 0 <= i < n && InColumn(board[i].w, col, m.columns)
                  ==> BottomEdge(board, m, i) + m.gap <= b)
            && (b == 0.0 || exists i :: 0 <= i < n && InColumn(board[i].w, col, m.columns)
                                        && BottomEdge(board, m, i) + m.gap == b)
  {
    if n == 0 {
      assert board[..0] == [];
    } else {
      BottomOfColumn(board, m, n - 1, 0);
      BottomOfColumn(board, m, n - 1, 1);
      PlaceLast(START, board, n - 1, m);
      var f := PlaceAll(START, board[..n - 1], m);
      var g := PlaceAll(START, board[..n], m);
      if InColumn(board[n - 1].w, col, m.columns) {
        assert g.Bottom(col) == BottomEdge(board, m, n - 1) + m.gap;
        assert f.Bottom(col) <= Top(board, m, n - 1);
      } else {
        assert g.Bottom(col) == f.Bottom(col);
      }
    }
  }

  /**
   The packing theorem: a widget starts at least `gap` below every earlier widget it stacks with, and exactly `gap`
   below one of them unless it starts at the top; so no two stacked widgets overlap and no hole is left above one.
   */
  lemma Packing(board: seq<Tile>, m: Metrics, j: nat)
    requires m.Valid() && DistinctIds(board) && j < |board|
    ensures var tops := Tops(board, m);
            && board[j].id in tops && tops[board[j].id] == Top(board, m, j) >= 0.0
            && (forall i :: 0 <= i < j && Stacked(board[i].w, board[j].w, m.columns)
                  ==> board[i].id in tops
                      && tops[board[i].id] + m.Height(board[i].id) + m.gap <= tops[board[j].id])
            && (tops[board[j].id] == 0.0
                || exists i :: 0 <= i < j && Stacked(board[i].w, board[j].w, m.columns) && board[i].id in tops
                     && tops[board[j].id] == tops[board[i].id] + m.Height(board[i].id) + m.gap)
  {
    assert board[..|board|] == board;
    TopsAreTops(board, m, |board|);
    BottomOfColumn(board, m, j, 0);
    BottomOfColumn(board, m, j, 1);
    var f := PlaceAll(START, board[..j], m);
    var w, tops := board[j].w, Tops(board, m);
    forall i | 0 <= i < j && Stacked(board[i].w, w, m.columns)
      ensures tops[board[i].id] + m.Height(board[i].id) + m.gap <= tops[board[j].id]
    {
      var col := if IsFull(board[i].w, m.columns) then ColOf(w) else ColOf(board[i].w);
      assert InColumn(board[i].w, col, m.columns);
      assert BottomEdge(board, m, i) + m.gap <= f.Bottom(col) <= Top(board, m, j);
    }
    if Top(board, m, j) != 0.0 {
      var col := if IsFull(w, m.columns) then (if f.left >= f.right then 0 else 1) else ColOf(w);
      assert f.Bottom(col) == Top(board, m, j);
      var i :| 0 <= i < j && InColumn(board[i].w, col, m.columns) && BottomEdge(board, m, i) + m.gap == f.Bottom(col);
      assert Stacked(board[i].w, w, m.columns);
    }
  }

  /** The board is as high as its lowest bottom edge. */
  lemma HeightIsLowestEdge(board: seq<Tile>, m: Metrics)
    requires m.Valid()
    ensures forall i :: 0 <= i < |board| ==> BottomEdge(board, m, i) <= BoardHeight(board, m)
    ensures if board == [] then BoardHeight(board, m) == 0.0
            else exists i :: 0 <= i < |board| && BottomEdge(board, m, i) == BoardHeight(board, m)
  {
    assert board[..|board|] == board;
    BottomOfColumn(board, m, |board|, 0);
    BottomOfColumn(board, m, |board|, 1);
    var f := PlaceAll(START, board, m);
    forall i | 0 <= i < |board|
      ensures BottomEdge(board, m, i) + m.gap <= Max(f.left, f.right)
      ensures BottomEdge(board, m, i) >= 0.0
    {
      var col := if IsFull(board[i].w, m.columns) then 0 else ColOf(board[i].w);
      assert InColumn(board[i].w, col, m.columns);
      BottomOfColumn(board, m, i, 0);
      BottomOfColumn(board, m, i, 1);
    }
    if board != [] {
      var col := if f.left >= f.right then 0 else 1;
      if f.Bottom(col) == 0.0 {
        assert BottomEdge(board, m, 0) == BoardHeight(board, m);
      }
    }
  }

  // ---------------------------------------------------------------------------
  // Reordering that no one can see
  // ---------------------------------------------------------------------------

  /** Two neighbours that do not stack can trade places: every top stays where it was. */
  lemma SwapUnstacked(before: seq<Tile>, a: Tile, b: Tile, after: seq<Tile>, m: Metrics)
    requires m.columns == 2 && !Stacked(a.w, b.w, 2) && a.id != b.id
    ensures Tops(before + [a, b] + after, m) == Tops(before + [b, a] + after, m)
    ensures BoardHeight(before + [a, b] + after, m) == BoardHeight(before + [b, a] + after, m)
  {
    var f := PlaceAll(START, before, m);
    forall x: Tile, y: Tile | true
      ensures PlaceAll(START, before + [x, y] + after, m) == PlaceAll(Place(Place(f, x, m), y, m), after, m)
    {
      PlaceAllAppends(START, before + [x, y], after, m);
      PlaceAllAppends(START, before, [x, y], m);
      assert [x, y][1..] == [y] && [y][1..] == [];
      assert PlaceAll(f, [x, y], m) == PlaceAll(Place(f, x, m), [y], m);
      assert PlaceAll(Place(f, x, m), [y], m) == PlaceAll(Place(Place(f, x, m), y, m), [], m);
    }
    var ab, ba := Place(Place(f, a, m), b, m), Place(Place(f, b, m), a, m);
    assert ab.tops == ba.tops;
  }

  /** `x` travels past a stretch of tiles it does not stack with. */
  lemma {:induction false} SlideUnstacked(
      before: seq<Tile>, x: Tile, past: seq<Tile>, after: seq<Tile>, m: Metrics)
    requires m.columns == 2
    requires forall i :: 0 <= i < |past| ==> !Stacked(x.w, past[i].w, 2) && past[i].id != x.id
    ensures Tops(before + [x] + past + after, m) == Tops(before + past + [x] + after, m)
    decreases |past|
  {
    if past == [] {
      assert before + [x] + past == before + past + [x];
    } else {
      var p, rest := past[0], past[1..];
      SwapUnstacked(before, x, p, rest + after, m);
      SlideUnstacked(before + [p], x, rest, after, m);
      assert before + [x] + past + after == before + [x, p] + (rest + after);
      assert before + [p, x] + (rest + after) == (before + [p]) + [x] + rest + after;
      assert (before + [p]) + rest + [x] + after == before + past + [x] + after;
    }
  }

  // ---------------------------------------------------------------------------
  // Dragging
  // ---------------------------------------------------------------------------

  function TopOf(tops: map<string, real>, id: string): real {
    if id in tops then tops[id] else 0.0
  }

  function SlotRect(board: seq<Tile>, index: nat, m: Metrics, width: real): Rect
    requires index < |board|
  {
    var t := board[index];
    var full := IsFull(t.w, m.columns);
    var colWidth := (width - m.gap) / 2.0;
    Rect(if full || ColOf(t.w) == 0 then 0.0 else colWidth + m.gap,
         TopOf(Tops(board, m), t.id),
         if full then width else colWidth,
         m.Height(t.id))
  }

  // ---------------------------------------------------------------------------
  // Where the slots are
  // ---------------------------------------------------------------------------

  /** A slot in pixels: the right column starts half a gap past the middle, and a full slot spans the board. */
  lemma SlotTells(board: seq<Tile>, index: nat, m: Metrics, width: real)
    requires index < |board|
    ensures var r, w := SlotRect(board, index, m, width), board[index].w;
            && r.top == TopOf(Tops(board, m), board[index].id)
            && r.height == (if board[index].id in m.heights then m.heights[board[index].id] else 0.0)
            && (m.columns == 1 || w.expanded ==> r.left == 0.0 && r.width == width)
            && (m.columns != 1 && !w.expanded && w.col != Right ==>
                  r.left == 0.0 && r.left + r.width == (width - m.gap) / 2.0)
            && (m.columns != 1 && !w.expanded && w.col == Right ==>
                  r.left == (width + m.gap) / 2.0 && r.left + r.width == width)
  {
  }

  /** At least `gap` lies between the two, side by side or one above the other. */
  predicate Apart(a: Rect, b: Rect, gap: real) {
    || a.left + a.width + gap <= b.left
    || b.left + b.width + gap <= a.left
    || a.top + a.height + gap <= b.top
    || b.top + b.height + gap <= a.top
  }

  /** No two slots of a board overlap, or come nearer to each other than the gap. */
  lemma SlotsAreApart(board: seq<Tile>, m: Metrics, width: real, i: nat, j: nat)
    requires m.Valid() && DistinctIds(board) && i < j < |board|
    ensures Apart(SlotRect(board, i, m, width), SlotRect(board, j, m, width), m.gap)
  {
    Packing(board, m, i);
    Packing(board, m, j);
  }

  /** Every slot lies on the board, which is as wide as the page gives and as high as the layout says. */
  lemma SlotsFitTheBoard(board: seq<Tile>, m: Metrics, width: real, i: nat)
    requires m.Valid() && DistinctIds(board) && i < |board| && width >= m.gap
    ensures var r := SlotRect(board, i, m, width);
            && 0.0 <= r.left && r.left + r.width <= width
            && 0.0 <= r.top && r.top + r.height <= BoardHeight(board, m)
  {
    Packing(board, m, i);
    HeightIsLowestEdge(board, m);
    assert BottomEdge(board, m, i) <= BoardHeight(board, m);
  }

  /** The hysteresis of drag placement, in pixels. */
  const STICKINESS := 12.0

  function Without(board: seq<Tile>, index: nat): seq<Tile>
    requires index < |board|
  {
    board[..index] + board[index + 1..]
  }

  function InColumnOf(t: Tile, col: nat): Tile {
    if ColOf(t.w) == col && t.w.col != Undefined then t else t.(w := t.w.(col := if col == 1 then Right else Left))
  }

  /** A place for the dragged widget: a column and a position among the others. */
  datatype Slot = At(col: nat, at: nat)

  predicate IsPlace(board: seq<Tile>, index: nat, m: Metrics, p: Slot)
    requires index < |board|
  {
    && p.at < |board|
    && (if IsFull(board[index].w, m.columns) then p.col == ColOf(board[index].w) else p.col < 2)
  }

  /** The board with the dragged widget at `p`; all the others keep their order. */
  function Rearranged(board: seq<Tile>, index: nat, p: Slot): (r: seq<Tile>)
    requires index < |board| && p.at < |board|
    ensures |r| == |board| && r[p.at] == InColumnOf(board[index], p.col)
  {
    var rest := Without(board, index);
    rest[..p.at] + [InColumnOf(board[index], p.col)] + rest[p.at..]
  }

  /** How far the dragged card is from the slot it would get at `p`. */
  function DistanceAt(board: seq<Tile>, index: nat, m: Metrics, width: real, distance: Rect -> real, p: Slot): real
    requires index < |board| && p.at < |board|
  {
    distance(SlotRect(Rearranged(board, index, p), p.at, m, width))
  }

  /** What `pickPlacement` may answer: `None` to stay put, or the place it moves the card to. */
  ghost predicate GoodChoice(
      board: seq<Tile>, index: nat, m: Metrics, width: real, distance: Rect -> real, choice: Option<Slot>)
    requires index < |board|
  {
    var current := distance(SlotRect(board, index, m, width));
    match choice
    case Some(best) =>
      && IsPlace(board, index, m, best)
      && DistanceAt(board, index, m, width, distance, best) < current - STICKINESS
      && forall p: Slot :: IsPlace(board, index, m, p)
           ==> DistanceAt(board, index, m, width, distance, best)
               <= DistanceAt(board, index, m, width, distance, p) + 0.5
    case None =>
      forall p: Slot :: IsPlace(board, index, m, p)
        ==> DistanceAt(board, index, m, width, distance, p) >= current - STICKINESS - 0.5
  }

  function BoardFor(board: seq<Tile>, index: nat, choice: Option<Slot>): Option<seq<Tile>>
    requires index < |board| && (choice.Some? ==> choice.value.at < |board|)
  {
    if choice.Some? then Some(Rearranged(board, index, choice.value)) else None
  }

  /** The answer in terms of the board: stay put, or the board with the card at a good place. */
  ghost predicate GoodPick(
      board: seq<Tile>, index: nat, m: Metrics, width: real, distance: Rect -> real, picked: Option<seq<Tile>>)
    requires index < |board|
  {
    exists choice: Option<Slot> ::
      GoodChoice(board, index, m, width, distance, choice) && picked == BoardFor(board, index, choice)
  }

  /** The best placement so far and its distance; none yet means the card's own slot. */
  ghost predicate SoFar(
      board: seq<Tile>, index: nat, m: Metrics, width: real, distance: Rect -> real,
      choice: Option<Slot>, bestDistance: real)
    requires index < |board|
  {
    match choice
    case Some(p) => IsPlace(board, index, m, p) && bestDistance == DistanceAt(board, index, m, width, distance, p)
    case None => bestDistance == distance(SlotRect(board, index, m, width))
  }

  /** The inner loop of `pickPlacement`: every position in one column. */
  method TryColumn(board: seq<Tile>, index: nat, m: Metrics, width: real, distance: Rect -> real, col: nat,
                   picked0: Option<seq<Tile>>, bestDistance0: real, ghost choice0: Option<Slot>)
    returns (picked: Option<seq<Tile>>, bestDistance: real, ghost choice: Option<Slot>)
    requires index < |board| && IsPlace(board, index, m, At(col, 0))
    requires SoFar(board, index, m, width, distance, choice0, bestDistance0)
    requires picked0 == BoardFor(board, index, choice0)
    ensures SoFar(board, index, m, width, distance, choice, bestDistance)
    ensures picked == BoardFor(board, index, choice)
    ensures bestDistance <= bestDistance0
    ensures forall p: Slot :: p.col == col && p.at < |board|
              ==> bestDistance <= DistanceAt(board, index, m, width, distance, p) + 0.5
  {
    picked, bestDistance, choice := picked0, bestDistance0, choice0;
    var rest := board[..index] + board[index + 1..];
    var moved := InColumnOf(board[index], col);
    for at := 0 to |rest| + 1
      invariant SoFar(board, index, m, width, distance, choice, bestDistance)
      invariant picked == BoardFor(board, index, choice)
      invariant bestDistance <= bestDistance0
      invariant forall p: Slot :: p.col == col && p.at < at
                  ==> bestDistance <= DistanceAt(board, index, m, width, distance, p) + 0.5
    {
      var candidate := rest[..at] + [moved] + rest[at..];
      assert candidate == Rearranged(board, index, At(col, at));
      var d := distance(SlotRect(candidate, at, m, width));
      assert d == DistanceAt(board, index, m, width, distance, At(col, at));
      if d < bestDistance - 0.5 {
        picked, bestDistance, choice := Some(candidate), d, Some(At(col, at));
      }
    }
  }

  /** The search of `pickPlacement`, for any distance function. */
  method PickPlacement(board: seq<Tile>, index: nat, m: Metrics, width: real, distance: Rect -> real)
    returns (picked: Option<seq<Tile>>)
    requires index < |board|
    ensures GoodPick(board, index, m, width, distance, picked)
  {
    ghost var choice: Option<Slot> := None;
    var active := board[index];
    var current := distance(SlotRect(board, index, m, width));
    var bestDistance := current;
    picked := None;
    if IsFull(active.w, m.columns) {
      picked, bestDistance, choice :=
        TryColumn(board, index, m, width, distance, ColOf(active.w), picked, bestDistance, choice);
    } else {
      for col := 0 to 2
        invariant SoFar(board, index, m, width, distance, choice, bestDistance)
        invariant picked == BoardFor(board, index, choice)
        invariant bestDistance <= current
        invariant forall p: Slot :: p.col < col && p.at < |board|
                    ==> bestDistance <= DistanceAt(board, index, m, width, distance, p) + 0.5
      {
        picked, bestDistance, choice :=
          TryColumn(board, index, m, width, distance, col, picked, bestDistance, choice);
      }
    }
    if !(picked.Some? && bestDistance < current - STICKINESS) {
      picked, choice := None, None;
    }
  }

  /** Moving a card changes nothing but its own position and, at most, its own column. */
  lemma RearrangedKeepsTheRest(board: seq<Tile>, index: nat, m: Metrics, p: Slot)
    requires index < |board| && IsPlace(board, index, m, p)
    ensures var r := Rearranged(board, index, p);
            && Without(r, p.at) == Without(board, index)
            && r[p.at].id == board[index].id
            && r[p.at].w.(col := Undefined) == board[index].w.(col := Undefined)
            && r[p.at].w.col == (if p.col == 1 then Right else if board[index].w.col == Null then Null else Left)
            && (IsFull(board[index].w, m.columns) ==> ColOf(r[p.at].w) == ColOf(board[index].w))
  {
  }

  function Abs(x: real): real {
    if x < 0.0 then -x else x
  }

  /** A distance from (`x`, `y`) to a corner, such as the Euclidean one: between the larger offset and the sum. */
  ghost predicate IsDistanceTo(distance: Rect -> real, x: real, y: real) {
    forall r: Rect :: Max(Abs(r.left - x), Abs(r.top - y)) <= distance(r) <= Abs(r.left - x) + Abs(r.top - y)
  }

  /** The corner of the `at`-th tile's slot. */
  predicate IsCorner(x: real, y: real, board: seq<Tile>, at: nat, m: Metrics, width: real)
    requires at < |board|
  {
    && x == (if m.columns != 1 && !board[at].w.expanded && board[at].w.col == Right then (width + m.gap) / 2.0
             else 0.0)
    && y == TopOf(Tops(board, m), board[at].id)
  }

  ghost predicate Within(d: real, distance: Rect -> real, board: seq<Tile>, at: nat, m: Metrics, width: real)
    requires at < |board|
  {
    exists r: Rect :: IsCorner(r.left, r.top, board, at, m, width) && distance(r) <= d
  }

  /**
   A card held with its corner exactly on the corner of the slot that some place would give it goes to a place within
   half a pixel of that point; it stays put only if it was within the stickiness and half a pixel of it already.
   */
  lemma HeldOnASlot(board: seq<Tile>, index: nat, m: Metrics, width: real, distance: Rect -> real, x: real, y: real,
                    col: nat, at: nat, picked: Option<seq<Tile>>)
    requires index < |board| && at < |board| && col < 2
    requires m.columns == 1 || board[index].w.expanded ==> (col == 1 <==> board[index].w.col == Right)
    requires IsCorner(x, y, Rearranged(board, index, At(col, at)), at, m, width) && IsDistanceTo(distance, x, y)
    requires GoodPick(board, index, m, width, distance, picked)
    ensures match picked
            case None => Within(12.5, distance, board, index, m, width)
            case Some(b) =>
              exists to :: 0 <= to < |b| && Without(b, to) == Without(board, index) && b[to].id == board[index].id
                           && Within(0.5, distance, b, to, m, width)
  {
    var choice: Option<Slot> :|
      GoodChoice(board, index, m, width, distance, choice) && picked == BoardFor(board, index, choice);
    var q := At(col, at);
    assert IsPlace(board, index, m, q);
    SlotTells(Rearranged(board, index, q), at, m, width);
    assert DistanceAt(board, index, m, width, distance, q) == 0.0;
    match choice {
      case None =>
        SlotTells(board, index, m, width);
        var r := SlotRect(board, index, m, width);
        assert IsCorner(r.left, r.top, board, index, m, width) && distance(r) <= 12.5;
      case Some(p) =>
        var b := picked.value;
        RearrangedKeepsTheRest(board, index, m, p);
        SlotTells(b, p.at, m, width);
        var r := SlotRect(b, p.at, m, width);
        assert IsCorner(r.left, r.top, b, p.at, m, width) && distance(r) <= 0.5;
        assert Within(0.5, distance, b, p.at, m, width);
    }
  }

  /** Tiles that every layout treats alike: an unset column counts as the left one. */
  predicate Alike(a: seq<Tile>, b: seq<Tile>) {
    && |a| == |b|
    && forall i :: 0 <= i < |a| ==>
         a[i].id == b[i].id && a[i].w.expanded == b[i].w.expanded && ColOf(a[i].w) == ColOf(b[i].w)
  }

  lemma {:induction false} AlikeLaysOutAlike(f: Flow, a: seq<Tile>, b: seq<Tile>, m: Metrics)
    requires Alike(a, b)
    ensures PlaceAll(f, a, m) == PlaceAll(f, b, m)
    decreases |a|
  {
    if a == [] {
    } else {
      AlikeLaysOutAlike(Place(f, a[0], m), a[1..], b[1..], m);
    }
  }

  /** Where a card is now does not change the places it can go to, nor how far each of them is. */
  lemma SamePlaces(board: seq<Tile>, index: nat, m: Metrics, width: real, distance: Rect -> real, p: Slot, q: Slot)
    requires index < |board| && IsPlace(board, index, m, p)
    ensures IsPlace(Rearranged(board, index, p), p.at, m, q) <==> IsPlace(board, index, m, q)
    ensures IsPlace(board, index, m, q) ==>
      DistanceAt(Rearranged(board, index, p), p.at, m, width, distance, q)
        == DistanceAt(board, index, m, width, distance, q)
  {
    RearrangedKeepsTheRest(board, index, m, p);
    if IsPlace(board, index, m, q) {
      AlikeLaysOutAlike(START, Rearranged(Rearranged(board, index, p), p.at, q), Rearranged(board, index, q), m);
    }
  }

  /**
   No flip-flop: once the card sits where the search put it, searching again at the same point leaves it there. And
   two searches for the same card, wherever it was each time, settle within half a pixel of each other.
   */
  lemma NoFlipFlop(board: seq<Tile>, index: nat, m: Metrics, width: real, distance: Rect -> real,
                   best: Slot, again: Option<Slot>)
    requires index < |board|
    requires GoodChoice(board, index, m, width, distance, Some(best))
    requires GoodChoice(Rearranged(board, index, best), best.at, m, width, distance, again)
    ensures again == None
  {
    if again.Some? {
      SamePlaces(board, index, m, width, distance, best, again.value);
    }
  }

  lemma SameAnswerFromAnywhere(board: seq<Tile>, index: nat, m: Metrics, width: real, distance: Rect -> real,
                               from: Slot, first: Slot, second: Slot)
    requires index < |board| && IsPlace(board, index, m, from)
    requires GoodChoice(board, index, m, width, distance, Some(first))
    requires GoodChoice(Rearranged(board, index, from), from.at, m, width, distance, Some(second))
    ensures var d := DistanceAt(board, index, m, width, distance, first);
            d - 0.5 <= DistanceAt(board, index, m, width, distance, second) <= d + 0.5
  {
    SamePlaces(board, index, m, width, distance, from, first);
    SamePlaces(board, index, m, width, distance, from, second);
  }

  // ---------------------------------------------------------------------------
  // Keyboard moves
  // ---------------------------------------------------------------------------

  datatype Direction = Up | Down | ToLeft | ToRight

  /** The nearest widget before `i` that stacks with `w`. */
  function StackedBefore(board: seq<Tile>, w: Widget, i: nat, columns: nat): Option<nat>
    requires i <= |board|
  {
    if i == 0 then None
    else if Stacked(w, board[i - 1].w, columns) then Some(i - 1)
    else StackedBefore(board, w, i - 1, columns)
  }

  /** The nearest widget at or after `i` that stacks with `w`. */
  function StackedFrom(board: seq<Tile>, w: Widget, i: nat, columns: nat): Option<nat>
    requires i <= |board|
    decreases |board| - i
  {
    if i == |board| then None
    else if Stacked(w, board[i].w, columns) then Some(i)
    else StackedFrom(board, w, i + 1, columns)
  }

  function Moved(board: seq<Tile>, from: nat, to: nat): seq<Tile>
    requires from < |board| && to < |board|
  {
    var rest := Without(board, from);
    rest[..to] + [board[from]] + rest[to..]
  }

  function MovedIfSome(board: seq<Tile>, from: nat, to: Option<nat>): seq<Tile>
    requires from < |board| && (to.Some? ==> to.value < |board|)
  {
    if to.Some? then Moved(board, from, to.value) else board
  }

  function Nudged(board: seq<Tile>, index: int, direction: Direction, columns: nat): seq<Tile> {
    if !(0 <= index < |board|) then board else
    var t := board[index];
    match direction
    case ToLeft =>
      if IsFull(t.w, columns) || ColOf(t.w) == 0 then board else board[index := t.(w := t.w.(col := Left))]
    case ToRight =>
      if IsFull(t.w, columns) || ColOf(t.w) == 1 then board else board[index := t.(w := t.w.(col := Right))]
    case Up =>
      BeforeIsBefore(board, t.w, index, columns);
      MovedIfSome(board, index, StackedBefore(board, t.w, index, columns))
    case Down =>
      FromIsFrom(board, t.w, index + 1, columns);
      MovedIfSome(board, index, StackedFrom(board, t.w, index + 1, columns))
  }

  lemma {:induction false} BeforeIsBefore(board: seq<Tile>, w: Widget, i: nat, columns: nat)
    requires i <= |board|
    ensures match StackedBefore(board, w, i, columns)
            case None => forall k :: 0 <= k < i ==> !Stacked(w, board[k].w, columns)
            case Some(to) => to < i && Stacked(w, board[to].w, columns)
                             && forall k :: to < k < i ==> !Stacked(w, board[k].w, columns)
  {
    if i == 0 || Stacked(w, board[i - 1].w, columns) {
    } else {
      BeforeIsBefore(board, w, i - 1, columns);
    }
  }

  lemma {:induction false} FromIsFrom(board: seq<Tile>, w: Widget, i: nat, columns: nat)
    requires i <= |board|
    ensures match StackedFrom(board, w, i, columns)
            case None => forall k :: i <= k < |board| ==> !Stacked(w, board[k].w, columns)
            case Some(to) => i <= to < |board| && Stacked(w, board[to].w, columns)
                             && forall k :: i <= k < to ==> !Stacked(w, board[k].w, columns)
    decreases |board| - i
  {
    if i == |board| || Stacked(w, board[i].w, columns) {
    } else {
      FromIsFrom(board, w, i + 1, columns);
    }
  }

  /** The scan-and-splice of `nudge`. */
  method Nudge(board: seq<Tile>, index: int, direction: Direction, columns: nat) returns (next: seq<Tile>)
    ensures next == Nudged(board, index, direction, columns)
  {
    if !(0 <= index < |board|) {
      return board;
    }
    var t := board[index];
    if direction == ToLeft || direction == ToRight {
      var col := if direction == ToLeft then 0 else 1;
      if IsFull(t.w, columns) || ColOf(t.w) == col {
        return board;
      }
      return board[index := t.(w := t.w.(col := if direction == ToLeft then Left else Right))];
    }
    BeforeIsBefore(board, t.w, index, columns);
    FromIsFrom(board, t.w, index + 1, columns);
    var step := if direction == Up then -1 else 1;
    var to := index + step;
    while 0 <= to < |board| && !Stacked(t.w, board[to].w, columns)
      invariant -1 <= to <= |board|
      invariant direction == Up ==>
        to < index && StackedBefore(board, t.w, index, columns) == StackedBefore(board, t.w, to + 1, columns)
      invariant direction == Down ==>
        to > index && StackedFrom(board, t.w, index + 1, columns) == StackedFrom(board, t.w, to, columns)
      decreases if direction == Up then to else |board| - to
    {
      to := to + step;
    }
    if to < 0 || to >= |board| {
      return board;
    }
    next := board[..index] + board[index + 1..];
    next := next[..to] + [t] + next[to..];
  }

  /** Two widgets are above each other: on one column always, on two if one is expanded or they share a column. */
  predicate SameRun(a: Widget, b: Widget, columns: nat) {
    columns == 1 || a.expanded || b.expanded || (a.col == Right <==> b.col == Right)
  }

  /** Left and right change the saved column of a widget that is not full, and nothing else. */
  lemma SidewaysTells(board: seq<Tile>, index: nat, columns: nat)
    requires index < |board|
    ensures var t := board[index];
            && Nudged(board, index, ToLeft, columns)
               == (if columns != 1 && !t.w.expanded && t.w.col == Right
                   then board[index := Tile(t.id, Widget(t.w.kind, false, Left))] else board)
            && Nudged(board, index, ToRight, columns)
               == (if columns != 1 && !t.w.expanded && t.w.col != Right
                   then board[index := Tile(t.id, Widget(t.w.kind, false, Right))] else board)
  {
  }

  /** Up puts the widget right before the last earlier one it is in a run with; with none it stays. */
  lemma UpTells(board: seq<Tile>, index: nat, columns: nat, to: nat)
    requires to < index < |board| && forall k :: to < k < index ==> !SameRun(board[index].w, board[k].w, columns)
    ensures SameRun(board[index].w, board[to].w, columns) ==>
      Nudged(board, index, Up, columns)
        == board[..to] + [board[index]] + board[to..index] + board[index + 1..]
    ensures to == 0 && !SameRun(board[index].w, board[to].w, columns) ==> Nudged(board, index, Up, columns) == board
  {
    BeforeIsBefore(board, board[index].w, index, columns);
    assert forall k :: 0 <= k < index ==>
      (Stacked(board[index].w, board[k].w, columns) <==> SameRun(board[index].w, board[k].w, columns));
    if SameRun(board[index].w, board[to].w, columns) {
      assert StackedBefore(board, board[index].w, index, columns) == Some(to);
    }
  }

  /** Down puts the widget right after the first later one it is in a run with; with none it stays. */
  lemma DownTells(board: seq<Tile>, index: nat, columns: nat, to: nat)
    requires index < to < |board| && forall k :: index < k < to ==> !SameRun(board[index].w, board[k].w, columns)
    ensures SameRun(board[index].w, board[to].w, columns) ==>
      Nudged(board, index, Down, columns)
        == board[..index] + board[index + 1..to + 1] + [board[index]] + board[to + 1..]
    ensures to == |board| - 1 && !SameRun(board[index].w, board[to].w, columns) ==>
      Nudged(board, index, Down, columns) == board
  {
    FromIsFrom(board, board[index].w, index + 1, columns);
    assert forall k :: index < k < |board| ==>
      (Stacked(board[index].w, board[k].w, columns) <==> SameRun(board[index].w, board[k].w, columns));
    if SameRun(board[index].w, board[to].w, columns) {
      assert StackedFrom(board, board[index].w, index + 1, columns) == Some(to);
    }
  }

  /** The first widget has nowhere to go up, the last one nowhere to go down, and off the list there is none. */
  lemma EndsStay(board: seq<Tile>, columns: nat, index: int, direction: Direction)
    requires index < 0 || index >= |board| || (index == 0 && direction == Up)
             || (index == |board| - 1 && direction == Down)
    ensures Nudged(board, index, direction, columns) == board
  {
  }

  /** A nudge loses and invents nothing: up and down permute the board, left and right change one saved column. */
  lemma NudgeKeepsTiles(board: seq<Tile>, index: int, direction: Direction, columns: nat)
    ensures var next := Nudged(board, index, direction, columns);
            && |next| == |board|
            && (direction.Up? || direction.Down? ==> multiset(next) == multiset(board))
            && (direction.ToLeft? || direction.ToRight? ==>
                  forall i :: 0 <= i < |board| ==>
                    (if i == index
                     then next[i].(w := next[i].w.(col := Null)) == board[i].(w := board[i].w.(col := Null))
                     else next[i] == board[i]))
  {
    if 0 <= index < |board| && (direction.Up? || direction.Down?) {
      var t := board[index];
      BeforeIsBefore(board, t.w, index, columns);
      FromIsFrom(board, t.w, index + 1, columns);
      forall to: nat | to < |board| ensures multiset(Moved(board, index, to)) == multiset(board) {
        MovedIsPermutation(board, index, to);
      }
    }
  }

  lemma MovedIsPermutation(board: seq<Tile>, from: nat, to: nat)
    requires from < |board| && to < |board|
    ensures multiset(Moved(board, from, to)) == multiset(board)
  {
    var rest := Without(board, from);
    assert board == board[..from] + [board[from]] + board[from + 1..];
    assert multiset(board) == multiset(rest) + multiset{board[from]};
    assert rest == rest[..to] + rest[to..];
    assert multiset(rest) == multiset(rest[..to]) + multiset(rest[to..]);
  }

  lemma MovedUpShape(a: seq<Tile>, s: Tile, past: seq<Tile>, t: Tile, c: seq<Tile>)
    ensures Moved(a + [s] + past + [t] + c, |a| + 1 + |past|, |a|) == a + [t] + [s] + past + c
  {
  }

  lemma MovedDownShape(a: seq<Tile>, t: Tile, past: seq<Tile>, s: Tile, c: seq<Tile>)
    ensures Moved(a + [t] + past + [s] + c, |a|, |a| + 1 + |past|) == a + past + [s] + [t] + c
  {
  }

  predicate Passes(t: Tile, past: seq<Tile>, s: Tile, columns: nat) {
    Stacked(t.w, s.w, columns) && forall i :: 0 <= i < |past| ==> !Stacked(t.w, past[i].w, columns)
  }

  /** A nudge up carries `t` over the tiles it does not stack with, and over `s`. */
  lemma NudgeUpShape(a: seq<Tile>, s: Tile, past: seq<Tile>, t: Tile, c: seq<Tile>, columns: nat)
    requires Passes(t, past, s, columns)
    ensures Nudged(a + [s] + past + [t] + c, |a| + 1 + |past|, Up, columns) == a + [t] + [s] + past + c
  {
    var board := a + [s] + past + [t] + c;
    var i := |a| + 1 + |past|;
    assert board[i] == t && board[|a|] == s;
    assert forall k :: |a| < k < i ==> board[k] == past[k - |a| - 1];
    BeforeIsBefore(board, t.w, i, columns);
    MovedUpShape(a, s, past, t, c);
  }

  lemma NudgeDownShape(a: seq<Tile>, t: Tile, past: seq<Tile>, s: Tile, c: seq<Tile>, columns: nat)
    requires Passes(t, past, s, columns)
    ensures Nudged(a + [t] + past + [s] + c, |a|, Down, columns) == a + past + [s] + [t] + c
  {
    var board := a + [t] + past + [s] + c;
    var i := |a| + 1 + |past|;
    assert board[|a|] == t && board[i] == s;
    assert forall k :: |a| < k < i ==> board[k] == past[k - |a| - 1];
    FromIsFrom(board, t.w, |a| + 1, columns);
    MovedDownShape(a, t, past, s, c);
  }

  /** Sliding past tiles that do not stack with `t` is invisible, and on one column there are none. */
  lemma SlideIsInvisible(a: seq<Tile>, t: Tile, past: seq<Tile>, s: Tile, c: seq<Tile>, m: Metrics)
    requires Passes(t, past, s, m.columns) && (m.columns == 1 || m.columns == 2)
    requires forall i :: 0 <= i < |past| ==> past[i].id != t.id
    ensures Tops(a + [t] + past + c, m) == Tops(a + past + [t] + c, m)
    ensures m.columns == 1 ==> a + [t] + past + c == a + past + [t] + c
  {
    if m.columns == 1 {
      if past != [] {
        assert Stacked(t.w, past[0].w, 1);
      }
      assert a + [t] + past == a + past + [t];
    } else {
      SlideUnstacked(a, t, past, c, m);
    }
  }

  lemma UpThenDownOfParts(board: seq<Tile>, index: nat, to: nat,
                          a: seq<Tile>, s: Tile, past: seq<Tile>, t: Tile, c: seq<Tile>, m: Metrics)
    requires board == a + [s] + past + [t] + c && to == |a| && index == |a| + 1 + |past|
    requires Passes(t, past, s, m.columns) && (m.columns == 1 || m.columns == 2)
    requires forall i :: 0 <= i < |past| ==> past[i].id != t.id
    ensures var back := Nudged(Nudged(board, index, Up, m.columns), to, Down, m.columns);
            Tops(back, m) == Tops(board, m) && (m.columns == 1 ==> back == board)
  {
    NudgeUpShape(a, s, past, t, c, m.columns);
    NudgeDownShape(a, t, [], s, past + c, m.columns);
    assert a + [t] + [s] + past + c == a + [t] + [] + [s] + (past + c);
    assert a + [] + [s] + [t] + (past + c) == (a + [s]) + [t] + past + c;
    SlideIsInvisible(a + [s], t, past, s, c, m);
  }

  lemma DownThenUpOfParts(board: seq<Tile>, index: nat, to: nat,
                          a: seq<Tile>, t: Tile, past: seq<Tile>, s: Tile, c: seq<Tile>, m: Metrics)
    requires board == a + [t] + past + [s] + c && index == |a| && to == |a| + 1 + |past|
    requires Passes(t, past, s, m.columns) && (m.columns == 1 || m.columns == 2)
    requires forall i :: 0 <= i < |past| ==> past[i].id != t.id
    ensures var back := Nudged(Nudged(board, index, Down, m.columns), to, Up, m.columns);
            Tops(back, m) == Tops(board, m) && (m.columns == 1 ==> back == board)
  {
    NudgeDownShape(a, t, past, s, c, m.columns);
    NudgeUpShape(a + past, s, [], t, c, m.columns);
    assert a + past + [s] + [t] + c == (a + past) + [s] + [] + [t] + c;
    assert (a + past) + [t] + [s] + [] + c == a + past + [t] + ([s] + c);
    assert a + [t] + past + [s] + c == a + [t] + past + ([s] + c);
    SlideIsInvisible(a, t, past, s, [s] + c, m);
  }

  lemma SplitAtTwo(board: seq<Tile>, i: nat, j: nat)
    requires i < j < |board|
    ensures board == board[..i] + [board[i]] + board[i + 1..j] + [board[j]] + board[j + 1..]
  {
  }

  /** Up and then down again: on one column the very list, on two columns every top. */
  lemma UpThenDown(board: seq<Tile>, index: nat, m: Metrics)
    requires DistinctIds(board) && index < |board| && (m.columns == 1 || m.columns == 2)
    requires StackedBefore(board, board[index].w, index, m.columns).Some?
    ensures var to := StackedBefore(board, board[index].w, index, m.columns).value;
            var back := Nudged(Nudged(board, index, Up, m.columns), to, Down, m.columns);
            Tops(back, m) == Tops(board, m) && (m.columns == 1 ==> back == board)
  {
    BeforeIsBefore(board, board[index].w, index, m.columns);
    var to := StackedBefore(board, board[index].w, index, m.columns).value;
    var past := board[to + 1..index];
    assert Passes(board[index], past, board[to], m.columns);
    SplitAtTwo(board, to, index);
    UpThenDownOfParts(board, index, to, board[..to], board[to], past, board[index], board[index + 1..], m);
  }

  /** Down and then up again. */
  lemma DownThenUp(board: seq<Tile>, index: nat, m: Metrics)
    requires DistinctIds(board) && index < |board| && (m.columns == 1 || m.columns == 2)
    requires StackedFrom(board, board[index].w, index + 1, m.columns).Some?
    ensures var to := StackedFrom(board, board[index].w, index + 1, m.columns).value;
            var back := Nudged(Nudged(board, index, Down, m.columns), to, Up, m.columns);
            Tops(back, m) == Tops(board, m) && (m.columns == 1 ==> back == board)
  {
    FromIsFrom(board, board[index].w, index + 1, m.columns);
    var to := StackedFrom(board, board[index].w, index + 1, m.columns).value;
    var past := board[index + 1..to];
    assert Passes(board[index], past, board[to], m.columns);
    SplitAtTwo(board, index, to);
    DownThenUpOfParts(board, index, to, board[..index], board[index], past, board[to], board[to + 1..], m);
  }
}
