/** The greedy row-wrapping layout of `FlowLayout` in ContentView.swift: items
    are placed left to right, and an item that would cross the proposed width
    starts a new row below the tallest item of the current one. A proposal
    without a width (`.infinity` in the source) is `None`.
 */
module FlowLayout {
  import opened Wrappers

  datatype Size = Size(width: real, height: real)

  datatype Point = Point(x: real, y: real)

  /** The loop's running state: `currentPosition` and `maxHeight`, the height
      of the tallest item in the current row. */
  datatype Cursor = Cursor(x: real, y: real, rowHeight: real)

  /** What `layout(sizes:proposal:)` returns: one position per item and the
      overall size, whose width is the proposed one (`None` for infinity). */
  datatype Placement = Placement(positions: seq<Point>, width: Option<real>, height: real)

  function Max(a: real, b: real): real {
    if a >= b then a else b
  }

  /** Placing `s` at the cursor would cross the proposed width. */
  predicate Overflows(c: Cursor, s: Size, width: Option<real>) {
    width.Some? && c.x + s.width > width.value
  }

  /** Where an item goes: at the cursor, or at the start of a new row. */
  function Start(c: Cursor, s: Size, width: Option<real>, spacing: real): Cursor {
    if Overflows(c, s, width) then Cursor(0.0, c.y + c.rowHeight + spacing, 0.0) else c
  }

  /** The cursor after an item placed at `c`. */
  function Advance(c: Cursor, s: Size, spacing: real): Cursor {
    Cursor(c.x + s.width + spacing, c.y, Max(c.rowHeight, s.height))
  }

  /** The cursor before item `k` is considered (after all of them when `k`
      is the number of items). */
  function CursorBefore(sizes: seq<Size>, k: nat, width: Option<real>, spacing: real): Cursor
    requires k <= |sizes|
  {
    if k == 0 then Cursor(0.0, 0.0, 0.0)
    else Advance(Start(CursorBefore(sizes, k - 1, width, spacing), sizes[k - 1], width, spacing), sizes[k - 1], spacing)
  }

  /** The position of item `i`. */
  function PositionOf(sizes: seq<Size>, i: nat, width: Option<real>, spacing: real): Point
    requires i < |sizes|
  {
    var c := Start(CursorBefore(sizes, i, width, spacing), sizes[i], width, spacing);
    Point(c.x, c.y)
  }

  /** The layout, item by item. */
  function LayoutOf(sizes: seq<Size>, proposal: Option<real>, spacing: real): Placement {
    var last := CursorBefore(sizes, |sizes|, proposal, spacing);
    Placement(
      seq(|sizes|, i requires 0 <= i < |sizes| => PositionOf(sizes, i, proposal, spacing)),
      proposal,
      last.y + last.rowHeight)
  }

  /** `layout(sizes:proposal:)` as the source writes it, one pass over the
      sizes: one position per size in input order, the proposed width, and the
      final row's top plus its height. */
  method Layout(sizes: seq<Size>, proposal: Option<real>, spacing: real)
    returns (positions: seq<Point>, width: Option<real>, height: real)
    ensures |positions| == |sizes| && width == proposal
    ensures Placement(positions, width, height) == LayoutOf(sizes, proposal, spacing)
  {
    width := proposal;
    var x, y, maxHeight := 0.0, 0.0, 0.0;
    positions := [];
    var i := 0;
    while i < |sizes|
      invariant 0 <= i <= |sizes|
      invariant Cursor(x, y, maxHeight) == CursorBefore(sizes, i, proposal, spacing)
      invariant |positions| == i
      invariant forall j :: 0 <= j < i ==> positions[j] == PositionOf(sizes, j, proposal, spacing)
    {
      var size := sizes[i];
      if proposal.Some? && x + size.width > proposal.value {
        x := 0.0;
        y := y + maxHeight + spacing;
        maxHeight := 0.0;
      }
      positions := positions + [Point(x, y)];
      x := x + size.width + spacing;
      maxHeight := Max(maxHeight, size.height);
      i := i + 1;
    }
    height := y + maxHeight;
  }

  /** The wrapping rule between consecutive items: item `i + 1` follows item
      `i` on the same row, `spacing` after its right edge, exactly when it fits
      there; otherwise it starts a new row at x = 0, at least `spacing` below
      the bottom of item `i`. */
  lemma WrapRule(sizes: seq<Size>, i: nat, proposal: Option<real>, spacing: real)
    requires i + 1 < |sizes|
    ensures var p := PositionOf(sizes, i, proposal, spacing);
            var q := PositionOf(sizes, i + 1, proposal, spacing);
            var overflow := proposal.Some? && p.x + sizes[i].width + spacing + sizes[i + 1].width > proposal.value;
            && (!overflow ==> q == Point(p.x + sizes[i].width + spacing, p.y))
            && (overflow ==> q.x == 0.0 && q.y >= p.y + sizes[i].height + spacing)
  {
  }

  /** Every item lies within the proposed width unless it begins a row. */
  lemma FitsOrStartsRow(sizes: seq<Size>, i: nat, w: real, spacing: real)
    requires i < |sizes|
    ensures var p := PositionOf(sizes, i, Some(w), spacing);
            p.x + sizes[i].width <= w || p.x == 0.0
  {
  }

  /** An item wider than the proposal wraps even at the start of a row, so a
      too-wide first item lands at y = spacing rather than 0. */
  lemma FirstItemTooWide(sizes: seq<Size>, w: real, spacing: real)
    requires |sizes| > 0 && sizes[0].width > w
    ensures PositionOf(sizes, 0, Some(w), spacing) == Point(0.0, spacing)
  {
  }

  // ---------------------------------------------------------------------------
  // Without a proposed width

  /** Total advance of a run of items: each width plus one spacing. */
  function RowWidth(sizes: seq<Size>, spacing: real): real {
    if |sizes| == 0 then 0.0 else RowWidth(sizes[..|sizes| - 1], spacing) + sizes[|sizes| - 1].width + spacing
  }

  /** Height of the tallest item, or 0. */
  function Tallest(sizes: seq<Size>): real {
    if |sizes| == 0 then 0.0 else Max(Tallest(sizes[..|sizes| - 1]), sizes[|sizes| - 1].height)
  }

  lemma {:induction false} UnboundedCursor(sizes: seq<Size>, k: nat, spacing: real)
    requires k <= |sizes|
    ensures CursorBefore(sizes, k, None, spacing) == Cursor(RowWidth(sizes[..k], spacing), 0.0, Tallest(sizes[..k]))
  {
    if k > 0 {
      UnboundedCursor(sizes, k - 1, spacing);
      assert sizes[..k][..k - 1] == sizes[..k - 1];
    }
  }

  /** With no proposed width nothing wraps: all items share the row y = 0, each
      placed after the widths and spacings of those before it, and the height
      is that of the tallest item. */
  lemma UnboundedSingleRow(sizes: seq<Size>, spacing: real)
    ensures var r := LayoutOf(sizes, None, spacing);
      && (forall i :: 0 <= i < |sizes| ==> r.positions[i] == Point(RowWidth(sizes[..i], spacing), 0.0))
      && r.height == Tallest(sizes)
  {
    forall i | 0 <= i < |sizes|
      ensures LayoutOf(sizes, None, spacing).positions[i] == Point(RowWidth(sizes[..i], spacing), 0.0)
    {
      UnboundedCursor(sizes, i, spacing);
    }
    UnboundedCursor(sizes, |sizes|, spacing);
    assert sizes[..|sizes|] == sizes;
  }

  // ---------------------------------------------------------------------------
  // Bounds, for non-negative sizes and spacing

  predicate NonNegative(sizes: seq<Size>, spacing: real) {
    spacing >= 0.0 && forall i :: 0 <= i < |sizes| ==> sizes[i].width >= 0.0 && sizes[i].height >= 0.0
  }

  function Bottom(c: Cursor): real {
    c.y + c.rowHeight
  }

  lemma {:induction false} CursorNonNegative(sizes: seq<Size>, k: nat, width: Option<real>, spacing: real)
    requires k <= |sizes| && NonNegative(sizes, spacing)
    ensures var c := CursorBefore(sizes, k, width, spacing);
            c.x >= 0.0 && c.y >= 0.0 && c.rowHeight >= 0.0
  {
    if k > 0 {
      CursorNonNegative(sizes, k - 1, width, spacing);
    }
  }

  /** The cursor's row top and the bottom of its row never move up. */
  lemma {:induction false} CursorMonotone(sizes: seq<Size>, i: nat, k: nat, width: Option<real>, spacing: real)
    requires i <= k <= |sizes| && NonNegative(sizes, spacing)
    ensures CursorBefore(sizes, i, width, spacing).y <= CursorBefore(sizes, k, width, spacing).y
    ensures Bottom(CursorBefore(sizes, i, width, spacing)) <= Bottom(CursorBefore(sizes, k, width, spacing))
  {
    if i < k {
      CursorMonotone(sizes, i, k - 1, width, spacing);
      CursorNonNegative(sizes, k - 1, width, spacing);
    }
  }

  /** For non-negative sizes and spacing every position is non-negative, rows
      never move up, and the reported height covers the bottom of every item. */
  lemma LayoutBounds(sizes: seq<Size>, proposal: Option<real>, spacing: real)
    requires NonNegative(sizes, spacing)
    ensures var r := LayoutOf(sizes, proposal, spacing);
      && (forall i :: 0 <= i < |sizes| ==>
            r.positions[i].x >= 0.0 && r.positions[i].y >= 0.0 && r.positions[i].y + sizes[i].height <= r.height)
      && (forall i, j :: 0 <= i < j < |sizes| ==> r.positions[i].y <= r.positions[j].y)
  {
    var r := LayoutOf(sizes, proposal, spacing);
    forall i | 0 <= i < |sizes|
      ensures r.positions[i].x >= 0.0 && r.positions[i].y >= 0.0 && r.positions[i].y + sizes[i].height <= r.height
    {
      CursorNonNegative(sizes, i, proposal, spacing);
      CursorMonotone(sizes, i + 1, |sizes|, proposal, spacing);
    }
    forall i, j | 0 <= i < j < |sizes|
      ensures r.positions[i].y <= r.positions[j].y
    {
      CursorNonNegative(sizes, j, proposal, spacing);
      CursorMonotone(sizes, i + 1, j, proposal, spacing);
    }
  }
}
