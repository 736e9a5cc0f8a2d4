/** The two-handle column resizer of the workspace (resize.js): the left
    handle sizes the channels column, the right handle the members column,
    the chat column in between takes the rest. Widths are whole pixels; the
    grid's columns and the two `localStorage` keys are fields. */
module Resize {
  import opened Wrappers

  const MinWidth := 150
  const DefaultLeft := 240
  const DefaultRight := 220
  /** The room `loadLayoutPreferences` keeps for the chat column. */
  const ChatRoom := 100

  datatype Dir = Left | Right

  /** The widths of the channels (`left`) and members (`right`) columns. */
  datatype Layout = Layout(left: int, right: int)

  /** A `localStorage` entry: absent (or empty), a number, or text that does
      not parse as one (`NaN`). */
  datatype Stored = Absent | Num(v: int) | Garbage

  const DefaultLayout := Layout(DefaultLeft, DefaultRight)

  /** The width of the column a handle sizes. */
  function Active(l: Layout, dir: Dir): int {
    if dir == Left then l.left else l.right
  }

  function Other(l: Layout, dir: Dir): int {
    if dir == Left then l.right else l.left
  }

  /** The width the mouse asks for: the start width plus the offset from
      the start position, mirrored for the right handle. */
  function Wanted(dir: Dir, startX: int, startWidth: int, x: int): int {
    if dir == Left then startWidth + (x - startX) else startWidth - (x - startX)
  }

  predicate WidthsOk(l: Layout) {
    l.left >= MinWidth && l.right >= MinWidth
  }

  /** One mouse move to `x`: the active column takes the wanted width when
      that is at least the minimum and keeps its width otherwise; the other
      column keeps its width. */
  function MoveTo(l: Layout, dir: Dir, startX: int, startWidth: int, x: int): (r: Layout)
    ensures Other(r, dir) == Other(l, dir)
    ensures Wanted(dir, startX, startWidth, x) >= MinWidth ==> Active(r, dir) == Wanted(dir, startX, startWidth, x)
    ensures Wanted(dir, startX, startWidth, x) < MinWidth ==> r == l
    ensures Active(r, dir) >= MinWidth || r == l
  {
    var w := Wanted(dir, startX, startWidth, x);
    if w < MinWidth then l
    else if dir == Left then l.(left := w)
    else l.(right := w)
  }

  /** A drag: the moves to each position of `xs` in turn. */
  function MoveAll(l: Layout, dir: Dir, startX: int, startWidth: int, xs: seq<int>): Layout
    decreases |xs|
  {
    if xs == [] then l
    else MoveAll(MoveTo(l, dir, startX, startWidth, xs[0]), dir, startX, startWidth, xs[1..])
  }

  /** A drag that starts from widths at the minimum or above never takes
      either column below it. */
  lemma {:induction false} MoveAllKeepsMinimum(l: Layout, dir: Dir, startX: int, startWidth: int, xs: seq<int>)
    requires WidthsOk(l)
    ensures WidthsOk(MoveAll(l, dir, startX, startWidth, xs))
    decreases |xs|
  {
    if xs != [] {
      var m := MoveTo(l, dir, startX, startWidth, xs[0]);
      assert WidthsOk(m);
      MoveAllKeepsMinimum(m, dir, startX, startWidth, xs[1..]);
    }
  }

  /** A drag never changes the column of the other handle. */
  lemma {:induction false} MoveAllKeepsOther(l: Layout, dir: Dir, startX: int, startWidth: int, xs: seq<int>)
    ensures Other(MoveAll(l, dir, startX, startWidth, xs), dir) == Other(l, dir)
    decreases |xs|
  {
    if xs != [] {
      MoveAllKeepsOther(MoveTo(l, dir, startX, startWidth, xs[0]), dir, startX, startWidth, xs[1..]);
    }
  }

  lemma {:induction false} MoveAllSnoc(l: Layout, dir: Dir, startX: int, startWidth: int, xs: seq<int>, x: int)
    ensures MoveAll(l, dir, startX, startWidth, xs + [x]) == MoveTo(MoveAll(l, dir, startX, startWidth, xs), dir, startX, startWidth, x)
    decreases |xs|
  {
    if xs == [] {
      assert [x][1..] == [];
    } else {
      assert (xs + [x])[1..] == xs[1..] + [x];
      MoveAllSnoc(MoveTo(l, dir, startX, startWidth, xs[0]), dir, startX, startWidth, xs[1..], x);
    }
  }

  /** Widths are computed from the drag's start, not from the path the
      mouse took: two drags that end at the same position, where the
      wanted width is allowed, leave the same layout. */
  lemma PathIndependent(l: Layout, dir: Dir, startX: int, startWidth: int, xs: seq<int>, ys: seq<int>, x: int)
    requires Wanted(dir, startX, startWidth, x) >= MinWidth
    ensures MoveAll(l, dir, startX, startWidth, xs + [x]) == MoveAll(l, dir, startX, startWidth, ys + [x])
  {
    MoveAllSnoc(l, dir, startX, startWidth, xs, x);
    MoveAllSnoc(l, dir, startX, startWidth, ys, x);
    MoveAllKeepsOther(l, dir, startX, startWidth, xs);
    MoveAllKeepsOther(l, dir, startX, startWidth, ys);
  }

  /** Moving to the same position again changes nothing. */
  lemma MoveTwice(l: Layout, dir: Dir, startX: int, startWidth: int, x: int)
    ensures MoveTo(MoveTo(l, dir, startX, startWidth, x), dir, startX, startWidth, x) == MoveTo(l, dir, startX, startWidth, x)
  {
  }

  /** `v ? parseFloat(v) : fallback`: `None` stands for `NaN`. */
  function Parse(s: Stored, fallback: int): (r: Option<int>)
    ensures s.Absent? ==> r == Some(fallback)
    ensures s.Num? ==> r == Some(s.v)
    ensures s.Garbage? ==> r.None?
  {
    match s
    case Absent => Some(fallback)
    case Num(v) => Some(v)
    case Garbage => None
  }

  /** The stored layout `loadLayoutPreferences` accepts for a window of
      width `w`: both widths (defaults for absent entries) at the minimum or
      above and leaving the chat column more than 100px; `None` means reset. */
  function Accepted(sl: Stored, sr: Stored, w: int): (r: Option<Layout>)
    ensures r.Some? ==> WidthsOk(r.value) && r.value.left + r.value.right < w - ChatRoom
    ensures r.Some? ==> Parse(sl, DefaultLeft) == Some(r.value.left) && Parse(sr, DefaultRight) == Some(r.value.right)
    ensures r.None? <==> (sl.Garbage? || sr.Garbage?
      || !WidthsOk(Layout(Parse(sl, DefaultLeft).value, Parse(sr, DefaultRight).value))
      || Parse(sl, DefaultLeft).value + Parse(sr, DefaultRight).value >= w - ChatRoom)
  {
    match (Parse(sl, DefaultLeft), Parse(sr, DefaultRight))
    case (Some(a), Some(b)) =>
      if a >= MinWidth && b >= MinWidth && a + b < w - ChatRoom then Some(Layout(a, b)) else None
    case _ => None
  }

  /** Widths saved by `stopResize` are restored exactly when they are valid
      for the window. */
  lemma SavedRestored(l: Layout, w: int)
    ensures Accepted(Num(l.left), Num(l.right), w) == Some(l) <==> WidthsOk(l) && l.left + l.right < w - ChatRoom
    ensures Accepted(Num(l.left), Num(l.right), w) != Some(l) ==> Accepted(Num(l.left), Num(l.right), w) == None
  {
  }

  class Resizer {
    var isResizing: bool
    var direction: Option<Dir>
    var startX: int
    var startWidth: int
    /** The grid's channel and member columns. */
    var layout: Layout
    var storedLeft: Stored
    var storedRight: Stored

    /** A drag is in progress exactly when it has a direction. */
    predicate Valid()
      reads this
    {
      isResizing <==> direction.Some?
    }

    /** The module's initial state over a grid of the given widths and the
        given storage. */
    constructor (layout: Layout, storedLeft: Stored, storedRight: Stored)
      ensures Valid()
      ensures !isResizing && direction == None && startX == 0 && startWidth == 0
      ensures this.layout == layout && this.storedLeft == storedLeft && this.storedRight == storedRight
    {
      isResizing := false;
      direction := None;
      startX := 0;
      startWidth := 0;
      this.layout := layout;
      this.storedLeft := storedLeft;
      this.storedRight := storedRight;
    }

    /** `startResize(e, dir)`: a drag starts at `clientX` from the current
        width of the handle's column. */
    method StartResize(dir: Dir, clientX: int)
      requires Valid()
      modifies this
      ensures Valid()
      ensures isResizing && direction == Some(dir) && startX == clientX && startWidth == Active(old(layout), dir)
      ensures layout == old(layout) && storedLeft == old(storedLeft) && storedRight == old(storedRight)
    {
      isResizing := true;
      direction := Some(dir);
      startX := clientX;
      startWidth := Active(layout, dir);
    }

    /** `onResize(e)` (the frame it schedules runs at once): outside a drag
        nothing changes; in one, the layout moves to the mouse. */
    method OnResize(clientX: int)
      requires Valid()
      modifies this
      ensures Valid()
      ensures !old(isResizing) ==> layout == old(layout)
      ensures old(isResizing) ==> layout == MoveTo(old(layout), old(direction).value, old(startX), old(startWidth), clientX)
      ensures WidthsOk(old(layout)) ==> WidthsOk(layout)
      ensures isResizing == old(isResizing) && direction == old(direction)
      ensures startX == old(startX) && startWidth == old(startWidth)
      ensures storedLeft == old(storedLeft) && storedRight == old(storedRight)
    {
      if !isResizing || direction.None? {
        return;
      }
      layout := MoveTo(layout, direction.value, startX, startWidth, clientX);
    }

    /** `stopResize()`: ends a drag and saves both widths. */
    method StopResize()
      requires Valid()
      modifies this
      ensures Valid()
      ensures !old(isResizing) ==> storedLeft == old(storedLeft) && storedRight == old(storedRight) && direction == old(direction)
      ensures old(isResizing) ==> storedLeft == Num(layout.left) && storedRight == Num(layout.right)
      ensures !isResizing && direction == None
      ensures layout == old(layout) && startX == old(startX) && startWidth == old(startWidth)
    {
      if !isResizing {
        return;
      }
      isResizing := false;
      storedLeft := Num(layout.left);
      storedRight := Num(layout.right);
      direction := None;
    }

    /** `resetLayout()`: forgets the saved widths and, when the workspace
        exists, puts the default widths on the grid. */
    method ResetLayout(workspace: bool)
      requires Valid()
      modifies this
      ensures Valid()
      ensures storedLeft == Absent && storedRight == Absent
      ensures layout == if workspace then DefaultLayout else old(layout)
      ensures isResizing == old(isResizing) && direction == old(direction)
      ensures startX == old(startX) && startWidth == old(startWidth)
    {
      storedLeft := Absent;
      storedRight := Absent;
      if workspace {
        layout := DefaultLayout;
      }
    }

    /** `loadLayoutPreferences()` for a window of width `w`: the saved
        widths when they are valid, otherwise a reset. */
    method LoadLayoutPreferences(workspace: bool, w: int)
      requires Valid()
      modifies this
      ensures Valid()
      ensures !workspace ==> layout == old(layout) && storedLeft == old(storedLeft) && storedRight == old(storedRight)
      ensures workspace ==> match Accepted(old(storedLeft), old(storedRight), w)
        case Some(l) => layout == l && storedLeft == old(storedLeft) && storedRight == old(storedRight)
        case None => layout == DefaultLayout && storedLeft == Absent && storedRight == Absent
      ensures isResizing == old(isResizing) && direction == old(direction)
      ensures startX == old(startX) && startWidth == old(startWidth)
    {
      if !workspace {
        return;
      }
      match Accepted(storedLeft, storedRight, w)
      case Some(l) =>
        layout := l;
      case None =>
        ResetLayout(true);
    }
  }
}
