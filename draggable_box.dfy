/**
 * The selection frame (src/DraggableBox.py): a frame drawn `border` pixels
 * outside the screenshot selection, dragged by its centre and resized by
 * the bands `resizeBorder` pixels wide along its edges.
 *
 * Geometry follows Qt: a frame's `rect()` is local, from (0, 0) with
 * `right() == width - 1` and `bottom() == height - 1`; `geometry()` is in
 * the parent's coordinates, and `mapToParent` adds the frame's top-left
 * corner.  Moving the window, cursor shapes and the change signal are left
 * to the window system.
 */
module DraggableBoxes {
  import opened Wrappers

  /** `zone_areas` (DraggableBox.py:10-19). */
  datatype Zone = Center | Left | Top | Right | Bottom | TopLeft | TopRight | BottomLeft | BottomRight

  datatype Point = Point(x: int, y: int)

  /** `Box(left, top, width, height)`, also used for a Qt geometry. */
  datatype Box = Box(left: int, top: int, width: int, height: int)

  datatype MouseButton = LeftButton | OtherButton

  /** The exclusive right and bottom edges of a geometry. */
  function RightEdge(b: Box): int { b.left + b.width }
  function BottomEdge(b: Box): int { b.top + b.height }

  /** The zones that move the left, right, top and bottom edge. */
  predicate LeftSide(z: Zone) { z == Left || z == TopLeft || z == BottomLeft }
  predicate RightSide(z: Zone) { z == Right || z == TopRight || z == BottomRight }
  predicate TopSide(z: Zone) { z == Top || z == TopLeft || z == TopRight }
  predicate BottomSide(z: Zone) { z == Bottom || z == BottomLeft || z == BottomRight }

  /** The bands along each edge of the local rectangle (0, 0, width, height). */
  predicate NearLeft(resizeBorder: int, p: Point) { 0 <= p.x <= resizeBorder }
  predicate NearRight(width: int, resizeBorder: int, p: Point) { width - 1 >= p.x >= width - 1 - resizeBorder }
  predicate NearTop(resizeBorder: int, p: Point) { 0 <= p.y <= resizeBorder }
  predicate NearBottom(height: int, resizeBorder: int, p: Point) { height - 1 >= p.y >= height - 1 - resizeBorder }

  /**
   * `get_zone` (DraggableBox.py:115-138): corners before edges, the left
   * band before the right one and the top band before the bottom one, and
   * the centre only when no band holds the point.
   */
  function GetZone(width: int, height: int, resizeBorder: int, p: Point): (z: Zone)
    ensures LeftSide(z) <==> NearLeft(resizeBorder, p)
    ensures RightSide(z) <==> NearRight(width, resizeBorder, p) && !NearLeft(resizeBorder, p)
    ensures TopSide(z) <==> NearTop(resizeBorder, p)
    ensures BottomSide(z) <==> NearBottom(height, resizeBorder, p) && !NearTop(resizeBorder, p)
    ensures z == Center <==>
              !NearLeft(resizeBorder, p) && !NearRight(width, resizeBorder, p) &&
              !NearTop(resizeBorder, p) && !NearBottom(height, resizeBorder, p)
  {
    var left := NearLeft(resizeBorder, p);
    var right := NearRight(width, resizeBorder, p);
    var top := NearTop(resizeBorder, p);
    var bottom := NearBottom(height, resizeBorder, p);
    if left && top then TopLeft
    else if right && top then TopRight
    else if left && bottom then BottomLeft
    else if right && bottom then BottomRight
    else if left then Left
    else if right then Right
    else if top then Top
    else if bottom then Bottom
    else Center
  }

  /** The frame around a selection (DraggableBox.py:46-49, :110-113). */
  function Outset(selection: Box, border: int): (frame: Box)
    ensures frame.left == selection.left - border && RightEdge(frame) == RightEdge(selection) + border
    ensures frame.top == selection.top - border && BottomEdge(frame) == BottomEdge(selection) + border
  {
    Box(selection.left - border, selection.top - border,
        selection.width + 2 * border, selection.height + 2 * border)
  }

  /** The selection inside a frame, `update_selection` (DraggableBox.py:97-101). */
  function Inset(frame: Box, border: int): (selection: Box)
    ensures Outset(selection, border) == frame
  {
    Box(frame.left + border, frame.top + border,
        frame.width - 2 * border, frame.height - 2 * border)
  }

  /** Setting a selection and reading it back from the frame gives the same selection. */
  lemma InsetOfOutset(selection: Box, border: int)
    ensures Inset(Outset(selection, border), border) == selection
  {
  }

  /**
   * What `resize_box` (DraggableBox.py:153-181) does to a frame, given the
   * zone being dragged and the cursor `m` in the parent's coordinates: a
   * dragged edge follows the cursor unless that would leave less than
   * `1 + 2 * border`, in which case it stops at that distance from the
   * opposite edge, which never moves; an extent no zone side names is kept.
   */
  ghost predicate Resizes(before: Box, zone: Option<Zone>, m: Point, border: int, after: Box) {
    var minSize := 1 + 2 * border;
    && (if zone.Some? && LeftSide(zone.value) then
          RightEdge(after) == RightEdge(before) &&
          (if RightEdge(before) - m.x >= minSize then after.left == m.x else after.width == minSize)
        else if zone.Some? && RightSide(zone.value) then
          after.left == before.left &&
          (if m.x - before.left >= minSize then RightEdge(after) == m.x else after.width == minSize)
        else
          after.left == before.left && after.width == before.width)
    && (if zone.Some? && TopSide(zone.value) then
          BottomEdge(after) == BottomEdge(before) &&
          (if BottomEdge(before) - m.y >= minSize then after.top == m.y else after.height == minSize)
        else if zone.Some? && BottomSide(zone.value) then
          after.top == before.top &&
          (if m.y - before.top >= minSize then BottomEdge(after) == m.y else after.height == minSize)
        else
          after.top == before.top && after.height == before.height)
  }

  /** The new geometry `resize_box` computes, edge by edge (DraggableBox.py:154-181). */
  method ResizeGeometry(geometry: Box, zone: Option<Zone>, m: Point, border: int) returns (r: Box)
    ensures Resizes(geometry, zone, m, border, r)
    ensures zone.Some? && (LeftSide(zone.value) || RightSide(zone.value)) ==> r.width >= 1 + 2 * border
    ensures zone.Some? && (TopSide(zone.value) || BottomSide(zone.value)) ==> r.height >= 1 + 2 * border
  {
    var left, top := geometry.left, geometry.top;
    var right, bottom := geometry.left + geometry.width, geometry.top + geometry.height;
    var minWidth, minHeight := 1 + 2 * border, 1 + 2 * border;
    if zone.Some? && LeftSide(zone.value) {
      if right - m.x >= minWidth {
        left := m.x;
      } else {
        left := right - minWidth;
      }
    } else if zone.Some? && RightSide(zone.value) {
      if m.x - left >= minWidth {
        right := m.x;
      } else {
        right := left + minWidth;
      }
    }
    if zone.Some? && TopSide(zone.value) {
      if bottom - m.y >= minHeight {
        top := m.y;
      } else {
        top := bottom - minHeight;
      }
    } else if zone.Some? && BottomSide(zone.value) {
      if m.y - top >= minHeight {
        bottom := m.y;
      } else {
        bottom := top + minHeight;
      }
    }
    r := Box(left, top, right - left, bottom - top);
  }

  /**
   * A resize with a horizontal zone leaves a selection at least one pixel
   * wide, and one with a vertical zone a selection at least one pixel high
   * (DraggableBox.py:158, :98-101).
   */
  lemma ResizedSelectionNotEmpty(before: Box, zone: Zone, m: Point, border: int, after: Box)
    requires Resizes(before, Some(zone), m, border, after)
    ensures LeftSide(zone) || RightSide(zone) ==> Inset(after, border).width >= 1
    ensures TopSide(zone) || BottomSide(zone) ==> Inset(after, border).height >= 1
  {
  }

  /** The cursor position `p` of the frame `frame`, in the parent's coordinates. */
  function MapToParent(frame: Box, p: Point): (q: Point)
    ensures q.x - frame.left == p.x && q.y - frame.top == p.y
  {
    Point(frame.left + p.x, frame.top + p.y)
  }

  class DraggableBox {
    const border: int
    const resizeBorder: int
    /** `geometry()`, in the parent's coordinates. */
    var frame: Box
    var selection: Box
    var dragging: bool
    var resizing: bool
    /** Where in the frame the drag started. */
    var offset: Option<Point>
    var resizeZone: Option<Zone>

    /**
     * The selection always sits `border` inside the frame; a drag knows
     * where it started and a resize knows which edge it moves.
     */
    ghost predicate Valid()
      reads this
    {
      && selection == Inset(frame, border)
      && (dragging ==> offset.Some?)
      && (resizing ==> resizeZone.Some? && resizeZone.value != Center)
    }

    /**
     * `__init__` and `initGUI` (DraggableBox.py:26-53); without a selection
     * the box is 100 by 100 in the middle of the monitor.
     */
    constructor(border: int, resizeBorder: int, monitorWidth: int, monitorHeight: int, selection: Option<Box>)
      ensures Valid()
      ensures this.border == border && this.resizeBorder == resizeBorder
      ensures this.selection ==
                if selection.Some? then selection.value
                else Box(monitorWidth / 2 - 50, monitorHeight / 2 - 50, 100, 100)
      ensures !dragging && !resizing && offset.None? && resizeZone.None?
    {
      this.border := border;
      this.resizeBorder := resizeBorder;
      var s := if selection.Some? then selection.value
               else Box(monitorWidth / 2 - 50, monitorHeight / 2 - 50, 100, 100);
      this.selection := s;
      this.frame := Outset(s, border);
      InsetOfOutset(s, border);
      dragging, resizing := false, false;
      offset, resizeZone := None, None;
    }

    /** `mousePressEvent` (DraggableBox.py:55-69). */
    method MousePress(button: MouseButton, pos: Point)
      requires Valid()
      modifies this`dragging, this`offset, this`resizing, this`resizeZone
      ensures Valid()
      ensures button == OtherButton ==>
                dragging == old(dragging) && offset == old(offset) &&
                resizing == old(resizing) && resizeZone == old(resizeZone)
      ensures button == LeftButton && GetZone(frame.width, frame.height, resizeBorder, pos) == Center ==>
                dragging && offset == Some(pos) &&
                resizing == old(resizing) && resizeZone == old(resizeZone)
      ensures button == LeftButton && GetZone(frame.width, frame.height, resizeBorder, pos) != Center ==>
                resizing && resizeZone == Some(GetZone(frame.width, frame.height, resizeBorder, pos)) &&
                dragging == old(dragging) && offset == old(offset)
    {
      if button == LeftButton {
        var zone := GetZone(frame.width, frame.height, resizeBorder, pos);
        if zone == Center {
          dragging := true;
          offset := Some(pos);
        } else {
          resizing := true;
          resizeZone := Some(zone);
        }
      }
    }

    /**
     * `mouseMoveEvent` (DraggableBox.py:71-83): a drag moves the frame
     * without resizing it, a resize moves the zone's edges, and otherwise
     * the zone under the cursor is returned for the cursor shape.
     */
    method MouseMove(pos: Point) returns (hover: Option<Zone>)
      requires Valid()
      modifies this`frame, this`selection
      ensures Valid()
      ensures hover.Some? <==> !dragging && !resizing
      ensures hover.Some? ==>
                hover.value == GetZone(frame.width, frame.height, resizeBorder, pos) && frame == old(frame)
      ensures dragging ==>
                frame == Box(old(frame).left + pos.x - offset.value.x, old(frame).top + pos.y - offset.value.y,
                             old(frame).width, old(frame).height)
      ensures !dragging && resizing ==>
                Resizes(old(frame), resizeZone, MapToParent(old(frame), pos), border, frame)
    {
      if dragging {
        var topLeft := MapToParent(frame, Point(pos.x - offset.value.x, pos.y - offset.value.y));
        frame := Box(topLeft.x, topLeft.y, frame.width, frame.height);
        UpdateSelection();
        hover := None;
      } else if resizing {
        ResizeBox(pos);
        hover := None;
      } else {
        hover := Some(GetZone(frame.width, frame.height, resizeBorder, pos));
      }
    }

    /** `mouseReleaseEvent` (DraggableBox.py:85-90). */
    method MouseRelease(button: MouseButton)
      requires Valid()
      modifies this`dragging, this`offset, this`resizing, this`resizeZone
      ensures Valid()
      ensures button == LeftButton ==> !dragging && offset.None? && !resizing && resizeZone.None?
      ensures button == OtherButton ==>
                dragging == old(dragging) && offset == old(offset) &&
                resizing == old(resizing) && resizeZone == old(resizeZone)
    {
      if button == LeftButton {
        dragging := false;
        offset := None;
        resizing := false;
        resizeZone := None;
      }
    }

    /** `update_selection` (DraggableBox.py:92-103). */
    method UpdateSelection()
      modifies this`selection
      ensures selection == Inset(frame, border)
    {
      selection := Inset(frame, border);
    }

    /** `on_change_selection` (DraggableBox.py:105-113). */
    method OnChangeSelection(selection: Box)
      requires Valid()
      modifies this`frame, this`selection
      ensures Valid()
      ensures this.selection == selection && frame == Outset(selection, border)
    {
      this.selection := selection;
      frame := Outset(selection, border);
      InsetOfOutset(selection, border);
    }

    /** `resize_box` (DraggableBox.py:153-182). */
    method ResizeBox(pos: Point)
      requires Valid()
      modifies this`frame, this`selection
      ensures Valid()
      ensures Resizes(old(frame), resizeZone, MapToParent(old(frame), pos), border, frame)
    {
      var m := MapToParent(frame, pos);
      frame := ResizeGeometry(frame, resizeZone, m, border);
      UpdateSelection();
    }
  }

  /**
   * A selection set from outside is what the frame reports back once it
   * recomputes its selection (DraggableBox.py:109-113, :97-101).
   */
  method ChangeThenUpdate(box: DraggableBox, selection: Box)
    requires box.Valid()
    modifies box`frame, box`selection
    ensures box.Valid() && box.selection == selection
  {
    box.OnChangeSelection(selection);
    box.UpdateSelection();
  }
}
