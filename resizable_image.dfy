/** The node view of a resizable image (`src/components/extensions/ResizableImageComponent.jsx`):
    a local `width` that follows the node's `width` attribute, and a drag on either side handle
    that recomputes the width from where the drag started and writes the attribute on release. */
module ResizableImage {
  import opened Common
  import opened Text

  /** The width shown when the node has no `width` attribute. */
  const DefaultWidth := "100%"
  /** The narrowest width a drag can produce, in pixels. */
  const MinWidth := 100
  /** The inline style width the view gives the `<img>` element. */
  const ImgStyleWidth := "100%"

  datatype Direction = Right | Left

  /** The width the drag asks for before clamping: the handle moves the edge it sits on. */
  function Raw(direction: Direction, startWidth: int, dx: int): int
  {
    if direction == Right then startWidth + dx else startWidth - dx
  }

  /** The width after a move of `dx` pixels, clamped below at `MinWidth` and then above at the
      width of the parent element when there is one. */
  function NewWidth(direction: Direction, startWidth: int, dx: int, parentWidth: Option<nat>): (w: int)
    ensures parentWidth.Some? ==> w <= parentWidth.value
    ensures parentWidth.None? || parentWidth.value >= MinWidth ==> w >= MinWidth
    ensures parentWidth.Some? && parentWidth.value < MinWidth ==> w == parentWidth.value
    ensures MinWidth <= Raw(direction, startWidth, dx) && (parentWidth.None? || Raw(direction, startWidth, dx) <= parentWidth.value)
            ==> w == Raw(direction, startWidth, dx)
    ensures Raw(direction, startWidth, dx) < MinWidth && (parentWidth.None? || parentWidth.value >= MinWidth) ==> w == MinWidth
    ensures parentWidth.Some? && Max(MinWidth, Raw(direction, startWidth, dx)) > parentWidth.value ==> w == parentWidth.value
    ensures w >= 0
  {
    var raw := Raw(direction, startWidth, dx);
    var floored := if raw < MinWidth then MinWidth else raw;
    if parentWidth.Some? && floored > parentWidth.value then parentWidth.value else floored
  }

  /** Moving the pointer further right never narrows the image on the right handle, never widens
      it on the left one, and a left drag is a right drag mirrored. */
  lemma {:induction false} NewWidthMonotone(startWidth: int, dx1: int, dx2: int, parentWidth: Option<nat>)
    requires dx1 <= dx2
    ensures NewWidth(Right, startWidth, dx1, parentWidth) <= NewWidth(Right, startWidth, dx2, parentWidth)
    ensures NewWidth(Left, startWidth, dx2, parentWidth) <= NewWidth(Left, startWidth, dx1, parentWidth)
    ensures NewWidth(Left, startWidth, dx1, parentWidth) == NewWidth(Right, startWidth, -dx1, parentWidth)
  {
  }

  /** A pixel width as CSS text. */
  function PxWidth(n: int): (s: string)
    ensures |s| >= 3 && s[|s| - 2..] == "px"
  {
    IntToString(n) + "px"
  }

  /** The number in a pixel width reads back as that number. */
  lemma {:induction false} PxWidthRoundTrip(n: int)
    ensures var s := PxWidth(n); ParseInt(s[..|s| - 2]) == Some(n)
  {
    var s := PxWidth(n);
    assert s[..|s| - 2] == IntToString(n);
    ParseIntOfIntToString(n);
  }

  /** No pixel width is the `<img>` element's `100%`, so a mouse-up as written never keeps the
      width a drag produced. */
  lemma {:induction false} PxWidthIsNotImgStyle(n: int)
    ensures PxWidth(n) != ImgStyleWidth
  {
    var s := PxWidth(n);
    assert s[|s| - 1] == 'x';
    assert ImgStyleWidth[|ImgStyleWidth| - 1] == '%';
  }

  /** A drag in progress: the handle, the pointer's x and the image's width when it began. */
  datatype Drag = Drag(direction: Direction, startX: int, startWidth: nat)

  /** The width shown while the pointer is at `clientX` during drag `d`: pixel text whose number
      is the clamped width. */
  function Dragged(d: Drag, clientX: int, parentWidth: Option<nat>): (s: string)
    ensures |s| >= 3 && s[|s| - 2..] == "px"
    ensures ParseInt(s[..|s| - 2]) == Some(NewWidth(d.direction, d.startWidth, clientX - d.startX, parentWidth))
  {
    var w := NewWidth(d.direction, d.startWidth, clientX - d.startX, parentWidth);
    PxWidthRoundTrip(w);
    PxWidth(w)
  }

  class ImageView {
    /** The node's `width` attribute. */
    var attrWidth: Option<string>
    /** The width the wrapper is drawn with. */
    var width: string
    /** Whether the node is selected, which is when the handles are shown. */
    var selected: bool
    /** The drag whose mouse listeners are installed, if any. */
    var drag: Option<Drag>

    predicate Valid()
      reads this
    {
      width != []
    }

    constructor (attr: Option<string>, isSelected: bool)
      ensures Valid()
      ensures attrWidth == attr && width == OrText(attr, DefaultWidth) && selected == isSelected && drag.None?
    {
      attrWidth := attr;
      width := OrText(attr, DefaultWidth);
      selected := isSelected;
      drag := None;
    }

    /** The node is re-rendered with `attr`: a changed attribute resets the local width. */
    method AttrChanged(attr: Option<string>)
      modifies this
      requires Valid()
      ensures Valid() && attrWidth == attr && selected == old(selected) && drag == old(drag)
      ensures attr != old(attrWidth) ==> width == OrText(attr, DefaultWidth)
      ensures attr == old(attrWidth) ==> width == old(width)
    {
      if attr != attrWidth {
        width := OrText(attr, DefaultWidth);
      }
      attrWidth := attr;
    }

    /** A mouse-down on a handle, which exists only while the node is selected. `imgWidth` is the
        rendered width of the image, absent when it is not mounted. */
    method HandleResizeStart(direction: Direction, clientX: int, imgWidth: Option<nat>)
      modifies this
      requires Valid() && selected
      ensures Valid() && drag == Some(Drag(direction, clientX, imgWidth.GetOr(0)))
      ensures attrWidth == old(attrWidth) && width == old(width) && selected == old(selected)
    {
      drag := Some(Drag(direction, clientX, imgWidth.GetOr(0)));
    }

    /** A mouse move while dragging: only the local width changes. */
    method OnMouseMove(clientX: int, imgMounted: bool, parentWidth: Option<nat>)
      modifies this
      requires Valid() && drag.Some?
      ensures Valid() && attrWidth == old(attrWidth) && drag == old(drag) && selected == old(selected)
      ensures !imgMounted ==> width == old(width)
      ensures imgMounted ==> width == Dragged(drag.value, clientX, parentWidth)
    {
      if !imgMounted {
        return;
      }
      width := Dragged(drag.value, clientX, parentWidth);
    }

    /** Mouse-up as written: the listeners go, and the attribute gets the `<img>` element's own
        inline width, which is always `100%`. The changed attribute then resets the local width. */
    method OnMouseUpAsWritten() returns (committed: string)
      modifies this
      requires Valid() && drag.Some?
      ensures Valid() && drag.None? && selected == old(selected)
      ensures committed == ImgStyleWidth && attrWidth == Some(committed)
      ensures old(attrWidth) != Some(committed) ==> width == committed
      ensures old(attrWidth) == Some(committed) ==> width == old(width)
    {
      drag := None;
      committed := ImgStyleWidth;
      AttrChanged(Some(committed));
    }

    /** Mouse-up as intended: the attribute gets the width the drag produced, which the view
        keeps showing. */
    method OnMouseUp() returns (committed: string)
      modifies this
      requires Valid() && drag.Some?
      ensures Valid() && drag.None? && selected == old(selected)
      ensures committed == old(width) && attrWidth == Some(committed) && width == old(width)
    {
      drag := None;
      committed := width;
      AttrChanged(Some(committed));
    }
  }

  /** A drag of the right handle by `dx` pixels on a selected image without a width attribute,
      then release, as written:
      the attribute written is `100%`, never the width the drag showed. */
  method DragThenReleaseAsWritten(imgWidth: nat, dx: int)
    returns (dragged: string, committed: string)
    ensures dragged == PxWidth(NewWidth(Right, imgWidth, dx, None))
    ensures committed == ImgStyleWidth && committed != dragged
  {
    var view := new ImageView(None, true);
    view.HandleResizeStart(Right, 0, Some(imgWidth));
    view.OnMouseMove(dx, true, None);
    dragged := view.width;
    PxWidthIsNotImgStyle(NewWidth(Right, imgWidth, dx, None));
    committed := view.OnMouseUpAsWritten();
  }

  /** The same drag and release, as intended: the attribute keeps the dragged width. */
  method DragThenRelease(imgWidth: nat, dx: int)
    returns (dragged: string, committed: string)
    ensures dragged == PxWidth(NewWidth(Right, imgWidth, dx, None))
    ensures committed == dragged
  {
    var view := new ImageView(None, true);
    view.HandleResizeStart(Right, 0, Some(imgWidth));
    view.OnMouseMove(dx, true, None);
    dragged := view.width;
    committed := view.OnMouseUp();
  }
}
