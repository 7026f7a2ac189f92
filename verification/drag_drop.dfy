/**
 * The selection and manipulation controller of js/drag-drop.js.
 *
 * The module-level variables of that file (the selected element, the element
 * being dragged, the element being resized or rotated, the resize handle and
 * the gesture-start snapshot) are the fields of one `Controller`.  A gesture
 * is Dragging while `activeDrag` is set and Resizing or Rotating while
 * `activeResize` is set; the end handlers return it to Idle.  The ghost set
 * `Elements` holds the elements made draggable, so that the invariant can
 * speak of every one of them.
 */
module DragDrop {
  import opened Wrappers
  import opened Surface

  class Controller {
    var selected: Element?
    var activeResize: Element?
    var activeDrag: Element?
    var resizeHandle: Option<Handle>

    var resizeStartX: real
    var resizeStartY: real
    var initialScaleX: real
    var initialScaleY: real
    var initialWidth: nat
    var initialHeight: nat
    var dragStartX: real
    var dragStartY: real
    var initialLeft: real
    var initialTop: real

    /** The manipulable elements on the surface. */
    ghost var Elements: set<Element>

    /**
     * At most one element carries handles, the selected one, and it carries
     * exactly the four selection handles; every scale factor stays positive.
     */
    ghost predicate Valid()
      reads this, Elements
    {
      && (selected != null ==> selected in Elements)
      && (activeDrag != null ==> activeDrag in Elements)
      && (activeResize != null ==> activeResize in Elements)
      && (forall e :: e in Elements ==> e.handles == if e == selected then SelectionHandles else [])
      && (forall e :: e in Elements ==> e.scaleX > 0.0 && e.scaleY > 0.0)
      && initialScaleX > 0.0 && initialScaleY > 0.0
    }

    /** The controller with its initial values: nothing selected, no gesture. */
    constructor ()
      ensures Valid() && Elements == {}
      ensures selected == null && activeDrag == null && activeResize == null && resizeHandle == None
      ensures initialScaleX == 1.0 && initialScaleY == 1.0
    {
      selected, activeResize, activeDrag, resizeHandle := null, null, null, None;
      resizeStartX, resizeStartY := 0.0, 0.0;
      initialScaleX, initialScaleY := 1.0, 1.0;
      initialWidth, initialHeight := 0, 0;
      dragStartX, dragStartY, initialLeft, initialTop := 0.0, 0.0, 0.0, 0.0;
      Elements := {};
    }

    /** `makeDraggable(element)`: a freshly rendered element becomes manipulable. */
    method MakeDraggable(e: Element)
      requires Valid() && e !in Elements
      requires e.handles == [] && e.scaleX > 0.0 && e.scaleY > 0.0
      modifies this`Elements
      ensures Valid() && Elements == old(Elements) + {e}
    {
      Elements := Elements + {e};
    }

    /** `deselectElement()`: the selection is cleared and loses its handles; a no-op when nothing is selected. */
    method Deselect()
      requires Valid()
      modifies this`selected, Own(selected)`handles
      ensures Valid()
      ensures selected == null
      ensures old(selected) != null ==> old(selected).handles == []
    {
      if selected != null {
        selected.handles := [];
        selected := null;
      }
    }

    /**
     * `selectElement(element)`: a no-op when `x` is already selected;
     * otherwise the previous selection loses its handles and `x` gets the four.
     */
    method Select(x: Element)
      requires Valid() && x in Elements
      modifies this`selected, Own(selected)`handles, x`handles
      ensures Valid()
      ensures selected == x && x.handles == SelectionHandles
      ensures old(selected) != null && old(selected) != x ==> old(selected).handles == []
      ensures old(selected) == x ==> x.handles == old(x.handles)
    {
      if selected == x {
        return;
      }
      Deselect();
      selected := x;
      x.handles := x.handles + [East];
      x.handles := x.handles + [South];
      x.handles := x.handles + [SouthEast];
      x.handles := x.handles + [Rotate];
    }

    /** The document-wide click handler: a click outside every element and handle deselects. */
    method Click(onManipulable: bool)
      requires Valid()
      modifies this`selected, Own(selected)`handles
      ensures Valid()
      ensures onManipulable ==> selected == old(selected)
      ensures !onManipulable ==> selected == null
    {
      if !onManipulable {
        Deselect();
      }
    }

    /**
     * `dragStart(e)` on `target`: a non-primary mouse button or an element in
     * text-edit mode starts nothing; otherwise the target is selected and
     * becomes the dragged element, and the pointer and the element's position
     * are recorded.
     */
    method DragStart(target: Element, ev: PointerDown)
      requires Valid() && target in Elements
      modifies this`activeDrag, this`selected, Own(selected)`handles, target`handles
      modifies this`dragStartX, this`dragStartY, this`initialLeft, this`initialTop
      ensures Valid()
      ensures !IsPrimary(ev) || old(target.editable) ==> unchanged(this)
      ensures IsPrimary(ev) && !old(target.editable) ==>
                && activeDrag == target && selected == target
                && dragStartX == ev.x && dragStartY == ev.y
                && initialLeft == OrZero(target.left) && initialTop == OrZero(target.top)
    {
      if ev.Mouse? && ev.button != 0 {
        return;
      }
      if target.editable {
        return;
      }
      activeDrag := target;
      if activeDrag != selected {
        Select(activeDrag);
      }
      dragStartX, dragStartY := ev.x, ev.y;
      initialLeft := OrZero(activeDrag.left);
      initialTop := OrZero(activeDrag.top);
    }

    /**
     * `drag(e)`: with no drag under way nothing happens; otherwise the element
     * moves to its start position plus the pointer displacement divided by
     * the surface scale read at this move.  The gesture snapshot is left as it
     * was, so every move is measured from the gesture start.
     */
    method Drag(x: real, y: real, scale: Parsed)
      requires Valid()
      modifies Own(activeDrag)`left, Own(activeDrag)`top
      ensures Valid()
      ensures activeDrag != null ==>
                && activeDrag.left == Num(Moved(initialLeft, dragStartX, x, OrOne(scale)))
                && activeDrag.top == Num(Moved(initialTop, dragStartY, y, OrOne(scale)))
    {
      if activeDrag == null {
        return;
      }
      var currentScale := OrOne(scale);
      var dx := (x - dragStartX) / currentScale;
      var dy := (y - dragStartY) / currentScale;
      activeDrag.left := Num(initialLeft + dx);
      activeDrag.top := Num(initialTop + dy);
    }

    /** `dragEnd()`: the drag is over. */
    method DragEnd()
      requires Valid()
      modifies this`activeDrag
      ensures Valid() && activeDrag == null
    {
      activeDrag := null;
    }

    /**
     * `initResize(e)` on one of the resize handles of the selected element:
     * that element becomes the resized one, and the handle, the pointer, the
     * element's scale and its rendered size are recorded.
     */
    method InitResize(h: Handle, ev: PointerDown, width: nat, height: nat)
      requires Valid() && selected != null && h in selected.handles && h != Rotate
      modifies this`activeResize, this`resizeHandle, this`resizeStartX, this`resizeStartY
      modifies this`initialScaleX, this`initialScaleY, this`initialWidth, this`initialHeight
      ensures Valid()
      ensures activeResize == selected && resizeHandle == Some(h)
      ensures resizeStartX == ev.x && resizeStartY == ev.y
      ensures initialScaleX == selected.scaleX && initialScaleY == selected.scaleY
      ensures initialWidth == width && initialHeight == height
    {
      activeResize := selected;
      resizeHandle := Some(h);
      resizeStartX, resizeStartY := ev.x, ev.y;
      initialScaleX, initialScaleY := activeResize.scaleX, activeResize.scaleY;
      initialWidth, initialHeight := width, height;
    }

    /**
     * `doResize(e)`: with no resize under way nothing happens; otherwise each
     * axis the handle acts on is rescaled by `ResizedScale` from the gesture
     * start, the other axis returns to its start scale, and the rotation is
     * kept.
     */
    method DoResize(x: real, y: real, scale: Parsed)
      requires Valid()
      modifies Own(activeResize)`scaleX, Own(activeResize)`scaleY
      ensures Valid()
      ensures activeResize != null ==>
                && activeResize.scaleX == (if ResizesWidth(resizeHandle)
                                           then ResizedScale(initialWidth, (x - resizeStartX) / OrOne(scale), MinWidth, initialScaleX)
                                           else initialScaleX)
                && activeResize.scaleY == (if ResizesHeight(resizeHandle)
                                           then ResizedScale(initialHeight, (y - resizeStartY) / OrOne(scale), MinHeight, initialScaleY)
                                           else initialScaleY)
    {
      if activeResize == null {
        return;
      }
      var currentScale := OrOne(scale);
      var dx := (x - resizeStartX) / currentScale;
      var dy := (y - resizeStartY) / currentScale;
      var newScaleX := initialScaleX;
      var newScaleY := initialScaleY;
      if resizeHandle == Some(East) || resizeHandle == Some(SouthEast) {
        newScaleX := ResizedScale(initialWidth, dx, MinWidth, initialScaleX);
      }
      if resizeHandle == Some(South) || resizeHandle == Some(SouthEast) {
        newScaleY := ResizedScale(initialHeight, dy, MinHeight, initialScaleY);
      }
      activeResize.scaleX, activeResize.scaleY := newScaleX, newScaleY;
    }

    /** `stopResize()`: the resize is over. */
    method StopResize()
      requires Valid()
      modifies this`activeResize
      ensures Valid() && activeResize == null
    {
      activeResize := null;
    }

    /** `initRotate(e)` on the rotate handle: the selected element becomes the rotated one. */
    method InitRotate()
      requires Valid() && selected != null && Rotate in selected.handles
      modifies this`activeResize
      ensures Valid() && activeResize == selected
    {
      activeResize := selected;
    }

    /**
     * `doRotate(e)`: with no gesture under way nothing happens; otherwise the
     * element takes the rotation `angle` (computed from the pointer angles) and
     * its scale, read back through the column norms of its matrix, is unchanged.
     */
    method DoRotate(angle: real)
      requires Valid()
      modifies Own(activeResize)`rotation, Own(activeResize)`scaleX, Own(activeResize)`scaleY
      ensures Valid()
      ensures activeResize != null ==>
                && activeResize.rotation == angle
                && activeResize.scaleX == old(activeResize.scaleX)
                && activeResize.scaleY == old(activeResize.scaleY)
    {
      if activeResize == null {
        return;
      }
      var currentScaleX := Abs(activeResize.scaleX);
      var currentScaleY := Abs(activeResize.scaleY);
      activeResize.rotation := angle;
      activeResize.scaleX, activeResize.scaleY := currentScaleX, currentScaleY;
    }

    /** `stopRotate()`: the rotation is over. */
    method StopRotate()
      requires Valid()
      modifies this`activeResize
      ensures Valid() && activeResize == null
    {
      activeResize := null;
    }
  }

  /**
   * A drag on a surface shown at half size: the gesture starts at (100, 100)
   * on an element at (0, 0), and the pointer moves to (150, 130).
   */
  method HalfScaleDrag()
  {
    var c := new Controller();
    var e := new Element(NaN, NaN);
    c.MakeDraggable(e);
    c.DragStart(e, Mouse(0, 100.0, 100.0));
    assert c.selected == e && e.handles == SelectionHandles;
    c.Drag(150.0, 130.0, Num(0.5));
    assert e.left == Num(100.0) && e.top == Num(60.0);
    c.DragEnd();
    c.Drag(300.0, 300.0, Num(0.5));
    assert e.left == Num(100.0);
  }
}
