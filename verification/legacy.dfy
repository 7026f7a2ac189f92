/**
 * The single-file editor of script.js, an earlier revision of the same
 * application: its card list kept in step with the layout, the bulk overwrite
 * from the sidebar defaults, and its own drag controller.  Unlike
 * js/drag-drop.js, this controller resolves the surface scale once, when the
 * gesture starts, sanitises it to a positive number, and reuses it on every
 * move.
 */
module Legacy {
  import opened Cards
  import opened Surface

  class LegacyEditor {
    /** `config.layout`: the number of cards on the page. */
    var layout: nat
    var defaults: Card
    var cardsState: seq<Card>

    var activeDrag: Element?
    var dragStartX: real
    var dragStartY: real
    var initialLeft: real
    var initialTop: real
    /** The surface scale captured at the start of the current gesture. */
    var currentScale: real

    /** The captured scale can always be divided by: it is positive. */
    predicate Valid()
      reads this
    {
      currentScale > 0.0
    }

    /** The editor's initial globals: one card layout, the stock defaults, no cards, scale 1. */
    constructor ()
      ensures Valid()
      ensures layout == 1 && cardsState == [] && activeDrag == null && currentScale == 1.0
      ensures defaults == map["offer" := "OFERTA", "name" := "BANANA PRATA", "detail" := "GRAÚDA",
                              "price" := "88,88", "unit" := ""]
    {
      layout := 1;
      defaults := map["offer" := "OFERTA", "name" := "BANANA PRATA", "detail" := "GRAÚDA",
                      "price" := "88,88", "unit" := ""];
      cardsState := [];
      activeDrag := null;
      dragStartX, dragStartY, initialLeft, initialTop := 0.0, 0.0, 0.0, 0.0;
      currentScale := 1.0;
    }

    /**
     * `updateCardsState()`: grow the card list with copies of the defaults,
     * one at a time, or cut it down to `layout` cards; an equal length is
     * left alone.
     */
    method UpdateCardsState()
      modifies this`cardsState
      ensures cardsState == Resized(old(cardsState), layout, defaults)
      ensures |cardsState| == layout
    {
      var currentLength := |cardsState|;
      var targetLength := layout;
      if targetLength > currentLength {
        var i := currentLength;
        while i < targetLength
          invariant currentLength <= i <= targetLength
          invariant cardsState == Resized(old(cardsState), i, defaults)
        {
          ResizedStep(old(cardsState), i, defaults);
          cardsState := cardsState + [defaults];
          i := i + 1;
        }
      } else if targetLength < currentLength {
        cardsState := cardsState[..targetLength];
      }
    }

    /** `updateAllCardsWithDefaults()`: every card becomes a copy of the defaults; the count is kept. */
    method UpdateAllCardsWithDefaults()
      modifies this`cardsState
      ensures cardsState == Overwritten(old(cardsState), defaults)
    {
      cardsState := Overwritten(cardsState, defaults);
    }

    /**
     * `dragStart(e)` on `target`, with `resolved` the scale read from the
     * surface's transform: a non-primary mouse button or an element in
     * text-edit mode starts nothing; otherwise the target becomes the dragged
     * element, the sanitised scale is captured, and the pointer and the
     * element's position are recorded.
     */
    method DragStart(target: Element, ev: PointerDown, resolved: Parsed)
      requires Valid()
      modifies this`activeDrag, this`currentScale
      modifies this`dragStartX, this`dragStartY, this`initialLeft, this`initialTop
      ensures Valid()
      ensures !IsPrimary(ev) || target.editable ==> unchanged(this)
      ensures IsPrimary(ev) && !target.editable ==>
                && activeDrag == target && currentScale == Sanitised(resolved)
                && dragStartX == ev.x && dragStartY == ev.y
                && initialLeft == OrZero(target.left) && initialTop == OrZero(target.top)
    {
      if ev.Mouse? && ev.button != 0 {
        return;
      }
      if target.editable {
        return;
      }
      activeDrag := target;
      currentScale := match resolved case Num(v) => v case NaN => 1.0;
      if resolved.NaN? || currentScale == 0.0 || currentScale <= 0.0 {
        currentScale := 1.0;
      }
      dragStartX, dragStartY := ev.x, ev.y;
      initialLeft := OrZero(activeDrag.left);
      initialTop := OrZero(activeDrag.top);
    }

    /**
     * `drag(e)`: with no drag under way nothing happens; otherwise the element
     * moves to its start position plus the pointer displacement divided by the
     * scale captured at the gesture start.  Nothing of the gesture snapshot changes.
     */
    method Drag(x: real, y: real)
      requires Valid()
      modifies Own(activeDrag)`left, Own(activeDrag)`top
      ensures activeDrag != null ==>
                && activeDrag.left == Num(Moved(initialLeft, dragStartX, x, currentScale))
                && activeDrag.top == Num(Moved(initialTop, dragStartY, y, currentScale))
    {
      if activeDrag == null {
        return;
      }
      var dx := (x - dragStartX) / currentScale;
      var dy := (y - dragStartY) / currentScale;
      activeDrag.left := Num(initialLeft + dx);
      activeDrag.top := Num(initialTop + dy);
    }

    /** `dragEnd()`: the drag is over. */
    method DragEnd()
      requires Valid()
      modifies this`activeDrag
      ensures Valid() && activeDrag == null
    {
      activeDrag := null;
    }
  }

  /**
   * A gesture that starts while the surface reads a negative scale moves the
   * element with the pointer at scale 1 in script.js.
   */
  method NegativeScaleDrag()
  {
    var ed := new LegacyEditor();
    var e := new Element(Num(10.0), NaN);
    ed.DragStart(e, Touch(0.0, 0.0), Num(-2.0));
    assert ed.currentScale == 1.0;
    ed.Drag(30.0, 5.0);
    assert e.left == Num(40.0) && e.top == Num(5.0);
  }
}
