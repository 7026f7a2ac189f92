/**
 * The editing surface as the manipulation code sees it: manipulable elements
 * with their position and transform, pointer events, the surface's visual
 * scale, and the arithmetic that turns pointer movement into new positions
 * and scale factors.  Shared by js/drag-drop.js and the older controller in
 * script.js.
 */
module Surface {
  import opened Wrappers

  /** The result of `parseFloat`: a number, or NaN when nothing numeric could be read. */
  datatype Parsed = Num(value: real) | NaN

  /** `parseFloat(x) || 0`: NaN (and 0) read as 0. */
  function OrZero(p: Parsed): (r: real)
    ensures p.Num? ==> r == p.value
    ensures p.NaN? ==> r == 0.0
  {
    match p
    case Num(v) => v
    case NaN => 0.0
  }

  /**
   * `getContainerScale() || 1`, the fallback of js/drag-drop.js: only the
   * falsy readings (0 and NaN) become 1, so the result can be divided by.
   */
  function OrOne(p: Parsed): (s: real)
    ensures s != 0.0
    ensures p.Num? && p.value != 0.0 ==> s == p.value
    ensures p.NaN? || p.value == 0.0 ==> s == 1.0
  {
    if p.Num? && p.value != 0.0 then p.value else 1.0
  }

  /**
   * `if (!currentScale || currentScale <= 0) currentScale = 1`, the safety
   * check of script.js: every reading that is not a positive number becomes 1.
   */
  function Sanitised(p: Parsed): (s: real)
    ensures s > 0.0
    ensures p.Num? && p.value > 0.0 ==> s == p.value
    ensures p.NaN? || p.value <= 0.0 ==> s == 1.0
  {
    if p.Num? && p.value > 0.0 then p.value else 1.0
  }

  /** The two fallbacks agree except on a negative reading, which only script.js replaces. */
  lemma FallbacksDifferOnNegative(p: Parsed)
    ensures OrOne(p) == Sanitised(p) <==> !(p.Num? && p.value < 0.0)
  {
  }

  /**
   * One coordinate after a drag move: `initial + (pointer - start) / scale`.
   * The document-space displacement times the surface scale is exactly the
   * pointer displacement on screen.
   */
  function Moved(initial: real, start: real, pointer: real, scale: real): (r: real)
    requires scale != 0.0
    ensures (r - initial) * scale == pointer - start
  {
    initial + (pointer - start) / scale
  }

  /** A pointer back at its starting point puts the element back at its starting position. */
  lemma MovedBackIsStart(initial: real, start: real, scale: real)
    requires scale != 0.0
    ensures Moved(initial, start, start, scale) == initial
  {
  }

  /** Moves are relative to the gesture start, so two moves compose into the move to the later pointer. */
  lemma MovedIsPathIndependent(initial: real, start: real, p1: real, p2: real, scale: real)
    requires scale != 0.0
    ensures Moved(Moved(initial, start, p1, scale), p1, p2, scale) == Moved(initial, start, p2, scale)
  {
    var m1 := Moved(initial, start, p1, scale);
    var m2 := Moved(m1, p1, p2, scale);
    var m := Moved(initial, start, p2, scale);
    assert (m2 - m) * scale == 0.0;
  }

  /** The resize floors, in document pixels: a width must exceed 20, a height 10. */
  const MinWidth: real := 20.0
  const MinHeight: real := 10.0

  /**
   * The scale factor along one axis after a resize move: when the candidate
   * size `startSize + delta` exceeds `floor`, the start scale stretched by the
   * ratio of candidate to start size; otherwise the start scale.  A zero start
   * size keeps the start scale (see `ResizedScaleAsWritten`).
   */
  function ResizedScale(startSize: nat, delta: real, floor: real, startScale: real): (r: real)
    ensures startSize as real + delta <= floor ==> r == startScale
    ensures startSize == 0 ==> r == startScale
    ensures startSize > 0 && startSize as real + delta > floor ==>
              r * startSize as real == (startSize as real + delta) * startScale
    ensures floor >= 0.0 && startScale > 0.0 ==> r > 0.0
  {
    if startSize > 0 && startSize as real + delta > floor
    then ((startSize as real + delta) / startSize as real) * startScale
    else startScale
  }

  /** A JavaScript number as far as the resize rule needs it: finite, or Infinity/NaN. */
  datatype JsNumber = Finite(value: real) | NonFinite

  /**
   * The resize rule as js/drag-drop.js writes it: `(newWidth / initialWidth) *
   * initialScaleX` with no check of `initialWidth`, so a zero start size
   * divides by zero.  `NonFinite` stands for Infinity or NaN: interpolated
   * into `scale(…)` it makes the transform invalid CSS, so the browser drops
   * the whole write and the element keeps its previous transform, including
   * the other axis's change of an `se` move.
   */
  function ResizedScaleAsWritten(startSize: nat, delta: real, floor: real, startScale: real): (r: JsNumber)
    ensures startSize > 0 ==> r == Finite(ResizedScale(startSize, delta, floor, startScale))
  {
    if startSize as real + delta > floor then
      if startSize == 0 then NonFinite
      else Finite(((startSize as real + delta) / startSize as real) * startScale)
    else Finite(startScale)
  }

  /** An element whose start width is 0, dragged 21px to the east, gets a non-finite scale. */
  lemma ZeroWidthResizeIsNonFinite()
    ensures ResizedScaleAsWritten(0, 21.0, MinWidth, 1.0) == NonFinite
    ensures ResizedScale(0, 21.0, MinWidth, 1.0) == 1.0
  {
  }

  /** The linear part of a CSS transform matrix `matrix(a, b, c, d, tx, ty)`. */
  datatype Matrix = Matrix(a: real, b: real, c: real, d: real)

  /**
   * The matrix of `rotate(θ) scale(sx, sy)`, given `cos θ` and `sin θ`
   * (the transform that resize and rotate write).
   */
  function RotateScale(cos: real, sin: real, sx: real, sy: real): (m: Matrix)
    ensures cos == 1.0 && sin == 0.0 ==> m == Matrix(sx, 0.0, 0.0, sy)
  {
    Matrix(sx * cos, sx * sin, -sy * sin, sy * cos)
  }

  /**
   * The start scale as `initResize` reads it: `(matrix.a, matrix.d)`.  For a
   * matrix without a rotation part that reading is exactly the scale the
   * matrix was written with.
   */
  function MatrixStartScale(m: Matrix): (s: (real, real))
    ensures m.b == 0.0 && m.c == 0.0 ==> m == RotateScale(1.0, 0.0, s.0, s.1)
  {
    (m.a, m.d)
  }

  /**
   * For an element turned upside down (cos θ = -1, sin θ = 0) that reading is
   * the negated scale, and for a quarter turn (cos θ = 0) it is 0 on both axes.
   */
  lemma RotatedStartScaleIsWrong(sx: real, sy: real)
    requires sx > 0.0 && sy > 0.0
    ensures MatrixStartScale(RotateScale(-1.0, 0.0, sx, sy)) == (-sx, -sy)
    ensures MatrixStartScale(RotateScale(0.0, 1.0, sx, sy)) == (0.0, 0.0)
  {
  }

  /**
   * The column norms of the matrix (what `Math.hypot(a, b)` and
   * `Math.hypot(c, d)` compute in `doRotate`) are the absolute scale factors
   * whatever the rotation: squared, they are `sx * sx` and `sy * sy`.
   */
  lemma ColumnNormsAreScales(cos: real, sin: real, sx: real, sy: real)
    requires cos * cos + sin * sin == 1.0
    ensures var m := RotateScale(cos, sin, sx, sy);
            m.a * m.a + m.b * m.b == sx * sx && m.c * m.c + m.d * m.d == sy * sy
  {
    var m := RotateScale(cos, sin, sx, sy);
    calc {
      m.a * m.a + m.b * m.b;
      (sx * sx) * (cos * cos) + (sx * sx) * (sin * sin);
      (sx * sx) * (cos * cos + sin * sin);
    }
    calc {
      m.c * m.c + m.d * m.d;
      (sy * sy) * (sin * sin) + (sy * sy) * (cos * cos);
      (sy * sy) * (cos * cos + sin * sin);
    }
  }

  /** `|x|`, the value `Math.hypot` yields for a single non-zero component. */
  function Abs(x: real): (r: real)
    ensures r >= 0.0 && (r == x || r == -x)
  {
    if x < 0.0 then -x else x
  }

  /** The four handles of a selected element, by their `data-type`: 'e', 's', 'se' and 'rot'. */
  datatype Handle = East | South | SouthEast | Rotate

  /** The handles `selectElement` appends, in order. */
  const SelectionHandles: seq<Handle> := [East, South, SouthEast, Rotate]

  /** Whether a resize with this handle changes the width (`'e'`, `'se'`) or the height (`'s'`, `'se'`). */
  predicate ResizesWidth(h: Option<Handle>) { h == Some(East) || h == Some(SouthEast) }
  predicate ResizesHeight(h: Option<Handle>) { h == Some(South) || h == Some(SouthEast) }

  /** A pointer-down: a mouse button press, or the first contact point of a touch. */
  datatype PointerDown = Mouse(button: int, x: real, y: real) | Touch(x: real, y: real)

  /** Only touches and the primary mouse button (button 0) may start a drag. */
  predicate IsPrimary(ev: PointerDown) {
    ev.Touch? || ev.button == 0
  }

  /**
   * A manipulable element of the poster: its inline `left`/`top` (as
   * `parseFloat` reads them), its transform `rotate(rotation) scale(scaleX,
   * scaleY)`, whether it is in text-edit mode, and the handles attached to it.
   */
  class Element {
    var left: Parsed
    var top: Parsed
    var rotation: real
    var scaleX: real
    var scaleY: real
    var editable: bool
    var handles: seq<Handle>

    /** A freshly rendered element: no transform, not being edited, no handles. */
    constructor (left: Parsed, top: Parsed)
      ensures this.left == left && this.top == top
      ensures rotation == 0.0 && scaleX == 1.0 && scaleY == 1.0
      ensures !editable && handles == []
    {
      this.left, this.top := left, top;
      rotation, scaleX, scaleY := 0.0, 1.0, 1.0;
      editable := false;
      handles := [];
    }
  }

  /** The element, as a frame: nothing when there is none. */
  function Own(e: Element?): (s: set<Element>)
  {
    if e == null then {} else {e}
  }
}
