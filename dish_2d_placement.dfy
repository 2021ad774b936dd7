/**
 * The 2D placement canvas of my-app/components/Dish2DPlacement.tsx: the "contain"
 * fit of a 100 cm x 70 cm background into the measured container, the sprite
 * sizing it implies, add-to-canvas, the scale and rotation buttons, and the
 * drag state machine that writes positions back into the store.
 *
 * Pixels, centimetres, scale factors and degrees are exact `real`s.
 */
module Placement {
  import opened DishTypes
  import opened DishStore
  import DishStoreObject

  /** The real-world size the background image always stands for. */
  const BackgroundWidthCm: real := 100.0
  const BackgroundHeightCm: real := 70.0
  const BgAspectRatio: real := BackgroundWidthCm / BackgroundHeightCm

  const MinScale: real := 0.5
  const MaxScale: real := 3.0

  /** The angle the rotate button adds. */
  const RotateStep: real := 45.0

  /** `offsetWidth` and `offsetHeight` of the measured container, in pixels. */
  datatype ContainerSize = ContainerSize(width: real, height: real)

  /** What `getBackgroundDimensions` returns. */
  datatype BackgroundDimensions = BackgroundDimensions(
    width: real, height: real, offsetX: real, offsetY: real, pixelsPerCm: real)

  datatype Point = Point(x: real, y: real)

  datatype Size = Size(width: real, height: real)

  predicate Measurable(c: ContainerSize)
  {
    c.width >= 0.0 && c.height >= 0.0
  }

  // ---------------------------------------------------------------------------
  // The contain fit
  // ---------------------------------------------------------------------------

  /**
   * `containerWidth / containerHeight > bgAspectRatio` as JavaScript evaluates it:
   * a zero height gives `Infinity` (or `NaN` for 0 / 0, which compares false).
   */
  predicate WiderThanBackground(c: ContainerSize)
    requires Measurable(c)
  {
    if c.height == 0.0 then c.width > 0.0 else c.width / c.height > BgAspectRatio
  }

  /** For a positive `b`, comparing `a / b` with `k` compares `a` with `k * b`. */
  lemma QuotientCompare(a: real, b: real, k: real)
    ensures b > 0.0 ==> (a / b > k <==> a > k * b)
  {
    if b > 0.0 {
      assert a == (a / b) * b;
      if a / b > k {
        assert (a / b) * b > k * b;
      } else {
        assert (a / b) * b <= k * b;
      }
    }
  }

  /** The contain fit of the background into a measured container. */
  function ContainFit(c: ContainerSize): (b: BackgroundDimensions)
    requires Measurable(c)
    ensures 0.0 <= b.width <= c.width && 0.0 <= b.height <= c.height
    ensures b.width == c.width || b.height == c.height
    ensures b.width * BackgroundHeightCm == b.height * BackgroundWidthCm
    ensures b.pixelsPerCm * BackgroundWidthCm == b.width && b.pixelsPerCm * BackgroundHeightCm == b.height
    ensures b.offsetX >= 0.0 && b.offsetY >= 0.0
    ensures 2.0 * b.offsetX + b.width == c.width && 2.0 * b.offsetY + b.height == c.height
    ensures c.width > 0.0 && c.height > 0.0 ==> b.pixelsPerCm > 0.0 && b.width > 0.0 && b.height > 0.0
  {
    QuotientCompare(c.width, c.height, BgAspectRatio);
    var width, height :=
      if WiderThanBackground(c) then c.height * BgAspectRatio else c.width,
      if WiderThanBackground(c) then c.height else c.width / BgAspectRatio;
    BackgroundDimensions(width, height, (c.width - width) / 2.0, (c.height - height) / 2.0,
                         width / BackgroundWidthCm)
  }

  /** `getBackgroundDimensions`: nothing until the container has been mounted and measured. */
  function GetBackgroundDimensions(container: Option<ContainerSize>): (r: Option<BackgroundDimensions>)
    requires container.Some? ==> Measurable(container.value)
    ensures r.None? <==> container.None?
    ensures r.Some? ==> r.value.width <= container.value.width && r.value.height <= container.value.height
  {
    match container
    case None => None
    case Some(c) => Some(ContainFit(c))
  }

  /** A container wider than the background: 1200 x 700 px shows it at 1000 x 700 px, 10 px per cm. */
  lemma ContainFitWideContainer()
    ensures ContainFit(ContainerSize(1200.0, 700.0)) == BackgroundDimensions(1000.0, 700.0, 100.0, 0.0, 10.0)
  {
  }

  // ---------------------------------------------------------------------------
  // Sprite size
  // ---------------------------------------------------------------------------

  /** The rendered size of a dish: its size in centimetres times pixels per cm times its scale. */
  function SpriteSize(dish: Dish, pixelsPerCm: real, scale: real): (sz: Size)
    ensures sz.width * dish.heightCm == sz.height * dish.widthCm
    ensures pixelsPerCm > 0.0 && scale > 0.0 && dish.widthCm > 0.0 ==> sz.width > 0.0
    ensures pixelsPerCm > 0.0 && scale > 0.0 && dish.heightCm > 0.0 ==> sz.height > 0.0
  {
    Size(dish.widthCm * pixelsPerCm * scale, dish.heightCm * pixelsPerCm * scale)
  }

  /**
   * Sprites are sized against the background: a dish at scale 1 takes the same share
   * of the displayed background as its centimetres take of 100 cm x 70 cm.
   */
  lemma {:induction false} SpriteSizeAnchoredToBackground(c: ContainerSize, dish: Dish, scale: real)
    requires Measurable(c)
    ensures var b := ContainFit(c);
      var sz := SpriteSize(dish, b.pixelsPerCm, scale);
      && sz.width * BackgroundWidthCm == dish.widthCm * scale * b.width
      && sz.height * BackgroundHeightCm == dish.heightCm * scale * b.height
  {
    var b := ContainFit(c);
    var sz := SpriteSize(dish, b.pixelsPerCm, scale);
    calc {
      sz.width * BackgroundWidthCm;
      dish.widthCm * scale * (b.pixelsPerCm * BackgroundWidthCm);
      dish.widthCm * scale * b.width;
    }
    calc {
      sz.height * BackgroundHeightCm;
      dish.heightCm * scale * (b.pixelsPerCm * BackgroundHeightCm);
      dish.heightCm * scale * b.height;
    }
  }

  /** The first dish with that id (`dishes.find`). */
  function FindDish(dishes: seq<Dish>, id: string): (r: Option<Dish>)
    ensures r.None? <==> id !in DishIds(dishes)
    ensures r.Some? ==> r.value in dishes && r.value.id == id
  {
    if dishes == [] then None
    else if dishes[0].id == id then Some(dishes[0])
    else FindDish(dishes[1..], id)
  }

  /** A placement is drawn only when its dish exists and the container has been measured. */
  function RenderedSize(dishes: seq<Dish>, placed: PlacedDish2D, container: Option<ContainerSize>): (r: Option<Size>)
    requires container.Some? ==> Measurable(container.value)
    ensures r.Some? <==> placed.dishId in DishIds(dishes) && container.Some?
    ensures r.Some? ==> exists d :: (d in dishes && d.id == placed.dishId &&
      r.value == SpriteSize(d, ContainFit(container.value).pixelsPerCm, placed.scale))
  {
    match FindDish(dishes, placed.dishId)
    case None => None
    case Some(dish) =>
      match GetBackgroundDimensions(container)
      case None => None
      case Some(b) => Some(SpriteSize(dish, b.pixelsPerCm, placed.scale))
  }

  // ---------------------------------------------------------------------------
  // Finding placements, adding to the canvas
  // ---------------------------------------------------------------------------

  /** The first placement of that dish (`placedDishes2D.find`). */
  function FindPlacement(ps: seq<PlacedDish2D>, dishId: string): (r: Option<PlacedDish2D>)
    ensures r.None? <==> dishId !in PlacedIds2D(ps)
    ensures r.Some? ==> r.value in ps && r.value.dishId == dishId
  {
    if ps == [] then None
    else if ps[0].dishId == dishId then Some(ps[0])
    else FindPlacement(ps[1..], dishId)
  }

  /** `find` returns the earliest placement of the dish. */
  lemma {:induction false} FindPlacementIsFirst(ps: seq<PlacedDish2D>, dishId: string, i: nat)
    requires i < |ps| && ps[i].dishId == dishId
    requires forall j :: 0 <= j < i ==> ps[j].dishId != dishId
    ensures FindPlacement(ps, dishId) == Some(ps[i])
  {
    if i > 0 {
      FindPlacementIsFirst(ps[1..], dishId, i - 1);
    }
  }

  /** At most one placement per dish. */
  predicate UniquePlacements(ps: seq<PlacedDish2D>)
  {
    forall i, j :: 0 <= i < j < |ps| ==> ps[i].dishId != ps[j].dishId
  }

  /** The placement list after `handleAddDishToCanvas`. */
  function AddToCanvas(ps: seq<PlacedDish2D>, dishId: string, dims: Option<BackgroundDimensions>): (r: seq<PlacedDish2D>)
    ensures dishId in PlacedIds2D(ps) || dims.None? ==> r == ps
    ensures dishId !in PlacedIds2D(ps) && dims.Some? ==>
      |r| == |ps| + 1 && r[..|ps|] == ps && r[|ps|].dishId == dishId
      && r[|ps|].scale == 1.0 && r[|ps|].rotation == 0.0 && r[|ps|].zIndex.None?
  {
    if dishId in PlacedIds2D(ps) then ps
    else match dims
      case None => ps
      case Some(b) =>
        ps + [PlacedDish2D(dishId, b.offsetX + b.width / 2.0, b.offsetY + b.height / 2.0, 1.0, 0.0, None)]
  }

  /**
   * A dish added to the canvas sits at the centre of the displayed background,
   * which is also the centre of the container.
   */
  lemma AddToCanvasCentres(ps: seq<PlacedDish2D>, dishId: string, c: ContainerSize)
    requires Measurable(c) && dishId !in PlacedIds2D(ps)
    ensures var r := AddToCanvas(ps, dishId, GetBackgroundDimensions(Some(c)));
      var b := ContainFit(c);
      && r[|ps|].x == b.offsetX + b.width / 2.0 && r[|ps|].y == b.offsetY + b.height / 2.0
      && r[|ps|].x == c.width / 2.0 && r[|ps|].y == c.height / 2.0
  {
  }

  /** Unlike a bare `placeDish2D`, add-to-canvas never places a dish twice. */
  lemma {:induction false} AddToCanvasKeepsUnique(ps: seq<PlacedDish2D>, dishId: string, dims: Option<BackgroundDimensions>)
    requires UniquePlacements(ps)
    ensures UniquePlacements(AddToCanvas(ps, dishId, dims))
    ensures PlacedIds2D(AddToCanvas(ps, dishId, dims)) == PlacedIds2D(ps) + (if dims.Some? then {dishId} else {})
  {
    var r := AddToCanvas(ps, dishId, dims);
    if dishId !in PlacedIds2D(ps) && dims.Some? {
      forall i | 0 <= i < |ps| ensures r[i].dishId != dishId {
        assert ps[i] in ps;
      }
      assert r == ps + [r[|ps|]];
    }
  }

  // ---------------------------------------------------------------------------
  // Scale and rotation
  // ---------------------------------------------------------------------------

  /** `Math.max(0.5, Math.min(3.0, v))`. */
  function ClampScale(v: real): (r: real)
    ensures MinScale <= r <= MaxScale
    ensures MinScale <= v <= MaxScale ==> r == v
    ensures v < MinScale ==> r == MinScale
    ensures v > MaxScale ==> r == MaxScale
  {
    var upper := if MaxScale < v then MaxScale else v;
    if MinScale > upper then MinScale else upper
  }

  /** The quotient `(x / n).Floor` of a non-negative `x` brackets `x` between consecutive multiples of `n`. */
  lemma FloorQuotient(x: real, n: real)
    requires x >= 0.0 && n > 0.0
    ensures var q := (x / n).Floor;
      && q >= 0 && n * (q as real) <= x < n * (q as real) + n
      && (x < n ==> q == 0)
  {
    var f := x / n;
    var q := f.Floor;
    var qr := q as real;
    assert f * n == x;
    assert qr <= f < qr + 1.0;
    assert q >= 0;
    assert qr * n <= f * n by { MultiplyNonNegative(f - qr, n); }
    MultiplyPositive(qr + 1.0 - f, n);
    assert (qr + 1.0 - f) * n == (qr + 1.0) * n - f * n;
    assert f * n < (qr + 1.0) * n;
    assert (qr + 1.0) * n == n * qr + n;
    assert x < n * qr + n;
    assert n * qr <= x;
    if x < n {
      assert f < 1.0 by { QuotientCompare(x, n, 1.0); }
    }
  }

  lemma CancelFactor(x: real, n: real)
    requires n != 0.0
    ensures (n * x) / n == x
  {
  }

  lemma MultiplyNonNegative(a: real, b: real)
    requires a >= 0.0 && b >= 0.0
    ensures a * b >= 0.0
  {
  }

  lemma MultiplyPositive(a: real, b: real)
    requires a > 0.0 && b > 0.0
    ensures a * b > 0.0
  {
  }

  /** The quotient of `a / n` truncated toward zero, as JavaScript's `%` uses it. */
  function TruncQuotient(a: real, n: real): int
    requires n > 0.0
  {
    if a >= 0.0 then (a / n).Floor else -((-a) / n).Floor
  }

  /** The remainder left by the truncated quotient lies within one `n` of zero, on the side of `a`. */
  lemma TruncRemainderBounds(a: real, n: real)
    requires n > 0.0
    ensures var r := a - n * (TruncQuotient(a, n) as real);
      && -n < r < n
      && (a >= 0.0 ==> 0.0 <= r <= a)
      && (a <= 0.0 ==> a <= r <= 0.0)
      && (-n < a < n ==> r == a)
      && ((a - r) / n).Floor == TruncQuotient(a, n)
  {
    var q := TruncQuotient(a, n);
    if a >= 0.0 {
      FloorQuotient(a, n);
    } else {
      FloorQuotient(-a, n);
    }
    var r := a - n * (q as real);
    assert a - r == n * (q as real);
    CancelFactor(q as real, n);
    var d := a - r;
    assert d == n * (q as real);
    assert d / n == (n * (q as real)) / n;
    assert (a - r) / n == q as real;
    assert ((a - r) / n).Floor == (q as real).Floor == q;
    assert r == a - n * (TruncQuotient(a, n) as real);
    assert ((a - r) / n).Floor == TruncQuotient(a, n);
  }

  /** JavaScript's `a % n` for a positive `n`: the remainder of division truncated toward zero. */
  function JsRemainder(a: real, n: real): (r: real)
    requires n > 0.0
    ensures -n < r < n
    ensures a >= 0.0 ==> 0.0 <= r <= a
    ensures a <= 0.0 ==> a <= r <= 0.0
    ensures -n < a < n ==> r == a
    ensures ((a - r) / n).Floor as real == (a - r) / n
  {
    TruncRemainderBounds(a, n);
    a - n * (TruncQuotient(a, n) as real)
  }

  /** The rotation after `handleRotate(delta)`. */
  function Rotate(rotation: real, delta: real): (r: real)
    ensures -360.0 < r < 360.0
    ensures (rotation + delta >= 0.0 ==> r >= 0.0) && (rotation + delta <= 0.0 ==> r <= 0.0)
  {
    JsRemainder(rotation + delta, 360.0)
  }

  /** The rotation after pressing the rotate button `k` times on a freshly added dish. */
  function RotateTimes(k: nat): real
  {
    if k == 0 then 0.0 else Rotate(RotateTimes(k - 1), RotateStep)
  }

  /** One press of the rotate button moves from the m-th multiple of 45 degrees to the next, mod 8. */
  lemma RotateStepCycles(m: nat)
    requires m < 8
    ensures Rotate(RotateStep * (m as real), RotateStep) == RotateStep * (((m + 1) % 8) as real)
  {
    if m == 7 {
      assert (360.0 / 360.0).Floor == 1;
    }
  }

  /** Starting from 0 and adding 45 degrees, the rotation cycles through 0, 45, ..., 315. */
  lemma {:induction false} RotateTimesCycles(k: nat)
    ensures RotateTimes(k) == RotateStep * ((k % 8) as real)
    ensures 0.0 <= RotateTimes(k) < 360.0
  {
    if k > 0 {
      RotateTimesCycles(k - 1);
      RotateStepCycles((k - 1) % 8);
      NextModEight(k);
    }
  }

  /** Counting one more press advances the position in the cycle of eight by one. */
  lemma NextModEight(k: nat)
    requires k > 0
    ensures ((k - 1) % 8 + 1) % 8 == k % 8
  {
    var m, q := (k - 1) % 8, (k - 1) / 8;
    assert k == 8 * q + m + 1;
    if m == 7 {
      assert k == 8 * (q + 1);
    }
  }

  /** Every scale in the canvas lies in [0.5, 3.0]. */
  predicate ScalesInRange(ps: seq<PlacedDish2D>)
  {
    forall i :: 0 <= i < |ps| ==> MinScale <= ps[i].scale <= MaxScale
  }

  /** Every rotation in the canvas lies strictly between -360 and 360 degrees. */
  predicate RotationsInRange(ps: seq<PlacedDish2D>)
  {
    forall i :: 0 <= i < |ps| ==> -360.0 < ps[i].rotation < 360.0
  }

  /**
   * The canvas's own writes keep scales in [0.5, 3.0] and rotations within one turn:
   * add-to-canvas, a scale change, a rotation and a move.
   */
  lemma ControllerKeepsRanges(ps: seq<PlacedDish2D>, dishId: string, dims: Option<BackgroundDimensions>,
                              scale: real, rotation: real, delta: real, x: real, y: real)
    requires ScalesInRange(ps) && RotationsInRange(ps)
    ensures var r := AddToCanvas(ps, dishId, dims); ScalesInRange(r) && RotationsInRange(r)
    ensures var r := UpdateWhere(ps, dishId, ScalePatch(ClampScale(scale + delta)));
      ScalesInRange(r) && RotationsInRange(r)
    ensures var r := UpdateWhere(ps, dishId, RotationPatch(Rotate(rotation, delta)));
      ScalesInRange(r) && RotationsInRange(r)
    ensures var r := UpdateWhere(ps, dishId, MovePatch(x, y)); ScalesInRange(r) && RotationsInRange(r)
  {
  }

  // ---------------------------------------------------------------------------
  // Dragging
  // ---------------------------------------------------------------------------

  /** The offset recorded on press: pointer client position minus the sprite's stored position. */
  function PressOffset(client: Point, placed: PlacedDish2D): (offset: Point)
    ensures placed.x + offset.x == client.x && placed.y + offset.y == client.y
  {
    Point(client.x - placed.x, client.y - placed.y)
  }

  /** The position written on move: pointer client position, minus the container origin, minus the offset. */
  function MovePosition(client: Point, rectOrigin: Point, offset: Point): (p: Point)
    ensures p.x + rectOrigin.x + offset.x == client.x && p.y + rectOrigin.y + offset.y == client.y
  {
    Point(client.x - rectOrigin.x - offset.x, client.y - rectOrigin.y - offset.y)
  }

  /**
   * As written, the press offset is taken in viewport coordinates and the move position in
   * container coordinates: after a press, the sprite follows the pointer's displacement
   * shifted by the container's origin.
   */
  lemma PressThenMoveShiftsByOrigin(press: Point, move: Point, rectOrigin: Point, placed: PlacedDish2D)
    ensures var p := MovePosition(move, rectOrigin, PressOffset(press, placed));
      p.x == placed.x + (move.x - press.x) - rectOrigin.x
      && p.y == placed.y + (move.y - press.y) - rectOrigin.y
  {
  }

  /** A container 320 px from the left (beside the desktop sidebar): a move without motion jumps 320 px. */
  lemma PressThenMoveJumps()
    ensures var placed := PlacedDish2D("a", 400.0, 300.0, 1.0, 0.0, None);
      var pointer := Point(700.0, 300.0);
      MovePosition(pointer, Point(320.0, 0.0), PressOffset(pointer, placed)) == Point(80.0, 300.0)
  {
  }

  /** The press offset taken, like the move position, relative to the container. */
  function PressOffsetCorrected(client: Point, rectOrigin: Point, placed: PlacedDish2D): (offset: Point)
    ensures placed.x + offset.x + rectOrigin.x == client.x && placed.y + offset.y + rectOrigin.y == client.y
  {
    Point(client.x - rectOrigin.x - placed.x, client.y - rectOrigin.y - placed.y)
  }

  /** With the corrected offset the sprite moves exactly by the pointer's displacement. */
  lemma PressThenMoveFollowsPointer(press: Point, move: Point, rectOrigin: Point, placed: PlacedDish2D)
    ensures var p := MovePosition(move, rectOrigin, PressOffsetCorrected(press, rectOrigin, placed));
      p.x == placed.x + (move.x - press.x) && p.y == placed.y + (move.y - press.y)
    ensures MovePosition(press, rectOrigin, PressOffsetCorrected(press, rectOrigin, placed)) == Point(placed.x, placed.y)
  {
  }

  /** A move rewrites the position of the dragged dish's placements and nothing else. */
  lemma {:induction false} MoveSetsOnlyPosition(ps: seq<PlacedDish2D>, dishId: string, x: real, y: real)
    ensures var r := UpdateWhere(ps, dishId, MovePatch(x, y));
      && |r| == |ps|
      && (forall i :: 0 <= i < |ps| && ps[i].dishId == dishId ==> r[i] == ps[i].(x := x, y := y))
      && (forall i :: 0 <= i < |ps| && ps[i].dishId != dishId ==> r[i] == ps[i])
  {
    var r := UpdateWhere(ps, dishId, MovePatch(x, y));
    forall i | 0 <= i < |ps| && ps[i].dishId == dishId ensures r[i] == ps[i].(x := x, y := y) {
      assert r[i] == MergePlacedDish2D(ps[i], MovePatch(x, y));
    }
  }

  /**
   * The component: its drag state (`draggedDishId`, `dragOffset`) and the store it
   * writes through. The mouse and the touch handlers share one behaviour; a touch
   * event contributes its first touch point.
   */
  class Dish2DPlacement {
    const store: DishStoreObject.Store
    var draggedDishId: Option<string>
    var dragOffset: Point

    /** `draggedDishId` is truthy: set, and not the empty string. */
    predicate IsDragging()
      reads this
    {
      draggedDishId.Some? && draggedDishId.value != ""
    }

    constructor (store: DishStoreObject.Store)
      ensures this.store == store
      ensures draggedDishId == None && dragOffset == Point(0.0, 0.0)
    {
      this.store := store;
      draggedDishId := None;
      dragOffset := Point(0.0, 0.0);
    }

    /** `handleAddDishToCanvas`. */
    method HandleAddDishToCanvas(dishId: string, container: Option<ContainerSize>)
      requires container.Some? ==> Measurable(container.value)
      modifies store
      ensures store.State() == old(store.State()).(placedDishes2D :=
        AddToCanvas(old(store.placedDishes2D), dishId, GetBackgroundDimensions(container)))
    {
      if dishId in PlacedIds2D(store.placedDishes2D) {
        return;
      }
      var dims := GetBackgroundDimensions(container);
      if dims.None? {
        return;
      }
      var b := dims.value;
      store.PlaceDish2D(PlacedDish2D(dishId, b.offsetX + b.width / 2.0, b.offsetY + b.height / 2.0, 1.0, 0.0, None));
    }

    /**
     * `handleDragStart`: start dragging a placed dish, remembering where it was grabbed.
     * The offset is taken relative to the container whose origin is `rect`, as the move
     * handlers use it (the corrected offset; see `PressThenMoveJumps`).
     */
    method HandleDragStart(dishId: string, client: Point, rect: Point)
      modifies this
      ensures FindPlacement(store.placedDishes2D, dishId).None? ==>
        draggedDishId == old(draggedDishId) && dragOffset == old(dragOffset)
      ensures FindPlacement(store.placedDishes2D, dishId).Some? ==>
        draggedDishId == Some(dishId)
        && dragOffset == PressOffsetCorrected(client, rect, FindPlacement(store.placedDishes2D, dishId).value)
    {
      var placed := FindPlacement(store.placedDishes2D, dishId);
      if placed.None? {
        return;
      }
      draggedDishId := Some(dishId);
      dragOffset := PressOffsetCorrected(client, rect, placed.value);
    }

    /** `handleDragMove`: move the dragged dish under the pointer; `rect` is the container's origin, if mounted. */
    method HandleDragMove(client: Point, rect: Option<Point>)
      modifies store
      ensures !IsDragging() || rect.None? ==> store.State() == old(store.State())
      ensures IsDragging() && rect.Some? ==>
        var p := MovePosition(client, rect.value, dragOffset);
        store.State() == UpdatePlacedDish2D(old(store.State()), draggedDishId.value, MovePatch(p.x, p.y))
    {
      if !IsDragging() {
        return;
      }
      if rect.None? {
        return;
      }
      var p := MovePosition(client, rect.value, dragOffset);
      store.UpdatePlacedDish2D(draggedDishId.value, MovePatch(p.x, p.y));
    }

    /** `handleDragEnd`, also bound to mouse-leave: back to idle. */
    method HandleDragEnd()
      modifies this
      ensures draggedDishId == None && !IsDragging()
      ensures dragOffset == old(dragOffset)
    {
      draggedDishId := None;
    }

    /** `handleTouchStart`: as a mouse press, at the first touch point. */
    method HandleTouchStart(dishId: string, touches: seq<Point>, rect: Point)
      requires |touches| > 0
      modifies this
      ensures FindPlacement(store.placedDishes2D, dishId).None? ==>
        draggedDishId == old(draggedDishId) && dragOffset == old(dragOffset)
      ensures FindPlacement(store.placedDishes2D, dishId).Some? ==>
        draggedDishId == Some(dishId)
        && dragOffset == PressOffsetCorrected(touches[0], rect, FindPlacement(store.placedDishes2D, dishId).value)
    {
      HandleDragStart(dishId, touches[0], rect);
    }

    /** `handleTouchMove`: as a mouse move, at the first touch point. */
    method HandleTouchMove(touches: seq<Point>, rect: Option<Point>)
      requires |touches| > 0
      modifies store
      ensures !IsDragging() || rect.None? ==> store.State() == old(store.State())
      ensures IsDragging() && rect.Some? ==>
        var p := MovePosition(touches[0], rect.value, dragOffset);
        store.State() == UpdatePlacedDish2D(old(store.State()), draggedDishId.value, MovePatch(p.x, p.y))
    {
      HandleDragMove(touches[0], rect);
    }

    /** `handleTouchEnd`: back to idle. */
    method HandleTouchEnd()
      modifies this
      ensures draggedDishId == None && dragOffset == old(dragOffset)
    {
      HandleDragEnd();
    }

    /** `handleScaleChange`: clamp the first placement's scale plus `delta` into [0.5, 3.0]. */
    method HandleScaleChange(dishId: string, delta: real)
      modifies store
      ensures FindPlacement(old(store.placedDishes2D), dishId).None? ==> store.State() == old(store.State())
      ensures FindPlacement(old(store.placedDishes2D), dishId).Some? ==>
        var placed := FindPlacement(old(store.placedDishes2D), dishId).value;
        store.State() == UpdatePlacedDish2D(old(store.State()), dishId, ScalePatch(ClampScale(placed.scale + delta)))
    {
      var placed := FindPlacement(store.placedDishes2D, dishId);
      if placed.None? {
        return;
      }
      store.UpdatePlacedDish2D(dishId, ScalePatch(ClampScale(placed.value.scale + delta)));
    }

    /** `handleRotate`: the first placement's rotation plus `delta`, remainder 360. */
    method HandleRotate(dishId: string, delta: real)
      modifies store
      ensures FindPlacement(old(store.placedDishes2D), dishId).None? ==> store.State() == old(store.State())
      ensures FindPlacement(old(store.placedDishes2D), dishId).Some? ==>
        var placed := FindPlacement(old(store.placedDishes2D), dishId).value;
        store.State() == UpdatePlacedDish2D(old(store.State()), dishId, RotationPatch(Rotate(placed.rotation, delta)))
    {
      var placed := FindPlacement(store.placedDishes2D, dishId);
      if placed.None? {
        return;
      }
      store.UpdatePlacedDish2D(dishId, RotationPatch(Rotate(placed.value.rotation, delta)));
    }
  }
}
