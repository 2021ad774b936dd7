/**
 * The records of the dish catalogue and of the placements, as declared in
 * my-app/types/dish.ts, together with the partial updates (`Partial<...>`)
 * that the store merges into placements with an object spread.
 *
 * Numbers are modelled as `real`; ids and data URLs as strings.
 */
module DishTypes {

  datatype Option<T> = None | Some(value: T)

  /** A catalogue entry (`Dish`). `createdAt` is a timestamp in milliseconds. */
  datatype Dish = Dish(
    id: string,
    name: string,
    widthCm: real,
    heightCm: real,
    originalImage: string,
    processedImage: string,
    createdAt: int)

  /** The fields a caller gives to `addDish`: a `Dish` without `id` and `createdAt`. */
  datatype NewDish = NewDish(
    name: string,
    widthCm: real,
    heightCm: real,
    originalImage: string,
    processedImage: string)

  datatype Vector3 = Vector3(x: real, y: real, z: real)

  /** A dish placed in 3D space (`PlacedDish`); rotation in radians about the Y axis. */
  datatype PlacedDish = PlacedDish(dishId: string, position: Vector3, rotation: real, scale: real)

  /**
   * A dish placed on the 2D canvas (`PlacedDish2D`): centre in container pixels,
   * scale factor (1.0 = real size), rotation in degrees. `zIndex` is carried as an
   * opaque value; `None` stands for the property being absent from the object.
   */
  datatype PlacedDish2D = PlacedDish2D(
    dishId: string,
    x: real,
    y: real,
    scale: real,
    rotation: real,
    zIndex: Option<real>)

  /** `Partial<PlacedDish>`: each `Some` field overwrites, each `None` field is absent. */
  datatype PlacedDishPatch = PlacedDishPatch(
    dishId: Option<string>,
    position: Option<Vector3>,
    rotation: Option<real>,
    scale: Option<real>)

  /** `Partial<PlacedDish2D>`: each `Some` field overwrites, each `None` field is absent. */
  datatype PlacedDish2DPatch = PlacedDish2DPatch(
    dishId: Option<string>,
    x: Option<real>,
    y: Option<real>,
    scale: Option<real>,
    rotation: Option<real>,
    zIndex: Option<Option<real>>)

  function Or<T>(o: Option<T>, fallback: T): T
  {
    match o
    case Some(v) => v
    case None => fallback
  }

  /** `{ ...pd, ...updates }` for a 3D placement. */
  function MergePlacedDish(pd: PlacedDish, u: PlacedDishPatch): PlacedDish
  {
    PlacedDish(Or(u.dishId, pd.dishId), Or(u.position, pd.position),
               Or(u.rotation, pd.rotation), Or(u.scale, pd.scale))
  }

  /** `{ ...pd, ...updates }` for a 2D placement. */
  function MergePlacedDish2D(pd: PlacedDish2D, u: PlacedDish2DPatch): PlacedDish2D
  {
    PlacedDish2D(Or(u.dishId, pd.dishId), Or(u.x, pd.x), Or(u.y, pd.y),
                 Or(u.scale, pd.scale), Or(u.rotation, pd.rotation), Or(u.zIndex, pd.zIndex))
  }

  /** The patch `{ x, y }` written by the drag handlers. */
  function MovePatch(x: real, y: real): PlacedDish2DPatch
  {
    PlacedDish2DPatch(None, Some(x), Some(y), None, None, None)
  }

  /** The patch `{ scale }` written by the scale buttons. */
  function ScalePatch(scale: real): PlacedDish2DPatch
  {
    PlacedDish2DPatch(None, None, None, Some(scale), None, None)
  }

  /** The patch `{ rotation }` written by the rotate button. */
  function RotationPatch(rotation: real): PlacedDish2DPatch
  {
    PlacedDish2DPatch(None, None, None, None, Some(rotation), None)
  }
}
