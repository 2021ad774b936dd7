/**
 * The dish store of my-app/store/dishStore.ts.
 *
 * Every action of the store replaces some of its fields with values computed by
 * `filter`, `map` and spread from the previous state. Each action is written here
 * as a pure transition on `StoreState`, the specification about which the lemmas
 * speak; the class `DishStoreObject.Store` performs the same transitions in place.
 */
module DishStore {
  import opened DishTypes
  import opened ListOps

  datatype StoreState = StoreState(
    dishes: seq<Dish>,
    selectedDishes: seq<string>,
    placedDishes: seq<PlacedDish>,
    backgroundImage: Option<string>,
    placedDishes2D: seq<PlacedDish2D>)

  /** The state the store is created with. */
  const Initial := StoreState([], [], [], None, [])

  function DishIds(ds: seq<Dish>): set<string>
  {
    set d | d in ds :: d.id
  }

  function PlacedIds(ps: seq<PlacedDish>): set<string>
  {
    set p | p in ps :: p.dishId
  }

  function PlacedIds2D(ps: seq<PlacedDish2D>): set<string>
  {
    set p | p in ps :: p.dishId
  }

  /** No two dishes of the catalogue share an id. */
  predicate UniqueIds(ds: seq<Dish>)
  {
    forall i, j :: 0 <= i < j < |ds| ==> ds[i].id != ds[j].id
  }

  /** Referential integrity: every selected id and every placement refers to a dish of the catalogue. */
  predicate Integrity(s: StoreState)
  {
    && (set id | id in s.selectedDishes) <= DishIds(s.dishes)
    && PlacedIds(s.placedDishes) <= DishIds(s.dishes)
    && PlacedIds2D(s.placedDishes2D) <= DishIds(s.dishes)
  }

  // ---------------------------------------------------------------------------
  // The catalogue
  // ---------------------------------------------------------------------------

  /** `addDish`: append one dish carrying the given fields, the fresh id and the timestamp. */
  function AddDish(s: StoreState, fields: NewDish, id: string, createdAt: int): (r: StoreState)
    ensures |r.dishes| == |s.dishes| + 1 && r.dishes[..|s.dishes|] == s.dishes
    ensures var d := r.dishes[|s.dishes|];
      && d.id == id && d.createdAt == createdAt && d.name == fields.name
      && d.widthCm == fields.widthCm && d.heightCm == fields.heightCm
      && d.originalImage == fields.originalImage && d.processedImage == fields.processedImage
    ensures r.(dishes := s.dishes) == s
  {
    var d := Dish(id, fields.name, fields.widthCm, fields.heightCm,
                  fields.originalImage, fields.processedImage, createdAt);
    s.(dishes := s.dishes + [d])
  }

  /**
   * `removeDish`: drop the dish, and cascade to the selection and to both placement lists.
   * Each list keeps every occurrence of every other entry, in its original order.
   */
  function RemoveDish(s: StoreState, dishId: string): (r: StoreState)
    ensures forall d :: d in r.dishes <==> d in s.dishes && d.id != dishId
    ensures forall id :: id in r.selectedDishes <==> id in s.selectedDishes && id != dishId
    ensures forall p :: p in r.placedDishes <==> p in s.placedDishes && p.dishId != dishId
    ensures forall p :: p in r.placedDishes2D <==> p in s.placedDishes2D && p.dishId != dishId
    ensures forall d :: multiset(r.dishes)[d] == if d.id != dishId then multiset(s.dishes)[d] else 0
    ensures forall id :: multiset(r.selectedDishes)[id] == if id != dishId then multiset(s.selectedDishes)[id] else 0
    ensures forall p :: multiset(r.placedDishes)[p] == if p.dishId != dishId then multiset(s.placedDishes)[p] else 0
    ensures forall p :: multiset(r.placedDishes2D)[p] == if p.dishId != dishId then multiset(s.placedDishes2D)[p] else 0
    ensures IsSubsequence(r.dishes, s.dishes) && IsSubsequence(r.selectedDishes, s.selectedDishes)
    ensures IsSubsequence(r.placedDishes, s.placedDishes) && IsSubsequence(r.placedDishes2D, s.placedDishes2D)
    ensures r.backgroundImage == s.backgroundImage
  {
    StoreState(
      DishesWithout(s.dishes, dishId),
      IdsWithout(s.selectedDishes, dishId),
      PlacedWithout(s.placedDishes, dishId),
      s.backgroundImage,
      Placed2DWithout(s.placedDishes2D, dishId))
  }

  /** The catalogue without that dish: every other dish as often as before, in order. */
  function DishesWithout(ds: seq<Dish>, dishId: string): (r: seq<Dish>)
    ensures forall d :: d in r <==> d in ds && d.id != dishId
    ensures forall d :: multiset(r)[d] == if d.id != dishId then multiset(ds)[d] else 0
    ensures IsSubsequence(r, ds)
  {
    var keep := (d: Dish) => d.id != dishId;
    FilterCounts(ds, keep);
    FilterIsSubsequence(ds, keep);
    Filter(ds, keep)
  }

  /** A list of ids without `dishId`: every other id as often as before, in order. */
  function IdsWithout(ids: seq<string>, dishId: string): (r: seq<string>)
    ensures forall id :: id in r <==> id in ids && id != dishId
    ensures forall id :: multiset(r)[id] == if id != dishId then multiset(ids)[id] else 0
    ensures IsSubsequence(r, ids)
  {
    var keep := (id: string) => id != dishId;
    FilterCounts(ids, keep);
    FilterIsSubsequence(ids, keep);
    Filter(ids, keep)
  }

  /** The 3D placements without those of that dish: every other one as often as before, in order. */
  function PlacedWithout(ps: seq<PlacedDish>, dishId: string): (r: seq<PlacedDish>)
    ensures forall p :: p in r <==> p in ps && p.dishId != dishId
    ensures forall p :: multiset(r)[p] == if p.dishId != dishId then multiset(ps)[p] else 0
    ensures IsSubsequence(r, ps)
  {
    var keep := (pd: PlacedDish) => pd.dishId != dishId;
    FilterCounts(ps, keep);
    FilterIsSubsequence(ps, keep);
    Filter(ps, keep)
  }

  /** The 2D placements without those of that dish: every other one as often as before, in order. */
  function Placed2DWithout(ps: seq<PlacedDish2D>, dishId: string): (r: seq<PlacedDish2D>)
    ensures forall p :: p in r <==> p in ps && p.dishId != dishId
    ensures forall p :: multiset(r)[p] == if p.dishId != dishId then multiset(ps)[p] else 0
    ensures IsSubsequence(r, ps)
  {
    var keep := (pd: PlacedDish2D) => pd.dishId != dishId;
    FilterCounts(ps, keep);
    FilterIsSubsequence(ps, keep);
    Filter(ps, keep)
  }

  /** `clearDishes`: empty the catalogue, the selection and both placement lists. */
  function ClearDishes(s: StoreState): (r: StoreState)
    ensures r.dishes == [] && r.selectedDishes == [] && r.placedDishes == [] && r.placedDishes2D == []
    ensures r.backgroundImage == s.backgroundImage
  {
    s.(dishes := [], selectedDishes := [], placedDishes := [], placedDishes2D := [])
  }

  // ---------------------------------------------------------------------------
  // The selection
  // ---------------------------------------------------------------------------

  /**
   * `toggleDishSelection`: remove the id when present, append it when absent. A removal
   * keeps every occurrence of every other id, in order.
   */
  function ToggleDishSelection(s: StoreState, dishId: string): (r: StoreState)
    ensures dishId in r.selectedDishes <==> dishId !in s.selectedDishes
    ensures forall id :: id != dishId ==> (id in r.selectedDishes <==> id in s.selectedDishes)
    ensures dishId !in s.selectedDishes ==> r.selectedDishes == s.selectedDishes + [dishId]
    ensures dishId in s.selectedDishes ==>
      && IsSubsequence(r.selectedDishes, s.selectedDishes)
      && forall id :: multiset(r.selectedDishes)[id] == if id != dishId then multiset(s.selectedDishes)[id] else 0
    ensures r.(selectedDishes := s.selectedDishes) == s
  {
    s.(selectedDishes :=
      if dishId in s.selectedDishes then IdsWithout(s.selectedDishes, dishId)
      else s.selectedDishes + [dishId])
  }

  /** `clearSelection`: empty the selection only. */
  function ClearSelection(s: StoreState): (r: StoreState)
    ensures r.selectedDishes == []
    ensures r.(selectedDishes := s.selectedDishes) == s
  {
    s.(selectedDishes := [])
  }

  // ---------------------------------------------------------------------------
  // 3D placements
  // ---------------------------------------------------------------------------

  /** `placeDish`: append the placement. */
  function PlaceDish(s: StoreState, pd: PlacedDish): (r: StoreState)
    ensures |r.placedDishes| == |s.placedDishes| + 1
    ensures r.placedDishes[..|s.placedDishes|] == s.placedDishes && r.placedDishes[|s.placedDishes|] == pd
    ensures r.(placedDishes := s.placedDishes) == s
  {
    s.(placedDishes := s.placedDishes + [pd])
  }

  /** `updatePlacedDish`: merge the patch into every placement of that dish. */
  function UpdatePlacedDish(s: StoreState, dishId: string, u: PlacedDishPatch): (r: StoreState)
    ensures |r.placedDishes| == |s.placedDishes|
    ensures forall i :: 0 <= i < |s.placedDishes| && s.placedDishes[i].dishId != dishId ==>
      r.placedDishes[i] == s.placedDishes[i]
    ensures forall i :: 0 <= i < |s.placedDishes| && s.placedDishes[i].dishId == dishId ==>
      r.placedDishes[i] == MergePlacedDish(s.placedDishes[i], u)
    ensures r.(placedDishes := s.placedDishes) == s
  {
    s.(placedDishes := seq(|s.placedDishes|, i requires 0 <= i < |s.placedDishes| =>
      if s.placedDishes[i].dishId == dishId then MergePlacedDish(s.placedDishes[i], u) else s.placedDishes[i]))
  }

  /** `removePlacedDish`: drop every 3D placement of that dish, keeping the others in order. */
  function RemovePlacedDish(s: StoreState, dishId: string): (r: StoreState)
    ensures forall p :: p in r.placedDishes <==> p in s.placedDishes && p.dishId != dishId
    ensures forall p :: multiset(r.placedDishes)[p] == if p.dishId != dishId then multiset(s.placedDishes)[p] else 0
    ensures IsSubsequence(r.placedDishes, s.placedDishes)
    ensures r.(placedDishes := s.placedDishes) == s
  {
    s.(placedDishes := PlacedWithout(s.placedDishes, dishId))
  }

  /** `clearPlacedDishes`: empty the 3D placement list only. */
  function ClearPlacedDishes(s: StoreState): (r: StoreState)
    ensures r.placedDishes == []
    ensures r.(placedDishes := s.placedDishes) == s
  {
    s.(placedDishes := [])
  }

  // ---------------------------------------------------------------------------
  // The 2D canvas
  // ---------------------------------------------------------------------------

  /** `setBackgroundImage`: replace (or clear, with `None`) the background image only. */
  function SetBackgroundImage(s: StoreState, image: Option<string>): (r: StoreState)
    ensures r.backgroundImage == image
    ensures r.(backgroundImage := s.backgroundImage) == s
  {
    s.(backgroundImage := image)
  }

  /**
   * `placeDish2D`: append the placement as given. There is no check for a placement
   * of the same dish and no `zIndex` is assigned.
   */
  function PlaceDish2D(s: StoreState, pd: PlacedDish2D): (r: StoreState)
    ensures |r.placedDishes2D| == |s.placedDishes2D| + 1
    ensures r.placedDishes2D[..|s.placedDishes2D|] == s.placedDishes2D
    ensures r.placedDishes2D[|s.placedDishes2D|] == pd
    ensures r.(placedDishes2D := s.placedDishes2D) == s
  {
    s.(placedDishes2D := s.placedDishes2D + [pd])
  }

  /** The `map` of `updatePlacedDish2D`: merge `u` into every placement of `dishId`. */
  function UpdateWhere(ps: seq<PlacedDish2D>, dishId: string, u: PlacedDish2DPatch): (r: seq<PlacedDish2D>)
    ensures |r| == |ps|
    ensures forall i :: 0 <= i < |ps| && ps[i].dishId != dishId ==> r[i] == ps[i]
    ensures forall i :: 0 <= i < |ps| && ps[i].dishId == dishId ==> r[i] == MergePlacedDish2D(ps[i], u)
  {
    seq(|ps|, i requires 0 <= i < |ps| =>
      if ps[i].dishId == dishId then MergePlacedDish2D(ps[i], u) else ps[i])
  }

  /** `updatePlacedDish2D`: merge the patch into every 2D placement of that dish. */
  function UpdatePlacedDish2D(s: StoreState, dishId: string, u: PlacedDish2DPatch): (r: StoreState)
    ensures |r.placedDishes2D| == |s.placedDishes2D|
    ensures forall i :: 0 <= i < |s.placedDishes2D| && s.placedDishes2D[i].dishId != dishId ==>
      r.placedDishes2D[i] == s.placedDishes2D[i]
    ensures forall i :: 0 <= i < |s.placedDishes2D| && s.placedDishes2D[i].dishId == dishId ==>
      r.placedDishes2D[i] == MergePlacedDish2D(s.placedDishes2D[i], u)
    ensures r.(placedDishes2D := s.placedDishes2D) == s
  {
    s.(placedDishes2D := UpdateWhere(s.placedDishes2D, dishId, u))
  }

  /** `removePlacedDish2D`: drop every 2D placement of that dish, keeping the others in order. */
  function RemovePlacedDish2D(s: StoreState, dishId: string): (r: StoreState)
    ensures forall p :: p in r.placedDishes2D <==> p in s.placedDishes2D && p.dishId != dishId
    ensures forall p :: multiset(r.placedDishes2D)[p] == if p.dishId != dishId then multiset(s.placedDishes2D)[p] else 0
    ensures IsSubsequence(r.placedDishes2D, s.placedDishes2D)
    ensures r.(placedDishes2D := s.placedDishes2D) == s
  {
    s.(placedDishes2D := Placed2DWithout(s.placedDishes2D, dishId))
  }

  /** `clearPlacedDishes2D`: empty the 2D placement list only. */
  function ClearPlacedDishes2D(s: StoreState): (r: StoreState)
    ensures r.placedDishes2D == []
    ensures r.(placedDishes2D := s.placedDishes2D) == s
  {
    s.(placedDishes2D := [])
  }

  // ---------------------------------------------------------------------------
  // Properties relating the actions
  // ---------------------------------------------------------------------------

  /** Adding a dish keeps every reference valid, and keeps ids unique when the new id is fresh. */
  lemma AddDishPreservesIntegrity(s: StoreState, fields: NewDish, id: string, createdAt: int)
    requires Integrity(s)
    ensures Integrity(AddDish(s, fields, id, createdAt))
    ensures DishIds(AddDish(s, fields, id, createdAt).dishes) == DishIds(s.dishes) + {id}
    ensures UniqueIds(s.dishes) && id !in DishIds(s.dishes) ==> UniqueIds(AddDish(s, fields, id, createdAt).dishes)
  {
    var r := AddDish(s, fields, id, createdAt);
    assert r.dishes == s.dishes + [r.dishes[|s.dishes|]];
    assert DishIds(r.dishes) == DishIds(s.dishes) + {id};
    if UniqueIds(s.dishes) && id !in DishIds(s.dishes) {
      forall i, j | 0 <= i < j < |r.dishes| ensures r.dishes[i].id != r.dishes[j].id {
        if j == |s.dishes| {
          assert r.dishes[i] == s.dishes[i];
          assert s.dishes[i] in s.dishes;
        }
      }
    }
  }

  /** Removing a dish leaves no reference to it and no dangling reference at all. */
  lemma RemoveDishPreservesIntegrity(s: StoreState, dishId: string)
    requires Integrity(s)
    ensures Integrity(RemoveDish(s, dishId))
    ensures var r := RemoveDish(s, dishId);
      dishId !in DishIds(r.dishes) && dishId !in r.selectedDishes
      && dishId !in PlacedIds(r.placedDishes) && dishId !in PlacedIds2D(r.placedDishes2D)
  {
    var r := RemoveDish(s, dishId);
    assert DishIds(r.dishes) == DishIds(s.dishes) - {dishId} by {
      forall id | id in DishIds(s.dishes) - {dishId} ensures id in DishIds(r.dishes) {
        var d :| d in s.dishes && d.id == id;
        assert d in r.dishes;
      }
    }
    forall id | id in r.selectedDishes ensures id in DishIds(r.dishes) {
      assert id in s.selectedDishes;
    }
    forall id | id in PlacedIds(r.placedDishes) ensures id in DishIds(r.dishes) {
      var p :| p in r.placedDishes && p.dishId == id;
      assert id in PlacedIds(s.placedDishes);
    }
    forall id | id in PlacedIds2D(r.placedDishes2D) ensures id in DishIds(r.dishes) {
      var p :| p in r.placedDishes2D && p.dishId == id;
      assert id in PlacedIds2D(s.placedDishes2D);
    }
  }

  /** Removing a dish that nothing mentions changes nothing. */
  lemma RemoveAbsentDishIsNoOp(s: StoreState, dishId: string)
    requires dishId !in DishIds(s.dishes) && dishId !in s.selectedDishes
    requires dishId !in PlacedIds(s.placedDishes) && dishId !in PlacedIds2D(s.placedDishes2D)
    ensures RemoveDish(s, dishId) == s
  {
    FilterKeepsAll(s.dishes, (d: Dish) => d.id != dishId);
    FilterKeepsAll(s.selectedDishes, (id: string) => id != dishId);
    FilterKeepsAll(s.placedDishes, (pd: PlacedDish) => pd.dishId != dishId);
    FilterKeepsAll(s.placedDishes2D, (pd: PlacedDish2D) => pd.dishId != dishId);
  }

  /** Clearing, removing placements and changing the background never create a dangling reference. */
  lemma ShrinkingActionsPreserveIntegrity(s: StoreState, dishId: string, image: Option<string>)
    requires Integrity(s)
    ensures Integrity(ClearDishes(s)) && Integrity(ClearSelection(s))
    ensures Integrity(ClearPlacedDishes(s)) && Integrity(ClearPlacedDishes2D(s))
    ensures Integrity(RemovePlacedDish(s, dishId)) && Integrity(RemovePlacedDish2D(s, dishId))
    ensures Integrity(SetBackgroundImage(s, image))
  {
    var r := RemovePlacedDish(s, dishId);
    assert PlacedIds(r.placedDishes) <= PlacedIds(s.placedDishes);
    var r2 := RemovePlacedDish2D(s, dishId);
    assert PlacedIds2D(r2.placedDishes2D) <= PlacedIds2D(s.placedDishes2D);
  }

  /** Toggling keeps the selection free of duplicates. */
  lemma ToggleKeepsNoDuplicates(s: StoreState, dishId: string)
    requires NoDuplicates(s.selectedDishes)
    ensures NoDuplicates(ToggleDishSelection(s, dishId).selectedDishes)
  {
    if dishId in s.selectedDishes {
      FilterNoDuplicates(s.selectedDishes, (id: string) => id != dishId);
    }
  }

  /** Toggling an id that is not selected, twice, restores the selection exactly. */
  lemma ToggleTwiceRestoresAbsent(s: StoreState, dishId: string)
    requires dishId !in s.selectedDishes
    ensures ToggleDishSelection(ToggleDishSelection(s, dishId), dishId) == s
  {
    var keep := (id: string) => id != dishId;
    FilterAppend(s.selectedDishes, [dishId], keep);
    FilterKeepsAll(s.selectedDishes, keep);
    assert Filter([dishId], keep) == [];
  }

  /**
   * Toggling a selected id twice restores the selection as a set, and restores the list
   * exactly when the id was selected once and last; otherwise the id moves to the end.
   */
  lemma ToggleTwiceRestoresPresent(s: StoreState, dishId: string)
    requires dishId in s.selectedDishes
    ensures var r := ToggleDishSelection(ToggleDishSelection(s, dishId), dishId);
      && (forall id :: id in r.selectedDishes <==> id in s.selectedDishes)
      && r.selectedDishes == Filter(s.selectedDishes, (id: string) => id != dishId) + [dishId]
      && (r == s <==> multiset(s.selectedDishes)[dishId] == 1 && s.selectedDishes[|s.selectedDishes| - 1] == dishId)
  {
    var keep := (id: string) => id != dishId;
    var ss := s.selectedDishes;
    var once := ToggleDishSelection(s, dishId);
    assert once.selectedDishes == Filter(ss, keep);
    assert dishId !in once.selectedDishes;
    ReselectRestores(ss, dishId);
  }

  /** Dropping a selected id and appending it again gives back the same list exactly when it occurred once, last. */
  lemma ReselectRestores(ss: seq<string>, dishId: string)
    requires dishId in ss
    ensures IdsWithout(ss, dishId) + [dishId] == ss <==> multiset(ss)[dishId] == 1 && ss[|ss| - 1] == dishId
  {
    if multiset(ss)[dishId] == 1 && ss[|ss| - 1] == dishId {
      var pre := ss[..|ss| - 1];
      assert ss == pre + [dishId];
      assert multiset(ss) == multiset(pre) + multiset{dishId};
      IdsWithoutLast(pre, dishId);
    }
    var rest := IdsWithout(ss, dishId);
    if rest + [dishId] == ss {
      assert multiset(ss) == multiset(rest) + multiset{dishId};
    }
  }

  /** Dropping an id that only ends the list leaves what precedes it. */
  lemma IdsWithoutLast(pre: seq<string>, dishId: string)
    requires dishId !in pre
    ensures IdsWithout(pre + [dishId], dishId) == pre
  {
    var keep := (id: string) => id != dishId;
    FilterAppend(pre, [dishId], keep);
    FilterKeepsAll(pre, keep);
    assert Filter([dishId], keep) == [];
  }

  /** A selection on which toggling twice does not restore the order: `[a, b]` becomes `[b, a]`. */
  lemma ToggleTwiceCanReorder()
    ensures var s := Initial.(selectedDishes := ["a", "b"]);
      ToggleDishSelection(ToggleDishSelection(s, "a"), "a").selectedDishes == ["b", "a"]
  {
    var keep := (id: string) => id != "a";
    assert ["a", "b"] == ["a"] + ["b"];
    FilterAppend(["a"], ["b"], keep);
    assert Filter(["a"], keep) == [] && Filter(["b"], keep) == ["b"];
    assert IdsWithout(["a", "b"], "a") == ["b"];
  }

  /** `placeDish2D` accepts a second placement of an already placed dish: the list grows anyway. */
  lemma PlaceDish2DAllowsDuplicates(s: StoreState, pd: PlacedDish2D)
    requires pd.dishId in PlacedIds2D(s.placedDishes2D)
    ensures |PlaceDish2D(s, pd).placedDishes2D| == |s.placedDishes2D| + 1
    ensures var ps := PlaceDish2D(s, pd).placedDishes2D;
      exists i, j :: 0 <= i < j < |ps| && ps[i].dishId == ps[j].dishId
  {
    var ps := PlaceDish2D(s, pd).placedDishes2D;
    var q :| q in s.placedDishes2D && q.dishId == pd.dishId;
    var i :| 0 <= i < |s.placedDishes2D| && s.placedDishes2D[i] == q;
    assert ps[i] == q && ps[|s.placedDishes2D|] == pd;
  }

  /** Updating the placements of a dish that is not placed changes nothing. */
  lemma UpdatePlacedDish2DNoMatch(s: StoreState, dishId: string, u: PlacedDish2DPatch)
    requires dishId !in PlacedIds2D(s.placedDishes2D)
    ensures UpdatePlacedDish2D(s, dishId, u) == s
  {
    var r := UpdatePlacedDish2D(s, dishId, u);
    forall i | 0 <= i < |s.placedDishes2D| ensures r.placedDishes2D[i] == s.placedDishes2D[i] {
      assert s.placedDishes2D[i] in s.placedDishes2D;
    }
  }

  /** Updating the 3D placements of a dish that is not placed changes nothing. */
  lemma UpdatePlacedDishNoMatch(s: StoreState, dishId: string, u: PlacedDishPatch)
    requires dishId !in PlacedIds(s.placedDishes)
    ensures UpdatePlacedDish(s, dishId, u) == s
  {
    var r := UpdatePlacedDish(s, dishId, u);
    forall i | 0 <= i < |s.placedDishes| ensures r.placedDishes[i] == s.placedDishes[i] {
      assert s.placedDishes[i] in s.placedDishes;
    }
  }

  /** An update that does not rewrite `dishId` keeps which dishes are placed, hence integrity. */
  lemma UpdatePlacedDish2DKeepsIds(s: StoreState, dishId: string, u: PlacedDish2DPatch)
    requires u.dishId.None?
    ensures PlacedIds2D(UpdatePlacedDish2D(s, dishId, u).placedDishes2D) == PlacedIds2D(s.placedDishes2D)
    ensures Integrity(s) ==> Integrity(UpdatePlacedDish2D(s, dishId, u))
  {
    var ps, rs := s.placedDishes2D, UpdatePlacedDish2D(s, dishId, u).placedDishes2D;
    forall id | id in PlacedIds2D(ps) ensures id in PlacedIds2D(rs) {
      var i :| 0 <= i < |ps| && ps[i].dishId == id;
      assert rs[i] in rs;
    }
    forall id | id in PlacedIds2D(rs) ensures id in PlacedIds2D(ps) {
      var i :| 0 <= i < |rs| && rs[i].dishId == id;
      assert ps[i] in ps;
    }
  }

  /** Applying the same partial update twice is the same as applying it once, even when it renames the dish. */
  lemma UpdatePlacedDish2DIdempotent(s: StoreState, dishId: string, u: PlacedDish2DPatch)
    ensures var once := UpdatePlacedDish2D(s, dishId, u);
      UpdatePlacedDish2D(once, dishId, u) == once
  {
    var once := UpdatePlacedDish2D(s, dishId, u);
    var twice := UpdatePlacedDish2D(once, dishId, u);
    forall i | 0 <= i < |s.placedDishes2D| ensures twice.placedDishes2D[i] == once.placedDishes2D[i] {
      if s.placedDishes2D[i].dishId == dishId && once.placedDishes2D[i].dishId == dishId {
        assert MergePlacedDish2D(MergePlacedDish2D(s.placedDishes2D[i], u), u) == MergePlacedDish2D(s.placedDishes2D[i], u);
      }
    }
  }

}

/**
 * The store object itself: five fields that each action replaces through zustand's
 * `set`, with exactly the values the transitions of `DishStore` compute.
 */
module DishStoreObject {
  import opened DishTypes
  import DishStore
  /** The zustand store: five fields that each action replaces through `set`. */
  class Store {
    var dishes: seq<Dish>
    var selectedDishes: seq<string>
    var placedDishes: seq<PlacedDish>
    var backgroundImage: Option<string>
    var placedDishes2D: seq<PlacedDish2D>

    function State(): DishStore.StoreState
      reads this
    {
      DishStore.StoreState(dishes, selectedDishes, placedDishes, backgroundImage, placedDishes2D)
    }

    constructor ()
      ensures State() == DishStore.Initial
    {
      dishes, selectedDishes, placedDishes, backgroundImage, placedDishes2D := [], [], [], None, [];
    }

    method AddDish(fields: NewDish, id: string, createdAt: int)
      modifies this
      ensures State() == DishStore.AddDish(old(State()), fields, id, createdAt)
    {
      dishes := DishStore.AddDish(State(), fields, id, createdAt).dishes;
    }

    method RemoveDish(dishId: string)
      modifies this
      ensures State() == DishStore.RemoveDish(old(State()), dishId)
    {
      dishes := DishStore.DishesWithout(dishes, dishId);
      selectedDishes := DishStore.IdsWithout(selectedDishes, dishId);
      placedDishes := DishStore.PlacedWithout(placedDishes, dishId);
      placedDishes2D := DishStore.Placed2DWithout(placedDishes2D, dishId);
    }

    method ClearDishes()
      modifies this
      ensures State() == DishStore.ClearDishes(old(State()))
    {
      dishes, selectedDishes, placedDishes, placedDishes2D := [], [], [], [];
    }

    method ToggleDishSelection(dishId: string)
      modifies this
      ensures State() == DishStore.ToggleDishSelection(old(State()), dishId)
    {
      selectedDishes := DishStore.ToggleDishSelection(State(), dishId).selectedDishes;
    }

    method ClearSelection()
      modifies this
      ensures State() == DishStore.ClearSelection(old(State()))
    {
      selectedDishes := [];
    }

    method PlaceDish(pd: PlacedDish)
      modifies this
      ensures State() == DishStore.PlaceDish(old(State()), pd)
    {
      placedDishes := DishStore.PlaceDish(State(), pd).placedDishes;
    }

    method UpdatePlacedDish(dishId: string, u: PlacedDishPatch)
      modifies this
      ensures State() == DishStore.UpdatePlacedDish(old(State()), dishId, u)
    {
      placedDishes := DishStore.UpdatePlacedDish(State(), dishId, u).placedDishes;
    }

    method RemovePlacedDish(dishId: string)
      modifies this
      ensures State() == DishStore.RemovePlacedDish(old(State()), dishId)
    {
      placedDishes := DishStore.RemovePlacedDish(State(), dishId).placedDishes;
    }

    method ClearPlacedDishes()
      modifies this
      ensures State() == DishStore.ClearPlacedDishes(old(State()))
    {
      placedDishes := [];
    }

    method SetBackgroundImage(image: Option<string>)
      modifies this
      ensures State() == DishStore.SetBackgroundImage(old(State()), image)
    {
      backgroundImage := image;
    }

    method PlaceDish2D(pd: PlacedDish2D)
      modifies this
      ensures State() == DishStore.PlaceDish2D(old(State()), pd)
    {
      placedDishes2D := DishStore.PlaceDish2D(State(), pd).placedDishes2D;
    }

    method UpdatePlacedDish2D(dishId: string, u: PlacedDish2DPatch)
      modifies this
      ensures State() == DishStore.UpdatePlacedDish2D(old(State()), dishId, u)
    {
      placedDishes2D := DishStore.UpdatePlacedDish2D(State(), dishId, u).placedDishes2D;
    }

    method RemovePlacedDish2D(dishId: string)
      modifies this
      ensures State() == DishStore.RemovePlacedDish2D(old(State()), dishId)
    {
      placedDishes2D := DishStore.RemovePlacedDish2D(State(), dishId).placedDishes2D;
    }

    method ClearPlacedDishes2D()
      modifies this
      ensures State() == DishStore.ClearPlacedDishes2D(old(State()))
    {
      placedDishes2D := [];
    }
  }
}
