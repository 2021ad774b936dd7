# Dish placement: a verified model

This project models the logic of a small web app for planning tableware. Users photograph their dishes, give each dish its real size in centimetres, and place the dishes on a photo of a table. The table photo always stands for 100 cm × 70 cm.

The model covers five parts of the app:

- **Dish store** (`DishStore`, `DishStoreObject`, over `DishTypes` and `ListOps`). The dish catalogue, the selection of dish ids, the 3D and 2D placement lists, and the background image.
  - Every store action is a pure transition on `StoreState`, and the lemmas are stated about these transitions.
  - The class `DishStoreObject.Store` holds the five fields. Its methods replace those fields with exactly what the transitions compute.
- **Placement canvas** (`Placement`).
  - The "contain" fit of the 100 × 70 cm background into the measured container.
  - Sprite sizes in pixels.
  - Add-to-canvas at the centre.
  - Scale clamping to [0.5, 3.0].
  - Rotation with JavaScript's truncated `%`.
  - The drag state machine of the component, as the class `Placement.Dish2DPlacement`, which writes through a `DishStoreObject.Store`.
- **New-dish form** (`NewDishPage`). The ordered guard chain of `handleSubmit`, with `String.prototype.trim` spelled out.
- **Image helpers** (`ImageProcessing`).
  - The MIME type read from a data-URL header, including the `/:(.*?);/` match and the `'image/png'` fallback.
  - The `Uint8Array` filled by the `while (n--)` loop.
  - The downscaled dimensions chosen by `resizeImage`.
- **Device detection** (`DeviceDetection`). `isIOS`, `isAndroid`, `isMobile` and `getDeviceType`, taken over an explicit environment: either no window, or a browser with a user-agent string.

The model uses real numbers for pixels, centimetres, scale factors and degrees, so the geometry is exact. JavaScript behaviour that affects the results is written out:

- an empty `draggedDishId` is falsy;
- `x / 0` gives `Infinity`, and `0 / 0` gives `NaN`, which compares false;
- `%` truncates toward zero;
- `||` replaces an empty match;
- a `Uint8Array` stores a character code modulo 256.

Fresh ids, timestamps, the container's measured size, the container's origin, pointer positions and `atob`'s output are parameters.

`placeDish2D` appends the placement as given, with no duplicate check, and assigns no `zIndex` (`my-app/store/dishStore.ts:102-104`); `DishStore.PlaceDish2DAllowsDuplicates` shows the duplicate being appended. `PlacedDish2D.zIndex` (`my-app/types/dish.ts:27`) is declared but never assigned or read by any code, so the model carries it as an optional value that the canvas leaves unset, and no ordering by it is modelled.

## Model

| member | source | states |
|---|---|---|
| DishStore.AddDish | my-app/store/dishStore.ts:55-64 | exactly one dish is appended; it carries the given fields, the fresh id and the timestamp; the earlier dishes are kept in order; every other field of the state is unchanged |
| DishStore.RemoveDish | my-app/store/dishStore.ts:66-71 | in each of the four lists (dishes, selected ids, 3D and 2D placements) every entry that does not carry the removed id keeps exactly its number of occurrences, every entry that carries it is gone, and the survivors are a subsequence of the old list, so their order is kept; the background image is untouched |
| DishStore.DishesWithout | my-app/store/dishStore.ts:67 | the catalogue filter keeps each other dish as often as before and in order, and drops every dish with that id |
| DishStore.IdsWithout | my-app/store/dishStore.ts:68 | the selection filter keeps each other id as often as before and in order, and drops every occurrence of the id |
| DishStore.PlacedWithout | my-app/store/dishStore.ts:69 | the 3D placement filter keeps each placement of another dish as often as before and in order, and drops every placement of the dish |
| DishStore.Placed2DWithout | my-app/store/dishStore.ts:70 | the 2D placement filter keeps each placement of another dish as often as before and in order, and drops every placement of the dish |
| DishStore.ClearDishes | my-app/store/dishStore.ts:73 | the catalogue, the selection and both placement lists become empty; the background image is kept |
| DishStore.ToggleDishSelection | my-app/store/dishStore.ts:75-79 | the id is selected afterwards iff it was not before; every other id keeps its membership; an absent id is appended at the end; a present id loses every occurrence while every other id keeps its count and the order is kept; nothing else changes |
| DishStore.ClearSelection | my-app/store/dishStore.ts:81 | only the selection is emptied |
| DishStore.PlaceDish | my-app/store/dishStore.ts:83-85 | the 3D placement is appended after the unchanged earlier ones; nothing else changes |
| DishStore.UpdatePlacedDish | my-app/store/dishStore.ts:87-91 | the length is kept; entries of other dishes are unchanged; every entry of the dish becomes the entry overwritten by exactly the fields present in the update |
| DishStore.RemovePlacedDish | my-app/store/dishStore.ts:93-95 | every 3D placement of another dish keeps its number of occurrences and its order, every placement of the dish is gone; nothing else changes |
| DishStore.ClearPlacedDishes | my-app/store/dishStore.ts:97 | only the 3D placement list is emptied |
| DishStore.SetBackgroundImage | my-app/store/dishStore.ts:100 | only the background image changes, to the given image or to none |
| DishStore.PlaceDish2D | my-app/store/dishStore.ts:102-104 | the 2D placement is appended as given, after the unchanged earlier ones, with no duplicate check; nothing else changes |
| DishStore.UpdateWhere | my-app/store/dishStore.ts:107-109 | the `map` keeps the length, leaves other dishes' entries alone and merges the update into each matching entry |
| DishStore.UpdatePlacedDish2D | my-app/store/dishStore.ts:106-110 | the length and order are kept; entries of other dishes are unchanged; each entry of the dish is overwritten by exactly the fields present; nothing else changes |
| DishStore.RemovePlacedDish2D | my-app/store/dishStore.ts:112-114 | every 2D placement of another dish keeps its number of occurrences and its order, every placement of the dish is gone; nothing else changes |
| DishStore.ClearPlacedDishes2D | my-app/store/dishStore.ts:116 | only the 2D placement list is emptied |
| DishStore.AddDishPreservesIntegrity | my-app/store/dishStore.ts:55-64 | adding a dish keeps every selected id and placement referring to a dish, adds exactly the new id to the catalogue's ids, and keeps the ids pairwise distinct when the new id is fresh |
| DishStore.RemoveDishPreservesIntegrity | my-app/store/dishStore.ts:66-71 | after removal no list mentions the dish, and if every reference was valid before, every reference is still valid |
| DishStore.RemoveAbsentDishIsNoOp | my-app/store/dishStore.ts:66-71 | removing an id that no list mentions leaves the whole state unchanged |
| DishStore.ShrinkingActionsPreserveIntegrity | my-app/store/dishStore.ts:73-116 | the clear actions, the placement removals and setting the background keep referential integrity |
| DishStore.ToggleKeepsNoDuplicates | my-app/store/dishStore.ts:75-79 | a selection without duplicate ids stays without duplicates after a toggle |
| DishStore.ToggleTwiceRestoresAbsent | my-app/store/dishStore.ts:75-79 | toggling an unselected id twice restores the selection exactly |
| DishStore.ToggleTwiceRestoresPresent | my-app/store/dishStore.ts:75-79 | toggling a selected id twice restores the selection as a set and moves the id to the end of the list; the list itself comes back unchanged iff the id occurred exactly once, in last position |
| DishStore.ReselectRestores | my-app/store/dishStore.ts:75-79 | dropping a selected id and appending it again gives back the same list iff the id occurred once, last |
| DishStore.IdsWithoutLast | my-app/store/dishStore.ts:75-79 | removing an id that occurs only at the end of the selection leaves what precedes it |
| DishStore.ToggleTwiceCanReorder | my-app/store/dishStore.ts:75-79 | toggling `a` twice turns the selection `[a, b]` into `[b, a]` |
| DishStore.PlaceDish2DAllowsDuplicates | my-app/store/dishStore.ts:102-104 | placing a dish that is already placed still grows the list by one, leaving two entries of the same dish |
| DishStore.UpdatePlacedDish2DNoMatch | my-app/store/dishStore.ts:106-110 | an update for a dish with no 2D placement leaves the state unchanged |
| DishStore.UpdatePlacedDishNoMatch | my-app/store/dishStore.ts:87-91 | an update for a dish with no 3D placement leaves the state unchanged |
| DishStore.UpdatePlacedDish2DKeepsIds | my-app/store/dishStore.ts:106-110 | an update that does not rewrite `dishId` keeps the set of placed dishes, and so keeps referential integrity |
| DishStore.UpdatePlacedDish2DIdempotent | my-app/store/dishStore.ts:106-110 | applying the same partial update twice gives the same state as applying it once, even when the update renames the dish |
| DishStoreObject.Store.constructor | my-app/store/dishStore.ts:48-53 | the store starts with empty lists and no background image |
| DishStoreObject.Store.AddDish | my-app/store/dishStore.ts:55-64 | the new state is the `addDish` transition of the old state |
| DishStoreObject.Store.RemoveDish | my-app/store/dishStore.ts:66-71 | the new state is the cascading `removeDish` transition of the old state |
| DishStoreObject.Store.ClearDishes | my-app/store/dishStore.ts:73 | the new state is the `clearDishes` transition of the old state |
| DishStoreObject.Store.ToggleDishSelection | my-app/store/dishStore.ts:75-79 | the new state is the toggle transition of the old state |
| DishStoreObject.Store.ClearSelection | my-app/store/dishStore.ts:81 | the new state is the `clearSelection` transition of the old state |
| DishStoreObject.Store.PlaceDish | my-app/store/dishStore.ts:83-85 | the new state is the `placeDish` transition of the old state |
| DishStoreObject.Store.UpdatePlacedDish | my-app/store/dishStore.ts:87-91 | the new state is the `updatePlacedDish` transition of the old state |
| DishStoreObject.Store.RemovePlacedDish | my-app/store/dishStore.ts:93-95 | the new state is the `removePlacedDish` transition of the old state |
| DishStoreObject.Store.ClearPlacedDishes | my-app/store/dishStore.ts:97 | the new state is the `clearPlacedDishes` transition of the old state |
| DishStoreObject.Store.SetBackgroundImage | my-app/store/dishStore.ts:100 | the new state is the `setBackgroundImage` transition of the old state |
| DishStoreObject.Store.PlaceDish2D | my-app/store/dishStore.ts:102-104 | the new state is the `placeDish2D` transition of the old state |
| DishStoreObject.Store.UpdatePlacedDish2D | my-app/store/dishStore.ts:106-110 | the new state is the `updatePlacedDish2D` transition of the old state |
| DishStoreObject.Store.RemovePlacedDish2D | my-app/store/dishStore.ts:112-114 | the new state is the `removePlacedDish2D` transition of the old state |
| DishStoreObject.Store.ClearPlacedDishes2D | my-app/store/dishStore.ts:116 | the new state is the `clearPlacedDishes2D` transition of the old state |
| Placement.ContainFit | my-app/components/Dish2DPlacement.tsx:37-60 | the background fits inside the container and fills it in at least one dimension; it keeps the 100:70 aspect ratio; the same pixels-per-cm applies to both axes; the offsets are non-negative and centre it; it is positive for a positive container |
| Placement.GetBackgroundDimensions | my-app/components/Dish2DPlacement.tsx:31-69 | no dimensions exactly when the container is not mounted; otherwise they fit the container |
| Placement.ContainFitWideContainer | my-app/components/Dish2DPlacement.tsx:45-60 | a 1200 × 700 px container shows the background at 1000 × 700 px, offset 100 px, 10 px per cm |
| Placement.SpriteSize | my-app/components/Dish2DPlacement.tsx:380-381 | the sprite keeps the dish's width:height ratio and is positive for a positive size, pixels-per-cm and scale |
| Placement.SpriteSizeAnchoredToBackground | my-app/components/Dish2DPlacement.tsx:380-381 | at scale s, the dish's share of the displayed background is s times its centimetres over 100 cm (width) and 70 cm (height) |
| Placement.FindDish | my-app/components/Dish2DPlacement.tsx:373 | the dish is found iff some dish has that id, and what is found has that id |
| Placement.RenderedSize | my-app/components/Dish2DPlacement.tsx:373-381 | a placement is drawn iff its dish exists and the container is measured, at the sprite size of a dish with that id |
| Placement.FindPlacement | my-app/components/Dish2DPlacement.tsx:106 | a placement is found iff the dish is placed, and what is found belongs to it |
| Placement.FindPlacementIsFirst | my-app/components/Dish2DPlacement.tsx:106 | `find` returns the earliest placement of the dish |
| Placement.AddToCanvas | my-app/components/Dish2DPlacement.tsx:85-102 | nothing changes when the dish is already placed or the container is not measured; otherwise exactly one placement of the dish is appended, at scale 1 and rotation 0, without a z-index |
| Placement.AddToCanvasCentres | my-app/components/Dish2DPlacement.tsx:95-98 | the added dish sits at the centre of the displayed background, which is the centre of the container |
| Placement.AddToCanvasKeepsUnique | my-app/components/Dish2DPlacement.tsx:87-89 | a canvas with one placement per dish keeps one placement per dish; the set of placed dishes gains exactly this dish when the container is measured |
| Placement.ClampScale | my-app/components/Dish2DPlacement.tsx:172 | the result lies in [0.5, 3.0]; a value already in range is kept; a value below or above the range goes to the nearer bound |
| Placement.JsRemainder | my-app/components/Dish2DPlacement.tsx:181 | the remainder is below n in absolute value and has the sign of the dividend; a dividend already below n in absolute value is kept; the dividend differs from it by a whole multiple of n |
| Placement.Rotate | my-app/components/Dish2DPlacement.tsx:181 | the new rotation lies strictly between -360 and 360 and carries the sign of rotation + delta |
| Placement.RotateTimesCycles | my-app/components/Dish2DPlacement.tsx:283 | pressing the +45 button k times from 0 gives 45 · (k mod 8), always in {0, 45, …, 315} |
| Placement.ControllerKeepsRanges | my-app/components/Dish2DPlacement.tsx:85-183 | add-to-canvas, a scale change, a rotation and a move keep every scale in [0.5, 3.0] and every rotation within one turn |
| Placement.PressOffset | my-app/components/Dish2DPlacement.tsx:110-113 | the offset recorded on press is the pointer's client position minus the stored position |
| Placement.MovePosition | my-app/components/Dish2DPlacement.tsx:123-124 | the position written on a move plus the container origin plus the offset is the pointer's client position |
| Placement.PressThenMoveShiftsByOrigin | my-app/components/Dish2DPlacement.tsx:105-127 | as written, after a press the sprite moves by the pointer's displacement minus the container's origin |
| Placement.PressThenMoveJumps | my-app/components/Dish2DPlacement.tsx:110-124 | with the container 320 px from the left, a move to where the pointer was pressed sends a sprite at x 400 to x 80 |
| Placement.PressOffsetCorrected | my-app/components/Dish2DPlacement.tsx:110-113 | an offset taken relative to the container: stored position plus offset plus origin is the pointer |
| Placement.PressThenMoveFollowsPointer | my-app/components/Dish2DPlacement.tsx:110-124 | with the corrected offset the sprite moves exactly by the pointer's displacement, and stays put when the pointer does |
| Placement.MoveSetsOnlyPosition | my-app/components/Dish2DPlacement.tsx:126 | a move rewrites x and y of the dragged dish's placements and leaves every other field and entry alone |
| Placement.Dish2DPlacement.constructor | my-app/components/Dish2DPlacement.tsx:19-20 | the component starts idle, with offset (0, 0) |
| Placement.Dish2DPlacement.HandleAddDishToCanvas | my-app/components/Dish2DPlacement.tsx:85-102 | the store changes exactly as add-to-canvas prescribes for its 2D placements, and nothing else changes |
| Placement.Dish2DPlacement.HandleDragStart | my-app/components/Dish2DPlacement.tsx:105-114 | pressing an unplaced dish changes nothing; otherwise that dish becomes the dragged one, with the pointer's offset from its first placement measured in container coordinates (the corrected offset) |
| Placement.Dish2DPlacement.HandleDragMove | my-app/components/Dish2DPlacement.tsx:117-127 | no change while idle, or when the container is not mounted; otherwise the store receives the position update of the dragged dish |
| Placement.Dish2DPlacement.HandleDragEnd | my-app/components/Dish2DPlacement.tsx:130-132 | release or mouse-leave returns to idle, and the offset is kept |
| Placement.Dish2DPlacement.HandleTouchStart | my-app/components/Dish2DPlacement.tsx:135-145 | the same as a mouse press, at the first touch point, with the corrected offset |
| Placement.Dish2DPlacement.HandleTouchMove | my-app/components/Dish2DPlacement.tsx:148-160 | the same as a mouse move, at the first touch point |
| Placement.Dish2DPlacement.HandleTouchEnd | my-app/components/Dish2DPlacement.tsx:163-165 | returns to idle |
| Placement.Dish2DPlacement.HandleScaleChange | my-app/components/Dish2DPlacement.tsx:168-174 | no change for an unplaced dish; otherwise the dish's placements get the clamped scale of its first placement plus delta |
| Placement.Dish2DPlacement.HandleRotate | my-app/components/Dish2DPlacement.tsx:177-183 | no change for an unplaced dish; otherwise the dish's placements get the first placement's rotation plus delta, remainder 360 |
| NewDishPage.TrimEmptyIffBlank | my-app/app/dishes/new/page.tsx:50 | a name trims to the empty string iff every character of it is whitespace or a line terminator |
| NewDishPage.HandleSubmit | my-app/app/dishes/new/page.tsx:47-76 | a blank name gives the name error; otherwise a missing image gives the image error; otherwise a non-positive size gives the size error; otherwise the untrimmed fields are added and the page goes to `/dishes` |
| NewDishPage.AcceptedDishIsWellFormed | my-app/app/dishes/new/page.tsx:50-72 | every dish the form adds has a non-blank name, both images and a positive size |
| NewDishPage.StoreAfterSubmit | my-app/app/dishes/new/page.tsx:47-76 | a rejection leaves the store unchanged; an accepted form appends exactly one dish with the untrimmed name, the fresh id and a positive size |
| ImageProcessing.BeforeFirst | my-app/lib/image-processing.ts:19 | the header is the longest prefix without a comma, and is followed by a comma when it is shorter than the URL |
| ImageProcessing.LazyCaptureToSemicolon | my-app/lib/image-processing.ts:20 | the capture is the text up to the first `;`, with no line terminator in it; there is none iff a line terminator comes before every `;` |
| ImageProcessing.MatchMime | my-app/lib/image-processing.ts:20 | a capture holds no `;`, and there is none when the header has no `:` |
| ImageProcessing.MimeType | my-app/lib/image-processing.ts:19-20 | the type is never empty, and is `image/png` when the header has no `:` |
| ImageProcessing.MimeTypeOfDataURL | my-app/lib/image-processing.ts:19-20 | for `data:<mime>;…` with a plain type, the type read back is that type, or `image/png` when it is empty |
| ImageProcessing.EmptyMimeFallsBack | my-app/lib/image-processing.ts:20 | `data:;base64,…` gets the type `image/png` |
| ImageProcessing.CharCodeByte | my-app/lib/image-processing.ts:25 | a character code below 256 is stored as is |
| ImageProcessing.DataURLToBlob | my-app/lib/image-processing.ts:18-28 | the type passed to `Blob` is the header's MIME type; the buffer has the decoded string's length; byte i is the code of character i, modulo 256 |
| ImageProcessing.ResizeDimensions | my-app/lib/image-processing.ts:74-82 | an image within bounds is unchanged; otherwise the result fits the bounds, keeps the aspect ratio, is no larger than the original and touches one bound |
| ImageProcessing.ShrinkRatioFits | my-app/lib/image-processing.ts:78-81 | when a bound is exceeded the ratio is strictly between 0 and 1, both scaled sides fit, and one equals its bound |
| ImageProcessing.ResizeLandscapePhoto | my-app/lib/image-processing.ts:66-82 | with the default 1024 bounds, a 4000 × 3000 image is drawn at 1024 × 768 |
| DeviceDetection.LowerChar | my-app/lib/device-detection.ts:8 | an upper-case ASCII letter becomes its lower-case letter; every other character is kept |
| DeviceDetection.ToLower | my-app/lib/device-detection.ts:8 | the length is kept and each character is lowered |
| DeviceDetection.ToLowerIdempotent | my-app/lib/device-detection.ts:8 | lower-casing twice is lower-casing once |
| DeviceDetection.Test | my-app/lib/device-detection.ts:9 | the test succeeds iff the pattern occurs somewhere in the string |
| DeviceDetection.IsIOS | my-app/lib/device-detection.ts:5-10 | false without a window; otherwise true iff the lower-cased user agent contains "iphone", "ipad" or "ipod" |
| DeviceDetection.IsAndroid | my-app/lib/device-detection.ts:12-17 | false without a window; otherwise true iff the lower-cased user agent contains "android" |
| DeviceDetection.IsMobile | my-app/lib/device-detection.ts:19-21 | true iff there is a browser whose lower-cased user agent contains one of the four mobile markers |
| DeviceDetection.GetDeviceType | my-app/lib/device-detection.ts:23-27 | 'ios' iff iOS; 'android' iff Android and not iOS; 'desktop' iff not mobile |
| DeviceDetection.CaseInsensitive | my-app/lib/device-detection.ts:8-16 | a user agent and its lower-cased form get the same iOS, Android and device-type answers |
| DeviceDetection.OccursSurvivesLowering | my-app/lib/device-detection.ts:9 | a lower-case marker in the user agent is still found after lower-casing |
| DeviceDetection.IosTakesPriority | my-app/lib/device-detection.ts:23-27 | a user agent naming both an iPad and Android is Android by `isAndroid`, yet its device type is 'ios' |
| DeviceDetection.UpperCaseIPhone | my-app/lib/device-detection.ts:5-10 | an upper-case "IPHONE" marker is recognised as iOS |

## Left out

- IEEE-754 rounding, `NaN` and infinite inputs. Sizes, positions, scales and angles are exact reals. The one place where the code meets `Infinity` or `NaN`, a zero container or image side, is written out.
- React state timing and re-rendering, zustand's `set` and its subscriptions, and all JSX, styling and the sidebar toggle.
- `crypto.randomUUID()` and `new Date()`. The id and the timestamp are parameters of `AddDish`, with the timestamp as an integer.
- `atob`, `Blob` construction, `Image` loading, canvas drawing and `toDataURL`, `FileReader`, and the background-removal library call. `DataURLToBlob` receives `atob`'s output as a parameter, and `ResizeDimensions` receives the loaded image's size.
- The asynchronous upload handlers of the new-dish form and of the canvas.
- `my-app/components/IOSSimpleAR.tsx`, the list and AR route pages, `StoreInitializer` and the default dish data are not part of this model.
- Z-order. `placeDish2D` assigns no `zIndex` (`my-app/store/dishStore.ts:102-104`), and `PlacedDish2D.zIndex` (`my-app/types/dish.ts:27`) is never assigned or read, so no ordering by it is modelled.
- `DeviceDetection.LowerChar` lowers ASCII letters only. Unicode case mappings outside ASCII are not modelled, and none of them produces an ASCII marker letter in a position where it could complete a marker.
- `DeviceDetection.ToLower` lowers each character with `DeviceDetection.LowerChar`, so it too covers ASCII letters only, for the same reason.
- `ImageProcessing.CharCodeByte` takes one Dafny character for each UTF-16 code unit. `atob` only returns characters below 256, so surrogate pairs do not arise.
- `Placement.Dish2DPlacement.HandleDragStart` records the corrected press offset, relative to the container origin `rect`, and not the viewport-relative offset of the code. The code's offset is `Placement.PressOffset`, and the Findings section describes the difference.
- `Placement.Dish2DPlacement.HandleTouchStart` records the corrected press offset, like `HandleDragStart`. It requires at least one touch point. A `touchstart` event always carries one, while the code would throw on `touches[0]` without it.
- `Placement.Dish2DPlacement.HandleTouchMove` requires at least one touch point, for the same reason.
- `Placement.ContainFit` requires a container with non-negative sizes. `offsetWidth` and `offsetHeight` are never negative.

## Findings

| source | as written | input that shows it | evidently intended | confidence | as-written member | corrected member |
|---|---|---|---|---|---|---|
| my-app/components/Dish2DPlacement.tsx:110-124 | the drag offset is taken as `clientX - placed.x` in viewport coordinates. The move then subtracts the container's `rect.left` and `rect.top` as well, so the sprite jumps by the container's origin on the first move (desktop: 320 px, the sidebar's width). The route page puts a header above the canvas (`my-app/app/ar/page.tsx:55`), so `rect.top` is positive as well and the first move also shifts the sprite upwards, on mobile too | container origin (320, 0), sprite at (400, 300), press and move at (700, 300): the sprite is moved to (80, 300) | the offset is taken relative to the container (`clientX - rect.left - placed.x`), so a sprite follows the pointer's displacement exactly | high; not executed | Placement.PressThenMoveJumps | Placement.PressThenMoveFollowsPointer |

`Placement.PressOffset` is the offset as the code computes it. The class `Placement.Dish2DPlacement` records the corrected offset, `Placement.PressOffsetCorrected`, in its press handlers. Its move handlers write `Placement.MovePosition` of that offset, so by `Placement.PressThenMoveFollowsPointer` a dragged sprite follows the pointer.
