# Khichik storefront: verified model of its interactive logic

This project models the parts of the Khichik storefront that hold logic worth proving. The rest of the app is layout and media. Each source file becomes one Dafny module:

- `TShirtDesigner` (`tshirt_designer.dfy`) covers the T-shirt designer's placement engine:
  - the colour-to-mockup lookup;
  - the aspect-preserving fit of the artwork into a 200 x 200 box;
  - the unrotated hit-test and the drag offset;
  - the per-axis clamp to the 400 x 500 surface;
  - the saturating scale buttons, the ±15° rotation buttons and reset.

  The handlers are the methods of the `Designer` class. Each method is specified by a pure transition on a `Placement` value, and the lemmas are about those transitions and about runs of events.
- `CartContext` (`cart_context.dfy`) covers the cart's list operations:
  - merge-or-append on add, keyed by id, size and colour;
  - removal and quantity changes, keyed by id alone;
  - clearing;
  - the `total` and `count` folds.
- `CustomizeSection` (`customize_section.dfy`) covers the customize page's session:
  - the upload continuations, where background removal, the file reader and `URL.createObjectURL` are abstract outcomes passed in as parameters;
  - the add-to-cart gate and its validation messages;
  - the preview choice;
  - the design record handed to the persistence sink.

  The `Customizer` class holds the page state.
- `ProductDetail` (`product_detail.dfy`) covers the product page:
  - product lookup by route id and the "other products" filter;
  - the pincode sanitiser and the delivery check;
  - the size-gated add-to-cart, which builds the `p-<id>-<size>` line.
- `FeaturedProducts` (`featured_products.dfy`) covers the grid:
  - the choice of the card nearest the viewport centre, as a loop method proved against its specification;
  - the resulting `mobileActive` flags;
  - the per-index hover, tilt and wishlist updates.
- `DragClamp` (`drag_clamp.dfy`) covers the canvas prototype's `object:moving` handler, which shifts an object back inside the canvas.
- `Wrappers` and `Text` are shared helpers:
  - `Option` stands for `null`/`undefined`;
  - ASCII lower-casing, digit filtering, and decimal rendering with its read-back.

Coordinates are `real`. Fitted sizes, prices and quantities are `int`. JavaScript's `Math.round` is `floor(x + 1/2)`.

### Where the code and the intended design differ (the model follows the code)

- Neither the scale buttons nor a newly loaded artwork re-clamp the position. Only "+" and a newly loaded artwork can push the box out of the surface; `ScaleUpCanLeaveSurface` gives a concrete case for "+". Drags, releases, "-", rotations and resets keep a box that is on the surface on it (`ScaleDownKeepsWithin`, `RunKeepsWithinSurface`).
- The pointer handlers use the pointer's CSS-pixel offset from the canvas corner directly as surface coordinates. The 400 x 500 canvas is shown at the width of its container, with its height following. So once it is displayed at any other size, the hit-test and the drag no longer line up with the drawn artwork. The model takes the pointer in the same unscaled units.
- An upload started while an earlier one is still pending is not guarded by a request id. The file input is merely disabled while `isProcessing` is true, and `isProcessing` is already false before the matted image's reader finishes. No stale-result discard is modelled.
- When `URL.createObjectURL` fails, the file reader is used as a fallback. If that reader also fails, its `null` result replaces both images, so the previous upload is lost rather than kept (`FallbackRead`, `UploadOutcomes`).
- The record handed to the sink carries no placement (position, scale or rotation).

## Model

| member | source | states |
|---|---|---|
| TShirtDesigner.MockupPath | src/components/TShirtDesigner.tsx:20-33 | the four palette colours, compared after lower-casing, map to their mockups; every other key maps to `/mockup-t.png` |
| TShirtDesigner.MockupPathTotal | src/components/TShirtDesigner.tsx:30-31 | the lookup never fails: every key yields one of the four mockup files |
| TShirtDesigner.MockupPathIgnoresCase | src/components/TShirtDesigner.tsx:21 | a colour and its lower-cased form get the same mockup |
| TShirtDesigner.Round | src/components/TShirtDesigner.tsx:94 | `Math.round(x)` is the integer within half a unit of x, with halves rounded up |
| TShirtDesigner.FittedSize | src/components/TShirtDesigner.tsx:87-95 | the artwork's native size scaled by `FitScale` and rounded; specified by `FittedSizeBounds`, `FittedSizeNoUpscale`, `FittedSizeFillsBox` and `FittedSizeExample` |
| TShirtDesigner.StoreFittedSize | src/components/TShirtDesigner.tsx:97-102 | stores the fitted size only when it differs from the stored one; specified by `StoreFittedSizeIdempotent` |
| TShirtDesigner.PointerDown | src/components/TShirtDesigner.tsx:126-148 | the hit-test and drag start; specified by `PointerDownStartsDrag`, `HitIgnoresRotation` and `GrabDoesNotSnap` |
| TShirtDesigner.PointerMove | src/components/TShirtDesigner.tsx:194-211 | the clamped drag; specified by `PointerMoveWithinSurface`, `PointerMoveIdempotent` and `PointerMoveOnlyWhileDragging` |
| TShirtDesigner.PointerUp | src/components/TShirtDesigner.tsx:213-215 | ends the drag; specified by `PointerUpEndsDrag` |
| TShirtDesigner.ScaleDown | src/components/TShirtDesigner.tsx:262 | the "-" button; specified by `ScaleButtonsStayInRange`, `ScaleSaturates` and `ScaleDownKeepsWithin` |
| TShirtDesigner.ScaleUp | src/components/TShirtDesigner.tsx:268 | the "+" button; specified by `ScaleButtonsStayInRange`, `ScaleSaturates` and `ScaleUpCanLeaveSurface` |
| TShirtDesigner.RotateCounterClockwise | src/components/TShirtDesigner.tsx:274 | the left rotation button; specified by `RotationIsAdditive` |
| TShirtDesigner.RotateClockwise | src/components/TShirtDesigner.tsx:280 | the right rotation button; specified by `RotationIsAdditive` and `FourTurnsGiveSixty` |
| TShirtDesigner.Reset | src/components/TShirtDesigner.tsx:217-221 | the reset button; specified by `ResetRestoresInitial` |
| TShirtDesigner.FitScale | src/components/TShirtDesigner.tsx:89-93 | the fit scale is positive, at most 1, at most 200/w and 200/h, and equal to one of them; a zero side imposes no bound |
| TShirtDesigner.FittedSizeBounds | src/components/TShirtDesigner.tsx:87-95 | each fitted side lies in [1, 200] and never exceeds the native side |
| TShirtDesigner.FittedSizeNoUpscale | src/components/TShirtDesigner.tsx:89-93 | an artwork that fits the box keeps its native size (the cap at 1x) |
| TShirtDesigner.FittedSizeFillsBox | src/components/TShirtDesigner.tsx:87-95 | an artwork larger than the box is shrunk until its longer side (either side when they are equal) is exactly 200 |
| TShirtDesigner.FittedSizeExample | src/components/TShirtDesigner.tsx:87-95 | a 600 x 300 artwork is fitted to 200 x 100 |
| TShirtDesigner.StoreFittedSizeIdempotent | src/components/TShirtDesigner.tsx:97-102 | after the check the stored size equals the fitted size; repeating the check changes nothing; the transform is untouched |
| TShirtDesigner.PointerDownStartsDrag | src/components/TShirtDesigner.tsx:126-148 | a drag starts, with offset pointer minus position, only when a design is shown and the pointer is in the closed rectangle [x, x+W·scale]×[y, y+H·scale]; the transform and stored size are untouched |
| TShirtDesigner.HitIgnoresRotation | src/components/TShirtDesigner.tsx:136-144 | the hit-test does not depend on the rotation |
| TShirtDesigner.ClampBounds | src/components/TShirtDesigner.tsx:208-209 | `max(0, min(v, hi))` is ≥ 0, ≤ hi when hi ≥ 0, 0 when hi < 0, and v when v is already in [0, hi] |
| TShirtDesigner.PointerMoveWithinSurface | src/components/TShirtDesigner.tsx:200-210 | while dragging, each coordinate is ≥ 0, ≤ 400 − W·scale (500 − H·scale) when that bound is ≥ 0, and 0 when it is negative |
| TShirtDesigner.PointerMoveIdempotent | src/components/TShirtDesigner.tsx:179-186 | repeating a move with the same pointer gives the same state |
| TShirtDesigner.PointerMoveOnlyWhileDragging | src/components/TShirtDesigner.tsx:194-195 | a move does nothing unless a drag is on and a design is shown, and otherwise changes only the position |
| TShirtDesigner.PointerUpEndsDrag | src/components/TShirtDesigner.tsx:213-215 | mouse-up, mouse-leave and touch-end always clear the drag flag and nothing else |
| TShirtDesigner.GrabDoesNotSnap | src/components/TShirtDesigner.tsx:146 | grabbing the artwork and moving to the grab point leaves it where it was (the offset prevents a jump) |
| TShirtDesigner.ScaleButtonsStayInRange | src/components/TShirtDesigner.tsx:262-268 | a scale in [0.5, 2] stays in [0.5, 2]; "-" never grows and "+" never shrinks it; neither touches position or rotation |
| TShirtDesigner.ScaleSaturates | src/components/TShirtDesigner.tsx:262-268 | near the ends, "+" lands exactly on 2 and "-" exactly on 0.5 |
| TShirtDesigner.RotationIsAdditive | src/components/TShirtDesigner.tsx:274-280 | the rotation buttons add −15 and +15 with no bound; one of each cancels |
| TShirtDesigner.FourTurnsGiveSixty | src/components/TShirtDesigner.tsx:280 | four clockwise presses from the initial state give 60 degrees |
| TShirtDesigner.ResetRestoresInitial | src/components/TShirtDesigner.tsx:217-221 | reset yields position (125, 200), scale 1, rotation 0 (the initial transform) whatever came before, is idempotent, and keeps the drag flag and stored size |
| TShirtDesigner.RunKeepsScale | src/components/TShirtDesigner.tsx:262-268 | along any sequence of inputs the scale stays in [0.5, 2] |
| TShirtDesigner.ScaleDownKeepsWithin | src/components/TShirtDesigner.tsx:262 | "-" only shrinks the artwork and leaves the position alone, so a box on the surface stays on it |
| TShirtDesigner.RunKeepsWithinSurface | src/components/TShirtDesigner.tsx:194-280 | any run without "+" or a new artwork (drags, releases, "-", rotations, resets) keeps the artwork's box on the surface |
| TShirtDesigner.InitialRunsStayOnSurface | src/components/TShirtDesigner.tsx:12-17 | from the initial placement, every run without "+" or a new artwork keeps the artwork's box on the surface |
| TShirtDesigner.ScaleUpCanLeaveSurface | src/components/TShirtDesigner.tsx:268 | "+" does not re-clamp: an artwork flush with the right edge leaves the surface |
| TShirtDesigner.DragScenario | src/components/TShirtDesigner.tsx:87-210 | after a 600 x 300 upload, dragging to (50, 50) at scale 1 gives (50, 50), inside [0, 200]×[0, 400] |
| TShirtDesigner.Designer.constructor | src/components/TShirtDesigner.tsx:12-17 | the initial state: position (125, 200), scale 1, rotation 0, not dragging, stored size 150 x 150 |
| TShirtDesigner.Designer.ArtworkLoaded | src/components/TShirtDesigner.tsx:87-102 | computes the fitted size and stores it only when it differs |
| TShirtDesigner.Designer.MouseDown | src/components/TShirtDesigner.tsx:126-148 | the hit-test and drag start, as `PointerDown` |
| TShirtDesigner.Designer.TouchStart | src/components/TShirtDesigner.tsx:151-171 | the first touch point behaves exactly as a mouse-down; no touch changes nothing |
| TShirtDesigner.Designer.MouseMove | src/components/TShirtDesigner.tsx:194-211 | the clamped move, as `PointerMove` |
| TShirtDesigner.Designer.TouchMove | src/components/TShirtDesigner.tsx:173-188 | the first touch point moves exactly as the mouse does |
| TShirtDesigner.Designer.Release | src/components/TShirtDesigner.tsx:213-215 | clears the drag flag |
| TShirtDesigner.Designer.ScaleDownPressed | src/components/TShirtDesigner.tsx:262 | scale becomes max(0.5, scale − 0.1) |
| TShirtDesigner.Designer.ScaleUpPressed | src/components/TShirtDesigner.tsx:268 | scale becomes min(2, scale + 0.1) |
| TShirtDesigner.Designer.RotateCounterClockwisePressed | src/components/TShirtDesigner.tsx:274 | rotation decreases by 15 |
| TShirtDesigner.Designer.RotateClockwisePressed | src/components/TShirtDesigner.tsx:280 | rotation increases by 15 |
| TShirtDesigner.Designer.ResetPosition | src/components/TShirtDesigner.tsx:217-221 | restores position, scale and rotation as `Reset` |
| CartContext.FindFrom | src/context/CartContext.tsx:45-47 | the index found is the first line with the item's id, size and colour; none means no line has that key |
| CartContext.AddItem | src/context/CartContext.tsx:43-55 | merge into the first line with the same id, size and colour, or append; specified by `AddItemMerges`, `AddItemAppends`, `CountAfterAddItem` and `TotalAfterAddItem` |
| CartContext.RemoveItem | src/context/CartContext.tsx:57 | the id-only filter; specified by `RemoveItemKeepsOthers`, `RemoveItemPreservesOrder` and `RemoveAbsentItem` |
| CartContext.Clear | src/context/CartContext.tsx:58 | the empty cart; specified by its own ensures and `ClearEmpties` |
| CartContext.SetQuantity | src/context/CartContext.tsx:59-60 | clamps the quantity to at least 1 on lines with the id; specified by `SetQuantityEffect` |
| CartContext.Count | src/context/CartContext.tsx:63 | the sum of the quantities; specified by `CountUpdate`, `CountAfterAddItem` and `ClearEmpties` |
| CartContext.Total | src/context/CartContext.tsx:62 | the sum of price times quantity; specified by `TotalUpdate`, `TotalAfterAddItem` and `ClearEmpties` |
| CartContext.AddItemMerges | src/context/CartContext.tsx:44-52 | when a line with the same key exists, only the first such line's quantity grows by `quantity ?? 1`; the length and every other line are unchanged |
| CartContext.AddItemAppends | src/context/CartContext.tsx:53 | with no such line, `{...item, quantity: quantity ?? 1}` is appended at the end and the old lines are kept |
| CartContext.CountAfterAddItem | src/context/CartContext.tsx:63 | after `addItem`, `count` has grown by exactly the added quantity |
| CartContext.TotalAfterAddItem | src/context/CartContext.tsx:62 | after `addItem`, `total` has grown by the added quantity times the merged line's price, or the item's price for a new line |
| CartContext.CountUpdate | src/context/CartContext.tsx:63 | replacing one line changes `count` by the difference of the two quantities |
| CartContext.TotalUpdate | src/context/CartContext.tsx:62 | replacing one line changes `total` by the difference of the two price·quantity products |
| CartContext.RemoveItemKeepsOthers | src/context/CartContext.tsx:57 | `removeItem(id)` keeps exactly the lines with another id, whatever their size or colour |
| CartContext.RemoveItemPreservesOrder | src/context/CartContext.tsx:57 | removal works piecewise over any split of the cart, so the kept lines stay in order |
| CartContext.RemoveAbsentItem | src/context/CartContext.tsx:57 | removing an id that is not in the cart changes nothing |
| CartContext.ClearEmpties | src/context/CartContext.tsx:58 | a cleared cart is empty, with count and total 0 |
| CartContext.SetQuantityEffect | src/context/CartContext.tsx:59-60 | lines with the id get quantity max(1, q) (so ≥ 1) and keep every other field; other lines are unchanged; the length is kept |
| CustomizeSection.GuidanceSingleAndPrioritised | src/components/CustomizeSection.tsx:262-270 | at most one validation message shows, one shows iff the button is disabled, with priority upload > size > colour |
| CustomizeSection.AddToCartDisabled | src/components/CustomizeSection.tsx:82-84 | the gate: no upload, no size or no colour; specified by `GuidanceSingleAndPrioritised`, `InitiallyDisabled` and `ClosedGateIsInert` |
| CustomizeSection.Guidances | src/components/CustomizeSection.tsx:262-270 | the validation messages shown; specified by `GuidanceSingleAndPrioritised` and `ColorNeverMissing` |
| CustomizeSection.Preview | src/components/CustomizeSection.tsx:186 | the image handed to the designer; specified by `PreviewPrefersProcessed`, `FailedRemovalPreviewsOriginal` and `PreviewDuringRemoval` |
| CustomizeSection.BeginUpload | src/components/CustomizeSection.tsx:30-39 | the synchronous start of `handleImageUpload`; specified by `BeginUploadEffect` |
| CustomizeSection.RemovalSettled | src/components/CustomizeSection.tsx:63-65 | the `finally` of background removal; specified by `UploadOutcomes` |
| CustomizeSection.RemovalFailed | src/components/CustomizeSection.tsx:60-62 | the `catch` of background removal; specified by `UploadOutcomes` and `FailedRemovalPreviewsOriginal` |
| CustomizeSection.MattedRead | src/components/CustomizeSection.tsx:55-59 | the matted blob's reader callback; specified by `UploadOutcomes` |
| CustomizeSection.FallbackRead | src/components/CustomizeSection.tsx:69-76 | the fallback reader callback; specified by `UploadOutcomes` |
| CustomizeSection.Record | src/components/CustomizeSection.tsx:95-104 | the design record; specified by `RecordContents` |
| CustomizeSection.BeginCommit | src/components/CustomizeSection.tsx:87-93 | the start of `handleAddToCart`; specified by `CommitOutcomes` |
| CustomizeSection.EndCommit | src/components/CustomizeSection.tsx:107-122 | the sink's answer; specified by `CommitOutcomes` |
| CustomizeSection.PreviewPrefersProcessed | src/components/CustomizeSection.tsx:186 | the preview is the processed image when present, else the uploaded one |
| CustomizeSection.InitiallyDisabled | src/components/CustomizeSection.tsx:10-16 | the page starts with add-to-cart disabled (no upload, empty size) and shows the upload message |
| CustomizeSection.ColorNeverMissing | src/components/CustomizeSection.tsx:202 | a colour from the palette is never empty, so the colour message never shows |
| CustomizeSection.StepsKeepSelectionsValid | src/components/CustomizeSection.tsx:30-231 | every single step keeps the colour in the palette and the size empty or one of S–XXL: the colour and size choices, the start of an upload, each upload continuation on its own (removal settled, removal failed, matted read, fallback read) and a whole upload run, and both commit steps |
| CustomizeSection.BeginUploadEffect | src/components/CustomizeSection.tsx:32-39 | choosing a file sets `isProcessing`, clears the processed image and shows the object URL when it could be made |
| CustomizeSection.UploadOutcomes | src/components/CustomizeSection.tsx:30-79 | every completed upload clears `isProcessing` and keeps the selections; a failed removal uses the original URL as processed image; the fallback reader's result becomes both images |
| CustomizeSection.FailedRemovalPreviewsOriginal | src/components/CustomizeSection.tsx:60-62 | after a failed background removal the preview is the original URL |
| CustomizeSection.PreviewDuringRemoval | src/components/CustomizeSection.tsx:33-39 | while the background is being removed, the preview already shows the original |
| CustomizeSection.RecordContents | src/components/CustomizeSection.tsx:95-104 | the record's id is `custom-` plus the decimal timestamp (which reads back to it); it carries the current images, colour and size, price 599 and status `pending` |
| CustomizeSection.CommitOutcomes | src/components/CustomizeSection.tsx:87-122 | a commit keeps images and selections whatever the sink says, ends with `isAddingToCart` false, and with `addToCartSuccess` true iff the sink succeeded |
| CustomizeSection.ClosedGateIsInert | src/components/CustomizeSection.tsx:88 | with the gate closed, `handleAddToCart` changes nothing |
| CustomizeSection.Customizer.constructor | src/components/CustomizeSection.tsx:10-16 | the initial state: no images, not processing, colour `#e6e6eb`, size empty, both commit flags false |
| CustomizeSection.Customizer.SelectColor | src/components/CustomizeSection.tsx:202 | sets the colour to a palette value |
| CustomizeSection.Customizer.SelectSize | src/components/CustomizeSection.tsx:222 | sets the size to one of the offered sizes |
| CustomizeSection.Customizer.ImageSelected | src/components/CustomizeSection.tsx:30-39 | with a file: processing on, processed image cleared, object URL shown, removal or fallback read pending; with none: nothing changes |
| CustomizeSection.Customizer.RemovalResolved | src/components/CustomizeSection.tsx:63-65 | the `finally` clears `isProcessing` before the matted blob is read |
| CustomizeSection.Customizer.RemovalRejected | src/components/CustomizeSection.tsx:60-65 | the processed image becomes the original URL and `isProcessing` is cleared |
| CustomizeSection.Customizer.MattedReadEnded | src/components/CustomizeSection.tsx:55-59 | the reader's result (null on failure) becomes the processed image |
| CustomizeSection.Customizer.FallbackReadEnded | src/components/CustomizeSection.tsx:69-76 | the fallback reader's result becomes both images and `isProcessing` is cleared |
| CustomizeSection.Customizer.AddToCart | src/components/CustomizeSection.tsx:87-104 | a closed gate returns no record and changes nothing; otherwise the built record is returned and `isAddingToCart` is set, `addToCartSuccess` cleared |
| CustomizeSection.Customizer.SinkAnswered | src/components/CustomizeSection.tsx:107-122 | success sets `addToCartSuccess`; both outcomes clear `isAddingToCart` |
| Text.DecimalRoundTrip | src/components/CustomizeSection.tsx:96 | the decimal rendering of the timestamp in the id reads back to the timestamp |
| ProductDetail.IndexFrom | src/pages/ProductDetail.tsx:66 | the index found holds the first product with the id; none means no product has it |
| ProductDetail.FindProductFirst | src/pages/ProductDetail.tsx:66 | the lookup returns the first product with the route's id, and nothing iff no product has it |
| ProductDetail.FindProduct | src/pages/ProductDetail.tsx:66 | `products.find` by id; specified by `FindProductFirst` |
| ProductDetail.OtherProducts | src/pages/ProductDetail.tsx:143 | the filter on a different id; specified by `OtherProductsMembers`, `OtherProductsOrder` and `OtherProductsOfSecond` |
| ProductDetail.Render | src/pages/ProductDetail.tsx:83-85 | "Product not found" or the product's page; specified by `RenderCases` |
| ProductDetail.SanitizePincode | src/pages/ProductDetail.tsx:267 | keep the digits, then the first six; specified by `SanitizePincodeSpec` |
| ProductDetail.CartId | src/pages/ProductDetail.tsx:130 | the key `p-<id>-<size>`; specified by `CartIdInjective` |
| ProductDetail.CartLine | src/pages/ProductDetail.tsx:129-136 | the `addItem` argument; specified field by field by `ProductPage.AddToCart` |
| ProductDetail.RenderCases | src/pages/ProductDetail.tsx:83-85 | an unknown or missing id renders "Product not found"; a known one renders that product, which is not among the others |
| ProductDetail.OtherProductsMembers | src/pages/ProductDetail.tsx:143 | the other products are exactly those with another id |
| ProductDetail.OtherProductsOrder | src/pages/ProductDetail.tsx:143 | the filter works piecewise over any split, so the catalogue order is kept |
| ProductDetail.OtherProductsOfSecond | src/pages/ProductDetail.tsx:143 | on product 2's page the others are products 1 and 3, in that order |
| ProductDetail.SanitizePincodeSpec | src/pages/ProductDetail.tsx:267 | the pincode holds only digits, at most 6, is a prefix of the input's digits (all of them when there are ≤ 6), and re-sanitising changes nothing |
| ProductDetail.CartIdInjective | src/pages/ProductDetail.tsx:130 | for ids without a dash, `p-<id>-<size>` determines both id and size, so distinct products or sizes never merge in the cart |
| ProductDetail.CatalogCartIdsDistinct | src/pages/ProductDetail.tsx:130 | for the catalogue's products (whose ids contain no dash), equal cart keys mean the same product id and the same size |
| ProductDetail.ProductPage.constructor | src/pages/ProductDetail.tsx:68-80 | the page starts on the first image, with no size, an empty pincode and delivery unchecked |
| ProductDetail.ProductPage.SelectImage | src/pages/ProductDetail.tsx:183 | a thumbnail click selects that image |
| ProductDetail.ProductPage.SelectSize | src/pages/ProductDetail.tsx:244 | a size button selects that size |
| ProductDetail.ProductPage.PincodeChanged | src/pages/ProductDetail.tsx:267 | the stored pincode is the sanitised input; nothing else changes |
| ProductDetail.ProductPage.CheckDelivery | src/pages/ProductDetail.tsx:103-117 | a 6-character pincode sets `deliveryChecked` and reports delivery; any other leaves the flag and reports an invalid pincode |
| ProductDetail.ProductPage.AddToCart | src/pages/ProductDetail.tsx:119-136 | no size means no `addItem` call; otherwise the call has id `p-<id>-<size>`, price 799, the selected poster, no colour, the size and no quantity |
| FeaturedProducts.SelectCenter | src/components/FeaturedProducts.tsx:53-70 | the result is −1 iff no mounted card is visible; otherwise a visible card at the least distance from the viewport centre, and the first such (strict `<`) |
| FeaturedProducts.ApplyFocus | src/components/FeaturedProducts.tsx:72-83 | each `mobileActive[j]` ends as `j == best` when its video is mounted or the chosen video played, and is otherwise unchanged |
| FeaturedProducts.FocusAfter | src/components/FeaturedProducts.tsx:72-83 | each card's `mobileActive` flag after one evaluation; the specification `ApplyFocus` and `EvaluateCenter` are proved against |
| FeaturedProducts.EvaluateCenter | src/components/FeaturedProducts.tsx:53-84 | the chosen card is visible, nearest the centre and first among ties, and −1 iff none is visible; with every video mounted, `mobileActive` is true exactly at the chosen card, or all false when none is visible |
| FeaturedProducts.InitialCards | src/components/FeaturedProducts.tsx:39-42 | every per-card array starts with one entry per product, all false or zero |
| FeaturedProducts.HoverPlay | src/components/FeaturedProducts.tsx:103-110 | hover sets the card's flag; specified by `HoverPlayEffect` |
| FeaturedProducts.HoverPause | src/components/FeaturedProducts.tsx:112-120 | leave clears the flag and levels the tilt; specified by `HoverPauseEffect` |
| FeaturedProducts.TiltFor | src/components/FeaturedProducts.tsx:122-129 | the tilt angles from the pointer position; specified by `TiltBounded` |
| FeaturedProducts.TiltAt | src/components/FeaturedProducts.tsx:122-131 | stores the card's tilt; specified by `TiltEffect` |
| FeaturedProducts.Wishlist | src/components/FeaturedProducts.tsx:207 | the heart click; specified by `WishlistEffect` |
| FeaturedProducts.ApplyCard | src/components/FeaturedProducts.tsx:103-131 | one per-card input; specified by `WishlistNeverCleared` |
| FeaturedProducts.HoverPlayEffect | src/components/FeaturedProducts.tsx:103-110 | hovering sets only `hovered[i]` |
| FeaturedProducts.HoverPauseEffect | src/components/FeaturedProducts.tsx:112-120 | leaving clears only `hovered[i]` and levels only `tilt[i]` |
| FeaturedProducts.TiltBounded | src/components/FeaturedProducts.tsx:122-129 | for a pointer inside the card, `rx` and `ry` lie in [−6, 6] |
| FeaturedProducts.TiltEffect | src/components/FeaturedProducts.tsx:130 | tilting changes only `tilt[i]` |
| FeaturedProducts.WishlistEffect | src/components/FeaturedProducts.tsx:207 | the wishlist click sets `wishlisted[i]`, is idempotent and never clears an entry |
| FeaturedProducts.WishlistNeverCleared | src/components/FeaturedProducts.tsx:103-131 | no sequence of hover, tilt and wishlist inputs clears a wishlist entry or changes an array's length |
| DragClamp.LowOverflowLandsAtZero | try/script.js:40-41 | a negative left (top) edge that is the only overflow is shifted by exactly that overflow, to 0 |
| DragClamp.Correction | try/script.js:39-47 | the shift one axis receives; specified by `LowOverflowLandsAtZero`, `HighOverflowLandsAtLimit`, `InsideIsUnchanged`, `FittingRectEndsInside` and `WideRectShiftsBySum` |
| DragClamp.HighOverflowLandsAtLimit | try/script.js:42-47 | a right (bottom) edge past the canvas that is the only overflow is shifted back by exactly the overflow |
| DragClamp.InsideIsUnchanged | try/script.js:40-47 | a box inside the canvas leaves `left` and `top` unchanged |
| DragClamp.FittingRectEndsInside | try/script.js:40-47 | a box no wider (taller) than the canvas gets at most one correction per axis and ends inside the canvas |
| DragClamp.WideRectShiftsBySum | try/script.js:39-44 | a box overflowing both sides is shifted by the sum of both overflows taken from the stale rectangle |
| DragClamp.MovingObject.OnMoving | try/script.js:36-48 | `left` and `top` each drop by the correction computed from the one bounding rectangle read before any shift |

## Left out

- Image loading, canvas painting and the degree-to-radian conversion (src/components/TShirtDesigner.tsx:36-62, 75-122) are raster output and trigonometry. Only the fitted-size computation inside them is modelled (`Designer.ArtworkLoaded`).
- The background-removal library, `FileReader` and `URL.createObjectURL` are foreign asynchronous I/O. Their success or failure, and their results, are parameters of the `Customizer` continuations.
- The order in which continuations run is chosen by the caller. Two uploads may interleave, as in the source. No stale-result discard exists there, so the model has none.
- Persisting the cart to `localStorage` is I/O and is not modelled.
- The `parseInt` NaN path into `setQuantity` (src/pages/Cart.tsx:51) is not modelled: NaN is not an integer.
- Timers are not modelled: the success message's 3-second reset and `requestAnimationFrame` scheduling.
- Toasts and the alert are not modelled. The delivery check returns which notice it would show.
- `Date.now()` and the ISO timestamp are parameters (`now`, `timestamp`).
- Sharing and clipboard use are not modelled.
- The design sink `saveDesignToUploads` is an abstract outcome (`saved`). src/utils/fileStorage.ts, a logging stub that always resolves, is not part of this model.
- Video play/pause, scroll and resize listeners, touch-device detection and DOM measurement are left out. Card rectangles, mounted refs and pointer positions are parameters.
- The Fabric.js canvas set-up and upload in try/script.js:1-33 are not modelled. The bounding rectangle the handler reads is a parameter.
- The early returns for a missing canvas element or bounding rectangle are left out: the canvas is always mounted while its handlers run.
- Each handler sees the latest state. React's batching of state updates between renders is not modelled.
- The drag-clamp lemmas take the object's bounding rectangle to move exactly as far as `left` and `top` do. Fabric's bounding-box recomputation is not modelled.
- Numbers are exact reals and unbounded integers. Floating-point rounding is not modelled, so repeated ±0.1 scale steps and the fit quotient are exact.
- NaN and Infinity are not modelled. The one place Infinity matters, a zero image side in the fit, is handled explicitly.
- `MockupPath` lower-cases ASCII letters only. No non-ASCII character lower-cases to a hex digit or `#`, so which palette key matches is the same as with full Unicode lower-casing.
- `TiltAt` requires a card of positive width and height. A zero-size card gives NaN or an infinite angle in the source.
- `ApplyCard` keeps the card's previous tilt for a pointer input on a card of zero width or height; the source stores the NaN or infinite angle instead. A mounted card under the pointer always has a positive size.
- `ProductPage.AddToCart` returns the `addItem` call rather than performing it. Its effect on the cart is `CartContext.AddItem`.
- src/pages/Cart.tsx, src/components/Navbar.tsx, src/components/VideoAd.tsx, src/components/HeroSection.tsx, src/components/AboutSection.tsx, src/components/Footer.tsx, src/components/Hero3D.tsx and src/pages/Index.tsx are left out. They are UI, routing, media playback or 3D scenes with no standalone logic.
