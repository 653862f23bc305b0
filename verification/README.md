# frepping storefront core, modelled in Dafny

This project models the sequential logic of the frepping Angular storefront,
without the framework or browser plumbing. It covers five parts.

- **Cart store** (`CartService`, with the records and mock catalog in
  `Products`). It is an ordered list of cart items with four transitions:
  add, remove, clear and update quantity.
- **Cart pricing** (`CartPricing`). This covers:
  - the per-item total and savings, checked against the catalog;
  - the cart summary (subtotal, discount, shipping, tax and total);
  - the free-shipping helpers;
  - the quantity sanitiser;
  - the checkout guard and the sale badges.

  Money is an integer number of cents. `JsRound` is JavaScript's
  `Math.round`, with halves rounded up.
- **3D viewer decision logic**, in three modules:
  - `ViewerGeometry`: the bounding-box arithmetic, the size-tier
    auto-scale, and camera framing;
  - `ViewerMaterials`: the ten-colour palette, round-robin mesh colouring,
    and the "change colour" step;
  - `ModelViewer`: the viewer as a state machine. It covers the inputs, the
    background and lighting dispatch, the three ways a load can end, the
    public controls, and one animation frame.

  The rendering library is abstracted away:
  - the scene is the list of background pieces it holds, plus the light rigs
    added to it;
  - a model is its nodes in traversal order, with a position, a rotation and
    a uniform scale.
- **Test-viewer page** (`TestViewer`). It holds a newest-first debug log
  capped at 100 entries. It also has a URL box that is checked after
  trimming (ECMAScript `trim`) but stored exactly as typed.
- **HUD overlay** (`Hud`). It has a wanted level that Tab cycles through
  0..5, five stars, and a cursor driven by key, mouse-button and hover
  events.

Every operation is a pure function from the current state to the next one;
`GetWantedStars`, `CalculateCartSummary` and `GetTotalItems` are methods that
mirror the source's loops. The clock (log timestamps), the mesh loader's
completion and the texture loader's failure are parameters or events of the
model.

One behaviour is modelled exactly as written rather than as the source's comments
suggest. After a load, the viewer places the object at its negated box centre
*before* scaling it. The centre of the displayed model is therefore
`(scale - 1) * centre`, not the origin. The camera is framed on that point,
so the model is still shown in the middle of the view
(`ViewerGeometry.LoadedCameraFramesModel`, `ViewerGeometry.CentredAtOriginIff`).

## Model

| member | source | states |
|---|---|---|
| Products.FindProduct | src/app/pages/cart/cart.component.ts:76-78 | The result is the first product with the id, in catalog order; None exactly when no product has that id. |
| Products.GetProductById | src/app/pages/cart/cart.component.ts:76-78 | The lookup finds a catalog product with the requested id, or None exactly when the catalog has no such id. |
| Products.CatalogAllOnSale | src/app/services/mock-products.service.ts:3-88 | Every mock product has an original price above its positive price. |
| Products.FindDistinct | src/app/pages/cart/cart.component.ts:76-78 | In a list with distinct ids, `find` on an element's id returns that element. |
| Products.CatalogLookup | src/app/services/mock-products.service.ts:3-88 | Looking up any catalog product's own id returns that product (ids are distinct). |
| CartService.FindIndex | src/app/services/cart.service.ts:20 | `findIndex`: the first position holding the id, None exactly when the cart lacks it. |
| CartService.AddToCart | src/app/services/cart.service.ts:18-27 | Adds a quantity to a product. The list grows by one item at the end exactly when the product is absent. Otherwise the matching item's quantity goes up by `quantity`, and every other item is untouched. The product is present afterwards. |
| CartService.AddOneToCart | src/app/services/cart.service.ts:18 | It is `addToCart` with the default quantity of one. A new product is appended with quantity 1, and the total item count rises by exactly one. |
| CartService.RemoveFromCart | src/app/services/cart.service.ts:29-32 | Afterwards no item holds the id. The items kept are exactly the old items with another id. A cart without the id is returned unchanged. |
| CartService.ClearCart | src/app/services/cart.service.ts:34-36 | Afterwards no product is in the cart and the item count is zero. |
| CartService.UpdateQuantity | src/app/services/cart.service.ts:38-43 | Every item holding the id gets the new quantity and keeps its product. All other items are unchanged, and the length is kept. |
| CartService.AddAfterClear | src/app/services/cart.service.ts:18-36 | Adding to a cleared cart yields a one-item cart. |
| CartService.AddToCartTotal | src/app/services/cart.service.ts:18-27 | After `addToCart(p, q)` the total quantity is the old total plus `q`, both when the product was present and when it was absent. |
| CartService.AddToCartKeepsUnique | src/app/services/cart.service.ts:18-27 | Adding never creates a second item for a product already in the cart. |
| CartService.AddExistingProduct | src/app/services/cart.service.ts:20-22 | With distinct ids, adding a present product updates exactly its item in place. |
| CartService.RemoveUndoesAddOfNewProduct | src/app/services/cart.service.ts:18-32 | Removing a product that was just added as new restores the previous cart. |
| CartService.RemoveIsFilter | src/app/services/cart.service.ts:30 | Removal agrees with an independent back-to-front filter definition, so the order of the kept items is preserved. |
| CartService.RemoveAndUpdateKeepUnique | src/app/services/cart.service.ts:29-43 | Removing and updating keep the product ids pairwise distinct. |
| CartService.RemoveFromCartTotal | src/app/services/cart.service.ts:29-32 | With distinct ids, removing an item lowers the total count by exactly its quantity. |
| CartPricing.JsRound | src/app/pages/cart/cart.component.ts:124 | The result is the integer nearest to n/d, with halves rounded up (`Math.round`). |
| CartPricing.JsRoundWhole | src/app/pages/cart/cart.component.ts:91 | Rounding an amount that is already whole cents changes nothing, so the cent rounding of item totals, savings and the cart total is exact. |
| CartPricing.UnitPrice | src/app/pages/cart/cart.component.ts:81-89 | The catalog price is charged exactly when the catalog entry for the id has a present, non-zero original price above the item's own price. Otherwise, and for an id not in the catalog, the item's own price is charged. |
| CartPricing.ItemTotal | src/app/pages/cart/cart.component.ts:81-92 | The total is the unit price times the quantity. An item unknown to the catalog costs its own price times its quantity. A total is never negative for non-negative inputs. |
| CartPricing.ItemSavings | src/app/pages/cart/cart.component.ts:95-104 | For a catalog entry on sale, savings are (original price − price) × quantity. Otherwise they are 0. They are never negative for a non-negative quantity. |
| CartPricing.CatalogPriceCharged | src/app/pages/cart/cart.component.ts:81-92 | For any item with a catalog entry: if the entry's original price is above the item's own price, the catalog price is charged, whatever the item's own price. Otherwise the item's own price is charged. |
| CartPricing.StaleCheapItemChargedCatalogPrice | src/app/pages/cart/cart.component.ts:81-92 | A stale record of product 1 priced at 50 dollars is charged the catalog's 65 dollars. |
| CartPricing.SavingsIffOnSale | src/app/pages/cart/cart.component.ts:95-104 | For a positive quantity, an item saves money exactly when `isItemOnSale` holds for its id. |
| CartPricing.TotalPlusSavingsIsOriginal | src/app/pages/cart/cart.component.ts:81-104 | For a catalog item, total plus savings equals the original price times the quantity. |
| CartPricing.TotalPlusSavingsOfEntry | src/app/pages/cart/cart.component.ts:81-104 | The same holds for any item whose product is exactly what the catalog returns for its id. |
| CartPricing.Shipping | src/app/pages/cart/cart.component.ts:119-121 | Shipping is free exactly when the subtotal reaches 100.00 or the cart is empty; otherwise it costs 9.99. |
| CartPricing.Tax | src/app/pages/cart/cart.component.ts:124 | Tax is 8.5 % of the subtotal rounded to the cent, between 0 and the subtotal. |
| CartPricing.CartSummary | src/app/pages/cart/cart.component.ts:107-128 | The subtotal and discount are the sums of the item totals and savings. Shipping and tax follow their rules, and the total is subtotal + shipping + tax. |
| CartPricing.CalculateCartSummary | src/app/pages/cart/cart.component.ts:107-128 | The two left-to-right `reduce` loops compute the same summary as the reference sums. |
| CartPricing.ReduceTotals | src/app/pages/cart/cart.component.ts:109-111 | The subtotal loop equals the back-to-front reference sum of the item totals. |
| CartPricing.ReduceSavings | src/app/pages/cart/cart.component.ts:114-116 | The discount loop equals the back-to-front reference sum of the item savings. |
| CartPricing.HasFreeShipping | src/app/pages/cart/cart.component.ts:156-158 | True exactly when the subtotal reaches 100 dollars, so never for an empty cart. Reaching the threshold means no shipping is charged. Below it, a non-empty cart pays 9.99. |
| CartPricing.RemainingForFreeShipping | src/app/pages/cart/cart.component.ts:161-166 | The remainder is never negative. It is 0 exactly when shipping is free. When positive, it is exactly what brings the subtotal to 100.00. |
| CartPricing.GetTotalItems | src/app/pages/cart/cart.component.ts:169-171 | The loop sums the quantities. With every quantity at least 1, the sum is at least the number of items. |
| CartPricing.ProceedToCheckout | src/app/pages/cart/cart.component.ts:179-189 | An empty cart stays on the page; any other cart navigates to `/checkout`. |
| CartPricing.SanitizeQuantity | src/app/pages/cart/cart.component.ts:63-70 | NaN is rejected. Any other number becomes an integer that is at least 1 and is the floor of the input when the input is at least 1. |
| CartPricing.UpdateQuantityFromInput | src/app/pages/cart/cart.component.ts:63-73 | NaN leaves the cart unchanged. Otherwise every item with the id takes the sanitised quantity, which is at least 1, and all other items are kept. |
| CartPricing.IsItemOnSale | src/app/pages/cart/cart.component.ts:197-200 | True exactly when the catalog has the id and that entry's original price exceeds its price. |
| CartPricing.ItemDiscountPercentage | src/app/pages/cart/cart.component.ts:203-210 | The result is 0 off sale. On sale, it is the rounded percentage (original − price)/original × 100, which lies in 0..100. |
| ViewerGeometry.Max3 | src/app/components/model-viewer/model-viewer.component.ts:422 | `Math.max` of three values is one of them and bounds all three. |
| ViewerGeometry.Center | src/app/components/model-viewer/model-viewer.component.ts:403 | The centre of a non-empty box lies inside it, midway between its corners. An empty box has the origin as its centre. |
| ViewerGeometry.Size | src/app/components/model-viewer/model-viewer.component.ts:404 | The size is non-negative and spans min to max for a non-empty box. An empty box has size zero. |
| ViewerGeometry.TransformBox | src/app/components/model-viewer/model-viewer.component.ts:414-451 | The box of the positioned and scaled object keeps emptiness. Its centre is position + scale·centre and its size is abs(scale)·size. |
| ViewerGeometry.AutoScale | src/app/components/model-viewer/model-viewer.component.ts:419-439 | Without auto-scaling the scale is 1. With it, the scale is 50 below 0.5, 20 below 2 and 5 below 10. From 10 on, the model is scaled to exactly the target size. A positive target size gives a positive scale. |
| ViewerGeometry.FrameCamera | src/app/components/model-viewer/model-viewer.component.ts:449-462 | The camera looks at the box centre from (0, 0.3·m, 1.8·m) away, where m is the largest dimension of the box. |
| ViewerGeometry.PlaceLoadedObject | src/app/components/model-viewer/model-viewer.component.ts:400-462 | The object is placed at its negated box centre with the tier scale. Its world box centre is (scale − 1) × the box centre, and its size is the absolute scale × the box size. The camera looks at that centre from 0.3·m above and 1.8·m in front of it, where m is the world box's largest dimension. |
| ViewerGeometry.CentredThenScaled | src/app/components/model-viewer/model-viewer.component.ts:412-439 | An object moved to its negated centre and then scaled by s occupies a box centred at (s − 1)·centre, whose size is the absolute value of s times the original size. It is empty exactly when the original was. |
| ViewerGeometry.LoadedCameraFramesModel | src/app/components/model-viewer/model-viewer.component.ts:412-462 | Because centring comes before scaling, the displayed centre is (scale − 1)·centre, and the camera looks exactly there. |
| ViewerGeometry.LargeModelCameraDistance | src/app/components/model-viewer/model-viewer.component.ts:433-462 | A large model scaled to the target size is viewed from 1.8·target in front of its centre and 0.3·target above it. |
| ViewerGeometry.EmptyModelPlacement | src/app/components/model-viewer/model-viewer.component.ts:400-462 | An object without geometry stays at the origin and gets the tiny-model scale of 50. The camera ends up at the origin, looking at the origin. |
| ViewerGeometry.CentredAtOriginIff | src/app/components/model-viewer/model-viewer.component.ts:412-451 | The loaded model ends centred at the origin exactly when its scale is 1 or its box was already centred. |
| ViewerMaterials.PaletteFacts | src/app/components/model-viewer/model-viewer.component.ts:33-37 | The palette has ten colours, all different. |
| ViewerMaterials.ApplyFrom | src/app/components/model-viewer/model-viewer.component.ts:477-497 | From a running index, each mesh gets the colour at its rank past that index, modulo the palette. Groups are untouched. |
| ViewerMaterials.ApplyClothingMaterials | src/app/components/model-viewer/model-viewer.component.ts:477-497 | The mesh of rank k in traversal order gets colour `colors[k mod 10]`. Non-mesh nodes are untouched. |
| ViewerMaterials.IndexOf | src/app/components/model-viewer/model-viewer.component.ts:533 | `indexOf` returns the first position of the colour, or −1 exactly when it is absent. |
| ViewerMaterials.NextColor | src/app/components/model-viewer/model-viewer.component.ts:532-535 | The next colour is always a palette colour. A colour outside the palette steps to the first palette colour. |
| ViewerMaterials.NextColorOfPalette | src/app/components/model-viewer/model-viewer.component.ts:532-535 | A palette colour steps to the one after it, and the last wraps to the first. |
| ViewerMaterials.Recolor | src/app/components/model-viewer/model-viewer.component.ts:527-537 | Only standard-material meshes change. Each takes the colour after its own in the palette, so it stays within the palette. A mesh with a foreign colour gets the first palette colour. |
| ViewerMaterials.FullCycleIdentity | src/app/components/model-viewer/model-viewer.component.ts:527-537 | As many colour changes as there are palette colours restore every palette-coloured model. |
| ViewerMaterials.TenRecolorsIdentity | src/app/components/model-viewer/model-viewer.component.ts:477-537 | Ten colour changes after the initial colouring give back the initial colouring. |
| ModelViewer.SetupBackground | src/app/components/model-viewer/model-viewer.component.ts:121-145 | `custom` with an empty URL builds the studio background, and so does any unknown type. Every other type builds its own background. |
| ModelViewer.SetupLighting | src/app/components/model-viewer/model-viewer.component.ts:319-380 | Studio, street and showroom have their own rigs; every other type gets the default rig. |
| ModelViewer.Attach | src/app/components/model-viewer/model-viewer.component.ts:147-317 | The new background is added to the scene. It becomes the background object unless it is the showroom room. |
| ModelViewer.Detach | src/app/components/model-viewer/model-viewer.component.ts:557 | `scene.remove` keeps exactly the pieces with other identities. |
| ModelViewer.Init | src/app/components/model-viewer/model-viewer.component.ts:41-119 | The inputs are kept as given, and rotation follows `autoRotate`. The camera is at (0,2,15) looking at (0,1,0). The scene holds the chosen background and one light rig. The background object is that background, except for the showroom, which has none. Nothing is loaded yet. |
| ModelViewer.Placeholder | src/app/components/model-viewer/model-viewer.component.ts:500-519 | The placeholder is one mesh in the first palette colour, seen from (0,4,15). It counts as loaded. |
| ModelViewer.LoadModel | src/app/components/model-viewer/model-viewer.component.ts:382-474 | Every outcome ends loaded with a model. An empty path or a loader error gives the placeholder. A success gives an unrotated model that is centred, tier-scaled, coloured round-robin and framed. Only the model, the loaded flag and the camera change. |
| ModelViewer.ToggleRotation | src/app/components/model-viewer/model-viewer.component.ts:522-525 | Only the rotation flag flips. |
| ModelViewer.ChangeColor | src/app/components/model-viewer/model-viewer.component.ts:527-540 | Without a model nothing changes. Otherwise only the model's node colours step. |
| ModelViewer.ResetView | src/app/components/model-viewer/model-viewer.component.ts:542-553 | The model, if any, returns to rotation 0, position 0 and scale 1. The camera goes home, and nothing else changes. |
| ModelViewer.DetachBackground | src/app/components/model-viewer/model-viewer.component.ts:556-561 | Only the current background object leaves the scene. Without one, nothing changes. |
| ModelViewer.ChangeBackground | src/app/components/model-viewer/model-viewer.component.ts:555-568 | The type is set. The old background object is removed and the new background is appended. The new background becomes the background object, except a showroom room, which leaves the old reference in place. One light rig is added and earlier rigs stay. Nothing else changes. |
| ModelViewer.SetCustomBackground | src/app/components/model-viewer/model-viewer.component.ts:570-583 | The type becomes `custom` with the URL, and a sphere for that URL replaces the background object. The lights, the model and the camera are unchanged. |
| ModelViewer.BackgroundTextureFailed | src/app/components/model-viewer/model-viewer.component.ts:159-162 | The fallback gradient is added and becomes the background object. The failed one stays, and nothing else changes. |
| ModelViewer.AnimateStep | src/app/components/model-viewer/model-viewer.component.ts:585-596 | The model turns by 0.005 exactly when it is loaded, present and rotation is on. The background turns by 0.0005 exactly for the studio type. Nothing else changes. |
| ModelViewer.DetachBackgroundKeepsWellFormed | src/app/components/model-viewer/model-viewer.component.ts:556-561 | Removing the background object keeps piece identities ordered and below the counter. |
| ModelViewer.AttachKeepsWellFormed | src/app/components/model-viewer/model-viewer.component.ts:170-171 | Adding a background keeps piece identities ordered and below the counter. |
| ModelViewer.ChangeBackgroundKeepsWellFormed | src/app/components/model-viewer/model-viewer.component.ts:555-568 | Changing the background preserves the scene invariant. |
| ModelViewer.SetCustomBackgroundKeepsWellFormed | src/app/components/model-viewer/model-viewer.component.ts:570-583 | Setting a custom background preserves the scene invariant. |
| ModelViewer.BackgroundTextureFailedKeepsWellFormed | src/app/components/model-viewer/model-viewer.component.ts:159-162 | The texture fallback preserves the scene invariant. |
| ModelViewer.LoadModelKeepsWellFormed | src/app/components/model-viewer/model-viewer.component.ts:382-519 | Every way a load ends preserves the scene invariant. |
| ModelViewer.ControlsKeepWellFormed | src/app/components/model-viewer/model-viewer.component.ts:522-596 | Animating, resetting, recolouring and toggling preserve the scene invariant. |
| ModelViewer.PlaceholderIsFirstPaletteColor | src/app/components/model-viewer/model-viewer.component.ts:500-519 | The placeholder colour 0xFF0000 is `colors[0]`. |
| ModelViewer.ToggleRotationTwice | src/app/components/model-viewer/model-viewer.component.ts:522-525 | Toggling rotation twice is the identity. |
| ModelViewer.ResetViewIdempotent | src/app/components/model-viewer/model-viewer.component.ts:542-553 | A second reset changes nothing. |
| ModelViewer.ChangeColorTimesNodes | src/app/components/model-viewer/model-viewer.component.ts:527-540 | n colour changes apply n palette steps to the model's nodes and leave the rest of the viewer as it was. |
| ModelViewer.TenColorChangesAfterLoad | src/app/components/model-viewer/model-viewer.component.ts:382-540 | Whatever way a load ended, ten colour changes give back the loaded state. |
| ModelViewer.ShowroomRoomIsNeverRemoved | src/app/components/model-viewer/model-viewer.component.ts:206-259 | The showroom room is never the background object. So after a switch to the showroom, the next change to any background type leaves the room in the scene. |
| ModelViewer.ChangeBackgroundDropsOldSphere | src/app/components/model-viewer/model-viewer.component.ts:555-561 | After a change the old background object is gone: every piece left has another identity or is the new piece. |
| TestViewer.AddLog | src/app/test-viewer/test-viewer.component.ts:151-162 | The new entry goes in front and the older entries follow in order. The log grows by one up to 100 entries and then stays at 100. |
| TestViewer.TrimStart | src/app/test-viewer/test-viewer.component.ts:165 | Leading trim drops only white space, and the result starts with a visible character. |
| TestViewer.TrimEnd | src/app/test-viewer/test-viewer.component.ts:165 | Trailing trim drops only white space, and the result ends with a visible character. |
| TestViewer.Trim | src/app/test-viewer/test-viewer.component.ts:165 | The result is a slice of the input with only white space before and after it. A non-empty result starts and ends with a visible character. |
| TestViewer.TrimIsSlice | src/app/test-viewer/test-viewer.component.ts:165 | Dropping leading white space, then trailing white space, leaves a slice of the input with only white space before and after it. |
| TestViewer.TrimEmptyIffBlank | src/app/test-viewer/test-viewer.component.ts:165 | A string trims to empty exactly when it is all ECMAScript white space. |
| TestViewer.Init | src/app/test-viewer/test-viewer.component.ts:107-128 | The page starts with empty URLs, both options on, and two info entries, with "Ready to load 3D models" in front. |
| TestViewer.LoadModel | src/app/test-viewer/test-viewer.component.ts:164-172 | A blank URL adds one error entry and changes nothing else. Any other URL adds one info entry and becomes the current URL, untrimmed. |
| TestViewer.LoadTestModel | src/app/test-viewer/test-viewer.component.ts:174-177 | It behaves as `loadModel` on a box holding the URL. The URL becomes current unless it is blank. The log gains the loading entry, or the error entry for a blank URL. Nothing else changes. |
| TestViewer.ClearLogs | src/app/test-viewer/test-viewer.component.ts:179-182 | The log is left with exactly the one info entry "Logs cleared", and nothing else changes. |
| TestViewer.TestModelUrlsStartVisible | src/app/test-viewer/test-viewer.component.ts:113-118 | Every test-model URL starts with a visible character. |
| TestViewer.TestModelButtonsLoad | src/app/test-viewer/test-viewer.component.ts:113-177 | Every test-model button makes its URL current, so the viewer is shown. |
| TestViewer.AcceptedLoadShowsViewer | src/app/test-viewer/test-viewer.component.ts:47-52 | An accepted load always brings up the viewer. |
| TestViewer.LoadModelKeepsLogBounded | src/app/test-viewer/test-viewer.component.ts:164-172 | A URL load, accepted or refused, never takes the log past 100 entries. |
| TestViewer.LogStaysBounded | src/app/test-viewer/test-viewer.component.ts:151-182 | No page operation takes the log past 100 entries. |
| TestViewer.AddLogsBounded | src/app/test-viewer/test-viewer.component.ts:151-162 | Any number of entries leaves a log within the cap, with the latest in front. |
| TestViewer.FullLogDropsOldest | src/app/test-viewer/test-viewer.component.ts:158-161 | On a full log, a new entry pushes out exactly the oldest one. |
| Hud.ClassNamesDistinct | src/app/app.component.ts:21-27 | Different cursors use different class names. |
| Hud.Init | src/app/app.component.ts:15-35 | The overlay starts at wanted level 0, not aiming, with the loading cursor, no siren and the mouse at (0, 0). |
| Hud.SetCursor | src/app/app.component.ts:102-103 | The current cursor always becomes the requested one and nothing else changes. |
| Hud.LoadingTimerFired | src/app/app.component.ts:195-197 | The loading timer brings back the default cursor. Nothing else changes. |
| Hud.ToggleWantedLevel | src/app/app.component.ts:145-152 | 5 wraps to 0 and every other level goes up by one, so the level stays within 0..5. The siren is requested exactly when the new level is above 0. |
| Hud.ToggleTimesLevel | src/app/app.component.ts:145-147 | n toggles (n ≤ 6) from a level in range advance it n places round 0..5. |
| Hud.SixTogglesRestoreLevel | src/app/app.component.ts:145-152 | Six toggles are the identity on the level and request the siren five times. |
| Hud.SirenCount | src/app/app.component.ts:145-152 | Over one lap, the siren sounds on every toggle except the one that lands on 0. |
| Hud.Stars | src/app/app.component.ts:154-160 | There are five stars, and star i is lit exactly when i ≤ level. |
| Hud.GetWantedStars | src/app/app.component.ts:154-160 | The loop returns five entries, and entry i (from 1) is active exactly when i ≤ level. |
| Hud.LitStarsMatchLevel | src/app/app.component.ts:154-160 | For every reachable level, the number of lit stars is the level. |
| Hud.OnKeyDown | src/app/app.component.ts:53-65 | Right Shift or Control turns aiming on with the aiming cursor and changes nothing else. Tab toggles the level once. Other keys change nothing. No key moves the mouse position. |
| Hud.OnKeyUp | src/app/app.component.ts:67-73 | Releasing right Shift or Control turns aiming off with the default cursor. Other keys change nothing. |
| Hud.CheckAimingState | src/app/app.component.ts:132-143 | The right button alone means aiming with the aiming cursor. Anything else ends aiming, and resets the cursor to default only if it was the aiming cursor. |
| Hud.OnMouseMove | src/app/app.component.ts:37-45 | The pointer position is recorded. Aiming is on exactly when the right button alone is held. Otherwise an aiming cursor falls back to default and any other cursor stays. The wanted level is untouched. |
| Hud.HoverCursor | src/app/app.component.ts:75-89 | A button or link gives the pointer cursor, then a draggable gives grab, and anything else gives default. |
| Hud.OnMouseOver | src/app/app.component.ts:75-89 | The cursor becomes the hover choice, which is never the aiming or the loading cursor. Nothing else changes. |
| Hud.EventsKeepWellFormed | src/app/app.component.ts:37-197 | Every event keeps the level in 0..5 and shows the aiming cursor only while aiming. |
| Hud.AimKeyPressRelease | src/app/app.component.ts:53-73 | Pressing and releasing an aim key ends with aiming off and the default cursor. |
| Hud.CheckAimingStateIdempotent | src/app/app.component.ts:132-143 | Checking the same buttons twice is the same as checking once. |

## Left out

- The rendering library (scene graph, renderer, geometry, textures, light objects, shadows). Only the background and light-rig variant chosen, the piece bookkeeping and the real-valued placement formulas are modelled.
- Host timing: `requestAnimationFrame`, the 100 ms start-up delay, the resize handler and `ngOnDestroy` disposal. One animation frame is `ModelViewer.AnimateStep`, and the loading-cursor timer is the event `Hud.LoadingTimerFired`.
- The mesh loader and the texture loader are not part of this model. Their completion is an input (`LoaderOutcome`, `ModelViewer.BackgroundTextureFailed`); progress callbacks and console messages are not modelled.
- The texture of a removed background is disposed in the source; disposal has no state in the model.
- `ModelViewer.ChangeBackground` accepts every background type. The source's parameter type lists only four, but the dispatch it calls handles all of them.
- A loaded model replaces the viewer's `model` reference; the previous placeholder or model object is not tracked as a scene member.
- Hud.OnMouseMove: the pointer coordinates are integers, while the source's `clientX`/`clientY` are doubles. They are only recorded and used for styling, and no modelled logic reads them.
- The cart store changes its current array and the matching item in place and then emits a copy. The model has no aliasing: each operation returns the new list, which equals the copy the store emits.
- Side effects with no state: DOM styling, `Renderer2` calls, cursor position styling, click ripples, the click sound and ambience audio. The siren is kept only as a request counter.
- The console override of the test page (`src/app/test-viewer/test-viewer.component.ts:130-149`), which turns console output into log entries. Log entries are only added by the page's own operations.
- Health and armour regeneration (`src/app/app.component.ts:214-224`): timer-driven floating-point increments.
- `getCartItems` returns the current list; in the model the list is the state itself, so it is the identity and has no member.
- Display-only cart-page helpers: `formatCurrency`, `goBack`, `continueShopping`, and the template getters that return stored summary fields.
- Product display fields and cart-item size and colour are not read by the modelled logic and are left out of the records.
- CartPricing.ItemTotal: quantities are integers and money is integer cents, so the rounding to the cent is exact here. The source's quantity is a JavaScript number that `addToCart` accepts unchecked, so a fractional quantity would give a product that needs rounding. That case and binary floating-point rounding of prices are not modelled.
- CartPricing.SanitizeQuantity: ±Infinity as a quantity is not modelled; NaN is `None`.
- CartPricing.Tax: the product `subtotal * 0.085 * 100` is computed exactly (8.5 % as 85 per mille), not in double precision, so a tie that floating point would break differently is rounded up.
- ViewerGeometry.AutoScale: reals are exact; a double division `targetSize / maxDim` may differ in the last bit.
- Stubs that only throw (`src/app/services/cart.service.ts:8-10`, `src/app/pages/cart/cart.component.ts:14-16`), routing and module glue, and the other pages are not part of this model.
