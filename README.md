# ngx-stack-effects: the layout passes of the stack component

This project models the Angular component `NgxStackEffectsComponent` of the
`ngx-stack-effects` library. The component stacks a set of `.nse-item`
elements and arranges them with one of thirteen effects. The effects are
Fanout, SimpleSpread, RandomRotation, SideSlide, SideGrid, PeekaBoo, Queue,
Fan, ElasticSpread, VerticalSpread, Leaflet, Coverflow and PreviewGrid.

Four passes restyle every item through the renderer:

- `initialize()` sets the starting z-order.
- `active()` runs when the stack opens, on hover or on a click that selects an item.
- `deactive()` runs when the stack closes.
- `handleCentralizedEffect(activate)` is the two-sided sweep that Fanout and SideSlide use.

`active()` and the sweep measure every item by its **ring index**. That is
its distance from the selected item, walking right and wrapping around the
`n` items. They then call `setActiveStyle` or `setDeactiveStyle` with a
rank and a side, and write the item's `position`. `deactive()` and
`initialize()` (apart from SideSlide, which runs the sweep) instead style
each item by its absolute index, with no side, and write no position.

The model is split into modules, one per file:

- `Ring` (ring.dfy): the wrap-around index arithmetic and the two centre
  conventions, floor(n/2) and ceil(n/2).
- `Sweep` (sweep.dfy): the index structure of the sweep. This covers which
  items the left loop and the right loop reach, in which order, and which
  positions they write.
- `Styles` (styles.dfy): the renderer as a style store. Each element has a
  map from CSS property to value. The net writes of one styling call form a
  `Descriptor`, and `Apply` carries them out.
- `Effects` (effects.dfy): `setActiveStyle` and `setDeactiveStyle`, with one
  function per case of their `switch`.
- `Layout` (layout.dfy): what each pass does to item `k` (an `ItemUpdate`),
  and the whole pass as a plan with one entry per item.
- `Component` (component.dfy): the component itself as a class. Its
  elements array, selection, activation flag and style store are updated in
  place by methods that follow the source's loops. Every pass is proved to
  leave the state its plan describes.
- `LayoutProperties` (layout_properties.dfy): what the passes promise,
  effect by effect. This covers ranks, sides, offsets, z-order, positions
  and permutations.

`P` below stands for
`projects/ngx-stack-effects/src/lib/ngx-stack-effects.component.ts`. Each
source cell in the table spells the path out in full.

## Model

| member | source | states |
|---|---|---|
| Ring.FloorCenter | projects/ngx-stack-effects/src/lib/ngx-stack-effects.component.ts:171 | the centre c satisfies 2c <= n < 2c + 2, i.e. `Math.floor(n / 2)` |
| Ring.CeilCenter | projects/ngx-stack-effects/src/lib/ngx-stack-effects.component.ts:247 | the centre c satisfies n <= 2c < n + 2, i.e. `Math.ceil(n / 2)` |
| Ring.RingIndex | projects/ngx-stack-effects/src/lib/ngx-stack-effects.component.ts:180-183 | the ring index is below n; it is 0 exactly for the selected item; selected + r is i or i + n (one wrap at most) |
| Ring.RingAbsolute | projects/ngx-stack-effects/src/lib/ngx-stack-effects.component.ts:180-183 | for every ring distance r there is an item whose ring index is r |
| Ring.RingRoundTrip | projects/ngx-stack-effects/src/lib/ngx-stack-effects.component.ts:180-183 | RingAbsolute undoes RingIndex |
| Ring.RingIndexInjective | projects/ngx-stack-effects/src/lib/ngx-stack-effects.component.ts:180-183 | two items share a ring index if and only if they are the same item |
| Ring.RingIndicesPermutation | projects/ngx-stack-effects/src/lib/ngx-stack-effects.component.ts:280-288 | the ring indices of items 0 .. n-1 are a permutation of 0 .. n-1 |
| Ring.LeftNeighbour | projects/ngx-stack-effects/src/lib/ngx-stack-effects.component.ts:517-518 | `selectedIndex - i`, wrapped once, is an item and has ring index n - i |
| Ring.RightNeighbour | projects/ngx-stack-effects/src/lib/ngx-stack-effects.component.ts:529-530 | `selectedIndex + i`, wrapped once, is an item and has ring index i |
| Sweep.SweepPosition | projects/ngx-stack-effects/src/lib/ngx-stack-effects.component.ts:515-541 | the written position is below n; it is the ring index shifted by floor(n/2) modulo n; it is the centre exactly for the selected item |
| Sweep.SweepPositionsPermutation | projects/ngx-stack-effects/src/lib/ngx-stack-effects.component.ts:514-546 | the positions a sweep writes are a permutation of 0 .. n-1, and the selected item gets floor(n/2) |
| Sweep.SweepVisit | projects/ngx-stack-effects/src/lib/ngx-stack-effects.component.ts:516-545 | the t-th item the sweep reaches is an item, and its ring index is the one step t is meant to reach |
| Sweep.SweepOrderSplit | projects/ngx-stack-effects/src/lib/ngx-stack-effects.component.ts:516-545 | the visiting order is the left loop's items, then the right loop's, then the selected item |
| Sweep.SweepVisitsEachOnce | projects/ngx-stack-effects/src/lib/ngx-stack-effects.component.ts:514-546 | every item is visited exactly once; the first floor(n/2) visits are on the left, the next n-1-floor(n/2) on the right, the selected item last; for one item only it is visited |
| Styles.Apply | projects/ngx-stack-effects/src/lib/ngx-stack-effects.component.ts:297-299 | after the writes, every property set holds its new value, every property removed is absent, and every other property is unchanged |
| Styles.ApplyThen | projects/ngx-stack-effects/src/lib/ngx-stack-effects.component.ts:542-545 | two styling calls in a row equal one call of their overlay, in which the later writes win |
| Styles.ApplyIdempotent | projects/ngx-stack-effects/src/lib/ngx-stack-effects.component.ts:297-416 | carrying out the same writes twice leaves what carrying them out once leaves |
| Styles.ApplyNothing | projects/ngx-stack-effects/src/lib/ngx-stack-effects.component.ts:112-124 | a call that writes nothing leaves the styles as they were |
| Effects.GridCellFor | projects/ngx-stack-effects/src/lib/ngx-stack-effects.component.ts:219-235 | a SideGrid cell is half the host width and half the host height, less the 8 px margin (its columns are stated by LayoutProperties.SideGridColumns) |
| Effects.ActiveStyle | projects/ngx-stack-effects/src/lib/ngx-stack-effects.component.ts:297-299 | every active style writes the drop shadow and opacity 1 |
| Effects.RestingZ | projects/ngx-stack-effects/src/lib/ngx-stack-effects.component.ts:476 | the resting z-index is 99 for the selected item and 99 - index for any other |
| Effects.DeactiveStyle | projects/ngx-stack-effects/src/lib/ngx-stack-effects.component.ts:421-422 | every resting style removes the drop shadow |
| Layout.Placed | projects/ngx-stack-effects/src/lib/ngx-stack-effects.component.ts:193 | writing a position keeps the item's index and sets the position; writing none leaves the item unchanged |
| Layout.InitialHostStyle | projects/ngx-stack-effects/src/lib/ngx-stack-effects.component.ts:126-128 | the host gets a perspective if and only if the effect is Leaflet or Coverflow, and it is 1600 px |
| Layout.RingActiveUpdate | projects/ngx-stack-effects/src/lib/ngx-stack-effects.component.ts:177-289 | dispatch step: for the effects placed by ring index, `active()` on item k is RingUpdate |
| Layout.RingActiveAt | projects/ngx-stack-effects/src/lib/ngx-stack-effects.component.ts:280-287 | proof step: once the rank and side for the item's ring index are known, its active style is that rank and side's, and its position is its ring index |
| Layout.ActiveSweepPlan | projects/ngx-stack-effects/src/lib/ngx-stack-effects.component.ts:172-216 | dispatch step: opening Fanout or SideSlide is the activating sweep and nothing else |
| Layout.DeactiveSweepPlan | projects/ngx-stack-effects/src/lib/ngx-stack-effects.component.ts:161-163 | dispatch step: closing SideSlide is the resting sweep and nothing else |
| Layout.InitialSweepPlan | projects/ngx-stack-effects/src/lib/ngx-stack-effects.component.ts:101-103 | dispatch step: initializing SideSlide is the resting sweep and nothing else |
| Layout.SweepStepEntry | projects/ngx-stack-effects/src/lib/ngx-stack-effects.component.ts:516-539 | the item reached at step i of the left or the right loop gets the style of rank i on that side, and position floor(n/2) - i or floor(n/2) + i |
| Layout.SweepSelectedEntry | projects/ngx-stack-effects/src/lib/ngx-stack-effects.component.ts:540-545 | the selected item gets the resting centre style overlaid, when opening, by the active centre style, and position floor(n/2) |
| Layout.PassResult | projects/ngx-stack-effects/src/lib/ngx-stack-effects.component.ts:157-159 | proof step: writing every entry of a plan to its own item is the plan's outcome |
| Layout.PassOneMore | projects/ngx-stack-effects/src/lib/ngx-stack-effects.component.ts:516-539 | restyling one more not-yet-visited item extends the set of visited ring indices and leaves the others as they were |
| Layout.PassComplete | projects/ngx-stack-effects/src/lib/ngx-stack-effects.component.ts:514-546 | once every ring index is visited, the styles and items are the plan's outcome |
| Component.StackEffectsComponent.constructor | projects/ngx-stack-effects/src/lib/ngx-stack-effects.component.ts:51-60 | after discovery, item i has index i and position i, item 0 is selected, the stack is idle, and no styles are written |
| Component.StackEffectsComponent.Restyle | projects/ngx-stack-effects/src/lib/ngx-stack-effects.component.ts:297-299 | element k's styles become the old ones with the call's writes carried out, and nothing else changes |
| Component.StackEffectsComponent.SetActiveStyle | projects/ngx-stack-effects/src/lib/ngx-stack-effects.component.ts:297-416 | element k receives the active style of the effect for the given rank, side and cell |
| Component.StackEffectsComponent.SetDeactiveStyle | projects/ngx-stack-effects/src/lib/ngx-stack-effects.component.ts:421-512 | element k receives the resting style of the effect for the given index and side |
| Component.StackEffectsComponent.Place | projects/ngx-stack-effects/src/lib/ngx-stack-effects.component.ts:193 | only item k's position changes |
| Component.StackEffectsComponent.RingStyling | projects/ngx-stack-effects/src/lib/ngx-stack-effects.component.ts:177-289 | the rank, side and cell chosen for a ring index are RingPlacement's and RingCell's |
| Component.StackEffectsComponent.ActiveAt | projects/ngx-stack-effects/src/lib/ngx-stack-effects.component.ts:280-288 | the callback restyles and places item j as `active()` plans, and touches no other item |
| Component.StackEffectsComponent.ActivePass | projects/ngx-stack-effects/src/lib/ngx-stack-effects.component.ts:177-289 | the forEach leaves every item styled and placed as `active()` plans |
| Component.StackEffectsComponent.HandleCentralizedEffect | projects/ngx-stack-effects/src/lib/ngx-stack-effects.component.ts:514-546 | the sweep leaves every item styled and placed as SweepPlan says, and visits the items in SweepOrder |
| Component.StackEffectsComponent.SweepLeft | projects/ngx-stack-effects/src/lib/ngx-stack-effects.component.ts:516-527 | the left loop visits exactly the ring indices n - floor(n/2) .. n-1, in LeftOrder, and styles and places each as planned |
| Component.StackEffectsComponent.SweepLeftStep | projects/ngx-stack-effects/src/lib/ngx-stack-effects.component.ts:517-526 | step i reaches the item with ring index n - i and adds it to the visited ring indices |
| Component.StackEffectsComponent.SweepRight | projects/ngx-stack-effects/src/lib/ngx-stack-effects.component.ts:528-539 | the right loop adds ring indices 1 .. n-1-floor(n/2), in RightOrder, styled and placed as planned |
| Component.StackEffectsComponent.SweepRightStep | projects/ngx-stack-effects/src/lib/ngx-stack-effects.component.ts:529-538 | step i reaches the item with ring index i and adds it to the visited ring indices |
| Component.StackEffectsComponent.SweepStep | projects/ngx-stack-effects/src/lib/ngx-stack-effects.component.ts:519-526 | one sweep step writes the planned style and position of the item it reaches, and nothing else |
| Component.StackEffectsComponent.SweepSelected | projects/ngx-stack-effects/src/lib/ngx-stack-effects.component.ts:540-545 | the selected item gets its planned position and the overlay of its resting and active centre styles |
| Component.StackEffectsComponent.Active | projects/ngx-stack-effects/src/lib/ngx-stack-effects.component.ts:170-291 | `active()` leaves every item styled and placed as ActivePlan says, for every effect |
| Component.StackEffectsComponent.Untouched | projects/ngx-stack-effects/src/lib/ngx-stack-effects.component.ts:112-124 | a plan that writes nothing leaves styles and positions as they are (PreviewGrid) |
| Component.StackEffectsComponent.Deactive | projects/ngx-stack-effects/src/lib/ngx-stack-effects.component.ts:144-165 | `deactive()` leaves every item as DeactivePlan says |
| Component.StackEffectsComponent.DeactivePass | projects/ngx-stack-effects/src/lib/ngx-stack-effects.component.ts:157-159 | the forEach gives every item the resting style for its absolute index, and moves no item |
| Component.StackEffectsComponent.DeactiveAt | projects/ngx-stack-effects/src/lib/ngx-stack-effects.component.ts:158 | the callback restyles item j as planned and no other |
| Component.StackEffectsComponent.Initialize | projects/ngx-stack-effects/src/lib/ngx-stack-effects.component.ts:82-142 | `initialize()` leaves every item as InitialPlan says, and the host with InitialHostStyle |
| Component.StackEffectsComponent.InitializeHost | projects/ngx-stack-effects/src/lib/ngx-stack-effects.component.ts:126-128 | the host element receives InitialHostStyle |
| Component.StackEffectsComponent.InitializeItems | projects/ngx-stack-effects/src/lib/ngx-stack-effects.component.ts:83-141 | every item is styled as InitialPlan says |
| Component.StackEffectsComponent.InitializePass | projects/ngx-stack-effects/src/lib/ngx-stack-effects.component.ts:86-139 | the forEach styles every item as planned and moves no item |
| Component.StackEffectsComponent.InitializeAt | projects/ngx-stack-effects/src/lib/ngx-stack-effects.component.ts:86-139 | the callback restyles item j as planned and no other |
| Component.StackEffectsComponent.SelectItem | projects/ngx-stack-effects/src/lib/ngx-stack-effects.component.ts:76-80 | the selection moves to index, the activation flag is untouched, and the opening layout for the new selection is applied whether or not the stack was open |
| Component.StackEffectsComponent.OnActiveChange | projects/ngx-stack-effects/src/lib/ngx-stack-effects.component.ts:70-73 | the flag becomes the delivered status, then the opening layout runs if it is true and the closing one otherwise |
| LayoutProperties.FanoutLeftRank | projects/ngx-stack-effects/src/lib/ngx-stack-effects.component.ts:303-310 | the item the left loop reaches at step r = n - rel moves 100r px left and 20r px down, turns -10r degrees, is stacked at 90 - r and gets position floor(n/2) - r |
| LayoutProperties.FanoutRightRank | projects/ngx-stack-effects/src/lib/ngx-stack-effects.component.ts:303-310 | mirrored on the right, with r = rel and position floor(n/2) + r |
| LayoutProperties.FanoutSelected | projects/ngx-stack-effects/src/lib/ngx-stack-effects.component.ts:540-545 | the selected item rests at (0, 0), z-index 99, opacity 1, turned 0 degrees, at position floor(n/2) |
| LayoutProperties.FanoutNeverScales | projects/ngx-stack-effects/src/lib/ngx-stack-effects.component.ts:304 | opening Fanout writes a transform made of a single function, which is not a scale |
| LayoutProperties.SideSlideActiveLayout | projects/ngx-stack-effects/src/lib/ngx-stack-effects.component.ts:338-349 | rank r is shrunk to 1 - 0.15r, moved 50r px outwards, stacked at 90 - r and opaque; the selected item is at scale 0.9 and z-index 99 |
| LayoutProperties.SideSlideDeactiveLayout | projects/ngx-stack-effects/src/lib/ngx-stack-effects.component.ts:441-452 | rank r is shrunk to 1 - 0.35r, moved 100r px outwards and hidden; the selected item is unscaled, opaque, on top and at left 0; positions equal the opening ones; the shadow is removed |
| LayoutProperties.RingPositions | projects/ngx-stack-effects/src/lib/ngx-stack-effects.component.ts:177-289 | every effect placed by ring index writes the ring index as the position, the shadow and opacity 1 |
| LayoutProperties.QueueActiveLayout | projects/ngx-stack-effects/src/lib/ngx-stack-effects.component.ts:374-378 | the item at ring index rel is lifted 20·rel px, scaled to 0.9 - 0.08·rel and stacked at 99 - rel |
| LayoutProperties.QueueScenario | projects/ngx-stack-effects/src/lib/ngx-stack-effects.component.ts:263-273 | four items with item 1 selected get tops -60, 0, -20, -40 px and z-indices 96, 99, 98, 97 |
| LayoutProperties.RankRuleUpdate | projects/ngx-stack-effects/src/lib/ngx-stack-effects.component.ts:275-289 | for Fan, ElasticSpread, VerticalSpread, Leaflet and Coverflow the item at ring index rel gets the centre style of rank n - 1 - rel and position rel |
| LayoutProperties.FanActiveLayout | projects/ngx-stack-effects/src/lib/ngx-stack-effects.component.ts:380-385 | z-index n-1-rel, a turn of 5 degrees per rank about the top-left corner, delay digits rel |
| LayoutProperties.ElasticSpreadActiveLayout | projects/ngx-stack-effects/src/lib/ngx-stack-effects.component.ts:387-394 | z-index n-1-rel and 35 px drop per rank in the first phase |
| LayoutProperties.VerticalSpreadActiveLayout | projects/ngx-stack-effects/src/lib/ngx-stack-effects.component.ts:396-400 | z-index n-1-rel, 30 px drop per rank, delay digits rel |
| LayoutProperties.LeafletActiveLayout | projects/ngx-stack-effects/src/lib/ngx-stack-effects.component.ts:402-406 | z-index n-1-rel; rank 0 stays flat and every other rank tilts back 15 + 10·rank degrees; delay digits rel |
| LayoutProperties.CoverflowActiveLayout | projects/ngx-stack-effects/src/lib/ngx-stack-effects.component.ts:408-414 | z-index n-1-rel, turned -45 degrees at scale 0.9, shifted (ceil(n/2) - rank)·50 px |
| LayoutProperties.RankRuleZ | projects/ngx-stack-effects/src/lib/ngx-stack-effects.component.ts:286 | under the rank rule the z-index is n - 1 - rel, and n - 1 for the selected item |
| LayoutProperties.RankRuleZOrder | projects/ngx-stack-effects/src/lib/ngx-stack-effects.component.ts:275-289 | under the rank rule the opening z-indices are a permutation of 0 .. n-1, and the selected item holds n - 1 |
| LayoutProperties.SimpleSpreadActiveLayout | projects/ngx-stack-effects/src/lib/ngx-stack-effects.component.ts:177-195 | with c = floor(n/2): below c, rank c - rel to the left (25 px per rank, down, above z 50); above c, rank rel - c to the right (up, below z 50); at c, the centre (0, 0) at z 50 |
| LayoutProperties.RandomRotationActiveLayout | projects/ngx-stack-effects/src/lib/ngx-stack-effects.component.ts:197-212 | the selected item is at (30, 30) px, unrotated, z 99; any other is at z 99 - rel, turned 5·rel degrees, clockwise for odd rel and anticlockwise for even |
| LayoutProperties.PeekaBooActiveLayout | projects/ngx-stack-effects/src/lib/ngx-stack-effects.component.ts:246-261 | with c = ceil(n/2): the selected item is at scale 0.9 about its bottom centre, at (0, 0), z 99; below c, rank c - rel to the left above z 90; from c on, rank rel - c to the right at or below z 90 (exactly 90 at rel = c); both halved, 50 px up, 80 px and 30 degrees per rank |
| LayoutProperties.PeekaBooSelected | projects/ngx-stack-effects/src/lib/ngx-stack-effects.component.ts:253-254 | the selected item is at scale 0.9 about its bottom centre, at left 0 and top 0, z 99 |
| LayoutProperties.PeekaBooLeft | projects/ngx-stack-effects/src/lib/ngx-stack-effects.component.ts:256-257 | ring indices 0 < rel < ceil(n/2) go left with rank ceil(n/2) - rel |
| LayoutProperties.PeekaBooRight | projects/ngx-stack-effects/src/lib/ngx-stack-effects.component.ts:256-257 | ring indices rel >= ceil(n/2) go right with rank rel - ceil(n/2) |
| LayoutProperties.SideGridColumns | projects/ngx-stack-effects/src/lib/ngx-stack-effects.component.ts:228-235 | the two rows share their columns; neighbours in a row are one cell width plus the 8 px margin apart; the row of ceil(n/2) cells and gaps is centred in the host, then shifted left by the margin |
| LayoutProperties.SideGridActiveLayout | projects/ngx-stack-effects/src/lib/ngx-stack-effects.component.ts:218-244 | ring indices below ceil(n/2) fill the top row and the rest the bottom row, one cell height plus 4 px lower; cells are half the host less the margin |
| LayoutProperties.ActivePositionsPermutation | projects/ngx-stack-effects/src/lib/ngx-stack-effects.component.ts:170-291 | opening writes each position 0 .. n-1 exactly once; the selected item gets 0 for effects placed by ring index and floor(n/2) for the sweeping ones |
| LayoutProperties.DeactiveZOrder | projects/ngx-stack-effects/src/lib/ngx-stack-effects.component.ts:421-512 | every effect but PreviewGrid removes the shadow on closing (PreviewGrid writes nothing); for PeekaBoo, Queue, Fan, ElasticSpread, VerticalSpread, Leaflet and Coverflow the selected item rests at 99 and any other at 99 - index; for Fanout and SideGrid the selected item rests at 99 and any other at 0, and Fanout also hides the others; only SideSlide moves items (SimpleSpread and RandomRotation write no z-index: see RestingOrigin) |
| LayoutProperties.ClosingStyle | projects/ngx-stack-effects/src/lib/ngx-stack-effects.component.ts:157-159 | dispatch step: for every effect that `deactive()` restyles item by item, item k gets no position and its style is the shadow removal followed by the effect's resting writes for absolute index k |
| LayoutProperties.RestingOrigin | projects/ngx-stack-effects/src/lib/ngx-stack-effects.component.ts:426-460 | closing Fanout, SimpleSpread and RandomRotation sets top and left to 0 and the transform to scale(1), and SimpleSpread and RandomRotation write no z-index, so items keep their opening stacking; closing SideGrid sets width and height to 100% and left and top to 0 |
| LayoutProperties.RestingPeekaBoo | projects/ngx-stack-effects/src/lib/ngx-stack-effects.component.ts:462-473 | closing PeekaBoo returns the selected item to scale(1) about its bottom centre; every other item goes to scale(0.1) at top 0 with its transform origin removed |
| LayoutProperties.RestingStack | projects/ngx-stack-effects/src/lib/ngx-stack-effects.component.ts:475-498 | closing Queue gives scale(1) and top 0; Fan gives rotate(0) about the top-left corner with transition `transform .3s`; ElasticSpread gives transition `all .3s` and top 0; VerticalSpread gives delay 0s and top 0 |
| LayoutProperties.RestingFlat | projects/ngx-stack-effects/src/lib/ngx-stack-effects.component.ts:500-510 | closing Leaflet gives rotateX(0) and delay 0s; Coverflow gives rotateY(0) scale(1) and left 0; PreviewGrid writes nothing |
| LayoutProperties.RestingZTie | projects/ngx-stack-effects/src/lib/ngx-stack-effects.component.ts:475-510 | under the 99 - index rule, item 0 rests at 99, level with the selected item; for Fanout and SideGrid, 99 belongs to the selected item alone |
| LayoutProperties.InitialLayout | projects/ngx-stack-effects/src/lib/ngx-stack-effects.component.ts:82-142 | PeekaBoo, Fan and SideSlide start at their resting layout; Fanout and SideGrid at their resting z-index; Leaflet and Coverflow at z n-1-k with preserve-3d, transform-origin top center and exactly those four properties, with the resting transform (rotateX(0deg) for Leaflet, rotateY(0deg) scale(1) for Coverflow); PreviewGrid writes nothing; the rest at z 99 - k; only SideSlide moves items |
| LayoutProperties.PreviewGridUntouched | projects/ngx-stack-effects/src/lib/ngx-stack-effects.component.ts:112-124 | PreviewGrid's initialising pass computes a ring index but writes nothing, and neither the closing nor the opening switch has a PreviewGrid case, so all three passes leave every item untouched |
| LayoutProperties.RestyledIdempotent | projects/ngx-stack-effects/src/lib/ngx-stack-effects.component.ts:170-291 | running any pass twice leaves what running it once leaves |

## Source behaviour worth noting

- The closing z-index of Queue, Fan, ElasticSpread, VerticalSpread,
  Leaflet and Coverflow is `index === this.selectedIndex ? 99 : 99 - index`
  (P lines 476, 483, 489, 495, 501, 507). PeekaBoo writes `99 - index` in
  its branch for the other items (P line 470). The ternary singles out the
  selected item for 99, yet the item at absolute index 0 also gets
  99 - 0 = 99. So whenever another item is selected, two items rest at 99.
  The model follows the code, and `LayoutProperties.RestingZTie` states the
  tie.
- `selectItem` does no bounds check (P lines 76-80). Its only caller is the
  click listener, which passes the index of an existing item. The model
  therefore requires `index < n` rather than modelling an out-of-range error.
- SimpleSpread gives the centre style to the item at ring index floor(n/2).
  For n >= 2 that is not the selected item (P lines 184-192). For n = 1 it
  is, since floor(1/2) = 0.

## Left out

- Lifecycle and DOM discovery (`ngOnInit`, `ngAfterViewInit`,
  `ngOnDestroy`, the event listeners, element removal). The constructor
  stands for the state right after discovery, with n >= 1. A stack with no
  items is not modelled.
- The rxjs pipe in front of the subscriber (`takeUntil`, `debounceTime(100)`,
  `distinctUntilChanged`). It filters and delays statuses. `OnActiveChange`
  models the subscriber for one delivered status.
- `animationEnd.emit` in `selectItem`. It writes nothing the component reads.
- `setTimeout`: the deferred discovery, and ElasticSpread's second phase
  (top 30·rank px, transition `all .1s` after 300 ms). The model captures the
  writes made synchronously by `setActiveStyle`.
- Renderer2 writes strings. The model keeps typed values instead. Lengths
  are `Px`, and a bare `0` written to `left` or `top` is the length 0.
  Transforms are lists of functions. `.${k}s` delays are `DotSeconds(k)`.
  String formatting is not modelled.
- Floating point. Scale factors and SideGrid geometry are exact reals, so
  JavaScript rounding (for example `0.9 - 0.08 * rank`) is not modelled.
- The host size (`offsetWidth`, `offsetHeight`) is a `HostSize` constant
  given to the constructor. The host's `width`/`height` inputs, written by
  `ngOnInit`, are not modelled.
- PreviewGrid: its `initialize()` loop computes ring indices and writes
  nothing, and `active()`/`deactive()` have no case for it. The model writes
  nothing for it (`PreviewGridUntouched`, `Untouched`).
- The `StackEffects` enum file is not part of this model. The effects are a
  datatype.
- `Effects.ActiveStyle`, `Effects.DeactiveStyle`: their contracts state only
  the writes common to every effect. The per-effect writes are stated by the
  LayoutProperties lemmas, for the ranks, sides and indices the passes
  actually use. The opening ones are in the `...ActiveLayout` lemmas. The
  closing ones are in `DeactiveZOrder`, `SideSlideDeactiveLayout` and the
  `Resting...` lemmas.
