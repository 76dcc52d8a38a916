# PACKIT4.0 placement engine in Dafny

This project models the deterministic core of PACKIT4.0. That core places rectangular pallets inside a trailer, using a 3-D occupancy grid at 100 mm resolution and four heuristic loading strategies, and then validates the finished load. It also proves what the core promises about placement, balance and validation.

## Modules

The files follow the source's structure:

| file | module | models |
|---|---|---|
| `wrappers.dfy` | `Wrappers` | `Option` and `Result` |
| `pallet.dfy` | `Cargo` | `src/data/pallet.py`: the immutable pallet record, a `Pallet` class with mutable `position` and `rotation`, its geometry on value snapshots (`PalletState`), and the dictionary round trip |
| `trailer.dfy` | `Container` | `src/data/trailer.py`: a `Trailer` class with the loaded list, a `array3<int>` occupancy grid and the weight accumulators; `add_pallet`, `remove_pallet`, `reset`, the bounds, collision and capacity tests, the lowest-height search, the available-position scan, the efficiency record and the balance test |
| `sorting.dfy` | `Sorting` | Python's stable `sorted` with an integer key, ascending or descending |
| `base.dfy` | `Base` | `src/algorithms/base_algorithm.py`: configuration values and merging, the three sort helpers and `_try_rotate_pallet` |
| `scans.dfy` | `Scans` | the position finders of the four strategies, each proved to return the best candidate under its own preference order |
| `placement.dfy` | `Placement` | the shared placement step (find, offer, rotate and retry, turn back) and the loop over a list of pallets |
| `xy_axis.dfy` | `XYAxis` | `src/algorithms/xy_axis_loading.py` |
| `x_distribution.dfy` | `XDistribution` | `src/algorithms/x_distribution.py`: zones along the length, the balance-driven zone choice |
| `y_distribution.dfy` | `YDistribution` | `src/algorithms/y_distribution.py`: the pre-rotation, the round-robin split into bands across the width |
| `z_distribution.dfy` | `ZDistribution` | `src/algorithms/z_distribution.py`: grouping by height, the per-layer selection with its weight threshold |
| `loading.dfy` | `Loading` | the strategy base class: `run`, `get_statistics`, and the dispatch of `load_pallets` over a closed set of strategy kinds |
| `validation.dfy` | `Validation` | `src/utils/validation.py` |
| `factory.dfy` | `Factory` | `src/algorithms/algorithm_factory.py` |

## Modelling choices

- **State and aliasing.** The pallet and the trailer are classes because the source updates them in place. The strategies keep object identity, so the same `Pallet` object appended to the trailer is the one later moved or rotated.
- **The trailer invariant.** The trailer's consistency invariant (`Trailer.Consistent`) is no overlap, every box in bounds, and the load within capacity. `add_pallet` and `remove_pallet` preserve it. Each strategy except the layered one preserves it when its pallets are distinct and not already loaded.
- **The grid.** The occupancy grid keeps the source's shape `dim // 100 + 1` per axis. It also keeps the source's slice clipping, including Python's clamping of slice bounds.
- **Weights.** Weights and dimensions are integers. The source's float sums of integer weights are exact. Ratios such as the balances, the utilisations and the layer threshold are `real`.
- **Finder keys.** The Y finder's key `|y + w/2 - centre|` is modelled as the integer `|2y + w - yStart - yEnd|`. The Z finder's Euclidean distance is modelled as the squared doubled distance. Both give the same order as the source's keys.
- **Errors.** Configuration values of the wrong type are error outcomes (`Result`), not preconditions. So are a zone count of zero, a zero total weight in the X zone choice, and an unknown strategy name. In each such case Python raises.
- **Strategy dispatch.** The class hierarchy of strategies is modelled as a `Kind` datatype, dispatched in `Loading.Algorithm.LoadPallets`.

## Behaviour kept as the code has it

The model keeps these behaviours of the code as written.

- **Refused positions.** When a finder returns a position but `add_pallet` then refuses the pallet, the placement step of each strategy gives up on that pallet without trying the other orientation. In the rotated branch, such a pallet stays rotated.
- **The X zone choice.** Zones are ordered by the distance of their current weight, before the add, from the ideal share. The balance test `new / total <= 1 + factor` cannot reject a zone when weights and factor are non-negative (`XDistribution.BalanceNeverRejects`). In that case the choice is the first open zone in that order (`XDistribution.PickFirstOpen`).
- **The Y pre-rotation.** Every pallet that is not of type L10 and is at rotation 0 is turned to 90 degrees, whichever footprint side is longer.
- **Stacking support.** The support test is an edge-overlap test: the near or the far edge of the pallet lies within the supporter's extent on each floor axis. The supporter need not cover the whole footprint.
- **`_try_rotate_pallet`.** It keeps the rotation whenever the rotated orientation has any available position, without comparing the numbers of positions.
- **XY defaults.** `XYAxisLoading` looks its defaults up under `XY_Axis_Loading`, a key the defaults table does not contain (it has `XZ_Axis_Loading`). So its configuration is the caller's own. `YDistributionLoading` has no entry either.

## Model

| member | source | states |
|---|---|---|
| Cargo.Toggle | src/data/pallet.py:92-94 | `rotate` always changes the rotation and the result is again 0 or 90 |
| Cargo.PalletState.Dimensions | src/data/pallet.py:54-60 | (length, width, height) at 0 degrees, (width, length, height) at 90 |
| Cargo.PalletState.Footprint | src/data/pallet.py:62-68 | the footprint is the first two effective dimensions |
| Cargo.FromDict | src/data/pallet.py:115-118 | the record is rejected, with the rotation message, exactly when its rotation is neither 0 nor 90; an accepted record converts back to itself |
| Cargo.Create | src/data/pallet.py:44-47 | construction fails exactly on a rotation other than 0 or 90; a new pallet otherwise, holding the record's fields |
| Cargo.Pallet.Rotate | src/data/pallet.py:92-94 | the rotation toggles and the position and physical data stay |
| Cargo.Pallet.SetPosition | src/data/pallet.py:96-98 | only the position changes, to exactly the given coordinates |
| Cargo.RotationInvolution | src/data/pallet.py:92-94 | rotating twice restores the state; one rotation swaps length and width and keeps the height |
| Cargo.MassAndVolumeArePlacementIndependent | src/data/pallet.py:49-73 | the product of the effective dimensions is the volume in either rotation; total weight depends on neither rotation nor position |
| Cargo.CollidesSymmetric | src/data/pallet.py:100-113 | collision is symmetric |
| Cargo.FaceContactIsNotCollision | src/data/pallet.py:100-113 | boxes meeting on a face (far edge of one equals near edge of the other on any axis) do not collide, in either order |
| Cargo.SelfCollision | src/data/pallet.py:100-113 | a box collides with itself exactly when all its extents are positive |
| Cargo.CornersSpanTheBox | src/data/pallet.py:75-90 | eight corners, the first at the position, the last at position plus dimensions, all inside the box |
| Cargo.DictRoundTrip | src/data/pallet.py:115-136 | `from_dict(to_dict(p))` gives back `p` |
| Container.Trailer.constructor | src/data/trailer.py:36-54 | an empty list, a zero grid of `dim // 100 + 1` cells per axis, zero weights |
| Container.DefaultTrailer | src/data/trailer.py:28-31 | `Trailer()` has the configured 13600 x 2450 x 2700 mm, 24000 kg, and starts empty |
| Container.Trailer.AddPallet | src/data/trailer.py:56-87 | accepted exactly when in bounds, free of collision with the loaded list and within capacity; on acceptance the pallet is appended, its cells marked 1 and the weights rebuilt; on refusal list, grid and weights are unchanged; consistency of the list is preserved |
| Container.Trailer.RemovePallet | src/data/trailer.py:89-113 | true exactly when some loaded pallet has the id; then the first such pallet is removed, the others keep their order, its cells are set to 0 and the weights rebuilt; otherwise nothing changes; consistency is preserved |
| Container.Trailer.RemoveAt | src/data/trailer.py:100-111 | the found pallet's cells are freed, it leaves the list at its index and the weights are rebuilt |
| Container.Trailer.Reset | src/data/trailer.py:211-226 | an empty list, a fresh all-zero grid of the same shape, zero weights |
| Container.Trailer.CheckCollision | src/data/trailer.py:239-244 | true exactly when the box collides with some loaded pallet |
| Container.Trailer.UpdateSpaceMap | src/data/trailer.py:246-265 | the slice from `pos // 100` to `min((pos + len) // 100 + 1, n)` on each axis gets the value and every other cell keeps its old value |
| Container.Trailer.UpdateWeightDistribution | src/data/trailer.py:267-304 | the accumulators equal the credit of every loaded pallet, in list order, to its side (centre `y + w/2 < width/2`), its end (`x + l/2 < length/2`) and the total |
| Container.DistributionSums | src/data/trailer.py:267-308 | after a rebuild left + right == front + back == total == the sum of the total weights |
| Container.TotalLoadWithout | src/data/trailer.py:306-308 | removing entry `i` lowers the current load by exactly that pallet's total weight |
| Container.IndexOfId | src/data/trailer.py:100-101 | the first index holding the id, or the list length when none does |
| Container.IndexOfIdFirst | src/data/trailer.py:100-101 | the index of any first occurrence is the one found |
| Container.SliceBound | src/data/trailer.py:261-265 | a slice bound resolved against an axis lies in `0..n` and is itself when already in range |
| Container.BalanceCheck | src/data/trailer.py:146-169 | side balanced iff the side ratio is within 0.1 of 0.5, front/back balanced iff its ratio is within 0.1 of 0.6, overall iff both |
| Container.BalanceBounds | src/data/trailer.py:310-330 | with non-negative accumulators both balance ratios lie in [0, 1] |
| Container.EmptyBalance | src/data/trailer.py:310-330 | with zero weights the side ratio is 0.5 and the front/back ratio 0.0, so side-balanced holds and front/back and overall do not |
| Container.ResetEfficiency | src/data/trailer.py:115-144 | an empty trailer reports zero space and weight utilisation, zero pallets, zero per cubic metre and the empty balances |
| Container.WeightUtilizationBounded | src/data/trailer.py:131-132 | on a consistent trailer with non-negative weights the weight utilisation lies in [0, 100] |
| Container.Trailer.AddKeepsConsistent | src/data/trailer.py:66-87 | appending a box that fits, collides with nothing loaded and stays within capacity keeps no-overlap, bounds and capacity |
| Container.Trailer.RemoveKeepsConsistent | src/data/trailer.py:100-111 | removing a box of non-negative weight keeps no-overlap, bounds and capacity |
| Container.Trailer.ColumnTop | src/data/trailer.py:351-353 | one plus the highest occupied level of a column, at most the column height |
| Container.Trailer.ColumnTopIsHighest | src/data/trailer.py:351-353 | every occupied cell of the column lies below its top, and a positive top is an occupied cell plus one |
| Container.Trailer.RowTopIsHighest | src/data/trailer.py:348-354 | the row maximum bounds every column top of the row and, when positive, is attained |
| Container.Trailer.RectTopIsHighest | src/data/trailer.py:348-354 | the maximum over the footprint's cells bounds each column top and, when positive, is attained |
| Container.Trailer.LowestHeightIsHighestOccupied | src/data/trailer.py:332-356 | `None` exactly when a far grid index `(x+l)//100 + 1` or `(y+w)//100 + 1` reaches the grid edge; otherwise a non-negative multiple of 100 that lies above every occupied cell under the footprint, and 0 when none is occupied |
| Container.Trailer.FindLowestAvailableHeight | src/data/trailer.py:332-356 | the nested scan computes exactly that height |
| Container.Trailer.ColumnAvailability | src/data/trailer.py:190-207 | at one scan point at most one position is available, the lowest height when it fits and is collision-free |
| Container.Trailer.ScanStep | src/data/trailer.py:188-207 | one scan point extends the list by exactly its available position, in scan order |
| Container.Trailer.RowDone | src/data/trailer.py:188 | a finished row of the scan holds every available point of that row |
| Container.Trailer.GetAvailablePositions | src/data/trailer.py:171-209 | a position is listed exactly when it is on the 100 mm grid with `x <= length - l`, `y <= width - w`, at the lowest free height, with `z + h <= height` and without collision; the list is in strict x-major scan order |
| Container.Trailer.ScanRow | src/data/trailer.py:188-207 | the inner loop adds exactly the available positions of the column `x` |
| Base.Merge | src/algorithms/xy_axis_loading.py:36 | the merged configuration has the keys of both maps; the caller's value wins for each of its keys, the default holds for the rest |
| Base.CountOf | src/algorithms/x_distribution.py:57 | an absent key gives the default, an integer value gives itself, and only a real or string value is refused |
| Base.FactorOf | src/algorithms/x_distribution.py:69 | an absent key gives the default, a real value gives itself, and a string value is refused exactly |
| Base.SortBy | src/algorithms/base_algorithm.py:102-139 | the result is a permutation of the input, ordered by the key (descending when `reverse`), with equal keys in input order |
| Base.SortByVolume | src/algorithms/base_algorithm.py:102-113 | a stable permutation of the pallets ordered by volume |
| Base.SortByWeight | src/algorithms/base_algorithm.py:115-126 | a stable permutation of the pallets ordered by total weight |
| Base.SortByFootprint | src/algorithms/base_algorithm.py:128-139 | a stable permutation of the pallets ordered by the area length times width |
| Base.FootprintArea | src/algorithms/base_algorithm.py:139 | the area of the effective footprint is the same in both rotations |
| Base.TryRotatePallet | src/algorithms/base_algorithm.py:141-170 | the position never changes; the pallet ends rotated exactly when the rotated orientation has an available position among the boxes the scan sees: the loaded boxes, with the pallet's own box turned too when it is loaded; for a pallet not on the trailer, exactly when the trailer as it was has room for the rotated box |
| Sorting.SortedSpec | src/algorithms/base_algorithm.py:113 | `sorted` with a key gives a permutation ordered by the key in either direction, equal keys keeping their input order |
| Sorting.InsertSorted | src/algorithms/base_algorithm.py:113 | inserting an index into a key-sorted index list keeps it sorted |
| Sorting.ApplyOrderOf | src/algorithms/base_algorithm.py:113 | the sorted order of the first `n` entries picks a permutation of those entries |
| XYAxis.Arrange | src/algorithms/xy_axis_loading.py:53-58 | a permutation of the pallets, by total weight heaviest first when heavy pallets are prioritised, by volume largest first otherwise |
| XYAxis.LoadPallets | src/algorithms/xy_axis_loading.py:40-103 | the pallets are tried in the arranged order; the trailer's list grows by exactly the accepted ones; each pallet ends where its attempt put it; without repeated or loaded pallets, each attempt is the fallback's choice with the floor finder on the trailer as the earlier attempts left it, the boxes grow by what they placed, and a consistent trailer stays consistent |
| Placement.After | src/algorithms/xy_axis_loading.py:66-100 | an attempt keeps the pallet's physical data; no room leaves the pallet unchanged; a found position moves it there, rotated exactly when found rotated |
| Placement.PlaceWithFallback | src/algorithms/xy_axis_loading.py:66-100 | the best position in the pallet's own orientation, else the best in the other, else nothing and the orientation restored; the trailer grows by the pallet exactly when it accepts it, keeping its invariant |
| Placement.PlaceRotated | src/algorithms/xy_axis_loading.py:79-100 | after the rotation: no room means no room for the rotated box; a found position is the best for the rotated box |
| Placement.SearchAndOffer | src/algorithms/xy_axis_loading.py:84-98 | a found position is the best for the current orientation and the pallet is moved there; with no room the pallet is turned back |
| Placement.Offer | src/algorithms/xy_axis_loading.py:70-78 | the pallet is moved to the position; the trailer takes it exactly when it is available there and is otherwise unchanged |
| Placement.PlaceAll | src/algorithms/xy_axis_loading.py:66-103 | one attempt per pallet, in order; the trailer's list grows by exactly the accepted pallets; each pallet ends where its attempt put it, within the scan; without repeats the grid gains the placed boxes; without repeated or loaded pallets every attempt is the fallback's whole attempt (`Greedy`) on the trailer as the earlier attempts left it, and the boxes grow by what they placed |
| Placement.PlaceOne | src/algorithms/xy_axis_loading.py:67-100 | one turn keeps the loop's progress one pallet further, including that the new attempt is the fallback's choice on the trailer as the earlier turns left it (`Greedy`) |
| Placement.GreedyStep | src/algorithms/xy_axis_loading.py:67-100 | a next attempt made by the fallback on the trailer as the earlier attempts left it extends `Greedy` |
| Placement.PlacedStep | src/algorithms/xy_axis_loading.py:70-78 | an accepted attempt appends its box to the placed boxes, the grid copy and the trailer's boxes; a refused one changes none of them |
| Placement.GreedyRoundsStep | src/algorithms/y_distribution.py:73-82 | a further round of the greedy loop, on the trailer as the earlier rounds left it, extends the record of rounds, and its boxes follow theirs |
| Placement.Accepted | src/algorithms/xy_axis_loading.py:66-103 | the loaded list is no longer than the input and holds only input pallets |
| Placement.Rearranged | src/algorithms/xy_axis_loading.py:53-58 | a permutation holds the same pallets and keeps distinctness and disjointness from the loaded ones |
| Scans.LevelAt | src/algorithms/x_distribution.py:220-222 | the height probed at a grid point: z = 0 on the floor scans, the lowest available height if it leaves headroom in a zone, that height only within the layer in the layered scan |
| Scans.CandidateWithin | src/algorithms/x_distribution.py:217-222 | every candidate is a grid point of the scanned range at the probed height |
| Scans.PreferredOrder | src/algorithms/y_distribution.py:171 | the strict-less comparison of the keep-the-best finders is irreflexive and transitive |
| Scans.SearchStep | src/algorithms/x_distribution.py:222-240 | one grid point of a keep-the-best scan keeps "the best of everything scanned so far" |
| Scans.RowFinished | src/algorithms/x_distribution.py:218 | at the end of a row every candidate of that row has been scanned |
| Scans.ScanFinished | src/algorithms/x_distribution.py:217 | at the end of the scan the kept position is the best candidate, or none exactly when there is no candidate |
| Scans.Search | src/algorithms/x_distribution.py:197-242 | the zone, band and layer finders return the best candidate (lowest height, closest to the band centre, closest to the trailer centre), or none exactly when no grid point qualifies |
| Scans.SearchRow | src/algorithms/x_distribution.py:218-240 | one row of the scan extends the invariant to the next row |
| Scans.Visit | src/algorithms/x_distribution.py:220-240 | one grid point: the kept position is updated exactly when the point qualifies, strictly beats it and does not collide |
| Scans.Least | src/algorithms/xy_axis_loading.py:145-157 | the first candidate in the floor order is a candidate and no candidate comes before it |
| Scans.CollectStep | src/algorithms/xy_axis_loading.py:126-143 | a collision-free grid point is appended to the candidate list and nothing else is |
| Scans.FindBestPosition | src/algorithms/xy_axis_loading.py:105-157 | the first collision-free floor position by (x, y) from the front or by (-x, y) from the back, or none exactly when there is none |
| Scans.CollectRow | src/algorithms/xy_axis_loading.py:127-143 | after a row the list holds exactly the candidates of the scanned rows |
| Scans.ZoneHasFloorSlot | src/algorithms/x_distribution.py:170-180 | the zone is available exactly when some grid position of its x range is free of collisions on the floor |
| Scans.RowHasFloorSlot | src/algorithms/x_distribution.py:172-177 | true only when a floor candidate exists; false only when the row has none |
| Scans.FloorPointTaken | src/algorithms/x_distribution.py:175 | a colliding floor point is no candidate and the scan can move past it |
| Scans.RowHasNoFloorSlot | src/algorithms/x_distribution.py:179-180 | a row without a free point leaves every candidate in later rows |
| Scans.Find | src/algorithms/x_distribution.py:197-242 | every finder a strategy runs returns the best candidate, or none exactly when there is none |
| XDistribution.ZoneLoads | src/algorithms/x_distribution.py:63-64 | one accumulator per zone |
| XDistribution.ZoneLoadsSum | src/algorithms/x_distribution.py:63-89 | the accumulators add up to the total weight of the loaded pallets |
| XDistribution.SumUpdate | src/algorithms/x_distribution.py:89 | adding a pallet's weight to one zone raises the sum of the zone weights by that weight |
| XDistribution.GapOrder | src/algorithms/x_distribution.py:145-148 | the integer sort key orders zones exactly as the distance from the ideal share does, ties included |
| XDistribution.ZoneOrder | src/algorithms/x_distribution.py:145-148 | every zone once, by increasing distance from the ideal share, ties in zone order |
| XDistribution.SelectBestZone | src/algorithms/x_distribution.py:123-195 | with no zones the ideal share divides by zero; otherwise the zones are tried in that order and the first open one passing the balance test is returned |
| XDistribution.PickFails | src/algorithms/x_distribution.py:142-188 | the choice fails exactly when an open zone is reached while the total weight is zero |
| XDistribution.PickNone | src/algorithms/x_distribution.py:183-195 | no zone is chosen exactly when every open zone fails the balance test |
| XDistribution.PickSome | src/algorithms/x_distribution.py:151-192 | a chosen zone is open and balanced, and every open zone tried before it was unbalanced |
| XDistribution.BalanceNeverRejects | src/algorithms/x_distribution.py:188-191 | with non-negative weights and factor the balance ratio is at most 1, so the test never rejects a zone |
| XDistribution.PickFirstOpen | src/algorithms/x_distribution.py:151-195 | with non-negative weights and factor the chosen zone is the first open one in the order, and none is chosen exactly when no zone is open |
| XDistribution.LoadPallets | src/algorithms/x_distribution.py:41-121 | a bad or zero zone count or a bad factor fails before loading; a negative count fails on the first pallet; on success the pallets are tried heaviest first and the trailer grows by exactly the accepted ones, each with a zone below the count; the zone weights follow the ledger of credits; without repeated or loaded pallets every turn is the zone choice over the running zone weights and the fallback's attempt in that zone on the trailer as the earlier turns left it, a failure is the zone choice of the next turn, and a consistent trailer stays consistent |
| XDistribution.LoadZones | src/algorithms/x_distribution.py:72-118 | the loop over the sorted pallets: with no zones it fails exactly on a non-empty list; on success every pallet had its turn; the ledger and the zones of the accepted pallets; without repeated or loaded pallets every turn is `Turn` on the trailer as the earlier turns left it (`Zoned`), and a failure is the next turn's zone choice (`Stuck`) |
| XDistribution.Tally | src/algorithms/x_distribution.py:86-89 | after a turn, the zone list and the zone weights are those of the accepted pallets: an accepted pallet's weight goes to its zone's accumulator |
| XDistribution.LoadOne | src/algorithms/x_distribution.py:72-118 | one turn keeps the loop's progress one pallet further, including `Zoned`, or fails exactly where the zone choice fails, recorded by `Stuck`; with no zones it always fails |
| XDistribution.PlaceInZone | src/algorithms/x_distribution.py:76-116 | after the zone choice returned `z`, the turn keeps the loop's progress one pallet further: the attempt is the fallback's in zone `z`, or none without a zone, and the ledger credits the zone |
| XDistribution.ZoneLoop | src/algorithms/x_distribution.py:72-118 | the `for` loop stops at the first failed zone choice, which `Stuck` records, and otherwise gives every pallet its turn; with no zones nothing is attempted |
| XDistribution.TakeTurn | src/algorithms/x_distribution.py:74-118 | given the zone choice of the turn: an error ends the loop with it and changes nothing; otherwise the placement half follows |
| XDistribution.StuckAt | src/algorithms/x_distribution.py:72-74 | a zone choice that fails on the trailer the loop describes is the failure `Stuck` records |
| XDistribution.Advance | src/algorithms/x_distribution.py:76-116 | the attempt in the chosen zone is a `Turn` on the trailer as the earlier turns left it; the list and grid grow by the pallet exactly when it is accepted |
| XDistribution.TryZone | src/algorithms/x_distribution.py:76-116 | no zone means no attempt; otherwise the fallback in that zone, with the pallet appended exactly when accepted and the trailer's invariant kept |
| XDistribution.ZonedStep | src/algorithms/x_distribution.py:72-118 | one more turn on the trailer as the earlier turns left it extends `Zoned` |
| XDistribution.TalliedStep | src/algorithms/x_distribution.py:86-89 | one more turn extends the accepted list, the zone list and the zone weights consistently with the ledger |
| XDistribution.BooksStep | src/algorithms/x_distribution.py:72-118 | one more turn extends the books: the tallies, the grid copy and, without repeated or loaded pallets, `Zoned` |
| YDistribution.Turned | src/algorithms/y_distribution.py:55-59 | an L10 pallet keeps its rotation; every other ends at 90 degrees |
| YDistribution.TurnedIdempotent | src/algorithms/y_distribution.py:55-59 | turning twice is turning once |
| YDistribution.PreRotate | src/algorithms/y_distribution.py:55-59 | every pallet ends with the turned rotation and keeps its position; pallets outside the list keep their state |
| YDistribution.StrideAt | src/algorithms/y_distribution.py:78 | entry `k` of `xs[i::n]` is `xs[i + k*n]` |
| YDistribution.StridesCover | src/algorithms/y_distribution.py:73-78 | every pallet falls in the slice of its index modulo the zone count |
| YDistribution.StridesApart | src/algorithms/y_distribution.py:73-78 | two different slices share no pallet of a list without repetitions |
| YDistribution.ZonePallets | src/algorithms/y_distribution.py:78 | a zone gets a permutation of its slice, heaviest first |
| YDistribution.BandsTile | src/algorithms/y_distribution.py:69-75 | the bands start at 0, end at the trailer width, meet edge to edge and lie within the width |
| YDistribution.LoadPallets | src/algorithms/y_distribution.py:42-85 | the pre-rotation runs first; a bad or zero zone count fails before loading and a negative one loads nothing; otherwise the trailer grows by the zones' accepted pallets in zone order; without repeated or loaded pallets every zone is the greedy loop with its band finder, on the trailer as the earlier zones left it, its pallets started turned from their states at the call (`Spread`), the boxes grow by what the zones placed, and a consistent trailer stays consistent |
| YDistribution.Distribute | src/algorithms/y_distribution.py:62-85 | the pallets are sorted by volume, largest first; the zone count's outcome as above; without repeated or loaded pallets and with zones, `Spread` from the trailer and the pallet states at the call |
| YDistribution.LoadZones | src/algorithms/y_distribution.py:73-82 | every zone in turn gets its slice; without repeated or loaded pallets zone `k` is the greedy loop with band `k`'s finder on the trailer as zones `0..k-1` left it, its pallets started from their states before the loop |
| YDistribution.LoadBand | src/algorithms/y_distribution.py:87-140 | zone `i` extends the record, and the pallets of the later zones keep the states they had before the loop |
| YDistribution.PlaceBand | src/algorithms/y_distribution.py:87-140 | zone `i`'s pallets through the greedy loop with band `i`'s finder extend the record, started from their states before the call |
| YDistribution.BandRecordStep | src/algorithms/y_distribution.py:73-82 | a zone whose greedy loop ran on the trailer as the earlier zones left it extends the zone loop's record (`BandRecord`) |
| YDistribution.ZonesApart | src/algorithms/y_distribution.py:78 | without repeats in the list, two zones share no pallet |
| YDistribution.StartedSnoc | src/algorithms/y_distribution.py:78-81 | recording a zone's start states extends `Started` |
| YDistribution.GroupFree | src/algorithms/y_distribution.py:78-81 | a zone's pallets are distinct and not yet on the trailer |
| ZDistribution.WithHeight | src/algorithms/z_distribution.py:94-98 | the pallets of the list with exactly that height |
| ZDistribution.Heights | src/algorithms/z_distribution.py:94-98 | each occurring height once, and only occurring ones |
| ZDistribution.GroupedPartition | src/algorithms/z_distribution.py:82-100 | every pallet is in the group of its height, and every group holds only input pallets of its height and is non-empty |
| ZDistribution.GroupByHeight | src/algorithms/z_distribution.py:82-100 | the loop builds exactly the grouping `Grouped` of the list, so every pallet is in the group of its height |
| ZDistribution.BuiltGrouped | src/algorithms/z_distribution.py:94-98 | the dictionary the loop builds after any prefix groups exactly that prefix by height |
| ZDistribution.Gather | src/algorithms/z_distribution.py:123-126 | the pallets of the groups whose height fits the layer, and all of them |
| ZDistribution.GatherGrouped | src/algorithms/z_distribution.py:121-138 | gathering from the grouping yields exactly the input pallets no taller than the layer |
| ZDistribution.Keep | src/algorithms/z_distribution.py:132-147 | exactly the pallets that fit the layer and, above the bottom, are under the weight threshold |
| ZDistribution.ThresholdFalls | src/algorithms/z_distribution.py:144 | the weight threshold does not grow from one layer to a higher one |
| ZDistribution.SelectionMeaning | src/algorithms/z_distribution.py:102-149 | a layer's selection is exactly the admitted input pallets, heaviest first at the bottom and lightest first above; it fails only above the bottom for a factor that is not a number |
| ZDistribution.HigherLayersLighter | src/algorithms/z_distribution.py:141-147 | a higher layer admits no pallet a lower one (above the bottom) refuses |
| ZDistribution.SelectForLayer | src/algorithms/z_distribution.py:102-149 | the method computes that selection |
| ZDistribution.LoadPallets | src/algorithms/z_distribution.py:42-80 | a bad layer count fails and a non-positive one loads nothing; otherwise the layers are loaded bottom up, the trailer grows by their accepted pallets in layer order, and the run fails only at the second layer when the factor is not a number; each layer's attempts are over its selection (`Strata`), and each layer is a `Storey` from the trailer the lower layers left: the greedy loop with that layer's finder when its selection is distinct and not yet loaded; a pallet no lower layer selected starts from its state at the call |
| ZDistribution.Distribute | src/algorithms/z_distribution.py:55-80 | the layer count's outcome once the pallets are sorted, with the same `Strata`, `Stacked` and `Origins` record |
| ZDistribution.LoadLayers | src/algorithms/z_distribution.py:66-80 | every layer in turn, stopping at the first bad selection (only the second layer, with a factor that is not a number); the record `Layering` of selections, attempts and trailer states through the layers |
| ZDistribution.NextLayer | src/algorithms/z_distribution.py:66-80 | layer `i`: only the second layer can fail, when the factor is not a number, and then nothing changes; otherwise the layer extends `Layering` |
| ZDistribution.StackLayer | src/algorithms/z_distribution.py:151-202 | layer `i` extends `Layering`: its unselected-before pallets start from their recorded states, and the pallets no layer has selected keep them |
| ZDistribution.PlaceLayer | src/algorithms/z_distribution.py:151-202 | layer `i`'s selection through the greedy loop with the layer finder: the trailer's list grows by the accepted pallets, and `Strata` and `Stacked` gain the layer |
| ZDistribution.LayerStep | src/algorithms/z_distribution.py:151-202 | a layer's greedy loop over its selection extends `Strata` and `Stacked` |
| ZDistribution.StackedSnoc | src/algorithms/z_distribution.py:66-80 | one more `Storey` extends the record of layers |
| ZDistribution.OriginsSnoc | src/algorithms/z_distribution.py:66-80 | one more layer whose fresh pallets start from the recorded states extends `Origins` |
| Loading.Copies | src/algorithms/base_algorithm.py:63-78 | one new pallet per input, pairwise distinct, carrying the input's record at the origin and unrotated |
| Loading.Algorithm.constructor | src/algorithms/base_algorithm.py:23-33 | the strategy keeps its kind, its name and the merged configuration, with a new empty default trailer |
| Loading.Algorithm.LoadPallets | src/algorithms/xy_axis_loading.py:40-103 | each strategy's outcome: the trailer grows by the result, which holds only input pallets; the axis strategy always succeeds; the configuration errors of the others; a consistent trailer stays consistent for all but the layered strategy |
| Loading.Algorithm.Run | src/algorithms/base_algorithm.py:48-86 | the originals are untouched; fresh copies are loaded and the trailer's list becomes the result; with a reset the outcome is consistent for all but the layered strategy |
| Loading.Algorithm.Adopt | src/algorithms/base_algorithm.py:84 | the trailer's list becomes the result; when it already was that list, the loaded states are unchanged |
| Loading.Algorithm.GetStatistics | src/algorithms/base_algorithm.py:88-100 | the pallet count agrees with the efficiency record's, and the overall validity is the conjunction of the two balance tests |
| Loading.EmptyStatistics | src/algorithms/base_algorithm.py:88-100 | an empty trailer reports zero efficiency, no weight, sides balanced and front-to-back not balanced |
| Validation.RowHitsExact | src/utils/validation.py:27-29 | the inner loop reports exactly the later pallets colliding with pallet `i`, in index order |
| Validation.HitsExact | src/utils/validation.py:26-31 | the nested loop reports exactly the colliding pairs `i < j`, in the order the loops meet them |
| Validation.NoCollisionsIffNoOverlap | src/utils/validation.py:13-31 | no collision is reported exactly when no two pallets overlap |
| Validation.NothingHitMeansNoOverlap | src/utils/validation.py:13-31 | when the complete list of colliding pairs is empty, no two pallets overlap |
| Validation.CheckCollision | src/utils/validation.py:13-31 | the method returns exactly the reported pairs |
| Validation.CollisionsFrom | src/utils/validation.py:27-29 | the inner loop returns exactly the row's pairs |
| Validation.FirstSupport | src/utils/validation.py:97-107 | the index of the first supporting pallet, with no support before it |
| Validation.SupportVerdict | src/utils/validation.py:93-125 | a pallet on the floor is never reported by the support search; an unsupported one is reported once; with a first support, it is reported exactly when that support is not stackable or is overloaded |
| Validation.ByHeight | src/utils/validation.py:86 | a stable permutation of the pallets by ascending height |
| Validation.ReportIsOwn | src/utils/validation.py:111-141 | every id reported for a pallet is its own, and it is reported whenever anything is |
| Validation.ReportsHold | src/utils/validation.py:88-142 | an id is reported for a list exactly when a pallet of the list with that id gets a report |
| Validation.FlaggedSnoc | src/utils/validation.py:88-142 | a pallet appended to the list flags an id exactly when the shorter list did or the new pallet carries the id and gets a report |
| Validation.ReportAll | src/utils/validation.py:88-144 | the loop returns exactly the reports of the pallets, in the order given |
| Validation.FlaggedReordered | src/utils/validation.py:86 | which ids are reported does not depend on the order the pallets are checked in |
| Validation.StackingVerdict | src/utils/validation.py:69-144 | an id is reported as badly stacked exactly when some pallet with that id fails the support test or is a fragile pallet with something on top |
| Validation.FloorPalletNotReported | src/utils/validation.py:93-128 | a pallet on the floor that is not fragile, with an id no other pallet carries, is never reported |
| Validation.CheckStackingValidity | src/utils/validation.py:69-144 | the method returns exactly the reports of the pallets in height order |
| Validation.SearchSupport | src/utils/validation.py:93-125 | the support search returns exactly the support report |
| Validation.SearchLoadAbove | src/utils/validation.py:128-142 | the fragility search reports the pallet once exactly when it is fragile and something rests on it |
| Validation.OutOfBounds | src/utils/validation.py:174-177 | nothing is reported exactly when every pallet fits the trailer |
| Validation.CheckBounds | src/utils/validation.py:174-177 | the loop returns exactly the out-of-bounds ids, in order |
| Validation.CheckWeightDistribution | src/utils/validation.py:34-49 | the trailer takes the list, its accumulators are rebuilt from it, and the validity of that distribution is returned |
| Validation.CheckSpaceUtilization | src/utils/validation.py:52-66 | the trailer takes the list and the efficiency of that list is returned, counting every pallet |
| Validation.ValidIffConsistent | src/utils/validation.py:183-186 | no collision, nothing out of bounds and no overload together are exactly the trailer's consistency invariant |
| Validation.ValidateLoading | src/utils/validation.py:147-197 | on the given or a new default trailer, every entry of the report is its check's result, and `valid` holds exactly when the list is consistent, the balance holds and nothing is badly stacked |
| Validation.Inspect | src/utils/validation.py:162-197 | the checks in order: collisions, weight distribution, space use, stacking, bounds, total weight |
| Factory.Join | src/algorithms/algorithm_factory.py:39 | the joined text has the parts' total length plus one separator between each two, and starts with the first part |
| Factory.Resolve | src/algorithms/algorithm_factory.py:30-39 | a name resolves exactly when it is registered, to its registered strategy; otherwise the error names it and lists the registry |
| Factory.GetAlgorithm | src/algorithms/algorithm_factory.py:15-43 | an unregistered name is refused with that message; a registered one gives a new strategy of that kind with the merged configuration and an empty trailer |
| Factory.ListAvailableAlgorithms | src/algorithms/algorithm_factory.py:46-60 | the listing covers exactly the registered names |
| Factory.NamesAreKeys | src/algorithms/algorithm_factory.py:30-35 | the names in the message are the registry's keys, without repetition |
| Factory.UnknownMessageText | src/algorithms/algorithm_factory.py:37-39 | the error text lists the four names, comma-separated, in registry order |
| Factory.ResolveKeyRoundTrip | src/algorithms/algorithm_factory.py:30-39 | looking up a strategy's key gives back that strategy, and a name resolves only to a strategy keyed by it |
| Factory.LayeredNotOffered | src/algorithms/algorithm_factory.py:30-35 | the layered strategy cannot be built through the factory |
| Factory.ListedAreBuildable | src/algorithms/algorithm_factory.py:46-60 | a name is listed exactly when it can be built |

## Left out

- **Reinforcement learning.** The `RL_Loading` strategy is opaque: the factory resolves its name and builds it, but its `load_pallets` (agent, training, model files) is not part of this model, and `Loading.Algorithm.Run` requires a heuristic kind.
- **Side effects.** Logging and file I/O are left out.
- **Floating point.** Floating-point rounding is not modelled: ratios are exact reals, and the finders' keys are exact integers with the same order.
- **Value types.** Configuration values are integers, reals, booleans or strings. Other Python values (None, lists) are not modelled.
- **Uniqueness guards.** The strategies' consistency promises carry the guard that the input pallets are distinct objects and not already loaded (`Placement.Distinct`, `Placement.Disjoint`). The source does not check this.
- `Placement.PlaceAll`: that every attempt is the fallback's choice on the trailer as the earlier attempts left it (`Greedy`) is stated only when the pallets are distinct and none is loaded yet. With a repeated or already loaded pallet, a later attempt moves a box the trailer already holds, and the model does not track the grid and boxes through that.
- `Placement.PlaceOne`, `XYAxis.LoadPallets`: the same guard as `Placement.PlaceAll`.
- `YDistribution.LoadPallets`: the zones are stated to be the greedy loop with their band finders (`Spread`) only under the same guard and with at least one zone.
- `YDistribution.Distribute`, `YDistribution.LoadZones`, `YDistribution.LoadBand`, `YDistribution.PlaceBand`: the same guard as `YDistribution.LoadPallets`.
- `ZDistribution.LoadPallets`: makes no consistency promise. A higher layer can reselect a pallet the trailer already holds. The layer finder then moves that pallet to a position that collides with no loaded box, its own old box included, and that lies in bounds. `add_pallet` then refuses it by self-collision, so the grid keeps the old cells while the list entry has moved. Pallets with a zero extent are the exception: they can be added a second time. The model proves consistency only for the other strategies.
- `ZDistribution.LoadPallets`: a layer that reselects a pallet already on the trailer, or whose selection repeats a pallet, is not stated to be the greedy loop (`Storey` only records what it appended). A pallet that a lower layer selected is not tied to a start state (`Origins`).
- `ZDistribution.Distribute`, `ZDistribution.LoadLayers`, `ZDistribution.NextLayer`, `ZDistribution.StackLayer`, `ZDistribution.PlaceLayer`: the same two limits as `ZDistribution.LoadPallets`.
- **Z is unreachable.** `ZDistributionLoading` cannot be reached from the factory (`Factory.LayeredNotOffered`), as in the source.
- `XDistribution.LoadPallets`: a balancing factor that is not a number is reported before anything is loaded. The source fails only when the first open zone reaches the balance test. So with an empty list, or when no open zone is reached, the source returns its list where the model reports the error.
- `XDistribution.LoadPallets`: that each turn is the zone choice and the fallback in that zone, so that found positions lie within the chosen zone, is stated only when the pallets are distinct and none is loaded yet (`Zoned`, `Stuck`). Without that, the running grid and boxes are not tracked.
- `XDistribution.LoadZones`, `XDistribution.ZoneLoop`, `XDistribution.LoadOne`, `XDistribution.TakeTurn`, `XDistribution.PlaceInZone`: the same guard as `XDistribution.LoadPallets`.
- `Loading.Algorithm.Run`: it promises consistency only with `reset`. Without it, the strategy may see pallets left from an earlier run.
- `Loading.Algorithm.Run`: after the loaded list is overwritten with the result, the weight accumulators and the grid are not rebuilt, as in the source. The model states nothing about them.
- `Container.Trailer.constructor`: requires non-negative dimensions. Python would floor `d // 100 + 1` to zero for a dimension from -100 to -1 and build a zero-length axis; numpy raises only from -101 down. No caller passes a negative dimension.
- `Container.Trailer.FindLowestAvailableHeight`: requires a non-negative corner. The scans call it with one, so Python's negative indexing is not modelled.
- **Snapshots.** The validator's functions are stated over pallet snapshots (`PalletState`). The methods read the pallets themselves.
- **Absent config.** `get_algorithm` with `config=None` is modelled as the empty map.
- **Excluded code.** `src/visualization`, `src/inference`, `src/utils/data_loader.py`, `src/main.py` and `src/config.py` are not part of this model. The constants of `src/config.py` that the core uses appear as Dafny constants.
