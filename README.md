# Super Mario 64 world of the Archipelago multiworld randomizer, in Dafny

This project models the world class `SM64World` of the Super Mario 64 (sm64ex)
integration of Archipelago, and proves properties of the model. The modelled
parts are:

- how items are created and classified (`create_item`, `get_filler_item_name`);
- how the item pool and the locked items are built (`generate_basic`);
- the spoiler entries written when area randomisation is on (`set_rules`);
- the slot data handed to the game client (`fill_slot_data`);
- the one-player guard of `generate_output`;
- the entrance hint table stored in the multidata (`modify_multidata`).

The project has five modules, one per file:

- `Basics` (basics.dfy): an Option type, Python's `max` and `range` lengths,
  repeated lists, and `Placed`. `Placed` is what a dictionary holds after a
  sequence of `d[k] = v` assignments: a later assignment to a key overwrites
  an earlier one.
- `Items` (items.dfy): items, their classification, and counting items by name.
- `Pool` (pool.dfy): `generate_basic` as values. This covers the clamped
  Power Star count, the six batches appended to `world.itempool`, and the
  `place_locked_item` calls made on the Bob-omb Buddy and 1Up Block locations.
  It also holds the counting and exclusivity lemmas about them.
- `Hints` (hints.dfy): the spoiler entries and the `er_hint_data` table as
  values. Every dictionary or list lookup that can raise in the Python code
  gives `None` here.
- `Adapter` (world.dfy): the imperative side. `MultiWorld` is a class with
  the fields the world changes (the item pool, the locked placements and the
  spoiler entrances), and with the regions as a read-only input. `SM64World`
  is a class with the world's lifecycle methods, and `Multidata` holds the
  `er_hint_data` part of the multidata. Each method's `ensures` ties the new
  state to the functions of `Pool` and `Hints`.

The surrounding engine, the option objects and the data tables of the
world's other modules become parameters and record fields:

- `item_table` and `cannon_item_table` become `ItemTables`;
- `sm64_internalloc_to_string`, `sm64_internalloc_to_regionid` and
  `sm64courses` become `AreaTables`;
- the regions built by `create_regions` become `MultiWorld.regions`;
- the option values become `Options`.

The area connections chosen by the rules module are the argument of
`SetRules`. The connections dictionary is modelled as its list of
(entrance, destination) items in insertion order.

## Model

| member | source | states |
|---|---|---|
| Items.Classify | worlds/sm64ex/__init__.py:63-68 | "1Up Mushroom" is filler, "Power Star" is progression that skips balancing, and every other name is progression, each as an if-and-only-if |
| Items.CreateItem | worlds/sm64ex/__init__.py:61-71 | An item is created exactly when the name is in the item table (otherwise KeyError). It carries that name, the table's id, the classification of `Classify` and the world's player |
| Items.FillerItemName | worlds/sm64ex/__init__.py:143-144 | The filler name the engine pads the pool with is classified as filler |
| Pool.StarCount | worlds/sm64ex/__init__.py:74-80 | The star count covers every door cost, both MIPS costs and the finish, and is at least the base count. It equals one of those candidates. Without coin stars it is at least 35. When the base already covers all costs it is the base: AmountOfStars, or max(35, AmountOfStars-15) without coin stars |
| Pool.FillLimit | worlds/sm64ex/__init__.py:82 | The end of the 1Up range is 120, or 105 without coin stars |
| Pool.StarAndFillerSizes | worlds/sm64ex/__init__.py:81-82 | The first batch has `len(range(0, starcount))` stars and the second `len(range(starcount, L))` 1Ups. For a non-negative count they total max(starcount, L) |
| Pool.PowerStarCount | worlds/sm64ex/__init__.py:81 | The pool holds exactly `len(range(0, starcount))` Power Stars when no cannon item is named "Power Star" |
| Pool.OneUpCount | worlds/sm64ex/__init__.py:82 | The pool holds `len(range(starcount, L))` 1Up Mushrooms, plus 29 when exclamation boxes are on, when no pooled cannon item is named "1Up Mushroom" |
| Pool.KeyCounts | worlds/sm64ex/__init__.py:84-89 | One Basement Key and one Second Floor Key are pooled, or exactly two Progressive Keys and neither of the others, when no pooled cannon item carries a key name |
| Pool.CapCounts | worlds/sm64ex/__init__.py:91-94 | The Wing, Metal and Vanish Caps are each pooled exactly once, when no pooled cannon item carries a cap name |
| Pool.StarsCoverCosts | worlds/sm64ex/__init__.py:77-81 | The number of Power Stars in the pool covers every door cost, MIPS cost and the finish cost, when no pooled cannon item is named "Power Star" |
| Pool.BatchCounts | worlds/sm64ex/__init__.py:81-111 | The count of a name in each of the six batches, for any name that is not also a pooled cannon item name |
| Pool.CountInPool | worlds/sm64ex/__init__.py:81-111 | The count of a name in the whole pool is the sum of its counts in the six batches, in the order they are appended |
| Pool.BasicPoolInBatches | worlds/sm64ex/__init__.py:81-111 | Appending the six batches one after another appends the whole `BasicPool` |
| Pool.LockedLocationsDistinct | worlds/sm64ex/__init__.py:99-141 | The ten buddy locations are pairwise distinct, the 29 1Up Block locations are pairwise distinct, and no buddy location is a 1Up Block location |
| Pool.BuddyExclusive | worlds/sm64ex/__init__.py:96-108 | With buddy checks on, the cannon table is pooled in its order and no buddy location is locked. With them off, no cannon item is pooled and each buddy location ends up holding its own course's cannon unlock |
| Pool.BlockExclusive | worlds/sm64ex/__init__.py:110-141 | With exclamation boxes on, 29 1Up Mushrooms are pooled and no 1Up Block location is locked. With them off, nothing is pooled by this step and every 1Up Block location ends up holding a 1Up Mushroom |
| Pool.OtherLocationsUntouched | worlds/sm64ex/__init__.py:96-141 | A location of another player, or one that is neither a buddy nor a 1Up Block location, keeps exactly what it held before |
| Pool.PoolPlusLocked | worlds/sm64ex/__init__.py:81-141 | Pooled items plus locked placements number max(starcount, L) + 2 + 3 + 10 + 29, whatever the buddy and exclamation-box toggles are |
| Adapter.MultiWorld.PlaceLockedItem | worlds/sm64ex/__init__.py:99 | One `place_locked_item` call sets that location's item and changes no other location |
| Adapter.MultiWorld.PlaceLockedItems | worlds/sm64ex/__init__.py:99-108 | A run of `place_locked_item` calls leaves the placements `Placed(old, calls)`, so the last call on a location wins |
| Adapter.MultiWorld.SetEntrance | worlds/sm64ex/__init__.py:56-59 | A `spoiler.set_entrance` call appends its entry to the spoiler's entrance log |
| Adapter.SM64World.GenerateEarly | worlds/sm64ex/__init__.py:44-45 | The topology counts as present exactly when area randomisation is on |
| Adapter.SM64World.SetRules | worlds/sm64ex/__init__.py:50-59 | The connections are stored. With the topology absent, the spoiler log is unchanged. With it present, the log gains `SpoilerLog`'s entries (one per connection, in order, until a name lookup raises), and the call fails exactly when some connection's name is missing |
| Hints.ResolvedPrefix | worlds/sm64ex/__init__.py:55-58 | The number of connections logged: all before it resolve, and the next one, if any, does not |
| Hints.SpoilerLog | worlds/sm64ex/__init__.py:55-59 | One entry per connection before the first whose names do not resolve, "<entrance> Entrance" leading to "<destination>", of direction "entrance". The log stops exactly at that first failing connection, and is complete exactly when every connection's names resolve |
| Pool.MakeItem | worlds/sm64ex/__init__.py:61-71 | `create_item` on a name in the item table: the item has that name, the table's id, `Classify`'s classification and the given player |
| Adapter.SM64World.GenerateBasic | worlds/sm64ex/__init__.py:73-141 | The pool becomes the old pool followed by `BasicPool`, so it only grows and keeps its old items as a prefix. The placements become the old ones after `LockedPlacements`' calls, in source order |
| Adapter.SM64World.AddStarsAndFiller | worlds/sm64ex/__init__.py:74-82 | Appends the stars and then the filler 1Ups |
| Adapter.SM64World.AddKeysAndCaps | worlds/sm64ex/__init__.py:84-94 | Appends the two keys and then the three caps |
| Adapter.SM64World.AddCannons | worlds/sm64ex/__init__.py:96-108 | Appends the cannon batch and makes the buddy location calls; one of the two is empty |
| Adapter.SM64World.AddExclamationBoxes | worlds/sm64ex/__init__.py:110-141 | Appends the 29 1Ups or makes the 1Up Block calls; one of the two is empty |
| Adapter.SM64World.FillSlotData | worlds/sm64ex/__init__.py:146-156 | The slot data carries the stored connections and exactly the option values of the door costs, the MIPS costs, the finish and death link |
| Adapter.SM64World.SlotCostsAffordable | worlds/sm64ex/__init__.py:77-81 | Every star cost reported in the slot data is at most the number of Power Stars pooled, when no pooled cannon item is named "Power Star" |
| Adapter.SM64World.GenerateOutput | worlds/sm64ex/__init__.py:158-162 | Output is produced exactly when the run has one player, and it carries `fill_slot_data`'s value |
| Adapter.SM64World.ModifyMultidata | worlds/sm64ex/__init__.py:179-187 | With the topology absent, the multidata is untouched. With it present, the table is stored for this player exactly when `HintData` is defined, and the multidata is unchanged otherwise |
| Hints.PyIndex | worlds/sm64ex/__init__.py:184 | Python list indexing: defined exactly for indices in `[-len, len)`, and a negative index counts from the end |
| Hints.ConnectionHints | worlds/sm64ex/__init__.py:183-186 | A connection's assignments exist exactly when its region resolves and, if that region has locations, its entrance has a name. They map each of the region's addresses, in order, to that name |
| Hints.HintPairsDefined | worlds/sm64ex/__init__.py:182-186 | The hint table is built exactly when every connection's lookups succeed |
| Hints.ConnectionHintsKeys | worlds/sm64ex/__init__.py:185-186 | A connection assigns exactly the addresses of its destination region |
| Hints.HintDataDomain | worlds/sm64ex/__init__.py:181-186 | The hinted addresses are exactly those in some connection's destination region |
| Hints.HintDataLastWins | worlds/sm64ex/__init__.py:182-186 | An address holds the entrance name of the last connection whose region contains it: a later connection overwrites an earlier one |
| Basics.RangeLen | worlds/sm64ex/__init__.py:81-82 | `len(range(lo, hi))`: hi-lo when lo <= hi, otherwise 0 |
| Basics.Placed | worlds/sm64ex/__init__.py:186 | The keys after the assignments are the old keys plus the assigned ones |
| Basics.PlacedLastWins | worlds/sm64ex/__init__.py:186 | A key holds the value of its last assignment |
| Basics.PlacedUniform | worlds/sm64ex/__init__.py:185-186 | When every assignment writes the same value, each assigned key ends up holding it |
| Basics.PlacedElsewhere | worlds/sm64ex/__init__.py:186 | A key never assigned keeps its old presence and value |
| Basics.PlacedAppend | worlds/sm64ex/__init__.py:182-186 | Assigning two runs in turn is assigning their concatenation |

## Left out

- `generate_output` past its guard (lines 161-177) is not modelled: the `location_to_item` table, the data package, the file name and the JSON file written to disk. This is file I/O plus a walk over engine locations; only the guard and the slot data are modelled.
- `SM64Web`, the class attributes (game name, data version, client version, option definitions) and `create_regions` are not part of this model. They are declarative metadata or a call into the regions module; the regions it builds are the `MultiWorld.regions` parameter.
- The body of the rules module's `set_rules`, which picks the area connections, is not part of this model. Its result is the `connections` argument of `SetRules`.
- The data tables `item_table`, `cannon_item_table`, `location_table`, `sm64courses`, `sm64_internalloc_to_string` and `sm64_internalloc_to_regionid` are not reproduced. They are parameters, so every fact holds for any table contents that meet the stated requires. Those are: `Resolves` (every name `generate_basic` can create is in the item table); for `PoolPlusLocked`, one cannon item per buddy location; and for `PowerStarCount`, `OneUpCount`, `KeyCounts`, `CapCounts`, `StarsCoverCosts` and `SlotCostsAffordable`, with buddy checks on, that no cannon item name equals the name counted.
- Adapter.SM64World.GenerateBasic: requires `Resolves(items)`, that every name it can create under any option values is in the item table. These are the eight fixed names, every cannon item name and every "Cannon Unlock" name of `BuddyLocks`. That the world's own `item_table` holds them all is assumed, not shown: the item module is not part of this model, and lines 81-141 call `create_item` on these names with no guard. The KeyError a table missing one of them would raise part-way through is therefore not modelled, even for option values under which that name is never created (`CreateItem` itself does model the KeyError).
- Adapter.MultiWorld.PlaceLockedItem: the engine's checks in `place_locked_item`, which refuse an already-filled location, and a failing `get_location` are not modelled. A placement simply sets the location's item.
- Adapter.SM64World.AddCannons, Adapter.SM64World.AddExclamationBoxes: the ten and the 29 written-out `place_locked_item` calls are modelled as one run over the literal tables `BuddyLocks` and `OneUpBlockLocations`, which list the same locations and items in the same order.
- Pool.BuddyExclusive: that each buddy location's cannon unlock belongs to the same course is stated only through the literal table `BuddyLocks`, not derived from the course names.
- Adapter.Multidata: only the `er_hint_data` entry of the multidata is modelled, as a map that already exists, so a missing `er_hint_data` key is not modelled.
- Adapter.SM64World.SetRules: `spoiler.set_entrance` is modelled as appending a record to a list. The spoiler's own keying of entrances is not modelled.
- Option values are unbounded integers. The ranges the option classes enforce (for example 35 to 120 stars) are not assumed, except where a lemma says so (`PoolPlusLocked` requires a non-negative star count).
- The multiworld's other players, concurrency and the fill algorithm that later consumes the pool are out of scope.
