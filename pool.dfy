/** The item pool and locked placements built by `SM64World.generate_basic`,
    as values: the Power Star count clamped from the options, the items the
    method appends to the shared pool, and the items it locks into named
    locations instead, with the counting and exclusivity facts about them. */
module Pool {
  import opened Basics
  import opened Items

  /** The per-player option values `generate_basic`, `generate_early` and
      `fill_slot_data` read (`world.<Option>[player].value`). Toggles are
      booleans; `exclamationBoxes` is the choice number of ExclamationBoxes. */
  datatype Options = Options(
    amountOfStars: int,
    enableCoinStars: bool,
    firstBowserStarDoorCost: int,
    basementStarDoorCost: int,
    secondFloorStarDoorCost: int,
    mips1Cost: int,
    mips2Cost: int,
    starsToFinish: int,
    progressiveKeys: bool,
    buddyChecks: bool,
    exclamationBoxes: int,
    areaRandomizer: bool,
    deathLink: bool)

  /** The data tables of the world's item module: `item_table` (name to id)
      and the names of `cannon_item_table`, in the table's order. */
  datatype ItemTables = ItemTables(itemTable: map<string, int>, cannonItemNames: seq<string>)

  /** A location is looked up by its name and its player. */
  type LocationKey = (string, Player)

  /** One `place_locked_item` call: the location and the item locked into it. */
  type Placement = (LocationKey, Item)

  const BasementKey: string := "Basement Key"
  const SecondFloorKey: string := "Second Floor Key"
  const ProgressiveKey: string := "Progressive Key"
  const WingCap: string := "Wing Cap"
  const MetalCap: string := "Metal Cap"
  const VanishCap: string := "Vanish Cap"

  /** The Bob-omb Buddy locations and the cannon each is locked with when
      buddy checks are off, in the order of worlds/sm64ex/__init__.py:99-108. */
  const BuddyLocks: seq<(string, string)> := [
    ("BoB: Bob-omb Buddy", "Cannon Unlock BoB"),
    ("WF: Bob-omb Buddy", "Cannon Unlock WF"),
    ("JRB: Bob-omb Buddy", "Cannon Unlock JRB"),
    ("CCM: Bob-omb Buddy", "Cannon Unlock CCM"),
    ("SSL: Bob-omb Buddy", "Cannon Unlock SSL"),
    ("SL: Bob-omb Buddy", "Cannon Unlock SL"),
    ("WDW: Bob-omb Buddy", "Cannon Unlock WDW"),
    ("TTM: Bob-omb Buddy", "Cannon Unlock TTM"),
    ("THI: Bob-omb Buddy", "Cannon Unlock THI"),
    ("RR: Bob-omb Buddy", "Cannon Unlock RR")]

  /** The 1Up Block locations that get a locked 1Up Mushroom when exclamation
      boxes are off, in the order of worlds/sm64ex/__init__.py:113-141. */
  const OneUpBlockLocations: seq<string> := [
    "CCM: 1Up Block Near Snowman",
    "CCM: 1Up Block Ice Pillar",
    "CCM: 1Up Block Secret Slide",
    "BBH: 1Up Block Top of Mansion",
    "HMC: 1Up Block above Pit",
    "HMC: 1Up Block Past Rolling Rocks",
    "SSL: 1Up Block Outside Pyramid",
    "SSL: 1Up Block Pyramid Left Path",
    "SSL: 1Up Block Pyramid Back",
    "SL: 1Up Block Near Moneybags",
    "SL: 1Up Block inside Igloo",
    "WDW: 1Up Block in Downtown",
    "TTM: 1Up Block on Red Mushroom",
    "THI: 1Up Block THI Small near Start",
    "THI: 1Up Block THI Large near Start",
    "THI: 1Up Block Windy Area",
    "TTC: 1Up Block Midway Up",
    "TTC: 1Up Block at the Top",
    "RR: 1Up Block Top of Red Coin Maze",
    "RR: 1Up Block Under Fly Guy",
    "RR: 1Up Block On House in the Sky",
    "Bowser in the Dark World 1Up Block on Tower",
    "Bowser in the Dark World 1Up Block near Goombas",
    "Cavern of the Metal Cap 1Up Block",
    "Vanish Cap Under the Moat 1Up Block",
    "Bowser in the Fire Sea 1Up Block Swaying Stairs",
    "Bowser in the Fire Sea 1Up Block Near Poles",
    "Wing Mario Over the Rainbow 1Up Block",
    "Bowser in the Sky 1Up Block"]

  /** The number of 1Up Mushrooms pooled when exclamation boxes are on. */
  const ExclamationBoxOneUps: nat := 29

  /** Every name `generate_basic` can pass to `create_item`, under any option
      values, is in `item_table`, so none of its lookups raises. */
  ghost predicate Resolves(t: ItemTables)
  {
    && PowerStar in t.itemTable && OneUpMushroom in t.itemTable
    && BasementKey in t.itemTable && SecondFloorKey in t.itemTable && ProgressiveKey in t.itemTable
    && WingCap in t.itemTable && MetalCap in t.itemTable && VanishCap in t.itemTable
    && (forall i :: 0 <= i < |t.cannonItemNames| ==> t.cannonItemNames[i] in t.itemTable)
    && (forall i :: 0 <= i < |BuddyLocks| ==> BuddyLocks[i].1 in t.itemTable)
  }

  /** `n` stars open every star door, both MIPS catches and the finish. */
  predicate CoversCosts(o: Options, n: int)
  {
    && n >= o.firstBowserStarDoorCost
    && n >= o.basementStarDoorCost
    && n >= o.secondFloorStarDoorCost
    && n >= o.mips1Cost
    && n >= o.mips2Cost
    && n >= o.starsToFinish
  }

  /** The star count before the cost clamp: without coin stars, 15 fewer
      stars exist, but never fewer than 35. */
  function StarBase(o: Options): int
  {
    if !o.enableCoinStars then Max(35, o.amountOfStars - 15) else o.amountOfStars
  }

  /** `starcount` of `generate_basic`: the least number that is at least the
      base count and every cost. */
  function StarCount(o: Options): (n: int)
    ensures CoversCosts(o, n) && n >= StarBase(o)
    ensures n == StarBase(o) || n == o.firstBowserStarDoorCost || n == o.basementStarDoorCost
         || n == o.secondFloorStarDoorCost || n == o.mips1Cost || n == o.mips2Cost || n == o.starsToFinish
    ensures !o.enableCoinStars ==> n >= 35
    ensures o.enableCoinStars && CoversCosts(o, o.amountOfStars) ==> n == o.amountOfStars
    ensures !o.enableCoinStars && CoversCosts(o, StarBase(o)) ==> n == Max(35, o.amountOfStars - 15)
  {
    Max(StarBase(o),
      Max(o.firstBowserStarDoorCost,
        Max(o.basementStarDoorCost,
          Max(o.secondFloorStarDoorCost,
            Max(o.mips1Cost, Max(o.mips2Cost, o.starsToFinish))))))
  }

  /** The upper end of the 1Up range: 120 stars exist, 15 fewer without coin stars. */
  function FillLimit(o: Options): (n: int)
    ensures n == if o.enableCoinStars then 120 else 105
  {
    120 - (if !o.enableCoinStars then 15 else 0)
  }

  /** `create_item(name)` on a name the table knows. */
  function MakeItem(t: ItemTables, name: string, p: Player): (x: Item)
    requires name in t.itemTable
    ensures x.name == name && x.code == t.itemTable[name]
    ensures x.classification == Classify(name) && x.player == p
  {
    CreateItem(t.itemTable, name, p).value
  }

  // The six batches `generate_basic` appends to the pool, in order.

  function StarItems(o: Options, t: ItemTables, p: Player): seq<Item>
    requires Resolves(t)
  {
    Repeat(MakeItem(t, PowerStar, p), RangeLen(0, StarCount(o)))
  }

  function FillerOneUps(o: Options, t: ItemTables, p: Player): seq<Item>
    requires Resolves(t)
  {
    Repeat(MakeItem(t, OneUpMushroom, p), RangeLen(StarCount(o), FillLimit(o)))
  }

  function KeyItems(o: Options, t: ItemTables, p: Player): seq<Item>
    requires Resolves(t)
  {
    if !o.progressiveKeys then [MakeItem(t, BasementKey, p), MakeItem(t, SecondFloorKey, p)]
    else Repeat(MakeItem(t, ProgressiveKey, p), RangeLen(0, 2))
  }

  function CapItems(t: ItemTables, p: Player): seq<Item>
    requires Resolves(t)
  {
    [MakeItem(t, WingCap, p), MakeItem(t, MetalCap, p), MakeItem(t, VanishCap, p)]
  }

  function CannonItems(o: Options, t: ItemTables, p: Player): seq<Item>
    requires Resolves(t)
  {
    if o.buddyChecks then
      seq(|t.cannonItemNames|, i requires 0 <= i < |t.cannonItemNames| => MakeItem(t, t.cannonItemNames[i], p))
    else []
  }

  function BoxOneUps(o: Options, t: ItemTables, p: Player): seq<Item>
    requires Resolves(t)
  {
    if o.exclamationBoxes > 0 then Repeat(MakeItem(t, OneUpMushroom, p), RangeLen(0, ExclamationBoxOneUps)) else []
  }

  /** Everything `generate_basic` appends to `world.itempool`, in order. */
  function BasicPool(o: Options, t: ItemTables, p: Player): seq<Item>
    requires Resolves(t)
  {
    StarItems(o, t, p) + FillerOneUps(o, t, p) + KeyItems(o, t, p) + CapItems(t, p)
      + CannonItems(o, t, p) + BoxOneUps(o, t, p)
  }

  /** Appending the batches one after another appends the whole pool. */
  lemma BasicPoolInBatches(pool: seq<Item>, o: Options, t: ItemTables, p: Player)
    requires Resolves(t)
    ensures pool + StarItems(o, t, p) + FillerOneUps(o, t, p) + KeyItems(o, t, p) + CapItems(t, p)
      + CannonItems(o, t, p) + BoxOneUps(o, t, p) == pool + BasicPool(o, t, p)
  {
  }

  /** The `place_locked_item` calls on Bob-omb Buddy locations, in order. */
  function BuddyPlacements(o: Options, t: ItemTables, p: Player): seq<Placement>
    requires Resolves(t)
  {
    if o.buddyChecks then []
    else seq(|BuddyLocks|, i requires 0 <= i < |BuddyLocks| => ((BuddyLocks[i].0, p), MakeItem(t, BuddyLocks[i].1, p)))
  }

  /** The `place_locked_item` calls on 1Up Block locations, in order. */
  function BlockPlacements(o: Options, t: ItemTables, p: Player): seq<Placement>
    requires Resolves(t)
  {
    if o.exclamationBoxes > 0 then []
    else
      seq(|OneUpBlockLocations|, i requires 0 <= i < |OneUpBlockLocations| =>
        ((OneUpBlockLocations[i], p), MakeItem(t, OneUpMushroom, p)))
  }

  /** All `place_locked_item` calls of `generate_basic`, in order. */
  function LockedPlacements(o: Options, t: ItemTables, p: Player): seq<Placement>
    requires Resolves(t)
  {
    BuddyPlacements(o, t, p) + BlockPlacements(o, t, p)
  }

  /** No location name occurs twice among the locked locations, and no
      Bob-omb Buddy location is a 1Up Block location. */
  lemma LockedLocationsDistinct()
    ensures forall i, j :: 0 <= i < j < |BuddyLocks| ==> BuddyLocks[i].0 != BuddyLocks[j].0
    ensures forall i, j :: 0 <= i < j < |OneUpBlockLocations| ==> OneUpBlockLocations[i] != OneUpBlockLocations[j]
    ensures forall i, j :: 0 <= i < |BuddyLocks| && 0 <= j < |OneUpBlockLocations| ==> BuddyLocks[i].0 != OneUpBlockLocations[j]
  {
    BuddyLocationsDistinct();
    BlockLocationsDistinct();
    BuddyAndBlockLocationsDisjoint();
  }

  lemma BuddyLocationsDistinct()
    ensures forall i, j :: 0 <= i < j < |BuddyLocks| ==> BuddyLocks[i].0 != BuddyLocks[j].0
  {
  }

  lemma BlockLocationsDistinct()
    ensures forall i, j :: 0 <= i < j < |OneUpBlockLocations| ==> OneUpBlockLocations[i] != OneUpBlockLocations[j]
  {
  }

  lemma BuddyAndBlockLocationsDisjoint()
    ensures forall i, j :: 0 <= i < |BuddyLocks| && 0 <= j < |OneUpBlockLocations| ==> BuddyLocks[i].0 != OneUpBlockLocations[j]
  {
  }

  /** The counts of the first two batches: `range(0, starcount)` stars and
      `range(starcount, L)` 1Ups, together `max(starcount, L)` items. */
  lemma StarAndFillerSizes(o: Options, t: ItemTables, p: Player)
    requires Resolves(t)
    ensures |StarItems(o, t, p)| == RangeLen(0, StarCount(o))
    ensures |FillerOneUps(o, t, p)| == RangeLen(StarCount(o), FillLimit(o))
    ensures StarCount(o) >= 0 ==> |StarItems(o, t, p)| + |FillerOneUps(o, t, p)| == Max(StarCount(o), FillLimit(o))
  {
  }

  /** Counting a name in the pool is counting it batch by batch. */
  lemma {:induction false} CountInPool(o: Options, t: ItemTables, p: Player, name: string)
    requires Resolves(t)
    ensures CountNamed(BasicPool(o, t, p), name)
         == CountNamed(StarItems(o, t, p), name) + CountNamed(FillerOneUps(o, t, p), name)
          + CountNamed(KeyItems(o, t, p), name) + CountNamed(CapItems(t, p), name)
          + CountNamed(CannonItems(o, t, p), name) + CountNamed(BoxOneUps(o, t, p), name)
  {
    var s, f, k, c := StarItems(o, t, p), FillerOneUps(o, t, p), KeyItems(o, t, p), CapItems(t, p);
    var n, b := CannonItems(o, t, p), BoxOneUps(o, t, p);
    CountNamedAppend(s, f, name);
    CountNamedAppend(s + f, k, name);
    CountNamedAppend(s + f + k, c, name);
    CountNamedAppend(s + f + k + c, n, name);
    CountNamedAppend(s + f + k + c + n, b, name);
  }

  /** Per-batch counts of a name that is not a cannon item name (or buddy
      checks are off). */
  lemma BatchCounts(o: Options, t: ItemTables, p: Player, name: string)
    requires Resolves(t)
    requires o.buddyChecks ==> name !in t.cannonItemNames
    ensures CountNamed(StarItems(o, t, p), name) == if name == PowerStar then RangeLen(0, StarCount(o)) else 0
    ensures CountNamed(FillerOneUps(o, t, p), name)
         == if name == OneUpMushroom then RangeLen(StarCount(o), FillLimit(o)) else 0
    ensures CountNamed(BoxOneUps(o, t, p), name)
         == if name == OneUpMushroom && o.exclamationBoxes > 0 then ExclamationBoxOneUps else 0
    ensures CountNamed(CannonItems(o, t, p), name) == 0
    ensures CountNamed(KeyItems(o, t, p), name)
         == if o.progressiveKeys then (if name == ProgressiveKey then 2 else 0)
            else (if name == BasementKey then 1 else 0) + (if name == SecondFloorKey then 1 else 0)
    ensures CountNamed(CapItems(t, p), name)
         == (if name == WingCap then 1 else 0) + (if name == MetalCap then 1 else 0) + (if name == VanishCap then 1 else 0)
  {
    RepeatedBatchCounts(o, t, p, name);
    KeyAndCapBatchCounts(o, t, p, name);
    CannonBatchCount(o, t, p, name);
  }

  /** Counts in the three batches of repeated items. */
  lemma RepeatedBatchCounts(o: Options, t: ItemTables, p: Player, name: string)
    requires Resolves(t)
    ensures CountNamed(StarItems(o, t, p), name) == if name == PowerStar then RangeLen(0, StarCount(o)) else 0
    ensures CountNamed(FillerOneUps(o, t, p), name)
         == if name == OneUpMushroom then RangeLen(StarCount(o), FillLimit(o)) else 0
    ensures CountNamed(BoxOneUps(o, t, p), name)
         == if name == OneUpMushroom && o.exclamationBoxes > 0 then ExclamationBoxOneUps else 0
  {
    CountNamedRepeat(MakeItem(t, PowerStar, p), RangeLen(0, StarCount(o)), name);
    CountNamedRepeat(MakeItem(t, OneUpMushroom, p), RangeLen(StarCount(o), FillLimit(o)), name);
    CountNamedRepeat(MakeItem(t, OneUpMushroom, p), RangeLen(0, ExclamationBoxOneUps), name);
  }

  /** Counts in the key batch and the cap batch. */
  lemma KeyAndCapBatchCounts(o: Options, t: ItemTables, p: Player, name: string)
    requires Resolves(t)
    ensures CountNamed(KeyItems(o, t, p), name)
         == if o.progressiveKeys then (if name == ProgressiveKey then 2 else 0)
            else (if name == BasementKey then 1 else 0) + (if name == SecondFloorKey then 1 else 0)
    ensures CountNamed(CapItems(t, p), name)
         == (if name == WingCap then 1 else 0) + (if name == MetalCap then 1 else 0) + (if name == VanishCap then 1 else 0)
  {
    var wing, metal, vanish := MakeItem(t, WingCap, p), MakeItem(t, MetalCap, p), MakeItem(t, VanishCap, p);
    assert CapItems(t, p) == [wing] + ([metal] + ([vanish] + []));
    CountNamedCons(vanish, [], name);
    CountNamedCons(metal, [vanish], name);
    CountNamedCons(wing, [metal, vanish], name);
    if o.progressiveKeys {
      CountNamedRepeat(MakeItem(t, ProgressiveKey, p), 2, name);
    } else {
      var k1, k2 := MakeItem(t, BasementKey, p), MakeItem(t, SecondFloorKey, p);
      assert KeyItems(o, t, p) == [k1] + ([k2] + []);
      CountNamedCons(k2, [], name);
      CountNamedCons(k1, [k2], name);
    }
  }

  /** A name that is not a pooled cannon item name is not in the cannon batch. */
  lemma CannonBatchCount(o: Options, t: ItemTables, p: Player, name: string)
    requires Resolves(t)
    requires o.buddyChecks ==> name !in t.cannonItemNames
    ensures CountNamed(CannonItems(o, t, p), name) == 0
  {
    var n := CannonItems(o, t, p);
    assert forall i :: 0 <= i < |n| ==> n[i].name == t.cannonItemNames[i];
    CountNamedAll(n, name);
  }

  /** Exactly `starcount` Power Stars are pooled (none if it is negative). */
  lemma PowerStarCount(o: Options, t: ItemTables, p: Player)
    requires Resolves(t)
    requires o.buddyChecks ==> PowerStar !in t.cannonItemNames
    ensures CountNamed(BasicPool(o, t, p), PowerStar) == RangeLen(0, StarCount(o))
  {
    CountInPool(o, t, p, PowerStar);
    BatchCounts(o, t, p, PowerStar);
  }

  /** The 1Ups pooled: those filling `range(starcount, L)`, plus 29 when
      exclamation boxes are on. */
  lemma OneUpCount(o: Options, t: ItemTables, p: Player)
    requires Resolves(t)
    requires o.buddyChecks ==> OneUpMushroom !in t.cannonItemNames
    ensures CountNamed(BasicPool(o, t, p), OneUpMushroom)
         == RangeLen(StarCount(o), FillLimit(o)) + (if o.exclamationBoxes > 0 then ExclamationBoxOneUps else 0)
  {
    CountInPool(o, t, p, OneUpMushroom);
    BatchCounts(o, t, p, OneUpMushroom);
  }

  /** Two keys are pooled: one Basement and one Second Floor Key, or two
      Progressive Keys when progressive keys are on. */
  lemma KeyCounts(o: Options, t: ItemTables, p: Player)
    requires Resolves(t)
    requires o.buddyChecks ==>
      BasementKey !in t.cannonItemNames && SecondFloorKey !in t.cannonItemNames && ProgressiveKey !in t.cannonItemNames
    ensures var pool := BasicPool(o, t, p);
      && CountNamed(pool, BasementKey) == (if o.progressiveKeys then 0 else 1)
      && CountNamed(pool, SecondFloorKey) == (if o.progressiveKeys then 0 else 1)
      && CountNamed(pool, ProgressiveKey) == (if o.progressiveKeys then 2 else 0)
  {
    var names := [BasementKey, SecondFloorKey, ProgressiveKey];
    forall i | 0 <= i < 3 ensures CountNamed(BasicPool(o, t, p), names[i]) == if o.progressiveKeys then (if i == 2 then 2 else 0) else (if i == 2 then 0 else 1) {
      CountInPool(o, t, p, names[i]);
      BatchCounts(o, t, p, names[i]);
    }
    assert names[0] == BasementKey && names[1] == SecondFloorKey && names[2] == ProgressiveKey;
  }

  /** Each of the three caps is pooled exactly once. */
  lemma CapCounts(o: Options, t: ItemTables, p: Player)
    requires Resolves(t)
    requires o.buddyChecks ==>
      WingCap !in t.cannonItemNames && MetalCap !in t.cannonItemNames && VanishCap !in t.cannonItemNames
    ensures var pool := BasicPool(o, t, p);
      CountNamed(pool, WingCap) == 1 && CountNamed(pool, MetalCap) == 1 && CountNamed(pool, VanishCap) == 1
  {
    var caps := [WingCap, MetalCap, VanishCap];
    forall i | 0 <= i < 3 ensures CountNamed(BasicPool(o, t, p), caps[i]) == 1 {
      CountInPool(o, t, p, caps[i]);
      BatchCounts(o, t, p, caps[i]);
    }
    assert caps[0] == WingCap && caps[1] == MetalCap && caps[2] == VanishCap;
  }

  /** The doors, the MIPS catches and the finish never ask for more Power
      Stars than the pool holds. */
  lemma StarsCoverCosts(o: Options, t: ItemTables, p: Player)
    requires Resolves(t)
    requires o.buddyChecks ==> PowerStar !in t.cannonItemNames
    ensures CoversCosts(o, CountNamed(BasicPool(o, t, p), PowerStar))
  {
    PowerStarCount(o, t, p);
  }

  /** With buddy checks on, the whole cannon table is pooled and no buddy
      location is locked; with them off, no cannon item is pooled and each
      buddy location holds its own course's cannon unlock. */
  lemma BuddyExclusive(o: Options, t: ItemTables, p: Player, m: map<LocationKey, Item>)
    requires Resolves(t)
    ensures o.buddyChecks ==> Names(CannonItems(o, t, p)) == t.cannonItemNames
    ensures o.buddyChecks ==> forall i :: 0 <= i < |BuddyLocks| ==>
      (BuddyLocks[i].0, p) !in KeysOf(LockedPlacements(o, t, p))
    ensures !o.buddyChecks ==> CannonItems(o, t, p) == []
    ensures !o.buddyChecks ==> forall i :: 0 <= i < |BuddyLocks| ==>
      var key := (BuddyLocks[i].0, p);
      key in Placed(m, LockedPlacements(o, t, p))
      && Placed(m, LockedPlacements(o, t, p))[key] == MakeItem(t, BuddyLocks[i].1, p)
  {
    LockedLocationsDistinct();
    var ps := LockedPlacements(o, t, p);
    var bud, blk := BuddyPlacements(o, t, p), BlockPlacements(o, t, p);
    if !o.buddyChecks {
      forall i | 0 <= i < |BuddyLocks|
        ensures (BuddyLocks[i].0, p) in Placed(m, ps)
        ensures Placed(m, ps)[(BuddyLocks[i].0, p)] == MakeItem(t, BuddyLocks[i].1, p)
      {
        assert ps[i] == bud[i];
        forall j | i < j < |ps| ensures ps[j].0 != ps[i].0 {
          if j < |bud| { assert ps[j] == bud[j]; } else { assert ps[j] == blk[j - |bud|]; }
        }
        PlacedLastWins(m, ps, i);
      }
    }
  }

  /** With exclamation boxes on, 29 more 1Ups are pooled and no 1Up Block
      location is locked; with them off, nothing is pooled by this step and
      each 1Up Block location holds a locked 1Up Mushroom. */
  lemma BlockExclusive(o: Options, t: ItemTables, p: Player, m: map<LocationKey, Item>)
    requires Resolves(t)
    ensures o.exclamationBoxes > 0 ==>
      |BoxOneUps(o, t, p)| == ExclamationBoxOneUps
      && forall i :: 0 <= i < |BoxOneUps(o, t, p)| ==> BoxOneUps(o, t, p)[i] == MakeItem(t, OneUpMushroom, p)
    ensures o.exclamationBoxes > 0 ==> forall i :: 0 <= i < |OneUpBlockLocations| ==>
      (OneUpBlockLocations[i], p) !in KeysOf(LockedPlacements(o, t, p))
    ensures o.exclamationBoxes <= 0 ==> BoxOneUps(o, t, p) == []
    ensures o.exclamationBoxes <= 0 ==> forall i :: 0 <= i < |OneUpBlockLocations| ==>
      var key := (OneUpBlockLocations[i], p);
      key in Placed(m, LockedPlacements(o, t, p))
      && Placed(m, LockedPlacements(o, t, p))[key] == MakeItem(t, OneUpMushroom, p)
  {
    LockedLocationsDistinct();
    var ps := LockedPlacements(o, t, p);
    var bud, blk := BuddyPlacements(o, t, p), BlockPlacements(o, t, p);
    if o.exclamationBoxes <= 0 {
      forall i | 0 <= i < |OneUpBlockLocations|
        ensures (OneUpBlockLocations[i], p) in Placed(m, ps)
        ensures Placed(m, ps)[(OneUpBlockLocations[i], p)] == MakeItem(t, OneUpMushroom, p)
      {
        var k := |bud| + i;
        assert ps[k] == blk[i];
        forall j | k < j < |ps| ensures ps[j].0 != ps[k].0 {
          assert ps[j] == blk[j - |bud|];
        }
        PlacedLastWins(m, ps, k);
      }
    }
  }

  /** `generate_basic` locks nothing outside this player's Bob-omb Buddy and
      1Up Block locations. */
  lemma OtherLocationsUntouched(o: Options, t: ItemTables, p: Player, m: map<LocationKey, Item>, k: LocationKey)
    requires Resolves(t)
    requires k.1 != p || (k.0 !in OneUpBlockLocations && forall i :: 0 <= i < |BuddyLocks| ==> BuddyLocks[i].0 != k.0)
    ensures k in Placed(m, LockedPlacements(o, t, p)) <==> k in m
    ensures k in m ==> Placed(m, LockedPlacements(o, t, p))[k] == m[k]
  {
    var ps := LockedPlacements(o, t, p);
    var bud, blk := BuddyPlacements(o, t, p), BlockPlacements(o, t, p);
    PlacedElsewhere(m, ps, k);
  }

  /** Pooled items plus locked placements do not depend on the buddy and
      exclamation-box toggles: with one cannon item per buddy location, a
      location either gets its item locked or the item enters the pool. */
  lemma PoolPlusLocked(o: Options, t: ItemTables, p: Player)
    requires Resolves(t)
    requires |t.cannonItemNames| == |BuddyLocks|
    requires StarCount(o) >= 0
    ensures |BasicPool(o, t, p)| + |LockedPlacements(o, t, p)|
         == Max(StarCount(o), FillLimit(o)) + 2 + 3 + |BuddyLocks| + |OneUpBlockLocations|
  {
    StarAndFillerSizes(o, t, p);
  }
}
