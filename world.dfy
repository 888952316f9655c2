/** `SM64World`, the Super Mario 64 world of the multiworld randomizer, and
    the parts of the shared multiworld it changes: the item pool, the locked
    items of locations, the spoiler's entrance log and the multidata hint
    tables. Each lifecycle method is proved against the value-level model
    of modules Pool and Hints. */
module Adapter {
  import opened Basics
  import opened Items
  import opened Pool
  import opened Hints

  /** What `fill_slot_data` hands to the game client. */
  datatype SlotData = SlotData(
    areaRando: seq<Connection>,
    firstBowserDoorCost: int,
    basementDoorCost: int,
    secondFloorDoorCost: int,
    mips1Cost: int,
    mips2Cost: int,
    starsToFinish: int,
    deathLink: bool)

  /** The shared multiworld, as far as this world touches it. */
  class MultiWorld {
    /** `world.players`: the number of players of the run. */
    const players: nat
    /** `world.itempool`: the items the fill algorithm will place. */
    var itempool: seq<Item>
    /** The items locked into locations, by location name and player. */
    var placements: map<LocationKey, Item>
    /** The entrance entries of the spoiler log, in the order written. */
    var spoilerEntrances: seq<SpoilerEntrance>
    /** The regions `create_regions` built, with their locations' addresses. */
    const regions: RegionMap

    constructor (players: nat, regions: RegionMap)
      ensures this.players == players && this.regions == regions
      ensures itempool == [] && placements == map[] && spoilerEntrances == []
    {
      this.players := players;
      this.regions := regions;
      itempool := [];
      placements := map[];
      spoilerEntrances := [];
    }

    /** `get_location(name, player).place_locked_item(item)`. */
    method PlaceLockedItem(location: LocationKey, item: Item)
      modifies this`placements
      ensures placements == old(placements)[location := item]
    {
      placements := placements[location := item];
    }

    /** A run of `place_locked_item` calls, made in order. */
    method PlaceLockedItems(calls: seq<Placement>)
      modifies this`placements
      ensures placements == Placed(old(placements), calls)
    {
      var i := 0;
      while i < |calls|
        invariant 0 <= i <= |calls|
        invariant placements == Placed(old(placements), calls[..i])
      {
        PlaceLockedItem(calls[i].0, calls[i].1);
        assert calls[..i + 1][..i] == calls[..i];
        i := i + 1;
      }
      assert calls[..i] == calls;
    }

    /** `spoiler.set_entrance(entrance, exit, direction, player)`. */
    method SetEntrance(entrance: string, exit: string, direction: string, player: Player)
      modifies this`spoilerEntrances
      ensures spoilerEntrances == old(spoilerEntrances) + [SpoilerEntrance(entrance, exit, direction, player)]
    {
      spoilerEntrances := spoilerEntrances + [SpoilerEntrance(entrance, exit, direction, player)];
    }
  }

  /** The multiworld data the engine serialises; only its `er_hint_data`
      part, per player, is modelled. */
  class Multidata {
    var erHintData: map<Player, map<int, string>>

    constructor ()
      ensures erHintData == map[]
    {
      erHintData := map[];
    }
  }

  class SM64World {
    const world: MultiWorld
    const player: Player
    /** The player's option values, `world.<Option>[player].value`. */
    const options: Options
    const items: ItemTables
    const areas: AreaTables
    var topologyPresent: bool
    var areaConnections: seq<Connection>

    constructor (world: MultiWorld, player: Player, options: Options, items: ItemTables, areas: AreaTables)
      ensures this.world == world && this.player == player && this.options == options
      ensures this.items == items && this.areas == areas
      ensures !topologyPresent && areaConnections == []
    {
      this.world := world;
      this.player := player;
      this.options := options;
      this.items := items;
      this.areas := areas;
      topologyPresent := false;
      areaConnections := [];
    }

    /** `generate_early`: the topology counts as randomised exactly when
        area randomisation is on. */
    method GenerateEarly()
      modifies this`topologyPresent
      ensures topologyPresent == options.areaRandomizer
    {
      topologyPresent := options.areaRandomizer;
    }

    /** `set_rules`, given the connections the rules module chose: the
        connections are kept, and when the topology is randomised each one is
        written to the spoiler log until a name lookup raises (`ok` false). */
    method SetRules(connections: seq<Connection>) returns (ok: bool)
      modifies this`areaConnections, world`spoilerEntrances
      ensures areaConnections == connections
      ensures !topologyPresent ==> ok && world.spoilerEntrances == old(world.spoilerEntrances)
      ensures topologyPresent ==>
        world.spoilerEntrances == old(world.spoilerEntrances) + SpoilerLog(connections, areas.locationNames, player)
      ensures topologyPresent ==>
        (ok <==> forall i :: 0 <= i < |connections| ==> Named(connections[i], areas.locationNames))
    {
      areaConnections := connections;
      ok := true;
      if topologyPresent {
        var names := areas.locationNames;
        var i := 0;
        while i < |connections|
          invariant 0 <= i <= |connections|
          invariant areaConnections == connections
          invariant forall k :: 0 <= k < i ==> Named(connections[k], names)
          invariant world.spoilerEntrances == old(world.spoilerEntrances)
            + seq(i, k requires 0 <= k < i => EntranceEntry(connections[k], names, player))
        {
          var c := connections[i];
          if c.entrance !in names || c.destination !in names {
            ok := false;
            break;
          }
          ghost var before := world.spoilerEntrances;
          world.SetEntrance(names[c.entrance] + " Entrance", names[c.destination], "entrance", player);
          assert seq(i + 1, k requires 0 <= k < i + 1 => EntranceEntry(connections[k], names, player))
              == seq(i, k requires 0 <= k < i => EntranceEntry(connections[k], names, player))
                 + [EntranceEntry(c, names, player)];
          i := i + 1;
        }
        assert i == ResolvedPrefix(connections, names);
      }
    }

    /** `generate_basic`: appends exactly the batches of `BasicPool` to the
        item pool, in order, and makes exactly the `place_locked_item` calls
        of `LockedPlacements`, in order. */
    method GenerateBasic()
      requires Resolves(items)
      modifies world`itempool, world`placements
      ensures world.itempool == old(world.itempool) + BasicPool(options, items, player)
      ensures world.placements == Placed(old(world.placements), LockedPlacements(options, items, player))
    {
      ghost var pool0, placed0 := world.itempool, world.placements;
      AddStarsAndFiller();
      AddKeysAndCaps();
      AddCannons();
      AddExclamationBoxes();
      BasicPoolInBatches(pool0, options, items, player);
      PlacedAppend(placed0, BuddyPlacements(options, items, player), BlockPlacements(options, items, player));
    }

    /** The clamped number of Power Stars, then 1Ups up to 120 (105 without
        coin stars). */
    method AddStarsAndFiller()
      requires Resolves(items)
      modifies world`itempool
      ensures world.itempool == old(world.itempool) + StarItems(options, items, player) + FillerOneUps(options, items, player)
    {
      var starcount := StarCount(options);
      world.itempool := world.itempool + Repeat(MakeItem(items, PowerStar, player), RangeLen(0, starcount));
      world.itempool := world.itempool
        + Repeat(MakeItem(items, OneUpMushroom, player), RangeLen(starcount, FillLimit(options)));
    }

    /** The two keys and the three caps. */
    method AddKeysAndCaps()
      requires Resolves(items)
      modifies world`itempool
      ensures world.itempool == old(world.itempool) + KeyItems(options, items, player) + CapItems(items, player)
    {
      if !options.progressiveKeys {
        var key1 := MakeItem(items, BasementKey, player);
        var key2 := MakeItem(items, SecondFloorKey, player);
        world.itempool := world.itempool + [key1, key2];
      } else {
        world.itempool := world.itempool + Repeat(MakeItem(items, ProgressiveKey, player), RangeLen(0, 2));
      }
      var wingcap := MakeItem(items, WingCap, player);
      var metalcap := MakeItem(items, MetalCap, player);
      var vanishcap := MakeItem(items, VanishCap, player);
      world.itempool := world.itempool + [wingcap, metalcap, vanishcap];
    }

    /** The cannon items into the pool, or each cannon locked into its
        Bob-omb Buddy location. */
    method AddCannons()
      requires Resolves(items)
      modifies world`itempool, world`placements
      ensures world.itempool == old(world.itempool) + CannonItems(options, items, player)
      ensures world.placements == Placed(old(world.placements), BuddyPlacements(options, items, player))
    {
      if options.buddyChecks {
        var cannons := items.cannonItemNames;
        world.itempool := world.itempool
          + seq(|cannons|, i requires 0 <= i < |cannons| => MakeItem(items, cannons[i], player));
      } else {
        world.PlaceLockedItems(BuddyPlacements(options, items, player));
      }
    }

    /** 29 more 1Ups into the pool, or a 1Up locked into each 1Up Block. */
    method AddExclamationBoxes()
      requires Resolves(items)
      modifies world`itempool, world`placements
      ensures world.itempool == old(world.itempool) + BoxOneUps(options, items, player)
      ensures world.placements == Placed(old(world.placements), BlockPlacements(options, items, player))
    {
      if options.exclamationBoxes > 0 {
        world.itempool := world.itempool + Repeat(MakeItem(items, OneUpMushroom, player), RangeLen(0, 29));
      } else {
        world.PlaceLockedItems(BlockPlacements(options, items, player));
      }
    }

    /** `fill_slot_data`: the area connections and the option values the
        client needs. */
    function FillSlotData(): (d: SlotData)
      reads this
      ensures d.areaRando == areaConnections && d.deathLink == options.deathLink
      ensures d.firstBowserDoorCost == options.firstBowserStarDoorCost
      ensures d.basementDoorCost == options.basementStarDoorCost
      ensures d.secondFloorDoorCost == options.secondFloorStarDoorCost
      ensures d.mips1Cost == options.mips1Cost && d.mips2Cost == options.mips2Cost
      ensures d.starsToFinish == options.starsToFinish
    {
      SlotData(areaConnections, options.firstBowserStarDoorCost, options.basementStarDoorCost,
        options.secondFloorStarDoorCost, options.mips1Cost, options.mips2Cost, options.starsToFinish,
        options.deathLink)
    }

    /** No star cost the client is told of exceeds the Power Stars that
        `generate_basic` pools. */
    lemma SlotCostsAffordable()
      requires Resolves(items)
      requires options.buddyChecks ==> PowerStar !in items.cannonItemNames
      ensures var d, stars := FillSlotData(), CountNamed(BasicPool(options, items, player), PowerStar);
        && d.firstBowserDoorCost <= stars && d.basementDoorCost <= stars && d.secondFloorDoorCost <= stars
        && d.mips1Cost <= stars && d.mips2Cost <= stars && d.starsToFinish <= stars
    {
      StarsCoverCosts(options, items, player);
    }

    /** `generate_output`, without the file it writes: it returns at once
        unless the run has exactly one player, and otherwise writes the
        slot data of `fill_slot_data`. */
    method GenerateOutput() returns (slotData: Option<SlotData>)
      ensures slotData.Some? <==> world.players == 1
      ensures slotData.Some? ==> slotData.value == FillSlotData()
    {
      if world.players != 1 {
        return None;
      }
      slotData := Some(FillSlotData());
    }

    /** `modify_multidata`: when the topology is randomised, stores the hint
        table of `HintData` for this player; if building it raises (`ok`
        false), `multidata` is left as it was, since the table is stored only
        once complete. */
    method ModifyMultidata(multidata: Multidata) returns (ok: bool)
      modifies multidata
      ensures !topologyPresent ==> ok && multidata.erHintData == old(multidata.erHintData)
      ensures topologyPresent ==> (ok <==> HintData(areaConnections, areas, world.regions, player).Some?)
      ensures topologyPresent ==>
        (multidata.erHintData ==
          if ok then old(multidata.erHintData)[player := HintData(areaConnections, areas, world.regions, player).value]
          else old(multidata.erHintData))
    {
      ok := true;
      if !topologyPresent {
        return;
      }
      var conns := areaConnections;
      var erHintData: map<int, string> := map[];
      ghost var done: seq<(int, string)> := [];
      var i := 0;
      while i < |conns|
        invariant 0 <= i <= |conns|
        invariant HintPairs(conns[..i], areas, world.regions, player) == Some(done)
        invariant erHintData == Placed(map[], done)
        invariant multidata.erHintData == old(multidata.erHintData)
      {
        var c := conns[i];
        assert conns[..i + 1][..i] == conns[..i];
        assert conns[..i + 1][i] == c;
        var failed := false;
        if c.destination !in areas.regionIds {
          failed := true;
        } else {
          var regionid := areas.regionIds[c.destination];
          var course := PyIndex(areas.courses, regionid);
          if course.None? || (course.value, player) !in world.regions {
            failed := true;
          } else {
            var addrs := world.regions[(course.value, player)];
            ghost var hints: seq<(int, string)> := [];
            var j := 0;
            while j < |addrs|
              invariant 0 <= j <= |addrs|
              invariant !failed
              invariant j > 0 ==> c.entrance in areas.locationNames
              invariant |hints| == j
              invariant forall k :: 0 <= k < j ==> hints[k] == (addrs[k], areas.locationNames[c.entrance])
              invariant erHintData == Placed(Placed(map[], done), hints)
              invariant multidata.erHintData == old(multidata.erHintData)
            {
              if c.entrance !in areas.locationNames {
                failed := true;
                break;
              }
              erHintData := erHintData[addrs[j] := areas.locationNames[c.entrance]];
              hints := hints + [(addrs[j], areas.locationNames[c.entrance])];
              assert hints[..j] == hints[..|hints| - 1];
              j := j + 1;
            }
            if !failed {
              assert RegionAddresses(c, areas, world.regions, player) == Some(addrs);
              assert ConnectionHints(c, areas, world.regions, player).value == hints;
              assert ConnectionHints(c, areas, world.regions, player) == Some(hints);
              PlacedAppend(map[], done, hints);
              done := done + hints;
            }
          }
        }
        if failed {
          assert ConnectionHints(c, areas, world.regions, player).None?;
          HintPairsDefined(conns, areas, world.regions, player);
          return false;
        }
        i := i + 1;
      }
      assert conns[..i] == conns;
      multidata.erHintData := multidata.erHintData[player := erHintData];
    }
  }
}
