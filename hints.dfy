/** What the world derives from its area connections when area randomisation
    is on: the spoiler entries `SM64World.set_rules` writes, and the
    location-address to entrance-name hint table `SM64World.modify_multidata`
    builds. Every table lookup that can raise in the Python code is modelled
    as a failure. */
module Hints {
  import opened Basics
  import opened Items

  /** One item of `area_connections`: an entrance and the area it leads to,
      both internal location numbers. The dictionary is modelled as its list
      of items in insertion order. */
  datatype Connection = Connection(entrance: int, destination: int)

  /** The data tables of the regions module: `sm64_internalloc_to_string`,
      `sm64_internalloc_to_regionid` and `sm64courses`. */
  datatype AreaTables = AreaTables(locationNames: map<int, string>, regionIds: map<int, int>, courses: seq<string>)

  /** One `spoiler.set_entrance(entrance, exit, direction, player)` call. */
  datatype SpoilerEntrance = SpoilerEntrance(entrance: string, exit: string, direction: string, player: Player)

  /** The regions of the multiworld: the addresses of each region's
      locations, in order, keyed by region name and player. */
  type RegionMap = map<(string, Player), seq<int>>

  /** Python's `s[i]` on a list: a negative index counts from the end, and
      `None` stands for the IndexError of an index out of range. */
  function PyIndex<T>(s: seq<T>, i: int): (r: Option<T>)
    ensures r.Some? <==> -|s| <= i < |s|
    ensures r.Some? ==> exists k :: 0 <= k < |s| && (k == i || k == |s| + i) && r.value == s[k]
  {
    if 0 <= i < |s| then Some(s[i])
    else if -|s| <= i < 0 then Some(s[|s| + i])
    else None
  }

  // ---- set_rules: the spoiler log of the entrances ----

  /** Both ends of the connection have a name in `sm64_internalloc_to_string`. */
  predicate Named(c: Connection, names: map<int, string>)
  {
    c.entrance in names && c.destination in names
  }

  /** How many connections, from the first, `set_rules` logs before a name
      lookup raises (all of them when none does). */
  function ResolvedPrefix(conns: seq<Connection>, names: map<int, string>): (k: nat)
    ensures k <= |conns|
    ensures forall i :: 0 <= i < k ==> Named(conns[i], names)
    ensures k < |conns| ==> !Named(conns[k], names)
  {
    if conns == [] || !Named(conns[0], names) then 0
    else 1 + ResolvedPrefix(conns[1..], names)
  }

  /** The spoiler entry for one connection. */
  function EntranceEntry(c: Connection, names: map<int, string>, p: Player): SpoilerEntrance
    requires Named(c, names)
  {
    SpoilerEntrance(names[c.entrance] + " Entrance", names[c.destination], "entrance", p)
  }

  /** The spoiler entries `set_rules` writes, one per connection in order,
      stopping at the first connection whose names do not resolve. */
  function SpoilerLog(conns: seq<Connection>, names: map<int, string>, p: Player): (log: seq<SpoilerEntrance>)
    ensures |log| <= |conns|
    ensures |log| == |conns| <==> forall i :: 0 <= i < |conns| ==> Named(conns[i], names)
    ensures forall i :: 0 <= i < |log| ==> Named(conns[i], names) && log[i] == EntranceEntry(conns[i], names, p)
    ensures |log| < |conns| ==> !Named(conns[|log|], names)
  {
    var k := ResolvedPrefix(conns, names);
    seq(k, i requires 0 <= i < k => EntranceEntry(conns[i], names, p))
  }

  // ---- modify_multidata: the entrance hint table ----

  /** The addresses of the locations of the region a connection leads to:
      `get_region(sm64courses[sm64_internalloc_to_regionid[destination]], player).locations`,
      or `None` when one of the three lookups raises. */
  function RegionAddresses(c: Connection, t: AreaTables, regions: RegionMap, p: Player): Option<seq<int>>
  {
    if c.destination !in t.regionIds then None
    else
      match PyIndex(t.courses, t.regionIds[c.destination])
      case None => None
      case Some(name) => if (name, p) in regions then Some(regions[(name, p)]) else None
  }

  /** The address lies in the region the connection leads to. */
  predicate Reaches(c: Connection, t: AreaTables, regions: RegionMap, p: Player, a: int)
  {
    RegionAddresses(c, t, regions, p).Some? && a in RegionAddresses(c, t, regions, p).value
  }

  /** The assignments `er_hint_data[address] = entrance name` one connection
      makes, in order; `None` when a lookup raises. The entrance name is
      looked up only once the region has a location. */
  function ConnectionHints(c: Connection, t: AreaTables, regions: RegionMap, p: Player): (r: Option<seq<(int, string)>>)
    ensures r.Some? <==>
      RegionAddresses(c, t, regions, p).Some? && (RegionAddresses(c, t, regions, p).value == [] || c.entrance in t.locationNames)
    ensures r.Some? ==> var addrs := RegionAddresses(c, t, regions, p).value;
      |r.value| == |addrs| && forall k :: 0 <= k < |addrs| ==> r.value[k] == (addrs[k], t.locationNames[c.entrance])
  {
    match RegionAddresses(c, t, regions, p)
    case None => None
    case Some(addrs) =>
      if addrs == [] then Some([])
      else if c.entrance !in t.locationNames then None
      else Some(seq(|addrs|, k requires 0 <= k < |addrs| => (addrs[k], t.locationNames[c.entrance])))
  }

  /** All assignments of `modify_multidata`, connection after connection;
      `None` when any lookup raises. */
  function HintPairs(conns: seq<Connection>, t: AreaTables, regions: RegionMap, p: Player): Option<seq<(int, string)>>
    decreases |conns|
  {
    if conns == [] then Some([])
    else
      match HintPairs(conns[..|conns| - 1], t, regions, p)
      case None => None
      case Some(before) =>
        match ConnectionHints(conns[|conns| - 1], t, regions, p)
        case None => None
        case Some(last) => Some(before + last)
  }

  /** The `er_hint_data` table `modify_multidata` stores for the player, or
      `None` when building it raises. */
  function HintData(conns: seq<Connection>, t: AreaTables, regions: RegionMap, p: Player): Option<map<int, string>>
  {
    match HintPairs(conns, t, regions, p)
    case None => None
    case Some(ps) => Some(Placed(map[], ps))
  }

  /** The table is built exactly when every connection's lookups succeed. */
  lemma {:induction false} HintPairsDefined(conns: seq<Connection>, t: AreaTables, regions: RegionMap, p: Player)
    ensures HintPairs(conns, t, regions, p).Some? <==>
      forall i :: 0 <= i < |conns| ==> ConnectionHints(conns[i], t, regions, p).Some?
    decreases |conns|
  {
    if conns != [] {
      var init := conns[..|conns| - 1];
      HintPairsDefined(init, t, regions, p);
      assert forall i :: 0 <= i < |init| ==> init[i] == conns[i];
    }
  }

  /** Every address of a connection's destination region is hinted with that
      connection's entrance name, unless a later connection's region also
      holds the address: the later connection overwrites it. */
  lemma {:induction false} HintDataLastWins(conns: seq<Connection>, t: AreaTables, regions: RegionMap, p: Player, i: nat, a: int)
    requires HintData(conns, t, regions, p).Some?
    requires i < |conns| && Reaches(conns[i], t, regions, p, a)
    requires forall j :: i < j < |conns| ==> !Reaches(conns[j], t, regions, p, a)
    ensures conns[i].entrance in t.locationNames
    ensures a in HintData(conns, t, regions, p).value
    ensures HintData(conns, t, regions, p).value[a] == t.locationNames[conns[i].entrance]
    decreases |conns|
  {
    var init := conns[..|conns| - 1];
    var c := conns[|conns| - 1];
    var before := HintPairs(init, t, regions, p).value;
    var last := ConnectionHints(c, t, regions, p).value;
    PlacedAppend(map[], before, last);
    if i == |conns| - 1 {
      var addrs := RegionAddresses(c, t, regions, p).value;
      var k :| 0 <= k < |addrs| && addrs[k] == a;
      assert last[k].0 == a;
      PlacedUniform(Placed(map[], before), last, t.locationNames[c.entrance], a);
    } else {
      assert init[i] == conns[i];
      forall j | i < j < |init| ensures !Reaches(init[j], t, regions, p, a) {
        assert init[j] == conns[j];
      }
      HintDataLastWins(init, t, regions, p, i, a);
      PlacedElsewhere(Placed(map[], before), last, a);
    }
  }

  /** One connection assigns exactly the addresses of its destination region. */
  lemma ConnectionHintsKeys(c: Connection, t: AreaTables, regions: RegionMap, p: Player, a: int)
    requires ConnectionHints(c, t, regions, p).Some?
    ensures a in KeysOf(ConnectionHints(c, t, regions, p).value) <==> Reaches(c, t, regions, p, a)
  {
    var addrs := RegionAddresses(c, t, regions, p).value;
    var last := ConnectionHints(c, t, regions, p).value;
    if a in KeysOf(last) {
      var k :| 0 <= k < |last| && last[k].0 == a;
      assert addrs[k] == a;
    }
    if Reaches(c, t, regions, p, a) {
      var k :| 0 <= k < |addrs| && addrs[k] == a;
      assert last[k].0 == a;
    }
  }

  /** The hinted addresses are exactly the addresses of the connections'
      destination regions. */
  lemma {:induction false} HintDataDomain(conns: seq<Connection>, t: AreaTables, regions: RegionMap, p: Player, a: int)
    requires HintData(conns, t, regions, p).Some?
    ensures a in HintData(conns, t, regions, p).value <==>
      exists i :: 0 <= i < |conns| && Reaches(conns[i], t, regions, p, a)
    decreases |conns|
  {
    if conns != [] {
      var init := conns[..|conns| - 1];
      var c := conns[|conns| - 1];
      var before := HintPairs(init, t, regions, p).value;
      var last := ConnectionHints(c, t, regions, p).value;
      PlacedAppend(map[], before, last);
      HintDataDomain(init, t, regions, p, a);
      ConnectionHintsKeys(c, t, regions, p, a);
      if exists i :: 0 <= i < |conns| && Reaches(conns[i], t, regions, p, a) {
        var i :| 0 <= i < |conns| && Reaches(conns[i], t, regions, p, a);
        if i < |init| { assert init[i] == conns[i]; }
      }
      if exists i :: 0 <= i < |init| && Reaches(init[i], t, regions, p, a) {
        var i :| 0 <= i < |init| && Reaches(init[i], t, regions, p, a);
        assert init[i] == conns[i];
      }
    }
  }
}
