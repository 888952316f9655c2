/** Items of the Super Mario 64 world: `SM64World.create_item` and
    `SM64World.get_filler_item_name`, and counting items by name. */
module Items {
  import opened Basics

  /** A player slot number of the multiworld. */
  type Player = int

  /** The item classifications this world assigns. */
  datatype Classification = Filler | Progression | ProgressionSkipBalancing

  /** An item: its name, classification, numeric id and owning player. */
  datatype Item = Item(name: string, classification: Classification, code: int, player: Player)

  const OneUpMushroom: string := "1Up Mushroom"
  const PowerStar: string := "Power Star"

  /** The classification `create_item` gives an item name. */
  function Classify(name: string): (c: Classification)
    ensures c == Filler <==> name == OneUpMushroom
    ensures c == ProgressionSkipBalancing <==> name == PowerStar
    ensures c == Progression <==> name != OneUpMushroom && name != PowerStar
  {
    if name == OneUpMushroom then Filler
    else if name == PowerStar then ProgressionSkipBalancing
    else Progression
  }

  /** `create_item(name)` for `player`: `None` stands for the KeyError that
      the lookup `item_table[name]` raises on an unknown name. */
  function CreateItem(itemTable: map<string, int>, name: string, player: Player): (r: Option<Item>)
    ensures r.Some? <==> name in itemTable
    ensures r.Some? ==> r.value.name == name && r.value.code == itemTable[name]
    ensures r.Some? ==> r.value.player == player && r.value.classification == Classify(name)
  {
    if name in itemTable then Some(Item(name, Classify(name), itemTable[name], player)) else None
  }

  /** `get_filler_item_name`: the name the engine uses to pad the pool. */
  function FillerItemName(): (name: string)
    ensures Classify(name) == Filler
  {
    OneUpMushroom
  }

  /** The names of a list of items, in order. */
  function Names(items: seq<Item>): (r: seq<string>)
    ensures |r| == |items|
    ensures forall i :: 0 <= i < |items| ==> r[i] == items[i].name
  {
    seq(|items|, i requires 0 <= i < |items| => items[i].name)
  }

  /** How many items of the list carry `name`. */
  function CountNamed(items: seq<Item>, name: string): (n: nat)
    ensures n <= |items|
  {
    if items == [] then 0
    else (if items[0].name == name then 1 else 0) + CountNamed(items[1..], name)
  }

  lemma {:induction false} CountNamedAppend(a: seq<Item>, b: seq<Item>, name: string)
    ensures CountNamed(a + b, name) == CountNamed(a, name) + CountNamed(b, name)
  {
    if a != [] {
      assert (a + b)[1..] == a[1..] + b;
      CountNamedAppend(a[1..], b, name);
    } else {
      assert a + b == b;
    }
  }

  lemma CountNamedCons(x: Item, rest: seq<Item>, name: string)
    ensures CountNamed([x] + rest, name) == (if x.name == name then 1 else 0) + CountNamed(rest, name)
  {
    assert ([x] + rest)[1..] == rest;
  }

  lemma {:induction false} CountNamedRepeat(x: Item, n: nat, name: string)
    ensures CountNamed(Repeat(x, n), name) == if x.name == name then n else 0
  {
    if n > 0 {
      assert Repeat(x, n)[1..] == Repeat(x, n - 1);
      CountNamedRepeat(x, n - 1, name);
    }
  }

  /** Counting a name no item carries gives zero; one every item carries gives the length. */
  lemma {:induction false} CountNamedAll(items: seq<Item>, name: string)
    ensures (forall i :: 0 <= i < |items| ==> items[i].name != name) ==> CountNamed(items, name) == 0
    ensures (forall i :: 0 <= i < |items| ==> items[i].name == name) ==> CountNamed(items, name) == |items|
  {
    if items != [] {
      assert forall i :: 1 <= i < |items| ==> items[1..][i - 1] == items[i];
      CountNamedAll(items[1..], name);
    }
  }
}
