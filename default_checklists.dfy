/** The built-in checklist catalog: five emergency categories, each with five
    seed items, and the lookup that hands out a copy of a category's seeds. */
module DefaultChecklists {

  datatype Option<+T> = None | Some(value: T)

  /** One checklist entry. The record's `label` field is called `text` here,
      because `label` is a Dafny keyword. `isCustom` is an optional field:
      `None` stands for the field being absent from the record. */
  datatype Item = Item(id: string, text: string, checked: bool, isCustom: Option<bool>)

  /** The category names the lookup recognises, in display order. */
  const Categories: seq<string> := ["fire", "earthquake", "flood", "hurricane", "poweroutage"]

  predicate IsCategory(category: string) {
    category in Categories
  }

  /** The prefix of a category's seed ids; the power-outage seeds use "power". */
  function IdPrefix(category: string): (prefix: string) {
    if category == "poweroutage" then "power" else category
  }

  function DigitChar(n: nat): (c: char)
    requires n < 10
  {
    ('0' as int + n) as char
  }

  /** The id of the `n`-th seed item (counting from 1) of a list with the given prefix. */
  function ItemId(prefix: string, n: nat): (id: string)
    requires n < 10
  {
    prefix + "-" + [DigitChar(n)]
  }

  const FireItems: seq<Item> := [
    Item("fire-1", "Fire Extinguisher", false, None),
    Item("fire-2", "Smoke Detectors (tested)", false, None),
    Item("fire-3", "Escape Plan", false, None),
    Item("fire-4", "Emergency Contact List", false, None),
    Item("fire-5", "Flashlight", false, None)
  ]

  const EarthquakeItems: seq<Item> := [
    Item("earthquake-1", "Emergency Kit", false, None),
    Item("earthquake-2", "3-Day Water Supply", false, None),
    Item("earthquake-3", "First Aid Kit", false, None),
    Item("earthquake-4", "Battery Radio", false, None),
    Item("earthquake-5", "Sturdy Shoes", false, None)
  ]

  const FloodItems: seq<Item> := [
    Item("flood-1", "Sandbags", false, None),
    Item("flood-2", "Waterproof Containers", false, None),
    Item("flood-3", "Evacuation Route Map", false, None),
    Item("flood-4", "Important Documents (waterproofed)", false, None),
    Item("flood-5", "Life Jackets", false, None)
  ]

  const HurricaneItems: seq<Item> := [
    Item("hurricane-1", "Plywood for Windows", false, None),
    Item("hurricane-2", "7-Day Food Supply", false, None),
    Item("hurricane-3", "Generator", false, None),
    Item("hurricane-4", "Fuel for Generator", false, None),
    Item("hurricane-5", "Battery-Powered Lights", false, None)
  ]

  const PowerOutageItems: seq<Item> := [
    Item("power-1", "Flashlights", false, None),
    Item("power-2", "Extra Batteries", false, None),
    Item("power-3", "Candles & Matches", false, None),
    Item("power-4", "Portable Phone Charger", false, None),
    Item("power-5", "Non-Perishable Food", false, None)
  ]

  /** The seed list of `category`: five unchecked, non-custom items whose ids
      are the category prefix followed by 1..5 in display order; any other
      string gives the empty list. */
  function DefaultItems(category: string): (r: seq<Item>)
    ensures IsCategory(category) ==> |r| == 5
    ensures !IsCategory(category) ==> r == []
    ensures forall i :: 0 <= i < |r| ==>
              r[i].id == ItemId(IdPrefix(category), i + 1) && !r[i].checked && r[i].isCustom == None
  {
    match category
    case "fire" => FireItems
    case "earthquake" => EarthquakeItems
    case "flood" => FloodItems
    case "hurricane" => HurricaneItems
    case "poweroutage" => PowerOutageItems
    case _ => []
  }

  /** The lookup as the program runs it: every call allocates a new array, so
      a caller that edits its copy in place never affects another call. */
  method GetDefaultItems(category: string) returns (a: array<Item>)
    ensures fresh(a)
    ensures a[..] == DefaultItems(category)
  {
    var seeds := DefaultItems(category);
    a := new Item[|seeds|](i requires 0 <= i < |seeds| => seeds[i]);
  }

  /** A caller toggles the first item of one copy and then asks again: the
      second copy still holds the unchanged seeds. */
  method ToggleThenFetchAgain(category: string) returns (first: array<Item>, second: array<Item>)
    ensures first != second
    ensures second[..] == DefaultItems(category)
    ensures first.Length == second.Length
    ensures first.Length > 0 ==> first[0].checked && first[0].id == second[0].id
    ensures forall i :: 1 <= i < first.Length ==> first[i] == second[i]
  {
    first := GetDefaultItems(category);
    if first.Length > 0 {
      first[0] := first[0].(checked := !first[0].checked);
    }
    second := GetDefaultItems(category);
  }

  /** Seed ids determine their prefix and position. */
  lemma {:induction false} ItemIdInjective(p: string, n: nat, q: string, m: nat)
    requires n < 10 && m < 10
    requires ItemId(p, n) == ItemId(q, m)
    ensures p == q && n == m
  {
    var s := ItemId(p, n);
    assert |p| == |q|;
    assert p == s[..|p|];
    assert q == ItemId(q, m)[..|q|];
    assert s[|s| - 1] == DigitChar(n);
    assert ItemId(q, m)[|s| - 1] == DigitChar(m);
  }

  /** No two items of one category's seed list share an id. */
  lemma {:induction false} DefaultIdsDistinct(category: string, i: nat, j: nat)
    requires i < j < |DefaultItems(category)|
    ensures DefaultItems(category)[i].id != DefaultItems(category)[j].id
  {
    var r := DefaultItems(category);
    if r[i].id == r[j].id {
      ItemIdInjective(IdPrefix(category), i + 1, IdPrefix(category), j + 1);
    }
  }

  /** The five categories have five different id prefixes. */
  lemma IdPrefixesDistinct(c: string, d: string)
    requires IsCategory(c) && IsCategory(d) && c != d
    ensures IdPrefix(c) != IdPrefix(d)
  {
  }

  /** Seed ids of two different categories never collide. */
  lemma {:induction false} CrossCategoryIdsDisjoint(c: string, d: string, i: nat, j: nat)
    requires c != d
    requires i < |DefaultItems(c)| && j < |DefaultItems(d)|
    ensures DefaultItems(c)[i].id != DefaultItems(d)[j].id
  {
    if DefaultItems(c)[i].id == DefaultItems(d)[j].id {
      ItemIdInjective(IdPrefix(c), i + 1, IdPrefix(d), j + 1);
      IdPrefixesDistinct(c, d);
    }
  }

  /** Every seed item of every category is unchecked and never custom. */
  lemma SeedsNeverCustom(category: string, item: Item)
    requires item in DefaultItems(category)
    ensures !item.checked && item.isCustom != Some(true)
  {
  }
}
