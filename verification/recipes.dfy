/** The records the crafting tool works on: a recipe as the recipe service
    returns it and the materials it consumes per pack. */
module Recipes {
  import opened Wrappers

  /** The `material_type` of a material. Any string other than the three
      known tags is kept as `Other`. */
  datatype MaterialType = Profession | Drop | Buy | Other(tag: string)

  /** Reads a `material_type` tag. */
  function ParseMaterialType(tag: string): (t: MaterialType)
    ensures t == Profession <==> tag == "profession"
    ensures t == Drop <==> tag == "drop"
    ensures t == Buy <==> tag == "buy"
    ensures t.Other? <==> tag !in {"profession", "drop", "buy"}
    ensures t.Other? ==> t.tag == tag
  {
    if tag == "profession" then Profession
    else if tag == "drop" then Drop
    else if tag == "buy" then Buy
    else Other(tag)
  }

  /** Materials bought on the market ('drop' or 'buy'); only these are priced
      by lots and carry a cost. */
  predicate IsPurchased(t: MaterialType)
  {
    t == Drop || t == Buy
  }

  /** One material of a recipe: `quantity` is the amount needed per pack and
      `defaultNpcPrice` a reference price shown to the user. */
  datatype Material = Material(name: string, quantity: int, materialType: MaterialType, defaultNpcPrice: int)

  /** A recipe as loaded from the recipe service. Fields the service may omit
      (or send as 0 or null) are optional: `quantityProduced` is the number of
      items one pack yields and `npcSellPrice` the NPC price of one pack. */
  datatype Recipe = Recipe(
    name: string,
    quantityProduced: Option<int>,
    npcSellPrice: Option<real>,
    materials: Option<seq<Material>>)

  /** JavaScript's `x || 0` on a parsed integer: NaN (None) and 0 give 0. */
  function OrZero(x: Option<int>): int
  {
    x.GetOr(0)
  }

  /** JavaScript's `x || 0` on a parsed real. */
  function OrZeroReal(x: Option<real>): real
  {
    x.GetOr(0.0)
  }

  /** `materials.find(m => m.material_name === name)`: the first material
      with that name. */
  function FindMaterial(ms: seq<Material>, name: string): (r: Option<Material>)
    ensures r.None? <==> forall i :: 0 <= i < |ms| ==> ms[i].name != name
    ensures r.Some? ==> exists i :: 0 <= i < |ms| && ms[i] == r.value && r.value.name == name
                                    && forall j :: 0 <= j < i ==> ms[j].name != name
  {
    if |ms| == 0 then None
    else if ms[0].name == name then Some(ms[0])
    else
      var r := FindMaterial(ms[1..], name);
      assert forall i :: 1 <= i < |ms| ==> ms[i] == ms[1..][i - 1];
      r
  }
}
