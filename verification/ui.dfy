/** Collecting the material rows of the insert and edit forms. */
module Ui {
  import opened Wrappers
  import opened Recipes

  /** One material entry of a form, as read from its inputs: the trimmed
      name ("" when the input is missing), the parsed quantity and NPC price
      (None where the text does not parse; a missing input reads as 0) and the
      selected type tag. */
  datatype MaterialEntry = MaterialEntry(name: string, quantity: Option<int>, typeTag: string, npcPrice: Option<int>)

  /** An entry is accepted with a non-empty name, a positive quantity and
      one of the three known types. */
  predicate EntryValid(e: MaterialEntry)
  {
    && e.name != ""
    && e.quantity.Some? && e.quantity.value > 0
    && e.typeTag in {"profession", "drop", "buy"}
  }

  /** The material an accepted entry becomes: the NPC reference price is
      kept only for a type other than 'profession' and only when it parsed
      and is not negative; otherwise it is 0. */
  function ToMaterial(e: MaterialEntry): (m: Material)
    requires EntryValid(e)
    ensures m.name == e.name && m.quantity == e.quantity.value && m.quantity > 0
    ensures !m.materialType.Other?
    ensures m.materialType == ParseMaterialType(e.typeTag)
    ensures m.defaultNpcPrice >= 0
    ensures m.materialType == Profession ==> m.defaultNpcPrice == 0
    ensures m.materialType != Profession && e.npcPrice.Some? && e.npcPrice.value >= 0 ==> m.defaultNpcPrice == e.npcPrice.value
    ensures m.materialType != Profession && (e.npcPrice.None? || e.npcPrice.value < 0) ==> m.defaultNpcPrice == 0
  {
    var t := ParseMaterialType(e.typeTag);
    var npc := if e.typeTag != "profession" && e.npcPrice.Some? && e.npcPrice.value >= 0 then e.npcPrice.value else 0;
    Material(e.name, e.quantity.value, t, npc)
  }

  /** What `getMaterialsData` returns: None when some entry is rejected,
      otherwise one material per entry, in order. */
  function MaterialsData(entries: seq<MaterialEntry>): (r: Option<seq<Material>>)
    ensures |entries| == 0 ==> r == Some([])
  {
    if |entries| == 0 then Some([])
    else if forall i :: 0 <= i < |entries| ==> EntryValid(entries[i]) then
      Some(seq(|entries|, i requires 0 <= i < |entries| && EntryValid(entries[i]) => ToMaterial(entries[i])))
    else None
  }

  /** `getMaterialsData`: checks every entry, clears a validity flag for
      good at the first rejected one, and appends a material only while the
      flag still holds. */
  method GetMaterialsData(entries: seq<MaterialEntry>) returns (r: Option<seq<Material>>)
    ensures r == MaterialsData(entries)
    ensures r.None? <==> exists i :: 0 <= i < |entries| && !EntryValid(entries[i])
    ensures r.Some? ==> |r.value| == |entries|
                        && forall i :: 0 <= i < |entries| ==> EntryValid(entries[i]) && r.value[i] == ToMaterial(entries[i])
  {
    var materials: seq<Material> := [];
    var isValid := true;
    for index := 0 to |entries|
      invariant isValid <==> forall j :: 0 <= j < index ==> EntryValid(entries[j])
      invariant isValid ==> |materials| == index
      invariant isValid ==> forall j :: 0 <= j < index ==> EntryValid(entries[j]) && materials[j] == ToMaterial(entries[j])
      invariant |materials| <= index
    {
      var e := entries[index];
      if e.name == "" { isValid := false; }
      if e.quantity.None? || e.quantity.value <= 0 { isValid := false; }
      if e.typeTag !in {"profession", "drop", "buy"} { isValid := false; }
      if isValid {
        materials := materials + [ToMaterial(e)];
      }
    }
    if isValid {
      assert materials == seq(|entries|, i requires 0 <= i < |entries| && EntryValid(entries[i]) => ToMaterial(entries[i]));
    }
    r := if isValid then Some(materials) else None;
  }
}
