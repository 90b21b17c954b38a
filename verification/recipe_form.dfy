/** The checks both recipe forms (insert and edit) run on the recipe header
    before the recipe is sent to the recipe service. */
module RecipeForm {
  import opened Wrappers
  import opened Recipes

  /** Why a form submission was refused. */
  datatype FormError = MissingItemId | MaterialsInvalid | NameOrQuantityInvalid | NoMaterials

  /** The recipe sent to the service. */
  datatype RecipeDraft = RecipeDraft(name: string, quantityProduced: int, npcSellPrice: int, materials: seq<Material>)

  /** The header checks, in order: rejected materials first, then an empty
      (trimmed) name or a `quantity_produced` that does not parse or is not
      positive, then an empty material list. An NPC price that does not parse
      becomes 0. */
  function ValidateRecipeForm(materials: Option<seq<Material>>, name: string, quantityProduced: Option<int>, npcSellPrice: Option<int>)
    : (r: Result<RecipeDraft, FormError>)
    ensures materials.None? ==> r == Failure(MaterialsInvalid)
    ensures (materials.Some? && (name == "" || quantityProduced.None? || quantityProduced.value <= 0))
              ==> r == Failure(NameOrQuantityInvalid)
    ensures (materials.Some? && name != "" && quantityProduced.Some? && quantityProduced.value > 0 && |materials.value| == 0)
              ==> r == Failure(NoMaterials)
    ensures r.Success? <==> materials.Some? && name != "" && quantityProduced.Some? && quantityProduced.value > 0 && |materials.value| > 0
    ensures r.Success? ==> r.value == RecipeDraft(name, quantityProduced.value, OrZero(npcSellPrice), materials.value)
    ensures r.Failure? ==> r.error != MissingItemId
  {
    if materials.None? then Failure(MaterialsInvalid)
    else
      if name == "" || quantityProduced.None? || quantityProduced.value <= 0 then Failure(NameOrQuantityInvalid)
      else if |materials.value| == 0 then Failure(NoMaterials)
      else Success(RecipeDraft(name, quantityProduced.value, OrZero(npcSellPrice), materials.value))
  }
}
