/** Submitting the insert form. */
module InsertView {
  import opened Wrappers
  import opened Recipes
  import opened Ui
  import opened RecipeForm

  /** What a submission leads to: a refusal, or a call to `createItem`. */
  datatype InsertAction = RejectInsert(error: FormError) | CreateItem(recipe: RecipeDraft)

  /** `handleInsertSubmit` up to the service call: the entries are collected
      first and a rejected entry stops everything; `createItem` is called
      only when every check passes, with the trimmed name, the quantity, the
      NPC price (0 when it does not parse) and the collected materials. */
  function HandleInsertSubmit(entries: seq<MaterialEntry>, name: string, quantityProduced: Option<int>, npcSellPrice: Option<int>)
    : (a: InsertAction)
    ensures (exists i :: 0 <= i < |entries| && !EntryValid(entries[i])) ==> a == RejectInsert(MaterialsInvalid)
    ensures a.CreateItem? <==>
              && (forall i :: 0 <= i < |entries| ==> EntryValid(entries[i]))
              && name != "" && quantityProduced.Some? && quantityProduced.value > 0
              && |entries| > 0
    ensures a.CreateItem? ==>
              && a.recipe.name == name
              && a.recipe.quantityProduced == quantityProduced.value
              && a.recipe.npcSellPrice == OrZero(npcSellPrice)
              && |a.recipe.materials| == |entries|
              && forall i :: 0 <= i < |entries| ==> a.recipe.materials[i] == ToMaterial(entries[i])
  {
    match ValidateRecipeForm(MaterialsData(entries), name, quantityProduced, npcSellPrice)
    case Failure(e) => RejectInsert(e)
    case Success(recipe) => CreateItem(recipe)
  }
}
