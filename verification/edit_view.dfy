/** Submitting the edit form. */
module EditView {
  import opened Wrappers
  import opened Recipes
  import opened Ui
  import opened RecipeForm

  /** What a submission leads to: a refusal, or a call to `updateItem`. */
  datatype EditAction = RejectEdit(error: FormError) | UpdateItem(id: string, recipe: RecipeDraft)

  /** `handleEditSubmit` up to the service call: a missing item id is refused
      before anything else, then the header checks of the insert form run;
      `updateItem` is called only when all pass, with the same id. */
  function HandleEditSubmit(itemId: string, entries: seq<MaterialEntry>, name: string, quantityProduced: Option<int>, npcSellPrice: Option<int>)
    : (a: EditAction)
    ensures itemId == "" ==> a == RejectEdit(MissingItemId)
    ensures itemId != "" && (exists i :: 0 <= i < |entries| && !EntryValid(entries[i])) ==> a == RejectEdit(MaterialsInvalid)
    ensures a.UpdateItem? <==>
              && itemId != ""
              && (forall i :: 0 <= i < |entries| ==> EntryValid(entries[i]))
              && name != "" && quantityProduced.Some? && quantityProduced.value > 0
              && |entries| > 0
    ensures a.UpdateItem? ==>
              && a.id == itemId
              && a.recipe == RecipeDraft(name, quantityProduced.value, OrZero(npcSellPrice), MaterialsData(entries).value)
  {
    if itemId == "" then RejectEdit(MissingItemId)
    else
      match ValidateRecipeForm(MaterialsData(entries), name, quantityProduced, npcSellPrice)
      case Failure(e) => RejectEdit(e)
      case Success(recipe) => UpdateItem(itemId, recipe)
  }
}
