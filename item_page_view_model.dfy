/** The item-detail view model: a one-shot load of one record. */
module ItemPageViewModel {
  import opened Wrappers
  import opened DocumentStore
  import opened LostItemModel
  import opened LostItemRepository

  /** The item a completed load leaves shown: a loaded record replaces it, anything else keeps it. */
  function LoadedItem(current: Option<LostItem>, result: Result<Option<LostItem>, Exception>): (r: Option<LostItem>)
    ensures result.Success? && result.value.Some? ==> r == result.value
    ensures !(result.Success? && result.value.Some?) ==> r == current
  {
    match result
    case Success(Some(x)) => Some(x)
    case _ => current
  }

  /** The error a completed load leaves: "Item not found" for null, the message or "Failed to load item" for a throw. */
  function LoadError(current: Option<string>, result: Result<Option<LostItem>, Exception>): (r: Option<string>)
    ensures result == Success(None) ==> r == Some("Item not found")
    ensures result.Failure? ==> r == Some(MessageOr(result.error, "Failed to load item"))
    ensures result.Success? && result.value.Some? ==> r == current
  {
    match result
    case Success(Some(_)) => current
    case Success(None) => Some("Item not found")
    case Failure(e) => Some(MessageOr(e, "Failed to load item"))
  }

  /**
   * Against the repository's point read: an id with no document shows the all-defaults record, and
   * "Item not found" appears exactly when the document exists but one of its fields has the wrong type.
   */
  lemma ItemNotFoundIff(documents: map<string, Fields>, itemId: string, current: Option<LostItem>,
                        format: Timestamp -> string)
    ensures var r := GetItemById(documents, itemId, None, format);
      && (itemId !in documents ==> LoadedItem(current, r) == Some(DefaultItem(itemId)) && LoadError(None, r) == None)
      && (LoadError(None, r) == Some("Item not found") <==> itemId in documents && !WellTyped(documents[itemId]))
  {
    GetItemByIdNullIff(documents, itemId, None, format);
    if itemId !in documents {
      GetItemByIdMissing(documents, itemId, format);
    }
  }

  /** `ItemPageViewModel` with its three state flows. */
  class ItemPageViewModel {
    var item: Option<LostItem>
    var isLoading: bool
    var error: Option<string>

    constructor ()
      ensures item == None && !isLoading && error == None
    {
      item := None;
      isLoading := false;
      error := None;
    }

    /** The start step of `loadItem`: loading, no error, and the previous item still shown. */
    method LoadItem()
      modifies this
      ensures isLoading && error == None && item == old(item)
    {
      isLoading := true;
      error := None;
    }

    /** The completion of `loadItem` with the point read's result; loading ends on every path. */
    method OnItemLoaded(result: Result<Option<LostItem>, Exception>)
      modifies this
      ensures item == LoadedItem(old(item), result)
      ensures error == LoadError(old(error), result)
      ensures !isLoading
    {
      match result {
        case Success(loaded) =>
          if loaded.Some? {
            item := loaded;
          } else {
            error := Some("Item not found");
          }
        case Failure(e) =>
          error := Some(MessageOr(e, "Failed to load item"));
      }
      isLoading := false;
    }
  }
}
