/**
 * The owner-list view model: the signed-in user's posts as display items, projected from the
 * owner stream, with optimistic removal on "mark as found" and on delete.
 */
module ItemViewModel {
  import opened Wrappers
  import opened DocumentStore
  import opened LostItemModel
  import opened LostItemRepository

  /** The display shape of one post shared by the home and user screens. */
  datatype PinPointItem = PinPointItem(
    id: string,
    itemName: string,
    location: string,
    datePosted: string,
    user: string,
    kind: string,
    imageUrl: string,
    city: string,
    state: string,
    latitude: real,
    longitude: real)

  /** The type every projected item has: there is no "found" status yet. */
  const LostType: string := "Lost"

  /** The projection of one record. */
  function ToPinPointItem(x: LostItem): PinPointItem {
    PinPointItem(x.id, x.itemName, x.location, x.datePosted, x.userName, LostType, x.imageUrl,
                 x.city, x.state, x.latitude, x.longitude)
  }

  /** `lostItems.map { PinPointItem(...) }`. */
  function Project(items: seq<LostItem>): (r: seq<PinPointItem>)
    ensures |r| == |items|
    ensures forall i :: 0 <= i < |items| ==> r[i] == ToPinPointItem(items[i])
  {
    if items == [] then [] else [ToPinPointItem(items[0])] + Project(items[1..])
  }

  /**
   * The projection keeps length and order, copies id, name, location, date, image, city, state and
   * coordinates, takes `user` from `userName`, and gives every item the type "Lost".
   */
  lemma ProjectFields(items: seq<LostItem>)
    ensures var r := Project(items);
      && |r| == |items|
      && forall i :: 0 <= i < |items| ==>
        && r[i].id == items[i].id && r[i].itemName == items[i].itemName && r[i].location == items[i].location
        && r[i].datePosted == items[i].datePosted && r[i].user == items[i].userName && r[i].kind == "Lost"
        && r[i].imageUrl == items[i].imageUrl && r[i].city == items[i].city && r[i].state == items[i].state
        && r[i].latitude == items[i].latitude && r[i].longitude == items[i].longitude
  {
  }

  /** `list.filter { it.id != id }`. */
  function WithoutId(list: seq<PinPointItem>, id: string): seq<PinPointItem> {
    if list == [] then [] else KeepUnlessId(list[0], id) + WithoutId(list[1..], id)
  }

  /** One entry's contribution to the filter. */
  function KeepUnlessId(p: PinPointItem, id: string): seq<PinPointItem> {
    if p.id != id then [p] else []
  }

  /** The records, without those whose id is `id`. */
  function RecordsWithoutId(items: seq<LostItem>, id: string): seq<LostItem> {
    if items == [] then []
    else (if items[0].id != id then [items[0]] else []) + RecordsWithoutId(items[1..], id)
  }

  /** Removal drops every entry with that id and keeps every other entry, as often as it occurs. */
  lemma {:induction false} WithoutIdCount(list: seq<PinPointItem>, id: string, p: PinPointItem)
    ensures multiset(WithoutId(list, id))[p] == if p.id != id then multiset(list)[p] else 0
  {
    if list != [] {
      WithoutIdCount(list[1..], id, p);
      assert list == [list[0]] + list[1..];
      assert multiset(list) == multiset{list[0]} + multiset(list[1..]);
      var rest := WithoutId(list[1..], id);
      assert multiset(WithoutId(list, id)) == multiset(KeepUnlessId(list[0], id)) + multiset(rest);
    }
  }

  /** Removing from a concatenation removes from each part, so the order of what is kept is kept. */
  lemma {:induction false} WithoutIdAppend(list: seq<PinPointItem>, more: seq<PinPointItem>, id: string)
    ensures WithoutId(list + more, id) == WithoutId(list, id) + WithoutId(more, id)
  {
    if list == [] {
      assert list + more == more;
    } else {
      assert (list + more)[0] == list[0] && (list + more)[1..] == list[1..] + more;
      WithoutIdAppend(list[1..], more, id);
      calc {
        WithoutId(list + more, id);
        KeepUnlessId(list[0], id) + WithoutId(list[1..] + more, id);
        KeepUnlessId(list[0], id) + (WithoutId(list[1..], id) + WithoutId(more, id));
        (KeepUnlessId(list[0], id) + WithoutId(list[1..], id)) + WithoutId(more, id);
      }
    }
  }

  /** Removing an id twice is removing it once. */
  lemma {:induction false} WithoutIdIdempotent(list: seq<PinPointItem>, id: string)
    ensures WithoutId(WithoutId(list, id), id) == WithoutId(list, id)
  {
    if list != [] {
      WithoutIdIdempotent(list[1..], id);
      var rest := WithoutId(list[1..], id);
      WithoutIdAppend(KeepUnlessId(list[0], id), rest, id);
      if list[0].id != id {
        assert [list[0]][1..] == [];
        assert WithoutId([list[0]], id) == [list[0]];
      } else {
        assert KeepUnlessId(list[0], id) == [];
      }
    }
  }

  /** Removing from the shown list is the same as projecting the records without that id. */
  lemma {:induction false} RemovalCommutesWithProjection(items: seq<LostItem>, id: string)
    ensures WithoutId(Project(items), id) == Project(RecordsWithoutId(items, id))
  {
    if items != [] {
      RemovalCommutesWithProjection(items[1..], id);
      var p := Project(items);
      assert p[0] == ToPinPointItem(items[0]) && p[1..] == Project(items[1..]);
      var rest := RecordsWithoutId(items[1..], id);
      if items[0].id != id {
        var q := [items[0]] + rest;
        assert q[0] == items[0] && q[1..] == rest;
      }
    }
  }

  /** `ItemViewModel` with its three state flows. */
  class ItemViewModel {
    var uiState: seq<PinPointItem>
    var isLoading: bool
    var error: Option<string>

    constructor ()
      ensures uiState == [] && !isLoading && error == None
    {
      uiState := [];
      isLoading := false;
      error := None;
    }

    /** The start step of `loadItemsForUser`: a null owner returns at once; otherwise loading starts. */
    method LoadItemsForUser(ownerId: Option<string>)
      modifies this
      ensures ownerId.None? ==> uiState == old(uiState) && isLoading == old(isLoading) && error == old(error)
      ensures ownerId.Some? ==> uiState == old(uiState) && isLoading && error == None
    {
      if ownerId.None? {
        return;
      }
      isLoading := true;
      error := None;
    }

    /**
     * One event of the owner stream: an emission shows its projection and ends loading; the stream's
     * failure shows its message, or "Failed to load items", and ends loading.
     */
    method OnOwnerItems(event: StreamEvent)
      modifies this
      ensures !isLoading
      ensures event.Emitted? ==> uiState == Project(event.items) && error == old(error)
      ensures event.Closed? ==> uiState == old(uiState) && error == Some(MessageOr(event.error, "Failed to load items"))
    {
      match event
      case Emitted(list) =>
        uiState := Project(list);
        isLoading := false;
      case Closed(e) =>
        error := Some(MessageOr(e, "Failed to load items"));
        isLoading := false;
    }

    /** `markAsFound`: the entry disappears from the list; there is no store change. */
    method MarkAsFound(itemId: string)
      modifies this
      ensures uiState == WithoutId(old(uiState), itemId)
      ensures isLoading == old(isLoading) && error == old(error)
    {
      uiState := WithoutId(uiState, itemId);
    }

    /** The start step of `deletePost`: the entry is removed at once, before the store answers. */
    method DeletePost(itemId: string)
      modifies this
      ensures uiState == WithoutId(old(uiState), itemId)
      ensures isLoading == old(isLoading) && error == old(error)
    {
      uiState := WithoutId(uiState, itemId);
    }

    /**
     * The completion of `deletePost` with the storage manager's outcome: success clears the error;
     * failure shows its message, or "Failed to delete item"; the removed entry is not restored.
     */
    method OnDeleteCompleted(outcome: Outcome<Exception>)
      modifies this
      ensures uiState == old(uiState) && isLoading == old(isLoading)
      ensures outcome.Pass? ==> error == None
      ensures outcome.Fail? ==> error == Some(MessageOr(outcome.error, "Failed to delete item"))
    {
      match outcome
      case Pass => error := None;
      case Fail(e) => error := Some(MessageOr(e, "Failed to delete item"));
    }
  }
}
