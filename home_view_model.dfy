/**
 * The home feed's view model: the emitted item list, a loading flag and an error message, each
 * a state flow updated by the events of one feed subscription, and the city filter applied to
 * the state-filtered stream.
 */
module HomeViewModel {
  import opened Wrappers
  import opened Text
  import opened DocumentStore
  import opened LostItemModel
  import opened LostItemRepository

  /** The filter's test: the item's trimmed city equals the trimmed query, ignoring case. */
  predicate CityMatches(x: LostItem, city: string) {
    EqualsIgnoreCase(Trim(x.city), Trim(city))
  }

  /** `items.filter { CityMatches(it, city) }`. */
  function KeepCity(items: seq<LostItem>, city: string): seq<LostItem> {
    if items == [] then [] else KeepOne(items[0], city) + KeepCity(items[1..], city)
  }

  /** One item's contribution to the filter: itself when it matches, nothing otherwise. */
  function KeepOne(x: LostItem, city: string): seq<LostItem> {
    if CityMatches(x, city) then [x] else []
  }

  /** The list `filterByLocation` shows for one emission of the state stream. */
  function FilterByCity(items: seq<LostItem>, city: string): seq<LostItem> {
    if !IsBlank(city) then KeepCity(items, city) else items
  }

  /** Filtering a concatenation filters each part, so the kept items stay in their order. */
  lemma {:induction false} KeepCityAppend(a: seq<LostItem>, b: seq<LostItem>, city: string)
    ensures KeepCity(a + b, city) == KeepCity(a, city) + KeepCity(b, city)
  {
    if a == [] {
      assert a + b == b;
    } else {
      assert (a + b)[0] == a[0] && (a + b)[1..] == a[1..] + b;
      KeepCityAppend(a[1..], b, city);
      calc {
        KeepCity(a + b, city);
        KeepOne(a[0], city) + KeepCity(a[1..] + b, city);
        KeepOne(a[0], city) + (KeepCity(a[1..], city) + KeepCity(b, city));
        (KeepOne(a[0], city) + KeepCity(a[1..], city)) + KeepCity(b, city);
      }
    }
  }

  /** Each matching item is kept as often as it occurs, and every other item is dropped. */
  lemma {:induction false} KeepCityCount(items: seq<LostItem>, city: string, x: LostItem)
    ensures multiset(KeepCity(items, city))[x] == if CityMatches(x, city) then multiset(items)[x] else 0
  {
    if items != [] {
      KeepCityCount(items[1..], city, x);
      assert items == [items[0]] + items[1..];
      assert multiset(items) == multiset{items[0]} + multiset(items[1..]);
      var rest := KeepCity(items[1..], city);
      assert KeepCity(items, city) == KeepOne(items[0], city) + rest;
      assert multiset(KeepCity(items, city)) == multiset(KeepOne(items[0], city)) + multiset(rest);
      if CityMatches(items[0], city) {
        assert multiset(KeepOne(items[0], city)) == multiset{items[0]};
      } else {
        assert multiset(KeepOne(items[0], city)) == multiset{};
        assert items[0] != x || !CityMatches(x, city);
      }
    }
  }

  /**
   * A blank city passes the list through; otherwise the result holds exactly the matching items,
   * each as often as in the input, and filtering a concatenation filters each part in order.
   */
  lemma FilterByCitySpec(items: seq<LostItem>, more: seq<LostItem>, city: string)
    ensures IsBlank(city) ==> FilterByCity(items, city) == items
    ensures !IsBlank(city) ==> forall x ::
      multiset(FilterByCity(items, city))[x] == if CityMatches(x, city) then multiset(items)[x] else 0
    ensures !IsBlank(city) ==> forall x :: x in FilterByCity(items, city) <==> x in items && CityMatches(x, city)
    ensures FilterByCity(items + more, city) == FilterByCity(items, city) + FilterByCity(more, city)
  {
    if !IsBlank(city) {
      forall x ensures multiset(FilterByCity(items, city))[x] == if CityMatches(x, city) then multiset(items)[x] else 0 {
        KeepCityCount(items, city, x);
      }
      forall x ensures x in FilterByCity(items, city) <==> x in items && CityMatches(x, city) {
        KeepCityCount(items, city, x);
        assert x in FilterByCity(items, city) <==> x in multiset(FilterByCity(items, city));
        assert x in items <==> x in multiset(items);
      }
      KeepCityAppend(items, more, city);
    }
  }

  /** Surrounding whitespace in the query changes nothing: the filter sees only the trimmed city. */
  lemma FilterByCityTrims(items: seq<LostItem>, a: string, b: string)
    requires Trim(a) == Trim(b)
    ensures FilterByCity(items, a) == FilterByCity(items, b)
  {
    BlankIffTrimEmpty(a);
    BlankIffTrimEmpty(b);
    if !IsBlank(a) {
      KeepCityTrims(items, a, b);
    }
  }

  lemma {:induction false} KeepCityTrims(items: seq<LostItem>, a: string, b: string)
    requires Trim(a) == Trim(b)
    ensures KeepCity(items, a) == KeepCity(items, b)
  {
    if items != [] {
      KeepCityTrims(items[1..], a, b);
    }
  }

  /** What `filterByLocation` shows after one event of the `state` stream. */
  function FilteredEvent(collection: Option<seq<Document>>, error: Option<Exception>, state: string, city: string,
                         format: Timestamp -> string): Option<seq<LostItem>> {
    match ItemsByStateEvent(collection, error, state, format)
    case Emitted(items) => Some(FilterByCity(items, city))
    case Closed(_) => None
  }

  /** Every item the location filter shows is in that state and, for a non-blank city, in that city. */
  lemma FilteredItemsMatch(collection: Option<seq<Document>>, error: Option<Exception>, state: string, city: string,
                           format: Timestamp -> string)
    ensures var shown := FilteredEvent(collection, error, state, city, format);
      shown.Some? ==> forall x :: x in shown.value ==> x.state == state && (!IsBlank(city) ==> CityMatches(x, city))
  {
    var e := ItemsByStateEvent(collection, error, state, format);
    ItemsByStateMatch(collection, error, state, format);
    if e.Emitted? {
      FilterByCitySpec(e.items, [], city);
    }
  }

  /** `HomeViewModel` with its three state flows. */
  class HomeViewModel {
    var items: seq<LostItem>
    var isLoading: bool
    var error: Option<string>

    /** Construction runs `loadAllItems`, whose start step sets the loading flag and clears the error. */
    constructor ()
      ensures items == [] && isLoading && error == None
    {
      items := [];
      isLoading := true;
      error := None;
    }

    /** The start step of `loadAllItems`: loading, no error, the shown items kept. */
    method LoadAllItems()
      modifies this
      ensures isLoading && error == None && items == old(items)
    {
      isLoading := true;
      error := None;
    }

    /** `refresh` starts the same load. */
    method Refresh()
      modifies this
      ensures isLoading && error == None && items == old(items)
    {
      LoadAllItems();
    }

    /**
     * One event of the all-items stream: an emission shows that list and ends loading; the stream's
     * failure shows its message, or "Failed to load items", ends loading and keeps the items.
     */
    method OnAllItems(event: StreamEvent)
      modifies this
      ensures !isLoading
      ensures event.Emitted? ==> items == event.items && error == old(error)
      ensures event.Closed? ==> items == old(items) && error == Some(MessageOr(event.error, "Failed to load items"))
    {
      match event
      case Emitted(list) =>
        items := list;
        isLoading := false;
      case Closed(e) =>
        error := Some(MessageOr(e, "Failed to load items"));
        isLoading := false;
    }

    /** The start step of `filterByLocation`, the same as the load's. */
    method FilterByLocation()
      modifies this
      ensures isLoading && error == None && items == old(items)
    {
      isLoading := true;
      error := None;
    }

    /**
     * One event of the state stream `filterByLocation(city, state)` subscribed to: an emission shows
     * its city-filtered list; a failure shows its message, or "Failed to filter items".
     */
    method OnStateItems(city: string, event: StreamEvent)
      modifies this
      ensures !isLoading
      ensures event.Emitted? ==> items == FilterByCity(event.items, city) && error == old(error)
      ensures event.Closed? ==> items == old(items) && error == Some(MessageOr(event.error, "Failed to filter items"))
    {
      match event
      case Emitted(list) =>
        var filtered := if !IsBlank(city) then KeepCity(list, city) else list;
        items := filtered;
        isLoading := false;
      case Closed(e) =>
        error := Some(MessageOr(e, "Failed to filter items"));
        isLoading := false;
    }
  }
}
