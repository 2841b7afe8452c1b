/**
  The immutable response envelopes and the paginated carrier. Every C# class
  here has get-only properties set once in its constructor, so each is a
  datatype; the constructors that do more than store their arguments (the
  `??` normalisation of a null sequence) are functions.
 */
module Envelopes {
  import opened Wrappers

  /** `ApiObjectResponse<T>`: `Data` is stored as given, null included. */
  datatype ApiObjectResponse<T> = ApiObjectResponse(data: Option<T>)

  /** `ApiErrorResponse`: the error list is stored as given (null, empty, unsorted, duplicates). */
  datatype ApiErrorResponse = ApiErrorResponse(errors: Option<seq<string>>)

  /** `ApiCollectionResponse<T>`: `HasMoreItems` is a `bool?`, `Items` is never null. */
  datatype ApiCollectionResponse<T> = ApiCollectionResponse(hasMoreItems: Option<bool>, items: seq<T>)

  /** `PaginatedCollection<T>`: a page of items and the "more data follows" flag. */
  datatype PaginatedCollection<T> = PaginatedCollection(items: seq<T>, thereAreMoreItems: bool)

  /** The `items ?? Array.Empty<T>()` (or `Enumerable.Empty<T>()`) normalisation. */
  function OrEmpty<T>(items: Option<seq<T>>): seq<T>
  {
    match items
    case Some(s) => s
    case None => []
  }

  /** The one-argument constructor: a static collection, without `HasMoreItems`. */
  function StaticCollection<T>(items: Option<seq<T>>): (r: ApiCollectionResponse<T>)
    ensures r.hasMoreItems == None
    ensures items.Some? ==> r.items == items.value
    ensures items.None? ==> r.items == []
  {
    ApiCollectionResponse(None, OrEmpty(items))
  }

  /** The two-argument constructor: a dynamic collection, `HasMoreItems` always set. */
  function DynamicCollection<T>(items: Option<seq<T>>, hasMoreItems: bool): (r: ApiCollectionResponse<T>)
    ensures r.hasMoreItems == Some(hasMoreItems)
    ensures items.Some? ==> r.items == items.value
    ensures items.None? ==> r.items == []
  {
    ApiCollectionResponse(Some(hasMoreItems), OrEmpty(items))
  }

  /** The `PaginatedCollection` constructor; no consistency check ties the flag to the items. */
  function NewPaginatedCollection<T>(data: Option<seq<T>>, thereIsMoreData: bool): (r: PaginatedCollection<T>)
    ensures r.thereAreMoreItems == thereIsMoreData
    ensures data.Some? ==> r.items == data.value
    ensures data.None? ==> r.items == []
  {
    PaginatedCollection(OrEmpty(data), thereIsMoreData)
  }

  /**
    The JSON property names written for a collection envelope, in declaration
    order: `HasMoreItems` carries "ignore when writing null", `Items` is required.
   */
  function JsonProperties<T>(r: ApiCollectionResponse<T>): (names: seq<string>)
    ensures "items" in names
    ensures "hasMoreItems" in names <==> r.hasMoreItems.Some?
    ensures forall n :: n in names ==> n == "items" || n == "hasMoreItems"
    ensures forall i, j :: 0 <= i < j < |names| ==> names[i] != names[j]
  {
    if r.hasMoreItems.Some? then ["hasMoreItems", "items"] else ["items"]
  }

  /** Whether `hasMoreItems` is written depends only on which constructor built the envelope. */
  lemma HasMoreItemsPresenceFollowsConstructor<T>(items: Option<seq<T>>, hasMoreItems: bool)
    ensures "hasMoreItems" !in JsonProperties(StaticCollection(items))
    ensures "hasMoreItems" in JsonProperties(DynamicCollection(items, hasMoreItems))
  {
  }

  /** The three constructors that take a nullable sequence normalise it identically. */
  lemma ConstructorsNormaliseAlike<T>(items: Option<seq<T>>, flag: bool)
    ensures StaticCollection(items).items == DynamicCollection(items, flag).items
    ensures DynamicCollection(items, flag).items == NewPaginatedCollection(items, flag).items
  {
  }

  /** Every collection envelope is what one of the two constructors builds from its own items. */
  lemma CollectionFromConstructor<T>(r: ApiCollectionResponse<T>)
    ensures r.hasMoreItems.None? ==> r == StaticCollection(Some(r.items))
    ensures r.hasMoreItems.Some? ==> r == DynamicCollection(Some(r.items), r.hasMoreItems.value)
  {
  }
}
