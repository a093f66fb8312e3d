/** The sort bar of the product list: how a sort or a price order rewrites the
    query configuration, which path the list is reopened at, and which control
    shows as selected. */
module SortProductList {
  import opened Forms

  /** The list's query parameters, by name. */
  type QueryConfig = map<string, string>

  /** Where `navigate` is sent: a path and the query parameters. */
  datatype Navigation = Navigation(pathname: string, search: QueryConfig)

  const SortByKey := "sortBy"
  const OrderByKey := "orderBy"
  const CategoriesKey := "categories"

  /** A parent category id that JavaScript treats as true: present and non-empty. */
  predicate HasParent(categoryParentId: Option<string>)
  {
    categoryParentId.Some? && categoryParentId.value != ""
  }

  /** The list is reopened under its parent category, or on the search page. */
  function ListPath(categoryParentId: Option<string>): (path: string)
    ensures HasParent(categoryParentId) ==> path == "/categories/" + categoryParentId.value
    ensures !HasParent(categoryParentId) ==> path == "/search"
  {
    if HasParent(categoryParentId) then "/categories/" + categoryParentId.value else "/search"
  }

  /** The keys a sort drops: the price order always, the category filter too
      when there is no parent category. */
  function DroppedBySort(categoryParentId: Option<string>): set<string>
  {
    if HasParent(categoryParentId) then {OrderByKey} else {OrderByKey, CategoriesKey}
  }

  /** `handleSort`: the configuration with `sortBy` replaced and the dropped keys
      removed, every other key unchanged. */
  function HandleSort(config: QueryConfig, categoryParentId: Option<string>, sortBy: string): (nav: Navigation)
    ensures nav.pathname == ListPath(categoryParentId)
    ensures SortByKey in nav.search && nav.search[SortByKey] == sortBy
    ensures OrderByKey !in nav.search
    ensures HasParent(categoryParentId) ==> nav.search.Keys == (config.Keys + {SortByKey}) - {OrderByKey}
    ensures !HasParent(categoryParentId) ==> nav.search.Keys == (config.Keys + {SortByKey}) - {OrderByKey, CategoriesKey}
    ensures forall k :: k in config && k != SortByKey && k !in DroppedBySort(categoryParentId) ==>
                        k in nav.search && nav.search[k] == config[k]
  {
    Navigation(ListPath(categoryParentId), config[SortByKey := sortBy] - DroppedBySort(categoryParentId))
  }

  /** `handlePriceOrder`: the configuration sorted by price in the given order;
      nothing is removed and every other key is unchanged. */
  function HandlePriceOrder(config: QueryConfig, categoryParentId: Option<string>, orderBy: string): (nav: Navigation)
    ensures nav.pathname == ListPath(categoryParentId)
    ensures nav.search.Keys == config.Keys + {SortByKey, OrderByKey}
    ensures nav.search[SortByKey] == "price" && nav.search[OrderByKey] == orderBy
    ensures forall k :: k in config && k != SortByKey && k != OrderByKey ==> nav.search[k] == config[k]
  {
    Navigation(ListPath(categoryParentId), config[SortByKey := "price"][OrderByKey := orderBy])
  }

  /** A sort button is highlighted when the configuration sorts by its value. */
  predicate SortButtonActive(config: QueryConfig, value: string)
  {
    SortByKey in config && config[SortByKey] == value
  }

  /** The price select's value: the order when sorting by price, else none. */
  function PriceSelectValue(config: QueryConfig): (v: Option<string>)
    ensures v.Some? <==> SortButtonActive(config, "price") && OrderByKey in config
    ensures v.Some? ==> v.value == config[OrderByKey]
  {
    if SortButtonActive(config, "price") && OrderByKey in config then Some(config[OrderByKey]) else None
  }

  /** Sorting twice by the same value is sorting once. */
  lemma HandleSortIdempotent(config: QueryConfig, categoryParentId: Option<string>, sortBy: string)
    ensures HandleSort(HandleSort(config, categoryParentId, sortBy).search, categoryParentId, sortBy)
            == HandleSort(config, categoryParentId, sortBy)
  {
  }

  /** After a sort exactly its button is highlighted and the price select is
      empty, whatever was selected before. */
  lemma HandleSortSelects(config: QueryConfig, categoryParentId: Option<string>, sortBy: string, button: string)
    ensures SortButtonActive(HandleSort(config, categoryParentId, sortBy).search, button) <==> button == sortBy
    ensures PriceSelectValue(HandleSort(config, categoryParentId, sortBy).search) == None
  {
  }

  /** After a price order the select shows that order and no other sort button
      is highlighted. */
  lemma HandlePriceOrderSelects(config: QueryConfig, categoryParentId: Option<string>, orderBy: string, button: string)
    ensures PriceSelectValue(HandlePriceOrder(config, categoryParentId, orderBy).search) == Some(orderBy)
    ensures SortButtonActive(HandlePriceOrder(config, categoryParentId, orderBy).search, button) <==> button == "price"
  {
  }

  /** A price order forgets how the list was sorted or ordered before. */
  lemma HandlePriceOrderOverwrites(config: QueryConfig, categoryParentId: Option<string>, sortBy: string, orderBy: string, order: string)
    ensures HandlePriceOrder(config[SortByKey := sortBy][OrderByKey := order], categoryParentId, orderBy)
            == HandlePriceOrder(config, categoryParentId, orderBy)
  {
  }
}
