/**
 * `ListQuery` (OpenAISwift/Core/Models/CommonModels.swift): the pagination
 * parameters of a list request and their rendering as URL query items.
 */
module ListQueries {
  import opened Wrappers
  import opened Text

  /** `ListQuery`; every field is optional and defaults to nil. */
  datatype ListQuery = ListQuery(
    limit: Option<int>,
    after: Option<string>,
    before: Option<string>,
    order: Option<string>)

  /** `ListQuery()`, every field nil. */
  const DefaultQuery: ListQuery := ListQuery(None, None, None, None)

  /** Foundation's `URLQueryItem`: a name and an optional value. */
  datatype QueryItem = QueryItem(name: string, value: Option<string>)

  const LimitName: string := "limit"
  const AfterName: string := "after"
  const BeforeName: string := "before"
  const OrderName: string := "order"

  /** The item a present field contributes, or none for a nil field. */
  function ItemFor(name: string, value: Option<string>): seq<QueryItem> {
    if value.Some? then [QueryItem(name, value)] else []
  }

  /** The rendered `limit`: its decimal digits. */
  function LimitValue(limit: Option<int>): Option<string> {
    if limit.Some? then Some(DecimalString(limit.value)) else None
  }

  /** The items of a query: one per non-nil field, in the order limit, after, before, order. */
  function Items(query: ListQuery): seq<QueryItem> {
    ItemFor(LimitName, LimitValue(query.limit))
      + ItemFor(AfterName, query.after)
      + ItemFor(BeforeName, query.before)
      + ItemFor(OrderName, query.order)
  }

  /** `queryItems`: appends an item for each non-nil field, in declaration order. */
  method QueryItems(query: ListQuery) returns (items: seq<QueryItem>)
    ensures items == Items(query)
  {
    items := [];
    if query.limit.Some? {
      items := items + [QueryItem(LimitName, Some(DecimalString(query.limit.value)))];
    }
    if query.after.Some? {
      items := items + [QueryItem(AfterName, query.after)];
    }
    if query.before.Some? {
      items := items + [QueryItem(BeforeName, query.before)];
    }
    if query.order.Some? {
      items := items + [QueryItem(OrderName, query.order)];
    }
  }

  /** The position of a parameter name in the rendering order. */
  function Rank(name: string): int {
    if name == LimitName then 0
    else if name == AfterName then 1
    else if name == BeforeName then 2
    else if name == OrderName then 3
    else 4
  }

  function CountPresent(query: ListQuery): nat {
    (if query.limit.Some? then 1 else 0) + (if query.after.Some? then 1 else 0)
      + (if query.before.Some? then 1 else 0) + (if query.order.Some? then 1 else 0)
  }

  /** The value of the first item with the given name, if any. */
  function Lookup(items: seq<QueryItem>, name: string): Option<string> {
    if items == [] then None
    else if items[0].name == name then items[0].value
    else Lookup(items[1..], name)
  }

  lemma LookupItemFor(name: string, value: Option<string>, rest: seq<QueryItem>, key: string)
    ensures Lookup(ItemFor(name, value) + rest, key)
      == if value.Some? && name == key then value else Lookup(rest, key)
  {
    if value.Some? {
      assert (ItemFor(name, value) + rest)[1..] == rest;
    } else {
      assert ItemFor(name, value) + rest == rest;
    }
  }

  lemma LookupSingle(name: string, value: Option<string>, key: string)
    ensures Lookup(ItemFor(name, value), key) == if value.Some? && name == key then value else None
  {
    LookupItemFor(name, value, [], key);
    assert ItemFor(name, value) + [] == ItemFor(name, value);
  }

  predicate RanksIncrease(items: seq<QueryItem>) {
    forall i, j :: 0 <= i < j < |items| ==> Rank(items[i].name) < Rank(items[j].name)
  }

  predicate RanksFrom(items: seq<QueryItem>, lowest: int) {
    forall i :: 0 <= i < |items| ==> lowest <= Rank(items[i].name) < 4
  }

  lemma RankValues()
    ensures Rank(LimitName) == 0 && Rank(AfterName) == 1 && Rank(BeforeName) == 2 && Rank(OrderName) == 3
  {
  }

  /** An item placed in front of items of higher rank keeps the ranks increasing. */
  lemma ItemForBefore(name: string, value: Option<string>, rest: seq<QueryItem>, rank: int)
    requires Rank(name) == rank < 4
    requires RanksIncrease(rest) && RanksFrom(rest, rank + 1)
    ensures RanksIncrease(ItemFor(name, value) + rest) && RanksFrom(ItemFor(name, value) + rest, rank)
  {
    if value.Some? {
      var items := ItemFor(name, value) + rest;
      assert items[0].name == name;
      assert forall i :: 0 < i < |items| ==> items[i] == rest[i - 1];
    } else {
      assert ItemFor(name, value) + rest == rest;
    }
  }

  lemma ItemForCarriesValue(name: string, value: Option<string>, rest: seq<QueryItem>)
    requires forall i :: 0 <= i < |rest| ==> rest[i].value.Some?
    ensures |ItemFor(name, value) + rest| == |rest| + (if value.Some? then 1 else 0)
    ensures forall i :: 0 <= i < |ItemFor(name, value) + rest| ==> (ItemFor(name, value) + rest)[i].value.Some?
  {
  }

  /**
   * One item per non-nil field and none for a nil field, every item carries
   * a value, and the names come in the order limit, after, before, order.
   */
  lemma ItemsShape(query: ListQuery)
    ensures |Items(query)| == CountPresent(query)
    ensures forall i :: 0 <= i < |Items(query)| ==> Items(query)[i].value.Some?
    ensures RanksIncrease(Items(query)) && RanksFrom(Items(query), 0)
  {
    var l := ItemFor(LimitName, LimitValue(query.limit));
    var a := ItemFor(AfterName, query.after);
    var b := ItemFor(BeforeName, query.before);
    var o := ItemFor(OrderName, query.order);
    assert Items(query) == l + (a + (b + o));
    RankValues();
    ItemForBefore(OrderName, query.order, [], 3);
    assert o + [] == o;
    ItemForBefore(BeforeName, query.before, o, 2);
    ItemForBefore(AfterName, query.after, b + o, 1);
    ItemForBefore(LimitName, LimitValue(query.limit), a + (b + o), 0);
    ItemForCarriesValue(OrderName, query.order, []);
    ItemForCarriesValue(BeforeName, query.before, o);
    ItemForCarriesValue(AfterName, query.after, b + o);
    ItemForCarriesValue(LimitName, LimitValue(query.limit), a + (b + o));
  }

  lemma LookupItems(query: ListQuery, key: string)
    ensures Lookup(Items(query), key)
      == if query.limit.Some? && key == LimitName then LimitValue(query.limit)
         else if query.after.Some? && key == AfterName then query.after
         else if query.before.Some? && key == BeforeName then query.before
         else if query.order.Some? && key == OrderName then query.order
         else None
  {
    var l := ItemFor(LimitName, LimitValue(query.limit));
    var a := ItemFor(AfterName, query.after);
    var b := ItemFor(BeforeName, query.before);
    var o := ItemFor(OrderName, query.order);
    assert Items(query) == l + (a + (b + o));
    LookupItemFor(LimitName, LimitValue(query.limit), a + (b + o), key);
    LookupItemFor(AfterName, query.after, b + o, key);
    LookupItemFor(BeforeName, query.before, o, key);
    LookupSingle(OrderName, query.order, key);
  }

  /**
   * Each field can be read back under its own name: the limit as its decimal
   * rendering, the other three verbatim; a nil field has no item.
   */
  lemma ItemsCarryFields(query: ListQuery)
    ensures Lookup(Items(query), LimitName) == LimitValue(query.limit)
    ensures Lookup(Items(query), AfterName) == query.after
    ensures Lookup(Items(query), BeforeName) == query.before
    ensures Lookup(Items(query), OrderName) == query.order
  {
    LookupItems(query, LimitName);
    LookupItems(query, AfterName);
    LookupItems(query, BeforeName);
    LookupItems(query, OrderName);
  }

  /** Reads a query back from its items, parsing the limit's digits. */
  function FromItems(items: seq<QueryItem>): ListQuery {
    var limitText := Lookup(items, LimitName);
    ListQuery(
      if limitText.Some? then ParseDecimal(limitText.value) else None,
      Lookup(items, AfterName),
      Lookup(items, BeforeName),
      Lookup(items, OrderName))
  }

  /** The rendering loses nothing: the query is recovered from its items. */
  lemma ItemsRoundTrip(query: ListQuery)
    ensures FromItems(Items(query)) == query
  {
    ItemsCarryFields(query);
    if query.limit.Some? {
      DecimalRoundTrip(query.limit.value);
    }
  }

  /** A default query renders no items. */
  lemma DefaultQueryHasNoItems()
    ensures Items(DefaultQuery) == []
  {
  }
}
