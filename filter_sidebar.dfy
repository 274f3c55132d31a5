/** The marketplace filter sidebar's list of active filters, and the flag
    saying whether there is any. */
module FilterSidebar {
  import opened Common
  import Marketplace

  /** `.filter(Boolean)` on strings and nulls: keeps the non-empty strings. */
  function Compact(items: seq<Option<string>>): (r: seq<string>)
    ensures |r| <= |items|
  {
    if items == [] then []
    else if items[0].Some? && items[0].value != "" then [items[0].value] + Compact(items[1..])
    else Compact(items[1..])
  }

  /** The label for one selection: present when the selection is not its
      "all" value. */
  function Label(active: bool, text: string): Option<string>
  {
    if active then Some(text) else None
  }

  /** The list built by the sidebar's state initialiser, in order: search,
      city, type, price. */
  function ActiveFilters(query: string, city: string, kind: string, price: string): (r: seq<string>)
  {
    Compact([Label(query != "", "Search"), Label(city != Marketplace.AllCities, city),
             Label(kind != Marketplace.AllTypes, kind), Label(price != Marketplace.AnyPrice, price)])
  }

  /** What `Boolean` keeps of one entry: a non-empty string. */
  function Kept(o: Option<string>): (r: seq<string>)
    ensures |r| <= 1
  {
    if o.Some? && o.value != "" then [o.value] else []
  }

  lemma CompactCons(x: Option<string>, rest: seq<Option<string>>)
    ensures Compact([x] + rest) == Kept(x) + Compact(rest)
  {
    assert ([x] + rest)[1..] == rest;
  }

  lemma Compact1(d: Option<string>)
    ensures Compact([d]) == Kept(d)
  {
    CompactCons(d, []);
    assert [d] + [] == [d];
  }

  lemma Compact2(c: Option<string>, d: Option<string>)
    ensures Compact([c, d]) == Kept(c) + Kept(d)
  {
    Compact1(d);
    CompactCons(c, [d]);
    assert [c] + [d] == [c, d];
  }

  lemma Compact3(b: Option<string>, c: Option<string>, d: Option<string>)
    ensures Compact([b, c, d]) == Kept(b) + Kept(c) + Kept(d)
  {
    Compact2(c, d);
    CompactCons(b, [c, d]);
    assert [b] + [c, d] == [b, c, d];
  }

  lemma Compact4(a: Option<string>, b: Option<string>, c: Option<string>, d: Option<string>)
    ensures Compact([a, b, c, d]) == Kept(a) + Kept(b) + Kept(c) + Kept(d)
  {
    var rest := [b, c, d];
    assert [a, b, c, d] == [a] + rest;
    CompactCons(a, rest);
    Compact3(b, c, d);
    AppendAssoc(Kept(a), Kept(b), Kept(c), Kept(d));
  }

  lemma AppendAssoc<T>(w: seq<T>, x: seq<T>, y: seq<T>, z: seq<T>)
    ensures w + (x + y + z) == w + x + y + z
  {
  }

  /** The list holds, in the fixed order, each selection that differs from
      its "all" value and is not the empty string, which `Boolean` rejects;
      so it has at most four entries. */
  lemma ActiveFiltersInOrder(query: string, city: string, kind: string, price: string)
    ensures ActiveFilters(query, city, kind, price) ==
      (if query != "" then ["Search"] else []) +
      (if city != Marketplace.AllCities && city != "" then [city] else []) +
      (if kind != Marketplace.AllTypes && kind != "" then [kind] else []) +
      (if price != Marketplace.AnyPrice && price != "" then [price] else [])
    ensures |ActiveFilters(query, city, kind, price)| <= 4
  {
    Compact4(Label(query != "", "Search"), Label(city != Marketplace.AllCities, city),
             Label(kind != Marketplace.AllTypes, kind), Label(price != Marketplace.AnyPrice, price));
  }

  /** `hasActiveFilters`: some selection shows up. */
  lemma HasActiveFiltersIff(query: string, city: string, kind: string, price: string)
    ensures |ActiveFilters(query, city, kind, price)| > 0 <==>
      query != "" || (city != Marketplace.AllCities && city != "") ||
      (kind != Marketplace.AllTypes && kind != "") || (price != Marketplace.AnyPrice && price != "")
  {
    ActiveFiltersInOrder(query, city, kind, price);
  }

  /** The sidebar as mounted: the list is taken once from the selections at
      mount time and kept; later selections only change the props. */
  class SidebarState {
    var query: string
    var city: string
    var kind: string
    var price: string
    const activeFilters: seq<string>

    constructor(query: string, city: string, kind: string, price: string)
      ensures this.query == query && this.city == city && this.kind == kind && this.price == price
      ensures activeFilters == ActiveFilters(query, city, kind, price)
    {
      this.query, this.city, this.kind, this.price := query, city, kind, price;
      activeFilters := ActiveFilters(query, city, kind, price);
    }

    function HasActiveFilters(): (r: bool)
      reads this
      ensures r <==> activeFilters != []
    {
      |activeFilters| > 0
    }

    /** A re-render with new selections. */
    method Rerender(query: string, city: string, kind: string, price: string)
      modifies this
      ensures this.query == query && this.city == city && this.kind == kind && this.price == price
    {
      this.query, this.city, this.kind, this.price := query, city, kind, price;
    }
  }

  /** After the selections change, the list may no longer describe them: a
      sidebar mounted with no filters keeps reporting none after a city is
      chosen. */
  method StaleAfterRerender() returns (shown: seq<string>, current: seq<string>)
    ensures shown == [] && current == ["London"]
  {
    var sidebar := new SidebarState("", Marketplace.AllCities, Marketplace.AllTypes, Marketplace.AnyPrice);
    ActiveFiltersInOrder("", Marketplace.AllCities, Marketplace.AllTypes, Marketplace.AnyPrice);
    sidebar.Rerender("", "London", Marketplace.AllTypes, Marketplace.AnyPrice);
    ActiveFiltersInOrder("", "London", Marketplace.AllTypes, Marketplace.AnyPrice);
    shown := sidebar.activeFilters;
    current := ActiveFilters(sidebar.query, sidebar.city, sidebar.kind, sidebar.price);
  }
}
