/** The marketplace page: the cart and wishlist updaters, the search, city,
    type and price filters followed by the chosen sort, and the two totals. */
module Marketplace {
  import opened Common
  import JsString

  /** A listed property, with the fields the page and its components read.
      `createdAt` is the creation time in milliseconds. */
  datatype Property = Property(id: int, title: string, location: string, description: string,
                               kind: string, price: int, isFeatured: bool, createdAt: int,
                               country: string)

  datatype CartItem = CartItem(property: Property, quantity: int)

  /** The "no filter" value of each selection. */
  const AllCities: string := "All Cities"
  const AllTypes: string := "All Types"
  const AnyPrice: string := "Any Price"

  // ---------------------------------------------------------------- cart

  predicate InCart(cart: seq<CartItem>, id: int)
  {
    exists i :: 0 <= i < |cart| && cart[i].property.id == id
  }

  /** No two cart entries hold the same property. */
  predicate UniqueIds(cart: seq<CartItem>)
  {
    forall i, j :: 0 <= i < j < |cart| ==> cart[i].property.id != cart[j].property.id
  }

  /** Every entry holding `id` gets `f` applied; the others are kept. */
  function MapWhere(cart: seq<CartItem>, id: int, f: CartItem -> CartItem): (r: seq<CartItem>)
    ensures |r| == |cart|
    ensures forall i :: 0 <= i < |cart| ==> r[i] == if cart[i].property.id == id then f(cart[i]) else cart[i]
  {
    seq(|cart|, i requires 0 <= i < |cart| => if cart[i].property.id == id then f(cart[i]) else cart[i])
  }

  /** `addToCart`: a property already in the cart has its quantity raised by
      one; a new one is appended with quantity one. */
  function CartAdd(cart: seq<CartItem>, p: Property): (r: seq<CartItem>)
    ensures InCart(cart, p.id) ==> (|r| == |cart| &&
      forall i :: 0 <= i < |cart| ==>
        && r[i].property == cart[i].property
        && r[i].quantity == (if cart[i].property.id == p.id then cart[i].quantity + 1 else cart[i].quantity))
    ensures !InCart(cart, p.id) ==> r == cart + [CartItem(p, 1)]
    ensures InCart(r, p.id)
  {
    if InCart(cart, p.id) then MapWhere(cart, p.id, (item: CartItem) => item.(quantity := item.quantity + 1))
    else
      assert (cart + [CartItem(p, 1)])[|cart|].property.id == p.id;
      cart + [CartItem(p, 1)]
  }

  /** `removeFromCart`: the entries holding `id` go, the rest stay in order. */
  function CartRemove(cart: seq<CartItem>, id: int): (r: seq<CartItem>)
    ensures !InCart(r, id)
    ensures forall i :: 0 <= i < |cart| && cart[i].property.id != id ==> cart[i] in r
    ensures forall i :: 0 <= i < |r| ==> r[i] in cart
    ensures IsSubsequence(r, cart)
    ensures forall x :: multiset(r)[x] == if x.property.id != id then multiset(cart)[x] else 0
  {
    var keep := (item: CartItem) => item.property.id != id;
    FilterIsSubsequence(cart, keep);
    forall x
      ensures multiset(Filter(cart, keep))[x] == if x.property.id != id then multiset(cart)[x] else 0
    {
      FilterCount(cart, keep, x);
    }
    Filter(cart, keep)
  }

  /** `updateQuantity`: below one it removes, otherwise it sets the quantity
      of the entries holding `id`. */
  function CartUpdate(cart: seq<CartItem>, id: int, quantity: int): (r: seq<CartItem>)
    ensures quantity < 1 ==> r == CartRemove(cart, id)
    ensures quantity >= 1 ==> (|r| == |cart| &&
      forall i :: 0 <= i < |cart| ==>
        && r[i].property == cart[i].property
        && r[i].quantity == (if cart[i].property.id == id then quantity else cart[i].quantity))
  {
    if quantity < 1 then CartRemove(cart, id)
    else MapWhere(cart, id, (item: CartItem) => item.(quantity := quantity))
  }

  /** Keeping a sub-list of a cart keeps its properties distinct. */
  lemma {:induction false} FilterKeepsUnique(cart: seq<CartItem>, p: CartItem -> bool)
    requires UniqueIds(cart)
    ensures UniqueIds(Filter(cart, p))
  {
    if cart != [] {
      var tail := cart[1..];
      UniqueTail(cart);
      FilterKeepsUnique(tail, p);
      var rest := Filter(tail, p);
      if p(cart[0]) {
        assert Filter(cart, p) == [cart[0]] + rest;
        forall j | 0 <= j < |rest|
          ensures rest[j].property.id != cart[0].property.id
        {
          assert rest[j] in tail;
          var k :| 0 <= k < |tail| && tail[k] == rest[j];
          assert tail[k] == cart[k + 1];
        }
        UniqueCons(cart[0], rest);
      } else {
        assert Filter(cart, p) == rest;
      }
    }
  }

  lemma UniqueTail(cart: seq<CartItem>)
    requires cart != [] && UniqueIds(cart)
    ensures UniqueIds(cart[1..])
  {
    var tail := cart[1..];
    forall i, j | 0 <= i < j < |tail|
      ensures tail[i].property.id != tail[j].property.id
    {
      assert tail[i] == cart[i + 1] && tail[j] == cart[j + 1];
    }
  }

  /** An item whose property is not in a cart of distinct properties can
      go in front of it. */
  lemma UniqueCons(h: CartItem, rest: seq<CartItem>)
    requires UniqueIds(rest)
    requires forall j :: 0 <= j < |rest| ==> rest[j].property.id != h.property.id
    ensures UniqueIds([h] + rest)
  {
    var r := [h] + rest;
    forall i, j | 0 <= i < j < |r|
      ensures r[i].property.id != r[j].property.id
    {
      assert r[j] == rest[j - 1];
      if i > 0 {
        assert r[i] == rest[i - 1];
      }
    }
  }

  /** All three updaters keep the cart's properties distinct. */
  lemma CartUpdatersKeepUnique(cart: seq<CartItem>, p: Property, id: int, quantity: int)
    requires UniqueIds(cart)
    ensures UniqueIds(CartAdd(cart, p))
    ensures UniqueIds(CartRemove(cart, id))
    ensures UniqueIds(CartUpdate(cart, id, quantity))
  {
    CartUpdateKeepsUnique(cart, id, quantity);
    if !InCart(cart, p.id) {
      var r := CartAdd(cart, p);
      forall i, j | 0 <= i < j < |r|
        ensures r[i].property.id != r[j].property.id
      {
        if j == |cart| {
          assert r[i] == cart[i];
        } else {
          assert r[i] == cart[i] && r[j] == cart[j];
        }
      }
    }
  }

  /** Removing, or setting a quantity, keeps the cart's properties distinct. */
  lemma CartUpdateKeepsUnique(cart: seq<CartItem>, id: int, quantity: int)
    requires UniqueIds(cart)
    ensures UniqueIds(CartRemove(cart, id))
    ensures UniqueIds(CartUpdate(cart, id, quantity))
  {
    FilterKeepsUnique(cart, (item: CartItem) => item.property.id != id);
  }

  // ------------------------------------------------------------ wishlist

  /** No id occurs twice. */
  predicate Distinct(w: seq<int>)
  {
    forall i, j :: 0 <= i < j < |w| ==> w[i] != w[j]
  }

  /** `toggleWishlist`: removes `id` when present, appends it when absent. */
  function WishlistToggle(w: seq<int>, id: int): (r: seq<int>)
    ensures id in r <==> id !in w
    ensures forall x :: x != id ==> (x in r <==> x in w)
    ensures id !in w ==> r == w + [id]
  {
    if id in w then Filter(w, (x: int) => x != id) else w + [id]
  }

  /** Toggling twice restores the membership of every id. */
  lemma ToggleTwice(w: seq<int>, id: int)
    ensures forall x :: x in WishlistToggle(WishlistToggle(w, id), id) <==> x in w
  {
  }

  /** An id absent from the list is removed again by a second toggle, which
      restores the list itself. */
  lemma {:induction false} ToggleTwiceAbsent(w: seq<int>, id: int)
    requires id !in w
    ensures WishlistToggle(WishlistToggle(w, id), id) == w
  {
    FilterAppend(w, [id], (x: int) => x != id);
    FilterAllKept(w, id);
  }

  /** Filtering out an id that does not occur changes nothing. */
  lemma {:induction false} FilterAllKept(w: seq<int>, id: int)
    requires id !in w
    ensures Filter(w, (x: int) => x != id) == w
  {
    if w != [] {
      assert w[1..] == w[1..];
      assert id !in w[1..];
      FilterAllKept(w[1..], id);
      assert w == [w[0]] + w[1..];
    }
  }

  /** Toggling keeps the ids distinct. */
  lemma ToggleKeepsDistinct(w: seq<int>, id: int)
    requires Distinct(w)
    ensures Distinct(WishlistToggle(w, id))
  {
    if id in w {
      FilterKeepsDistinct(w, (x: int) => x != id);
    }
  }

  lemma {:induction false} FilterKeepsDistinct(w: seq<int>, p: int -> bool)
    requires Distinct(w)
    ensures Distinct(Filter(w, p))
  {
    if w != [] {
      var tail := w[1..];
      assert Distinct(tail) by {
        forall i, j | 0 <= i < j < |tail|
          ensures tail[i] != tail[j]
        {
          assert tail[i] == w[i + 1] && tail[j] == w[j + 1];
        }
      }
      FilterKeepsDistinct(tail, p);
      if p(w[0]) {
        assert w[0] !in tail;
        assert Filter(w, p) == [w[0]] + Filter(tail, p);
      }
    }
  }

  // ------------------------------------------------------------- filters

  function Lower(s: string): string
  {
    JsString.ToLowerCase(s)
  }

  /** Case-insensitive substring search on title, location or description. */
  predicate MatchesSearch(p: Property, query: string)
  {
    JsString.Includes(Lower(p.title), Lower(query)) ||
    JsString.Includes(Lower(p.location), Lower(query)) ||
    JsString.Includes(Lower(p.description), Lower(query))
  }

  /** A price bracket; `max == None` is an unbounded top. */
  datatype PriceRange = PriceRange(name: string, min: int, max: Option<int>)

  const PriceRanges: seq<PriceRange> := [
    PriceRange("Any Price", 0, None),
    PriceRange("Under $100K", 0, Some(100000)),
    PriceRange("$100K - $500K", 100000, Some(500000)),
    PriceRange("$500K - $1M", 500000, Some(1000000)),
    PriceRange("$1M - $5M", 1000000, Some(5000000)),
    PriceRange("Over $5M", 5000000, None)
  ]

  /** `priceRanges.find(range => range.label === name)`. */
  function FindRange(ranges: seq<PriceRange>, name: string): (r: Option<PriceRange>)
    ensures r.Some? ==> r.value in ranges && r.value.name == name
    ensures r.None? <==> forall i :: 0 <= i < |ranges| ==> ranges[i].name != name
  {
    if ranges == [] then None
    else if ranges[0].name == name then Some(ranges[0])
    else FindRange(ranges[1..], name)
  }

  predicate InRange(price: int, range: PriceRange)
  {
    range.min <= price && (range.max.None? || price <= range.max.value)
  }

  /** The four filters as one condition, each active only when its selection
      is not the "all" value; an unknown price label filters nothing. */
  predicate Accepts(query: string, city: string, kind: string, priceLabel: string, p: Property)
  {
    && (query != "" ==> MatchesSearch(p, query))
    && (city != AllCities ==> JsString.Includes(Lower(p.location), Lower(city)))
    && (kind != AllTypes ==> Lower(p.kind) == Lower(kind))
    && (ActiveRange(priceLabel).Some? ==> InRange(p.price, ActiveRange(priceLabel).value))
  }

  /** One step of the filter chain: `filtered = filtered.filter(p)` when the
      filter is active. */
  function Step(s: seq<Property>, active: bool, p: Property -> bool): seq<Property>
  {
    if active then Filter(s, p) else s
  }

  /** The condition a step imposes: `p` when active, nothing otherwise. */
  function Gate(active: bool, p: Property -> bool): Property -> bool
  {
    x => active ==> p(x)
  }

  /** A step keeps exactly the elements that pass it, in order. */
  lemma StepIsFilter(s: seq<Property>, active: bool, p: Property -> bool)
    ensures Step(s, active, p) == Filter(s, Gate(active, p))
  {
    if active {
      FilterExt(s, p, Gate(active, p));
    } else {
      FilterTrue(s, Gate(active, p));
    }
  }

  /** Four steps in a row keep exactly the elements that pass every active
      one. */
  lemma FourSteps(s: seq<Property>, a1: bool, p1: Property -> bool, a2: bool, p2: Property -> bool,
                  a3: bool, p3: Property -> bool, a4: bool, p4: Property -> bool)
    ensures Step(Step(Step(Step(s, a1, p1), a2, p2), a3, p3), a4, p4) ==
            Filter(s, Both(Both(Both(Gate(a1, p1), Gate(a2, p2)), Gate(a3, p3)), Gate(a4, p4)))
  {
    var g1, g2, g3, g4 := Gate(a1, p1), Gate(a2, p2), Gate(a3, p3), Gate(a4, p4);
    var s1 := Step(s, a1, p1);
    StepIsFilter(s, a1, p1);
    var s2 := Step(s1, a2, p2);
    StepIsFilter(s1, a2, p2);
    FilterFilter(s, g1, g2);
    var s3 := Step(s2, a3, p3);
    StepIsFilter(s2, a3, p3);
    FilterFilter(s, Both(g1, g2), g3);
    StepIsFilter(s3, a4, p4);
    FilterFilter(s, Both(Both(g1, g2), g3), g4);
  }

  function SearchFilter(query: string): Property -> bool
  {
    (p: Property) => MatchesSearch(p, query)
  }

  function CityFilter(city: string): Property -> bool
  {
    (p: Property) => JsString.Includes(Lower(p.location), Lower(city))
  }

  function KindFilter(kind: string): Property -> bool
  {
    (p: Property) => Lower(p.kind) == Lower(kind)
  }

  function PriceFilter(range: Option<PriceRange>): Property -> bool
  {
    (p: Property) => range.Some? && InRange(p.price, range.value)
  }

  /** The price bracket the selection names, when it filters at all. */
  function ActiveRange(priceLabel: string): (r: Option<PriceRange>)
    ensures r.Some? <==> priceLabel != AnyPrice && FindRange(PriceRanges, priceLabel).Some?
    ensures r.Some? ==> r == FindRange(PriceRanges, priceLabel)
  {
    if priceLabel != AnyPrice then FindRange(PriceRanges, priceLabel) else None
  }

  /** The four filters in the page's order. */
  function ApplyFilters(props: seq<Property>, query: string, city: string, kind: string,
                        priceLabel: string): seq<Property>
  {
    var range := ActiveRange(priceLabel);
    var s1 := Step(props, query != "", SearchFilter(query));
    var s2 := Step(s1, city != AllCities, CityFilter(city));
    var s3 := Step(s2, kind != AllTypes, KindFilter(kind));
    Step(s3, range.Some?, PriceFilter(range))
  }

  /** The chain of filters keeps exactly the properties every active filter
      accepts, in their listed order. */
  lemma ApplyFiltersAccepts(props: seq<Property>, query: string, city: string, kind: string, priceLabel: string)
    ensures ApplyFilters(props, query, city, kind, priceLabel) == Filter(props, p => Accepts(query, city, kind, priceLabel, p))
  {
    var range := ActiveRange(priceLabel);
    var g1, g2 := Gate(query != "", SearchFilter(query)), Gate(city != AllCities, CityFilter(city));
    var g3, g4 := Gate(kind != AllTypes, KindFilter(kind)), Gate(range.Some?, PriceFilter(range));
    FourSteps(props, query != "", SearchFilter(query), city != AllCities, CityFilter(city),
              kind != AllTypes, KindFilter(kind), range.Some?, PriceFilter(range));
    var chain := Both(Both(Both(g1, g2), g3), g4);
    forall x
      ensures chain(x) == Accepts(query, city, kind, priceLabel, x)
    {
      GatesAccept(query, city, kind, priceLabel, x);
    }
    FilterExt(props, chain, p => Accepts(query, city, kind, priceLabel, p));
  }

  lemma GatesAccept(query: string, city: string, kind: string, priceLabel: string, x: Property)
    ensures Both(Both(Both(Gate(query != "", SearchFilter(query)), Gate(city != AllCities, CityFilter(city))),
                      Gate(kind != AllTypes, KindFilter(kind))),
                 Gate(ActiveRange(priceLabel).Some?, PriceFilter(ActiveRange(priceLabel))))(x)
            == Accepts(query, city, kind, priceLabel, x)
  {
    var range := ActiveRange(priceLabel);
    assert Gate(query != "", SearchFilter(query))(x) == (query != "" ==> MatchesSearch(x, query));
    assert Gate(city != AllCities, CityFilter(city))(x) ==
           (city != AllCities ==> JsString.Includes(Lower(x.location), Lower(city)));
    assert Gate(kind != AllTypes, KindFilter(kind))(x) == (kind != AllTypes ==> Lower(x.kind) == Lower(kind));
    assert Gate(range.Some?, PriceFilter(range))(x) == (range.Some? ==> InRange(x.price, range.value));
  }

  // ---------------------------------------------------------------- sort

  /** The sort choices; any other value leaves the order as filtered. */
  datatype SortOrder = PriceLow | PriceHigh | Newest | Featured | Unsorted

  function SortOrderOf(sortBy: string): SortOrder
  {
    if sortBy == "price-low" then PriceLow
    else if sortBy == "price-high" then PriceHigh
    else if sortBy == "newest" then Newest
    else if sortBy == "featured" then Featured
    else Unsorted
  }

  /** Each comparator is `key(a) - key(b)` for this key. */
  function Key(order: SortOrder, p: Property): int
  {
    match order
    case PriceLow => p.price
    case PriceHigh => -p.price
    case Newest => -p.createdAt
    case Featured => if p.isFeatured then 0 else 1
    case Unsorted => 0
  }

  predicate SortedBy(order: SortOrder, s: seq<Property>)
  {
    forall i, j :: 0 <= i < j < |s| ==> Key(order, s[i]) <= Key(order, s[j])
  }

  /** Places `x` before the first element whose key is not smaller than
      its own. */
  function Insert(order: SortOrder, x: Property, s: seq<Property>): (r: seq<Property>)
    ensures |r| == |s| + 1
    ensures multiset(r) == multiset(s) + multiset{x}
    ensures r[0] == x || (s != [] && r[0] == s[0])
    decreases |s|
  {
    if s == [] || Key(order, x) <= Key(order, s[0]) then [x] + s
    else
      assert s == [s[0]] + s[1..];
      [s[0]] + Insert(order, x, s[1..])
  }

  lemma {:induction false} InsertSorted(order: SortOrder, x: Property, s: seq<Property>)
    requires SortedBy(order, s)
    ensures SortedBy(order, Insert(order, x, s))
    decreases |s|
  {
    if s != [] && Key(order, s[0]) < Key(order, x) {
      var tail := s[1..];
      SortedTail(order, s);
      InsertSorted(order, x, tail);
      var rest := Insert(order, x, tail);
      assert Insert(order, x, s) == [s[0]] + rest;
      assert Key(order, s[0]) <= Key(order, rest[0]) by {
        if rest[0] != x {
          assert rest[0] == s[1];
        }
      }
      SortedCons(order, s[0], rest);
    }
  }

  lemma SortedTail(order: SortOrder, s: seq<Property>)
    requires s != [] && SortedBy(order, s)
    ensures SortedBy(order, s[1..])
  {
    var tail := s[1..];
    forall i, j | 0 <= i < j < |tail|
      ensures Key(order, tail[i]) <= Key(order, tail[j])
    {
      assert tail[i] == s[i + 1] && tail[j] == s[j + 1];
    }
  }

  /** A head no greater than the first key of a sorted list keeps it sorted. */
  lemma SortedCons(order: SortOrder, h: Property, rest: seq<Property>)
    requires SortedBy(order, rest)
    requires rest != [] ==> Key(order, h) <= Key(order, rest[0])
    ensures SortedBy(order, [h] + rest)
  {
    var r := [h] + rest;
    forall i, j | 0 <= i < j < |r|
      ensures Key(order, r[i]) <= Key(order, r[j])
    {
      if i == 0 {
        assert r[j] == rest[j - 1];
        if j > 1 {
          assert Key(order, rest[0]) <= Key(order, rest[j - 1]);
        }
      } else {
        assert r[i] == rest[i - 1] && r[j] == rest[j - 1];
      }
    }
  }

  /** Insertion sort taking the elements from the right, each inserted
      before the equal keys already placed, so that equal keys keep their
      original order as `Array.prototype.sort` does. */
  function SortBy(order: SortOrder, s: seq<Property>): (r: seq<Property>)
    ensures multiset(r) == multiset(s)
    ensures SortedBy(order, r)
    decreases |s|
  {
    if s == [] then []
    else
      assert s == [s[0]] + s[1..];
      var rest := SortBy(order, s[1..]);
      InsertSorted(order, s[0], rest);
      Insert(order, s[0], rest)
  }

  /** The sort step of the page. */
  function Order(order: SortOrder, s: seq<Property>): (r: seq<Property>)
    ensures multiset(r) == multiset(s)
    ensures order != Unsorted ==> SortedBy(order, r)
    ensures order == Unsorted ==> r == s
  {
    if order == Unsorted then s else SortBy(order, s)
  }

  /** `filteredProperties`: the filters, then the sort. It holds each
      accepted property as often as the list does, and nothing else. */
  function FilteredProperties(props: seq<Property>, query: string, city: string, kind: string,
                              priceLabel: string, sortBy: string): (r: seq<Property>)
    ensures multiset(r) == multiset(Filter(props, p => Accepts(query, city, kind, priceLabel, p)))
  {
    ApplyFiltersAccepts(props, query, city, kind, priceLabel);
    Order(SortOrderOf(sortBy), ApplyFilters(props, query, city, kind, priceLabel))
  }

  /** Every shown property is listed and passes the filters, and every
      listed property that passes them is shown. */
  lemma FilteredMembers(props: seq<Property>, query: string, city: string, kind: string,
                        priceLabel: string, sortBy: string)
    ensures forall x :: x in FilteredProperties(props, query, city, kind, priceLabel, sortBy) <==>
      x in props && Accepts(query, city, kind, priceLabel, x)
  {
    var r := FilteredProperties(props, query, city, kind, priceLabel, sortBy);
    FilterMembers(props, r, p => Accepts(query, city, kind, priceLabel, p));
  }

  /** `price-low` gives non-decreasing prices. */
  lemma PriceLowAscending(s: seq<Property>)
    ensures var r := Order(SortOrderOf("price-low"), s);
      forall i, j :: 0 <= i < j < |r| ==> r[i].price <= r[j].price
  {
    var r := Order(PriceLow, s);
    assert SortedBy(PriceLow, r);
  }

  /** `price-high` gives non-increasing prices. */
  lemma PriceHighDescending(s: seq<Property>)
    ensures var r := Order(SortOrderOf("price-high"), s);
      forall i, j :: 0 <= i < j < |r| ==> r[i].price >= r[j].price
  {
    var r := Order(PriceHigh, s);
    assert SortedBy(PriceHigh, r);
    forall i, j | 0 <= i < j < |r|
      ensures r[i].price >= r[j].price
    {
      assert Key(PriceHigh, r[i]) <= Key(PriceHigh, r[j]);
    }
  }

  /** `newest` gives non-increasing creation times. */
  lemma NewestFirst(s: seq<Property>)
    ensures var r := Order(SortOrderOf("newest"), s);
      forall i, j :: 0 <= i < j < |r| ==> r[i].createdAt >= r[j].createdAt
  {
    var r := Order(Newest, s);
    forall i, j | 0 <= i < j < |r|
      ensures r[i].createdAt >= r[j].createdAt
    {
      assert Key(Newest, r[i]) <= Key(Newest, r[j]);
    }
  }

  /** `featured` puts every featured property before every other one. */
  lemma FeaturedFirst(s: seq<Property>)
    ensures var r := Order(SortOrderOf("featured"), s);
      forall i, j :: 0 <= i < j < |r| && r[j].isFeatured ==> r[i].isFeatured
  {
    var r := Order(Featured, s);
    forall i, j | 0 <= i < j < |r| && r[j].isFeatured
      ensures r[i].isFeatured
    {
      assert Key(Featured, r[i]) <= Key(Featured, r[j]);
    }
  }

  // -------------------------------------------------------------- totals

  /** `totalValue`: the sum of the prices. */
  function TotalValue(props: seq<Property>): int
  {
    if props == [] then 0 else props[0].price + TotalValue(props[1..])
  }

  /** `cartTotal`: the sum of price times quantity. */
  function CartTotal(cart: seq<CartItem>): int
  {
    if cart == [] then 0 else cart[0].property.price * cart[0].quantity + CartTotal(cart[1..])
  }

  lemma {:induction false} TotalValueInsert(order: SortOrder, x: Property, s: seq<Property>)
    ensures TotalValue(Insert(order, x, s)) == TotalValue(s) + x.price
    decreases |s|
  {
    if s != [] && Key(order, s[0]) < Key(order, x) {
      TotalValueInsert(order, x, s[1..]);
      assert Insert(order, x, s)[1..] == Insert(order, x, s[1..]);
    }
  }

  /** The sort does not change the total value. */
  lemma {:induction false} TotalValueSorted(order: SortOrder, s: seq<Property>)
    ensures TotalValue(Order(order, s)) == TotalValue(s)
  {
    if order != Unsorted {
      TotalValueSortBy(order, s);
    }
  }

  lemma {:induction false} TotalValueSortBy(order: SortOrder, s: seq<Property>)
    ensures TotalValue(SortBy(order, s)) == TotalValue(s)
    decreases |s|
  {
    if s != [] {
      TotalValueSortBy(order, s[1..]);
      TotalValueInsert(order, s[0], SortBy(order, s[1..]));
    }
  }

  /** The sum of price times quantity over the entries holding `id`. */
  function LineTotal(cart: seq<CartItem>, id: int): int
  {
    if cart == [] then 0
    else (if cart[0].property.id == id then cart[0].property.price * cart[0].quantity else 0) + LineTotal(cart[1..], id)
  }

  /** The sum of prices over the entries holding `id`. */
  function PriceTotal(cart: seq<CartItem>, id: int): int
  {
    if cart == [] then 0
    else (if cart[0].property.id == id then cart[0].property.price else 0) + PriceTotal(cart[1..], id)
  }

  /** Adding a property raises the cart total by its price: by the new
      entry's price when it is new, by the prices of its entries otherwise. */
  lemma {:induction false} CartTotalAdd(cart: seq<CartItem>, p: Property)
    ensures !InCart(cart, p.id) ==> CartTotal(CartAdd(cart, p)) == CartTotal(cart) + p.price
    ensures InCart(cart, p.id) ==> CartTotal(CartAdd(cart, p)) == CartTotal(cart) + PriceTotal(cart, p.id)
  {
    if InCart(cart, p.id) {
      CartTotalIncrement(cart, p.id);
    } else {
      CartTotalAppend(cart, CartItem(p, 1));
    }
  }

  lemma {:induction false} CartTotalAppend(cart: seq<CartItem>, item: CartItem)
    ensures CartTotal(cart + [item]) == CartTotal(cart) + item.property.price * item.quantity
  {
    if cart != [] {
      assert (cart + [item])[1..] == cart[1..] + [item];
      CartTotalAppend(cart[1..], item);
    }
  }

  lemma {:induction false} CartTotalIncrement(cart: seq<CartItem>, id: int)
    ensures CartTotal(MapWhere(cart, id, (item: CartItem) => item.(quantity := item.quantity + 1))) ==
            CartTotal(cart) + PriceTotal(cart, id)
  {
    var f := (item: CartItem) => item.(quantity := item.quantity + 1);
    if cart != [] {
      var r := MapWhere(cart, id, f);
      assert r[1..] == MapWhere(cart[1..], id, f);
      CartTotalIncrement(cart[1..], id);
      if cart[0].property.id == id {
        assert r[0].property.price * r[0].quantity == cart[0].property.price * cart[0].quantity + cart[0].property.price;
      }
    }
  }

  /** Removing a property lowers the cart total by its entries' share. */
  lemma {:induction false} CartTotalRemove(cart: seq<CartItem>, id: int)
    ensures CartTotal(CartRemove(cart, id)) == CartTotal(cart) - LineTotal(cart, id)
  {
    if cart != [] {
      CartTotalRemove(cart[1..], id);
      assert cart == [cart[0]] + cart[1..];
    }
  }

  // --------------------------------------------------------------- state

  class MarketplaceState {
    var searchQuery: string
    var selectedCity: string
    var selectedType: string
    var selectedPrice: string
    var sortBy: string
    var cart: seq<CartItem>
    var wishlist: seq<int>
    /** The listed properties. */
    const properties: seq<Property>

    /** The cart holds each property at most once and the wishlist each id
        at most once. */
    predicate Valid()
      reads this
    {
      UniqueIds(cart) && Distinct(wishlist)
    }

    constructor(properties: seq<Property>)
      ensures this.properties == properties
      ensures searchQuery == "" && selectedCity == AllCities && selectedType == AllTypes
      ensures selectedPrice == AnyPrice && sortBy == "featured" && cart == [] && wishlist == []
      ensures Valid()
    {
      this.properties := properties;
      searchQuery := "";
      selectedCity := AllCities;
      selectedType := AllTypes;
      selectedPrice := AnyPrice;
      sortBy := "featured";
      cart := [];
      wishlist := [];
    }

    function Filtered(): seq<Property>
      reads this
    {
      FilteredProperties(properties, searchQuery, selectedCity, selectedType, selectedPrice, sortBy)
    }

    method AddToCart(p: Property)
      requires Valid()
      modifies this
      ensures Valid()
      ensures cart == CartAdd(old(cart), p) && wishlist == old(wishlist)
      ensures searchQuery == old(searchQuery) && selectedCity == old(selectedCity) && selectedType == old(selectedType)
      ensures selectedPrice == old(selectedPrice) && sortBy == old(sortBy)
    {
      CartUpdatersKeepUnique(cart, p, p.id, 1);
      cart := CartAdd(cart, p);
    }

    method RemoveFromCart(id: int)
      requires Valid()
      modifies this
      ensures Valid()
      ensures cart == CartRemove(old(cart), id) && wishlist == old(wishlist)
      ensures searchQuery == old(searchQuery) && selectedCity == old(selectedCity) && selectedType == old(selectedType)
      ensures selectedPrice == old(selectedPrice) && sortBy == old(sortBy)
    {
      CartUpdateKeepsUnique(cart, id, 0);
      cart := CartRemove(cart, id);
    }

    method UpdateQuantity(id: int, quantity: int)
      requires Valid()
      modifies this
      ensures Valid()
      ensures cart == CartUpdate(old(cart), id, quantity) && wishlist == old(wishlist)
      ensures searchQuery == old(searchQuery) && selectedCity == old(selectedCity) && selectedType == old(selectedType)
      ensures selectedPrice == old(selectedPrice) && sortBy == old(sortBy)
    {
      if quantity < 1 {
        RemoveFromCart(id);
        return;
      }
      CartUpdateKeepsUnique(cart, id, quantity);
      cart := CartUpdate(cart, id, quantity);
    }

    method ToggleWishlist(id: int)
      requires Valid()
      modifies this
      ensures Valid()
      ensures wishlist == WishlistToggle(old(wishlist), id) && cart == old(cart)
      ensures searchQuery == old(searchQuery) && selectedCity == old(selectedCity) && selectedType == old(selectedType)
      ensures selectedPrice == old(selectedPrice) && sortBy == old(sortBy)
    {
      ToggleKeepsDistinct(wishlist, id);
      wishlist := WishlistToggle(wishlist, id);
    }

    /** `clearFilters`: the query and the three selections go back to their
        initial values; the sort, cart and wishlist are kept. */
    method ClearFilters()
      modifies this
      ensures searchQuery == "" && selectedCity == AllCities && selectedType == AllTypes && selectedPrice == AnyPrice
      ensures sortBy == old(sortBy) && cart == old(cart) && wishlist == old(wishlist)
    {
      searchQuery := "";
      selectedCity := AllCities;
      selectedType := AllTypes;
      selectedPrice := AnyPrice;
    }
  }

  /** With the filters cleared every listed property is shown, as often as
      it is listed. */
  lemma ClearedFiltersShowAll(props: seq<Property>, sortBy: string)
    ensures multiset(FilteredProperties(props, "", AllCities, AllTypes, AnyPrice, sortBy)) == multiset(props)
  {
    FilterTrue(props, p => Accepts("", AllCities, AllTypes, AnyPrice, p));
  }
}
