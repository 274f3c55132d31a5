/** The market-insights panel's count of the countries among the shown
    properties. */
module MarketInsights {
  import opened Common
  import Marketplace

  /** The set of countries `new Set(filteredProperties.map(p => p.country))`. */
  function Countries(props: seq<Marketplace.Property>): (r: set<string>)
    ensures forall c :: c in r <==> exists i :: 0 <= i < |props| && props[i].country == c
  {
    if props == [] then {}
    else
      var rest := Countries(props[1..]);
      assert forall i :: 1 <= i < |props| ==> props[i] == props[1..][i - 1];
      {props[0].country} + rest
  }

  /** `uniqueCountries`: the size of that set. */
  function UniqueCountries(props: seq<Marketplace.Property>): nat
  {
    |Countries(props)|
  }

  /** There are never more countries than properties. */
  lemma {:induction false} CountriesAtMostProperties(props: seq<Marketplace.Property>)
    ensures UniqueCountries(props) <= |props|
  {
    if props != [] {
      CountriesAtMostProperties(props[1..]);
      assert Countries(props) == {props[0].country} + Countries(props[1..]);
    }
  }

  /** No country is counted exactly when nothing is shown. */
  lemma NoCountriesIffEmpty(props: seq<Marketplace.Property>)
    ensures UniqueCountries(props) == 0 <==> props == []
  {
    if props != [] {
      assert props[0].country in Countries(props);
    }
  }

  /** The count ignores the order of the list, so the sort the marketplace
      applies does not change it. */
  lemma CountriesIgnoreOrder(a: seq<Marketplace.Property>, b: seq<Marketplace.Property>)
    requires multiset(a) == multiset(b)
    ensures Countries(a) == Countries(b)
  {
    SameMembers(a, b);
    forall c
      ensures c in Countries(a) <==> c in Countries(b)
    {
      if c in Countries(a) {
        var i :| 0 <= i < |a| && a[i].country == c;
        assert a[i] in a;
        var j :| 0 <= j < |b| && b[j] == a[i];
      }
      if c in Countries(b) {
        var j :| 0 <= j < |b| && b[j].country == c;
        assert b[j] in b;
        var i :| 0 <= i < |a| && a[i] == b[j];
      }
    }
  }

  /** Showing one more property adds its country to the set. */
  lemma CountriesAppend(props: seq<Marketplace.Property>, p: Marketplace.Property)
    ensures Countries(props + [p]) == Countries(props) + {p.country}
  {
    var s := props + [p];
    forall c
      ensures c in Countries(s) <==> c in Countries(props) + {p.country}
    {
      if c in Countries(s) {
        var i :| 0 <= i < |s| && s[i].country == c;
        if i < |props| {
          assert props[i] == s[i];
        }
      }
      if c in Countries(props) {
        var i :| 0 <= i < |props| && props[i].country == c;
        assert s[i] == props[i];
      }
      if c == p.country {
        assert s[|props|] == p;
      }
    }
  }

  /** Showing one more property of an already counted country leaves the
      count as it was; one from a new country raises it by one. */
  lemma AppendCountry(props: seq<Marketplace.Property>, p: Marketplace.Property)
    ensures p.country in Countries(props) ==> UniqueCountries(props + [p]) == UniqueCountries(props)
    ensures p.country !in Countries(props) ==> UniqueCountries(props + [p]) == UniqueCountries(props) + 1
  {
    CountriesAppend(props, p);
    if p.country in Countries(props) {
      assert Countries(props) + {p.country} == Countries(props);
    }
  }

  /** A list holding exactly the members of `props` that pass `keep` has
      exactly their countries. */
  lemma CountriesOfMembers(r: seq<Marketplace.Property>, props: seq<Marketplace.Property>,
                           keep: Marketplace.Property -> bool)
    requires forall x :: x in r <==> x in props && keep(x)
    ensures forall c :: c in Countries(r) <==> exists i :: 0 <= i < |props| && props[i].country == c && keep(props[i])
  {
    forall c
      ensures c in Countries(r) <==> exists i :: 0 <= i < |props| && props[i].country == c && keep(props[i])
    {
      if c in Countries(r) {
        var j :| 0 <= j < |r| && r[j].country == c;
        assert r[j] in r;
        var i :| 0 <= i < |props| && props[i] == r[j];
      }
      if exists i :: 0 <= i < |props| && props[i].country == c && keep(props[i]) {
        var i :| 0 <= i < |props| && props[i].country == c && keep(props[i]);
        assert props[i] in props;
        var j :| 0 <= j < |r| && r[j] == props[i];
      }
    }
  }

  /** The countries counted are exactly those of the listed properties that
      pass the filters. */
  lemma ShownCountries(props: seq<Marketplace.Property>, query: string, city: string, kind: string,
                       priceLabel: string, sortBy: string)
    ensures forall c :: c in Countries(Marketplace.FilteredProperties(props, query, city, kind, priceLabel, sortBy)) <==>
      exists i :: 0 <= i < |props| && props[i].country == c && Marketplace.Accepts(query, city, kind, priceLabel, props[i])
  {
    var r := Marketplace.FilteredProperties(props, query, city, kind, priceLabel, sortBy);
    var keep := (p: Marketplace.Property) => Marketplace.Accepts(query, city, kind, priceLabel, p);
    Marketplace.FilteredMembers(props, query, city, kind, priceLabel, sortBy);
    assert forall x :: x in r <==> x in props && keep(x);
    CountriesOfMembers(r, props, keep);
  }
}
