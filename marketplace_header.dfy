/** The marketplace header's search box: the suggestions matching the query,
    the two handlers that change the query, and when the dropdown shows. */
module MarketplaceHeader {
  import opened Common
  import JsString

  const SampleSuggestions: seq<string> := [
    "Luxury apartments in Manhattan",
    "Waterfront villas in Miami",
    "Commercial spaces in London",
    "Modern lofts in Tokyo",
    "Beach houses in Bali",
    "Penthouse in Dubai"
  ]

  /** Whether a suggestion contains the query, ignoring case. */
  predicate Matches(query: string, suggestion: string)
  {
    JsString.Includes(JsString.ToLowerCase(suggestion), JsString.ToLowerCase(query))
  }

  /** The suggestion effect over the component's samples: none for an empty
      query, otherwise the samples that contain it, in their order. */
  function Suggestions(samples: seq<string>, query: string): (r: seq<string>)
    ensures query == "" ==> r == []
    ensures forall i :: 0 <= i < |r| ==> r[i] in samples && Matches(query, r[i])
    ensures query != "" ==> forall s :: s in samples && Matches(query, s) ==> s in r
  {
    if query == "" then []
    else Filter(samples, s => Matches(query, s))
  }

  /** The suggestions keep the samples' order. */
  lemma SuggestionsAreSubsequence(samples: seq<string>, query: string)
    ensures IsSubsequence(Suggestions(samples, query), samples)
  {
    if query != "" {
      FilterIsSubsequence(samples, s => Matches(query, s));
    }
  }

  /** Every string contains itself, so a non-empty sample used as the query
      suggests at least itself. */
  lemma SampleSuggestsItself(samples: seq<string>, s: string)
    requires s in samples && s != ""
    ensures s in Suggestions(samples, s)
  {
    JsString.IncludesSelf(JsString.ToLowerCase(s));
  }

  /** The header's own state; the query belongs to the page and is changed
      through its setter. */
  class HeaderState {
    var searchQuery: string
    var isSearchFocused: bool
    var searchSuggestions: seq<string>
    /** The component's constant list of sample searches. */
    const samples: seq<string>

    constructor(searchQuery: string)
      ensures this.searchQuery == searchQuery && !isSearchFocused && searchSuggestions == []
      ensures samples == SampleSuggestions
    {
      samples := SampleSuggestions;
      this.searchQuery := searchQuery;
      isSearchFocused := false;
      searchSuggestions := [];
    }

    /** The dropdown shows when the box is focused or holds a query, and
        there is something to show. */
    function DropdownVisible(): (r: bool)
      reads this
      ensures r <==> (isSearchFocused || searchQuery != "") && |searchSuggestions| > 0
    {
      (isSearchFocused || searchQuery != "") && |searchSuggestions| > 0
    }

    /** The effect, run after a render in which the query changed. */
    method OnQueryChanged()
      modifies this
      ensures searchSuggestions == Suggestions(samples, searchQuery)
      ensures searchQuery == old(searchQuery) && isSearchFocused == old(isSearchFocused)
    {
      searchSuggestions := Suggestions(samples, searchQuery);
    }

    /** Typing into the box: the query changes and the effect runs. */
    method Type(query: string)
      modifies this
      ensures searchQuery == query && searchSuggestions == Suggestions(samples, query)
      ensures isSearchFocused == old(isSearchFocused)
    {
      searchQuery := query;
      OnQueryChanged();
    }

    method SetFocused(focused: bool)
      modifies this
      ensures isSearchFocused == focused
      ensures searchQuery == old(searchQuery) && searchSuggestions == old(searchSuggestions)
    {
      isSearchFocused := focused;
    }

    /** `handleSuggestionClick`: the query becomes the suggestion and the list
        is emptied and focus given to the box; when that changed the query,
        the effect then runs again for the new query. */
    method HandleSuggestionClick(suggestion: string)
      modifies this
      ensures searchQuery == suggestion && isSearchFocused
      ensures suggestion != old(searchQuery) ==> searchSuggestions == Suggestions(samples, suggestion)
      ensures suggestion == old(searchQuery) ==> searchSuggestions == []
    {
      var changed := suggestion != searchQuery;
      searchQuery := suggestion;
      searchSuggestions := [];
      isSearchFocused := true;
      if changed {
        OnQueryChanged();
      }
    }

    /** `handleClearSearch`: the query and the suggestions are emptied and the
        box is focused. */
    method HandleClearSearch()
      modifies this
      ensures searchQuery == "" && searchSuggestions == [] && isSearchFocused
      ensures !DropdownVisible()
    {
      var changed := searchQuery != "";
      searchQuery := "";
      searchSuggestions := [];
      isSearchFocused := true;
      if changed {
        OnQueryChanged();
      }
    }
  }

  /** Clicking a sample suggestion other than the current query leaves the
      dropdown open, showing at least the clicked suggestion. */
  method ClickKeepsDropdownOpen(query: string, suggestion: string) returns (visible: bool, shown: seq<string>)
    requires suggestion in SampleSuggestions && suggestion != query
    ensures visible && suggestion in shown
  {
    var header := new HeaderState(query);
    header.HandleSuggestionClick(suggestion);
    SampleSuggestsItself(header.samples, suggestion);
    visible, shown := header.DropdownVisible(), header.searchSuggestions;
  }
}
