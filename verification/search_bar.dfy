/** The SearchBar component: the query, the suggestion list filtered from
    it, the highlighted suggestion moved by the arrow keys, and the searches
    handed to the `onSearch` callback, kept here as a log. */
module SearchBarComponent {
  import opened Text
  import opened Seqs

  datatype Suggestion = Suggestion(id: string, text: string, kind: string)

  /** At most this many suggestions are offered. */
  const MaxShown: nat := 8

  /** `suggestion.text.toLowerCase().includes(query.toLowerCase())` */
  predicate Offered(s: Suggestion, query: string) {
    Contains(Lower(s.text), Lower(query))
  }

  /** `!query.trim()` */
  predicate Blank(query: string) {
    Trim(query) == ""
  }

  /** The filtering effect: nothing for a blank query, otherwise the first
      eight suggestions whose lowercased text contains the lowercased query. */
  function FilterSuggestions(query: string, suggestions: seq<Suggestion>): (r: seq<Suggestion>)
    ensures |r| <= MaxShown
    ensures Blank(query) ==> r == []
    ensures forall s :: s in r ==> s in suggestions && Offered(s, query)
    ensures !Blank(query) ==>
              var matching := Filter(suggestions, (s: Suggestion) => Offered(s, query));
              |r| == (if |matching| < MaxShown then |matching| else MaxShown) && r == matching[..|r|]
  {
    if !Blank(query) && |suggestions| > 0 then
      var matching := Filter(suggestions, (s: Suggestion) => Offered(s, query));
      var r := Take(matching, MaxShown);
      assert forall s :: s in r ==> s in matching;
      r
    else []
  }

  /** The offered suggestions keep the order they were given in. */
  lemma FilterSuggestionsKeepsOrder(query: string, suggestions: seq<Suggestion>)
    ensures IsSubseq(FilterSuggestions(query, suggestions), suggestions)
  {
    if !Blank(query) && |suggestions| > 0 {
      var matching := Filter(suggestions, (s: Suggestion) => Offered(s, query));
      FilterIsSubseq(suggestions, (s: Suggestion) => Offered(s, query));
      PrefixIsSubseq(matching, |FilterSuggestions(query, suggestions)|);
      SubseqTrans(FilterSuggestions(query, suggestions), matching, suggestions);
    }
  }

  /** With at most eight matches, every matching suggestion is offered. */
  lemma FewMatchesAllOffered(query: string, suggestions: seq<Suggestion>, s: Suggestion)
    requires !Blank(query)
    requires |Filter(suggestions, (x: Suggestion) => Offered(x, query))| <= MaxShown
    requires s in suggestions && Offered(s, query)
    ensures s in FilterSuggestions(query, suggestions)
  {
    var matching := Filter(suggestions, (x: Suggestion) => Offered(x, query));
    assert s in matching;
    assert FilterSuggestions(query, suggestions) == matching[..|matching|];
    assert matching[..|matching|] == matching;
  }

  lemma {:induction false} PrefixIsSubseq<T>(s: seq<T>, n: nat)
    requires n <= |s|
    ensures IsSubseq(s[..n], s)
  {
    if n == 0 {
    } else if n == |s| {
      PrefixIsSubseq(s[..n - 1], n - 1);
      assert s[..n - 1][..n - 1] == s[..n - 1];
      SubseqExtend(s[..n - 1], s[..n - 1], s[n - 1]);
      assert s[..n - 1] + [s[n - 1]] == s == s[..n];
    } else {
      PrefixIsSubseq(s[..|s| - 1], n);
      assert s[..|s| - 1][..n] == s[..n];
      SubseqAppend(s[..n], s[..|s| - 1], s[|s| - 1]);
      assert s[..|s| - 1] + [s[|s| - 1]] == s;
    }
  }

  /** ArrowDown: the next suggestion, wrapping from the last to the first. */
  function NextIndex(i: int, n: nat): (j: int)
    requires n > 0 && -1 <= i < n
    ensures 0 <= j < n
    ensures i < n - 1 ==> j == i + 1
    ensures i == n - 1 ==> j == 0
  {
    if i < n - 1 then i + 1 else 0
  }

  /** ArrowUp: the previous suggestion, wrapping from the first (or from
      none) to the last. */
  function PrevIndex(i: int, n: nat): (j: int)
    requires n > 0 && -1 <= i < n
    ensures 0 <= j < n
    ensures i > 0 ==> j == i - 1
    ensures i <= 0 ==> j == n - 1
  {
    if i > 0 then i - 1 else n - 1
  }

  /** Up undoes down and down undoes up, once a suggestion is highlighted. */
  lemma ArrowsUndo(i: int, n: nat)
    requires 0 <= i < n
    ensures PrevIndex(NextIndex(i, n), n) == i
    ensures NextIndex(PrevIndex(i, n), n) == i
  {
  }

  class SearchBar {
    var suggestions: seq<Suggestion>
    var query: string
    var isFocused: bool
    var filtered: seq<Suggestion>
    var selectedIndex: int
    /** Every argument `onSearch` has been called with, oldest first. */
    var searched: seq<string>

    /** The filtering effect has run for the current query and suggestions,
        and the highlighted index is -1 or a shown suggestion. */
    ghost predicate Valid()
      reads this
    {
      filtered == FilterSuggestions(query, suggestions)
      && -1 <= selectedIndex < |filtered|
    }

    constructor (suggestions: seq<Suggestion>)
      ensures Valid()
      ensures this.suggestions == suggestions && query == "" && !isFocused
      ensures filtered == [] && selectedIndex == -1 && searched == []
    {
      this.suggestions := suggestions;
      query := "";
      isFocused := false;
      filtered := [];
      selectedIndex := -1;
      searched := [];
    }

    /** The filtering effect, which also resets the highlight. */
    method Refilter()
      modifies this
      ensures Valid() && selectedIndex == -1
      ensures query == old(query) && suggestions == old(suggestions)
      ensures isFocused == old(isFocused) && searched == old(searched)
    {
      filtered := FilterSuggestions(query, suggestions);
      selectedIndex := -1;
    }

    /** Typing into the input; the effect then refilters. */
    method SetQuery(q: string)
      modifies this
      ensures Valid()
      ensures query == q && selectedIndex == -1 && filtered == FilterSuggestions(q, suggestions)
      ensures suggestions == old(suggestions) && searched == old(searched) && isFocused == old(isFocused)
    {
      query := q;
      Refilter();
    }

    /** New suggestions from the parent; the effect then refilters. */
    method SetSuggestions(s: seq<Suggestion>)
      modifies this
      ensures Valid()
      ensures suggestions == s && selectedIndex == -1 && filtered == FilterSuggestions(query, s)
      ensures query == old(query) && searched == old(searched) && isFocused == old(isFocused)
    {
      suggestions := s;
      Refilter();
    }

    method Focus()
      requires Valid()
      modifies this
      ensures Valid() && isFocused
      ensures query == old(query) && filtered == old(filtered) && selectedIndex == old(selectedIndex)
      ensures searched == old(searched) && suggestions == old(suggestions)
    {
      isFocused := true;
    }

    /** Blur, once its 200 ms timer has fired. */
    method Blur()
      requires Valid()
      modifies this
      ensures Valid() && !isFocused
      ensures query == old(query) && filtered == old(filtered) && selectedIndex == old(selectedIndex)
      ensures searched == old(searched) && suggestions == old(suggestions)
    {
      isFocused := false;
    }

    /** handleSearch: searches the trimmed query, unless it is blank. */
    method HandleSearch()
      requires Valid()
      modifies this
      ensures Valid()
      ensures Trim(query) == "" ==> searched == old(searched)
      ensures Trim(query) != "" ==> searched == old(searched) + [Trim(query)]
      ensures query == old(query) && filtered == old(filtered) && selectedIndex == old(selectedIndex)
      ensures isFocused == old(isFocused) && suggestions == old(suggestions)
    {
      var t := Trim(query);
      if t != "" {
        searched := searched + [t];
      }
    }

    /** handleSuggestionClick: the suggestion's text becomes the query and
        is searched as it is. */
    method HandleSuggestionClick(s: Suggestion)
      modifies this
      ensures Valid()
      ensures query == s.text && !isFocused && selectedIndex == -1
      ensures searched == old(searched) + [s.text] && suggestions == old(suggestions)
    {
      query := s.text;
      isFocused := false;
      selectedIndex := -1;
      searched := searched + [s.text];
      Refilter();
    }

    /** handlePopularSearchClick: the text becomes the query and is
        searched. The filtering effect reruns, resetting the highlight, only
        when the query actually changes. */
    method HandlePopularSearchClick(text: string)
      requires Valid()
      modifies this
      ensures Valid()
      ensures query == text && searched == old(searched) + [text]
      ensures suggestions == old(suggestions) && isFocused == old(isFocused)
      ensures text != old(query) ==> selectedIndex == -1
      ensures text == old(query) ==> selectedIndex == old(selectedIndex) && filtered == old(filtered)
    {
      searched := searched + [text];
      if text != query {
        query := text;
        Refilter();
      }
    }

    /** clearQuery */
    method ClearQuery()
      modifies this
      ensures Valid()
      ensures query == "" && filtered == [] && selectedIndex == -1
      ensures searched == old(searched) && suggestions == old(suggestions) && isFocused == old(isFocused)
    {
      query := "";
      filtered := [];
      selectedIndex := -1;
      assert Blank(query);
    }

    /** handleKeyDown. With no suggestions shown every key is ignored. */
    method HandleKeyDown(key: string)
      requires Valid()
      modifies this
      ensures Valid()
      ensures old(filtered) == [] ==> query == old(query) && selectedIndex == old(selectedIndex)
                                      && searched == old(searched) && isFocused == old(isFocused)
      ensures old(filtered) != [] && key == "ArrowDown" ==>
                selectedIndex == NextIndex(old(selectedIndex), |old(filtered)|) && query == old(query)
                && searched == old(searched) && isFocused == old(isFocused)
      ensures old(filtered) != [] && key == "ArrowUp" ==>
                selectedIndex == PrevIndex(old(selectedIndex), |old(filtered)|) && query == old(query)
                && searched == old(searched) && isFocused == old(isFocused)
      ensures old(filtered) != [] && key == "Enter" && old(selectedIndex) >= 0 ==>
                query == old(filtered)[old(selectedIndex)].text
                && searched == old(searched) + [old(filtered)[old(selectedIndex)].text]
      ensures old(filtered) != [] && key == "Enter" && old(selectedIndex) < 0 ==>
                query == old(query)
                && searched == old(searched) + (if Trim(old(query)) != "" then [Trim(old(query))] else [])
      ensures old(filtered) != [] && key == "Escape" ==>
                !isFocused && selectedIndex == -1 && query == old(query) && searched == old(searched)
      ensures suggestions == old(suggestions)
    {
      if |filtered| == 0 {
        return;
      }
      if key == "ArrowDown" {
        selectedIndex := NextIndex(selectedIndex, |filtered|);
      } else if key == "ArrowUp" {
        selectedIndex := PrevIndex(selectedIndex, |filtered|);
      } else if key == "Enter" {
        if selectedIndex >= 0 {
          HandleSuggestionClick(filtered[selectedIndex]);
        } else {
          HandleSearch();
        }
      } else if key == "Escape" {
        isFocused := false;
        selectedIndex := -1;
      }
    }
  }
}
