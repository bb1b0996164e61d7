/** The SearchPage's handlers and derived values: the filter toggles it
    sends to the search hook, the clear-button condition, the role labels and
    the suggestions it hands the search bar. */
module SearchPage {
  import opened Text
  import opened Seqs
  import opened UseSearch
  import SearchBarComponent

  /** `current === value ? undefined : value` */
  function Toggle(current: Option<string>, value: string): (r: Option<string>)
    ensures r.None? <==> current == Some(value)
    ensures r.Some? ==> r == Some(value)
  {
    if current == Some(value) then None else Some(value)
  }

  /** Choosing the same value twice returns a filter to where it was, when
      it was unset or already that value. */
  lemma ToggleTwice(current: Option<string>, value: string)
    requires current == None || current == Some(value)
    ensures Toggle(Toggle(current, value), value) == current
  {
  }

  /** A patch that supplies only `query`, ... only `category`, and so on. */
  function QueryPatch(q: string): Patch { NoChange.(query := Some(q)) }
  function CategoryPatch(c: Option<string>): Patch { NoChange.(category := Some(c)) }
  function RolePatch(r: Option<string>): Patch { NoChange.(role := Some(r)) }
  function LevelPatch(l: Option<string>): Patch { NoChange.(level := Some(l)) }
  function TypePatch(t: Option<string>): Patch { NoChange.(eventType := Some(t)) }

  /** handleSearch */
  method HandleSearch(h: SearchHook, query: string)
    modifies h
    ensures h.filters == old(h.filters).(query := query) && h.params == old(h.params)
  {
    h.UpdateFilters(QueryPatch(query));
  }

  /** handleCategoryClick: always sets, never clears. */
  method HandleCategoryClick(h: SearchHook, slug: string)
    modifies h
    ensures h.filters == old(h.filters).(category := Some(slug)) && h.params == old(h.params)
  {
    h.UpdateFilters(CategoryPatch(Some(slug)));
  }

  /** handleRoleFilter */
  method HandleRoleFilter(h: SearchHook, role: string)
    modifies h
    ensures h.filters == old(h.filters).(role := Toggle(old(h.filters).role, role)) && h.params == old(h.params)
  {
    h.UpdateFilters(RolePatch(Toggle(h.filters.role, role)));
  }

  /** handleLevelFilter */
  method HandleLevelFilter(h: SearchHook, level: string)
    modifies h
    ensures h.filters == old(h.filters).(level := Toggle(old(h.filters).level, level)) && h.params == old(h.params)
  {
    h.UpdateFilters(LevelPatch(Toggle(h.filters.level, level)));
  }

  /** handleTypeFilter */
  method HandleTypeFilter(h: SearchHook, eventType: string)
    modifies h
    ensures h.filters == old(h.filters).(eventType := Toggle(old(h.filters).eventType, eventType))
    ensures h.params == old(h.params)
  {
    h.UpdateFilters(TypePatch(Toggle(h.filters.eventType, eventType)));
  }

  /** Whether "Clear Filters" is shown: some category, role, level or type
      is set (the query does not count). */
  function ShowClear(f: Filters): (shown: bool)
    ensures shown ==> f != Cleared
    ensures !Truthy(f.category) && !Truthy(f.role) && !Truthy(f.level) && !Truthy(f.eventType) ==> !shown
    ensures Truthy(f.category) || Truthy(f.role) || Truthy(f.level) || Truthy(f.eventType) ==> shown
  {
    Truthy(f.category) || Truthy(f.role) || Truthy(f.level) || Truthy(f.eventType)
  }

  /** The button ignores the query and every filter that is not a text
      filter, and clearing hides it. */
  lemma ShowClearScope(f: Filters, q: string, pr: Option<PriceRange>, rating: Option<real>)
    ensures ShowClear(f.(query := q, priceRange := pr, rating := rating)) == ShowClear(f)
    ensures !ShowClear(Cleared)
  {
  }

  /** Choosing a role shows the button; choosing it again with nothing else
      set hides it. */
  lemma RoleToggleShowsClear(f: Filters, role: string)
    requires role != "" && f.role == None
    ensures ShowClear(f.(role := Toggle(f.role, role)))
    ensures !ShowClear(f) ==> !ShowClear(f.(role := Toggle(Toggle(f.role, role), role)))
  {
  }

  /** `role.charAt(0).toUpperCase() + role.slice(1)` */
  function RoleLabel(role: string): (r: string)
    ensures |r| == |role|
    ensures role != "" ==> r[0] == UpperChar(role[0]) && r[1..] == role[1..]
  {
    Capitalize(role)
  }

  lemma RoleLabels()
    ensures RoleLabel("mentor") == "Mentor"
    ensures RoleLabel("instructor") == "Instructor"
    ensures RoleLabel("coach") == "Coach"
  {
  }

  /** popularSearches: the first six popular skills. */
  function PopularSearches(skills: seq<string>): (r: seq<string>)
    ensures |r| == (if |skills| < 6 then |skills| else 6)
    ensures r == skills[..|r|]
  {
    Take(skills, 6)
  }

  /** searchSuggestions: one skill suggestion per popular skill, numbered
      from 1. The random `count` is not modelled. */
  function SearchSuggestions(skills: seq<string>): (r: seq<SearchBarComponent.Suggestion>)
    ensures |r| == |skills|
    ensures forall i :: 0 <= i < |skills| ==>
              r[i] == SearchBarComponent.Suggestion(NatToString(i + 1), skills[i], "skill")
  {
    SuggestionsFrom(skills, 0)
  }

  function SuggestionsFrom(skills: seq<string>, start: nat): (r: seq<SearchBarComponent.Suggestion>)
    requires start <= |skills|
    ensures |r| == |skills| - start
    ensures forall i :: 0 <= i < |r| ==>
              r[i] == SearchBarComponent.Suggestion(NatToString(start + i + 1), skills[start + i], "skill")
    decreases |skills| - start
  {
    if start == |skills| then []
    else [SearchBarComponent.Suggestion(NatToString(start + 1), skills[start], "skill")] + SuggestionsFrom(skills, start + 1)
  }

  /** The page's own state: the filter panel and the active tab. */
  class PageState {
    var showFilters: bool
    var activeTab: string

    constructor ()
      ensures !showFilters && activeTab == "all"
    {
      showFilters := false;
      activeTab := "all";
    }

    /** The Filters button. */
    method ToggleFilters()
      modifies this
      ensures showFilters == !old(showFilters) && activeTab == old(activeTab)
    {
      showFilters := !showFilters;
    }

    method SetActiveTab(tab: string)
      modifies this
      ensures activeTab == tab && showFilters == old(showFilters)
    {
      activeTab := tab;
    }
  }
}
