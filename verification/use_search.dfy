/** The useSearch hook: the filter state, the result pipeline built on the
    catalogue queries, the two effects that keep the filters and the URL's
    query string in step, and the filter options. */
module UseSearch {
  import opened Text
  import opened Seqs
  import opened Catalogue

  datatype PriceRange = PriceRange(min: real, max: real)

  /** SearchFilters. `eventType` is the `type` filter. */
  datatype Filters = Filters(
    query: string,
    category: Option<string>,
    role: Option<string>,
    level: Option<string>,
    eventType: Option<string>,
    priceRange: Option<PriceRange>,
    rating: Option<real>,
    isOnline: Option<bool>,
    isCertified: Option<bool>)

  /** What clearFilters installs. */
  const Cleared: Filters := Filters("", None, None, None, None, None, None, None, None)

  /** A `Partial<SearchFilters>`: for each key, `None` when the key is absent
      and `Some(v)` when it is supplied, even with the value undefined. */
  datatype Patch = Patch(
    query: Option<string>,
    category: Option<Option<string>>,
    role: Option<Option<string>>,
    level: Option<Option<string>>,
    eventType: Option<Option<string>>,
    priceRange: Option<Option<PriceRange>>,
    rating: Option<Option<real>>,
    isOnline: Option<Option<bool>>,
    isCertified: Option<Option<bool>>)

  const NoChange: Patch := Patch(None, None, None, None, None, None, None, None, None)

  function Pick<T>(old_: T, supplied: Option<T>): T {
    if supplied.Some? then supplied.value else old_
  }

  /** `{ ...prev, ...patch }`: each supplied key takes the patch's value,
      every other key keeps its old value. */
  function Merge(f: Filters, p: Patch): (r: Filters)
    ensures p.query.Some? ==> r.query == p.query.value
    ensures p.query.None? ==> r.query == f.query
    ensures p.category.Some? ==> r.category == p.category.value
    ensures p.category.None? ==> r.category == f.category
    ensures p.role.Some? ==> r.role == p.role.value
    ensures p.role.None? ==> r.role == f.role
    ensures p.level.Some? ==> r.level == p.level.value
    ensures p.level.None? ==> r.level == f.level
    ensures p.eventType.Some? ==> r.eventType == p.eventType.value
    ensures p.eventType.None? ==> r.eventType == f.eventType
    ensures p.priceRange.Some? ==> r.priceRange == p.priceRange.value
    ensures p.priceRange.None? ==> r.priceRange == f.priceRange
    ensures p.rating.Some? ==> r.rating == p.rating.value
    ensures p.rating.None? ==> r.rating == f.rating
    ensures p.isOnline.Some? ==> r.isOnline == p.isOnline.value
    ensures p.isOnline.None? ==> r.isOnline == f.isOnline
    ensures p.isCertified.Some? ==> r.isCertified == p.isCertified.value
    ensures p.isCertified.None? ==> r.isCertified == f.isCertified
  {
    Filters(Pick(f.query, p.query), Pick(f.category, p.category), Pick(f.role, p.role),
            Pick(f.level, p.level), Pick(f.eventType, p.eventType), Pick(f.priceRange, p.priceRange),
            Pick(f.rating, p.rating), Pick(f.isOnline, p.isOnline), Pick(f.isCertified, p.isCertified))
  }

  /** Merging the same patch twice is merging it once; the empty patch
      changes nothing. */
  lemma MergeIdempotent(f: Filters, p: Patch)
    ensures Merge(Merge(f, p), p) == Merge(f, p)
    ensures Merge(f, NoChange) == f
  {
  }

  /** `if (filters.rating)`: a rating of 0 or none applies no filter. */
  predicate RatingGiven(r: Option<real>) {
    r.Some? && r.value != 0.0
  }

  predicate InRange(price: real, pr: PriceRange) {
    price >= pr.min && price <= pr.max
  }

  /** The extra filters a mentor must pass: price, rating, online, certified. */
  predicate MentorPasses(m: Mentor, f: Filters) {
    (f.priceRange.Some? ==> InRange(m.price, f.priceRange.value))
    && (RatingGiven(f.rating) ==> m.rating >= f.rating.value)
    && (f.isOnline.Some? ==> m.isOnline == f.isOnline.value)
    && (f.isCertified.Some? ==> m.isCertified == f.isCertified.value)
  }

  /** Programs pass price and rating only. */
  predicate ProgramPasses(p: Program, f: Filters) {
    (f.priceRange.Some? ==> InRange(p.price, f.priceRange.value))
    && (RatingGiven(f.rating) ==> p.rating >= f.rating.value)
  }

  /** Events pass price and online only. */
  predicate EventPasses(e: Event, f: Filters) {
    (f.priceRange.Some? ==> InRange(e.price, f.priceRange.value))
    && (f.isOnline.Some? ==> e.isOnline == f.isOnline.value)
  }

  function NarrowMentors(ms: seq<Mentor>, f: Filters): (r: seq<Mentor>)
    ensures forall m :: m in r <==> m in ms && MentorPasses(m, f)
  {
    var pr := Pick(PriceRange(0.0, 0.0), f.priceRange);
    var rating := Pick(0.0, f.rating);
    var online := Pick(false, f.isOnline);
    var certified := Pick(false, f.isCertified);
    var s1 := FilterIf(f.priceRange.Some?, ms, (m: Mentor) => InRange(m.price, pr));
    var s2 := FilterIf(RatingGiven(f.rating), s1, (m: Mentor) => m.rating >= rating);
    var s3 := FilterIf(f.isOnline.Some?, s2, (m: Mentor) => m.isOnline == online);
    FilterIf(f.isCertified.Some?, s3, (m: Mentor) => m.isCertified == certified)
  }

  function NarrowPrograms(ps: seq<Program>, f: Filters): (r: seq<Program>)
    ensures forall p :: p in r <==> p in ps && ProgramPasses(p, f)
  {
    var pr := Pick(PriceRange(0.0, 0.0), f.priceRange);
    var rating := Pick(0.0, f.rating);
    var s1 := FilterIf(f.priceRange.Some?, ps, (p: Program) => InRange(p.price, pr));
    FilterIf(RatingGiven(f.rating), s1, (p: Program) => p.rating >= rating)
  }

  function NarrowEvents(es: seq<Event>, f: Filters): (r: seq<Event>)
    ensures forall e :: e in r <==> e in es && EventPasses(e, f)
  {
    var pr := Pick(PriceRange(0.0, 0.0), f.priceRange);
    var online := Pick(false, f.isOnline);
    var s1 := FilterIf(f.priceRange.Some?, es, (e: Event) => InRange(e.price, pr));
    FilterIf(f.isOnline.Some?, s1, (e: Event) => e.isOnline == online)
  }

  /** Each extra filter only narrows: the lists keep the search's order. */
  lemma NarrowingKeepsOrder(ms: seq<Mentor>, ps: seq<Program>, es: seq<Event>, f: Filters)
    ensures IsSubseq(NarrowMentors(ms, f), ms)
    ensures IsSubseq(NarrowPrograms(ps, f), ps)
    ensures IsSubseq(NarrowEvents(es, f), es)
  {
    var pr := Pick(PriceRange(0.0, 0.0), f.priceRange);
    var rating := Pick(0.0, f.rating);
    var online := Pick(false, f.isOnline);
    var certified := Pick(false, f.isCertified);

    var m1 := FilterIf(f.priceRange.Some?, ms, (m: Mentor) => InRange(m.price, pr));
    var m2 := FilterIf(RatingGiven(f.rating), m1, (m: Mentor) => m.rating >= rating);
    var m3 := FilterIf(f.isOnline.Some?, m2, (m: Mentor) => m.isOnline == online);
    var m4 := FilterIf(f.isCertified.Some?, m3, (m: Mentor) => m.isCertified == certified);
    FilterIfIsSubseq(f.priceRange.Some?, ms, (m: Mentor) => InRange(m.price, pr));
    FilterIfIsSubseq(RatingGiven(f.rating), m1, (m: Mentor) => m.rating >= rating);
    FilterIfIsSubseq(f.isOnline.Some?, m2, (m: Mentor) => m.isOnline == online);
    FilterIfIsSubseq(f.isCertified.Some?, m3, (m: Mentor) => m.isCertified == certified);
    SubseqTrans(m2, m1, ms);
    SubseqTrans(m3, m2, ms);
    SubseqTrans(m4, m3, ms);

    var p1 := FilterIf(f.priceRange.Some?, ps, (p: Program) => InRange(p.price, pr));
    var p2 := FilterIf(RatingGiven(f.rating), p1, (p: Program) => p.rating >= rating);
    FilterIfIsSubseq(f.priceRange.Some?, ps, (p: Program) => InRange(p.price, pr));
    FilterIfIsSubseq(RatingGiven(f.rating), p1, (p: Program) => p.rating >= rating);
    SubseqTrans(p2, p1, ps);

    var e1 := FilterIf(f.priceRange.Some?, es, (e: Event) => InRange(e.price, pr));
    var e2 := FilterIf(f.isOnline.Some?, e1, (e: Event) => e.isOnline == online);
    FilterIfIsSubseq(f.priceRange.Some?, es, (e: Event) => InRange(e.price, pr));
    FilterIfIsSubseq(f.isOnline.Some?, e1, (e: Event) => e.isOnline == online);
    SubseqTrans(e2, e1, es);
  }

  /** The catalogue the hook reads. */
  datatype Catalog = Catalog(
    mentors: seq<Mentor>,
    programs: seq<Program>,
    events: seq<Event>,
    categories: seq<Category>)

  datatype Results = Results(
    mentors: seq<Mentor>,
    programs: seq<Program>,
    events: seq<Event>,
    totalResults: nat,
    category: Option<Category>,
    popularSkills: seq<string>)

  /** The `results` memo: the three searches, narrowed by the extra filters. */
  function ComputeResults(c: Catalog, f: Filters, category: Option<Category>): (r: Results)
    ensures forall m :: m in r.mentors <==>
              m in c.mentors && MentorKept(m, f.query, f.category, f.role) && MentorPasses(m, f)
    ensures forall p :: p in r.programs <==>
              p in c.programs && ProgramKept(p, f.query, f.category, f.level) && ProgramPasses(p, f)
    ensures forall e :: e in r.events <==>
              e in c.events && EventKept(e, f.query, f.category, f.eventType) && EventPasses(e, f)
    ensures r.totalResults == |r.mentors| + |r.programs| + |r.events|
    ensures r.category == category && r.popularSkills == GetPopularSkills(c.categories, f.category)
  {
    var ms := NarrowMentors(SearchMentors(c.mentors, f.query, f.category, f.role), f);
    var ps := NarrowPrograms(SearchPrograms(c.programs, f.query, f.category, f.level), f);
    var es := NarrowEvents(SearchEvents(c.events, f.query, f.category, f.eventType), f);
    Results(ms, ps, es, |ms| + |ps| + |es|, category, GetPopularSkills(c.categories, f.category))
  }

  /** The result lists are subsequences of what the catalogue queries return. */
  lemma ResultsNarrowSearches(c: Catalog, f: Filters, category: Option<Category>)
    ensures IsSubseq(ComputeResults(c, f, category).mentors, SearchMentors(c.mentors, f.query, f.category, f.role))
    ensures IsSubseq(ComputeResults(c, f, category).programs, SearchPrograms(c.programs, f.query, f.category, f.level))
    ensures IsSubseq(ComputeResults(c, f, category).events, SearchEvents(c.events, f.query, f.category, f.eventType))
  {
    NarrowingKeepsOrder(SearchMentors(c.mentors, f.query, f.category, f.role),
                        SearchPrograms(c.programs, f.query, f.category, f.level),
                        SearchEvents(c.events, f.query, f.category, f.eventType), f);
  }

  /** The rating filter never touches events, and isCertified touches
      neither programs nor events. */
  lemma FilterScopes(c: Catalog, f: Filters, category: Option<Category>, rating: Option<real>, certified: Option<bool>)
    ensures ComputeResults(c, f.(rating := rating), category).events == ComputeResults(c, f, category).events
    ensures ComputeResults(c, f.(isCertified := certified), category).programs == ComputeResults(c, f, category).programs
    ensures ComputeResults(c, f.(isCertified := certified), category).events == ComputeResults(c, f, category).events
  {
  }

  /** `URLSearchParams` as its list of (name, value) pairs. */
  type Params = seq<(string, string)>

  /** `params.get(name)`: the first value stored under the name. */
  function Get(ps: Params, name: string): (r: Option<string>)
    ensures r.Some? <==> exists i :: 0 <= i < |ps| && ps[i].0 == name
  {
    if ps == [] then None
    else if ps[0].0 == name then Some(ps[0].1)
    else Get(ps[1..], name)
  }

  /** `if (value) params.set(name, value)` on an empty parameter list. */
  function Param(name: string, value: Option<string>): (ps: Params)
    ensures Truthy(value) ==> ps == [(name, value.value)]
    ensures !Truthy(value) ==> ps == []
  {
    if Truthy(value) then [(name, value.value)] else []
  }

  /** The query string the URL effect writes for the filters. */
  function ParamsOf(f: Filters): Params {
    Param("search", Some(f.query)) + Param("category", f.category) + Param("role", f.role)
    + Param("level", f.level) + Param("type", f.eventType)
  }

  lemma {:induction false} GetAppend(a: Params, b: Params, name: string)
    ensures Get(a + b, name) == if Get(a, name).Some? then Get(a, name) else Get(b, name)
  {
    if a == [] {
      assert a + b == b;
    } else {
      assert (a + b)[0] == a[0] && (a + b)[1..] == a[1..] + b;
      GetAppend(a[1..], b, name);
    }
  }

  lemma GetParam(name: string, value: Option<string>, key: string)
    ensures Get(Param(name, value), key) == if key == name then NonEmpty(value) else None
  {
  }

  /** The value the URL holds for one key. */
  lemma GetOfParams(f: Filters, key: string)
    ensures Get(ParamsOf(f), key) ==
              if key == "search" then NonEmpty(Some(f.query))
              else if key == "category" then NonEmpty(f.category)
              else if key == "role" then NonEmpty(f.role)
              else if key == "level" then NonEmpty(f.level)
              else if key == "type" then NonEmpty(f.eventType)
              else None
  {
    var a := Param("search", Some(f.query));
    var b := Param("category", f.category);
    var c := Param("role", f.role);
    var d := Param("level", f.level);
    var e := Param("type", f.eventType);
    GetAppend(a + b + c + d, e, key);
    GetAppend(a + b + c, d, key);
    GetAppend(a + b, c, key);
    GetAppend(a, b, key);
    GetParam("search", Some(f.query), key);
    GetParam("category", f.category, key);
    GetParam("role", f.role, key);
    GetParam("level", f.level, key);
    GetParam("type", f.eventType, key);
  }

  /** The query string holds a parameter for each of search, category,
      role, level and type whose value is set and non-empty, carrying that
      value, and nothing else. */
  lemma ParamsOfGet(f: Filters)
    ensures Get(ParamsOf(f), "search") == (if f.query != "" then Some(f.query) else None)
    ensures Get(ParamsOf(f), "category") == NonEmpty(f.category)
    ensures Get(ParamsOf(f), "role") == NonEmpty(f.role)
    ensures Get(ParamsOf(f), "level") == NonEmpty(f.level)
    ensures Get(ParamsOf(f), "type") == NonEmpty(f.eventType)
    ensures forall key :: key !in {"search", "category", "role", "level", "type"} ==> Get(ParamsOf(f), key).None?
  {
    GetOfParams(f, "search");
    GetOfParams(f, "category");
    GetOfParams(f, "role");
    GetOfParams(f, "level");
    GetOfParams(f, "type");
    forall key | key !in {"search", "category", "role", "level", "type"}
      ensures Get(ParamsOf(f), key).None?
    {
      GetOfParams(f, key);
    }
  }

  /** `params.get(name) || undefined` */
  function NonEmpty(o: Option<string>): (r: Option<string>)
    ensures r.Some? <==> Truthy(o)
    ensures r.Some? ==> r == o
  {
    if Truthy(o) then o else None
  }

  /** The filters the other effect reads back from the query string; the
      filters that have no parameter are reset. */
  function FiltersFromParams(ps: Params): Filters {
    Filters(OrElse(Get(ps, "search"), ""), NonEmpty(Get(ps, "category")), NonEmpty(Get(ps, "role")),
            NonEmpty(Get(ps, "level")), NonEmpty(Get(ps, "type")), None, None, None, None)
  }

  /** What survives a trip through the URL: the five text filters, with an
      empty value the same as none, and no price, rating, online or
      certified filter. */
  function UrlPart(f: Filters): Filters {
    Filters(f.query, NonEmpty(f.category), NonEmpty(f.role), NonEmpty(f.level), NonEmpty(f.eventType),
            None, None, None, None)
  }

  /** Writing the filters to the URL and reading them back keeps exactly
      the URL part. */
  lemma UrlRoundTrip(f: Filters)
    ensures FiltersFromParams(ParamsOf(f)) == UrlPart(f)
  {
    ParamsOfGet(f);
  }

  /** The options getFilterOptions offers. */
  datatype FilterOptions = FilterOptions(
    roles: seq<string>,
    levels: seq<string>,
    types: seq<string>,
    subcategories: seq<string>,
    categories: seq<Category>)

  function Roles(ms: seq<Mentor>): (r: seq<string>)
    ensures |r| == |ms| && forall i :: 0 <= i < |ms| ==> r[i] == ms[i].role
  {
    if ms == [] then [] else [ms[0].role] + Roles(ms[1..])
  }

  function Levels(ps: seq<Program>): (r: seq<string>)
    ensures |r| == |ps| && forall i :: 0 <= i < |ps| ==> r[i] == ps[i].level
  {
    if ps == [] then [] else [ps[0].level] + Levels(ps[1..])
  }

  function Types(es: seq<Event>): (r: seq<string>)
    ensures |r| == |es| && forall i :: 0 <= i < |es| ==> r[i] == es[i].eventType
  {
    if es == [] then [] else [es[0].eventType] + Types(es[1..])
  }

  /** getFilterOptions over the catalogue's arrays: every role, level and
      type that occurs, each once, and the URL category's subcategories. */
  function GetFilterOptions(c: Catalog, category: Option<Category>): (r: FilterOptions)
    ensures NoDup(r.roles) && NoDup(r.levels) && NoDup(r.types)
    ensures forall x :: x in r.roles <==> exists i :: 0 <= i < |c.mentors| && c.mentors[i].role == x
    ensures forall x :: x in r.levels <==> exists i :: 0 <= i < |c.programs| && c.programs[i].level == x
    ensures forall x :: x in r.types <==> exists i :: 0 <= i < |c.events| && c.events[i].eventType == x
    ensures r.subcategories == (if category.Some? then category.value.subcategories else [])
    ensures r.categories == c.categories
  {
    var roles := Roles(c.mentors);
    var levels := Levels(c.programs);
    var types := Types(c.events);
    assert forall x :: x in roles <==> exists i :: 0 <= i < |c.mentors| && c.mentors[i].role == x by {
      forall x | x in roles ensures exists i :: 0 <= i < |c.mentors| && c.mentors[i].role == x {
        var i :| 0 <= i < |roles| && roles[i] == x;
      }
    }
    assert forall x :: x in levels <==> exists i :: 0 <= i < |c.programs| && c.programs[i].level == x by {
      forall x | x in levels ensures exists i :: 0 <= i < |c.programs| && c.programs[i].level == x {
        var i :| 0 <= i < |levels| && levels[i] == x;
      }
    }
    assert forall x :: x in types <==> exists i :: 0 <= i < |c.events| && c.events[i].eventType == x by {
      forall x | x in types ensures exists i :: 0 <= i < |c.events| && c.events[i].eventType == x {
        var i :| 0 <= i < |types| && types[i] == x;
      }
    }
    FilterOptions(Dedup(roles), Dedup(levels), Dedup(types),
                  if category.Some? then category.value.subcategories else [], c.categories)
  }

  /** The catalogue names the hook's module brings into scope. */
  const HookScope: set<string> :=
    {"searchMentors", "searchPrograms", "searchEvents", "getCategoryBySlug", "getPopularSkills", "categories"}

  /** getFilterOptions as written: it reads `mentors`, `programs` and
      `events`, none of which is declared or imported in the hook's module,
      so the first read throws a ReferenceError. */
  function GetFilterOptionsAsWritten(c: Catalog, category: Option<Category>): Result<FilterOptions> {
    if "mentors" !in HookScope then Err("ReferenceError: mentors is not defined")
    else Ok(GetFilterOptions(c, category))
  }

  /** Every call of getFilterOptions as written throws. */
  lemma FilterOptionsAsWrittenThrows(c: Catalog, category: Option<Category>)
    ensures GetFilterOptionsAsWritten(c, category) == Err("ReferenceError: mentors is not defined")
  {
  }

  /** The hook's state: the filters and the page's query string. */
  class SearchHook {
    const catalog: Catalog
    var filters: Filters
    var params: Params

    /** Initial filters come from the query string. */
    constructor (c: Catalog, initial: Params)
      ensures catalog == c && params == initial
      ensures filters == FiltersFromParams(initial)
    {
      catalog := c;
      params := initial;
      filters := FiltersFromParams(initial);
    }

    /** The `category` memo: the category named by the URL's slug. */
    function UrlCategory(): (r: Option<Category>)
      reads this
      ensures !Truthy(Get(params, "category")) ==> r.None?
      ensures r.Some? ==> Some(r.value.slug) == Get(params, "category") && r.value in catalog.categories
    {
      var slug := Get(params, "category");
      if Truthy(slug) then GetCategoryBySlug(catalog.categories, slug.value) else None
    }

    function Results(): (r: Results)
      reads this
      ensures r == ComputeResults(catalog, filters, UrlCategory())
    {
      ComputeResults(catalog, filters, UrlCategory())
    }

    /** updateFilters */
    method UpdateFilters(p: Patch)
      modifies this
      ensures filters == Merge(old(filters), p) && params == old(params)
    {
      filters := Merge(filters, p);
    }

    /** clearFilters */
    method ClearFilters()
      modifies this
      ensures filters == Cleared && params == old(params)
    {
      filters := Cleared;
    }

    /** The effect that rewrites the query string from the filters, one
        parameter at a time. */
    method SyncUrl()
      modifies this
      ensures params == ParamsOf(filters) && filters == old(filters)
    {
      var next: Params := [];
      if filters.query != "" { next := next + [("search", filters.query)]; }
      assert next == Param("search", Some(filters.query));
      if Truthy(filters.category) { next := next + [("category", filters.category.value)]; }
      assert next == Param("search", Some(filters.query)) + Param("category", filters.category);
      if Truthy(filters.role) { next := next + [("role", filters.role.value)]; }
      if Truthy(filters.level) { next := next + [("level", filters.level.value)]; }
      if Truthy(filters.eventType) { next := next + [("type", filters.eventType.value)]; }
      params := next;
    }

    /** The effect that reloads the filters from the query string. */
    method SyncFilters()
      modifies this
      ensures filters == FiltersFromParams(params) && params == old(params)
    {
      filters := FiltersFromParams(params);
    }
  }

  /** One pass through both effects keeps the URL part of the filters and
      drops price, rating, online and certified. */
  method SyncBoth(h: SearchHook)
    modifies h
    ensures h.filters == UrlPart(old(h.filters))
    ensures h.params == ParamsOf(old(h.filters))
  {
    h.SyncUrl();
    h.SyncFilters();
    UrlRoundTrip(old(h.filters));
  }
}
