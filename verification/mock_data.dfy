/** The front end's catalogue queries: searchMentors, searchPrograms,
    searchEvents, getCategoryBySlug and getPopularSkills. The constant
    arrays they read are parameters here, so every property holds for any
    catalogue. */
module Catalogue {
  import opened Text
  import opened Seqs

  datatype Mentor = Mentor(
    id: string,
    name: string,
    role: string,
    category: string,
    subcategories: seq<string>,
    specialty: string,
    rating: real,
    price: real,
    isOnline: bool,
    isCertified: bool,
    skills: seq<string>)

  datatype Program = Program(
    id: string,
    title: string,
    instructor: Mentor,
    category: string,
    level: string,
    description: string,
    price: real,
    rating: real,
    tags: seq<string>)

  datatype Event = Event(
    id: string,
    title: string,
    category: string,
    eventType: string,
    instructor: Mentor,
    price: real,
    description: string,
    tags: seq<string>,
    isOnline: bool)

  datatype Category = Category(
    id: string,
    name: string,
    slug: string,
    subcategories: seq<string>,
    popularSkills: seq<string>)

  /** `text.toLowerCase().includes(term)` */
  predicate Matches(text: string, term: string) {
    Contains(Lower(text), term)
  }

  /** `texts.some(t => t.toLowerCase().includes(term))` */
  predicate AnyMatches(texts: seq<string>, term: string) {
    exists i :: 0 <= i < |texts| && Matches(texts[i], term)
  }

  predicate MentorMatches(m: Mentor, term: string) {
    Matches(m.name, term) || Matches(m.specialty, term) || AnyMatches(m.skills, term) || AnyMatches(m.subcategories, term)
  }

  predicate ProgramMatches(p: Program, term: string) {
    Matches(p.title, term) || Matches(p.description, term) || AnyMatches(p.tags, term) || Matches(p.instructor.name, term)
  }

  predicate EventMatches(e: Event, term: string) {
    Matches(e.title, term) || Matches(e.description, term) || AnyMatches(e.tags, term) || Matches(e.instructor.name, term)
  }

  /** Which mentors a search keeps: an exact category and role when those
      are given, and a case-insensitive match when the query is non-empty. */
  predicate MentorKept(m: Mentor, query: string, category: Option<string>, role: Option<string>) {
    (Truthy(category) ==> m.category == category.value)
    && (Truthy(role) ==> m.role == role.value)
    && (query != "" ==> MentorMatches(m, Lower(query)))
  }

  predicate ProgramKept(p: Program, query: string, category: Option<string>, level: Option<string>) {
    (Truthy(category) ==> p.category == category.value)
    && (Truthy(level) ==> p.level == level.value)
    && (query != "" ==> ProgramMatches(p, Lower(query)))
  }

  predicate EventKept(e: Event, query: string, category: Option<string>, eventType: Option<string>) {
    (Truthy(category) ==> e.category == category.value)
    && (Truthy(eventType) ==> e.eventType == eventType.value)
    && (query != "" ==> EventMatches(e, Lower(query)))
  }

  /** `if (c) results = results.filter(...)`, one step of the chain. */
  function FilterIf<T(==, !new)>(on: bool, s: seq<T>, p: T -> bool): (r: seq<T>)
    ensures forall x :: x in r <==> x in s && (on ==> p(x))
  {
    if on then Filter(s, p) else s
  }

  lemma FilterIfIsSubseq<T(!new)>(on: bool, s: seq<T>, p: T -> bool)
    ensures IsSubseq(FilterIf(on, s, p), s)
  {
    if on {
      FilterIsSubseq(s, p);
    } else {
      FilterAll(s, _ => true);
      FilterIsSubseq(s, _ => true);
    }
  }

  /** searchMentors: category, then role, then query. */
  function SearchMentors(mentors: seq<Mentor>, query: string, category: Option<string>, role: Option<string>)
    : (r: seq<Mentor>)
    ensures forall m :: m in r <==> m in mentors && MentorKept(m, query, category, role)
  {
    var c := OrElse(category, "");
    var l := OrElse(role, "");
    var term := Lower(query);
    var byCategory := FilterIf(Truthy(category), mentors, (m: Mentor) => m.category == c);
    var byRole := FilterIf(Truthy(role), byCategory, (m: Mentor) => m.role == l);
    FilterIf(query != "", byRole, (m: Mentor) => MentorMatches(m, term))
  }

  /** searchPrograms: category, then level, then query. */
  function SearchPrograms(programs: seq<Program>, query: string, category: Option<string>, level: Option<string>)
    : (r: seq<Program>)
    ensures forall p :: p in r <==> p in programs && ProgramKept(p, query, category, level)
  {
    var c := OrElse(category, "");
    var l := OrElse(level, "");
    var term := Lower(query);
    var byCategory := FilterIf(Truthy(category), programs, (p: Program) => p.category == c);
    var byLevel := FilterIf(Truthy(level), byCategory, (p: Program) => p.level == l);
    FilterIf(query != "", byLevel, (p: Program) => ProgramMatches(p, term))
  }

  /** searchEvents: category, then type, then query. */
  function SearchEvents(events: seq<Event>, query: string, category: Option<string>, eventType: Option<string>)
    : (r: seq<Event>)
    ensures forall e :: e in r <==> e in events && EventKept(e, query, category, eventType)
  {
    var c := OrElse(category, "");
    var t := OrElse(eventType, "");
    var term := Lower(query);
    var byCategory := FilterIf(Truthy(category), events, (e: Event) => e.category == c);
    var byType := FilterIf(Truthy(eventType), byCategory, (e: Event) => e.eventType == t);
    FilterIf(query != "", byType, (e: Event) => EventMatches(e, term))
  }

  /** Every search result list keeps the catalogue's order. */
  lemma SearchMentorsSubseq(mentors: seq<Mentor>, query: string, category: Option<string>, role: Option<string>)
    ensures IsSubseq(SearchMentors(mentors, query, category, role), mentors)
  {
    var c := OrElse(category, "");
    var l := OrElse(role, "");
    var term := Lower(query);
    var s1 := FilterIf(Truthy(category), mentors, (m: Mentor) => m.category == c);
    var s2 := FilterIf(Truthy(role), s1, (m: Mentor) => m.role == l);
    var s3 := FilterIf(query != "", s2, (m: Mentor) => MentorMatches(m, term));
    FilterIfIsSubseq(Truthy(category), mentors, (m: Mentor) => m.category == c);
    FilterIfIsSubseq(Truthy(role), s1, (m: Mentor) => m.role == l);
    FilterIfIsSubseq(query != "", s2, (m: Mentor) => MentorMatches(m, term));
    SubseqTrans(s2, s1, mentors);
    SubseqTrans(s3, s2, mentors);
  }

  lemma SearchProgramsSubseq(programs: seq<Program>, query: string, category: Option<string>, level: Option<string>)
    ensures IsSubseq(SearchPrograms(programs, query, category, level), programs)
  {
    var c := OrElse(category, "");
    var l := OrElse(level, "");
    var term := Lower(query);
    var s1 := FilterIf(Truthy(category), programs, (p: Program) => p.category == c);
    var s2 := FilterIf(Truthy(level), s1, (p: Program) => p.level == l);
    var s3 := FilterIf(query != "", s2, (p: Program) => ProgramMatches(p, term));
    FilterIfIsSubseq(Truthy(category), programs, (p: Program) => p.category == c);
    FilterIfIsSubseq(Truthy(level), s1, (p: Program) => p.level == l);
    FilterIfIsSubseq(query != "", s2, (p: Program) => ProgramMatches(p, term));
    SubseqTrans(s2, s1, programs);
    SubseqTrans(s3, s2, programs);
  }

  lemma SearchEventsSubseq(events: seq<Event>, query: string, category: Option<string>, eventType: Option<string>)
    ensures IsSubseq(SearchEvents(events, query, category, eventType), events)
  {
    var c := OrElse(category, "");
    var t := OrElse(eventType, "");
    var term := Lower(query);
    var s1 := FilterIf(Truthy(category), events, (e: Event) => e.category == c);
    var s2 := FilterIf(Truthy(eventType), s1, (e: Event) => e.eventType == t);
    var s3 := FilterIf(query != "", s2, (e: Event) => EventMatches(e, term));
    FilterIfIsSubseq(Truthy(category), events, (e: Event) => e.category == c);
    FilterIfIsSubseq(Truthy(eventType), s1, (e: Event) => e.eventType == t);
    FilterIfIsSubseq(query != "", s2, (e: Event) => EventMatches(e, term));
    SubseqTrans(s2, s1, events);
    SubseqTrans(s3, s2, events);
  }

  /** With no query, category or role every mentor is returned, in order. */
  lemma SearchMentorsUnfiltered(mentors: seq<Mentor>, category: Option<string>, role: Option<string>)
    requires !Truthy(category) && !Truthy(role)
    ensures SearchMentors(mentors, "", category, role) == mentors
  {
  }

  /** getCategoryBySlug: the first category with that slug, if any. */
  function GetCategoryBySlug(categories: seq<Category>, slug: string): (r: Option<Category>)
    ensures r.None? <==> forall i :: 0 <= i < |categories| ==> categories[i].slug != slug
    ensures r.Some? ==> r.value.slug == slug && r.value in categories
    ensures r.Some? ==> exists i :: 0 <= i < |categories| && categories[i] == r.value
                                    && forall j :: 0 <= j < i ==> categories[j].slug != slug
  {
    var r := Find(categories, (c: Category) => c.slug == slug);
    assert r.Some? ==> categories[FindIndex(categories, (c: Category) => c.slug == slug)] == r.value;
    r
  }

  /** `categories.flatMap(c => c.popularSkills)` */
  function AllPopularSkills(categories: seq<Category>): seq<string> {
    if categories == [] then [] else categories[0].popularSkills + AllPopularSkills(categories[1..])
  }

  lemma {:induction false} AllPopularSkillsMembership(categories: seq<Category>, x: string)
    ensures x in AllPopularSkills(categories) <==>
              exists i :: 0 <= i < |categories| && x in categories[i].popularSkills
  {
    if categories != [] {
      AllPopularSkillsMembership(categories[1..], x);
      assert forall i :: 1 <= i < |categories| ==> categories[i] == categories[1..][i - 1];
      if x in AllPopularSkills(categories[1..]) {
        var k :| 0 <= k < |categories[1..]| && x in categories[1..][k].popularSkills;
        assert x in categories[k + 1].popularSkills;
      }
    }
  }

  /** getPopularSkills: a known slug gives its category's skills, an unknown
      one gives none, and no slug gives the first ten of all skills. */
  function GetPopularSkills(categories: seq<Category>, category: Option<string>): (r: seq<string>)
    ensures Truthy(category) ==>
              (GetCategoryBySlug(categories, category.value).None? ==> r == [])
              && (GetCategoryBySlug(categories, category.value).Some? ==>
                    r == GetCategoryBySlug(categories, category.value).value.popularSkills)
    ensures !Truthy(category) ==>
              |r| == (if |AllPopularSkills(categories)| < 10 then |AllPopularSkills(categories)| else 10)
              && r == AllPopularSkills(categories)[..|r|]
  {
    if Truthy(category) then
      match GetCategoryBySlug(categories, category.value)
      case Some(c) => c.popularSkills
      case None => []
    else Take(AllPopularSkills(categories), 10)
  }

  /** Without a slug every returned skill is some category's popular skill. */
  lemma PopularSkillsComeFromCategories(categories: seq<Category>, x: string)
    requires x in GetPopularSkills(categories, None)
    ensures exists i :: 0 <= i < |categories| && x in categories[i].popularSkills
  {
    var r := GetPopularSkills(categories, None);
    assert x in AllPopularSkills(categories);
    AllPopularSkillsMembership(categories, x);
  }
}
