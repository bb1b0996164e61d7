/** The Mentors page: one filter over its own mentor list, driven by the
    search box and the category picker, and the result count line. */
module MentorsPage {
  import opened Text
  import opened Seqs

  /** The fields of a listed mentor that the filter reads. */
  datatype ListedMentor = ListedMentor(id: int, name: string, title: string, expertise: seq<string>)

  /** The category picker's first entry, which stands for no category. */
  const AllCategories: string := "All Categories"

  /** The search condition: the lowercased query occurs in the name, in
      some area of expertise, or in the title. */
  predicate MatchesSearch(m: ListedMentor, query: string) {
    var q := Lower(query);
    Contains(Lower(m.name), q)
    || (exists i :: 0 <= i < |m.expertise| && Contains(Lower(m.expertise[i]), q))
    || Contains(Lower(m.title), q)
  }

  /** The category condition: no category, "All Categories", or some area of
      expertise containing the lowercased category. */
  predicate MatchesCategory(m: ListedMentor, category: string) {
    category == "" || category == AllCategories
    || exists i :: 0 <= i < |m.expertise| && Contains(Lower(m.expertise[i]), Lower(category))
  }

  /** filteredMentors */
  function FilteredMentors(mentors: seq<ListedMentor>, query: string, category: string): (r: seq<ListedMentor>)
    ensures forall m :: m in r <==> m in mentors && MatchesSearch(m, query) && MatchesCategory(m, category)
    ensures IsSubseq(r, mentors)
  {
    FilterIsSubseq(mentors, (m: ListedMentor) => MatchesSearch(m, query) && MatchesCategory(m, category));
    Filter(mentors, (m: ListedMentor) => MatchesSearch(m, query) && MatchesCategory(m, category))
  }

  /** The empty query matches every mentor. */
  lemma EmptyQueryMatches(m: ListedMentor)
    ensures MatchesSearch(m, "")
  {
    ContainsEmpty(Lower(m.name));
  }

  /** With an empty query and no category (or "All Categories"), every
      mentor is listed, in order. */
  lemma UnfilteredListsAll(mentors: seq<ListedMentor>, category: string)
    requires category == "" || category == AllCategories
    ensures FilteredMentors(mentors, "", category) == mentors
  {
    forall m | m in mentors ensures MatchesSearch(m, "") && MatchesCategory(m, category) {
      EmptyQueryMatches(m);
    }
    FilterAll(mentors, (m: ListedMentor) => MatchesSearch(m, "") && MatchesCategory(m, category));
  }

  /** `mentor{n !== 1 ? 's' : ''}` */
  function Plural(n: nat): (s: string)
    ensures s == "s" <==> n != 1
    ensures s == "" <==> n == 1
  {
    if n != 1 then "s" else ""
  }

  /** The result count line. */
  function CountLabel(n: nat): (r: string)
    ensures n == 1 ==> r == "1 mentor found"
    ensures n != 1 ==> r == NatToString(n) + " mentors found"
  {
    NatToString(n) + " mentor" + Plural(n) + " found"
  }
}
