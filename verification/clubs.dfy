/** `Clubs`: the public club list with its name search and category filter. */
module ClubsPage {
  import opened Domain
  import opened Text
  import Seqs

  const AllCategories := "All"

  /** The categories of the filter dropdown. */
  const Categories: seq<string> := ["All", "Technology", "Outdoors", "Arts", "Literature", "Sports"]

  /** A club passes when its lower-cased name contains the lower-cased search term and the
      category is "All" or the club's own. */
  predicate Matches(club: Club, term: string, category: string) {
    Contains(Lower(club.clubName), Lower(term)) && (category == AllCategories || club.category == category)
  }

  /** The shown clubs, in the order the backend listed them. */
  function FilteredClubs(clubs: seq<Club>, term: string, category: string): (r: seq<Club>)
    ensures forall c :: c in r <==> c in clubs && Matches(c, term, category)
    ensures Seqs.IsSubsequence(r, clubs)
  {
    Seqs.Filter(clubs, (c: Club) => Matches(c, term, category))
  }

  /** The dropdown's caption: "Filter" for all categories, otherwise the chosen one. */
  function FilterCaption(category: string): (caption: string)
    ensures category != AllCategories ==> caption == category
    ensures category == AllCategories ==> caption == "Filter"
  {
    if category == AllCategories then "Filter" else category
  }

  /** The caption tells the dropdown's choices apart: no two categories on offer show the
      same caption, and "Filter" shows exactly when nothing is filtered out by category. */
  lemma CaptionNamesChoice()
    ensures forall i, j :: 0 <= i < j < |Categories| ==> FilterCaption(Categories[i]) != FilterCaption(Categories[j])
    ensures forall i :: 0 <= i < |Categories| ==> (FilterCaption(Categories[i]) == "Filter" <==> Categories[i] == AllCategories)
  {
  }

  /** The page's initial state (empty search, "All") shows every club in order. */
  lemma InitialShowsAll(clubs: seq<Club>)
    ensures FilteredClubs(clubs, "", AllCategories) == clubs
  {
    forall i | 0 <= i < |clubs| ensures Matches(clubs[i], "", AllCategories) {
      ContainsEmpty(Lower(clubs[i].clubName));
    }
    Seqs.FilterAll(clubs, (c: Club) => Matches(c, "", AllCategories));
  }

  /** Typing more of a name never brings a club back: a longer term that contains the shorter
      one keeps a subset of the clubs. */
  lemma LongerTermNarrows(clubs: seq<Club>, shorter: string, longer: string, category: string)
    requires Contains(longer, shorter)
    ensures forall c :: c in FilteredClubs(clubs, longer, category) ==> c in FilteredClubs(clubs, shorter, category)
  {
    LowerPreservesContains(longer, shorter);
    forall c | Matches(c, longer, category) ensures Matches(c, shorter, category) {
      ContainsTransitive(Lower(c.clubName), Lower(longer), Lower(shorter));
    }
  }

  /** Choosing a category keeps a subset of what "All" shows. */
  lemma CategoryNarrows(clubs: seq<Club>, term: string, category: string)
    ensures forall c :: c in FilteredClubs(clubs, term, category) ==> c in FilteredClubs(clubs, term, AllCategories)
  {
  }

  /** The search ignores (ASCII) case: a term and its lower-cased form show the same list. */
  lemma SearchIgnoresCase(clubs: seq<Club>, term: string, category: string)
    ensures FilteredClubs(clubs, term, category) == FilteredClubs(clubs, Lower(term), category)
  {
    LowerIdempotent(term);
    Seqs.FilterAgree(clubs, (c: Club) => Matches(c, term, category), (c: Club) => Matches(c, Lower(term), category));
  }
}
