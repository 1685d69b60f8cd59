/** The dashboard's search and category filter (src/App.tsx). */
module Search {
  import opened Types
  import opened Lists
  import opened Text

  /** The lower-cased query occurs in the lower-cased title, description or author. */
  predicate MatchesSearch(p: Podcast, query: string) {
    var q := Lower(query);
    Includes(Lower(p.title), q) || Includes(Lower(p.description), q) || Includes(Lower(p.author), q)
  }

  /** No category selected, or exactly the podcast's category. */
  predicate MatchesCategory(p: Podcast, category: string) {
    category == "" || p.category == category
  }

  predicate Matches(p: Podcast, query: string, category: string) {
    MatchesSearch(p, query) && MatchesCategory(p, category)
  }

  /** `filteredPodcasts`: the podcasts that match both filters, in list order. */
  function Filtered(podcasts: seq<Podcast>, query: string, category: string): (r: seq<Podcast>)
    ensures forall i :: 0 <= i < |r| ==>
              r[i] in podcasts && MatchesSearch(r[i], query) && MatchesCategory(r[i], category)
    ensures forall i ::
              (0 <= i < |podcasts| && MatchesSearch(podcasts[i], query) &&
               MatchesCategory(podcasts[i], category)) ==> podcasts[i] in r
    ensures IsSubsequence(r, podcasts)
    ensures |r| == Count(podcasts, p => Matches(p, query, category))
  {
    Keep(podcasts, p => Matches(p, query, category))
  }

  /** With a category selected, every result is in exactly that category. */
  lemma FilteredCategoryExact(podcasts: seq<Podcast>, query: string, category: string)
    requires category != ""
    ensures forall p :: p in Filtered(podcasts, query, category) ==> p.category == category
  {
    var r := Filtered(podcasts, query, category);
    forall p | p in r ensures p.category == category {
      var i :| 0 <= i < |r| && r[i] == p;
    }
  }

  /** No query and no category: the whole list, because every string includes "". */
  lemma FilteredEverything(podcasts: seq<Podcast>)
    ensures Filtered(podcasts, "", "") == podcasts
  {
    assert Lower("") == "";
    forall p | p in podcasts ensures Matches(p, "", "") {
      IncludesEmpty(Lower(p.title));
    }
    KeepAll(podcasts, p => Matches(p, "", ""));
  }

  /** Queries that differ only in letter case give the same result. */
  lemma FilteredIgnoresCase(podcasts: seq<Podcast>, q1: string, q2: string, category: string)
    requires Lower(q1) == Lower(q2)
    ensures Filtered(podcasts, q1, category) == Filtered(podcasts, q2, category)
  {
    KeepAgree(podcasts, p => Matches(p, q1, category), p => Matches(p, q2, category));
  }

  /** In particular a query and its lower-cased form give the same result. */
  lemma FilteredLowerQuery(podcasts: seq<Podcast>, query: string, category: string)
    ensures Filtered(podcasts, Lower(query), category) == Filtered(podcasts, query, category)
  {
    LowerIdempotent(query);
    FilteredIgnoresCase(podcasts, Lower(query), query, category);
  }

  function Sample(id: string, title: string, description: string, author: string): Podcast {
    Podcast(id, title, description, "", "", 0, "Technology", author, "", 0, 0, "", "")
  }

  /** A query is found in a podcast whose lower-cased title starts with it. */
  lemma MatchesTitlePrefix(p: Podcast, query: string)
    requires Lower(query) == query && |query| <= |p.title|
    requires Lower(p.title)[..|query|] == query
    ensures MatchesSearch(p, query)
  {
    assert OccursAt(Lower(p.title), query, 0);
  }

  /** Of a matching and a non-matching podcast, only the first is kept. */
  lemma FilteredPair(a: Podcast, b: Podcast, query: string, category: string)
    requires Matches(a, query, category) && !Matches(b, query, category)
    ensures Filtered([a, b], query, category) == [a]
  {
    var keep := p => Matches(p, query, category);
    assert [a, b][1..] == [b];
    assert Keep([b], keep) == [];
  }

  /** A query is missed by a podcast whose title, description and author lack
      its first letter in either case. */
  lemma MissingFirstLetter(p: Podcast, query: string, upper: char)
    requires |query| > 0 && 'a' <= query[0] <= 'z' && Lower(query) == query
    requires upper == (query[0] as int - 'a' as int + 'A' as int) as char
    requires query[0] !in p.title && upper !in p.title
    requires query[0] !in p.description && upper !in p.description
    requires query[0] !in p.author && upper !in p.author
    ensures !MatchesSearch(p, query)
  {
    LowerKeepsAbsent(p.title, query[0]);
    LowerKeepsAbsent(p.description, query[0]);
    LowerKeepsAbsent(p.author, query[0]);
    IncludesNeedsFirstChar(Lower(p.title), query);
    IncludesNeedsFirstChar(Lower(p.description), query);
    IncludesNeedsFirstChar(Lower(p.author), query);
  }

  /** "tech" is found in "Tech Talk". */
  lemma TechTalkMatches()
    ensures Matches(Sample("1", "Tech Talk", "", "Alice"), "tech", "")
  {
    assert Lower("tech") == "tech";
    assert Lower("Tech Talk")[..4] == "tech";
    MatchesTitlePrefix(Sample("1", "Tech Talk", "", "Alice"), "tech");
  }

  /** Neither "Cooking Basics" nor "Bob" has a 't' or a 'T'. */
  lemma CookingBasicsLacksT()
    ensures 't' !in "Cooking Basics" && 'T' !in "Cooking Basics"
    ensures 't' !in "Bob" && 'T' !in "Bob"
  {
  }

  /** "tech" is not found in "Cooking Basics" by Bob. */
  lemma CookingBasicsMisses()
    ensures !Matches(Sample("2", "Cooking Basics", "", "Bob"), "tech", "")
  {
    assert Lower("tech") == "tech";
    CookingBasicsLacksT();
    MissingFirstLetter(Sample("2", "Cooking Basics", "", "Bob"), "tech", 'T');
  }

  /** "tech" finds "Tech Talk" by Alice and not "Cooking Basics" by Bob. */
  lemma FilteredTechExample()
    ensures Filtered([Sample("1", "Tech Talk", "", "Alice"),
                      Sample("2", "Cooking Basics", "", "Bob")], "tech", "")
            == [Sample("1", "Tech Talk", "", "Alice")]
  {
    TechTalkMatches();
    CookingBasicsMisses();
    FilteredPair(Sample("1", "Tech Talk", "", "Alice"),
                 Sample("2", "Cooking Basics", "", "Bob"), "tech", "");
  }
}
