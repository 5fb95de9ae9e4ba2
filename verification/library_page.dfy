// The knowledge base: a search over article titles and a category filter
// with an "All" choice.

module LibraryPage {
  import opened Common

  datatype Article = Article(id: int, title: string, category: string, readTime: string, bookmarked: bool)

  const Articles: seq<Article> := [
    Article(1, "Understanding Orbital Velocity", "Physics", "5 min", true),
    Article(2, "History of Space Stations", "History", "8 min", false),
    Article(3, "Satellite Communication Protocols", "Engineering", "12 min", true),
    Article(4, "The Apollo Missions", "Missions", "15 min", false),
    Article(5, "Rocket Propulsion Systems", "Engineering", "10 min", false),
    Article(6, "Mars Exploration Timeline", "Missions", "7 min", false)
  ]

  const AllCategories: string := "All"

  /** The category chips offered above the list. */
  const Categories: seq<string> := [AllCategories, "Physics", "Engineering", "History", "Missions"]

  /** The search looks at the title only; the filter at the category. */
  predicate Matches(article: Article, search: string, filter: string) {
    ContainsIgnoreCase(article.title, search) && (filter == AllCategories || article.category == filter)
  }

  /** `filteredArticles` over the list `articles`. */
  function FilteredArticles(articles: seq<Article>, search: string, filter: string): (r: seq<Article>)
    ensures forall a :: a in r <==>
      a in articles && ContainsIgnoreCase(a.title, search) && (filter == AllCategories || a.category == filter)
    ensures IsSubsequence(r, articles)
    ensures |r| == CountWhere(articles, (a: Article) => Matches(a, search, filter))
  {
    FilterIsSubsequence(articles, (a: Article) => Matches(a, search, filter));
    Filter(articles, (a: Article) => Matches(a, search, filter))
  }

  /** With no search and "All" chosen, every article shows, in order. */
  lemma ShowsEverythingByDefault(articles: seq<Article>)
    ensures FilteredArticles(articles, "", AllCategories) == articles
  {
    forall a | a in articles
      ensures Matches(a, "", AllCategories)
    {
      EmptySearchMatches(a.title);
    }
    FilterKeepsAll(articles, (a: Article) => Matches(a, "", AllCategories));
  }

  /** On the page's opening state all six shipped articles are listed. */
  lemma OpeningListHasSix()
    ensures |FilteredArticles(Articles, "", AllCategories)| == 6
  {
    ShowsEverythingByDefault(Articles);
  }

  /** Read time and bookmark flag play no part in the search. */
  lemma {:induction false} SearchIgnoresReadTimeAndBookmark(a: Article, readTime: string, bookmarked: bool, search: string, filter: string)
    ensures FilteredArticles([a.(readTime := readTime, bookmarked := bookmarked)], search, filter)
      == (if a in FilteredArticles([a], search, filter) then [a.(readTime := readTime, bookmarked := bookmarked)] else [])
  {
    var b := a.(readTime := readTime, bookmarked := bookmarked);
    assert [a][1..] == [] && [b][1..] == [];
    assert Matches(b, search, filter) == Matches(a, search, filter);
  }
}
