/**
 * The support knowledge base (src/app/support/components/KnowledgeBase.tsx).
 *
 * A fixed list of articles is shown filtered by a search query and an
 * optional category. An article matches the query when its title, its
 * excerpt or one of its tags contains the query, ignoring case. A category
 * that is absent or empty (JavaScript's falsy `selectedCategory`) restricts
 * nothing. The category chips list each category once, in order of first
 * appearance; clicking the selected chip deselects it and clicking another
 * selects that one. Clicking a tag chip makes the tag the query.
 */
module KnowledgeBase {
  import opened Common

  datatype Article = Article(id: string, title: string, category: string, excerpt: string, tags: seq<string>)

  const SetupGuide := Article("setup-guide", "Complete Setup Guide", "Getting Started",
                               "A comprehensive guide to setting up your STOREFRONT ERP system for the first time.",
                               ["setup", "configuration", "basics"])

  const InventoryBestPractices := Article("inventory-best-practices", "Inventory Management Best Practices", "Inventory",
                                          "Learn the best practices for managing your inventory efficiently with STOREFRONT.",
                                          ["inventory", "management", "optimization"])

  const FinancialReporting := Article("financial-reporting", "Financial Reporting Guide", "Finance",
                                      "Understanding financial reports and analytics in STOREFRONT.",
                                      ["finance", "reporting", "analytics"])

  const UserManagement := Article("user-management", "User Management and Permissions", "Administration",
                                  "Learn how to manage users and set up proper access permissions.",
                                  ["admin", "users", "security"])

  /** The articles, in the order they are listed. */
  function Articles(): seq<Article> {
    [SetupGuide, InventoryBestPractices, FinancialReporting, UserManagement]
  }

  function CategoryList(arts: seq<Article>): (cs: seq<string>)
    ensures |cs| == |arts|
    ensures forall i :: 0 <= i < |arts| ==> cs[i] == arts[i].category
  {
    Project(arts, (a: Article) => a.category)
  }

  /** `Array.from(new Set(articles.map(a => a.category)))`. */
  function Categories(arts: seq<Article>): (cs: seq<string>)
    ensures Distinct(cs)
    ensures forall c :: c in cs <==> exists a :: a in arts && a.category == c
  {
    var all := CategoryList(arts);
    assert forall c :: c in all <==> exists a :: a in arts && a.category == c by {
      forall c ensures c in all ==> exists a :: a in arts && a.category == c {
        if c in all {
          var i :| 0 <= i < |all| && all[i] == c;
          assert arts[i] in arts;
        }
      }
    }
    Dedup(all)
  }

  /** The search test: title, excerpt or a tag contains the query, ignoring case. */
  predicate MatchesSearch(a: Article, query: string) {
    MatchesQuery(a.title, query) || MatchesQuery(a.excerpt, query) ||
    exists tag :: tag in a.tags && MatchesQuery(tag, query)
  }

  /** The category test: `!selectedCategory || article.category === selectedCategory`. */
  predicate MatchesCategory(a: Article, selected: Option<string>) {
    selected == None || selected.value == "" || a.category == selected.value
  }

  /** `filteredArticles`. */
  function FilterArticles(arts: seq<Article>, query: string, selected: Option<string>): (r: seq<Article>)
    ensures forall a :: a in r <==> a in arts && MatchesSearch(a, query) && MatchesCategory(a, selected)
    ensures forall a :: multiset(r)[a] == if MatchesSearch(a, query) && MatchesCategory(a, selected) then multiset(arts)[a] else 0
    ensures IsSubsequence(r, arts)
  {
    Filter(arts, (a: Article) => MatchesSearch(a, query) && MatchesCategory(a, selected))
  }

  /** The selection after clicking the chip of `category`. */
  function ClickChip(selected: Option<string>, category: string): (r: Option<string>)
    ensures selected == Some(category) ==> r == None
    ensures selected != Some(category) ==> r == Some(category)
  {
    if selected == Some(category) then None else Some(category)
  }

  /** The knowledge base's state. */
  class KnowledgeBaseState {
    var searchQuery: string
    var selectedCategory: Option<string>

    constructor ()
      ensures searchQuery == "" && selectedCategory == None
    {
      searchQuery, selectedCategory := "", None;
    }

    /** Typing in the search field. */
    method SetSearchQuery(query: string)
      modifies this`searchQuery
      ensures searchQuery == query
    {
      searchQuery := query;
    }

    /** Clicking a category chip. */
    method ClickCategory(category: string)
      modifies this`selectedCategory
      ensures selectedCategory == ClickChip(old(selectedCategory), category)
    {
      selectedCategory := ClickChip(selectedCategory, category);
    }

    /** Clicking a tag chip. */
    method ClickTag(tag: string)
      modifies this`searchQuery
      ensures searchQuery == tag
    {
      searchQuery := tag;
    }

    /** The articles on screen. */
    function Shown(): seq<Article>
      reads this
    {
      FilterArticles(Articles(), searchQuery, selectedCategory)
    }
  }

  // ---------------------------------------------------------------------------
  // Properties

  /**
   * The categories are those of the articles in order of first appearance:
   * one more article adds its category at the end exactly when it is new.
   */
  lemma CategoriesFirstAppearance(arts: seq<Article>, a: Article)
    ensures Categories(arts + [a]) ==
            if exists b :: b in arts && b.category == a.category then Categories(arts) else Categories(arts) + [a.category]
  {
    var all := CategoryList(arts);
    assert CategoryList(arts + [a]) == all + [a.category];
    DedupSnoc(all, a.category);
    if a.category in all {
      var i :| 0 <= i < |all| && all[i] == a.category;
      assert arts[i] in arts;
    }
  }

  /** Four articles with four different categories list them in article order. */
  lemma FourCategories(a: Article, b: Article, c: Article, d: Article)
    requires Distinct([a.category, b.category, c.category, d.category])
    ensures Categories([a, b, c, d]) == [a.category, b.category, c.category, d.category]
  {
    var arts := [a, b, c, d];
    assert arts[1..][1..][1..][1..] == [];
    assert CategoryList(arts) == [a.category, b.category, c.category, d.category];
    DedupDistinct([a.category, b.category, c.category, d.category]);
  }

  /** The knowledge base's four articles have four different categories, listed in article order. */
  lemma ArticleCategories()
    ensures Categories(Articles()) == ["Getting Started", "Inventory", "Finance", "Administration"]
  {
    CategoriesDistinct();
    FourCategories(SetupGuide, InventoryBestPractices, FinancialReporting, UserManagement);
  }

  lemma CategoriesDistinct()
    ensures Distinct(["Getting Started", "Inventory", "Finance", "Administration"])
  {
    var cs := ["Getting Started", "Inventory", "Finance", "Administration"];
    assert cs[0][0] == 'G' && cs[1][0] == 'I' && cs[2][0] == 'F' && cs[3][0] == 'A';
  }

  /** With an empty query and no category every article is shown. */
  lemma EmptySearchShowsAll(arts: seq<Article>)
    ensures FilterArticles(arts, "", None) == arts
  {
    forall a | a in arts ensures MatchesSearch(a, "") {
      ContainsTrivial(Lower(a.title));
    }
    FilterAll(arts, (a: Article) => MatchesSearch(a, "") && MatchesCategory(a, None));
  }

  /** Clicking a chip twice clears the selection unless that chip was selected before, which it restores. */
  lemma ChipClickTwice(selected: Option<string>, category: string)
    ensures selected != Some(category) ==> ClickChip(ClickChip(selected, category), category) == None
    ensures selected == Some(category) ==> ClickChip(ClickChip(selected, category), category) == selected
  {
  }

  /** Clicking a tag of a shown article keeps that article on screen. */
  lemma TagClickKeepsArticle(arts: seq<Article>, query: string, selected: Option<string>, a: Article, tag: string)
    requires a in FilterArticles(arts, query, selected) && tag in a.tags
    ensures a in FilterArticles(arts, tag, selected)
  {
    ContainsTrivial(Lower(tag));
    assert MatchesQuery(tag, tag);
  }
}
