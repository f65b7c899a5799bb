/** The query pipeline every bookmark page runs over its list: a search filter, a tag filter
    and a stable sort, recomputed whenever the list or the query changes. */
module BookmarkQuery {
  import opened Wrappers
  import opened Seqs
  import opened Text
  import opened StableSort
  import opened Records

  /** The filter bar's state: search text, selected tags and sort key. */
  datatype Query = Query(searchQuery: string, selectedTags: seq<Tag>, sortBy: string)

  /** The state a page starts in: no search, no tag, newest first. */
  const InitialQuery := Query("", [], "createdAt")

  /** Some tag of the bookmark contains `needle` (both already lower-cased by the caller). */
  predicate SomeTagContains(tags: seq<string>, needle: string) {
    exists i :: 0 <= i < |tags| && Contains(Lower(tags[i]), needle)
  }

  /** The search test: the lower-cased query (not trimmed) occurs in the lower-cased title,
      url, description or one of the tag names. */
  predicate MatchesText(b: Bookmark, query: string) {
    var q := Lower(query);
    Contains(Lower(b.title), q) || Contains(Lower(b.url), q) || Contains(Lower(b.description), q)
    || SomeTagContains(b.tags, q)
  }

  function Matches(query: string): Bookmark -> bool {
    (b: Bookmark) => MatchesText(b, query)
  }

  /** The tag test: the bookmark carries at least one of `names`. */
  predicate TaggedAnyText(b: Bookmark, names: seq<string>) {
    exists i :: 0 <= i < |b.tags| && b.tags[i] in names
  }

  function TaggedAny(names: seq<string>): Bookmark -> bool {
    (b: Bookmark) => TaggedAnyText(b, names)
  }

  /** Step 1: `if (searchQuery.trim())` keep the bookmarks matching the query. */
  function SearchStep(bs: seq<Bookmark>, query: string): seq<Bookmark> {
    if IsBlank(query) then bs else Filter(bs, Matches(query))
  }

  /** Step 2: `if (selectedTags.length > 0)` keep the bookmarks carrying one of them. */
  function TagStep(bs: seq<Bookmark>, selected: seq<Tag>): seq<Bookmark> {
    if selected == [] then bs else Filter(bs, TaggedAny(TagNames(selected)))
  }

  /** A bookmark the query lets through, stated as one test: it passes the search unless the
      query is blank, and the tag test unless no tag is selected. */
  predicate ShownText(b: Bookmark, q: Query) {
    && (IsBlank(q.searchQuery) || MatchesText(b, q.searchQuery))
    && (q.selectedTags == [] || TaggedAnyText(b, TagNames(q.selectedTags)))
  }

  function Shown(q: Query): Bookmark -> bool {
    (b: Bookmark) => ShownText(b, q)
  }

  /** `a.title.localeCompare(b.title) <= 0`. */
  predicate TitleFirst(a: Bookmark, b: Bookmark) { LexLe(a.title, b.title) }

  /** `a.url.localeCompare(b.url) <= 0`. */
  predicate UrlFirst(a: Bookmark, b: Bookmark) { LexLe(a.url, b.url) }

  /** `new Date(b.createdAt) - new Date(a.createdAt) <= 0`. */
  predicate NewestFirst(a: Bookmark, b: Bookmark) { a.createdAt >= b.createdAt }

  /** The comparator chosen by `sortBy`; any key other than "title" and "url" sorts newest first. */
  function Order(sortBy: string): (Bookmark, Bookmark) -> bool {
    if sortBy == "title" then TitleFirst
    else if sortBy == "url" then UrlFirst
    else NewestFirst
  }

  lemma OrderIsTotalPreorder(sortBy: string)
    ensures TotalPreorder(Order(sortBy))
  {
    if sortBy == "title" || sortBy == "url" {
      forall a: string, b: string ensures LexLe(a, b) || LexLe(b, a) {
        LexLeTotal(a, b);
      }
      forall a: string, b: string, c: string | LexLe(a, b) && LexLe(b, c) ensures LexLe(a, c) {
        LexLeTransitive(a, b, c);
      }
    }
  }

  /** The two filter steps are one filter by `Shown`. */
  lemma {:induction false} FiltersAreOneFilter(bs: seq<Bookmark>, q: Query)
    ensures TagStep(SearchStep(bs, q.searchQuery), q.selectedTags) == Filter(bs, Shown(q))
  {
    var blank := IsBlank(q.searchQuery);
    var names := TagNames(q.selectedTags);
    if blank && q.selectedTags == [] {
      FilterKeepsAll(bs, Shown(q));
    } else if blank {
      FilterSamePredicate(bs, TaggedAny(names), Shown(q));
    } else if q.selectedTags == [] {
      FilterSamePredicate(bs, Matches(q.searchQuery), Shown(q));
    } else {
      FilterFilter(bs, Matches(q.searchQuery), TaggedAny(names), Shown(q));
    }
  }

  /** `filterBookmarks`: the bookmarks the query lets through, each as often as in the list,
      ordered by the chosen comparator. */
  function FilterBookmarks(bs: seq<Bookmark>, q: Query): (r: seq<Bookmark>)
    ensures multiset(r) == multiset(Filter(bs, Shown(q)))
    ensures Sorted(r, Order(q.sortBy))
  {
    FiltersAreOneFilter(bs, q);
    OrderIsTotalPreorder(q.sortBy);
    SortSorted(TagStep(SearchStep(bs, q.searchQuery), q.selectedTags), Order(q.sortBy));
    Sort(TagStep(SearchStep(bs, q.searchQuery), q.selectedTags), Order(q.sortBy))
  }

  /** A bookmark is displayed exactly when it is in the list and the query lets it through. */
  lemma ShownIff(bs: seq<Bookmark>, q: Query, b: Bookmark)
    ensures b in FilterBookmarks(bs, q) <==> b in bs && ShownText(b, q)
  {
    var f := Filter(bs, Shown(q));
    assert b in FilterBookmarks(bs, q) <==> b in multiset(f);
    if b in bs && ShownText(b, q) {
      var i :| 0 <= i < |bs| && bs[i] == b;
      FilterKeeps(bs, Shown(q), i);
    }
    if b in f {
      assert b in multiset(bs);
    }
  }

  /** Among displayed bookmarks the comparator cannot tell apart, list order is kept. */
  lemma SortKeepsListOrder(bs: seq<Bookmark>, q: Query, y: Bookmark)
    ensures Filter(FilterBookmarks(bs, q), SameRank(y, Order(q.sortBy)))
         == Filter(Filter(bs, Shown(q)), SameRank(y, Order(q.sortBy)))
  {
    FiltersAreOneFilter(bs, q);
    OrderIsTotalPreorder(q.sortBy);
    SortStable(Filter(bs, Shown(q)), y, Order(q.sortBy));
  }

  /** Running the pipeline over its own output changes nothing. */
  lemma PipelineIdempotent(bs: seq<Bookmark>, q: Query)
    ensures FilterBookmarks(FilterBookmarks(bs, q), q) == FilterBookmarks(bs, q)
  {
    var r := FilterBookmarks(bs, q);
    forall i | 0 <= i < |r| ensures Shown(q)(r[i]) {
      assert r[i] in multiset(Filter(bs, Shown(q)));
    }
    FiltersAreOneFilter(r, q);
    FilterKeepsAll(r, Shown(q));
    SortOfSorted(r, Order(q.sortBy));
  }

  /** With the filters cleared only the sort is left: every bookmark is displayed. */
  lemma ClearedQueryOnlySorts(bs: seq<Bookmark>, sortBy: string)
    ensures FilterBookmarks(bs, Query("", [], sortBy)) == Sort(bs, Order(sortBy))
    ensures multiset(FilterBookmarks(bs, Query("", [], sortBy))) == multiset(bs)
  {
  }

  /** The search ignores the case of the query. */
  lemma SearchIgnoresQueryCase(b: Bookmark, query: string)
    ensures MatchesText(b, query) <==> MatchesText(b, Lower(query))
  {
    assert Lower(Lower(query)) == Lower(query);
  }

  /** A query carrying white space around its text is searched for with that white space:
      " docs" does not find a bookmark whose only mention of "docs" is its tag. */
  lemma PaddedQueryIsNotTrimmed()
    ensures var b := Bookmark(1, "u", "t", "d", ["docs"], None, "", 0, 0);
            MatchesText(b, "docs") && !MatchesText(b, " docs")
  {
    var b := Bookmark(1, "u", "t", "d", ["docs"], None, "", 0, 0);
    assert Lower("docs") == "docs";
    assert OccursAt(Lower(b.tags[0]), "docs", 0);
    assert Lower(" docs") == " docs";
    assert !SomeTagContains(b.tags, " docs") by {
      assert forall k :: !OccursAt("docs", " docs", k);
    }
  }

  /** Tag filtering is "any of": selecting more tags never hides a bookmark already shown. */
  lemma MoreTagsShowMore(b: Bookmark, q: Query, more: seq<Tag>)
    requires q.selectedTags != [] && ShownText(b, q)
    ensures ShownText(b, q.(selectedTags := q.selectedTags + more))
  {
    var names := TagNames(q.selectedTags);
    var names' := TagNames(q.selectedTags + more);
    var i :| 0 <= i < |b.tags| && b.tags[i] in names;
    var k :| 0 <= k < |names| && names[k] == b.tags[i];
    assert names'[k] == b.tags[i];
  }
}
