/** The catalogue page (web/src/app/recipes/page.tsx): the fetched list,
    the four filter/sort controls and `applyFilters`, which copies the list,
    narrows it by search text, difficulty and minimum rating, and sorts it. */
module RecipesPage {
  import opened Wrappers
  import opened Text
  import opened Seqs
  import opened Api

  /** The `ratingFilter` select: "all", or one of "1".."4" read by
      `parseFloat`, kept here as the integer it denotes. */
  datatype RatingFilter = AnyRating | AtLeast(min: int)

  /** The page's `search`, `sortBy`, `difficultyFilter` and `ratingFilter`. */
  datatype Filters = Filters(
    search: string,
    sortBy: string,
    difficultyFilter: string,
    ratingFilter: RatingFilter)

  /** The state the page starts in and the one "Clear Filters" restores. */
  function Cleared(): (f: Filters)
    ensures f.search == [] && f.sortBy == "newest"
    ensures f.difficultyFilter == "all" && f.ratingFilter == AnyRating
  {
    Filters("", "newest", "all", AnyRating)
  }

  /** Title, description or author name contains the (untrimmed) search
      text, ignoring case; an absent description never matches. */
  predicate MatchesSearch(r: Recipe, search: string) {
    || ContainsIgnoringCase(r.title, search)
    || (r.description.Some? && ContainsIgnoringCase(r.description.value, search))
    || ContainsIgnoringCase(r.authorName, search)
  }

  predicate MatchesDifficulty(r: Recipe, difficultyFilter: string) {
    r.difficulty.Some? && ToLower(r.difficulty.value) == ToLower(difficultyFilter)
  }

  predicate MeetsMinimum(r: Recipe, min: int) {
    r.averageRating >= min as real
  }

  /** The three filters together; a blank search, "all" and `AnyRating`
      let everything through. */
  predicate Passes(r: Recipe, f: Filters) {
    && (IsBlank(f.search) || MatchesSearch(r, f.search))
    && (f.difficultyFilter == "all" || MatchesDifficulty(r, f.difficultyFilter))
    && (f.ratingFilter.AnyRating? || MeetsMinimum(r, f.ratingFilter.min))
  }

  function KeepFor(f: Filters): Recipe -> bool {
    (r: Recipe) => Passes(r, f)
  }

  /** The comparator of the `switch (sortBy)`, as a key sorted largest first:
      "rating" by average rating, "oldest" by creation time ascending, and
      "newest" or any other value by creation time descending. */
  function SortKey(sortBy: string): Recipe -> real {
    if sortBy == "rating" then (r: Recipe) => r.averageRating
    else if sortBy == "oldest" then (r: Recipe) => -(r.createdAt as real)
    else (r: Recipe) => r.createdAt as real
  }

  predicate OrderedFor(sortBy: string, s: seq<Recipe>) {
    if sortBy == "rating" then
      forall i, j :: 0 <= i < j < |s| ==> s[i].averageRating >= s[j].averageRating
    else if sortBy == "oldest" then
      forall i, j :: 0 <= i < j < |s| ==> s[i].createdAt <= s[j].createdAt
    else
      forall i, j :: 0 <= i < j < |s| ==> s[i].createdAt >= s[j].createdAt
  }

  /** `shown` is what the page lists for `recipes` under `f`: a permutation
      of exactly the recipes that pass all three filters, in `f.sortBy`
      order. */
  ghost predicate IsFilteredView(recipes: seq<Recipe>, f: Filters, shown: seq<Recipe>) {
    && multiset(shown) == multiset(Filter(recipes, KeepFor(f)))
    && OrderedFor(f.sortBy, shown)
  }

  lemma SortedForKey(sortBy: string, s: seq<Recipe>)
    requires SortedDesc(s, SortKey(sortBy))
    ensures OrderedFor(sortBy, s)
  {
  }

  /** The three filtering stages of `applyFilters`, each applied only when
      its control is set, leave exactly the recipes passing all three. */
  method Narrow(recipes: seq<Recipe>, f: Filters) returns (filtered: seq<Recipe>)
    ensures filtered == Filter(recipes, KeepFor(f))
  {
    filtered := recipes;
    ghost var bySearch := (r: Recipe) => IsBlank(f.search) || MatchesSearch(r, f.search);
    if !IsBlank(f.search) {
      filtered := Filter(filtered, (r: Recipe) => MatchesSearch(r, f.search));
      FilterSameCondition(recipes, (r: Recipe) => MatchesSearch(r, f.search), bySearch);
    } else {
      FilterKeepsAll(recipes, bySearch);
    }

    ghost var byDifficulty := (r: Recipe) => bySearch(r) && (f.difficultyFilter == "all" || MatchesDifficulty(r, f.difficultyFilter));
    if f.difficultyFilter != "all" {
      var keep := (r: Recipe) => MatchesDifficulty(r, f.difficultyFilter);
      FilterFilter(recipes, bySearch, keep, byDifficulty);
      filtered := Filter(filtered, keep);
    } else {
      FilterSameCondition(recipes, bySearch, byDifficulty);
    }

    if f.ratingFilter != AnyRating {
      var minRating := f.ratingFilter.min;
      var keep := (r: Recipe) => MeetsMinimum(r, minRating);
      FilterFilter(recipes, byDifficulty, keep, KeepFor(f));
      filtered := Filter(filtered, keep);
    } else {
      FilterSameCondition(recipes, byDifficulty, KeepFor(f));
    }
  }

  /** `applyFilters`: the fetched list is only read (the source filters a
      copy, `[...recipes]`, and sorts that copy in place). */
  method ApplyFilters(recipes: seq<Recipe>, f: Filters) returns (shown: seq<Recipe>)
    ensures IsFilteredView(recipes, f, shown)
    ensures forall r :: r in shown <==> r in recipes && Passes(r, f)
    ensures |shown| <= |recipes|
  {
    var filtered := Narrow(recipes, f);
    var a := new Recipe[|filtered|](i requires 0 <= i < |filtered| => filtered[i]);
    assert a[..] == filtered;
    SortByKeyDesc(a, SortKey(f.sortBy));
    shown := a[..];
    SortedForKey(f.sortBy, shown);
    FilteredViewBounded(recipes, f, shown);
    assert forall r :: r in shown <==> r in multiset(filtered);
  }

  /** The view never lists more recipes than were fetched. */
  lemma FilteredViewBounded(recipes: seq<Recipe>, f: Filters, shown: seq<Recipe>)
    requires IsFilteredView(recipes, f, shown)
    ensures |shown| <= |recipes|
  {
    assert |shown| == |multiset(shown)|;
  }

  /** After "Clear Filters" every fetched recipe is shown, newest first. */
  lemma ClearedShowsAll(recipes: seq<Recipe>, shown: seq<Recipe>)
    requires IsFilteredView(recipes, Cleared(), shown)
    ensures multiset(shown) == multiset(recipes)
    ensures forall i, j :: 0 <= i < j < |shown| ==> shown[i].createdAt >= shown[j].createdAt
  {
    assert IsBlank("");
    assert forall x :: x in recipes ==> Passes(x, Cleared());
    FilterKeepsAll(recipes, KeepFor(Cleared()));
  }

  /** The page's state: the fetched `recipes`, the controls, and the
      `filteredRecipes` it renders. Each handler sets its control and then,
      as the `useEffect` on those dependencies does, re-runs `applyFilters`. */
  class Page {
    var recipes: seq<Recipe>
    var filters: Filters
    var filteredRecipes: seq<Recipe>

    /** After every handler together with the `applyFilters` effect it
        triggers, the rendered list is the filtered view of what was
        fetched. The render committed between a state update and that
        effect is not modelled. */
    ghost predicate Valid()
      reads this
    {
      IsFilteredView(recipes, filters, filteredRecipes)
    }

    constructor ()
      ensures Valid()
      ensures recipes == [] && filters == Cleared() && filteredRecipes == []
    {
      recipes := [];
      filters := Cleared();
      filteredRecipes := [];
    }

    method Refresh()
      modifies this`filteredRecipes
      ensures Valid()
    {
      filteredRecipes := ApplyFilters(recipes, filters);
    }

    /** `fetchRecipes` succeeded with `data`. */
    method Fetched(data: seq<Recipe>)
      modifies this
      ensures Valid()
      ensures recipes == data && filters == old(filters)
    {
      recipes := data;
      Refresh();
    }

    /** The `search` URL parameter seeds the search box when non-empty. */
    method SearchParam(query: Option<string>)
      modifies this
      ensures Valid() && recipes == old(recipes)
      ensures filters == if query.Some? && query.value != [] then old(filters).(search := query.value) else old(filters)
    {
      if query.Some? && query.value != [] {
        filters := filters.(search := query.value);
      }
      Refresh();
    }

    /** Any of the four controls changed. */
    method SetFilters(f: Filters)
      modifies this
      ensures Valid() && recipes == old(recipes) && filters == f
    {
      filters := f;
      Refresh();
    }

    /** The "Clear Filters" button. */
    method ClearFilters()
      modifies this
      ensures Valid() && recipes == old(recipes) && filters == Cleared()
      ensures multiset(filteredRecipes) == multiset(recipes)
    {
      filters := Cleared();
      Refresh();
      ClearedShowsAll(recipes, filteredRecipes);
    }

    /** "Showing X of Y recipes": the two figures on the page. */
    method Showing() returns (x: nat, y: nat)
      requires Valid()
      ensures x == |filteredRecipes| && y == |recipes|
      ensures x <= y
    {
      x, y := |filteredRecipes|, |recipes|;
      FilteredViewBounded(recipes, filters, filteredRecipes);
    }
  }
}
