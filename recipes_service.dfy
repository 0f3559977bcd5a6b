/** The recipe and rating service (server/src/recipes/recipes.service.ts):
    the recipe table and the rating table, the author-only update and
    delete, the rating cooldown and upsert, and the average rating every
    read path attaches to a recipe. The database becomes two maps held by
    a `RecipeStore`; the clock is an integer number of milliseconds passed
    to the operations that read it. */
module RecipesService {
  import opened Wrappers
  import opened Text
  import opened Seqs
  import opened CreateRecipeDto

  type UserId = string
  type RecipeId = nat

  /** A rating is keyed by the (user, recipe) pair it belongs to. */
  type PairKey = (UserId, RecipeId)

  /** A stored recipe: the submitted fields, the author and the creation time. */
  datatype Recipe = Recipe(id: RecipeId, content: RecipeInput, authorId: UserId, createdAt: int)

  /** A stored rating; `updatedAt` is refreshed by every accepted upsert. */
  datatype Rating = Rating(score: int, review: Option<string>, updatedAt: int)

  /** The body of a rating request; the score is not range-checked here. */
  datatype RateRecipeDto = RateRecipeDto(rating: int, review: Option<string>)

  /** The body of an update request: every field optional, a missing one
      leaves the stored value alone. */
  datatype RecipePatch = RecipePatch(
    title: Option<string>,
    description: Option<string>,
    ingredients: Option<seq<string>>,
    instructions: Option<seq<string>>,
    prepTime: Option<int>,
    cookTime: Option<int>,
    servings: Option<int>,
    difficulty: Option<string>,
    imageUrl: Option<string>)

  datatype Error = NotFound(message: string) | Forbidden(message: string)

  const RecipeNotFound := "Recipe not found"
  const UpdateDenied := "You can only update your own recipes"
  const DeleteDenied := "You can only delete your own recipes"

  /** One rating as the read paths return it with its recipe. */
  datatype RatingEntry = RatingEntry(userId: UserId, rating: int, review: Option<string>)

  /** A recipe as the read paths return it: its ratings, their count and
      the derived average. */
  datatype RecipeView = RecipeView(recipe: Recipe, ratings: seq<RatingEntry>, ratingCount: nat, averageRating: real)

  // ---------------------------------------------------------------- average

  /** `ratings.reduce((sum, rating) => sum + rating.rating, 0)`: a left fold. */
  function SumOfScores(entries: seq<RatingEntry>): int {
    if entries == [] then 0
    else SumOfScores(entries[..|entries| - 1]) + entries[|entries| - 1].rating
  }

  /** The `averageRating` attached by findAll, findOne and findUserRecipes. */
  function AverageRating(entries: seq<RatingEntry>): (avg: real)
    ensures entries == [] ==> avg == 0.0
    ensures entries != [] ==> avg * (|entries| as real) == SumOfScores(entries) as real
  {
    if |entries| > 0 then SumOfScores(entries) as real / |entries| as real else 0.0
  }

  lemma {:induction false} SumBetween(entries: seq<RatingEntry>, lo: int, hi: int)
    requires forall i :: 0 <= i < |entries| ==> lo <= entries[i].rating <= hi
    ensures lo * |entries| <= SumOfScores(entries) <= hi * |entries|
  {
    if entries != [] {
      var n := |entries| - 1;
      SumBetween(entries[..n], lo, hi);
      assert lo * (n + 1) == lo * n + lo;
      assert hi * (n + 1) == hi * n + hi;
    }
  }

  lemma QuotientAtLeast(x: real, n: real, lo: real)
    requires n > 0.0 && lo * n <= x
    ensures lo <= x / n
  {
  }

  lemma QuotientAtMost(x: real, n: real, hi: real)
    requires n > 0.0 && x <= hi * n
    ensures x / n <= hi
  {
  }

  lemma CastProduct(a: int, b: int)
    ensures (a * b) as real == a as real * b as real
  {
  }

  /** The average of scores in `lo..hi` lies in `lo..hi`. */
  lemma AverageBetween(entries: seq<RatingEntry>, lo: int, hi: int)
    requires entries != []
    requires forall i :: 0 <= i < |entries| ==> lo <= entries[i].rating <= hi
    ensures lo as real <= AverageRating(entries) <= hi as real
  {
    SumBetween(entries, lo, hi);
    var n := |entries| as real;
    var sum := SumOfScores(entries) as real;
    CastProduct(lo, |entries|);
    CastProduct(hi, |entries|);
    QuotientAtLeast(sum, n, lo as real);
    QuotientAtMost(sum, n, hi as real);
  }

  lemma {:induction false} SumRemove(s: seq<RatingEntry>, j: nat)
    requires j < |s|
    ensures SumOfScores(s) == SumOfScores(s[..j] + s[j + 1..]) + s[j].rating
    decreases |s|
  {
    var n := |s| - 1;
    if j == n {
      assert s[..j] + s[j + 1..] == s[..n];
    } else {
      var t := s[..n];
      SumRemove(t, j);
      assert s[..j] + s[j + 1..] == (t[..j] + t[j + 1..]) + [s[n]];
      var u := s[..j] + s[j + 1..];
      assert u[..|u| - 1] == t[..j] + t[j + 1..];
    }
  }

  /** The sum does not depend on the order the ratings are listed in. */
  lemma {:induction false} SumPermutation(a: seq<RatingEntry>, b: seq<RatingEntry>)
    requires multiset(a) == multiset(b)
    ensures SumOfScores(a) == SumOfScores(b)
    decreases |a|
  {
    if a != [] {
      var n := |a| - 1;
      var x := a[n];
      assert a == a[..n] + [x];
      assert x in multiset(b);
      var j :| 0 <= j < |b| && b[j] == x;
      assert b == b[..j] + [x] + b[j + 1..];
      var rest := b[..j] + b[j + 1..];
      assert multiset(rest) == multiset(b) - multiset{x};
      assert multiset(a[..n]) == multiset(a) - multiset{x};
      SumPermutation(a[..n], rest);
      SumRemove(b, j);
    } else {
      assert |b| == |multiset(b)|;
    }
  }

  // ---------------------------------------------------------------- listings

  function EntryOf(userId: UserId, r: Rating): RatingEntry {
    RatingEntry(userId, r.score, r.review)
  }

  /** `list` is one way of listing the ratings of recipe `id`: each entry is
      a stored rating of that recipe, every such rating is listed, and no
      user is listed twice. The store returns them in an order of its own. */
  ghost predicate IsListing(ratings: map<PairKey, Rating>, id: RecipeId, list: seq<RatingEntry>) {
    && (forall i :: 0 <= i < |list| ==>
          (list[i].userId, id) in ratings && list[i] == EntryOf(list[i].userId, ratings[(list[i].userId, id)]))
    && (forall k :: k in ratings && k.1 == id ==> EntryOf(k.0, ratings[k]) in list)
    && (forall i, j :: 0 <= i < j < |list| ==> list[i].userId != list[j].userId)
  }

  /** Any two listings of one recipe's ratings are permutations of each other. */
  lemma ListingsArePermutations(ratings: map<PairKey, Rating>, id: RecipeId, l1: seq<RatingEntry>, l2: seq<RatingEntry>)
    requires IsListing(ratings, id, l1) && IsListing(ratings, id, l2)
    ensures multiset(l1) == multiset(l2)
  {
    forall e ensures e in l1 <==> e in l2 {
      if e in l1 {
        var i :| 0 <= i < |l1| && l1[i] == e;
        assert (e.userId, id) in ratings;
      }
      if e in l2 {
        var i :| 0 <= i < |l2| && l2[i] == e;
        assert (e.userId, id) in ratings;
      }
    }
    SameElementsPermutation(l1, l2);
  }

  /** The three read paths agree on a recipe's average whatever order the
      store lists its ratings in. */
  lemma AverageIsWellDefined(ratings: map<PairKey, Rating>, id: RecipeId, l1: seq<RatingEntry>, l2: seq<RatingEntry>)
    requires IsListing(ratings, id, l1) && IsListing(ratings, id, l2)
    ensures |l1| == |l2|
    ensures AverageRating(l1) == AverageRating(l2)
  {
    ListingsArePermutations(ratings, id, l1, l2);
    assert |l1| == |multiset(l1)| == |multiset(l2)| == |l2|;
    SumPermutation(l1, l2);
  }

  // ---------------------------------------------------------------- decisions

  /** The lookup and ownership check update and remove share. */
  function CheckOwnership(recipes: map<RecipeId, Recipe>, id: RecipeId, userId: UserId, denied: string): (r: Result<Recipe, Error>)
    ensures id !in recipes ==> r == Failure(NotFound(RecipeNotFound))
    ensures id in recipes && recipes[id].authorId != userId ==> r == Failure(Forbidden(denied))
    ensures r.Success? <==> id in recipes && recipes[id].authorId == userId
    ensures r.Success? ==> r.value == recipes[id]
  {
    if id !in recipes then Failure(NotFound(RecipeNotFound))
    else if recipes[id].authorId != userId then Failure(Forbidden(denied))
    else Success(recipes[id])
  }

  /** Fields present in the patch replace the stored ones; the rest stay. */
  function Patch(c: RecipeInput, p: RecipePatch): (r: RecipeInput)
    ensures r.title == p.title.GetOr(c.title)
    ensures r.ingredients == p.ingredients.GetOr(c.ingredients)
    ensures r.instructions == p.instructions.GetOr(c.instructions)
    ensures p.description.Some? ==> r.description == p.description
    ensures p.description.None? ==> r.description == c.description
    ensures p.prepTime.Some? ==> r.prepTime == p.prepTime
    ensures p.prepTime.None? ==> r.prepTime == c.prepTime
    ensures p.cookTime.Some? ==> r.cookTime == p.cookTime
    ensures p.cookTime.None? ==> r.cookTime == c.cookTime
    ensures p.servings.Some? ==> r.servings == p.servings
    ensures p.servings.None? ==> r.servings == c.servings
    ensures p.difficulty.Some? ==> r.difficulty == p.difficulty
    ensures p.difficulty.None? ==> r.difficulty == c.difficulty
    ensures p.imageUrl.Some? ==> r.imageUrl == p.imageUrl
    ensures p.imageUrl.None? ==> r.imageUrl == c.imageUrl
  {
    RecipeInput(
      p.title.GetOr(c.title),
      if p.description.Some? then p.description else c.description,
      p.ingredients.GetOr(c.ingredients),
      p.instructions.GetOr(c.instructions),
      if p.prepTime.Some? then p.prepTime else c.prepTime,
      if p.cookTime.Some? then p.cookTime else c.cookTime,
      if p.servings.Some? then p.servings else c.servings,
      if p.difficulty.Some? then p.difficulty else c.difficulty,
      if p.imageUrl.Some? then p.imageUrl else c.imageUrl)
  }

  /** Applying the same patch twice is the same as applying it once. */
  lemma PatchIdempotent(c: RecipeInput, p: RecipePatch)
    ensures Patch(Patch(c, p), p) == Patch(c, p)
  {
  }

  /** The search filter of findAll: a missing or empty term keeps every
      recipe; otherwise the title or the description must contain it,
      ignoring case. */
  predicate MatchesSearch(r: Recipe, search: Option<string>) {
    || search.None?
    || search.value == ""
    || ContainsIgnoringCase(r.content.title, search.value)
    || (r.content.description.Some? && ContainsIgnoringCase(r.content.description.value, search.value))
  }

  function SearchFilter(search: Option<string>): Recipe -> bool {
    (r: Recipe) => MatchesSearch(r, search)
  }

  function AuthorFilter(userId: UserId): Recipe -> bool {
    (r: Recipe) => r.authorId == userId
  }

  /** `orderBy: { createdAt: 'desc' }`. */
  function NewestFirst(): Recipe -> real {
    (r: Recipe) => r.createdAt as real
  }

  /** Reordering a selection of stored recipes keeps exactly that selection. */
  lemma ReorderedSelection(recipes: map<RecipeId, Recipe>, keep: Recipe -> bool, rs: seq<Recipe>, sorted: seq<Recipe>)
    requires multiset(sorted) == multiset(rs)
    requires forall i :: 0 <= i < |rs| ==> rs[i].id in recipes && recipes[rs[i].id] == rs[i] && keep(rs[i])
    requires forall id :: id in recipes && keep(recipes[id]) ==> recipes[id] in rs
    ensures forall x :: x in sorted ==> x.id in recipes && recipes[x.id] == x && keep(x)
    ensures forall id :: id in recipes && keep(recipes[id]) ==> recipes[id] in sorted
  {
    forall x | x in sorted ensures x.id in recipes && recipes[x.id] == x && keep(x) {
      assert x in multiset(rs);
      var k :| 0 <= k < |rs| && rs[k] == x;
    }
    forall id | id in recipes && keep(recipes[id]) ensures recipes[id] in sorted {
      assert recipes[id] in multiset(sorted);
    }
  }

  function RecipesIn(views: seq<RecipeView>): (rs: seq<Recipe>)
    ensures |rs| == |views|
    ensures forall i :: 0 <= i < |views| ==> rs[i] == views[i].recipe
  {
    seq(|views|, i requires 0 <= i < |views| => views[i].recipe)
  }

  // ---------------------------------------------------------------- cooldown

  const CooldownMs := 30000

  /** `Math.ceil(30 - secondsSinceUpdate)` for a whole number of elapsed
      milliseconds below the cooldown. */
  function WaitSeconds(elapsedMs: int): (w: nat)
    requires elapsedMs < CooldownMs
    ensures (w - 1) * 1000 < CooldownMs - elapsedMs <= w * 1000
    ensures 0 <= elapsedMs ==> 1 <= w <= 30
  {
    (CooldownMs - elapsedMs + 999) / 1000
  }

  /** The seconds to wait before the pair may be rated again, if any. */
  function CooldownWait(existing: Option<Rating>, now: int): (wait: Option<nat>)
    ensures existing.None? ==> wait.None?
    ensures existing.Some? ==> (wait.Some? <==> now - existing.value.updatedAt < CooldownMs)
    ensures wait.Some? ==> 1 <= wait.value && wait.value * 1000 >= CooldownMs - (now - existing.value.updatedAt)
  {
    if existing.Some? && now - existing.value.updatedAt < CooldownMs
    then Some(WaitSeconds(now - existing.value.updatedAt))
    else None
  }

  function DigitChar(d: nat): (c: char)
    requires d < 10
    ensures '0' <= c <= '9' && c as int - '0' as int == d
  {
    ('0' as int + d) as char
  }

  predicate AllDigits(s: string) {
    forall i :: 0 <= i < |s| ==> '0' <= s[i] <= '9'
  }

  /** A number written in decimal, as a template literal writes it. */
  function Decimal(n: nat): (s: string)
    ensures |s| >= 1 && AllDigits(s)
    ensures n > 0 ==> s[0] != '0'
    decreases n
  {
    if n < 10 then [DigitChar(n)] else Decimal(n / 10) + [DigitChar(n % 10)]
  }

  /** The number a string of decimal digits denotes. */
  function ValueOf(s: string): nat
    requires AllDigits(s)
  {
    if s == [] then 0 else ValueOf(s[..|s| - 1]) * 10 + (s[|s| - 1] as int - '0' as int)
  }

  lemma {:induction false} DecimalRoundTrip(n: nat)
    ensures ValueOf(Decimal(n)) == n
    decreases n
  {
    if n >= 10 {
      DecimalRoundTrip(n / 10);
      var s := Decimal(n);
      assert s[..|s| - 1] == Decimal(n / 10);
    }
  }

  const WaitPrefix := "Please wait "
  const WaitSuffix := "s before updating your rating again"

  /** The refusal text: the prefix, the wait in decimal, the suffix. */
  function CooldownMessage(wait: nat): (msg: string)
    ensures |msg| > |WaitPrefix| + |WaitSuffix|
    ensures msg[..|WaitPrefix|] == WaitPrefix && msg[|msg| - |WaitSuffix|..] == WaitSuffix
    ensures var digits := msg[|WaitPrefix|..|msg| - |WaitSuffix|];
      AllDigits(digits) && ValueOf(digits) == wait
  {
    var digits := Decimal(wait);
    DecimalRoundTrip(wait);
    var msg := WaitPrefix + digits + WaitSuffix;
    assert msg[|WaitPrefix|..|msg| - |WaitSuffix|] == digits;
    msg
  }

  /** The upsert: the new score and timestamp always, the new review if one
      was sent, otherwise the stored review (none for a first rating). */
  function Upserted(existing: Option<Rating>, dto: RateRecipeDto, now: int): (r: Rating)
    ensures r.score == dto.rating && r.updatedAt == now
    ensures dto.review.Some? ==> r.review == dto.review
    ensures dto.review.None? && existing.Some? ==> r.review == existing.value.review
    ensures dto.review.None? && existing.None? ==> r.review.None?
  {
    var kept := if existing.Some? then existing.value.review else None;
    Rating(dto.rating, if dto.review.Some? then dto.review else kept, now)
  }

  /** rateRecipe as a transition of the rating table. */
  function Rate(recipes: map<RecipeId, Recipe>, ratings: map<PairKey, Rating>, recipeId: RecipeId,
                dto: RateRecipeDto, userId: UserId, now: int): (out: (Result<Rating, Error>, map<PairKey, Rating>))
    ensures recipeId !in recipes ==> out == (Failure(NotFound(RecipeNotFound)), ratings)
    ensures recipeId in recipes && (userId, recipeId) !in ratings ==> out.0.Success?
    ensures recipeId in recipes && (userId, recipeId) in ratings ==>
      (out.0.Failure? <==> now - ratings[(userId, recipeId)].updatedAt < CooldownMs)
    ensures out.0.Failure? ==> out.1 == ratings
    ensures out.0.Failure? && recipeId in recipes ==>
      exists w :: 1 <= w && out.0 == Failure(Forbidden(CooldownMessage(w)))
    ensures out.0.Success? ==> out.1 == ratings[(userId, recipeId) := out.0.value]
    ensures out.0.Success? ==> out.0.value.score == dto.rating && out.0.value.updatedAt == now
    ensures out.0.Success? ==>
      out.0.value == Upserted(if (userId, recipeId) in ratings then Some(ratings[(userId, recipeId)]) else None, dto, now)
  {
    if recipeId !in recipes then (Failure(NotFound(RecipeNotFound)), ratings)
    else
      var key := (userId, recipeId);
      var existing := if key in ratings then Some(ratings[key]) else None;
      var wait := CooldownWait(existing, now);
      if wait.Some? then (Failure(Forbidden(CooldownMessage(wait.value))), ratings)
      else
        var rating := Upserted(existing, dto, now);
        (Success(rating), ratings[key := rating])
  }

  /** A rejected re-rating reports the wait in seconds, between 1 and 30
      when the stored timestamp is not in the future. */
  lemma CooldownMessageReportsWait(recipes: map<RecipeId, Recipe>, ratings: map<PairKey, Rating>, recipeId: RecipeId,
                                   dto: RateRecipeDto, userId: UserId, now: int)
    requires recipeId in recipes && (userId, recipeId) in ratings
    requires 0 <= now - ratings[(userId, recipeId)].updatedAt < CooldownMs
    ensures var w := WaitSeconds(now - ratings[(userId, recipeId)].updatedAt);
      1 <= w <= 30 && Rate(recipes, ratings, recipeId, dto, userId, now).0 == Failure(Forbidden(CooldownMessage(w)))
  {
  }

  // ---------------------------------------------------------------- the store

  class RecipeStore {
    var recipes: map<RecipeId, Recipe>
    var ratings: map<PairKey, Rating>
    var nextId: nat

    /** Recipes are stored under their own id, ids come from `nextId`, and
        every rating belongs to a stored recipe. */
    ghost predicate Valid()
      reads this
    {
      && (forall id :: id in recipes ==> recipes[id].id == id && id < nextId)
      && (forall k :: k in ratings ==> k.1 in recipes)
    }

    /** `v` is what the read paths return for a stored recipe. */
    ghost predicate IsViewOf(v: RecipeView)
      reads this
    {
      && v.recipe.id in recipes && recipes[v.recipe.id] == v.recipe
      && IsListing(ratings, v.recipe.id, v.ratings)
      && v.ratingCount == |v.ratings|
      && v.averageRating == AverageRating(v.ratings)
    }

    constructor()
      ensures Valid()
      ensures recipes == map[] && ratings == map[]
    {
      recipes := map[];
      ratings := map[];
      nextId := 0;
    }

    /** `create`: the caller becomes the author. */
    method Create(dto: RecipeInput, userId: UserId, now: int) returns (r: Recipe)
      requires Valid()
      modifies this
      ensures Valid()
      ensures r.id !in old(recipes)
      ensures r.content == dto && r.authorId == userId && r.createdAt == now
      ensures recipes == old(recipes)[r.id := r] && ratings == old(ratings)
    {
      r := Recipe(nextId, dto, userId, now);
      recipes := recipes[nextId := r];
      nextId := nextId + 1;
    }

    /** The ratings of a stored recipe, in the order the table yields them. */
    method RatingsOf(id: RecipeId) returns (list: seq<RatingEntry>)
      ensures IsListing(ratings, id, list)
    {
      var keys := ratings.Keys;
      list := [];
      while keys != {}
        invariant keys <= ratings.Keys
        invariant forall i :: 0 <= i < |list| ==>
          (list[i].userId, id) in ratings && (list[i].userId, id) !in keys
          && list[i] == EntryOf(list[i].userId, ratings[(list[i].userId, id)])
        invariant forall k :: k in ratings && k.1 == id && k !in keys ==> EntryOf(k.0, ratings[k]) in list
        invariant forall i, j :: 0 <= i < j < |list| ==> list[i].userId != list[j].userId
        decreases keys
      {
        var k :| k in keys;
        if k.1 == id {
          list := list + [EntryOf(k.0, ratings[k])];
        }
        keys := keys - {k};
      }
    }

    /** A stored recipe with its ratings, their count and their average. */
    method ViewOf(id: RecipeId) returns (v: RecipeView)
      requires Valid() && id in recipes
      ensures IsViewOf(v) && v.recipe == recipes[id]
    {
      var list := RatingsOf(id);
      v := RecipeView(recipes[id], list, |list|, AverageRating(list));
    }

    /** The stored recipes `keep` accepts, each once, in no particular order. */
    method Select(keep: Recipe -> bool) returns (rs: seq<Recipe>)
      requires Valid()
      ensures forall i :: 0 <= i < |rs| ==> rs[i].id in recipes && recipes[rs[i].id] == rs[i] && keep(rs[i])
      ensures forall id :: id in recipes && keep(recipes[id]) ==> recipes[id] in rs
      ensures Distinct(rs)
    {
      var ids := recipes.Keys;
      rs := [];
      while ids != {}
        invariant ids <= recipes.Keys
        invariant forall i :: 0 <= i < |rs| ==>
          rs[i].id in recipes && rs[i].id !in ids && recipes[rs[i].id] == rs[i] && keep(rs[i])
        invariant forall id :: id in recipes && id !in ids && keep(recipes[id]) ==> recipes[id] in rs
        invariant Distinct(rs)
        decreases ids
      {
        var id :| id in ids;
        if keep(recipes[id]) {
          rs := rs + [recipes[id]];
        }
        ids := ids - {id};
      }
    }

    /** Sorts recipes newest first (`orderBy: { createdAt: 'desc' }`). */
    method SortNewestFirst(rs: seq<Recipe>) returns (sorted: seq<Recipe>)
      ensures multiset(sorted) == multiset(rs)
      ensures forall i, j :: 0 <= i < j < |sorted| ==> sorted[i].createdAt >= sorted[j].createdAt
    {
      var a := new Recipe[|rs|](i requires 0 <= i < |rs| => rs[i]);
      assert a[..] == rs;
      SortByKeyDesc(a, NewestFirst());
      sorted := a[..];
      assert SortedDesc(sorted, NewestFirst());
    }

    /** The view of each of the given stored recipes, in their order. */
    method ViewsOf(rs: seq<Recipe>) returns (views: seq<RecipeView>)
      requires Valid()
      requires forall x :: x in rs ==> x.id in recipes && recipes[x.id] == x
      ensures RecipesIn(views) == rs
      ensures forall i :: 0 <= i < |views| ==> IsViewOf(views[i])
    {
      views := [];
      var i := 0;
      while i < |rs|
        invariant 0 <= i <= |rs|
        invariant |views| == i
        invariant forall j :: 0 <= j < i ==> IsViewOf(views[j]) && views[j].recipe == rs[j]
      {
        var v := ViewOf(rs[i].id);
        views := views + [v];
        i := i + 1;
      }
    }

    /** `findMany` with a filter, newest first, each recipe with its view. */
    method FindMany(keep: Recipe -> bool) returns (views: seq<RecipeView>)
      requires Valid()
      ensures forall i :: 0 <= i < |views| ==> IsViewOf(views[i]) && keep(views[i].recipe)
      ensures forall id :: id in recipes && keep(recipes[id]) ==> recipes[id] in RecipesIn(views)
      ensures Distinct(RecipesIn(views))
      ensures forall i, j :: 0 <= i < j < |views| ==> views[i].recipe.createdAt >= views[j].recipe.createdAt
    {
      var rs := Select(keep);
      var sorted := SortNewestFirst(rs);
      PermutationDistinct(rs, sorted);
      ReorderedSelection(recipes, keep, rs, sorted);
      views := ViewsOf(sorted);
    }

    /** `findAll(search)`. */
    method FindAll(search: Option<string>) returns (views: seq<RecipeView>)
      requires Valid()
      ensures forall i :: 0 <= i < |views| ==> IsViewOf(views[i]) && MatchesSearch(views[i].recipe, search)
      ensures forall id :: id in recipes && MatchesSearch(recipes[id], search) ==> recipes[id] in RecipesIn(views)
      ensures Distinct(RecipesIn(views))
      ensures forall i, j :: 0 <= i < j < |views| ==> views[i].recipe.createdAt >= views[j].recipe.createdAt
    {
      views := FindMany(SearchFilter(search));
    }

    /** `findOne(id)`. */
    method FindOne(id: RecipeId) returns (r: Result<RecipeView, Error>)
      requires Valid()
      ensures id !in recipes ==> r == Failure(NotFound(RecipeNotFound))
      ensures id in recipes ==> r.Success? && r.value.recipe == recipes[id] && IsViewOf(r.value)
    {
      if id !in recipes {
        return Failure(NotFound(RecipeNotFound));
      }
      var v := ViewOf(id);
      r := Success(v);
    }

    /** `findUserRecipes(userId)`. */
    method FindUserRecipes(userId: UserId) returns (views: seq<RecipeView>)
      requires Valid()
      ensures forall i :: 0 <= i < |views| ==> IsViewOf(views[i]) && views[i].recipe.authorId == userId
      ensures forall id :: id in recipes && recipes[id].authorId == userId ==> recipes[id] in RecipesIn(views)
      ensures Distinct(RecipesIn(views))
      ensures forall i, j :: 0 <= i < j < |views| ==> views[i].recipe.createdAt >= views[j].recipe.createdAt
    {
      views := FindMany(AuthorFilter(userId));
    }

    /** `update`: author only; the patch is applied to the stored recipe. */
    method Update(id: RecipeId, patch: RecipePatch, userId: UserId) returns (r: Result<Recipe, Error>)
      requires Valid()
      modifies this
      ensures Valid()
      ensures old(CheckOwnership(recipes, id, userId, UpdateDenied)).Failure? ==>
        r == old(CheckOwnership(recipes, id, userId, UpdateDenied)) && recipes == old(recipes)
      ensures old(CheckOwnership(recipes, id, userId, UpdateDenied)).Success? ==>
        r == Success(old(recipes)[id].(content := Patch(old(recipes)[id].content, patch)))
        && recipes == old(recipes)[id := r.value]
      ensures ratings == old(ratings) && nextId == old(nextId)
    {
      var found := CheckOwnership(recipes, id, userId, UpdateDenied);
      if found.Failure? {
        return found;
      }
      var updated := found.value.(content := Patch(found.value.content, patch));
      recipes := recipes[id := updated];
      r := Success(updated);
    }

    /** `remove`: author only; the recipe's ratings go with it. */
    method Remove(id: RecipeId, userId: UserId) returns (r: Result<Recipe, Error>)
      requires Valid()
      modifies this
      ensures Valid()
      ensures r == old(CheckOwnership(recipes, id, userId, DeleteDenied))
      ensures r.Failure? ==> recipes == old(recipes) && ratings == old(ratings)
      ensures r.Success? ==> recipes == old(recipes) - {id}
      ensures r.Success? ==> forall k :: k in ratings <==> k in old(ratings) && k.1 != id
      ensures r.Success? ==> forall k :: k in ratings ==> ratings[k] == old(ratings)[k]
      ensures nextId == old(nextId)
    {
      r := CheckOwnership(recipes, id, userId, DeleteDenied);
      if r.Failure? {
        return;
      }
      recipes := recipes - {id};
      ratings := map k | k in ratings && k.1 != id :: ratings[k];
    }

    /** `rateRecipe` at time `now`. */
    method RateRecipe(recipeId: RecipeId, dto: RateRecipeDto, userId: UserId, now: int) returns (r: Result<Rating, Error>)
      requires Valid()
      modifies this
      ensures Valid()
      ensures (r, ratings) == Rate(old(recipes), old(ratings), recipeId, dto, userId, now)
      ensures recipes == old(recipes) && nextId == old(nextId)
    {
      var out := Rate(recipes, ratings, recipeId, dto, userId, now);
      r := out.0;
      ratings := out.1;
    }
  }

  /** Two users rate one recipe; the first user's re-rating five seconds
      later is refused with a 25-second wait, and accepted after the
      cooldown. The average is then 3.5 however the ratings are listed. */
  lemma TwoRatersScenario(recipe: Recipe, list: seq<RatingEntry>)
    requires recipe.id == 0
    ensures var recipes := map[0 := recipe];
      var s1 := Rate(recipes, map[], 0, RateRecipeDto(4, None), "alice", 0);
      var s2 := Rate(recipes, s1.1, 0, RateRecipeDto(2, None), "bob", 1000);
      var s3 := Rate(recipes, s2.1, 0, RateRecipeDto(5, None), "alice", 5000);
      var s4 := Rate(recipes, s3.1, 0, RateRecipeDto(5, None), "alice", 31000);
      && s3.0 == Failure(Forbidden(CooldownMessage(25)))
      && s4.0.Success?
      && (IsListing(s4.1, 0, list) ==> AverageRating(list) == 3.5)
  {
    var recipes := map[0 := recipe];
    assert "alice" != "bob";
    var s1 := Rate(recipes, map[], 0, RateRecipeDto(4, None), "alice", 0);
    assert s1.1 == map[("alice", 0) := Rating(4, None, 0)];
    var s2 := Rate(recipes, s1.1, 0, RateRecipeDto(2, None), "bob", 1000);
    assert s2.1 == map[("alice", 0) := Rating(4, None, 0), ("bob", 0) := Rating(2, None, 1000)];
    var s3 := Rate(recipes, s2.1, 0, RateRecipeDto(5, None), "alice", 5000);
    assert WaitSeconds(5000) == 25;
    assert CooldownWait(Some(Rating(4, None, 0)), 5000) == Some(25);
    assert s3 == (Failure(Forbidden(CooldownMessage(25))), s2.1);
    var s4 := Rate(recipes, s3.1, 0, RateRecipeDto(5, None), "alice", 31000);
    assert CooldownWait(Some(Rating(4, None, 0)), 31000) == None;
    var m := s4.1;
    assert m == map[("alice", 0) := Rating(5, None, 31000), ("bob", 0) := Rating(2, None, 1000)];
    if IsListing(m, 0, list) {
      var known := [RatingEntry("alice", 5, None), RatingEntry("bob", 2, None)];
      assert "alice" != "bob";
      assert IsListing(m, 0, known);
      AverageIsWellDefined(m, 0, list, known);
      assert SumOfScores(known) == 7;
    }
  }
}
