# FlavorAI recipe core, modelled in Dafny

FlavorAI is a recipe-sharing application. This project models the parts of it
that decide things:

- **The server's recipe service.** It holds a recipe table and a rating table.
  - Creating a recipe records the caller as its author.
  - Updating or deleting a recipe is allowed for its author only.
  - Rating a recipe is an upsert of one rating per (user, recipe) pair, behind
    a 30-second cooldown.
  - Every read path attaches an `averageRating`: the sum of the scores over
    their count, or 0 when there are none.
- **The request validation of a new recipe.** This is one validity predicate
  over the JSON body.
- **Four pieces of web-client logic:**
  - the catalogue page's search, difficulty and rating filters and its three
    sort orders;
  - the home page's top-six selection and its search redirect;
  - the recipe form's list defaulting, list cleaning and add/remove guards;
  - the star-rating widget's fill rules, labels and submission flag.

Modules:

| file | module | what it is |
|---|---|---|
| `recipes_service.dfy` | `RecipesService` | the store as a class (`RecipeStore`) holding two maps; the decisions, cooldown and average as functions; properties as lemmas |
| `create_recipe_dto.dfy` | `CreateRecipeDto` | the body constraints of `CreateRecipeDto`, and `Validate` |
| `recipes_page.dfy` | `RecipesPage` | `applyFilters` as a method over a copied array; the page state as a class |
| `home_page.dfy` | `HomePage` | the top-rated selection as an in-place sort then a slice; the search target |
| `recipe_form.dfy` | `RecipeForm` | default values, reset, cleaning; one field list as a class |
| `rating_system.dfy` | `RatingSystem` | star rows, label, heading; hover and submission state as a class |
| `api.dfy` | `Api` | the recipe record the client receives |
| `text.dfy` | `Text` | `trim` (the ECMAScript white-space set), ASCII `toLowerCase`, substring search |
| `uri_component.dfy` | `UriComponent` | `encodeURIComponent` (UTF-8, upper-case hex) and the query-string decoding that reads it back |
| `seqs.dfy` | `Seqs` | filter, subsequence, selection sort on an array, distinctness |
| `wrappers.dfy` | `Wrappers` | `Option` and `Result` |

The modelling choices below bear on what the contracts mean:

- **Time.** The clock is an integer number of milliseconds, passed in.
- **Timestamps.** Every accepted rating upsert sets the pair's `updatedAt` to
  that time. The schema that refreshes `updatedAt` is not part of this model,
  so this is an assumption.
- **Cascading delete.** Deleting a recipe deletes its ratings.
- **Recipe ids.** A recipe id is a natural number drawn from a counter. The
  service uses generated strings instead.
- **Listing order.** The store returns a recipe's ratings in an order of its
  own. `IsListing` says what any such listing contains. The lemmas prove that
  the average does not depend on the order.

## Model

| member | source | states |
|---|---|---|
| RecipesService.AverageRating | server/src/recipes/recipes.service.ts:82-89 | the average is 0.0 when there are no ratings, and otherwise multiplied by the count it gives the left-fold sum of the scores |
| RecipesService.AverageBetween | server/src/recipes/recipes.service.ts:84-88 | when every score lies in lo..hi, so does the average |
| RecipesService.SumPermutation | server/src/recipes/recipes.service.ts:86 | the reduce sum is the same for any permutation of the ratings |
| RecipesService.ListingsArePermutations | server/src/recipes/recipes.service.ts:103-114 | any two listings of one recipe's ratings (every stored rating of that recipe, none twice) are permutations of each other |
| RecipesService.AverageIsWellDefined | server/src/recipes/recipes.service.ts:127-134 | any two listings have the same count and the same average, so findAll, findOne and findUserRecipes agree |
| RecipesService.CheckOwnership | server/src/recipes/recipes.service.ts:182-192 | an unknown id gives NotFound "Recipe not found"; a caller other than the author gives Forbidden with the given message; success exactly when the recipe exists and the caller is its author, returning that recipe |
| RecipesService.Patch | server/src/recipes/recipes.service.ts:194-196 | each field present in the update replaces the stored one; each absent field keeps its stored value |
| RecipesService.PatchIdempotent | server/src/recipes/recipes.service.ts:194-196 | applying the same update twice equals applying it once |
| RecipesService.WaitSeconds | server/src/recipes/recipes.service.ts:256-259 | the wait w is the ceiling of (30000 − elapsed ms)/1000, i.e. (w−1)·1000 < 30000 − elapsed ≤ w·1000, and 1 ≤ w ≤ 30 when elapsed ≥ 0 |
| RecipesService.CooldownWait | server/src/recipes/recipes.service.ts:246-262 | no stored rating never blocks; a stored rating blocks exactly when fewer than 30000 ms have elapsed since its updatedAt (exactly 30 s is allowed); a block reports at least 1 s, enough to reach the end of the cooldown |
| RecipesService.MatchesSearch | server/src/recipes/recipes.service.ts:39-47 | the `where` clause: no term or an empty term matches every recipe; otherwise the title, or a present description, contains the term ignoring case |
| RecipesService.ReorderedSelection | server/src/recipes/recipes.service.ts:49-79 | reordering the selected recipes keeps exactly the stored recipes the filter accepts |
| RecipesService.Decimal | server/src/recipes/recipes.service.ts:259 | the template literal's number is a non-empty string of decimal digits without a leading zero |
| RecipesService.DecimalRoundTrip | server/src/recipes/recipes.service.ts:259 | reading the digits back gives the number |
| RecipesService.CooldownMessage | server/src/recipes/recipes.service.ts:258-260 | the message is "Please wait ", then decimal digits that read back as the wait, then "s before updating your rating again" |
| RecipesService.Upserted | server/src/recipes/recipes.service.ts:264-276 | the upserted rating has the new score and the timestamp now; the review sent, or else the stored review, or else none |
| RecipesService.Rate | server/src/recipes/recipes.service.ts:233-286 | missing recipe: NotFound and the rating table unchanged, before any cooldown check; a first rating of the pair is always accepted; a re-rating fails exactly when under 30 s elapsed, with Forbidden and a wait message, and changes no rating; success returns the upsert of the stored rating (new score and timestamp, the sent review or else the stored one) and replaces only the (user, recipe) entry with it |
| RecipesService.CooldownMessageReportsWait | server/src/recipes/recipes.service.ts:257-260 | a refused re-rating carries "Please wait {w}s …" with w the rounded-up remaining seconds, between 1 and 30 |
| RecipesService.TwoRatersScenario | server/src/recipes/recipes.service.ts:233-286 | a re-rating five seconds after the first is refused with a 25-second wait and accepted after the cooldown; with ratings 5 and 2 every listing averages 3.5 |
| RecipesService.RecipeStore.constructor | server/src/recipes/recipes.service.ts:12-13 | the store starts with no recipes and no ratings, and valid |
| RecipesService.RecipeStore.Create | server/src/recipes/recipes.service.ts:15-37 | the new recipe gets a fresh id, the submitted fields, the caller as author and the creation time; only that entry is added; ratings are unchanged |
| RecipesService.RecipeStore.RatingsOf | server/src/recipes/recipes.service.ts:103-114 | the loop over the rating table yields a listing of the recipe's ratings |
| RecipesService.RecipeStore.ViewOf | server/src/recipes/recipes.service.ts:127-134 | a stored recipe with a listing of its ratings, their count and their average |
| RecipesService.RecipeStore.Select | server/src/recipes/recipes.service.ts:49-50 | exactly the stored recipes the filter accepts, each once |
| RecipesService.RecipeStore.SortNewestFirst | server/src/recipes/recipes.service.ts:77-79 | a permutation of its input in non-increasing createdAt |
| RecipesService.RecipeStore.ViewsOf | server/src/recipes/recipes.service.ts:82-89 | one view per recipe, in the same order |
| RecipesService.RecipeStore.FindMany | server/src/recipes/recipes.service.ts:49-89 | views of exactly the accepted stored recipes, none twice, newest first, each with its ratings and average |
| RecipesService.RecipeStore.FindAll | server/src/recipes/recipes.service.ts:39-90 | with no term or an empty term, all recipes; otherwise exactly those whose title or description contains the term ignoring case; none twice; newest first |
| RecipesService.RecipeStore.FindOne | server/src/recipes/recipes.service.ts:92-135 | unknown id: NotFound "Recipe not found"; otherwise the recipe's view with its average |
| RecipesService.RecipeStore.FindUserRecipes | server/src/recipes/recipes.service.ts:137-179 | exactly the recipes authored by the user, none twice, newest first, each with its view; with Create's contract a recipe the caller creates is listed here |
| RecipesService.RecipeStore.Update | server/src/recipes/recipes.service.ts:181-213 | unknown id or non-author: that error and no recipe changed; author: only that recipe changes, to the patched content; ratings unchanged |
| RecipesService.RecipeStore.Remove | server/src/recipes/recipes.service.ts:215-231 | unknown id or non-author: that error and nothing changed; author: the recipe and exactly its ratings are removed, every other rating unchanged |
| RecipesService.RecipeStore.RateRecipe | server/src/recipes/recipes.service.ts:233-286 | the result and the new rating table are those of Rate on the old state; recipes unchanged; the store stays valid |
| CreateRecipeDto.Failing | server/src/recipes/dto/create-recipe.dto.ts:3-41 | lists exactly the given fields whose constraint fails |
| CreateRecipeDto.FieldErrors | server/src/recipes/dto/create-recipe.dto.ts:3-41 | a field is reported exactly when its constraint fails; no report exactly when the body is valid |
| CreateRecipeDto.StringOf | server/src/recipes/dto/create-recipe.dto.ts:7-9 | an omitted (missing or null) optional string becomes none; a present one is carried over unchanged |
| CreateRecipeDto.IntOf | server/src/recipes/dto/create-recipe.dto.ts:19-32 | an omitted count becomes none; a present one is the integer equal to the JSON number, at least 1 |
| CreateRecipeDto.Validate | server/src/recipes/dto/create-recipe.dto.ts:3-41 | succeeds exactly for valid bodies, and the record then carries every property of the body (title, optional strings, both lists element by element, the three counts); otherwise fails listing exactly the failing fields, at least one |
| CreateRecipeDto.CarriedRecordIsUnique | server/src/recipes/dto/create-recipe.dto.ts:3-41 | a body determines the record it carries, so the carried record of Validate is the only one possible |
| CreateRecipeDto.CountsAreWholeAndPositive | server/src/recipes/dto/create-recipe.dto.ts:24-27 | a cookTime below 1 (the seed's 0) or the fraction 2.5 makes the body invalid |
| CreateRecipeDto.EmptyListsAndFreeDifficultyAccepted | server/src/recipes/dto/create-recipe.dto.ts:11-17 | empty ingredient and instruction lists and any difficulty text are accepted |
| RecipesPage.Cleared | web/src/app/recipes/page.tsx:249-254 | search "", sort "newest", difficulty "all", rating "all" |
| RecipesPage.Passes | web/src/app/recipes/page.tsx:48-67 | a recipe passes when the search is blank or its title, description or author name contains the search ignoring case; the difficulty filter is "all" or equals its difficulty ignoring case; and the rating filter is "all" or its average is at least the minimum |
| RecipesPage.SortedForKey | web/src/app/recipes/page.tsx:69-86 | sorting by the key gives non-increasing rating for "rating", non-decreasing createdAt for "oldest", and non-increasing createdAt otherwise |
| RecipesPage.Narrow | web/src/app/recipes/page.tsx:46-67 | the three conditional filter stages leave exactly the recipes passing all three filters, in their original order |
| RecipesPage.ApplyFilters | web/src/app/recipes/page.tsx:45-89 | the result is a permutation of exactly the passing recipes, ordered for sortBy; a recipe is shown iff it is fetched and passes; the fetched list is only read |
| RecipesPage.FilteredViewBounded | web/src/app/recipes/page.tsx:163 | a filtered view is never longer than the fetched list |
| RecipesPage.ClearedShowsAll | web/src/app/recipes/page.tsx:249-254 | after clearing, the view is a permutation of all fetched recipes, newest first |
| RecipesPage.Page.constructor | web/src/app/recipes/page.tsx:11-17 | nothing fetched, cleared controls, nothing shown |
| RecipesPage.Page.Refresh | web/src/app/recipes/page.tsx:30-32 | the shown list becomes the filtered view of the current state |
| RecipesPage.Page.Fetched | web/src/app/recipes/page.tsx:34-37 | stores the fetched list, keeps the controls, and re-filters |
| RecipesPage.Page.SearchParam | web/src/app/recipes/page.tsx:22-28 | a non-empty search parameter replaces the search text; otherwise the controls are kept |
| RecipesPage.Page.SetFilters | web/src/app/recipes/page.tsx:30-32 | the controls are set and the view re-filtered |
| RecipesPage.Page.ClearFilters | web/src/app/recipes/page.tsx:249-254 | the controls are cleared and every fetched recipe is shown |
| RecipesPage.Page.Showing | web/src/app/recipes/page.tsx:163 | returns the shown count X and the fetched count Y, with X ≤ Y |
| HomePage.TopRated | web/src/app/page.tsx:18-30 | min(6, n) recipes in non-increasing rating, drawn from the fetched list without duplication; every one left out rates no higher than every one chosen |
| HomePage.SearchTarget | web/src/app/page.tsx:36-46 | a blank query goes to "/recipes"; otherwise to "/recipes?search=" followed by encoded characters only |
| HomePage.SearchReachesCatalogue | web/src/app/page.tsx:39-40 | for an ASCII query, decoding the parameter gives back the trimmed query, which is non-empty |
| HomePage.TrimKeepsAscii | web/src/app/page.tsx:40 | trimming ASCII text leaves ASCII text |
| RecipeForm.DefaultValues | web/src/components/recipes/RecipeForm.tsx:29-42 | each supplied field overrides the default; the defaults are empty texts, one empty ingredient, one empty instruction and no numbers |
| RecipeForm.AtLeastOneEntry | web/src/components/recipes/RecipeForm.tsx:48-55 | a missing or empty list becomes [""]; a non-empty one is kept |
| RecipeForm.ResetValues | web/src/components/recipes/RecipeForm.tsx:44-58 | a supplied non-empty list is kept exactly, a missing or empty one becomes [""]; every other field is as given |
| RecipeForm.MountedValues | web/src/components/recipes/RecipeForm.tsx:29-58 | once mounted, both lists have at least one entry |
| RecipeForm.CleanList | web/src/components/recipes/RecipeForm.tsx:75-76 | no blank or whitespace-only entry is left; a missing list becomes []; the result is a subsequence of the input |
| RecipeForm.Cleaned | web/src/components/recipes/RecipeForm.tsx:72-79 | each list is exactly CleanList of the submitted list; every other field passes through unchanged |
| RecipeForm.CleanListKeeps | web/src/components/recipes/RecipeForm.tsx:75-76 | each non-blank entry is kept as often as it occurs, each blank one dropped, in original order |
| RecipeForm.CleanedIdempotent | web/src/components/recipes/RecipeForm.tsx:75-76 | cleaning a cleaned value changes nothing |
| RecipeForm.FieldList.constructor | web/src/components/recipes/RecipeForm.tsx:60-70 | the list starts as the mounted value's list, with at least one entry |
| RecipeForm.FieldList.RemoveShown | web/src/components/recipes/RecipeForm.tsx:201-209 | remove buttons are shown exactly when there is more than one entry |
| RecipeForm.FieldList.Append | web/src/components/recipes/RecipeForm.tsx:183 | appends "" at the end |
| RecipeForm.FieldList.Remove | web/src/components/recipes/RecipeForm.tsx:204 | removes exactly the entry at the index; with the button guard the list never empties |
| RecipeForm.FieldList.Edit | web/src/components/recipes/RecipeForm.tsx:192-196 | replaces exactly the edited entry |
| RatingSystem.Stars | web/src/components/recipes/RatingSystem.tsx:46-49 | five stars; star k is filled iff k ≤ rating, i.e. the filled stars are a prefix of length clamp(rating, 0, 5) |
| RatingSystem.Round | web/src/components/recipes/RatingSystem.tsx:81 | the nearest integer, halves rounded up |
| RatingSystem.SummaryStars | web/src/components/recipes/RatingSystem.tsx:81 | star k is filled iff k − 0.5 ≤ averageRating |
| RatingSystem.FillThreshold | web/src/components/recipes/RatingSystem.tsx:97-98 | the hovered rating if non-zero, else the current rating if present and non-zero, else 0 |
| RatingSystem.InteractiveStars | web/src/components/recipes/RatingSystem.tsx:95-98 | five stars; star k is filled iff k is at most the hovered rating, or when nothing is hovered the current rating (0 when there is none) |
| RatingSystem.InteractiveRowFollowsHover | web/src/components/recipes/RatingSystem.tsx:95-106 | while star k is hovered exactly the first k stars are filled; with nothing hovered the row shows the current rating |
| RatingSystem.CountLabel | web/src/components/recipes/RatingSystem.tsx:84-85 | "rating" iff the count is 1, "ratings" otherwise |
| RatingSystem.Heading | web/src/components/recipes/RatingSystem.tsx:92 | "Update your rating" iff the current rating is truthy, else "Rate this recipe" |
| RatingSystem.Widget.constructor | web/src/components/recipes/RatingSystem.tsx:26-27 | nothing hovered, nothing submitting |
| RatingSystem.Widget.MouseEnter | web/src/components/recipes/RatingSystem.tsx:105 | hovering star k sets hoveredRating to k |
| RatingSystem.Widget.MouseLeave | web/src/components/recipes/RatingSystem.tsx:106 | leaving resets hoveredRating to 0 |
| RatingSystem.Widget.HandleRating | web/src/components/recipes/RatingSystem.tsx:28-36 | without a user nothing is sent and isSubmitting is untouched; with one, exactly the rating is sent and isSubmitting is set |
| RatingSystem.Widget.Click | web/src/components/recipes/RatingSystem.tsx:107-108 | a click sends exactly the star's number (so 1..5) iff a user is signed in and no submission is in flight |
| RatingSystem.Widget.Settle | web/src/components/recipes/RatingSystem.tsx:41-43 | isSubmitting is false afterwards, on success or failure; the page refreshes only on success |
| Text.FirstKept | web/src/app/page.tsx:39 | the first non-white-space index from i on (or the length); everything skipped is white space |
| Text.LastKept | web/src/app/page.tsx:39 | one past the last non-white-space index of s[lo..hi] (or lo); everything skipped is white space |
| Text.Trim | web/src/app/page.tsx:39 | the result is one contiguous slice of the string, everything before and after it is white space, and it neither starts nor ends with white space |
| Text.BlankIffAllWhitespace | web/src/components/recipes/RecipeForm.tsx:75-76 | a string trims to "" iff it is all white space |
| Text.ToLower | web/src/app/recipes/page.tsx:51 | same length, each character lowered, no upper-case ASCII letter left |
| UriComponent.Encode | web/src/app/page.tsx:40 | the encoding is at least as long, every character is unreserved or part of an escape, and every `%` starts a %XX triple of hex digits |
| UriComponent.DecodeEncode | web/src/app/page.tsx:40 | decoding the encoding of ASCII text gives the text back |

## Left out

- Database, routing and authentication: Prisma, the NestJS controller, the JWT guard and HTTP status codes. The store is two maps; errors are a `Result`.
- Related records: authors' names and e-mails are not modelled. A listed rating carries the user id, not the user's name. The client's `authorName` is an input field.
- Responses: `create` and `update` return the recipe without its included ratings and count.
- Concurrency: the check-then-upsert race in `rateRecipe`. The model runs one call at a time.
- RecipesService.RecipePatch: an explicit `null` in an update (which would clear a field) is not modelled. `UpdateRecipeDto` is not part of this model, so a missing field means "leave as is".
- RecipesService.RateRecipeDto: the score is an unbounded integer. The service does not range-check it, and `RateRecipeDto` is not part of this model.
- Floating point: averages, the rating minimum and `Math.round` are reals; `toFixed(1)` formatting is left out. Time is whole milliseconds, so `secondsSinceUpdate < 30` becomes `now − updatedAt < 30000`.
- Case folding: `toLowerCase` and Prisma's case-insensitive `contains` are modelled as ASCII-only lower-casing.
- Sorting: `Array.sort` is stable; the model's selection sort is not. The contracts order by the key only and say nothing about ties.
- UriComponent.DecodeEncode: the round trip through the query string is proved for ASCII text only. Decoding multi-byte UTF-8 sequences is not modelled.
- Client I/O: the axios calls, toasts, `console.error`, the `loading` and `showFilters` flags and `window.location` navigation are left out. The navigation target is returned as a string.
- RecipeForm.CleanList: list entries are never `null` or `undefined` here, so `(x || '')` is the entry itself.
- RecipeForm.DefaultValues: a field present in `initialValues` with the value `null` is copied over its default by the object spread, so the form would hold `null` where the model holds the default. The model's `None` means "absent" only. The mount-time reset replaces both lists, so MountedValues' list guarantees hold either way.
- RecipesPage.Page: each handler is modelled together with the `applyFilters` effect it triggers, as one step. The render committed between a state update and that effect is not captured. For example, right after a refetch that returns fewer recipes, that render can show a count X greater than Y.
- RecipeForm: react-hook-form's own validation (the `required` rule on the first entry) and the field ids of `useFieldArray` are left out.
- CreateRecipeDto.CountsAreWholeAndPositive: stated for `cookTime`. `prepTime` and `servings` use the same `OptionalPositiveInt` predicate.
- CreateRecipeDto: JSON numbers are reals (no NaN or infinities), objects are not distinguished further, and the validation pipe's whitelist options are not part of this model.
