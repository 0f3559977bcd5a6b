/** The request body accepted to create a recipe
    (server/src/recipes/dto/create-recipe.dto.ts): the per-field
    constraints its validation decorators declare, as one predicate over
    the decoded JSON body, and the typed record the service receives. */
module CreateRecipeDto {
  import opened Wrappers

  /** A decoded JSON value; objects are not distinguished further. */
  datatype Json = JNull | JBool(b: bool) | JNumber(n: real) | JString(s: string) | JArray(items: seq<Json>) | JObject

  /** The body's properties; `None` is a property that is not there. */
  datatype Body = Body(
    title: Option<Json>,
    description: Option<Json>,
    ingredients: Option<Json>,
    instructions: Option<Json>,
    prepTime: Option<Json>,
    cookTime: Option<Json>,
    servings: Option<Json>,
    difficulty: Option<Json>,
    imageUrl: Option<Json>)

  /** The typed `CreateRecipeDto` a valid body becomes. */
  datatype RecipeInput = RecipeInput(
    title: string,
    description: Option<string>,
    ingredients: seq<string>,
    instructions: seq<string>,
    prepTime: Option<int>,
    cookTime: Option<int>,
    servings: Option<int>,
    difficulty: Option<string>,
    imageUrl: Option<string>)

  /** `@IsOptional()`: a missing or null property skips the other checks. */
  predicate Omitted(v: Option<Json>) {
    v.None? || v.value.JNull?
  }

  /** `@IsString()`. */
  predicate IsStringValue(v: Option<Json>) {
    v.Some? && v.value.JString?
  }

  /** `@IsArray()` with `@IsString({ each: true })`: no minimum length. */
  predicate IsStringArray(v: Option<Json>) {
    v.Some? && v.value.JArray? && forall i :: 0 <= i < |v.value.items| ==> v.value.items[i].JString?
  }

  /** `@IsInt()` with `@Min(1)`: a whole number of at least 1. */
  predicate IsPositiveInt(v: Option<Json>) {
    v.Some? && v.value.JNumber? && v.value.n == v.value.n.Floor as real && v.value.n >= 1.0
  }

  predicate OptionalString(v: Option<Json>) {
    Omitted(v) || IsStringValue(v)
  }

  predicate OptionalPositiveInt(v: Option<Json>) {
    Omitted(v) || IsPositiveInt(v)
  }

  /** The properties of the body, in declaration order. */
  datatype Field = Title | Description | Ingredients | Instructions | PrepTime | CookTime | Servings | Difficulty | ImageUrl

  const AllFields := [Title, Description, Ingredients, Instructions, PrepTime, CookTime, Servings, Difficulty, ImageUrl]

  /** The constraints declared on one property. */
  predicate FieldOk(b: Body, f: Field) {
    match f
    case Title => IsStringValue(b.title)
    case Description => OptionalString(b.description)
    case Ingredients => IsStringArray(b.ingredients)
    case Instructions => IsStringArray(b.instructions)
    case PrepTime => OptionalPositiveInt(b.prepTime)
    case CookTime => OptionalPositiveInt(b.cookTime)
    case Servings => OptionalPositiveInt(b.servings)
    case Difficulty => OptionalString(b.difficulty)
    case ImageUrl => OptionalString(b.imageUrl)
  }

  /** Every declared constraint holds. */
  predicate IsValid(b: Body) {
    && IsStringValue(b.title)
    && OptionalString(b.description)
    && IsStringArray(b.ingredients)
    && IsStringArray(b.instructions)
    && OptionalPositiveInt(b.prepTime)
    && OptionalPositiveInt(b.cookTime)
    && OptionalPositiveInt(b.servings)
    && OptionalString(b.difficulty)
    && OptionalString(b.imageUrl)
  }

  function Failing(b: Body, fields: seq<Field>): (errors: seq<Field>)
    ensures forall f :: f in errors <==> f in fields && !FieldOk(b, f)
  {
    if fields == [] then []
    else (if FieldOk(b, fields[0]) then [] else [fields[0]]) + Failing(b, fields[1..])
  }

  lemma EveryFieldListed(f: Field)
    ensures f in AllFields
  {
    match f
    case Title => assert AllFields[0] == f;
    case Description => assert AllFields[1] == f;
    case Ingredients => assert AllFields[2] == f;
    case Instructions => assert AllFields[3] == f;
    case PrepTime => assert AllFields[4] == f;
    case CookTime => assert AllFields[5] == f;
    case Servings => assert AllFields[6] == f;
    case Difficulty => assert AllFields[7] == f;
    case ImageUrl => assert AllFields[8] == f;
  }

  /** The properties whose constraints fail, in declaration order. */
  function FieldErrors(b: Body): (errors: seq<Field>)
    ensures forall f :: f in errors <==> !FieldOk(b, f)
    ensures errors == [] <==> IsValid(b)
  {
    var errors := Failing(b, AllFields);
    forall f ensures f in AllFields {
      EveryFieldListed(f);
    }
    assert errors != [] ==> errors[0] in errors;
    assert IsValid(b) <==> forall f :: FieldOk(b, f) by {
      assert FieldOk(b, Title) && FieldOk(b, Description) && FieldOk(b, Ingredients) &&
             FieldOk(b, Instructions) && FieldOk(b, PrepTime) && FieldOk(b, CookTime) &&
             FieldOk(b, Servings) && FieldOk(b, Difficulty) && FieldOk(b, ImageUrl)
        <==> IsValid(b);
    }
    errors
  }

  /** An optional string property and the value it becomes. */
  predicate StringCarried(v: Option<Json>, s: Option<string>) {
    && (s.Some? <==> !Omitted(v))
    && (s.Some? ==> v.value == JString(s.value))
  }

  /** An optional count property and the value it becomes. */
  predicate IntCarried(v: Option<Json>, n: Option<int>) {
    && (n.Some? <==> !Omitted(v))
    && (n.Some? ==> v.value == JNumber(n.value as real))
  }

  /** A list property and the strings it becomes, element by element. */
  predicate ListCarried(v: Option<Json>, l: seq<string>) {
    && v.Some? && v.value.JArray? && |l| == |v.value.items|
    && forall i :: 0 <= i < |l| ==> v.value.items[i] == JString(l[i])
  }

  /** `d` holds exactly what the body sent, property by property. */
  predicate Carries(b: Body, d: RecipeInput) {
    && b.title == Some(JString(d.title))
    && StringCarried(b.description, d.description)
    && ListCarried(b.ingredients, d.ingredients)
    && ListCarried(b.instructions, d.instructions)
    && IntCarried(b.prepTime, d.prepTime)
    && IntCarried(b.cookTime, d.cookTime)
    && IntCarried(b.servings, d.servings)
    && StringCarried(b.difficulty, d.difficulty)
    && StringCarried(b.imageUrl, d.imageUrl)
  }

  /** A body determines the typed record it carries. */
  lemma CarriedRecordIsUnique(b: Body, d1: RecipeInput, d2: RecipeInput)
    requires Carries(b, d1) && Carries(b, d2)
    ensures d1 == d2
  {
    assert d1.ingredients == d2.ingredients by {
      forall i | 0 <= i < |d1.ingredients| ensures d1.ingredients[i] == d2.ingredients[i] {
        assert b.ingredients.value.items[i] == JString(d1.ingredients[i]);
      }
    }
    assert d1.instructions == d2.instructions by {
      forall i | 0 <= i < |d1.instructions| ensures d1.instructions[i] == d2.instructions[i] {
        assert b.instructions.value.items[i] == JString(d1.instructions[i]);
      }
    }
  }

  function StringOf(v: Option<Json>): (r: Option<string>)
    requires OptionalString(v)
    ensures StringCarried(v, r)
  {
    if Omitted(v) then None else Some(v.value.s)
  }

  function IntOf(v: Option<Json>): (r: Option<int>)
    requires OptionalPositiveInt(v)
    ensures r.Some? ==> r.value >= 1
    ensures IntCarried(v, r)
  {
    if Omitted(v) then None else Some(v.value.n.Floor)
  }

  function Strings(items: seq<Json>): (r: seq<string>)
    requires forall i :: 0 <= i < |items| ==> items[i].JString?
    ensures |r| == |items| && forall i :: 0 <= i < |items| ==> items[i] == JString(r[i])
  {
    seq(|items|, i requires 0 <= i < |items| => items[i].s)
  }

  /** The validation step in front of `create`: a body is accepted exactly
      when every constraint holds, and then carries over field by field;
      otherwise the failing properties are reported. */
  function Validate(b: Body): (r: Result<RecipeInput, seq<Field>>)
    ensures r.Success? <==> IsValid(b)
    ensures r.Failure? ==> |r.error| > 0 && forall f :: f in r.error <==> !FieldOk(b, f)
    ensures r.Success? ==> Carries(b, r.value)
  {
    if IsValid(b) then
      Success(RecipeInput(
        b.title.value.s,
        StringOf(b.description),
        Strings(b.ingredients.value.items),
        Strings(b.instructions.value.items),
        IntOf(b.prepTime),
        IntOf(b.cookTime),
        IntOf(b.servings),
        StringOf(b.difficulty),
        StringOf(b.imageUrl)))
    else
      Failure(FieldErrors(b))
  }

  /** A count of 0 (as the seed data writes `cookTime: 0`) is rejected, and
      so is a fractional one such as 2.5. */
  lemma CountsAreWholeAndPositive(b: Body, x: real)
    requires b.cookTime == Some(JNumber(x)) && (x < 1.0 || x == 2.5)
    ensures !IsValid(b)
  {
    if x == 2.5 {
      assert 2.5.Floor == 2;
    }
  }

  /** Empty ingredient and instruction lists, and any difficulty text, are
      accepted. */
  lemma EmptyListsAndFreeDifficultyAccepted(title: string, difficulty: string)
    ensures IsValid(Body(Some(JString(title)), None, Some(JArray([])), Some(JArray([])),
                         None, None, None, Some(JString(difficulty)), None))
  {
  }
}
