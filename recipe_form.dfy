/** The recipe editor (web/src/components/recipes/RecipeForm.tsx): its
    default values, the `reset` applied when initial values arrive, the
    ingredient and instruction lists the user grows and shrinks, and the
    cleaning of those lists on submit. */
module RecipeForm {
  import opened Wrappers
  import opened Text
  import opened Seqs

  /** `RecipeFormValues`, a `Partial<CreateRecipeData>`: every field may be
      missing. Numbers are JavaScript numbers other than NaN. */
  datatype FormValues = FormValues(
    title: Option<string>,
    description: Option<string>,
    ingredients: Option<seq<string>>,
    instructions: Option<seq<string>>,
    prepTime: Option<real>,
    cookTime: Option<real>,
    servings: Option<real>,
    difficulty: Option<string>,
    imageUrl: Option<string>)

  /** The form's own defaults: empty texts, one empty ingredient, one empty
      instruction, no numbers. */
  const Blank := FormValues(Some(""), Some(""), Some([""]), Some([""]), None, None, None, Some(""), Some(""))

  function Override<T>(base: Option<T>, over: Option<T>): Option<T> {
    if over.Some? then over else base
  }

  /** `{ ...defaults, ...(initialValues || {}) }`: every field supplied in
      `initialValues` replaces the default. */
  function DefaultValues(initialValues: Option<FormValues>): (v: FormValues)
    ensures initialValues.None? ==> v == Blank
    ensures initialValues.Some? ==>
      var i := initialValues.value;
      && (i.title.Some? ==> v.title == i.title)
      && (i.description.Some? ==> v.description == i.description)
      && (i.ingredients.Some? ==> v.ingredients == i.ingredients)
      && (i.instructions.Some? ==> v.instructions == i.instructions)
      && (i.prepTime.Some? ==> v.prepTime == i.prepTime)
      && (i.cookTime.Some? ==> v.cookTime == i.cookTime)
      && (i.servings.Some? ==> v.servings == i.servings)
      && (i.difficulty.Some? ==> v.difficulty == i.difficulty)
      && (i.imageUrl.Some? ==> v.imageUrl == i.imageUrl)
      && (i.title.None? ==> v.title == Some(""))
      && (i.description.None? ==> v.description == Some(""))
      && (i.ingredients.None? ==> v.ingredients == Some([""]))
      && (i.instructions.None? ==> v.instructions == Some([""]))
      && (i.prepTime.None? ==> v.prepTime.None?)
      && (i.cookTime.None? ==> v.cookTime.None?)
      && (i.servings.None? ==> v.servings.None?)
      && (i.difficulty.None? ==> v.difficulty == Some(""))
      && (i.imageUrl.None? ==> v.imageUrl == Some(""))
  {
    match initialValues
    case None => Blank
    case Some(i) =>
      FormValues(
        Override(Blank.title, i.title),
        Override(Blank.description, i.description),
        Override(Blank.ingredients, i.ingredients),
        Override(Blank.instructions, i.instructions),
        Override(Blank.prepTime, i.prepTime),
        Override(Blank.cookTime, i.cookTime),
        Override(Blank.servings, i.servings),
        Override(Blank.difficulty, i.difficulty),
        Override(Blank.imageUrl, i.imageUrl))
  }

  /** A list field as `reset` receives it: a missing or empty list becomes
      `['']`, a non-empty one is kept. */
  function AtLeastOneEntry(list: Option<seq<string>>): (r: seq<string>)
    ensures |r| >= 1
    ensures list.Some? && |list.value| > 0 ==> r == list.value
    ensures list.None? || |list.value| == 0 ==> r == [""]
  {
    if list.Some? && |list.value| > 0 then list.value else [""]
  }

  /** The `reset` the effect performs when `initialValues` is given. */
  function ResetValues(initialValues: FormValues): (v: FormValues)
    ensures v.ingredients.Some? && |v.ingredients.value| >= 1
    ensures v.instructions.Some? && |v.instructions.value| >= 1
    ensures v.ingredients == Some(AtLeastOneEntry(initialValues.ingredients))
    ensures v.instructions == Some(AtLeastOneEntry(initialValues.instructions))
    ensures v.(ingredients := initialValues.ingredients, instructions := initialValues.instructions) == initialValues
  {
    initialValues.(
      ingredients := Some(AtLeastOneEntry(initialValues.ingredients)),
      instructions := Some(AtLeastOneEntry(initialValues.instructions)))
  }

  /** The values once the form is mounted and its effect has run. */
  function MountedValues(initialValues: Option<FormValues>): (v: FormValues)
    ensures v.ingredients.Some? && |v.ingredients.value| >= 1
    ensures v.instructions.Some? && |v.instructions.value| >= 1
  {
    if initialValues.Some? then ResetValues(initialValues.value) else DefaultValues(None)
  }

  function IsNonBlank(): string -> bool {
    (x: string) => !IsBlank(x)
  }

  /** `(list || []).filter(x => (x || '').trim() !== '')`. */
  function CleanList(list: Option<seq<string>>): (r: seq<string>)
    ensures forall i :: 0 <= i < |r| ==> !IsBlank(r[i])
    ensures list.None? ==> r == []
    ensures IsSubsequence(r, list.GetOr([]))
  {
    FilterIsSubsequence(list.GetOr([]), IsNonBlank());
    Filter(list.GetOr([]), IsNonBlank())
  }

  /** `cleaned` in `onSubmitInternal`: both lists cleaned, every other field
      passed through. */
  function Cleaned(data: FormValues): (c: FormValues)
    ensures c.ingredients == Some(CleanList(data.ingredients))
    ensures c.instructions == Some(CleanList(data.instructions))
    ensures c.(ingredients := data.ingredients, instructions := data.instructions) == data
    ensures forall i :: 0 <= i < |c.ingredients.value| ==> !IsBlank(c.ingredients.value[i])
    ensures forall i :: 0 <= i < |c.instructions.value| ==> !IsBlank(c.instructions.value[i])
  {
    data.(ingredients := Some(CleanList(data.ingredients)), instructions := Some(CleanList(data.instructions)))
  }

  /** Cleaning drops only blank entries: every non-blank entry is kept, as
      many times as it occurs, in its original order. */
  lemma CleanListKeeps(list: seq<string>, x: string)
    ensures multiset(CleanList(Some(list)))[x] == if IsBlank(x) then 0 else multiset(list)[x]
    ensures IsSubsequence(CleanList(Some(list)), list)
  {
    FilterMultiset(list, IsNonBlank(), x);
  }

  /** Cleaning a cleaned value changes nothing. */
  lemma CleanedIdempotent(data: FormValues)
    ensures Cleaned(Cleaned(data)) == Cleaned(data)
  {
    FilterIdempotent(data.ingredients.GetOr([]), IsNonBlank());
    FilterIdempotent(data.instructions.GetOr([]), IsNonBlank());
  }

  datatype ListName = Ingredients | Instructions

  function ListOf(v: FormValues, name: ListName): Option<seq<string>> {
    match name
    case Ingredients => v.ingredients
    case Instructions => v.instructions
  }

  /** One `useFieldArray` list (ingredients or instructions) as the user
      edits it: "Add" appends an empty entry, and the remove button is
      rendered beside each entry only while there is more than one. */
  class FieldList {
    var entries: seq<string>

    ghost predicate Valid()
      reads this
    {
      |entries| >= 1
    }

    /** The list once the form is mounted. */
    constructor (initialValues: Option<FormValues>, name: ListName)
      ensures Valid()
      ensures entries == ListOf(MountedValues(initialValues), name).value
    {
      var v := MountedValues(initialValues);
      entries := ListOf(v, name).value;
    }

    /** Whether the remove buttons are drawn. */
    function RemoveShown(): (shown: bool)
      reads this
      ensures shown <==> |entries| > 1
    {
      |entries| > 1
    }

    /** `append('')`. */
    method Append()
      requires Valid()
      modifies this
      ensures Valid()
      ensures entries == old(entries) + [""]
    {
      entries := entries + [""];
    }

    /** `remove(index)`, reachable only through a rendered remove button. */
    method Remove(index: nat)
      requires Valid() && RemoveShown() && index < |entries|
      modifies this
      ensures Valid()
      ensures entries == old(entries)[..index] + old(entries)[index + 1..]
    {
      entries := entries[..index] + entries[index + 1..];
    }

    /** Typing into entry `index`. */
    method Edit(index: nat, text: string)
      requires Valid() && index < |entries|
      modifies this
      ensures Valid()
      ensures entries == old(entries)[index := text]
    {
      entries := entries[index := text];
    }
  }
}
