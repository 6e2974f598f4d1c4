/** The recipe-list decoder of src/utils/normaliseRecipes.js: from the parsed model
    reply to the list of recipe summaries shown to the user. */
module Normalise {
  import opened Wrappers
  import opened Text
  import opened Seqs
  import opened Json

  datatype Recipe = Recipe(name: string, description: string, instructions: string, ingredients: seq<string>)

  /** What every decoded recipe looks like: a non-empty trimmed name, trimmed text
      fields and a cleaned ingredient list. */
  predicate WellFormed(r: Recipe)
  {
    && r.name != "" && IsTrimmed(r.name)
    && IsTrimmed(r.description) && IsTrimmed(r.instructions)
    && AllClean(r.ingredients)
  }

  /** The elements of `payload.recipes` when the payload is truthy and that member
      is an array; None where the decoder gives up with an empty list. */
  function RecipeItems(payload: JsonValue): (r: Option<seq<JsonValue>>)
    ensures r.Some? ==> Truthy(payload) && Field(payload, "recipes") == Some(JArray(r.value))
    ensures r.None? ==> !Truthy(payload) || !(Field(payload, "recipes").Some? && Field(payload, "recipes").value.JArray?)
  {
    if !Truthy(payload) then None
    else match Field(payload, "recipes")
      case Some(JArray(items)) => Some(items)
      case _ => None
  }

  /** The record the `map` callback builds from one element. */
  function ToRecipe(item: JsonValue): (r: Recipe)
    ensures IsTrimmed(r.name) && IsTrimmed(r.description) && IsTrimmed(r.instructions)
    ensures AllClean(r.ingredients)
  {
    Recipe(
      TrimmedOr(Field(item, "name"), ""),
      TrimmedOr(Field(item, "description"), ""),
      TrimmedOr(Field(item, "instructions"), ""),
      CleanStrings(Field(item, "ingredients")))
  }

  /** The `filter((recipe) => recipe.name)` test. */
  predicate HasName(r: Recipe)
  {
    r.name != ""
  }

  /** `normaliseRecipes(payload)`. None stands for the TypeError the `map` callback
      throws when it reads a property of a `null` element. */
  function NormaliseRecipes(payload: JsonValue): (r: Option<seq<Recipe>>)
    ensures RecipeItems(payload).None? ==> r == Some([])
    ensures r.None? <==> RecipeItems(payload).Some? && JNull in RecipeItems(payload).value
    ensures r.Some? ==> forall i :: 0 <= i < |r.value| ==> WellFormed(r.value[i])
    ensures r.Some? && RecipeItems(payload).Some? ==> |r.value| <= |RecipeItems(payload).value|
  {
    match RecipeItems(payload)
    case None => Some([])
    case Some(items) =>
      if JNull in items then None
      else
        var rs := Filter(Map(items, ToRecipe), HasName);
        assert forall i :: 0 <= i < |rs| ==> rs[i] in Map(items, ToRecipe);
        Some(rs)
  }

  /** The smallest payload carrying a given recipes array. */
  function Payload(items: seq<JsonValue>): JsonValue
  {
    JObject(map["recipes" := JArray(items)])
  }

  /** A single element is kept exactly when its `name` is a string holding a
      non-whitespace character; it is then decoded field by field. */
  lemma NormaliseSingle(item: JsonValue)
    requires item != JNull
    ensures var name := Field(item, "name");
            NormaliseRecipes(Payload([item]))
            == Some(if name.Some? && name.value.JString? && !IsBlank(name.value.s) then [ToRecipe(item)] else [])
  {
    var r := ToRecipe(item);
    assert RecipeItems(Payload([item])) == Some([item]);
    assert Map([item], ToRecipe) == [r];
    assert Filter([r], HasName) == if HasName(r) then [r] else [] by {
      assert [r][1..] == [];
    }
  }

  /** Decoding works element by element and keeps order: the recipes of a
      concatenated array are those of the first part followed by those of the second. */
  lemma NormaliseAppend(payload: JsonValue, a: seq<JsonValue>, b: seq<JsonValue>)
    requires RecipeItems(payload) == Some(a + b)
    requires JNull !in a + b
    ensures NormaliseRecipes(Payload(a)).Some? && NormaliseRecipes(Payload(b)).Some?
    ensures NormaliseRecipes(payload)
         == Some(NormaliseRecipes(Payload(a)).value + NormaliseRecipes(Payload(b)).value)
  {
    assert RecipeItems(Payload(a)) == Some(a);
    assert RecipeItems(Payload(b)) == Some(b);
    assert JNull !in a && JNull !in b by {
      assert forall x :: x in a ==> x in a + b;
      assert forall x :: x in b ==> x in a + b;
    }
    MapAppend(a, b, ToRecipe);
    FilterAppend(Map(a, ToRecipe), Map(b, ToRecipe), HasName);
  }

  /** The JSON object a decoded recipe would be sent as. */
  function EncodeRecipe(r: Recipe): JsonValue
  {
    JObject(map[
      "name" := JString(r.name),
      "description" := JString(r.description),
      "instructions" := JString(r.instructions),
      "ingredients" := StringArray(r.ingredients)])
  }

  function EncodeRecipes(rs: seq<Recipe>): JsonValue
  {
    Payload(Map(rs, EncodeRecipe))
  }

  lemma DecodeEncodedRecipe(r: Recipe)
    requires WellFormed(r)
    ensures ToRecipe(EncodeRecipe(r)) == r
  {
    EncodedFields(r);
    TrimmedOrString(r.name);
    TrimmedOrString(r.description);
    TrimmedOrString(r.instructions);
    CleanStringsRoundTrip(r.ingredients);
  }

  lemma EncodedFields(r: Recipe)
    ensures Field(EncodeRecipe(r), "name") == Some(JString(r.name))
    ensures Field(EncodeRecipe(r), "description") == Some(JString(r.description))
    ensures Field(EncodeRecipe(r), "instructions") == Some(JString(r.instructions))
    ensures Field(EncodeRecipe(r), "ingredients") == Some(StringArray(r.ingredients))
  {
  }

  /** Well-formed recipes survive an encode/decode round trip unchanged. */
  lemma NormaliseRoundTrip(rs: seq<Recipe>)
    requires forall i :: 0 <= i < |rs| ==> WellFormed(rs[i])
    ensures NormaliseRecipes(EncodeRecipes(rs)) == Some(rs)
  {
    var items := Map(rs, EncodeRecipe);
    assert RecipeItems(EncodeRecipes(rs)) == Some(items);
    assert JNull !in items by {
      forall i | 0 <= i < |items| ensures items[i] != JNull {
        assert items[i] == EncodeRecipe(rs[i]);
      }
    }
    var decoded := Map(items, ToRecipe);
    forall i | 0 <= i < |rs| ensures decoded[i] == rs[i] {
      assert decoded[i] == ToRecipe(EncodeRecipe(rs[i]));
      DecodeEncodedRecipe(rs[i]);
    }
    assert decoded == rs;
    FilterAll(rs, HasName);
  }

  /** Normalising is idempotent: normalising the encoding of its output returns that output. */
  lemma NormaliseIdempotent(payload: JsonValue)
    requires NormaliseRecipes(payload).Some?
    ensures NormaliseRecipes(EncodeRecipes(NormaliseRecipes(payload).value)) == NormaliseRecipes(payload)
  {
    NormaliseRoundTrip(NormaliseRecipes(payload).value);
  }
}
