/** The list-generation hook of src/hooks/useRecipeGenerator.js: validation, the
    prompt, the request state `{recipes, isLoading, errorMessage}` and how a reply
    becomes at most five recipes or an error message. */
module RecipeGeneratorHook {
  import opened Wrappers
  import opened Text
  import opened Seqs
  import opened Json
  import opened Normalise
  import opened Transport

  /** The most recipes the prompt asks for and the hook keeps. */
  const MaxRecipes: nat := 5

  // Long texts are written as concatenations of named pieces of about forty
  // characters. The verifier's cost of a fact about a string literal grows much
  // faster than the literal's length, so facts are proved piece by piece: the
  // `...LacksE` lemmas below check one piece each, and the lemmas about a whole
  // prompt combine them without unfolding the text again.

  const MissingKeyMessage := "Missing OpenAI API key. " + "Set VITE_OPENAI_API_KEY in .env.local."
  const NoIngredientsMessage := "Add at least one ingredient " + "before generating recipes."
  const NoContentMessage := "No recipes returned. Please try again."
  const UnreadableMessage := "Could not understand the recipe " + "response. Please try again."
  const NoRecipesMessage := "No recipes generated. " + "Try different ingredients."
  const UnexpectedMessage := "Unexpected error while " + "generating recipes."

  const SystemPrompt :=
    "You are an expert mixologist who crafts " + "cocktails and mocktails based on the "
    + "user's stated preference. " + "Keep suggestions concise and bar-ready."

  const NoAlcoholDirective := " Ensure every recipe is completely " + "free of alcohol, spirits, and liqueurs."

  // Prompt building

  function DrinkLabel(isAlcoholic: bool): string
  {
    if isAlcoholic then "alcoholic drinks" else "non-alcoholic drinks"
  }

  function RecipeLabel(isAlcoholic: bool): string
  {
    if isAlcoholic then "alcoholic drink" else "non-alcoholic drink"
  }

  function Staples(isAlcoholic: bool): string
  {
    if isAlcoholic then "common bar staples like ice, " + "citrus, sugar, and simple garnishes"
    else "common mocktail staples like ice, " + "citrus, sugar, " + "soda water" + ", and simple garnishes"
  }

  function RestrictionLine(isAlcoholic: bool): string
  {
    if isAlcoholic then "" else NoAlcoholDirective
  }

  /** "up to 5", written from the same constant the hook truncates with. */
  function CountPhrase(): string
  {
    "up to " + NatToString(MaxRecipes)
  }

  /** The user message up to the count it asks for. */
  function SuggestPrefix(isAlcoholic: bool): string
  {
    ". The user wants " + DrinkLabel(isAlcoholic) + ". Suggest "
  }

  const HomeBartender := " recipes that a home bartender "
  const TheseIngredients := "can make with these ingredients"
  const AssumeAccess := " (you may assume access to "

  /** The user message from the count up to the staples. */
  function SuggestSuffix(isAlcoholic: bool): string
  {
    " distinct " + RecipeLabel(isAlcoholic) + HomeBartender + TheseIngredients + AssumeAccess
  }

  /** The sentence after the ingredient list, up to the staples it may assume. */
  function Suggestion(isAlcoholic: bool): string
  {
    SuggestPrefix(isAlcoholic) + CountPhrase() + SuggestSuffix(isAlcoholic)
  }

  /** The sentences after the ingredient list, up to the restriction line. */
  function SuggestionWithStaples(isAlcoholic: bool): string
  {
    Suggestion(isAlcoholic) + Staples(isAlcoholic) + ")."
  }

  const FormatEach := " For each recipe provide a JSON "
  const FormatFields := "object with name, description "
  const FormatSentences := "(1-2 sentences), and instructions "
  const FormatSteps := "(1-3 short steps). Return a single "
  const FormatShape := "JSON object shaped as " + "{\"recipes\":[{...}]}."

  /** The closing instructions on the reply's shape. */
  const FormatRequest := FormatEach + FormatFields + FormatSentences + FormatSteps + FormatShape

  /** Everything of the user message after the ingredient list. */
  function PromptTail(isAlcoholic: bool): string
  {
    SuggestionWithStaples(isAlcoholic) + RestrictionLine(isAlcoholic) + FormatRequest
  }

  /** What the request asks for: the ingredients and the kind of drink. */
  datatype ListPrompt = ListPrompt(ingredients: seq<string>, isAlcoholic: bool)

  /** The user message of the request. */
  function UserContent(ingredients: seq<string>, isAlcoholic: bool): string
  {
    "Available ingredients: " + Join(ingredients, ", ") + PromptTail(isAlcoholic)
  }

  /** The body's `messages`: the fixed system text, then the user message. */
  function Messages(p: ListPrompt): seq<Message>
  {
    [Message("system", SystemPrompt), Message("user", UserContent(p.ingredients, p.isAlcoholic))]
  }

  /** The prompt lists the ingredients verbatim, joined by ", ", and so names each of them. */
  lemma PromptListsIngredients(ingredients: seq<string>, isAlcoholic: bool)
    ensures Contains(UserContent(ingredients, isAlcoholic), Join(ingredients, ", "))
    ensures forall i :: 0 <= i < |ingredients| ==> Contains(UserContent(ingredients, isAlcoholic), ingredients[i])
  {
    var p := UserContent(ingredients, isAlcoholic);
    var list := Join(ingredients, ", ");
    ContainsMiddle("Available ingredients: ", list, PromptTail(isAlcoholic));
    forall i | 0 <= i < |ingredients| ensures Contains(p, ingredients[i]) {
      JoinContainsEach(ingredients, ", ", i);
      ContainsTransitive(p, list, ingredients[i]);
    }
  }

  /** The prompt asks for "up to 5" recipes. */
  lemma PromptStatesCount(ingredients: seq<string>, isAlcoholic: bool)
    ensures Contains(UserContent(ingredients, isAlcoholic), "up to 5")
  {
    assert CountPhrase() == "up to 5";
    ContainsMiddle(SuggestPrefix(isAlcoholic), CountPhrase(), SuggestSuffix(isAlcoholic));
    ContainsLeft(Suggestion(isAlcoholic), Staples(isAlcoholic), CountPhrase());
    ContainsLeft(Suggestion(isAlcoholic) + Staples(isAlcoholic), ").", CountPhrase());
    ContainsLeft(SuggestionWithStaples(isAlcoholic), RestrictionLine(isAlcoholic), CountPhrase());
    ContainsLeft(SuggestionWithStaples(isAlcoholic) + RestrictionLine(isAlcoholic), FormatRequest, CountPhrase());
    ContainsRight("Available ingredients: " + Join(ingredients, ", "), PromptTail(isAlcoholic), CountPhrase());
  }

  /** The staples mention soda water exactly for non-alcoholic drinks. */
  lemma StaplesMentionSodaWater(isAlcoholic: bool)
    ensures Contains(Staples(isAlcoholic), "soda water") <==> !isAlcoholic
  {
    if isAlcoholic {
      assert 'w' !in Staples(true);
      if Contains(Staples(true), "soda water") {
        ContainsChar(Staples(true), "soda water", 'w');
      }
    } else {
      ContainsMiddle("common mocktail staples like ice, " + "citrus, sugar, ", "soda water", ", and simple garnishes");
    }
  }

  /** A non-alcoholic prompt carries the no-alcohol directive. */
  lemma PromptHasDirective(ingredients: seq<string>)
    ensures Contains(UserContent(ingredients, false), NoAlcoholDirective)
  {
    ContainsMiddle(SuggestionWithStaples(false), NoAlcoholDirective, FormatRequest);
    ContainsRight("Available ingredients: " + Join(ingredients, ", "), PromptTail(false), NoAlcoholDirective);
  }

  // The pieces of an alcoholic prompt hold no capital 'E', one lemma per piece
  // (see the note on long texts above).

  lemma SuggestPrefixLacksE()
    ensures 'E' !in SuggestPrefix(true)
  {
  }

  lemma CountLacksE()
    ensures 'E' !in CountPhrase()
  {
  }

  lemma HomeBartenderLacksE()
    ensures 'E' !in HomeBartender
  {
  }

  lemma TheseIngredientsLacksE()
    ensures 'E' !in TheseIngredients
  {
  }

  lemma AssumeAccessLacksE()
    ensures 'E' !in AssumeAccess
  {
  }

  lemma SuggestSuffixLacksE()
    ensures 'E' !in SuggestSuffix(true)
  {
    HomeBartenderLacksE();
    TheseIngredientsLacksE();
    AssumeAccessLacksE();
  }

  lemma SuggestionLacksE()
    ensures 'E' !in Suggestion(true)
  {
    SuggestPrefixLacksE();
    CountLacksE();
    SuggestSuffixLacksE();
  }

  lemma StaplesLacksE()
    ensures 'E' !in Staples(true)
  {
  }

  lemma FormatEachLacksE()
    ensures 'E' !in FormatEach
  {
  }

  lemma FormatFieldsLacksE()
    ensures 'E' !in FormatFields
  {
  }

  lemma FormatSentencesLacksE()
    ensures 'E' !in FormatSentences
  {
  }

  lemma FormatStepsLacksE()
    ensures 'E' !in FormatSteps
  {
  }

  lemma FormatShapeLacksE()
    ensures 'E' !in FormatShape
  {
  }

  lemma FormatRequestLacksE()
    ensures 'E' !in FormatRequest
  {
    FormatEachLacksE();
    FormatFieldsLacksE();
    FormatSentencesLacksE();
    FormatStepsLacksE();
    FormatShapeLacksE();
  }

  /** None of the fixed text of an alcoholic prompt holds a capital 'E'. */
  lemma AlcoholicTailLacksE()
    ensures 'E' !in PromptTail(true)
  {
    SuggestionLacksE();
    StaplesLacksE();
    FormatRequestLacksE();
  }

  lemma AlcoholicPromptLacksE(ingredients: seq<string>)
    requires forall i :: 0 <= i < |ingredients| ==> 'E' !in ingredients[i]
    ensures 'E' !in UserContent(ingredients, true)
  {
    JoinLacksChar(ingredients, ", ", 'E');
    AlcoholicTailLacksE();
  }

  lemma DirectiveHasE()
    ensures 'E' in NoAlcoholDirective
  {
    assert NoAlcoholDirective[1] == 'E';
  }

  /** An alcoholic prompt does not carry the no-alcohol directive, as long as the
      ingredient names themselves do not spell it: the directive begins with a
      capital 'E', which nothing else in the prompt holds. */
  lemma AlcoholicPromptLacksDirective(ingredients: seq<string>)
    requires forall i :: 0 <= i < |ingredients| ==> 'E' !in ingredients[i]
    ensures !Contains(UserContent(ingredients, true), NoAlcoholDirective)
  {
    var p := UserContent(ingredients, true);
    AlcoholicPromptLacksE(ingredients);
    DirectiveHasE();
    if Contains(p, NoAlcoholDirective) {
      ContainsChar(p, NoAlcoholDirective, 'E');
    }
  }

  /** The directive is in the prompt exactly when the drinks are non-alcoholic,
      for ingredient names without a capital 'E'. */
  lemma PromptDirectiveIff(ingredients: seq<string>, isAlcoholic: bool)
    requires forall i :: 0 <= i < |ingredients| ==> 'E' !in ingredients[i]
    ensures Contains(UserContent(ingredients, isAlcoholic), NoAlcoholDirective) <==> !isAlcoholic
  {
    if isAlcoholic {
      AlcoholicPromptLacksDirective(ingredients);
    } else {
      PromptHasDirective(ingredients);
    }
  }

  // Validation and the reply

  /** The checks made before anything is sent: the key first, then the ingredients. */
  function ValidationError(apiKey: string, ingredients: Option<seq<string>>): Option<string>
  {
    // `!apiKey.trim()`: by Trim's contract, the key trims to "" exactly when it is blank.
    if IsBlank(apiKey) then Some(MissingKeyMessage)
    else if ingredients.None? || |ingredients.value| == 0 then Some(NoIngredientsMessage)
    else None
  }

  /** A key that trims to nothing is reported first; with a key, a missing or
      empty ingredient list is reported; otherwise nothing stops the request. */
  lemma ValidationOrder(apiKey: string, ingredients: Option<seq<string>>)
    ensures Trim(apiKey) == "" ==> ValidationError(apiKey, ingredients) == Some(MissingKeyMessage)
    ensures Trim(apiKey) != "" ==>
              (ValidationError(apiKey, ingredients).Some? <==> ingredients.None? || ingredients.value == [])
    ensures Trim(apiKey) != "" && ValidationError(apiKey, ingredients).Some?
            ==> ValidationError(apiKey, ingredients) == Some(NoIngredientsMessage)
  {
  }

  /** The request the hook sends: the direct endpoint with the trimmed key as bearer. */
  function ListRequest(key: string, ingredients: seq<string>, isAlcoholic: bool): ChatRequest<ListPrompt>
  {
    ChatRequest(OpenAiChat, Some(key), ListPrompt(ingredients, isAlcoholic))
  }

  /** The body of the hook's request: the system text first, then a user message
      that names every ingredient, asks for up to five recipes, and carries the
      no-alcohol directive when non-alcoholic drinks are asked for. */
  lemma RequestMessages(key: string, ingredients: seq<string>, isAlcoholic: bool)
    ensures var m := Messages(ListRequest(key, ingredients, isAlcoholic).prompt);
            |m| == 2 && m[0] == Message("system", SystemPrompt) && m[1].role == "user"
    ensures var m := Messages(ListRequest(key, ingredients, isAlcoholic).prompt);
            forall i :: 0 <= i < |ingredients| ==> Contains(m[1].content, ingredients[i])
    ensures var m := Messages(ListRequest(key, ingredients, isAlcoholic).prompt);
            Contains(m[1].content, "up to 5")
    ensures var m := Messages(ListRequest(key, ingredients, isAlcoholic).prompt);
            !isAlcoholic ==> Contains(m[1].content, NoAlcoholDirective)
  {
    PromptListsIngredients(ingredients, isAlcoholic);
    PromptStatesCount(ingredients, isAlcoholic);
    if !isAlcoholic {
      PromptHasDirective(ingredients);
    }
  }

  /** What the awaited part of `generateRecipes` ends in: the recipes it stores,
      or the message its `catch` stores. `parse` stands for JSON.parse. */
  function ListOutcome(reply: Reply, parse: string -> Option<JsonValue>): (r: Result<seq<Recipe>, string>)
    ensures r.Err? ==> r.error != ""
    ensures r.Ok? ==> 1 <= |r.value| <= MaxRecipes
    ensures r.Ok? ==> forall i :: 0 <= i < |r.value| ==> WellFormed(r.value[i])
    ensures r.Ok? <==>
              && ReadContent(reply, UnexpectedMessage, NoContentMessage, None).Ok?
              && parse(reply.content.value).Some?
              && NormaliseRecipes(parse(reply.content.value).value).Some?
              && NormaliseRecipes(parse(reply.content.value).value).value != []
    ensures r.Ok? ==> r.value == Take(NormaliseRecipes(parse(reply.content.value).value).value, MaxRecipes)
    ensures ReadContent(reply, UnexpectedMessage, NoContentMessage, None).Err?
            ==> r == Err(ReadContent(reply, UnexpectedMessage, NoContentMessage, None).error)
    ensures ReadContent(reply, UnexpectedMessage, NoContentMessage, None).Ok? && parse(reply.content.value).None?
            ==> r == Err(UnreadableMessage)
    ensures ReadContent(reply, UnexpectedMessage, NoContentMessage, None).Ok? && parse(reply.content.value).Some?
            && NormaliseRecipes(parse(reply.content.value).value) == Some([])
            ==> r == Err(NoRecipesMessage)
  {
    match ReadContent(reply, UnexpectedMessage, NoContentMessage, None)
    case Err(message) => Err(message)
    case Ok(text) =>
      match parse(text)
      case None => Err(UnreadableMessage)
      case Some(parsed) =>
        match NormaliseRecipes(parsed)
        case None => Err(UnexpectedMessage)
        case Some(all) =>
          var top := Take(all, MaxRecipes);
          if top == [] then Err(NoRecipesMessage)
          else
            assert forall i :: 0 <= i < |top| ==> top[i] == all[i];
            Ok(top)
  }

  /** The state behind `useRecipeGenerator(apiKey)`. */
  class RecipeGenerator {
    const apiKey: string
    var recipes: seq<Recipe>
    var isLoading: bool
    var errorMessage: string

    constructor (apiKey: string)
      ensures this.apiKey == apiKey
      ensures recipes == [] && !isLoading && errorMessage == ""
    {
      this.apiKey := apiKey;
      recipes := [];
      isLoading := false;
      errorMessage := "";
    }

    /** `generateRecipes` up to the awaited `fetch`: validation, then the loading
        reset. Returns the request it sends, or None when a check fails. */
    method BeginGeneration(ingredients: Option<seq<string>>, isAlcoholic: bool) returns (request: Option<ChatRequest<ListPrompt>>)
      modifies this
      ensures request.None? <==> ValidationError(apiKey, ingredients).Some?
      ensures request.None? ==> errorMessage == ValidationError(apiKey, ingredients).value
      ensures request.None? ==> recipes == old(recipes) && isLoading == old(isLoading)
      ensures request.Some? ==> ingredients.Some? && request.value == ListRequest(Trim(apiKey), ingredients.value, isAlcoholic)
      ensures request.Some? ==> isLoading && errorMessage == "" && recipes == []
    {
      var failure := ValidationError(apiKey, ingredients);
      if failure.Some? {
        errorMessage := failure.value;
        return None;
      }
      isLoading := true;
      errorMessage := "";
      recipes := [];
      request := Some(ListRequest(Trim(apiKey), ingredients.value, isAlcoholic));
    }

    /** The rest of `generateRecipes`, once the reply is in: store the recipes or
        the message, and leave the loading state in every case. */
    method SettleGeneration(reply: Reply, parse: string -> Option<JsonValue>)
      modifies this
      ensures !isLoading
      ensures ListOutcome(reply, parse).Ok? ==>
                recipes == ListOutcome(reply, parse).value && errorMessage == old(errorMessage)
      ensures ListOutcome(reply, parse).Err? ==>
                errorMessage == ListOutcome(reply, parse).error && recipes == old(recipes)
    {
      var outcome := ListOutcome(reply, parse);
      match outcome {
        case Ok(found) => recipes := found;
        case Err(message) => errorMessage := message;
      }
      isLoading := false;
    }

    /** One whole call of `generateRecipes`, the reply to its request given. After
        a request exactly one of `recipes` and `errorMessage` is non-empty. */
    method GenerateRecipes(ingredients: Option<seq<string>>, isAlcoholic: bool, reply: Reply, parse: string -> Option<JsonValue>)
      returns (request: Option<ChatRequest<ListPrompt>>)
      modifies this
      ensures request.None? <==> ValidationError(apiKey, ingredients).Some?
      ensures request.None? ==> errorMessage == ValidationError(apiKey, ingredients).value
      ensures request.None? ==> recipes == old(recipes) && isLoading == old(isLoading)
      ensures request.Some? ==> ingredients.Some? && request.value == ListRequest(Trim(apiKey), ingredients.value, isAlcoholic)
      ensures request.Some? ==> !isLoading
      ensures request.Some? && ListOutcome(reply, parse).Ok? ==>
                recipes == ListOutcome(reply, parse).value && errorMessage == ""
      ensures request.Some? && ListOutcome(reply, parse).Err? ==>
                recipes == [] && errorMessage == ListOutcome(reply, parse).error
      ensures request.Some? ==> (recipes == [] <==> errorMessage != "")
    {
      request := BeginGeneration(ingredients, isAlcoholic);
      if request.Some? {
        SettleGeneration(reply, parse);
      }
    }

    /** `clearError`: only the message is reset. */
    method ClearError()
      modifies this`errorMessage
      ensures errorMessage == ""
    {
      errorMessage := "";
    }
  }
}
