/** The top-level component of src/App.jsx: the ingredient list the user edits,
    its own copy of the recipe decoder (without ingredients), and its own
    recipe request, which always asks for alcoholic drinks. The texts and
    messages it shares word for word with src/hooks/useRecipeGenerator.js are
    taken from that hook's model. */
module AppComponent {
  import opened Wrappers
  import opened Text
  import opened Seqs
  import opened Json
  import opened Normalise
  import opened Transport
  import G = RecipeGeneratorHook

  // The inline decoder

  /** The record the inline `normaliseRecipes` builds: no ingredients. */
  datatype Summary = Summary(name: string, description: string, instructions: string)

  function InlineRecipe(item: JsonValue): (r: Summary)
    ensures IsTrimmed(r.name) && IsTrimmed(r.description) && IsTrimmed(r.instructions)
  {
    Summary(
      TrimmedOr(Field(item, "name"), ""),
      TrimmedOr(Field(item, "description"), ""),
      TrimmedOr(Field(item, "instructions"), ""))
  }

  predicate HasSummaryName(s: Summary)
  {
    s.name != ""
  }

  /** The inline `normaliseRecipes(payload)`. None stands for the TypeError the
      `map` callback throws on a `null` element. */
  function NormaliseInline(payload: JsonValue): (r: Option<seq<Summary>>)
    ensures RecipeItems(payload).None? ==> r == Some([])
    ensures r.None? <==> RecipeItems(payload).Some? && JNull in RecipeItems(payload).value
    ensures r.Some? ==> forall i :: 0 <= i < |r.value| ==>
              r.value[i].name != "" && IsTrimmed(r.value[i].name)
              && IsTrimmed(r.value[i].description) && IsTrimmed(r.value[i].instructions)
    ensures r.Some? && RecipeItems(payload).Some? ==> |r.value| <= |RecipeItems(payload).value|
  {
    match RecipeItems(payload)
    case None => Some([])
    case Some(items) =>
      if JNull in items then None
      else
        var ss := Filter(Map(items, InlineRecipe), HasSummaryName);
        assert forall i :: 0 <= i < |ss| ==> ss[i] in Map(items, InlineRecipe);
        Some(ss)
  }

  /** A full recipe without its ingredients. */
  function Summarise(r: Recipe): Summary
  {
    Summary(r.name, r.description, r.instructions)
  }

  /** The inline decoder is the shared one with the ingredients dropped: it fails
      on the same payloads and keeps the same recipes in the same order. */
  lemma InlineAgreesWithShared(payload: JsonValue)
    ensures NormaliseInline(payload).Some? <==> NormaliseRecipes(payload).Some?
    ensures NormaliseInline(payload).Some? ==>
              NormaliseInline(payload).value == Map(NormaliseRecipes(payload).value, Summarise)
  {
    match RecipeItems(payload)
    case None =>
    case Some(items) =>
      if JNull !in items {
        var full := Map(items, ToRecipe);
        MapFilter(full, Summarise, HasName, HasSummaryName);
        assert Map(full, Summarise) == Map(items, InlineRecipe);
      }
  }

  // The request

  /** What the request asks for: only the ingredients, the drinks being alcoholic. */
  datatype AppPrompt = AppPrompt(ingredients: seq<string>)

  const SystemPrompt :=
    "You are an expert mixologist who " + "suggests cocktail recipes using the "
    + "ingredients supplied by the user. " + "Keep suggestions concise and bar-ready."

  /** The sentence after the ingredient list, up to the staples it may assume. */
  function AppSuggestion(): string
  {
    ". Suggest " + G.CountPhrase() + G.SuggestSuffix(true)
  }

  /** Everything of the user message after the ingredient list. */
  function AppTail(): string
  {
    AppSuggestion() + G.Staples(true) + ")." + G.FormatRequest
  }

  /** The user message of the request. */
  function AppContent(ingredients: seq<string>): string
  {
    "Available ingredients: " + Join(ingredients, ", ") + AppTail()
  }

  /** The body's `messages`: the fixed system text, then the user message. */
  function Messages(p: AppPrompt): seq<Message>
  {
    [Message("system", SystemPrompt), Message("user", AppContent(p.ingredients))]
  }

  /** The prompt lists the ingredients joined by ", ", and so names each of them. */
  lemma AppPromptListsIngredients(ingredients: seq<string>)
    ensures Contains(AppContent(ingredients), Join(ingredients, ", "))
    ensures forall i :: 0 <= i < |ingredients| ==> Contains(AppContent(ingredients), ingredients[i])
  {
    var p := AppContent(ingredients);
    var list := Join(ingredients, ", ");
    ContainsMiddle("Available ingredients: ", list, AppTail());
    forall i | 0 <= i < |ingredients| ensures Contains(p, ingredients[i]) {
      JoinContainsEach(ingredients, ", ", i);
      ContainsTransitive(p, list, ingredients[i]);
    }
  }

  /** The prompt asks for "up to 5" recipes. */
  lemma AppPromptStatesCount(ingredients: seq<string>)
    ensures Contains(AppContent(ingredients), "up to 5")
  {
    var list := Join(ingredients, ", ");
    assert G.CountPhrase() == "up to 5";
    ContainsMiddle(". Suggest ", G.CountPhrase(), G.SuggestSuffix(true));
    ContainsLeft(AppSuggestion(), G.Staples(true), G.CountPhrase());
    ContainsLeft(AppSuggestion() + G.Staples(true), ").", G.CountPhrase());
    ContainsLeft(AppSuggestion() + G.Staples(true) + ").", G.FormatRequest, G.CountPhrase());
    ContainsRight("Available ingredients: " + list, AppTail(), G.CountPhrase());
  }

  /** The prompt asks for "distinct alcoholic drink" recipes: the words right
      after "distinct" are not "non-alcoholic". */
  lemma AppPromptIsAlcoholic(ingredients: seq<string>)
    ensures Contains(AppContent(ingredients), " distinct " + G.RecipeLabel(true))
  {
    var asked := " distinct " + G.RecipeLabel(true);
    var rest := G.HomeBartender + G.TheseIngredients + G.AssumeAccess;
    ContainsMiddle("", asked, rest);
    assert G.SuggestSuffix(true) == "" + asked + rest;
    ContainsRight(". Suggest " + G.CountPhrase(), G.SuggestSuffix(true), asked);
    ContainsLeft(AppSuggestion(), G.Staples(true), asked);
    ContainsLeft(AppSuggestion() + G.Staples(true), ").", asked);
    ContainsLeft(AppSuggestion() + G.Staples(true) + ").", G.FormatRequest, asked);
    ContainsRight("Available ingredients: " + Join(ingredients, ", "), AppTail(), asked);
  }

  /** The list hook's alcoholic prompt is this one with the sentence on the
      user's preference added after the ingredient list. */
  lemma HookPromptAddsPreference(ingredients: seq<string>)
    ensures G.UserContent(ingredients, true)
            == "Available ingredients: " + Join(ingredients, ", ") + ". The user wants " + G.DrinkLabel(true) + AppTail()
  {
    Regroup(". The user wants " + G.DrinkLabel(true), ". Suggest ", G.CountPhrase(), G.SuggestSuffix(true),
            G.Staples(true), ").", G.FormatRequest);
  }

  /** The regrouping behind HookPromptAddsPreference, on abstract pieces. */
  lemma Regroup(w: string, s: string, count: string, suffix: string, staples: string, close: string, format: string)
    ensures w + s + count + suffix + staples + close + "" + format
            == w + (s + count + suffix + staples + close + format)
  {
    assert w + s + count + suffix + staples + close + "" == w + s + count + suffix + staples + close;
  }

  /** None of the fixed text after the ingredient list holds a capital 'E'. */
  lemma AppTailLacksE()
    ensures 'E' !in AppTail()
  {
    G.CountLacksE();
    G.SuggestSuffixLacksE();
    G.StaplesLacksE();
    G.FormatRequestLacksE();
  }

  /** The prompt never carries the no-alcohol directive of the hook, for
      ingredient names without a capital 'E'. */
  lemma AppPromptLacksDirective(ingredients: seq<string>)
    requires forall i :: 0 <= i < |ingredients| ==> 'E' !in ingredients[i]
    ensures !Contains(AppContent(ingredients), G.NoAlcoholDirective)
  {
    var p := AppContent(ingredients);
    JoinLacksChar(ingredients, ", ", 'E');
    AppTailLacksE();
    assert 'E' !in p;
    G.DirectiveHasE();
    if Contains(p, G.NoAlcoholDirective) {
      ContainsChar(p, G.NoAlcoholDirective, 'E');
    }
  }

  function AppRequest(key: string, ingredients: seq<string>): ChatRequest<AppPrompt>
  {
    ChatRequest(OpenAiChat, Some(key), AppPrompt(ingredients))
  }

  /** The body of the App's request: the system text first, then a user message
      that names every ingredient and asks for up to five alcoholic drinks. */
  lemma RequestMessages(key: string, ingredients: seq<string>)
    ensures var m := Messages(AppRequest(key, ingredients).prompt);
            |m| == 2 && m[0] == Message("system", SystemPrompt) && m[1].role == "user"
    ensures var m := Messages(AppRequest(key, ingredients).prompt);
            forall i :: 0 <= i < |ingredients| ==> Contains(m[1].content, ingredients[i])
    ensures var m := Messages(AppRequest(key, ingredients).prompt);
            Contains(m[1].content, "up to 5") && Contains(m[1].content, " distinct " + G.RecipeLabel(true))
  {
    AppPromptListsIngredients(ingredients);
    AppPromptStatesCount(ingredients);
    AppPromptIsAlcoholic(ingredients);
  }

  // The reply

  /** What the awaited part of `handleGenerateRecipes` ends in. */
  function AppOutcome(reply: Reply, parse: string -> Option<JsonValue>): (r: Result<seq<Summary>, string>)
    ensures r.Err? ==> r.error != ""
    ensures r.Ok? ==> 1 <= |r.value| <= G.MaxRecipes
  {
    match ReadContent(reply, G.UnexpectedMessage, G.NoContentMessage, None)
    case Err(message) => Err(message)
    case Ok(text) =>
      match parse(text)
      case None => Err(G.UnreadableMessage)
      case Some(parsed) =>
        match NormaliseInline(parsed)
        case None => Err(G.UnexpectedMessage)
        case Some(all) =>
          var top := Take(all, G.MaxRecipes);
          if top == [] then Err(G.NoRecipesMessage) else Ok(top)
  }

  /** The component ends every reply as the list hook does, with the recipes'
      ingredients dropped: the same errors, and the same recipes otherwise. */
  lemma AppOutcomeAgreesWithHook(reply: Reply, parse: string -> Option<JsonValue>)
    ensures AppOutcome(reply, parse).Ok? <==> G.ListOutcome(reply, parse).Ok?
    ensures AppOutcome(reply, parse).Ok? ==>
              AppOutcome(reply, parse).value == Map(G.ListOutcome(reply, parse).value, Summarise)
    ensures AppOutcome(reply, parse).Err? ==> AppOutcome(reply, parse).error == G.ListOutcome(reply, parse).error
  {
    var read := ReadContent(reply, G.UnexpectedMessage, G.NoContentMessage, None);
    if read.Ok? && parse(read.value).Some? {
      var parsed := parse(read.value).value;
      InlineAgreesWithShared(parsed);
      if NormaliseRecipes(parsed).Some? {
        var all := NormaliseRecipes(parsed).value;
        MapTake(all, Summarise, G.MaxRecipes);
      }
    }
  }

  /** The state of `App`, without the welcome screen. `apiKey` is
      `ENV_API_KEY`, the trimmed build-time key. */
  class App {
    const apiKey: string
    var ingredientInput: string
    var ingredients: seq<string>
    var recipes: seq<Summary>
    var isLoading: bool
    var errorMessage: string

    /** Every listed ingredient is non-empty and trimmed. */
    predicate Valid()
      reads this
    {
      AllClean(ingredients)
    }

    /** `envKey` is `import.meta.env.VITE_OPENAI_API_KEY`, None when unset. */
    constructor (envKey: Option<string>)
      ensures apiKey == Trim(envKey.GetOr(""))
      ensures ingredientInput == "" && ingredients == [] && recipes == [] && !isLoading && errorMessage == ""
      ensures Valid()
    {
      var key := Trim(envKey.GetOr(""));
      apiKey := key;
      ingredientInput := "";
      ingredients := [];
      recipes := [];
      isLoading := false;
      errorMessage := "";
    }

    /** The input's `onChange`. */
    method SetIngredientInput(value: string)
      modifies this`ingredientInput
      ensures ingredientInput == value
    {
      ingredientInput := value;
    }

    /** `handleAddIngredient`: a blank input changes nothing; otherwise its trimmed
        text goes to the end of the list and the input is cleared. */
    method AddIngredient()
      requires Valid()
      modifies this`ingredients, this`ingredientInput
      ensures Valid()
      ensures var added := Trim(old(ingredientInput));
              added == "" ==> ingredients == old(ingredients) && ingredientInput == old(ingredientInput)
      ensures var added := Trim(old(ingredientInput));
              added != "" ==> ingredients == old(ingredients) + [added] && ingredientInput == ""
    {
      var trimmedInput := Trim(ingredientInput);
      if trimmedInput == "" {
        return;
      }
      AllCleanAppend(ingredients, trimmedInput);
      ingredients := ingredients + [trimmedInput];
      ingredientInput := "";
    }

    /** `handleRemoveIngredient`: exactly the given position goes, the others keep
        their order; an index outside the list changes nothing. */
    method RemoveIngredient(indexToRemove: int)
      requires Valid()
      modifies this`ingredients
      ensures Valid()
      ensures 0 <= indexToRemove < |old(ingredients)| ==>
                ingredients == old(ingredients)[..indexToRemove] + old(ingredients)[indexToRemove + 1..]
      ensures !(0 <= indexToRemove < |old(ingredients)|) ==> ingredients == old(ingredients)
    {
      WithoutIndexSpec(ingredients, indexToRemove);
      ingredients := WithoutIndex(ingredients, indexToRemove);
    }

    /** `handleGenerateRecipes` up to the awaited `fetch`: the key check, then the
        list check, then the loading reset. */
    method BeginGeneration() returns (request: Option<ChatRequest<AppPrompt>>)
      modifies this`recipes, this`isLoading, this`errorMessage
      ensures request.None? <==> G.ValidationError(apiKey, Some(ingredients)).Some?
      ensures request.None? ==> errorMessage == G.ValidationError(apiKey, Some(ingredients)).value
      ensures request.None? ==> recipes == old(recipes) && isLoading == old(isLoading)
      ensures request.Some? ==> request.value == AppRequest(Trim(apiKey), ingredients)
      ensures request.Some? ==> isLoading && errorMessage == "" && recipes == []
    {
      var failure := G.ValidationError(apiKey, Some(ingredients));
      if failure.Some? {
        errorMessage := failure.value;
        return None;
      }
      isLoading, errorMessage, recipes := true, "", [];
      request := Some(AppRequest(Trim(apiKey), ingredients));
    }

    /** The rest of `handleGenerateRecipes`, once the reply is in. */
    method SettleGeneration(reply: Reply, parse: string -> Option<JsonValue>)
      modifies this`recipes, this`isLoading, this`errorMessage
      ensures !isLoading
      ensures AppOutcome(reply, parse).Ok? ==>
                recipes == AppOutcome(reply, parse).value && errorMessage == old(errorMessage)
      ensures AppOutcome(reply, parse).Err? ==>
                errorMessage == AppOutcome(reply, parse).error && recipes == old(recipes)
    {
      var outcome := AppOutcome(reply, parse);
      match outcome {
        case Ok(found) => recipes := found;
        case Err(message) => errorMessage := message;
      }
      isLoading := false;
    }

    /** One whole call of `handleGenerateRecipes`, the reply to its request given.
        After a request exactly one of `recipes` and `errorMessage` is non-empty. */
    method GenerateRecipes(reply: Reply, parse: string -> Option<JsonValue>)
      returns (request: Option<ChatRequest<AppPrompt>>)
      modifies this`recipes, this`isLoading, this`errorMessage
      ensures request.None? <==> G.ValidationError(apiKey, Some(ingredients)).Some?
      ensures request.None? ==> errorMessage == G.ValidationError(apiKey, Some(ingredients)).value
      ensures request.None? ==> recipes == old(recipes) && isLoading == old(isLoading)
      ensures request.Some? ==> request.value == AppRequest(Trim(apiKey), ingredients) && !isLoading
      ensures request.Some? && AppOutcome(reply, parse).Ok? ==>
                recipes == AppOutcome(reply, parse).value && errorMessage == ""
      ensures request.Some? && AppOutcome(reply, parse).Err? ==>
                recipes == [] && errorMessage == AppOutcome(reply, parse).error
      ensures request.Some? ==> (recipes == [] <==> errorMessage != "")
    {
      request := BeginGeneration();
      if request.Some? {
        SettleGeneration(reply, parse);
      }
    }
  }
}
