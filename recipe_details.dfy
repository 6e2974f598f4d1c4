/** The detail hook of src/hooks/useRecipeDetails.js: the selected drink's
    check, the detail prompt, the endpoint and headers of the dev proxy or of the
    direct call, the request state `{details, isLoading, errorMessage}` and how a
    reply becomes the drink's details or an error message. Unlike the list hook,
    this one sends its request without checking the key. */
module RecipeDetailsHook {
  import opened Wrappers
  import opened Text
  import opened Json
  import opened Transport

  const NoDrinkMessage := "No drink selected. " + "Please pick a drink."
  const NoDetailsMessage := "No details returned. Please try again."
  const UnparseableMessage := "Could not parse the recipe details. " + "Try again."
  const UnexpectedMessage := "Unexpected error while " + "generating details."
  const ServerKeyMessage := "Missing or invalid server API key. " + "Set OPENAI_API_KEY for the dev proxy."
  const ClientKeyMessage := "Missing or invalid client API key. " + "Set VITE_OPENAI_API_KEY " + "or use the dev proxy."

  const SystemPrompt :=
    "You are an expert mixologist. " + "Provide precise, bar-ready recipes " + "with clear quantities and concise steps."

  const NoAlcoholDirective := " Ensure the recipe is completely " + "free of alcohol, spirits, and liqueurs."

  /** What the drink's details are decoded into. */
  datatype Details = Details(name: string, description: string, ingredients: seq<string>, steps: seq<string>)

  /** The name is the model's trimmed name when it gives one, so it is trimmed
      whenever it is not the requested name; the other fields are clean. */
  predicate WellFormedDetails(d: Details)
  {
    IsTrimmed(d.name) && IsTrimmed(d.description) && AllClean(d.ingredients) && AllClean(d.steps)
  }

  // The detail prompt

  /** What the request asks for: the drink, the ingredients it may use (None when
      the argument is not an array) and the kind of drink. */
  datatype DetailPrompt = DetailPrompt(drinkName: string, allowed: Option<seq<string>>, isAlcoholic: bool)

  function DrinkKind(isAlcoholic: bool): string
  {
    if isAlcoholic then "cocktail" else "mocktail"
  }

  /** The opening words, up to the drink's name. */
  function Lead(isAlcoholic: bool): string
  {
    "Provide a detailed " + DrinkKind(isAlcoholic) + " recipe for the drink named "
  }

  /** The drink's name in double quotes. */
  function Quoted(name: string): string
  {
    "\"" + name + "\""
  }

  const StaplesCitrus := "citrus (lemon/lime/orange), "
  const StaplesSugar := "sugar/simple syrup, "
  const StaplesGarnish := "and simple garnishes"

  function Staples(isAlcoholic: bool): string
  {
    if isAlcoholic then "common bar staples like ice, " + StaplesCitrus + StaplesSugar + StaplesGarnish
    else "common mocktail staples like ice, " + StaplesCitrus + StaplesSugar + "soda water/club soda, " + StaplesGarnish
  }

  const OnlyFromList := ".\n\nYou must only use ingredients "
  const ListPlus := "from this list plus "
  const NoOthers := ". Do not introduce any other ingredients."
  const AllowedLead := "\nAllowed ingredients: "

  /** The sentences between the drink's name and the allowed ingredients. */
  function UseOnly(isAlcoholic: bool): string
  {
    OnlyFromList + ListPlus + Staples(isAlcoholic) + NoOthers + AllowedLead
  }

  /** The user message up to the allowed ingredients. */
  function Opening(name: string, isAlcoholic: bool): string
  {
    Lead(isAlcoholic) + Quoted(name) + UseOnly(isAlcoholic)
  }

  /** The allowed ingredients joined by ", ", or nothing for a non-array. */
  function AllowedList(allowed: Option<seq<string>>): string
  {
    if allowed.Some? then Join(allowed.value, ", ") else ""
  }

  function RestrictionLine(isAlcoholic: bool): string
  {
    if isAlcoholic then "" else NoAlcoholDirective
  }

  const FormatLead := "\n\nReturn a single JSON object with: "
  const FieldName := "name (string), description "
  const FieldDescription := "(1-2 sentences), ingredients "
  const FieldIngredients := "(array of strings with quantities), "
  const FieldSteps := "and steps (array of short "
  const FieldStepsEnd := "step-by-step instructions). "
  const ShapeLead := "Shape: {\"name\":\"...\","
  const ShapeDescription := "\"description\":\"...\","
  const ShapeLists := "\"ingredients\":[\"...\"]," + "\"steps\":[\"...\"]}."

  /** The closing instructions on the reply's shape. */
  const DetailsFormat :=
    FormatLead + FieldName + FieldDescription + FieldIngredients + FieldSteps + FieldStepsEnd
    + ShapeLead + ShapeDescription + ShapeLists

  /** The user message after the allowed ingredients. */
  function Closing(isAlcoholic: bool): string
  {
    "." + RestrictionLine(isAlcoholic) + DetailsFormat
  }

  /** The user message of the request. */
  function DetailsContent(p: DetailPrompt): string
  {
    Opening(p.drinkName, p.isAlcoholic) + AllowedList(p.allowed) + Closing(p.isAlcoholic)
  }

  /** The body's `messages`: the fixed system text, then the user message. */
  function Messages(p: DetailPrompt): seq<Message>
  {
    [Message("system", SystemPrompt), Message("user", DetailsContent(p))]
  }

  /** The prompt names the drink in double quotes. */
  lemma PromptQuotesDrink(p: DetailPrompt)
    ensures Contains(DetailsContent(p), "\"" + p.drinkName + "\"")
  {
    var opening := Opening(p.drinkName, p.isAlcoholic);
    ContainsMiddle(Lead(p.isAlcoholic), Quoted(p.drinkName), UseOnly(p.isAlcoholic));
    ContainsLeft(opening, AllowedList(p.allowed), Quoted(p.drinkName));
    ContainsLeft(opening + AllowedList(p.allowed), Closing(p.isAlcoholic), Quoted(p.drinkName));
  }

  /** The prompt lists the allowed ingredients joined by ", ", and so names each of
      them; an argument that is not an array gives the prompt of an empty list. */
  lemma PromptListsAllowed(p: DetailPrompt)
    ensures p.allowed.Some? ==> Contains(DetailsContent(p), Join(p.allowed.value, ", "))
    ensures p.allowed.Some? ==>
              forall i :: 0 <= i < |p.allowed.value| ==> Contains(DetailsContent(p), p.allowed.value[i])
    ensures p.allowed.None? ==> DetailsContent(p) == DetailsContent(p.(allowed := Some([])))
  {
    var content := DetailsContent(p);
    ContainsMiddle(Opening(p.drinkName, p.isAlcoholic), AllowedList(p.allowed), Closing(p.isAlcoholic));
    if p.allowed.Some? {
      var list := Join(p.allowed.value, ", ");
      forall i | 0 <= i < |p.allowed.value| ensures Contains(content, p.allowed.value[i]) {
        JoinContainsEach(p.allowed.value, ", ", i);
        ContainsTransitive(content, list, p.allowed.value[i]);
      }
    } else {
      assert AllowedList(Some([])) == "";
    }
  }

  /** A non-alcoholic prompt carries the no-alcohol directive. */
  lemma PromptHasDirective(p: DetailPrompt)
    requires !p.isAlcoholic
    ensures Contains(DetailsContent(p), NoAlcoholDirective)
  {
    ContainsMiddle(".", NoAlcoholDirective, DetailsFormat);
    ContainsRight(Opening(p.drinkName, false) + AllowedList(p.allowed), Closing(false), NoAlcoholDirective);
  }

  // The pieces of a cocktail prompt hold no capital 'E'. As in the list hook,
  // the long texts are split into named pieces of about forty characters and
  // checked one lemma per piece, which keeps each proof about a literal small.

  lemma LeadLacksE()
    ensures 'E' !in Lead(true)
  {
  }

  lemma StaplesCitrusLacksE()
    ensures 'E' !in StaplesCitrus
  {
  }

  lemma StaplesSugarLacksE()
    ensures 'E' !in StaplesSugar
  {
  }

  lemma StaplesGarnishLacksE()
    ensures 'E' !in StaplesGarnish
  {
  }

  lemma StaplesLacksE()
    ensures 'E' !in Staples(true)
  {
    StaplesCitrusLacksE();
    StaplesSugarLacksE();
    StaplesGarnishLacksE();
  }

  lemma OnlyFromListLacksE()
    ensures 'E' !in OnlyFromList
  {
  }

  lemma ListPlusLacksE()
    ensures 'E' !in ListPlus
  {
  }

  lemma NoOthersLacksE()
    ensures 'E' !in NoOthers
  {
  }

  lemma AllowedLeadLacksE()
    ensures 'E' !in AllowedLead
  {
  }

  lemma UseOnlyLacksE()
    ensures 'E' !in UseOnly(true)
  {
    OnlyFromListLacksE();
    ListPlusLacksE();
    StaplesLacksE();
    NoOthersLacksE();
    AllowedLeadLacksE();
  }

  lemma FormatLeadLacksE()
    ensures 'E' !in FormatLead
  {
  }

  lemma FieldNameLacksE()
    ensures 'E' !in FieldName
  {
  }

  lemma FieldDescriptionLacksE()
    ensures 'E' !in FieldDescription
  {
  }

  lemma FieldIngredientsLacksE()
    ensures 'E' !in FieldIngredients
  {
  }

  lemma FieldStepsLacksE()
    ensures 'E' !in FieldSteps
  {
  }

  lemma FieldStepsEndLacksE()
    ensures 'E' !in FieldStepsEnd
  {
  }

  lemma ShapeLeadLacksE()
    ensures 'E' !in ShapeLead
  {
  }

  lemma ShapeDescriptionLacksE()
    ensures 'E' !in ShapeDescription
  {
  }

  lemma ShapeListsLacksE()
    ensures 'E' !in ShapeLists
  {
  }

  lemma DetailsFormatLacksE()
    ensures 'E' !in DetailsFormat
  {
    FormatLeadLacksE();
    FieldNameLacksE();
    FieldDescriptionLacksE();
    FieldIngredientsLacksE();
    FieldStepsLacksE();
    FieldStepsEndLacksE();
    ShapeLeadLacksE();
    ShapeDescriptionLacksE();
    ShapeListsLacksE();
  }

  lemma CocktailPromptLacksE(p: DetailPrompt)
    requires p.isAlcoholic && 'E' !in p.drinkName
    requires p.allowed.Some? ==> forall i :: 0 <= i < |p.allowed.value| ==> 'E' !in p.allowed.value[i]
    ensures 'E' !in DetailsContent(p)
  {
    LeadLacksE();
    UseOnlyLacksE();
    if p.allowed.Some? {
      JoinLacksChar(p.allowed.value, ", ", 'E');
    }
    DetailsFormatLacksE();
  }

  lemma DirectiveHasE()
    ensures 'E' in NoAlcoholDirective
  {
    assert NoAlcoholDirective[1] == 'E';
  }

  /** The directive is in the prompt exactly when the drink is non-alcoholic, for
      a drink name and allowed ingredients without a capital 'E' (the directive
      begins with one, and no other text of the prompt holds one). */
  lemma PromptDirectiveIff(p: DetailPrompt)
    requires 'E' !in p.drinkName
    requires p.allowed.Some? ==> forall i :: 0 <= i < |p.allowed.value| ==> 'E' !in p.allowed.value[i]
    ensures Contains(DetailsContent(p), NoAlcoholDirective) <==> !p.isAlcoholic
  {
    if p.isAlcoholic {
      CocktailPromptLacksE(p);
      DirectiveHasE();
      if Contains(DetailsContent(p), NoAlcoholDirective) {
        ContainsChar(DetailsContent(p), NoAlcoholDirective, 'E');
      }
    } else {
      PromptHasDirective(p);
    }
  }

  // The request

  /** In development the request goes to the proxy, which adds the key itself;
      otherwise it goes to OpenAI carrying the key as a bearer token. */
  function DetailsRequest(useProxy: bool, key: string, prompt: DetailPrompt): ChatRequest<DetailPrompt>
  {
    if useProxy then ChatRequest(DevProxy, None, prompt)
    else ChatRequest(OpenAiChat, Some(key), prompt)
  }

  /** A proxied request goes to the proxy path with only the content type, so no
      key leaves the browser; a direct one goes to OpenAI with the trimmed key. */
  lemma RequestRouting(useProxy: bool, key: string, prompt: DetailPrompt)
    ensures var r := DetailsRequest(useProxy, key, prompt);
            r.prompt == prompt && (Url(r.endpoint) == DevProxyUrl <==> useProxy)
    ensures var r := DetailsRequest(useProxy, key, prompt);
            useProxy ==> Headers(r.bearer) == [JsonContentType]
    ensures var r := DetailsRequest(useProxy, key, prompt);
            !useProxy ==> Url(r.endpoint) == ChatCompletionsUrl && Headers(r.bearer)[1].value == "Bearer " + key
    ensures var r := DetailsRequest(useProxy, key, prompt);
            (exists i :: 0 <= i < |Headers(r.bearer)| && Headers(r.bearer)[i].name == "Authorization") <==> !useProxy
  {
    var r := DetailsRequest(useProxy, key, prompt);
    if !useProxy {
      var h := Headers(r.bearer)[1].value;
      assert h == h[..7] + h[7..];
    }
  }

  /** The body of the request, on either route: the system text first, then a
      user message that quotes the drink, names every allowed ingredient, and
      carries the no-alcohol directive for a mocktail. */
  lemma RequestMessages(useProxy: bool, key: string, prompt: DetailPrompt)
    ensures var m := Messages(DetailsRequest(useProxy, key, prompt).prompt);
            |m| == 2 && m[0] == Message("system", SystemPrompt) && m[1].role == "user"
    ensures var m := Messages(DetailsRequest(useProxy, key, prompt).prompt);
            Contains(m[1].content, "\"" + prompt.drinkName + "\"")
    ensures var m := Messages(DetailsRequest(useProxy, key, prompt).prompt);
            prompt.allowed.Some? ==>
              forall i :: 0 <= i < |prompt.allowed.value| ==> Contains(m[1].content, prompt.allowed.value[i])
    ensures var m := Messages(DetailsRequest(useProxy, key, prompt).prompt);
            !prompt.isAlcoholic ==> Contains(m[1].content, NoAlcoholDirective)
  {
    PromptQuotesDrink(prompt);
    PromptListsAllowed(prompt);
    if !prompt.isAlcoholic {
      PromptHasDirective(prompt);
    }
  }

  /** The message an HTTP 401 is reported with, whatever the body says. */
  function KeyMessage(useProxy: bool): string
  {
    if useProxy then ServerKeyMessage else ClientKeyMessage
  }

  // The reply

  /** The object the hook stores, read from the parsed content. None stands for
      parsed `null`, whose fields cannot be read (a TypeError in the source). */
  function DecodeDetails(parsed: JsonValue, drinkName: string): (r: Option<Details>)
    ensures r.None? <==> parsed == JNull
    ensures r.Some? ==> IsTrimmed(r.value.description) && AllClean(r.value.ingredients) && AllClean(r.value.steps)
    ensures r.Some? && Field(parsed, "name").Some? && Field(parsed, "name").value.JString?
            ==> r.value.name == Trim(Field(parsed, "name").value.s)
    ensures r.Some? && !(Field(parsed, "name").Some? && Field(parsed, "name").value.JString?)
            ==> r.value.name == drinkName
    ensures r.Some? && Field(parsed, "description").Some? && Field(parsed, "description").value.JString?
            ==> r.value.description == Trim(Field(parsed, "description").value.s)
    ensures r.Some? && !(Field(parsed, "description").Some? && Field(parsed, "description").value.JString?)
            ==> r.value.description == ""
    ensures r.Some? && !(Field(parsed, "ingredients").Some? && Field(parsed, "ingredients").value.JArray?)
            ==> r.value.ingredients == []
    ensures r.Some? && !(Field(parsed, "steps").Some? && Field(parsed, "steps").value.JArray?)
            ==> r.value.steps == []
  {
    if parsed == JNull then None
    else
      var name := Field(parsed, "name");
      Some(Details(
        if name.Some? && name.value.JString? then Trim(name.value.s) else drinkName,
        TrimmedOr(Field(parsed, "description"), ""),
        CleanStrings(Field(parsed, "ingredients")),
        CleanStrings(Field(parsed, "steps"))))
  }

  /** The JSON object a well-formed `Details` is written as. */
  function EncodeDetails(d: Details): JsonValue
  {
    JObject(map[
      "name" := JString(d.name),
      "description" := JString(d.description),
      "ingredients" := StringArray(d.ingredients),
      "steps" := StringArray(d.steps)])
  }

  /** Decoding what a well-formed `Details` encodes to gives it back, whatever the
      requested name was. */
  lemma DecodeEncodedDetails(d: Details, drinkName: string)
    requires WellFormedDetails(d)
    ensures DecodeDetails(EncodeDetails(d), drinkName) == Some(d)
  {
    var v := EncodeDetails(d);
    EncodedDetailsFields(d);
    assert DecodeDetails(v, drinkName) == Some(Details(
      Trim(d.name), TrimmedOr(Some(JString(d.description)), ""),
      CleanStrings(Some(StringArray(d.ingredients))), CleanStrings(Some(StringArray(d.steps)))));
    TrimOfTrimmed(d.name);
    TrimmedOrString(d.description);
    CleanStringsRoundTrip(d.ingredients);
    CleanStringsRoundTrip(d.steps);
  }

  lemma EncodedDetailsFields(d: Details)
    ensures Field(EncodeDetails(d), "name") == Some(JString(d.name))
    ensures Field(EncodeDetails(d), "description") == Some(JString(d.description))
    ensures Field(EncodeDetails(d), "ingredients") == Some(StringArray(d.ingredients))
    ensures Field(EncodeDetails(d), "steps") == Some(StringArray(d.steps))
  {
  }

  /** A reply object with none of the fields names the drink as requested and
      leaves everything else empty. */
  lemma DecodeEmptyObject(drinkName: string)
    ensures DecodeDetails(JObject(map[]), drinkName) == Some(Details(drinkName, "", [], []))
  {
  }

  /** What the awaited part of `generateDetails` ends in: the details it stores,
      or the message its `catch` stores. `parse` stands for JSON.parse. */
  function DetailsOutcome(reply: Reply, parse: string -> Option<JsonValue>, drinkName: string, useProxy: bool)
    : (r: Result<Details, string>)
    ensures r.Err? ==> r.error != ""
    ensures reply.Response? && reply.status == 401 ==> r == Err(KeyMessage(useProxy))
    ensures reply.Response? && !IsOk(reply.status) && reply.status != 401
            ==> r == Err(HttpErrorDetail(reply.status, reply.errorMessage))
    ensures reply.Response? && IsOk(reply.status) && (reply.content.None? || reply.content.value == "")
            ==> r == Err(NoDetailsMessage)
    ensures reply.Rejected? ==> r == Err(Caught(reply.message, UnexpectedMessage))
    ensures r.Ok? <==> reply.Response? && IsOk(reply.status) && reply.content.Some? && reply.content.value != ""
                       && parse(reply.content.value).Some? && parse(reply.content.value).value != JNull
    ensures r.Ok? ==> r == Ok(DecodeDetails(parse(reply.content.value).value, drinkName).value)
    ensures reply.Response? && IsOk(reply.status) && reply.content.Some? && reply.content.value != ""
              && parse(reply.content.value).None?
            ==> r == Err(UnparseableMessage)
  {
    match ReadContent(reply, UnexpectedMessage, NoDetailsMessage, Some(KeyMessage(useProxy)))
    case Err(message) => Err(message)
    case Ok(text) =>
      match parse(text)
      case None => Err(UnparseableMessage)
      case Some(parsed) =>
        match DecodeDetails(parsed, drinkName)
        case None => Err(UnexpectedMessage)
        case Some(d) => Ok(d)
  }

  /** The state behind `useRecipeDetails(apiKey)`. `apiKey` is None for a missing
      key; `useProxy` stands for `import.meta.env.DEV === true`. */
  class RecipeDetails {
    const apiKey: Option<string>
    const useProxy: bool
    var details: Option<Details>
    var isLoading: bool
    var errorMessage: string

    constructor (apiKey: Option<string>, useProxy: bool)
      ensures this.apiKey == apiKey && this.useProxy == useProxy
      ensures details == None && !isLoading && errorMessage == ""
    {
      this.apiKey := apiKey;
      this.useProxy := useProxy;
      details := None;
      isLoading := false;
      errorMessage := "";
    }

    /** `generateDetails` up to the awaited `fetch`: the drink check, then the
        loading reset. A request goes out whatever the key is. `drinkName` is
        None when the argument is not a string. */
    method BeginDetails(drinkName: Option<string>, allowed: Option<seq<string>>, isAlcoholic: bool)
      returns (request: Option<ChatRequest<DetailPrompt>>)
      modifies this
      ensures request.None? <==> drinkName.None? || drinkName.value == ""
      ensures request.None? ==> errorMessage == NoDrinkMessage && details == old(details) && isLoading == old(isLoading)
      ensures request.Some? ==> drinkName.Some?
      ensures request.Some? ==>
                request.value == DetailsRequest(useProxy, Trim(apiKey.GetOr("")), DetailPrompt(drinkName.value, allowed, isAlcoholic))
      ensures request.Some? ==> isLoading && errorMessage == "" && details == None
    {
      if drinkName.None? || drinkName.value == "" {
        errorMessage := NoDrinkMessage;
        return None;
      }
      isLoading, errorMessage, details := true, "", None;
      request := Some(DetailsRequest(useProxy, Trim(apiKey.GetOr("")), DetailPrompt(drinkName.value, allowed, isAlcoholic)));
    }

    /** The rest of `generateDetails`, once the reply is in: store the details or
        the message, and leave the loading state in every case. */
    method SettleDetails(drinkName: string, reply: Reply, parse: string -> Option<JsonValue>)
      modifies this
      ensures !isLoading
      ensures DetailsOutcome(reply, parse, drinkName, useProxy).Ok? ==>
                details == Some(DetailsOutcome(reply, parse, drinkName, useProxy).value) && errorMessage == old(errorMessage)
      ensures DetailsOutcome(reply, parse, drinkName, useProxy).Err? ==>
                errorMessage == DetailsOutcome(reply, parse, drinkName, useProxy).error && details == old(details)
    {
      var outcome := DetailsOutcome(reply, parse, drinkName, useProxy);
      match outcome {
        case Ok(d) => details := Some(d);
        case Err(message) => errorMessage := message;
      }
      isLoading := false;
    }

    /** One whole call of `generateDetails`, the reply to its request given. After
        a request exactly one of `details` and `errorMessage` is set. */
    method GenerateDetails(drinkName: Option<string>, allowed: Option<seq<string>>, isAlcoholic: bool,
                           reply: Reply, parse: string -> Option<JsonValue>)
      returns (request: Option<ChatRequest<DetailPrompt>>)
      modifies this
      ensures request.None? <==> drinkName.None? || drinkName.value == ""
      ensures request.None? ==> errorMessage == NoDrinkMessage && details == old(details) && isLoading == old(isLoading)
      ensures request.Some? ==> drinkName.Some? && !isLoading
      ensures request.Some? ==>
                request.value == DetailsRequest(useProxy, Trim(apiKey.GetOr("")), DetailPrompt(drinkName.value, allowed, isAlcoholic))
      ensures request.Some? && DetailsOutcome(reply, parse, drinkName.value, useProxy).Ok? ==>
                details == Some(DetailsOutcome(reply, parse, drinkName.value, useProxy).value) && errorMessage == ""
      ensures request.Some? && DetailsOutcome(reply, parse, drinkName.value, useProxy).Err? ==>
                details == None && errorMessage == DetailsOutcome(reply, parse, drinkName.value, useProxy).error
      ensures request.Some? ==> (details.Some? <==> errorMessage == "")
    {
      request := BeginDetails(drinkName, allowed, isAlcoholic);
      if request.Some? {
        SettleDetails(drinkName.value, reply, parse);
      }
    }

    /** `clearError`: only the message is reset. */
    method ClearError()
      modifies this`errorMessage
      ensures errorMessage == ""
    {
      errorMessage := "";
    }
  }
}
