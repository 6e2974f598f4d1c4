# My Cat Bartender: a Dafny model of the recipe flow

My Cat Bartender is a small React app. The user builds a list of ingredients.
The app asks OpenAI's chat-completions API for up to five drink recipes that use
those ingredients, shows the ones it can read, and can then ask for the full
details of one drink. This project models the logic behind that flow:

- `normalise_recipes.dfy` (module `Normalise`): the recipe-list decoder of
  `src/utils/normaliseRecipes.js`, from a parsed JSON payload to a list of
  recipes. It comes with an encoder, a round trip, idempotence, and element-wise
  decoding in order.
- `recipe_generator.dfy` (module `RecipeGeneratorHook`): the
  `useRecipeGenerator` hook of `src/hooks/useRecipeGenerator.js`.
  - The `RecipeGenerator` class holds the hook's state (`recipes`, `isLoading`,
    `errorMessage`).
  - Its methods model `generateRecipes`: the key check, then the ingredient
    check, the loading reset, and how the reply ends in at most five recipes or
    one message. `ClearError` models `clearError`.
  - Lemmas state what the prompt it writes contains.
- `recipe_details.dfy` (module `RecipeDetailsHook`): the `useRecipeDetails`
  hook of `src/hooks/useRecipeDetails.js`.
  - The `RecipeDetails` class holds `details`, `isLoading` and `errorMessage`.
  - Its methods cover the drink-name check (there is no key check), the choice
    between the development proxy and the direct endpoint, and the 401 messages.
  - The detail decoder falls back to the requested drink name.
- `app.dfy` (module `AppComponent`): the `App` component of `src/App.jsx`.
  - The `App` class holds the ingredient list and the input field, with add,
    remove, and the component's own recipe request.
  - That request always asks for alcoholic drinks, and its inline decoder drops
    ingredients. Lemmas relate both to the hook's.
- Shared modules:
  - `transport.dfy` (`Transport`): the request and the reply.
  - `json.dfy` (`Json`): parsed JSON values and the property reads the decoders
    make.
  - `text.dfy` (`Text`): JavaScript's `trim`, `join` and number rendering.
  - `seqs.dfy` (`Seqs`): `map`, `filter`, `slice` and index removal.
  - `wrappers.dfy` (`Wrappers`): `Option` and `Result`.

Modelling choices:

- **Network.** `fetch` is not modelled. A request method returns the request it
  would send, as a `ChatRequest` value. The reply is an input, a `Reply`.
  `BeginGeneration`/`BeginDetails` run up to the awaited call and
  `SettleGeneration`/`SettleDetails` run after it; `GenerateRecipes` and
  `GenerateDetails` compose the two.
- **Request contents.** A `ChatRequest` holds the endpoint, the bearer key (if
  any), and the values the prompt is written from. Text functions render these
  pieces: `Url`, `Headers`, and each module's `Messages`, which puts the
  system text before the user message (`UserContent`, `DetailsContent`,
  `AppContent`).
- **Parsing.** `JSON.parse` is a parameter, `parse: string -> Option<JsonValue>`.
  None means it threw.
- **Environment.** `import.meta.env` values are constructor parameters: the
  client key is `envKey` or `apiKey`, and `import.meta.env.DEV === true` is
  `useProxy`.
- **TypeErrors.** When the source reads a property of `null` or `undefined`, it
  throws a TypeError. The decoders return None in that case. The callers then
  report the hook's "Unexpected error ..." message.

## Model

| member | source | states |
|---|---|---|
| Text.Trim | src/utils/normaliseRecipes.js:8 | `trim` gives a string without whitespace at either end (ECMA-262 white space and line terminators), and the empty string exactly when the input is all whitespace |
| Text.TrimIsSlice | src/utils/normaliseRecipes.js:8 | what `trim` returns occurs in its input as a contiguous piece |
| Text.TrimOfTrimmed | src/utils/normaliseRecipes.js:8 | a string with no whitespace at either end is left unchanged by `trim` |
| Text.TrimIdempotent | src/utils/normaliseRecipes.js:8 | trimming twice gives the same as trimming once |
| Text.Join | src/hooks/useRecipeGenerator.js:33 | `Array.prototype.join` on strings: the parts with the separator between each pair; what the result contains is stated by JoinContainsEach |
| Text.JoinContainsEach | src/hooks/useRecipeGenerator.js:33 | every element of an array appears verbatim in `array.join(sep)` |
| Text.NatToString | src/hooks/useRecipeGenerator.js:65 | the interpolated status is a non-empty string of decimal digits, with no leading zero, that reads back as the status |
| Seqs.Take | src/hooks/useRecipeGenerator.js:90 | `slice(0, n)` is the prefix holding the first n elements, or every element when there are fewer |
| Seqs.WithoutIndex | src/App.jsx:47 | the `filter` by `index !== indexToRemove`; which entries it keeps is stated by WithoutIndexSpec |
| Seqs.WithoutIndexSpec | src/App.jsx:45-49 | filtering by `index !== indexToRemove` drops exactly that position and keeps the rest in order; any index outside the array leaves it unchanged |
| Json.Truthy | src/utils/normaliseRecipes.js:2 | JavaScript truthiness of a parsed value, the `!payload` test; what it admits is stated by RecipeItems and NormaliseRecipes |
| Json.Field | src/utils/normaliseRecipes.js:2 | a property read finds a value exactly when the value is an object that has that key |
| Json.TrimmedOr | src/utils/normaliseRecipes.js:8-14 | a string field is read as its `trim`; any other value gives the fallback |
| Json.CleanStrings | src/utils/normaliseRecipes.js:15-19 | an array becomes a list of non-empty trimmed strings that is no longer than the array; anything that is not an array gives the empty list |
| Json.CleanStringsRoundTrip | src/utils/normaliseRecipes.js:15-19 | cleaning the JSON array of an already clean list gives the list back |
| Json.CleanStringsAppend | src/utils/normaliseRecipes.js:15-19 | cleaning keeps order: a split array cleans to the concatenation of its cleaned halves |
| Json.CleanStringsSingle | src/utils/normaliseRecipes.js:17-18 | one element survives exactly when it is a string that does not trim to empty, and it survives trimmed |
| Json.AllCleanAppend | src/App.jsx:41 | appending a non-empty trimmed string to a clean list keeps it clean |
| Normalise.RecipeItems | src/utils/normaliseRecipes.js:2-6 | the decoder reads the elements of `payload.recipes` exactly when the payload is truthy and that member is an array |
| Normalise.ToRecipe | src/utils/normaliseRecipes.js:7-20 | every text field of a mapped recipe is trimmed and its ingredient list is clean |
| Normalise.NormaliseRecipes | src/utils/normaliseRecipes.js:1-22 | a falsy payload, or one without an array `recipes`, gives []; the decoder throws exactly when the array holds `null`; otherwise every recipe it returns has a non-empty trimmed name, and there are no more recipes than elements |
| Normalise.NormaliseSingle | src/utils/normaliseRecipes.js:7-21 | a single non-null element is kept exactly when its `name` is a string with a non-whitespace character, and it is then decoded field by field |
| Normalise.NormaliseAppend | src/utils/normaliseRecipes.js:6-21 | decoding is element by element and keeps order: the recipes of a concatenated array are those of its two parts, in order |
| Normalise.NormaliseRoundTrip | src/utils/normaliseRecipes.js:1-22 | well-formed recipes survive an encode/decode round trip unchanged |
| Normalise.NormaliseIdempotent | src/utils/normaliseRecipes.js:1-22 | normalising the encoding of the decoder's output gives that output back |
| Transport.Url | src/hooks/useRecipeDetails.js:3-4 | the two endpoints a request can be posted to; which one each request uses is stated by RequestRouting |
| Transport.Headers | src/hooks/useRecipeDetails.js:39-41 | the headers always start with the JSON content type; an `Authorization: Bearer <key>` header is added exactly when a key is sent |
| Transport.StatusFailure | src/hooks/useRecipeGenerator.js:65 | the fallback `OpenAI request failed (<status>)`; what it holds is stated by StatusFailureInjective and HttpErrorDetail |
| Transport.StatusFailureInjective | src/hooks/useRecipeGenerator.js:65 | different statuses give different `OpenAI request failed (<status>)` messages |
| Transport.HttpErrorDetail | src/hooks/useRecipeGenerator.js:64-77 | a failed status is reported with the body's non-empty `error.message` if there is one, and otherwise with the status fallback; the result is never empty |
| Transport.Caught | src/hooks/useRecipeGenerator.js:97-102 | the `catch` block stores the error's message when it is non-empty, and exactly the fallback when it is empty; the result is never empty |
| Transport.ReadContent | src/hooks/useRecipeGenerator.js:64-82 | a reply yields the model's text exactly when the status is 2xx and the content is non-empty; each error path gives its own message (rejection, the 401 message when there is one, the HTTP detail, no content), and none of them is empty |
| RecipeGeneratorHook.UserContent | src/hooks/useRecipeGenerator.js:25-33 | the user message; what it holds is stated by PromptListsIngredients, PromptStatesCount, StaplesMentionSodaWater, PromptHasDirective, PromptDirectiveIff and HookPromptAddsPreference |
| RecipeGeneratorHook.Messages | src/hooks/useRecipeGenerator.js:50-60 | the body's `messages`, the system text then the user message; what the request carries is stated by RequestMessages |
| RecipeGeneratorHook.PromptListsIngredients | src/hooks/useRecipeGenerator.js:33 | the user message contains the ingredients joined by ", ", and so contains each ingredient |
| RecipeGeneratorHook.PromptStatesCount | src/hooks/useRecipeGenerator.js:33 | the user message asks for "up to 5" recipes, the number the hook truncates to |
| RecipeGeneratorHook.StaplesMentionSodaWater | src/hooks/useRecipeGenerator.js:27-29 | the staples mention soda water exactly for non-alcoholic drinks |
| RecipeGeneratorHook.PromptHasDirective | src/hooks/useRecipeGenerator.js:30-33 | a non-alcoholic prompt carries the no-alcohol directive |
| RecipeGeneratorHook.AlcoholicPromptLacksDirective | src/hooks/useRecipeGenerator.js:30-33 | an alcoholic prompt does not carry the no-alcohol directive |
| RecipeGeneratorHook.PromptDirectiveIff | src/hooks/useRecipeGenerator.js:30-33 | the prompt carries the no-alcohol directive exactly when the drinks are non-alcoholic |
| RecipeGeneratorHook.ValidationError | src/hooks/useRecipeGenerator.js:13-23 | the checks before the request; their order and messages are stated by ValidationOrder and BeginGeneration |
| RecipeGeneratorHook.ValidationOrder | src/hooks/useRecipeGenerator.js:13-23 | a key that trims to empty is reported first; with a key, a non-array or empty ingredient list is reported; otherwise nothing stops the request |
| RecipeGeneratorHook.ListRequest | src/hooks/useRecipeGenerator.js:40-61 | the POST to OpenAI with the trimmed key as bearer; its body is stated by RequestMessages |
| RecipeGeneratorHook.RequestMessages | src/hooks/useRecipeGenerator.js:40-61 | the request's body holds the system text first and then a user message that names every ingredient, asks for up to 5 recipes, and carries the no-alcohol directive when non-alcoholic drinks are asked for |
| RecipeGeneratorHook.ListOutcome | src/hooks/useRecipeGenerator.js:64-102 | the reply ends in 1 to 5 well-formed recipes, the first five decoded, exactly when the text is non-empty, parses, and decodes to something; each failure ends in its own non-empty message (HTTP, no content, unreadable, no recipes) |
| RecipeGeneratorHook.RecipeGenerator.constructor | src/hooks/useRecipeGenerator.js:7-10 | the hook starts with no recipes, not loading, and no message |
| RecipeGeneratorHook.RecipeGenerator.BeginGeneration | src/hooks/useRecipeGenerator.js:12-46 | a failed check stores its message and sends nothing; otherwise the loading state is set, the message and recipes are cleared, and a request with the trimmed key goes to OpenAI |
| RecipeGeneratorHook.RecipeGenerator.SettleGeneration | src/hooks/useRecipeGenerator.js:64-105 | the outcome's recipes or its message are stored, and loading ends in every case |
| RecipeGeneratorHook.RecipeGenerator.GenerateRecipes | src/hooks/useRecipeGenerator.js:12-106 | after a request goes out, loading has ended and exactly one of the recipes and the message is non-empty |
| RecipeGeneratorHook.RecipeGenerator.ClearError | src/hooks/useRecipeGenerator.js:108 | only the message is reset |
| RecipeDetailsHook.DetailsContent | src/hooks/useRecipeDetails.js:20-31 | the user message; what it holds is stated by PromptQuotesDrink, PromptListsAllowed, PromptHasDirective and PromptDirectiveIff |
| RecipeDetailsHook.Messages | src/hooks/useRecipeDetails.js:50-60 | the body's `messages`, the system text then the user message; what the request carries is stated by RequestMessages |
| RecipeDetailsHook.PromptQuotesDrink | src/hooks/useRecipeDetails.js:26 | the user message names the drink in double quotes |
| RecipeDetailsHook.PromptListsAllowed | src/hooks/useRecipeDetails.js:28-29 | the user message lists the allowed ingredients joined by ", ", and so contains each of them; an argument that is not an array gives the message of an empty list |
| RecipeDetailsHook.PromptHasDirective | src/hooks/useRecipeDetails.js:23-29 | a non-alcoholic prompt carries the no-alcohol directive |
| RecipeDetailsHook.PromptDirectiveIff | src/hooks/useRecipeDetails.js:23-29 | the prompt carries the no-alcohol directive exactly when the drink is non-alcoholic |
| RecipeDetailsHook.DetailsRequest | src/hooks/useRecipeDetails.js:38-41 | the proxy-or-direct choice of endpoint and key; stated by RequestRouting |
| RecipeDetailsHook.RequestRouting | src/hooks/useRecipeDetails.js:38-41 | in development the request goes to the proxy path with no `Authorization` header; otherwise it goes to OpenAI with `Bearer <trimmed key>` |
| RecipeDetailsHook.RequestMessages | src/hooks/useRecipeDetails.js:43-62 | on either route the request's body holds the system text first and then a user message that quotes the drink, names every allowed ingredient, and carries the no-alcohol directive for a mocktail |
| RecipeDetailsHook.KeyMessage | src/hooks/useRecipeDetails.js:72-78 | the message for an HTTP 401 in each mode; that it replaces any body message is stated by DetailsOutcome |
| RecipeDetailsHook.DecodeDetails | src/hooks/useRecipeDetails.js:95-105 | parsed `null` throws; otherwise the name is the `trim` of the reply's string name or else the requested name, the description is the `trim` of a string description or else "", and the ingredient and step lists are clean ([] when not arrays) |
| RecipeDetailsHook.DecodeEncodedDetails | src/hooks/useRecipeDetails.js:95-105 | decoding the encoding of well-formed details gives them back, whatever name was requested |
| RecipeDetailsHook.DecodeEmptyObject | src/hooks/useRecipeDetails.js:95-103 | a reply object with none of the fields names the drink as requested and leaves the rest empty |
| RecipeDetailsHook.DetailsOutcome | src/hooks/useRecipeDetails.js:64-111 | an HTTP 401 gives the server-key or client-key message, whatever the body says; other failures give the HTTP detail; no content, unparseable text and rejections each give their own message; details are stored exactly when the text parses to something other than `null` |
| RecipeDetailsHook.RecipeDetails.constructor | src/hooks/useRecipeDetails.js:6-9 | the hook starts with no details, not loading, and no message |
| RecipeDetailsHook.RecipeDetails.BeginDetails | src/hooks/useRecipeDetails.js:11-41 | a missing or non-string drink name stores "No drink selected" and sends nothing; otherwise, whatever the key, the loading state is set, the message and details are cleared, and the request is routed by `useProxy` |
| RecipeDetailsHook.RecipeDetails.SettleDetails | src/hooks/useRecipeDetails.js:64-114 | the decoded details or the message are stored, and loading ends in every case |
| RecipeDetailsHook.RecipeDetails.GenerateDetails | src/hooks/useRecipeDetails.js:11-115 | after a request goes out, loading has ended and exactly one of the details and the message is set |
| RecipeDetailsHook.RecipeDetails.ClearError | src/hooks/useRecipeDetails.js:117 | only the message is reset |
| AppComponent.InlineRecipe | src/App.jsx:13-21 | every field of a summary is trimmed |
| AppComponent.NormaliseInline | src/App.jsx:7-23 | like the shared decoder: [] for a payload without an array `recipes`, a throw exactly on a `null` element, and only summaries with a non-empty trimmed name |
| AppComponent.InlineAgreesWithShared | src/App.jsx:7-23 | the inline decoder is the shared one with the ingredients dropped: it throws on the same payloads and keeps the same recipes in the same order |
| AppComponent.AppContent | src/App.jsx:87-89 | the component's user message; what it holds is stated by AppPromptListsIngredients, AppPromptStatesCount, AppPromptIsAlcoholic, AppPromptLacksDirective and HookPromptAddsPreference |
| AppComponent.Messages | src/App.jsx:79-91 | the body's `messages`, the system text then the user message; what the request carries is stated by RequestMessages |
| AppComponent.AppPromptListsIngredients | src/App.jsx:87-89 | the user message contains the ingredients joined by ", ", and so contains each ingredient |
| AppComponent.AppPromptStatesCount | src/App.jsx:89 | the user message asks for "up to 5" recipes |
| AppComponent.AppPromptIsAlcoholic | src/App.jsx:89 | the user message asks for "distinct alcoholic drink" recipes, the wording the non-alcoholic prompt replaces with "distinct non-alcoholic drink" |
| AppComponent.HookPromptAddsPreference | src/App.jsx:87-89 | the list hook's alcoholic user message is this one with "The user wants alcoholic drinks." added after the ingredients |
| AppComponent.AppPromptLacksDirective | src/App.jsx:87-89 | the component's prompt never carries the hook's no-alcohol directive |
| AppComponent.AppRequest | src/App.jsx:69-93 | the POST to OpenAI with the trimmed key as bearer; its body is stated by RequestMessages |
| AppComponent.RequestMessages | src/App.jsx:69-93 | the request's body holds the system text first and then a user message that names every ingredient and asks for up to 5 distinct alcoholic drinks |
| AppComponent.AppOutcome | src/App.jsx:95-133 | an ok outcome holds 1 to 5 recipes; every error message is non-empty |
| AppComponent.AppOutcomeAgreesWithHook | src/App.jsx:95-133 | the component ends every reply as the list hook does: the same errors, and the same recipes with their ingredients dropped |
| AppComponent.App.constructor | src/App.jsx:4-32 | the key is the trimmed build-time key (`""` when unset), and the list, the input, the recipes and the message start empty |
| AppComponent.App.SetIngredientInput | src/App.jsx:171 | the input holds what was typed |
| AppComponent.App.AddIngredient | src/App.jsx:34-43 | a blank input changes nothing; otherwise the trimmed input goes to the end of the list and the input is cleared; every entry stays non-empty and trimmed (`Valid`) |
| AppComponent.App.RemoveIngredient | src/App.jsx:45-49 | exactly the given position is removed and the other entries keep their order; an index outside the list changes nothing |
| AppComponent.App.BeginGeneration | src/App.jsx:51-74 | the key check comes first, then the empty-list check; a failed check stores its message and sends nothing; otherwise loading is set, the message and recipes are cleared, and the request carries the trimmed key and the ingredient list |
| AppComponent.App.SettleGeneration | src/App.jsx:95-136 | the outcome's recipes or its message are stored, and loading ends in every case |
| AppComponent.App.GenerateRecipes | src/App.jsx:51-137 | after a request goes out, loading has ended and exactly one of the recipes and the message is non-empty |

## Left out

- `fetch`, the network and `response.json()` are not modelled. A reply is an input: a rejection with its message, or a status with the body's `error.message` and `choices[0].message.content`.
- `JSON.parse` is a parameter. Its grammar (RFC 8259) is not modelled.
- `import.meta.env` is read as constructor parameters: the client key and `DEV === true` (`useProxy`).
- React is not modelled: rendering, `useState` batching, the welcome screen, the loading GIF and the components under `src/components/`. Each hook or component is one object whose fields are its state.
- Concurrency is not modelled: overlapping requests and state updates after unmount.
- `vite.config.js` and the dev proxy it configures are not part of this model. The proxy is only the `DevProxy` endpoint.
- A request stores its prompt as values (`ListPrompt`, `DetailPrompt`, `AppPrompt`). It does not store the serialized JSON body. The model id, `temperature` and `response_format` are not modelled, The `messages` array is rendered from the prompt by `Messages` in each module.
- Transport.ReadContent: a truthy `error.message` or `content` that is not a string is treated as absent. The source would use its string conversion.
- RecipeGeneratorHook.ListOutcome: when the decoder throws a TypeError on a `null` element, the engine's own error text is replaced with "Unexpected error while generating recipes.". The source would show the engine text.
- AppComponent.AppOutcome: the same replacement for a `null` element, with the same message.
- RecipeDetailsHook.DetailsOutcome: the same replacement when the parsed reply is `null`, with "Unexpected error while generating details.".
- RecipeGeneratorHook.RecipeGenerator.BeginGeneration: a non-string `apiKey` makes `apiKey.trim()` throw outside the `try`. The model's key is always a string.
- RecipeDetailsHook.RecipeDetails.BeginDetails: the elements of `allowedIngredients` are strings. The source joins any values through their string conversion.
- RecipeGeneratorHook.RecipeGenerator.BeginGeneration: the elements of `ingredients` are strings. The source joins any values through their string conversion.
- RecipeGeneratorHook.RecipeGenerator.GenerateRecipes: the default `isAlcoholic = true` is not modelled; the argument is always given.
- RecipeDetailsHook.RecipeDetails.GenerateDetails: the defaults `allowedIngredients = []` and `isAlcoholic = true` are not modelled; both arguments are always given (an omitted list gives the same prompt as `Some([])`).
- Strings are sequences of Unicode scalar values. A JavaScript string holding a lone UTF-16 surrogate, which `JSON.parse` can produce from a `\uD800` escape, has no counterpart in the model.
- RecipeGeneratorHook.AlcoholicPromptLacksDirective: proved only for ingredient names without a capital 'E'. The directive starts with one and no other text of the prompt holds one; an ingredient name could otherwise spell the directive itself.
- RecipeGeneratorHook.PromptDirectiveIff: the same hypothesis on the ingredient names.
- RecipeDetailsHook.PromptDirectiveIff: the same hypothesis on the drink name and the allowed ingredients.
- AppComponent.AppPromptLacksDirective: the same hypothesis on the ingredient names.
- The messages and prompt pieces that `src/App.jsx` repeats word for word from `src/hooks/useRecipeGenerator.js` are defined once, in the hook's module.
