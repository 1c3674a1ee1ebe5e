/**
 * The voice assistant of `core/views.py`: `process_voice` asks the language model to
 * classify the farmer's question, routes it by the category's wording to the weather,
 * crop, government-scheme or conversation handler, and answers in JSON; `get_greeting`
 * asks for a short greeting. The language model and the weather service are parameters:
 * their replies are arbitrary, and the model states what the views make of them.
 */
module Assistant {
  import opened PyText
  import opened Http

  /** "क्षमा करें" ("sorry"). Every apology the assistant produces begins with it, and the
      handlers read its presence in a reply as "the AI call did not work". */
  const ApologyMarker: string := "क्षमा करें"

  const NotConfiguredReply: string := ApologyMarker + ", मेरा AI कनेक्शन ठीक से काम नहीं कर रहा है।"
  const CallFailedReply: string := ApologyMarker + ", AI से कनेक्ट करते समय एक त्रुटि हुई।"
  const UnclearCityReply: string := "कृपया एक स्पष्ट शहर का नाम बताएं ताकि मैं मौसम की जांच कर सकूं।"
  const FallbackGreeting: string := "नमस्ते! मैं आपकी मदद के लिए तैयार हूँ।"

  /** The reply when the weather service reports an error for `city`. */
  function CityNotFoundReply(city: string): string
  {
    ApologyMarker + ", मुझे '" + city + "' शहर नहीं मिला।"
  }

  const InvalidMethodError: string := "Invalid request method"
  const NoTextError: string := "No text provided"
  const InvalidJsonError: string := "Invalid JSON in request body"
  const InternalError: string := "Sorry, an internal server error occurred."

  /** A decoded JSON value. */
  datatype Json =
    | JNull
    | JBool(b: bool)
    | JNumber(n: real)
    | JString(s: string)
    | JArray(items: seq<Json>)
    | JObject(fields: map<string, Json>)

  /** Python truthiness of the decoded value. */
  predicate Truthy(j: Json)
  {
    match j
    case JNull => false
    case JBool(b) => b
    case JNumber(n) => n != 0.0
    case JString(s) => s != []
    case JArray(items) => items != []
    case JObject(fields) => fields != map[]
  }

  /** `json.loads(request.body)`: a decode error, bytes that are not text
      (`UnicodeDecodeError`, which only the generic handler catches), or a document. */
  datatype Body = NotJson | NotText | Document(value: Json)

  /** What `get_weather_data` hands back: the report, or an error message (a missing key,
      a 404 or a failed request), or an exception it does not catch (a reply missing a field). */
  datatype WeatherReport = WeatherReport(temperature: real, description: string, humidity: real)
  datatype Lookup = Found(report: WeatherReport) | LookupError(message: string) | LookupCrashed

  /** The prompts the views send, by purpose and by what each of them carries. */
  datatype Prompt =
    | ClassifyPrompt(query: Json)
    | CityPrompt(query: Json)
    | WeatherPrompt(city: string, report: WeatherReport)
    | CropPrompt(query: Json)
    | SchemePrompt(query: Json)
    | ConversationPrompt(query: Json)
    | GreetingPrompt

  /** `MODEL.generate_content(prompt).text`: a text, or an exception. */
  datatype Reply = Replied(text: string) | Raised

  /** The outside world: whether `MODEL` was configured at start-up, the model's reply to
      each prompt, and the weather service's answer for each city. */
  datatype Services = Services(configured: bool, gemini: Prompt -> Reply, weather: string -> Lookup)

  /** `generate_gemini_response`. */
  function GenerateGeminiResponse(svc: Services, prompt: Prompt): string
  {
    if !svc.configured then NotConfiguredReply
    else match svc.gemini(prompt)
      case Replied(text) => text
      case Raised => CallFailedReply
  }

  /** What a handler comes to: a text, or an exception that reaches `process_voice`'s
      generic handler. */
  datatype Outcome = Answer(text: string) | Crashed

  /** The test `handle_weather_query` puts the extracted (stripped) city name through. */
  predicate PlausibleCity(city: string)
  {
    city != [] && !Contains(city, ApologyMarker) && |Split(city)| <= 3
  }

  /** `handle_weather_query`. */
  function HandleWeatherQuery(svc: Services, query: Json): Outcome
  {
    var city := Strip(GenerateGeminiResponse(svc, CityPrompt(query)));
    if !PlausibleCity(city) then Answer(UnclearCityReply)
    else match svc.weather(city)
      case LookupError(_) => Answer(CityNotFoundReply(city))
      case LookupCrashed => Crashed
      case Found(report) => Answer(GenerateGeminiResponse(svc, WeatherPrompt(city, report)))
  }

  datatype Route = WeatherRoute | CropRoute | SchemeRoute | ConversationRoute

  /** `generate_gemini_response(classifier_prompt).strip().lower()`. */
  function Category(reply: string): string
  {
    Lower(Strip(reply))
  }

  /** The `if`/`elif` chain of `process_voice`, tested on the category in this order. */
  function RouteOf(category: string): Route
  {
    if Contains(category, "weather") then WeatherRoute
    else if Contains(category, "crop") then CropRoute
    else if Contains(category, "scheme") || Contains(category, "yojana") || Contains(category, "sarkari") then SchemeRoute
    else ConversationRoute
  }

  /** The handler a route leads to. */
  function Handle(svc: Services, route: Route, query: Json): Outcome
  {
    match route
    case WeatherRoute => HandleWeatherQuery(svc, query)
    case CropRoute => Answer(GenerateGeminiResponse(svc, CropPrompt(query)))
    case SchemeRoute => Answer(GenerateGeminiResponse(svc, SchemePrompt(query)))
    case ConversationRoute => Answer(GenerateGeminiResponse(svc, ConversationPrompt(query)))
  }

  /** `data.get('text')`. */
  function TextField(fields: map<string, Json>): Json
  {
    if "text" in fields then fields["text"] else JNull
  }

  /** The route chosen for `query` and the handler's outcome. */
  function Answering(svc: Services, query: Json): Outcome
  {
    Handle(svc, RouteOf(Category(GenerateGeminiResponse(svc, ClassifyPrompt(query)))), query)
  }

  /** `process_voice`. */
  function ProcessVoice(svc: Services, verb: Verb, body: Body): Response
  {
    if verb != Post then Json(405, "error", InvalidMethodError)
    else if !svc.configured then Json(500, "response", NotConfiguredReply)
    else match body
      case NotJson => Json(400, "error", InvalidJsonError)
      case NotText => Json(500, "error", InternalError)
      case Document(doc) =>
        // `data.get` on anything but a dict raises `AttributeError`.
        if !doc.JObject? then Json(500, "error", InternalError)
        else if !Truthy(TextField(doc.fields)) then Json(400, "error", NoTextError)
        else match Answering(svc, TextField(doc.fields))
          case Answer(text) => Json(200, "response", text)
          case Crashed => Json(500, "error", InternalError)
  }

  /** `get_greeting`. */
  function GetGreeting(svc: Services): Response
  {
    var text := GenerateGeminiResponse(svc, GreetingPrompt);
    if Contains(text, ApologyMarker) then Json(200, "greeting", FallbackGreeting)
    else Json(200, "greeting", text)
  }

  // ---------------------------------------------------------------------------
  // generate_gemini_response

  /** Both apologies begin with the marker, and so does the city-not-found reply. */
  lemma ApologiesCarryMarker(city: string)
    ensures Contains(NotConfiguredReply, ApologyMarker)
    ensures Contains(CallFailedReply, ApologyMarker)
    ensures Contains(CityNotFoundReply(city), ApologyMarker)
  {
    var none: string := [];
    ContainsOccurrence(none, ApologyMarker, ", मेरा AI कनेक्शन ठीक से काम नहीं कर रहा है।");
    assert none + ApologyMarker == ApologyMarker;
    ContainsOccurrence(none, ApologyMarker, ", AI से कनेक्ट करते समय एक त्रुटि हुई।");
    ContainsOccurrence(none, ApologyMarker, ", मुझे '" + city + "' शहर नहीं मिला।");
    assert CityNotFoundReply(city) == ApologyMarker + (", मुझे '" + city + "' शहर नहीं मिला।");
  }

  /** Without a configured model, or when the call raises, the reply is the matching fixed
      apology, and it carries the marker; otherwise it is the model's text as it came. */
  lemma GenerateFallsBack(svc: Services, prompt: Prompt)
    ensures !svc.configured ==> GenerateGeminiResponse(svc, prompt) == NotConfiguredReply
    ensures svc.configured && svc.gemini(prompt).Raised? ==> GenerateGeminiResponse(svc, prompt) == CallFailedReply
    ensures svc.configured && svc.gemini(prompt).Replied? ==> GenerateGeminiResponse(svc, prompt) == svc.gemini(prompt).text
    ensures !svc.configured || svc.gemini(prompt).Raised? ==> Contains(GenerateGeminiResponse(svc, prompt), ApologyMarker)
  {
    ApologiesCarryMarker([]);
  }

  // ---------------------------------------------------------------------------
  // handle_weather_query

  /** An empty city, one that carries the apology marker or one of more than three words
      gets the "name a clear city" reply, and the weather service is not consulted. */
  lemma UnclearCityIsRefused(svc: Services, query: Json, weather: string -> Lookup)
    requires var city := Strip(GenerateGeminiResponse(svc, CityPrompt(query)));
      city == [] || Contains(city, ApologyMarker) || |Split(city)| > 3
    ensures HandleWeatherQuery(svc, query) == Answer(UnclearCityReply)
    ensures HandleWeatherQuery(svc.(weather := weather), query) == HandleWeatherQuery(svc, query)
  {
    SameModel(svc, svc.(weather := weather), CityPrompt(query));
    assert !PlausibleCity(Strip(GenerateGeminiResponse(svc, CityPrompt(query))));
  }

  /** When the city question itself fails, the apology that comes back is never taken for
      a city name: it still carries the marker after `strip()`. */
  lemma FailedCityExtractionIsRefused(svc: Services, query: Json)
    requires !svc.configured || svc.gemini(CityPrompt(query)).Raised?
    ensures HandleWeatherQuery(svc, query) == Answer(UnclearCityReply)
  {
    var reply := GenerateGeminiResponse(svc, CityPrompt(query));
    GenerateFallsBack(svc, CityPrompt(query));
    MarkerEnds();
    StripKeepsInner(reply, ApologyMarker);
  }

  /** The marker starts and ends with a letter. */
  lemma MarkerEnds()
    ensures ApologyMarker != [] && !IsSpace(ApologyMarker[0]) && !IsSpace(ApologyMarker[|ApologyMarker| - 1])
  {
    assert |ApologyMarker| == 10;
    assert ApologyMarker[0] == 'क' && ApologyMarker[9] == 'ं';
  }

  /** A city that passes the test is one to three words. */
  lemma PlausibleCityWords(reply: string)
    requires PlausibleCity(Strip(reply))
    ensures 1 <= |Split(Strip(reply))| <= 3
  {
    var city := Strip(reply);
    StripEnds(reply);
    assert !IsSpace(city[0]);
    SplitEmptyIff(city);
  }

  /** A lookup error for a plausible city gives the not-found reply, which names the city
      and carries the marker. */
  lemma CityNotFound(svc: Services, query: Json)
    requires var city := Strip(GenerateGeminiResponse(svc, CityPrompt(query)));
      PlausibleCity(city) && svc.weather(city).LookupError?
    ensures var city := Strip(GenerateGeminiResponse(svc, CityPrompt(query)));
      HandleWeatherQuery(svc, query) == Answer(CityNotFoundReply(city)) &&
      Contains(CityNotFoundReply(city), city) && Contains(CityNotFoundReply(city), ApologyMarker)
  {
    var city := Strip(GenerateGeminiResponse(svc, CityPrompt(query)));
    ApologiesCarryMarker(city);
    ContainsOccurrence(ApologyMarker + ", मुझे '", city, "' शहर नहीं मिला।");
  }

  /** A report found for a plausible city is handed, with the city, to the model, and its
      reply is the answer. */
  lemma CityFound(svc: Services, query: Json)
    requires var city := Strip(GenerateGeminiResponse(svc, CityPrompt(query)));
      PlausibleCity(city) && svc.weather(city).Found?
    ensures var city := Strip(GenerateGeminiResponse(svc, CityPrompt(query)));
      HandleWeatherQuery(svc, query) == Answer(GenerateGeminiResponse(svc, WeatherPrompt(city, svc.weather(city).report)))
  {
  }

  // ---------------------------------------------------------------------------
  // Routing

  /** The words are tested in order, so an earlier word wins over a later one. */
  lemma RoutePrecedence(category: string)
    ensures RouteOf(category) == WeatherRoute <==> Contains(category, "weather")
    ensures RouteOf(category) == CropRoute <==> !Contains(category, "weather") && Contains(category, "crop")
    ensures RouteOf(category) == SchemeRoute <==>
      !Contains(category, "weather") && !Contains(category, "crop") &&
      (Contains(category, "scheme") || Contains(category, "yojana") || Contains(category, "sarkari"))
    ensures RouteOf(category) == ConversationRoute <==>
      !Contains(category, "weather") && !Contains(category, "crop") &&
      !Contains(category, "scheme") && !Contains(category, "yojana") && !Contains(category, "sarkari")
  {
  }

  /** A classifier reply that is already one lower-case word without padding is its own
      category. */
  lemma CategoryOfName(name: string)
    requires name != [] && !IsSpace(name[0]) && !IsSpace(name[|name| - 1])
    requires forall i :: 0 <= i < |name| ==> LowerChar(name[i]) == name[i]
    ensures Category(name) == name
  {
    assert LStrip(name) == name;
    assert RStrip(name) == name;
    assert Lower(name) == name;
  }

  // Each fact about a literal category name sits in a lemma of its own: together in one
  // context the solver keeps unfolding `Contains` on the literals.

  lemma WeatherIsCategory()
    ensures Category("weather") == "weather"
  {
    CategoryOfName("weather");
  }

  lemma WeatherHasWeather()
    ensures Contains("weather", "weather")
  {
    ContainsAt("weather", "weather", 0);
  }

  /** The category name "weather" goes to the weather handler. */
  lemma WeatherCategoryRoutes()
    ensures RouteOf(Category("weather")) == WeatherRoute
  {
    WeatherIsCategory();
    WeatherHasWeather();
    WeatherRouteOf("weather");
  }

  lemma WeatherRouteOf(category: string)
    requires Contains(category, "weather")
    ensures RouteOf(category) == WeatherRoute
  {
  }

  lemma CropIsCategory()
    ensures Category("crop_recommendation") == "crop_recommendation"
  {
    CategoryOfName("crop_recommendation");
  }

  lemma CropLacksWeather()
    ensures !Contains("crop_recommendation", "weather")
  {
    LacksChar("crop_recommendation", "weather", 0);
  }

  lemma CropHasCrop()
    ensures Contains("crop_recommendation", "crop")
  {
    ContainsAt("crop_recommendation", "crop", 0);
  }

  lemma CropRouteOf(category: string)
    requires !Contains(category, "weather") && Contains(category, "crop")
    ensures RouteOf(category) == CropRoute
  {
  }

  /** The category name "crop_recommendation" goes to the crop handler. */
  lemma CropCategoryRoutes()
    ensures RouteOf(Category("crop_recommendation")) == CropRoute
  {
    CropIsCategory();
    CropLacksWeather();
    CropHasCrop();
    CropRouteOf("crop_recommendation");
  }

  lemma SchemeIsCategory()
    ensures Category("government_scheme") == "government_scheme"
  {
    CategoryOfName("government_scheme");
  }

  lemma SchemeLacksWeather()
    ensures !Contains("government_scheme", "weather")
  {
    LacksChar("government_scheme", "weather", 0);
  }

  lemma SchemeLacksCrop()
    ensures !Contains("government_scheme", "crop")
  {
    LacksChar("government_scheme", "crop", 3);
  }

  lemma SchemeHasScheme()
    ensures Contains("government_scheme", "scheme")
  {
    ContainsAt("government_scheme", "scheme", 11);
  }

  lemma SchemeRouteOf(category: string)
    requires !Contains(category, "weather") && !Contains(category, "crop") && Contains(category, "scheme")
    ensures RouteOf(category) == SchemeRoute
  {
  }

  /** The category name "government_scheme" goes to the scheme handler. */
  lemma SchemeCategoryRoutes()
    ensures RouteOf(Category("government_scheme")) == SchemeRoute
  {
    SchemeIsCategory();
    SchemeLacksWeather();
    SchemeLacksCrop();
    SchemeHasScheme();
    SchemeRouteOf("government_scheme");
  }

  lemma ConversationIsCategory()
    ensures Category("general_conversation") == "general_conversation"
  {
    CategoryOfName("general_conversation");
  }

  lemma ConversationLacksWeather()
    ensures !Contains("general_conversation", "weather")
  {
    LacksChar("general_conversation", "weather", 0);
  }

  lemma ConversationLacksCrop()
    ensures !Contains("general_conversation", "crop")
  {
    LacksChar("general_conversation", "crop", 3);
  }

  lemma ConversationLacksScheme()
    ensures !Contains("general_conversation", "scheme")
  {
    LacksChar("general_conversation", "scheme", 2);
  }

  lemma ConversationLacksYojana()
    ensures !Contains("general_conversation", "yojana")
  {
    LacksChar("general_conversation", "yojana", 0);
  }

  lemma ConversationLacksSarkari()
    ensures !Contains("general_conversation", "sarkari")
  {
    LacksChar("general_conversation", "sarkari", 3);
  }

  lemma ConversationRouteOf(category: string)
    requires !Contains(category, "weather") && !Contains(category, "crop")
    requires !Contains(category, "scheme") && !Contains(category, "yojana") && !Contains(category, "sarkari")
    ensures RouteOf(category) == ConversationRoute
  {
  }

  /** The category name "general_conversation" goes to the conversation handler. */
  lemma ConversationCategoryRoutes()
    ensures RouteOf(Category("general_conversation")) == ConversationRoute
  {
    ConversationIsCategory();
    ConversationLacksWeather();
    ConversationLacksCrop();
    ConversationLacksScheme();
    ConversationLacksYojana();
    ConversationLacksSarkari();
    ConversationRouteOf("general_conversation");
  }

  /** Whitespace around the classifier's reply does not change the route. */
  lemma RouteIgnoresPadding(before: string, reply: string, after: string)
    requires AllSpace(before) && AllSpace(after)
    ensures RouteOf(Category(before + reply + after)) == RouteOf(Category(reply))
  {
    StripIgnoresPadding(before, reply, after);
  }

  // ---------------------------------------------------------------------------
  // process_voice

  /** The error answers, checked in this order: the method, the model, the body's JSON,
      the `text` field, and last anything that makes the generic handler fire. */
  lemma ProcessVoiceErrors(svc: Services, verb: Verb, body: Body)
    ensures verb != Post ==> ProcessVoice(svc, verb, body) == Json(405, "error", InvalidMethodError)
    ensures verb == Post && !svc.configured ==> ProcessVoice(svc, verb, body) == Json(500, "response", NotConfiguredReply)
    ensures verb == Post && svc.configured && body.NotJson? ==>
      ProcessVoice(svc, verb, body) == Json(400, "error", InvalidJsonError)
    ensures (verb == Post && svc.configured && body.Document? && body.value.JObject? &&
             ("text" !in body.value.fields || !Truthy(body.value.fields["text"]))) ==>
      ProcessVoice(svc, verb, body) == Json(400, "error", NoTextError)
    ensures verb == Post && svc.configured && (body.NotText? || (body.Document? && !body.value.JObject?)) ==>
      ProcessVoice(svc, verb, body) == Json(500, "error", InternalError)
  {
  }

  /** Every answer is JSON with one of the four statuses the view uses. */
  lemma ProcessVoiceStatus(svc: Services, verb: Verb, body: Body)
    ensures ProcessVoice(svc, verb, body).Json?
    ensures ProcessVoice(svc, verb, body).status in {200, 400, 405, 500}
  {
  }

  /** The answer is 200 exactly for a POST with a model, a JSON object with a truthy `text`
      and a handler that does not raise; the handler's text is then the response. */
  lemma ProcessVoiceSuccessIff(svc: Services, verb: Verb, body: Body)
    ensures (ProcessVoice(svc, verb, body).Json? && ProcessVoice(svc, verb, body).status == 200) <==>
      verb == Post && svc.configured && body.Document? && body.value.JObject? &&
      Truthy(TextField(body.value.fields)) && Answering(svc, TextField(body.value.fields)).Answer?
    ensures (verb == Post && svc.configured && body.Document? && body.value.JObject? &&
             Truthy(TextField(body.value.fields)) && Answering(svc, TextField(body.value.fields)).Answer?) ==>
      ProcessVoice(svc, verb, body) == Json(200, "response", Answering(svc, TextField(body.value.fields)).text)
  {
  }

  /** The weather service is consulted only on the weather route: any other route gives the
      same answer whatever the service would say. */
  lemma WeatherOnlyOnWeatherRoute(svc: Services, verb: Verb, body: Body, weather: string -> Lookup)
    requires body.Document? && body.value.JObject?
    requires RouteOf(Category(GenerateGeminiResponse(svc, ClassifyPrompt(TextField(body.value.fields))))) != WeatherRoute
    ensures ProcessVoice(svc.(weather := weather), verb, body) == ProcessVoice(svc, verb, body)
  {
    AnsweringIgnoresWeather(svc, weather, TextField(body.value.fields));
    SameAnswerSameResponse(svc, svc.(weather := weather), verb, body);
  }

  /** Two service bundles that agree on the model's presence and on the handler's outcome
      for the question give the same response. */
  lemma SameAnswerSameResponse(svc: Services, other: Services, verb: Verb, body: Body)
    requires other.configured == svc.configured
    requires body.Document? && body.value.JObject? ==>
      Answering(other, TextField(body.value.fields)) == Answering(svc, TextField(body.value.fields))
    ensures ProcessVoice(other, verb, body) == ProcessVoice(svc, verb, body)
  {
  }

  /** Off the weather route, the handler's outcome does not depend on the weather service. */
  lemma AnsweringIgnoresWeather(svc: Services, weather: string -> Lookup, query: Json)
    requires RouteOf(Category(GenerateGeminiResponse(svc, ClassifyPrompt(query)))) != WeatherRoute
    ensures Answering(svc.(weather := weather), query) == Answering(svc, query)
  {
    var other := svc.(weather := weather);
    SameModel(svc, other, ClassifyPrompt(query));
    var route := RouteOf(Category(GenerateGeminiResponse(svc, ClassifyPrompt(query))));
    HandleIgnoresWeather(svc, weather, route, query);
  }

  /** Two service bundles with the same model give the same reply to every prompt. */
  lemma SameModel(svc: Services, other: Services, prompt: Prompt)
    requires other.configured == svc.configured && other.gemini == svc.gemini
    ensures GenerateGeminiResponse(other, prompt) == GenerateGeminiResponse(svc, prompt)
  {
  }

  /** The crop, scheme and conversation handlers do not consult the weather service. */
  lemma HandleIgnoresWeather(svc: Services, weather: string -> Lookup, route: Route, query: Json)
    requires route != WeatherRoute
    ensures Handle(svc.(weather := weather), route, query) == Handle(svc, route, query)
  {
    var other := svc.(weather := weather);
    match route
    case CropRoute => SameModel(svc, other, CropPrompt(query));
    case SchemeRoute => SameModel(svc, other, SchemePrompt(query));
    case ConversationRoute => SameModel(svc, other, ConversationPrompt(query));
  }

  // ---------------------------------------------------------------------------
  // get_greeting

  /** The greeting is the fallback exactly when the reply carries the apology marker, and
      the reply itself otherwise. */
  lemma GreetingFallback(svc: Services)
    ensures Contains(GenerateGeminiResponse(svc, GreetingPrompt), ApologyMarker) ==>
      GetGreeting(svc) == Json(200, "greeting", FallbackGreeting)
    ensures !Contains(GenerateGeminiResponse(svc, GreetingPrompt), ApologyMarker) ==>
      GetGreeting(svc) == Json(200, "greeting", GenerateGeminiResponse(svc, GreetingPrompt))
  {
  }

  /** A failed or unconfigured model gives the fallback greeting. */
  lemma GreetingWithoutModel(svc: Services)
    requires !svc.configured || svc.gemini(GreetingPrompt).Raised?
    ensures GetGreeting(svc) == Json(200, "greeting", FallbackGreeting)
  {
    GenerateFallsBack(svc, GreetingPrompt);
  }

  /** Whatever the model says, the greeting never carries the apology marker. */
  lemma GreetingNeverApologises(svc: Services)
    ensures !Contains(GetGreeting(svc).value, ApologyMarker)
  {
    FallbackLacksMarker();
  }

  lemma FallbackLacksMarker()
    ensures !Contains(FallbackGreeting, ApologyMarker)
  {
    assert ApologyMarker[2] == 'ष';
    MissingCharExcludes(FallbackGreeting, ApologyMarker, 'ष');
  }
}
