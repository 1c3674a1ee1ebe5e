# AgriPath core, modelled in Dafny

AgriPath is a Django site for Indian farmers. This project models and proves properties of its core pieces:

- **Crop recommender** (`core/crop_model.py`), module `CropModel`.
  - Start-up either loads the saved random forest and label encoder or trains and saves them.
  - `predict_suitable_crops` then turns one probability vector into at most eight crop names. It keeps the crops above 5 %, sorts them by probability with Python's stable sort, and names each through the classifier's `classes_` and the encoder.
- **Profile-completion middleware** (`accounts/middleware.py`), module `ProfileMiddleware`. A signed-in user with no location is sent to the profile set-up page, except on that page and on the logout page.
- **Phone sign-in** (`accounts/views.py`), module `Accounts`, written as a class `Site` over the session, the users' profiles and the signed-in user.
  - `request_otp` stores the phone number and a six-digit code in the session.
  - `verify_otp` checks the code, signs the user in and clears both keys.
  - `setup_profile` records the location.
- **Voice assistant** (`core/views.py`), module `Assistant`.
  - `generate_gemini_response` falls back to fixed apologies when the model is missing or fails.
  - `handle_weather_query` sanity-checks the city the model extracted.
  - `process_voice` validates the request, classifies the question and routes it by the category's wording.
  - `get_greeting` falls back to a fixed greeting.

Supporting modules:

- `PyText`: the Python `str` operations the views rely on (`strip`, `split`, `lower`, `in`), with their properties.
- `Http`: the response shapes.
- `Wrappers`: `Option`.

Outside inputs the model does not compute are parameters:

- the classifier's probability vector, or the fact that `predict_proba` raised;
- the contents of the model, encoder and data files;
- the language model's reply to each prompt, as a function `Prompt -> Reply`;
- the weather service's answer for each city;
- the random code, as a nondeterministic choice in range;
- whether the submitted forms validated, with their cleaned values.

Three behaviours of the code are easy to misread from its comments:

- On an inference failure the code returns `["Prediction Failed"]`, not an empty list (`core/crop_model.py:97-99`).
- Equal probabilities keep their order in the probability vector, because Python's sort is stable (`core/crop_model.py:92`).
- The code keeps eight names and uses a 5 % threshold, while its docstring says five and its comment says 10 % (`core/crop_model.py:73`, `core/crop_model.py:86-87`, `core/crop_model.py:95`).

One behaviour of `verify_otp` follows from Django's `login`, which empties the session when a different user was signed in. After that, `del request.session['phone_number']` (`accounts/views.py:75`) raises `KeyError`. A correct code typed over someone else's sign-in therefore gives a server error. Django's session middleware does not save the session on a server error, and the flushed session is gone from the store, so the visitor is left with an empty session and nobody signed in. `Accounts.Site.VerifyOtp` and `Accounts.SignIn` state this case.

## Model

| member | source | states |
|---|---|---|
| PyText.IsSpace | core/views.py:65 | The characters Python's `str.isspace()` accepts, which `strip()` and `split()` remove or cut at. |
| PyText.Strip | core/views.py:65 | `strip()` as `rstrip()` of `lstrip()`; `StripIsTrimmedSlice`, `StripEnds`, `StripEmptyIff`, `StripKeepsInner` and `StripIgnoresPadding` state its properties. |
| PyText.Split | core/views.py:67 | `split()` with no separator; `SplitSpec`, `SplitCuts` and `SplitEmptyIff` state its properties. |
| PyText.Contains | core/views.py:67 | The `in` substring test; `ContainsIff` states it as an occurrence at some position. |
| PyText.LStrip | core/views.py:65 | `lstrip()` returns a suffix of its input that does not start with whitespace (Python's `isspace` set). |
| PyText.LStripDropsSpaces | core/views.py:65 | Everything `lstrip()` drops is whitespace. |
| PyText.RStrip | core/views.py:65 | `rstrip()` returns a prefix of its input that does not end with whitespace. |
| PyText.RStripDropsSpaces | core/views.py:65 | Everything `rstrip()` drops is whitespace. |
| PyText.StripIsTrimmedSlice | core/views.py:65 | `strip()` returns the piece of its input that starts where `lstrip()` starts, with only whitespace before and after it. |
| PyText.StripEnds | core/views.py:65 | A non-empty `strip()` starts and ends with a non-whitespace character. |
| PyText.StripEmptyIff | core/views.py:67 | `strip()` is empty exactly when the input is all whitespace. |
| PyText.StripKeepsInner | core/views.py:65-67 | An occurrence of a substring that starts and ends with a non-whitespace character survives `strip()`. |
| PyText.StripIgnoresPadding | core/views.py:160 | Whitespace added before and after a text does not change its `strip()`. |
| PyText.Lower | core/views.py:160 | `lower()` keeps the length and maps each ASCII capital to its small letter, character by character. |
| PyText.ContainsIff | core/views.py:67 | `sub in s` holds exactly when `sub` occurs at some position of `s`. |
| PyText.ContainsOccurrence | core/views.py:137 | A text built around `sub` contains `sub`. |
| PyText.MissingCharExcludes | core/views.py:164-168 | `sub in s` fails when some character of `sub` is absent from `s`. |
| PyText.LacksChar | core/views.py:164-168 | The same, naming the absent character by its position in `sub`. |
| PyText.SplitSpec | core/views.py:67 | `split()` yields non-empty words without whitespace, whose concatenation is the input with its whitespace removed. |
| PyText.SplitWords | core/views.py:67 | Every word `split()` yields is non-empty and free of whitespace. |
| PyText.SplitConcat | core/views.py:67 | The words `split()` yields, joined, are the input with its whitespace removed. |
| PyText.SplitEmptyIff | core/views.py:67 | `split()` yields no words exactly when the input is all whitespace. |
| PyText.SplitCuts | core/views.py:67 | `split()` cuts exactly at whitespace: leading whitespace, then a whole word ending at whitespace or at the end, gives that word followed by the words of the rest. With `SplitEmptyIff` this fixes the word count the city test reads. |
| CropModel.Ranking | core/crop_model.py:72-99 | `predict_suitable_crops` on its inputs: `[]` without a model, `["Prediction Failed"]` on any exception, otherwise the top eight names; `RankingWithoutModel`, `RankingFailure`, `RankingSuccess` and `RankedEntriesValid`/`Complete` state its properties. |
| CropModel.Candidates | core/crop_model.py:84-89 | The `for` loop's list of kept positions, or failure when a decode raises; the `Candidates*` lemmas state its properties. |
| CropModel.CropAt | core/crop_model.py:88 | `inverse_transform([model.classes_[i]])[0]`, or none when that raises. |
| CropModel.SortByProbability | core/crop_model.py:92 | The stable descending sort; `SortByProbabilitySpec` and `RankedUnique` state what it returns. |
| CropModel.Encode | core/crop_model.py:41 | `transform` of one label: its position in `classes_`, or none for an unseen label; `DecodeEncodeTrainingLabel` and `EncodeDecodeId` relate it to `Decode`. |
| CropModel.Decode | core/crop_model.py:88 | `inverse_transform` of one ID: the label at that position, or none when out of range. |
| CropModel.FitTransform | core/crop_model.py:41 | `fit_transform`: the encoder over the sorted distinct labels and the ID column; `FitTransformDecodes` states its properties. |
| CropModel.ModelPresent | core/crop_model.py:74 | The truth value of `CROP_PREDICTOR_MODEL`: a forest with at least one tree. |
| CropModel.FeatureRow | core/crop_model.py:78 | The one-row frame has the seven FEATURES in order. A cell holds the record's value, or is missing when the record lacks that feature. |
| CropModel.FeatureRowIgnoresOtherKeys | core/crop_model.py:78 | Keys outside FEATURES do not change the row. |
| CropModel.SortedLabels | core/crop_model.py:41-42 | The encoder's `classes_` are strictly ascending in code-point order and hold exactly the distinct training labels. |
| CropModel.StrictlySortedUnique | core/crop_model.py:41-42 | `classes_` is determined by the label set: two strictly sorted lists with the same labels are equal. |
| CropModel.IndexOf | core/crop_model.py:41 | The lookup behind `transform` returns a position holding the label, and returns none exactly for an unseen label. |
| CropModel.EncodeAll | core/crop_model.py:41 | The ID column has one in-range ID per row, and that ID names the row's label. |
| CropModel.DecodeEncodeTrainingLabel | core/crop_model.py:41 | Decoding the encoding of any training label gives that label back. |
| CropModel.EncodeDecodeId | core/crop_model.py:88 | Every class ID decodes to a label that encodes back to the same ID. |
| CropModel.FitTransformDecodes | core/crop_model.py:41 | `fit_transform`'s ID column decodes row by row to the label column, and every class ID occurs in it. |
| CropModel.EncodeAllCovers | core/crop_model.py:41 | Every class ID occurs in the encoded column. |
| CropModel.Train | core/crop_model.py:49-50 | The fitted forest's `classes_` are the distinct IDs of `y` in ascending order. It has 100 trees and seed 42. |
| CropModel.TrainedClassesAlign | core/crop_model.py:40-50 | A forest trained on the encoded column has `classes_ == [0, ..., k-1]` for the encoder's `k` classes. |
| CropModel.CandidatesFailureSticks | core/crop_model.py:85-89 | Once a kept position fails to decode, the loop fails: the exception ends it. |
| CropModel.CandidatesSucceedIff | core/crop_model.py:85-89 | The loop succeeds exactly when every position above 0.05 decodes. Positions at or below 0.05 are never decoded. |
| CropModel.CandidatesEntries | core/crop_model.py:85-89 | The collected entries are in position order. Each is a position above 0.05 with its probability and the crop its `classes_` ID decodes to. |
| CropModel.CandidatesComplete | core/crop_model.py:85-89 | Every position above 0.05 has an entry. |
| CropModel.InsertByProbabilityPermutes | core/crop_model.py:92 | One insertion step adds exactly the inserted entry. |
| CropModel.InsertByProbabilitySpec | core/crop_model.py:92 | Inserting an entry that comes later in the vector keeps the list ranked. |
| CropModel.SortByProbabilitySpec | core/crop_model.py:92 | The sort returns a permutation of its input, ordered by descending probability with ties in vector order. |
| CropModel.RankedUnique | core/crop_model.py:92 | Two ranked permutations of the same entries are equal, so the stable `sort(reverse=True)` result is determined. |
| CropModel.TopNames | core/crop_model.py:95 | The names are those of the first `min(8, n)` entries, in order. |
| CropModel.RankingWithoutModel | core/crop_model.py:74-75 | With no model, or a forest without trees (false in Python), the result is `[]`. |
| CropModel.TrainedModelIsLoaded | core/crop_model.py:49-51 | A trained forest is never false in the `not CROP_PREDICTOR_MODEL` test. |
| CropModel.RankingFailure | core/crop_model.py:77-99 | With a model, the result is `["Prediction Failed"]` when `predict_proba` raises or a kept position cannot be decoded. Otherwise it has at most eight names. |
| CropModel.RankingSuccess | core/crop_model.py:85-95 | On success the result is the names of the first `min(8, n)` ranked entries, which are ordered by descending probability with ties in vector order. |
| CropModel.RankedEntriesValid | core/crop_model.py:87-89 | Each ranked entry has a probability strictly above 0.05 and is named `encoder.classes_[model.classes_[index]]`. |
| CropModel.RankedEntriesComplete | core/crop_model.py:85-89 | Every position above 0.05 has its ranked entry. |
| CropModel.PredictSuitableCrops | core/crop_model.py:72-99 | The loop, sort and cut compute exactly the ranking above, so every property of `Ranking` holds of the method's result. |
| CropModel.RiceWheatScenario | core/crop_model.py:85-95 | Probabilities 0.02, 0.5, 0.48 for Maize, Rice, Wheat give `["Rice", "Wheat"]`. |
| CropModel.TieKeepsVectorOrderScenario | core/crop_model.py:88-92 | A tie keeps vector order, and position 0 holding class ID 1 is named by that ID. |
| CropModel.CropModelStore.constructor | core/crop_model.py:14-16 | The three globals start empty. |
| CropModel.CropModelStore.LoadAndTrainModel | core/crop_model.py:20-55 | The saved pair is loaded when both files exist. Otherwise nothing changes without a data file, an empty data file leaves an empty encoder and the model as it was, and rows give a trained forest aligned with the encoder and saved with it. `ALL_CROPS` is always the encoder's classes. |
| CropModel.LoadAfterTrainIsIdempotent | core/crop_model.py:24-29 | After training or loading, a second start-up loads the saved pair and leaves the model, the label encoder and `ALL_CROPS` as they were. |
| ProfileMiddleware.Decide | accounts/middleware.py:9-16 | The nested test: redirect or pass through; `RedirectIff` states it. |
| ProfileMiddleware.Call | accounts/middleware.py:9-19 | `__call__`: the redirect, or `get_response(request)`; the pass-through lemmas below state its properties. |
| ProfileMiddleware.AnonymousPassesThrough | accounts/middleware.py:10-19 | An anonymous request gets exactly what `get_response` returns. |
| ProfileMiddleware.CompleteProfilePassesThrough | accounts/middleware.py:12 | A signed-in user with a location gets exactly what `get_response` returns. |
| ProfileMiddleware.AllowedPathPassesThrough | accounts/middleware.py:14-15 | An incomplete profile still reaches the set-up and logout pages. |
| ProfileMiddleware.IncompleteProfileRedirects | accounts/middleware.py:15-16 | An incomplete profile on any other path is redirected to `setup_profile`, whatever `get_response` would return. |
| ProfileMiddleware.RedirectIff | accounts/middleware.py:10-16 | The redirect happens exactly for a signed-in user with an empty location who is off the two allowed paths. |
| ProfileMiddleware.PassThroughIsDownstream | accounts/middleware.py:18-19 | Without a redirect, the response is exactly `get_response`'s. |
| Accounts.Site.constructor | accounts/views.py:20-104 | A site over a given session, set of profiles and signed-in user that satisfies the invariant. |
| Accounts.Site.RequestOtp | accounts/views.py:20-48 | A valid POST stores the phone and a code with 100000 <= code <= 999999 and redirects to `verify_otp`, whatever the SMS outcome. Other requests render the form with the session unchanged. The invariant is kept. |
| Accounts.Site.VerifyOtp | accounts/views.py:51-82 | A missing or falsy phone or code redirects to `request_otp` with nothing changed. A matching code signs in the phone's user, creating it with the phone on its profile only when new, removes both keys and redirects to `setup_profile`. If a different user was signed in, the answer is a server error and the visitor is left with an empty session and nobody signed in; the new user's profile is still created. A wrong code re-renders with the error and changes nothing. A non-integer code is a server error. |
| Accounts.Site.SetupProfile | accounts/views.py:85-104 | An anonymous visitor goes to login. A profile with a location goes to `ai` unless `force` is non-empty. A valid POST saves the location and redirects to `index`. Anything else renders the form. |
| Accounts.SignIn | accounts/views.py:24-77 | Requesting a code and typing the stored one creates the phone's user if needed and leaves neither key in the session. The second step signs that user in and redirects to `setup_profile`, except over another user's sign-in, where it is a server error that leaves the session empty and nobody signed in. |
| Accounts.CodeIsSingleUse | accounts/views.py:52-76 | After a code has been accepted, verifying again redirects to `request_otp`. |
| Assistant.GenerateGeminiResponse | core/views.py:26-35 | The model's text, or one of the two fixed apologies; `GenerateFallsBack` states it. |
| Assistant.HandleWeatherQuery | core/views.py:63-86 | The city test, then the lookup; the city lemmas below state its outcomes. |
| Assistant.Category | core/views.py:160 | `.strip().lower()` of the classifier's reply; `RouteIgnoresPadding` and the category lemmas use it. |
| Assistant.RouteOf | core/views.py:164-171 | The `if`/`elif` chain; `RoutePrecedence` states it. |
| Assistant.ProcessVoice | core/views.py:142-179 | The view as a whole; `ProcessVoiceErrors`, `ProcessVoiceStatus`, `ProcessVoiceSuccessIff` and `WeatherOnlyOnWeatherRoute` state its properties. |
| Assistant.GetGreeting | core/views.py:132-139 | The greeting view; the three greeting lemmas state its properties. |
| Assistant.ApologiesCarryMarker | core/views.py:27-35 | Both apologies and the city-not-found reply contain the marker "क्षमा करें". |
| Assistant.GenerateFallsBack | core/views.py:26-35 | Without a model the reply is the first apology, and a raising call gives the second. Otherwise the model's text is returned as it came. Both fallbacks contain the marker. |
| Assistant.UnclearCityIsRefused | core/views.py:67-68 | An empty city, one containing the marker, or one of more than three words gets the "clear city" reply, and the weather service is not consulted. |
| Assistant.FailedCityExtractionIsRefused | core/views.py:64-68 | When the city question fails, the apology is never taken for a city. |
| Assistant.PlausibleCityWords | core/views.py:67 | A city that passes the test has one to three words. |
| Assistant.CityNotFound | core/views.py:70-72 | A lookup error gives the not-found reply, which names the city and contains the marker. |
| Assistant.CityFound | core/views.py:70-86 | A found report is summarised by the model from the city and that report. |
| Assistant.RoutePrecedence | core/views.py:164-171 | The route is weather when the category contains "weather". It is crop when the category contains "crop" but not "weather". It is scheme when it contains "scheme", "yojana" or "sarkari" and neither earlier word. Otherwise it is conversation. |
| Assistant.WeatherCategoryRoutes | core/views.py:157-165 | The category name "weather" routes to the weather handler. |
| Assistant.CropCategoryRoutes | core/views.py:157-167 | "crop_recommendation" routes to the crop handler. |
| Assistant.SchemeCategoryRoutes | core/views.py:157-169 | "government_scheme" routes to the scheme handler. |
| Assistant.ConversationCategoryRoutes | core/views.py:157-171 | "general_conversation" routes to conversation. |
| Assistant.RouteIgnoresPadding | core/views.py:160 | Whitespace around the classifier's reply does not change the route. |
| Assistant.ProcessVoiceErrors | core/views.py:143-179 | The error answers, in this order: non-POST gives 405, no model gives 500, invalid JSON gives 400, missing or falsy `text` gives 400, and undecodable bytes or a non-object document give 500. |
| Assistant.ProcessVoiceStatus | core/views.py:142-179 | Every answer is JSON with status 200, 400, 405 or 500. |
| Assistant.ProcessVoiceSuccessIff | core/views.py:148-173 | The status is 200 exactly for a POST with a model, an object with a truthy `text`, and a handler that does not raise. The answer is then that handler's text. |
| Assistant.WeatherOnlyOnWeatherRoute | core/views.py:164-171 | Off the weather route the answer does not depend on the weather service. |
| Assistant.GreetingFallback | core/views.py:136-139 | The greeting is the fallback exactly when the reply contains the marker, and the reply itself otherwise. |
| Assistant.GreetingWithoutModel | core/views.py:132-139 | A missing or failing model gives the fallback greeting. |
| Assistant.GreetingNeverApologises | core/views.py:137-139 | Whatever the model says, the greeting never contains the marker. |

## Left out

Crop recommender:

- The random forest's training and `predict_proba` are not modelled, because they are library numerics. The model sees the forest only through `classes_` and treats the probability vector as an input.
- Probabilities are real numbers, not 64-bit floats, so the 0.05 comparison is exact.
- Reading the CSV, `joblib.load` and `joblib.dump` are outside the model.
  - A file is present or absent with abstract contents, and the data file is seen only through its label column.
  - A `joblib.load` that raises is not modelled.
- When the data file has no rows, `fit` raises and the exception escapes `load_and_train_model` at import time. The model records only the globals that this leaves behind.
- `CropModel.FeatureRow` models the one-row frame handed to `predict_proba` (`core/crop_model.py:78`). Because `predict_proba` is not modelled, `Ranking` takes the probability vector as an input and does not use the row.
- `get_soil_data_by_location` returns random mock values and has no behaviour to state.

Profile-completion middleware and sign-in:

- `reverse` is not modelled. The middleware compares against the paths of `accounts/urls.py` under the `/accounts/` prefix. `redirect(name)` is modelled by the URL name, so `redirect('index')` and the missing `include` of the accounts URLs in `mypage/urls.py` are not checked.
- Django's `login` is modelled as setting the signed-in user. Its session flush when a different user was signed in, followed by the server error that the session middleware does not save, is modelled as an empty session with nobody signed in. This holds for a server-side session store; with cookie-backed sessions the old cookie, and so the old user, would survive, which is not modelled. Its key rotation and the authentication keys it writes into the session are not modelled.
- `Profile.phone_number` is unique in the database; the failure this uniqueness can cause on save is not modelled.
- Form validation is not modelled: the phone-number library, the OTP `CharField` and `ProfileEditForm`. A form is accepted or rejected, with its cleaned value, and only `location` of `ProfileEditForm` is kept.
- Sending the text message through Twilio is a parameter. The response does not depend on it.
- `custom_logout` and `view_profile` are outside the modelled core.

Voice assistant:

- The wording of the prompts is not modelled. Each prompt is a value naming its purpose and what it carries.
- `get_weather_data` is a parameter returning a report, an error message or an uncaught exception, because it is an HTTP call.
- `assistant_page` is outside the modelled core, because it only renders a template.

Text operations:

- `PyText.Lower`: Python's `lower()` folds every Unicode letter. The model folds ASCII only and leaves every other character unchanged. Some non-ASCII characters lower to ASCII in Python (the Kelvin sign U+212A to `k`, U+0130 to `i` followed by a combining dot), so `Assistant.Category` and `Assistant.RouteOf` on a model reply containing them can differ from the code.
- Printing and logging are not modelled.

`home/views.py` is not part of this model.
