# BeGainer front end: verified model of its validators and handlers

BeGainer is a React Native fitness app. This project models the part of its
front end that holds decisions of its own, as opposed to rendering, animation
and remote calls:

- `ApiService`: the HTTP client. It turns a `Response` into a payload or into
  an `Error` (`handleApiResponse`). It also builds the requests sent by
  `loginUser`, `registerUser` and `fetchUserPreferences`.
- `AuthScreen`: the e-mail and password validators, which are proved equal to
  the languages of their regular expressions. It also models the order of
  the checks in `handleAuth` and what `handleAuth` keeps from the server's
  answer: the user id, the token and the name it stores, the follow-up name
  request, and where it navigates.
- `Questionnaire`: the nickname rules of `validateName`. A name is stored
  only when it is valid.
- `Questionnaire5`: the training-day toggle and the guards of `handleSubmit`.
  The submitted payload carries the days sorted in place.
- `UserProfile`: `formatTrainingDays`, the translate-or-fall-back display
  of the goal and the training place, and `handleLogout`.
- `EditUserPreferences`: `validateForm` and its per-field error map, the
  normalisation of fetched preferences, the slider and select handlers,
  `loadInitialData` and the guards of `handleSubmit`.

Shared modules:

- `Common`: optional values, JavaScript truthiness, regex character
  classes, decimal rendering and ASCII lower-casing.
- `Storage`: `AsyncStorage` as a map.
- `Json`: parsed JSON values and `String(value)`.
- `Sorting`: `array.sort((a, b) => a - b)`, both as a function on
  sequences and as an in-place insertion sort on an array.

How the program's pieces are represented:

- React state is a class with fields, and each handler is a method that
  assigns those fields.
- Storage, `fetch`, the router and `Alert` are not called. A handler takes
  the stored values and the settled outcome of each remote call as
  parameters. It returns the requests it makes, the new store, the alert it
  shows and the navigation it asks for.
- `JSON.parse` is an abstract parameter `parse: string -> Option<Json>`.
  `parseInt(s, 10)` is an abstract `parseInt: string -> int`.
- Strings are sequences of UTF-16 code units. One `char` stands for one code unit.

## Model

| member | source | states |
|---|---|---|
| ApiService.HandleApiResponse | app/services/apiService.ts:22-60 | An ok response with an empty body yields undefined. An unparseable body fails with "format inattendu" when the status is ok, and with "Erreur serveur (status). Réponse non lisible." otherwise. A non-ok response never yields a payload. With a readable body it fails in one of three ways. If the body has no truthy `error`, it fails with "Erreur lors de la requête (status).". If the `error` can be converted, it fails with `String` of that `error`. If not, it fails with the engine's `TypeError`, and only in that case. An ok response returns its parsed body unchanged. A payload comes back exactly when the status is ok and the body was empty or parsed. | |
| ApiService.ReportedError | app/services/apiService.ts:55 | The result is `dataJson?.error` itself, and it is present exactly when the body is an object whose `error` property is truthy. |
| ApiService.UnreadableMessageNamesStatus | app/services/apiService.ts:37-39 | Two different statuses never give the same "non lisible" message: the status can be read back from it. |
| ApiService.GenericFailureMessageNamesStatus | app/services/apiService.ts:54-56 | Two different statuses never give the same generic failure message. |
| ApiService.Credentials | app/services/apiService.ts:69 | The body object has exactly the keys `email` and `password`. |
| ApiService.LoginRequest | app/services/apiService.ts:62-72 | A POST to the base URL + "/auth/login" with the JSON content type, whose body gives back the e-mail and password it was built from. |
| ApiService.RegisterRequest | app/services/apiService.ts:74-84 | A POST to the base URL + "/auth/register" with the JSON content type, whose body gives back the e-mail and password. |
| ApiService.FetchPreferencesRequest | app/services/apiService.ts:86-99 | A GET without a body. The user id can be read back from the URL after base + "/user-preferences/". The headers are exactly the JSON content type and `Authorization: Bearer <token>`, and the token can be read back from them. |
| ApiService.EndpointsDiffer | app/services/apiService.ts:62-99 | Login and register URLs differ, and neither is read as a preferences URL. |
| Json.StringOf | app/services/apiService.ts:54-56 | `String(value)` fails exactly when the value cannot be converted. That is an object owning a "toString" key, or an array holding such a value. A string is kept as it is, and an object without its own "toString" gives "[object Object]". |
| Json.OwnToStringNotConvertible | app/services/apiService.ts:51-56 | `{"toString":"x"}` and `[{"toString":1}]` cannot be converted, and `[null,"a"]` converts to ",a". |
| Common.OrElse | components/screens/auth/AuthScreen.tsx:123 | `a \|\| b` is `a` when `a` is truthy. Otherwise it is `b`. It is truthy exactly when `a` or `b` is. |
| Common.NatToString | app/services/apiService.ts:38 | A status is rendered as a non-empty run of decimal digits. |
| Common.NatToStringRoundTrip | app/services/apiService.ts:38 | Reading the rendered digits back gives the status. |
| Common.NatToStringInjective | app/services/apiService.ts:38 | Different statuses render differently. |
| Common.LowerChar | components/screens/user/UserProfile.tsx:227 | An upper-case ASCII letter becomes its lower-case letter, 32 code units on. Every other character is unchanged, and the result is never an upper-case ASCII letter. |
| Common.Lower | components/screens/user/UserProfile.tsx:227 | `Lower` keeps the length and leaves no upper-case ASCII letter. |
| Common.LowerIdempotent | components/screens/user/UserProfile.tsx:227 | Lower-casing an already lower-cased value changes nothing. |
| Common.LowerEqual | components/screens/user/UserProfile.tsx:227 | Two values have the same lower case exactly when they have the same length and agree position by position up to ASCII case. |
| Storage.Set | components/screens/auth/AuthScreen.tsx:95 | `setItem` changes that key only. |
| Storage.RemoveAll | components/screens/user/UserProfile.tsx:145 | `multiRemove` deletes the given keys and leaves every other key as it was. |
| Sorting.Insert | components/screens/user/UserProfile.tsx:164 | Inserting adds exactly one occurrence of the value. |
| Sorting.SortAsc | components/screens/user/UserProfile.tsx:164 | The numeric sort is ascending, has the same elements with the same multiplicities, and has the same length. |
| Sorting.SortedPermutationUnique | components/screens/user/UserProfile.tsx:164 | Two ascending sequences with the same elements are equal, so "sorted and a permutation" determines the result. |
| Sorting.SortAscSameElements | components/screens/questionnaires/Questionnaire5.tsx:103 | A value occurs in the sorted days iff it occurs in the days. |
| Sorting.SortedDistinct | components/screens/questionnaires/Questionnaire5.tsx:103 | Days without duplicates sort to a strictly increasing sequence. |
| Sorting.SortInPlace | components/screens/user/UserProfile.tsx:164 | `sort` reorders the array itself, leaving it equal to the ascending sort of its old contents. |
| AuthScreen.ValidateEmail | components/screens/auth/AuthScreen.tsx:31-34 | It is true exactly on the language of `/^[^\s@]+@[^\s@]+\.[^\s@]+$/`. That means: no whitespace, exactly one '@', a non-empty local part, and a domain with a '.' that is neither its first nor its last character. |
| AuthScreen.EmailSoundness | components/screens/auth/AuthScreen.tsx:31-34 | Every string the characterisation accepts is matched by the regex. |
| AuthScreen.EmailCompleteness | components/screens/auth/AuthScreen.tsx:31-34 | Every string the regex matches is accepted by the characterisation. |
| AuthScreen.ValidatePassword | components/screens/auth/AuthScreen.tsx:36-39 | It is true exactly on the language of `/^(?=.*[A-Za-z])(?=.*\d)[A-Za-z\d]{8,}$/`. |
| AuthScreen.PasswordEquivalence | components/screens/auth/AuthScreen.tsx:36-39 | The regex matches iff the password has 8 or more characters, all of them ASCII letters or digits, with at least one letter and at least one digit. |
| AuthScreen.FirstFailingCheck | components/screens/auth/AuthScreen.tsx:42-63 | The alert shown is that of the first failing check, in the order empty field, e-mail, password, confirmation. None is shown iff every check passes. The mismatch check applies in register mode only. |
| AuthScreen.ConfirmationIgnoredOnLogin | components/screens/auth/AuthScreen.tsx:60 | In login mode the confirmation field never changes the outcome. |
| AuthScreen.AuthSession | components/screens/auth/AuthScreen.tsx:72-92 | A login succeeds iff both the token and `user.id` are present. A register takes `id`, falling back to `user.id`, and fails iff both are absent. Each failure carries its exact message, and a thrown call error is passed through. |
| AuthScreen.ReadAuthReply | components/screens/auth/AuthScreen.tsx:67-92 | The `let` variables end up holding the session's user id, token and name exactly when no error is thrown. |
| AuthScreen.StoreIdentity | components/screens/auth/AuthScreen.tsx:94-113 | The user id, the token and the name are each stored only when truthy. A login with a token but no name requests the preferences and stores their name when it has one. No other key is touched. |
| AuthScreen.AuthForm.constructor | components/screens/auth/AuthScreen.tsx:24-28 | The form starts in login mode, with empty fields and not loading. |
| AuthScreen.AuthForm.HandleAuth | components/screens/auth/AuthScreen.tsx:41-128 | A failing check shows its alert and sends, stores and navigates nothing. Otherwise exactly one auth request is made first. A failed call or a missing identity shows "Erreur d'authentification" and stores nothing. On success the identity is stored, the optional name request follows, and the screen moves to the dashboard on login or to the questionnaire on register. |
| Questionnaire.HasForbiddenChar | components/screens/questionnaires/Questionnaire.tsx:43 | `/[^a-zA-Z0-9\s-]/.test` is true iff some character is outside letters, digits, whitespace and '-'. |
| Questionnaire.ValidateName | components/screens/questionnaires/Questionnaire.tsx:36-51 | A name is accepted iff its length is 3 to 15 and every character is allowed. Otherwise the message is the first failing rule, in the order too short, too long, bad character. |
| Questionnaire.SubmitName | components/screens/questionnaires/Questionnaire.tsx:53-59 | The name is stored, and the next step opened, exactly when it is valid. Otherwise the store is unchanged. |
| Questionnaire5.DayButtonValues | components/screens/questionnaires/Questionnaire5.tsx:23-31 | The day buttons toggle exactly the values 1 to 7. |
| Questionnaire5.Without | components/screens/questionnaires/Questionnaire5.tsx:60 | The filter removes every occurrence of the day and keeps every other value with its multiplicity. |
| Questionnaire5.WithoutConcat | components/screens/questionnaires/Questionnaire5.tsx:60 | Filtering a concatenation concatenates the filtered parts, so the filter keeps the order of the days it keeps. |
| Questionnaire5.Toggle | components/screens/questionnaires/Questionnaire5.tsx:57-63 | A chosen day is removed everywhere, and nothing else changes. A day not chosen is appended at the end. |
| Questionnaire5.ToggleTwiceRestores | components/screens/questionnaires/Questionnaire5.tsx:57-63 | Toggling a day that is not chosen twice gives back the original list. |
| Questionnaire5.TogglePreservesValidSelection | components/screens/questionnaires/Questionnaire5.tsx:57-63 | Toggling only button values keeps the choice free of duplicates and within 1 to 7. |
| Questionnaire5.DaySelectionScreen.constructor | components/screens/questionnaires/Questionnaire5.tsx:38-40 | The screen starts with a 60-minute session and no day chosen. |
| Questionnaire5.DaySelectionScreen.SetDuration | components/screens/questionnaires/Questionnaire5.tsx:148 | The slider sets the duration only. |
| Questionnaire5.DaySelectionScreen.ToggleDaySelection | components/screens/questionnaires/Questionnaire5.tsx:57-63 | The chosen days become their toggle, and the duration is unchanged. |
| Questionnaire5.DaySelectionScreen.HandleSubmit | components/screens/questionnaires/Questionnaire5.tsx:65-123 | A missing user id is refused first, then an empty choice; both send nothing and leave the days unsorted. Otherwise the state's days are sorted in place, and the payload carries the stored answers, the parsed or null numbers, the sorted days, `session_length` = duration and `milestone` = "default". The screen moves to the dashboard on success, or alerts with the error message or the fallback. |
| Questionnaire5.SubmittedDaysAreOrderedWeekdays | components/screens/questionnaires/Questionnaire5.tsx:103 | A choice made with the buttons is sent as strictly increasing days from 1 to 7. |
| UserProfile.DayLabel | components/screens/user/UserProfile.tsx:165-168 | A day from 1 to 7 shows `DAY_LABELS[d-1]`, and any other value shows "?". Every label is a single character. |
| UserProfile.FormatDays | components/screens/user/UserProfile.tsx:159-170 | The text is "-" exactly when there are no days. |
| UserProfile.JoinLayout | components/screens/user/UserProfile.tsx:169 | Joining one-character labels with ", " puts label i at position 3i, with ", " between labels and no trailing separator. |
| UserProfile.LabelsLayout | components/screens/user/UserProfile.tsx:163-169 | The joined labels of n days have length 3n-2 and follow the days' order. |
| UserProfile.FormatDaysLayout | components/screens/user/UserProfile.tsx:159-170 | The text has one label per day, duplicates included. The labels are in ascending order of the day numbers and separated by ", ". |
| UserProfile.FormatDaysOrderIndependent | components/screens/user/UserProfile.tsx:163-164 | The text does not depend on the order in which the days were stored. |
| UserProfile.FormatTrainingDays | components/screens/user/UserProfile.tsx:159-170 | A missing or empty array gives "-". Otherwise the array itself is left sorted and the text is that of its old contents. |
| UserProfile.TablesWellFormed | components/screens/user/UserProfile.tsx:172-182 | Neither translation table has an empty key or an empty text. |
| UserProfile.Display | components/screens/user/UserProfile.tsx:227-229 | A known lower-cased value shows its translation. Otherwise a non-empty raw value is shown as it is, and anything else shows "-". The shown text is never empty. |
| UserProfile.DisplayIgnoresCase | components/screens/user/UserProfile.tsx:227 | Values that differ only in ASCII case show the same translation. |
| UserProfile.GoalDisplay | components/screens/user/UserProfile.tsx:227-229 | The goal line follows that rule with the goal translations. |
| UserProfile.PlaceDisplay | components/screens/user/UserProfile.tsx:237-241 | The place line follows that rule with the training-place translations. |
| UserProfile.KnownValuesTranslated | components/screens/user/UserProfile.tsx:172-182 | Worked examples: "Lose Weight" and "GYM" are translated despite their case, "home_with_equipment" is translated, the unknown goal "yoga" is shown raw, and a missing place shows "-". The general rule is the contract of `GoalDisplay` and `PlaceDisplay`. |
| UserProfile.DisplayAsWritten | components/screens/user/UserProfile.tsx:227-229 | The bracket lookup as written agrees with `Display` except on the lower-cased keys inherited from `Object.prototype`, where it yields a non-text member. |
| UserProfile.InheritedKeyShownAsWritten | components/screens/user/UserProfile.tsx:227-229 | A goal stored as "Constructor" reaches `Object.prototype.constructor` instead of being shown. |
| UserProfile.ProfileScreen.constructor | components/screens/user/UserProfile.tsx:45-53 | The profile starts loading, with nothing known. |
| UserProfile.ProfileScreen.HandleLogout | components/screens/user/UserProfile.tsx:143-153 | The session keys (token, userId, name, userEmail) are removed and every other key stays. Preferences and program become null, sessions become empty, name and e-mail become null, loading ends, and the screen is replaced by "/". |
| EditUserPreferences.WithNumber | components/screens/user/EditUserPreferences.tsx:117 | `{...prev, [field]: value}` sets that numeric field and no other. |
| EditUserPreferences.WithText | components/screens/user/EditUserPreferences.tsx:125 | `{...prev, [field]: value}` sets that text field and no other. |
| EditUserPreferences.FieldMessage | components/screens/user/EditUserPreferences.tsx:133-159 | Every field's error message is non-empty, so it counts as truthy. |
| EditUserPreferences.AcceptableIffNoFieldFails | components/screens/user/EditUserPreferences.tsx:131-162 | The form passes iff the goal and place are non-empty, 120≤height≤230, 30≤weight≤200, 1≤freq≤7 and 30≤length≤120. |
| EditUserPreferences.UpdateKeepsOtherVerdicts | components/screens/user/EditUserPreferences.tsx:123-129 | Changing one field does not change the check on any other field. |
| EditUserPreferences.BoundsInclusive | components/screens/user/EditUserPreferences.tsx:136-159 | For every record: each numeric bound is accepted, the value just past it fails, and a null number always fails. |
| EditUserPreferences.CollectErrors | components/screens/user/EditUserPreferences.tsx:131-159 | The `errors` object holds exactly the failing fields, each with its own message. |
| EditUserPreferences.NumberOr | components/screens/user/EditUserPreferences.tsx:83-84 | `v \|\| fallback` keeps a truthy stored number and is otherwise the fallback. It is truthy whenever the fallback is. |
| EditUserPreferences.Normalize | components/screens/user/EditUserPreferences.tsx:81-98 | A null or 0 height, weight, frequency or length becomes 170, 70, 3 or 60. The goal passes through. "home_with_equipment" becomes "home_no_equipment", and every other place passes through. |
| EditUserPreferences.NormalizeIdempotent | components/screens/user/EditUserPreferences.tsx:81-98 | After loading, every number is non-zero and the equipment place is gone, and normalising again changes nothing. |
| EditUserPreferences.DefaultsPassValidation | components/screens/user/EditUserPreferences.tsx:40-47 | A default that replaces a missing number lies within that field's bounds. |
| EditUserPreferences.EditPreferencesScreen.constructor | components/screens/user/EditUserPreferences.tsx:51-62 | The screen starts loading with the initial preferences and no errors. |
| EditUserPreferences.EditPreferencesScreen.LoadInitialData | components/screens/user/EditUserPreferences.tsx:64-111 | Without a user id and a token it shows "Utilisateur non authentifié.", goes home and fetches nothing. Otherwise it fetches with them. A thrown error or a returned `error` is shown and keeps the old preferences, and a clean answer is normalised onto the screen. Loading always ends. |
| EditUserPreferences.EditPreferencesScreen.SliderChange | components/screens/user/EditUserPreferences.tsx:113-121 | The slider sets only its field and clears only that field's error. |
| EditUserPreferences.EditPreferencesScreen.SelectNumber | components/screens/user/EditUserPreferences.tsx:123-129 | The handler sets only its numeric field and clears only that field's error. |
| EditUserPreferences.EditPreferencesScreen.SelectText | components/screens/user/EditUserPreferences.tsx:123-129 | The handler sets only its text field and clears only that field's error. |
| EditUserPreferences.EditPreferencesScreen.ValidateForm | components/screens/user/EditUserPreferences.tsx:131-162 | The error state holds exactly the failing fields' messages, and the result is true iff all bounds and required fields hold. |
| EditUserPreferences.EditPreferencesScreen.HandleSubmit | components/screens/user/EditUserPreferences.tsx:164-202 | Validation runs first, and a failure only alerts. A missing user id or token then only sets "Information utilisateur manquante.". Neither case calls the update or touches `isSubmitting`. Otherwise the update is called with the preferences. A returned `error` is shown and alerted; a thrown one is shown with the communication fallback and alerted with the generic fallback. A clean answer goes back. Submitting has ended once the update settles. |

Definitions the rows above use. They have no contract of their own, and
their meaning is shown by the rows that use them:

- `Common.Truthy` (components/screens/auth/AuthScreen.tsx:42): the truthiness of a string that may be null.
- `Common.IsJsWhitespace` (components/screens/auth/AuthScreen.tsx:32, components/screens/questionnaires/Questionnaire.tsx:43): the `\s` class of ECMAScript regular expressions, the WhiteSpace and LineTerminator code points.
- `Common.IsLineTerminator` and `AuthScreen.NoLineTerminatorBefore` (components/screens/auth/AuthScreen.tsx:37): the characters `.` does not match.
  - A lookahead `(?=.*X)` finds an X with no line terminator before it.
- `AuthScreen.IsEmailChar` (components/screens/auth/AuthScreen.tsx:32): the class `[^\s@]`.
- `AuthScreen.EmailRegexMatches` (components/screens/auth/AuthScreen.tsx:32): the language of the e-mail regex, written out literally.
  - It means there are positions of an '@' and a '.' that split the string into three non-empty runs of `[^\s@]`.
  - It is used by `AuthScreen.ValidateEmail`, `AuthScreen.EmailSoundness` and `AuthScreen.EmailCompleteness`.
- `AuthScreen.PasswordRegexMatches` (components/screens/auth/AuthScreen.tsx:37): the language of the password regex, written out literally.
  - It has the two lookaheads and at least 8 characters of `[A-Za-z\d]`.
  - It is used by `AuthScreen.ValidatePassword` and `AuthScreen.PasswordEquivalence`.
- `Questionnaire.IsNameChar` (components/screens/questionnaires/Questionnaire.tsx:43): the complement of the class `[^a-zA-Z0-9\s-]`. It is used by `Questionnaire.HasForbiddenChar`.
- `Questionnaire5.IsDayButtonValue` (components/screens/questionnaires/Questionnaire5.tsx:23-31): the values of the day buttons. It is used by `Questionnaire5.DayButtonValues`.
- `Json.Convertible` (app/services/apiService.ts:51-56): whether `String(value)` returns. It is used by `Json.StringOf` and `ApiService.HandleApiResponse`.
- `UserProfile.LookupKey` (components/screens/user/UserProfile.tsx:227): `value?.toLowerCase() || ""`. It is used by `UserProfile.Display`.
  - Its contract says the key is "" exactly when the value is null or "", and that the key is already lower case.
- `EditUserPreferences.NumberTruthy` (components/screens/user/EditUserPreferences.tsx:83-84): the truthiness of a number that may be null. It is used by `EditUserPreferences.NumberOr`.
- `EditUserPreferences.Acceptable` (components/screens/user/EditUserPreferences.tsx:131-162): the conjunction of the six bounds and required fields. It is used by `EditUserPreferences.AcceptableIffNoFieldFails`.
- `EditUserPreferences.ErrorsAfter` (components/screens/user/EditUserPreferences.tsx:131-159): the errors object after the first k checks, in source order. It is used by `EditUserPreferences.CollectErrors`.
- `Json.IsTruthy` (app/services/apiService.ts:55): the truthiness of a parsed JSON value. It is used by `ApiService.ReportedError`.
- `Json.Property` (app/services/apiService.ts:51-55): `v?.[key]`, used by `ApiService.ReportedError`.
  - It finds only an object's own properties.
  - That matches JavaScript for the key it is used with, "error", which no parsed value inherits.
  - It does not match for keys such as "constructor" or "length".
- `Json.ItemsString` and `Common.IntToString` (app/services/apiService.ts:54-56): the array and number cases of `Json.StringOf`.
- `ApiService.IsOk` (app/services/apiService.ts:31,49): `response.ok`, a status from 200 to 299. It is used by `ApiService.HandleApiResponse`.
- `ApiService.UnreadableMessage` and `ApiService.GenericFailureMessage` (app/services/apiService.ts:38,55): the two message templates. The `NamesStatus` lemmas prove that each one is injective in the status.
- `Storage.Get` (components/screens/questionnaires/Questionnaire5.tsx:67-74): `getItem`. `Storage.Set` and `Storage.RemoveAll` are stated through it.
- `Common.Join` (components/screens/user/UserProfile.tsx:169): `.join(", ")`. It is used by `UserProfile.JoinLayout`.
- `UserProfile.Labels` (components/screens/user/UserProfile.tsx:165-168): the `.map` of the days to labels. It is used by `UserProfile.LabelsLayout`.
- `Questionnaire5.ParsedOrNull` (components/screens/questionnaires/Questionnaire5.tsx:92-94): `s ? parseInt(s, 10) : null`. It is used by `Questionnaire5.DaySelectionScreen.HandleSubmit`.
- `EditUserPreferences.FieldFails` (components/screens/user/EditUserPreferences.tsx:133-159): the six field checks. It is used by `EditUserPreferences.AcceptableIffNoFieldFails`, `EditUserPreferences.CollectErrors` and `EditUserPreferences.BoundsInclusive`.

## Left out

- Rendering, styles, animations and timers: they hold no decision.
- Console output is left out: the `console.error` calls of the API client,
  with the `responseText.slice(0, 300)` they print, and the
  `console.log` of the submitted preferences in the questionnaire's last
  step (components/screens/questionnaires/Questionnaire5.tsx:110). The one effect of logging on the outcome is
  kept in the model: an `error` that cannot be converted makes the API
  client's log line throw (`ApiService.HandleApiResponse`).
- `fetch`, `AsyncStorage`, the router and `Alert` are left out as I/O.
  Their inputs and effects are parameters and results. A rejected storage
  read or write is not modelled, so a `catch` block is reached only through
  the remote call its `try` makes.
- React runs state updates asynchronously and batches them. They are
  modelled as assignments in program order.
- `JSON.parse` internals, and the serialisation `JSON.stringify` performs on
  request bodies: a request carries the object, not its text.
- `parseInt` edge cases such as NaN: `parseInt` is an abstract function.
- Floating-point numbers: JSON numbers and slider values are integers here.
- `Json.StringOf`: the conversion of non-integer numbers is not modelled,
  because numbers are integers. Integers of 1e21 or more, which
  JavaScript prints in exponent form ("1e+21"), are printed with every
  digit.
- `EditUserPreferences.EditPreferencesScreen.SliderChange`: takes the value
  already rounded, because `Math.round` on a float is outside the integer
  model.
- `Questionnaire5.DaySelectionScreen.SetDuration`: the slider's float value
  is taken as an integer.
- `EditUserPreferences.EditPreferencesScreen.SelectNumber` and
  `EditUserPreferences.EditPreferencesScreen.SelectText`: the select
  handler is split by field type.
  - The program's handler accepts `string | number | null` for any field.
  - The screen only passes numbers to `training_freq` and strings to `goal`
    and `training_place`.
- Clearing an error writes `undefined` under the field's key. The model
  removes the key instead; `validationErrors[field]` reads the same either way.
- `AuthScreen.AuthSession`: ids are strings, so `toString()` on a numeric
  id is not modelled. Decoding an `AuthResponse` from JSON is also left out.
- `Common.Lower`: lower-cases ASCII only.
  - The only non-ASCII character that `toLowerCase` turns into a single
    ASCII character is U+212A KELVIN SIGN, which becomes 'k'.
  - No translation key and no inherited key contains 'k'.
  - `toLowerCase` can also change the length: U+0130 becomes "i" followed by U+0307, two code units. `Lower` keeps U+0130 as it is.
  - Both results keep a non-ASCII character, so neither is a table key or an inherited key.
  - So no lookup result differs.
- Lengths count UTF-16 code units, as JavaScript does, and one `char` is one
  unit. Characters outside the Basic Multilingual Plane are not modelled.
- These service calls are not part of this model: `submitUserPreferences`,
  `updateUserPreferences`, `fetchUserPreferencesDetails`, `fetchProgramById`
  and `fetchSessionsWithExercisesForProgram`.
  - They are imported from a revision of the service module other than the
    one modelled.
  - Their settled outcomes are parameters.
- In the profile screen, `loadUserProfileData`, `handleEditPreferences` and
  the session length line are not part of this model. Only
  `handleLogout`, the day formatter and the translations are modelled.
- The dashboard, the session details screen, questionnaire steps 2 to 4,
  the colour constants and the route wrappers are not part of this model.

## Findings

| source | as written | input that shows it | evidently intended | confidence | as-written member | corrected member |
|---|---|---|---|---|---|---|
| components/screens/user/UserProfile.tsx:227-229 | `goalTranslations[value.toLowerCase() \|\| ""]` indexes a plain object literal, so the lookup also finds members inherited from `Object.prototype` | a goal stored as "Constructor" (or "__proto__") yields `Object.prototype.constructor`. That value is truthy and is not text, so it is rendered instead of the raw goal | look up own keys only, and show the raw value when the key is not a translation | low; not executed | UserProfile.DisplayAsWritten, UserProfile.InheritedKeyShownAsWritten | UserProfile.Display, UserProfile.GoalDisplay, UserProfile.PlaceDisplay |
