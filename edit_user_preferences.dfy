/** The preference editing screen: the six editable fields, `validateForm`
    with its per-field error map, the load-time normalisation of fetched
    preferences, the slider and select handlers, and `handleSubmit`'s guards. */
module EditUserPreferences {
  import opened Common

  datatype Field = HeightCm | WeightKg | TrainingFreq | Goal | TrainingPlace | SessionLength

  /** The position of a field's check in `validateForm`. */
  function CheckOrder(f: Field): (k: nat)
    ensures k < 6
  {
    match f
    case Goal => 0
    case TrainingPlace => 1
    case HeightCm => 2
    case WeightKg => 3
    case TrainingFreq => 4
    case SessionLength => 5
  }

  predicate IsNumericField(f: Field) {
    f == HeightCm || f == WeightKg || f == TrainingFreq || f == SessionLength
  }

  /** The fields the sliders drive. */
  predicate IsSliderField(f: Field) {
    f == HeightCm || f == WeightKg || f == SessionLength
  }

  /** `EditablePreferences`; None is `null`. */
  datatype Prefs = Prefs(
    height_cm: Option<int>,
    weight_kg: Option<int>,
    training_freq: Option<int>,
    goal: Option<string>,
    training_place: Option<string>,
    session_length: Option<int>)

  /** `initialEditablePreferencesState`. */
  const InitialPrefs := Prefs(Some(170), Some(70), Some(3), None, None, Some(60))

  /** The value a field holds, whatever its type. */
  datatype FieldValue = Number(n: Option<int>) | Text(t: Option<string>)

  function ValueOf(p: Prefs, f: Field): (v: FieldValue)
    ensures v.Number? <==> IsNumericField(f)
  {
    match f
    case HeightCm => Number(p.height_cm)
    case WeightKg => Number(p.weight_kg)
    case TrainingFreq => Number(p.training_freq)
    case Goal => Text(p.goal)
    case TrainingPlace => Text(p.training_place)
    case SessionLength => Number(p.session_length)
  }

  /** `{ ...prev, [field]: value }` for a numeric field. */
  function WithNumber(p: Prefs, f: Field, value: Option<int>): (q: Prefs)
    requires IsNumericField(f)
    ensures ValueOf(q, f) == Number(value)
    ensures forall g :: g != f ==> ValueOf(q, g) == ValueOf(p, g)
  {
    match f
    case HeightCm => p.(height_cm := value)
    case WeightKg => p.(weight_kg := value)
    case TrainingFreq => p.(training_freq := value)
    case SessionLength => p.(session_length := value)
  }

  /** `{ ...prev, [field]: value }` for a text field. */
  function WithText(p: Prefs, f: Field, value: Option<string>): (q: Prefs)
    requires !IsNumericField(f)
    ensures ValueOf(q, f) == Text(value)
    ensures forall g :: g != f ==> ValueOf(q, g) == ValueOf(p, g)
  {
    match f
    case Goal => p.(goal := value)
    case TrainingPlace => p.(training_place := value)
  }

  // ---------------------------------------------------------------- validation

  const GoalRequiredMessage := "L'objectif est requis."
  const PlaceRequiredMessage := "Le lieu d'entraînement est requis."
  const HeightInvalidMessage := "Taille invalide."
  const WeightInvalidMessage := "Poids invalide."
  const FreqInvalidMessage := "Fréquence invalide."
  const LengthInvalidMessage := "Durée invalide."

  function FieldMessage(f: Field): (message: string)
    ensures message != ""
  {
    match f
    case Goal => GoalRequiredMessage
    case TrainingPlace => PlaceRequiredMessage
    case HeightCm => HeightInvalidMessage
    case WeightKg => WeightInvalidMessage
    case TrainingFreq => FreqInvalidMessage
    case SessionLength => LengthInvalidMessage
  }

  /** `v === null || v < lo || v > hi`. */
  predicate OutOfRange(v: Option<int>, lo: int, hi: int) {
    v.None? || v.value < lo || v.value > hi
  }

  /** The check `validateForm` makes on one field fails. */
  predicate FieldFails(p: Prefs, f: Field) {
    match f
    case Goal => !Truthy(p.goal)
    case TrainingPlace => !Truthy(p.training_place)
    case HeightCm => OutOfRange(p.height_cm, 120, 230)
    case WeightKg => OutOfRange(p.weight_kg, 30, 200)
    case TrainingFreq => OutOfRange(p.training_freq, 1, 7)
    case SessionLength => OutOfRange(p.session_length, 30, 120)
  }

  /** A form the server may receive: both choices made, every number inside its bounds. */
  predicate Acceptable(p: Prefs) {
    && Truthy(p.goal) && Truthy(p.training_place)
    && p.height_cm.Some? && 120 <= p.height_cm.value <= 230
    && p.weight_kg.Some? && 30 <= p.weight_kg.value <= 200
    && p.training_freq.Some? && 1 <= p.training_freq.value <= 7
    && p.session_length.Some? && 30 <= p.session_length.value <= 120
  }

  lemma AcceptableIffNoFieldFails(p: Prefs)
    ensures Acceptable(p) <==> forall f :: !FieldFails(p, f)
  {
    if !Acceptable(p) {
      if !Truthy(p.goal) { assert FieldFails(p, Goal); }
      else if !Truthy(p.training_place) { assert FieldFails(p, TrainingPlace); }
      else if OutOfRange(p.height_cm, 120, 230) { assert FieldFails(p, HeightCm); }
      else if OutOfRange(p.weight_kg, 30, 200) { assert FieldFails(p, WeightKg); }
      else if OutOfRange(p.training_freq, 1, 7) { assert FieldFails(p, TrainingFreq); }
      else { assert FieldFails(p, SessionLength); }
    }
  }

  /** Setting one field does not change the verdict on any other field. */
  lemma UpdateKeepsOtherVerdicts(p: Prefs, q: Prefs, f: Field)
    requires forall g :: g != f ==> ValueOf(q, g) == ValueOf(p, g)
    ensures forall g :: g != f ==> (FieldFails(q, g) <==> FieldFails(p, g))
  {
    forall g | g != f ensures FieldFails(q, g) <==> FieldFails(p, g) {
      assert ValueOf(q, g) == ValueOf(p, g);
    }
  }

  /** The bounds are inclusive, and a null number always fails. */
  lemma BoundsInclusive(p: Prefs)
    ensures p.height_cm == Some(120) || p.height_cm == Some(230) ==> !FieldFails(p, HeightCm)
    ensures p.height_cm == Some(119) || p.height_cm == Some(231) ==> FieldFails(p, HeightCm)
    ensures p.weight_kg == Some(30) || p.weight_kg == Some(200) ==> !FieldFails(p, WeightKg)
    ensures p.weight_kg == Some(29) || p.weight_kg == Some(201) ==> FieldFails(p, WeightKg)
    ensures p.training_freq == Some(1) || p.training_freq == Some(7) ==> !FieldFails(p, TrainingFreq)
    ensures p.training_freq == Some(0) || p.training_freq == Some(8) ==> FieldFails(p, TrainingFreq)
    ensures p.session_length == Some(30) || p.session_length == Some(120) ==> !FieldFails(p, SessionLength)
    ensures p.session_length == Some(29) || p.session_length == Some(121) ==> FieldFails(p, SessionLength)
    ensures p.height_cm.None? ==> FieldFails(p, HeightCm)
    ensures p.weight_kg.None? ==> FieldFails(p, WeightKg)
    ensures p.training_freq.None? ==> FieldFails(p, TrainingFreq)
    ensures p.session_length.None? ==> FieldFails(p, SessionLength)
  {
  }

  /** `errors` is right about field `f` after the first `done` checks ran. */
  predicate RecordsField(p: Prefs, errors: map<Field, string>, done: nat, f: Field) {
    && (f in errors <==> CheckOrder(f) < done && FieldFails(p, f))
    && (f in errors ==> errors[f] == FieldMessage(f))
  }

  /** `errors` holds exactly the messages of the first `done` checked fields that fail on `p`. */
  predicate Records(p: Prefs, errors: map<Field, string>, done: nat) {
    && RecordsField(p, errors, done, Goal)
    && RecordsField(p, errors, done, TrainingPlace)
    && RecordsField(p, errors, done, HeightCm)
    && RecordsField(p, errors, done, WeightKg)
    && RecordsField(p, errors, done, TrainingFreq)
    && RecordsField(p, errors, done, SessionLength)
  }

  /** One check of `validateForm` extends a correct record by one field. */
  lemma CheckRecorded(p: Prefs, before: map<Field, string>, after: map<Field, string>, f: Field)
    requires Records(p, before, CheckOrder(f))
    requires after == if FieldFails(p, f) then before[f := FieldMessage(f)] else before
    ensures Records(p, after, CheckOrder(f) + 1)
  {
  }

  /** The field whose check comes `k`-th in `validateForm`. */
  function CheckedAt(k: nat): (f: Field)
    requires k < 6
    ensures CheckOrder(f) == k
  {
    [Goal, TrainingPlace, HeightCm, WeightKg, TrainingFreq, SessionLength][k]
  }

  /** The `errors` object after the first `k` checks. */
  function ErrorsAfter(p: Prefs, k: nat): map<Field, string>
    requires k <= 6
  {
    if k == 0 then map[]
    else
      var f := CheckedAt(k - 1);
      if FieldFails(p, f) then ErrorsAfter(p, k - 1)[f := FieldMessage(f)] else ErrorsAfter(p, k - 1)
  }

  lemma {:induction false} ErrorsAfterRecords(p: Prefs, k: nat)
    requires k <= 6
    ensures Records(p, ErrorsAfter(p, k), k)
  {
    if k > 0 {
      ErrorsAfterRecords(p, k - 1);
      CheckRecorded(p, ErrorsAfter(p, k - 1), ErrorsAfter(p, k), CheckedAt(k - 1));
    }
  }

  /** After the six checks the record covers every field. */
  lemma AllChecksRecorded(p: Prefs, errors: map<Field, string>)
    requires Records(p, errors, 6)
    ensures forall f :: f in errors <==> FieldFails(p, f)
    ensures forall f :: f in errors ==> errors[f] == FieldMessage(f)
  {
    forall g ensures RecordsField(p, errors, 6, g) {
      match g
      case Goal => case TrainingPlace => case HeightCm =>
      case WeightKg => case TrainingFreq => case SessionLength =>
    }
  }

  /** The `errors` object `validateForm` builds, one check after the other:
      exactly the failing fields, each with its message. */
  method CollectErrors(p: Prefs) returns (errors: map<Field, string>)
    ensures forall f :: f in errors <==> FieldFails(p, f)
    ensures forall f :: f in errors ==> errors[f] == FieldMessage(f)
  {
    errors := map[];
    if !Truthy(p.goal) {
      errors := errors[Goal := GoalRequiredMessage];
    }
    assert errors == ErrorsAfter(p, 1);
    if !Truthy(p.training_place) {
      errors := errors[TrainingPlace := PlaceRequiredMessage];
    }
    assert errors == ErrorsAfter(p, 2);
    if p.height_cm.None? || p.height_cm.value < 120 || p.height_cm.value > 230 {
      errors := errors[HeightCm := HeightInvalidMessage];
    }
    assert errors == ErrorsAfter(p, 3);
    if p.weight_kg.None? || p.weight_kg.value < 30 || p.weight_kg.value > 200 {
      errors := errors[WeightKg := WeightInvalidMessage];
    }
    assert errors == ErrorsAfter(p, 4);
    if p.training_freq.None? || p.training_freq.value < 1 || p.training_freq.value > 7 {
      errors := errors[TrainingFreq := FreqInvalidMessage];
    }
    assert errors == ErrorsAfter(p, 5);
    if p.session_length.None? || p.session_length.value < 30 || p.session_length.value > 120 {
      errors := errors[SessionLength := LengthInvalidMessage];
    }
    assert errors == ErrorsAfter(p, 6);
    ErrorsAfterRecords(p, 6);
    AllChecksRecorded(p, errors);
  }

  // ---------------------------------------------------------------- loading

  /** The fields of `UserPreferencesDetail` the screen reads when it loads. */
  datatype FetchedPrefs = FetchedPrefs(
    height_cm: Option<int>,
    weight_kg: Option<int>,
    training_freq: Option<int>,
    goal: Option<string>,
    training_place: Option<string>,
    session_length: Option<int>,
    error: Option<string>)

  /** JavaScript truthiness of a number that may be null. */
  predicate NumberTruthy(v: Option<int>) {
    v.Some? && v.value != 0
  }

  /** `v || fallback` on a number that may be null. */
  function NumberOr(v: Option<int>, fallback: int): (r: Option<int>)
    ensures r == v || r == Some(fallback)
    ensures NumberTruthy(v) ==> r == v
    ensures fallback != 0 ==> NumberTruthy(r)
  {
    if NumberTruthy(v) then v else Some(fallback)
  }

  const EquipmentPlace := "home_with_equipment"
  const NoEquipmentPlace := "home_no_equipment"

  /** The preferences `loadInitialData` puts on screen from a fetched record. */
  function Normalize(f: FetchedPrefs): (p: Prefs)
    ensures NumberTruthy(f.height_cm) ==> p.height_cm == f.height_cm
    ensures !NumberTruthy(f.height_cm) ==> p.height_cm == InitialPrefs.height_cm
    ensures NumberTruthy(f.weight_kg) ==> p.weight_kg == f.weight_kg
    ensures !NumberTruthy(f.weight_kg) ==> p.weight_kg == InitialPrefs.weight_kg
    ensures NumberTruthy(f.training_freq) ==> p.training_freq == f.training_freq
    ensures !NumberTruthy(f.training_freq) ==> p.training_freq == InitialPrefs.training_freq
    ensures NumberTruthy(f.session_length) ==> p.session_length == f.session_length
    ensures !NumberTruthy(f.session_length) ==> p.session_length == InitialPrefs.session_length
    ensures p.goal == f.goal
    ensures f.training_place == Some(EquipmentPlace) ==> p.training_place == Some(NoEquipmentPlace)
    ensures f.training_place != Some(EquipmentPlace) ==> p.training_place == f.training_place
  {
    Prefs(
      NumberOr(f.height_cm, 170),
      NumberOr(f.weight_kg, 70),
      NumberOr(f.training_freq, 3),
      f.goal,
      if f.training_place == Some(EquipmentPlace) then Some(NoEquipmentPlace) else f.training_place,
      NumberOr(f.session_length, 60))
  }

  /** The record the screen would send back, read as a fetched record. */
  function AsFetched(p: Prefs): FetchedPrefs {
    FetchedPrefs(p.height_cm, p.weight_kg, p.training_freq, p.goal, p.training_place, p.session_length, None)
  }

  /** Normalising is idempotent: every number is present and non-zero afterwards,
      and the equipment place never survives it. */
  lemma NormalizeIdempotent(f: FetchedPrefs)
    ensures NumberTruthy(Normalize(f).height_cm) && NumberTruthy(Normalize(f).weight_kg)
    ensures NumberTruthy(Normalize(f).training_freq) && NumberTruthy(Normalize(f).session_length)
    ensures Normalize(f).training_place != Some(EquipmentPlace)
    ensures Normalize(AsFetched(Normalize(f))) == Normalize(f)
  {
  }

  /** A numeric field that was missing on the server is loaded as a valid default. */
  lemma DefaultsPassValidation(f: FetchedPrefs)
    ensures !NumberTruthy(f.height_cm) ==> !FieldFails(Normalize(f), HeightCm)
    ensures !NumberTruthy(f.weight_kg) ==> !FieldFails(Normalize(f), WeightKg)
    ensures !NumberTruthy(f.training_freq) ==> !FieldFails(Normalize(f), TrainingFreq)
    ensures !NumberTruthy(f.session_length) ==> !FieldFails(Normalize(f), SessionLength)
  {
  }

  // ---------------------------------------------------------------- the screen

  const NotAuthenticatedMessage := "Utilisateur non authentifié."
  const LoadFailedMessage := "Erreur de chargement des préférences."
  const MissingUserMessage := "Information utilisateur manquante."
  const CommunicationFailedMessage := "Une erreur est survenue lors de la communication avec le serveur."
  const GenericFailedMessage := "Une erreur est survenue."
  const UpdateFailedTitle := "Échec de la mise à jour"
  const ValidationAlert := Alert("Erreurs de validation", "Veuillez corriger les champs en erreur.")
  const HomeRoute := "/"

  /** The `updateUserPreferences(userId, payload, token)` call. */
  datatype UpdateCall = UpdateCall(userId: string, payload: Prefs, token: string)

  /** What `updateUserPreferences` resolved to: only its `error` field is read. */
  datatype UpdateReply = UpdateReply(error: Option<string>)

  class EditPreferencesScreen {
    var isLoading: bool
    var isSubmitting: bool
    var apiError: Option<string>
    var userId: Option<string>
    var token: Option<string>
    var preferences: Prefs
    var validationErrors: map<Field, string>

    /** Every recorded error is that field's message. */
    predicate ErrorsWellFormed()
      reads this
    {
      forall f :: f in validationErrors ==> validationErrors[f] == FieldMessage(f)
    }

    constructor ()
      ensures isLoading && !isSubmitting && apiError == None && userId == None && token == None
      ensures preferences == InitialPrefs && validationErrors == map[]
      ensures ErrorsWellFormed()
    {
      isLoading, isSubmitting, apiError, userId, token := true, false, None, None, None;
      preferences, validationErrors := InitialPrefs, map[];
    }

    /** `loadInitialData`. `fetched` is what `fetchUserPreferencesDetails`
        settled to (Err carries the thrown message); `fetchedFor` is the user
        id and token it was called with, None when it was not called. */
    method LoadInitialData(storedUserId: Option<string>, storedToken: Option<string>, fetched: Result<FetchedPrefs>)
      returns (fetchedFor: Option<(string, string)>, nav: Option<Navigation>)
      modifies this
      ensures !isLoading && isSubmitting == old(isSubmitting) && validationErrors == old(validationErrors)
      ensures !(Truthy(storedUserId) && Truthy(storedToken)) ==>
                && fetchedFor == None && nav == Some(Replace(HomeRoute))
                && apiError == Some(NotAuthenticatedMessage)
                && userId == old(userId) && token == old(token) && preferences == old(preferences)
      ensures Truthy(storedUserId) && Truthy(storedToken) ==>
                && fetchedFor == Some((storedUserId.value, storedToken.value)) && nav == None
                && userId == storedUserId && token == storedToken
      ensures Truthy(storedUserId) && Truthy(storedToken) && fetched.Err? ==>
                apiError == Some(OrElse(Some(fetched.error), LoadFailedMessage)) && preferences == old(preferences)
      ensures Truthy(storedUserId) && Truthy(storedToken) && fetched.Ok? && Truthy(fetched.value.error) ==>
                apiError == fetched.value.error && preferences == old(preferences)
      ensures Truthy(storedUserId) && Truthy(storedToken) && fetched.Ok? && !Truthy(fetched.value.error) ==>
                apiError == old(apiError) && preferences == Normalize(fetched.value)
    {
      isLoading := true;
      fetchedFor, nav := None, None;
      if Truthy(storedUserId) && Truthy(storedToken) {
        userId := storedUserId;
        token := storedToken;
        fetchedFor := Some((storedUserId.value, storedToken.value));
        if fetched.Err? {
          apiError := Some(OrElse(Some(fetched.error), LoadFailedMessage));
        } else if Truthy(fetched.value.error) {
          apiError := fetched.value.error;
        } else {
          var f := fetched.value;
          preferences := Prefs(
            NumberOr(f.height_cm, InitialPrefs.height_cm.value),
            NumberOr(f.weight_kg, InitialPrefs.weight_kg.value),
            NumberOr(f.training_freq, InitialPrefs.training_freq.value),
            f.goal,
            if f.training_place == Some(EquipmentPlace) then Some(NoEquipmentPlace) else f.training_place,
            NumberOr(f.session_length, InitialPrefs.session_length.value));
        }
      } else {
        apiError := Some(NotAuthenticatedMessage);
        nav := Some(Replace(HomeRoute));
      }
      isLoading := false;
    }

    /** `handleSliderChange(field, value)`, with `value` already rounded. */
    method SliderChange(field: Field, value: int)
      requires IsSliderField(field) && ErrorsWellFormed()
      modifies this
      ensures ValueOf(preferences, field) == Number(Some(value))
      ensures forall g :: g != field ==> ValueOf(preferences, g) == ValueOf(old(preferences), g)
      ensures validationErrors == old(validationErrors) - {field}
      ensures ErrorsWellFormed()
      ensures isLoading == old(isLoading) && isSubmitting == old(isSubmitting) && apiError == old(apiError)
      ensures userId == old(userId) && token == old(token)
    {
      preferences := WithNumber(preferences, field, Some(value));
      if field in validationErrors && validationErrors[field] != "" {
        validationErrors := validationErrors - {field};
      }
    }

    /** The handler `createSelectHandler(field)` returns, applied to a number or null. */
    method SelectNumber(field: Field, value: Option<int>)
      requires IsNumericField(field) && ErrorsWellFormed()
      modifies this
      ensures ValueOf(preferences, field) == Number(value)
      ensures forall g :: g != field ==> ValueOf(preferences, g) == ValueOf(old(preferences), g)
      ensures validationErrors == old(validationErrors) - {field}
      ensures ErrorsWellFormed()
      ensures isLoading == old(isLoading) && isSubmitting == old(isSubmitting) && apiError == old(apiError)
      ensures userId == old(userId) && token == old(token)
    {
      preferences := WithNumber(preferences, field, value);
      if field in validationErrors && validationErrors[field] != "" {
        validationErrors := validationErrors - {field};
      }
    }

    /** The handler `createSelectHandler(field)` returns, applied to a string or null. */
    method SelectText(field: Field, value: Option<string>)
      requires !IsNumericField(field) && ErrorsWellFormed()
      modifies this
      ensures ValueOf(preferences, field) == Text(value)
      ensures forall g :: g != field ==> ValueOf(preferences, g) == ValueOf(old(preferences), g)
      ensures validationErrors == old(validationErrors) - {field}
      ensures ErrorsWellFormed()
      ensures isLoading == old(isLoading) && isSubmitting == old(isSubmitting) && apiError == old(apiError)
      ensures userId == old(userId) && token == old(token)
    {
      preferences := WithText(preferences, field, value);
      if field in validationErrors && validationErrors[field] != "" {
        validationErrors := validationErrors - {field};
      }
    }

    /** `validateForm`: stores the errors of the current preferences and
        reports whether there are none. */
    method ValidateForm() returns (valid: bool)
      modifies this`validationErrors
      ensures forall f :: f in validationErrors <==> FieldFails(preferences, f)
      ensures ErrorsWellFormed()
      ensures valid <==> Acceptable(preferences)
    {
      var errors := CollectErrors(preferences);
      validationErrors := errors;
      valid := |errors| == 0;
      AcceptableIffNoFieldFails(preferences);
      if !valid {
        var f :| f in errors;
        assert FieldFails(preferences, f);
      } else {
        assert errors == map[];
      }
    }

    /** `handleSubmit`. `reply` is what `updateUserPreferences` settled to
        (Err carries the thrown message); `update` is the call made, if any. */
    method HandleSubmit(reply: Result<UpdateReply>)
      returns (update: Option<UpdateCall>, alert: Option<Alert>, nav: Option<Navigation>)
      modifies this
      ensures forall f :: f in validationErrors <==> FieldFails(preferences, f)
      ensures ErrorsWellFormed()
      ensures preferences == old(preferences) && userId == old(userId) && token == old(token)
      ensures isLoading == old(isLoading)
      // validation first: nothing is sent and only the alert is shown
      ensures !Acceptable(preferences) ==>
                && update == None && alert == Some(ValidationAlert) && nav == None
                && apiError == old(apiError) && isSubmitting == old(isSubmitting)
      // then the user id and the token
      ensures Acceptable(preferences) && !(Truthy(userId) && Truthy(token)) ==>
                && update == None && alert == None && nav == None && apiError == Some(MissingUserMessage)
                && isSubmitting == old(isSubmitting)
      // the update is sent, and submitting has ended when it settles
      ensures Acceptable(preferences) && Truthy(userId) && Truthy(token) ==>
                update == Some(UpdateCall(userId.value, preferences, token.value)) && !isSubmitting
      ensures Acceptable(preferences) && Truthy(userId) && Truthy(token) && reply.Ok? ==>
                if Truthy(reply.value.error) then
                  apiError == reply.value.error && alert == Some(Alert(UpdateFailedTitle, reply.value.error.value))
                  && nav == None
                else
                  apiError == None && alert == None && nav == Some(Back)
      ensures Acceptable(preferences) && Truthy(userId) && Truthy(token) && reply.Err? ==>
                && apiError == Some(OrElse(Some(reply.error), CommunicationFailedMessage))
                && alert == Some(Alert(UpdateFailedTitle, OrElse(Some(reply.error), GenericFailedMessage)))
                && nav == None
    {
      update, alert, nav := None, None, None;
      var valid := ValidateForm();
      if !valid {
        alert := Some(ValidationAlert);
        return;
      }
      if !Truthy(userId) || !Truthy(token) {
        apiError := Some(MissingUserMessage);
        return;
      }

      isSubmitting := true;
      apiError := None;
      update := Some(UpdateCall(userId.value, preferences, token.value));
      if reply.Ok? {
        if Truthy(reply.value.error) {
          apiError := reply.value.error;
          alert := Some(Alert(UpdateFailedTitle, reply.value.error.value));
        } else {
          nav := Some(Back);
        }
      } else {
        apiError := Some(OrElse(Some(reply.error), CommunicationFailedMessage));
        alert := Some(Alert(UpdateFailedTitle, OrElse(Some(reply.error), GenericFailedMessage)));
      }
      isSubmitting := false;
    }
  }
}
