/** The last questionnaire step: choosing training days by toggling them, and
    `handleSubmit`, which checks for a user id and a non-empty choice and then
    sends the collected answers with the days sorted. */
module Questionnaire5 {
  import opened Common
  import opened Storage
  import opened Sorting

  /** `DAYS_OF_WEEK`: the label and the value of each button, Monday first. */
  const DaysOfWeek: seq<(string, int)> :=
    [("L", 1), ("M", 2), ("M", 3), ("J", 4), ("V", 5), ("S", 6), ("D", 7)]

  /** A value one of the day buttons toggles. */
  predicate IsDayButtonValue(d: int) {
    exists i :: 0 <= i < |DaysOfWeek| && DaysOfWeek[i].1 == d
  }

  lemma DayButtonValues(d: int)
    ensures IsDayButtonValue(d) <==> 1 <= d <= 7
  {
    if 1 <= d <= 7 {
      assert DaysOfWeek[d - 1].1 == d;
    }
  }

  // ---------------------------------------------------------------- toggling

  /** `days.filter((x) => x !== d)`. */
  function Without(days: seq<int>, d: int): (r: seq<int>)
    ensures d !in r
    ensures forall x :: x != d ==> multiset(r)[x] == multiset(days)[x]
    ensures forall x :: x in r ==> x in days
  {
    if days == [] then []
    else
      assert days == [days[0]] + days[1..];
      if days[0] == d then Without(days[1..], d) else [days[0]] + Without(days[1..], d)
  }

  /** `filter` keeps the order of what it keeps: filtering a concatenation
      concatenates the filtered parts. */
  lemma {:induction false} WithoutConcat(a: seq<int>, b: seq<int>, d: int)
    ensures Without(a + b, d) == Without(a, d) + Without(b, d)
  {
    if a == [] {
      assert a + b == b;
    } else {
      assert (a + b)[0] == a[0] && (a + b)[1..] == a[1..] + b;
      WithoutConcat(a[1..], b, d);
    }
  }

  /** `toggleDaySelection`: a day already chosen is removed, every occurrence
      of it; a day not chosen is appended at the end. */
  function Toggle(days: seq<int>, d: int): (r: seq<int>)
    ensures d in days ==> d !in r && forall x :: x != d ==> multiset(r)[x] == multiset(days)[x]
    ensures d !in days ==> r == days + [d]
  {
    if d in days then Without(days, d) else days + [d]
  }

  lemma {:induction false} WithoutAbsent(days: seq<int>, d: int)
    requires d !in days
    ensures Without(days, d) == days
  {
    if days != [] {
      WithoutAbsent(days[1..], d);
    }
  }

  lemma {:induction false} WithoutAppended(days: seq<int>, d: int)
    ensures Without(days + [d], d) == Without(days, d)
  {
    if days == [] {
      assert [] + [d] == [d];
    } else {
      assert (days + [d])[1..] == days[1..] + [d];
      WithoutAppended(days[1..], d);
    }
  }

  /** Toggling a day that is not chosen, twice, gives back the original choice. */
  lemma ToggleTwiceRestores(days: seq<int>, d: int)
    requires d !in days
    ensures Toggle(Toggle(days, d), d) == days
  {
    assert d in days + [d];
    WithoutAppended(days, d);
    WithoutAbsent(days, d);
  }

  /** A choice of days as the buttons can produce it: each day at most once,
      each a day of the week. */
  predicate ValidSelection(days: seq<int>) {
    && NoDuplicates(days)
    && forall k :: 0 <= k < |days| ==> 1 <= days[k] <= 7
  }

  lemma {:induction false} WithoutNoDuplicates(days: seq<int>, d: int)
    requires NoDuplicates(days)
    ensures NoDuplicates(Without(days, d))
  {
    if days != [] {
      assert NoDuplicates(days[1..]);
      WithoutNoDuplicates(days[1..], d);
      if days[0] != d {
        var t := Without(days[1..], d);
        assert days[0] !in days[1..];
        assert days[0] !in t;
        assert NoDuplicates([days[0]] + t);
      }
    }
  }

  /** Toggling only day-button values keeps a choice valid. */
  lemma TogglePreservesValidSelection(days: seq<int>, d: int)
    requires ValidSelection(days) && IsDayButtonValue(d)
    ensures ValidSelection(Toggle(days, d))
  {
    DayButtonValues(d);
    if d in days {
      WithoutNoDuplicates(days, d);
      var r := Without(days, d);
      forall k | 0 <= k < |r| ensures 1 <= r[k] <= 7 {
        assert r[k] in days;
      }
    }
  }

  // ---------------------------------------------------------------- submitting

  /** `UserPreferencesPayload` as this step fills it. */
  datatype Payload = Payload(
    user_id: string,
    name: Option<string>,
    gender: Option<string>,
    age: Option<int>,
    height_cm: Option<int>,
    weight_kg: Option<int>,
    training_days: seq<int>,
    goal: Option<string>,
    training_place: Option<string>,
    session_length: int,
    milestone: string)

  const MissingUserIdAlert :=
    Alert("Erreur", "Impossible de soumettre les préférences sans identifiant utilisateur.")
  const NoDaySelectedAlert :=
    Alert("Sélection requise", "Veuillez sélectionner au moins un jour d'entraînement.")
  const SubmitFallbackMessage := "Une erreur est survenue lors de l'enregistrement des préférences."
  const DashboardRoute := "/dashboard/dashboard"

  /** `s ? parseInt(s, 10) : null` on a stored value. */
  function ParsedOrNull(stored: Option<string>, parseInt: string -> int): Option<int> {
    if Truthy(stored) then Some(parseInt(stored.value)) else None
  }

  /** The state of the step: the session length slider and the chosen days. */
  class DaySelectionScreen {
    var duration: int
    var selectedDays: seq<int>

    constructor ()
      ensures duration == 60 && selectedDays == []
    {
      duration, selectedDays := 60, [];
    }

    /** The slider's `onValueChange={setDuration}`. */
    method SetDuration(value: int)
      modifies this
      ensures duration == value && selectedDays == old(selectedDays)
    {
      duration := value;
    }

    method ToggleDaySelection(d: int)
      modifies this
      ensures selectedDays == Toggle(old(selectedDays), d) && duration == old(duration)
    {
      selectedDays := if d in selectedDays then Without(selectedDays, d) else selectedDays + [d];
    }

    /** `handleSubmit`, reading its answers from `store`. `parseInt` stands
        for `parseInt(·, 10)`; `submitted` is what `submitUserPreferences`
        settled to. The chosen days are sorted in place before they are sent. */
    method HandleSubmit(store: Store, parseInt: string -> int, submitted: Result<()>)
      returns (payload: Option<Payload>, alert: Option<Alert>, nav: Option<Navigation>)
      modifies this
      ensures duration == old(duration)
      // the user id is checked first, then the choice; a refusal sends nothing
      ensures !Truthy(Get(store, "userId")) ==>
                payload == None && alert == Some(MissingUserIdAlert) && nav == None
                && selectedDays == old(selectedDays)
      ensures Truthy(Get(store, "userId")) && old(selectedDays) == [] ==>
                payload == None && alert == Some(NoDaySelectedAlert) && nav == None
                && selectedDays == old(selectedDays)
      // otherwise the payload carries the stored answers and the sorted days
      ensures Truthy(Get(store, "userId")) && old(selectedDays) != [] ==>
                && selectedDays == SortAsc(old(selectedDays))
                && payload == Some(Payload(
                     Get(store, "userId").value, Get(store, "name"), Get(store, "gender"),
                     ParsedOrNull(Get(store, "age"), parseInt),
                     ParsedOrNull(Get(store, "height"), parseInt),
                     ParsedOrNull(Get(store, "weight"), parseInt),
                     SortAsc(old(selectedDays)), Get(store, "goal"), Get(store, "trainingPlace"),
                     duration, "default"))
                && (submitted.Ok? ==> alert == None && nav == Some(Push(DashboardRoute)))
                && (submitted.Err? ==> alert == Some(Alert("Erreur", OrElse(Some(submitted.error), SubmitFallbackMessage)))
                                       && nav == None)
    {
      var userId := Get(store, "userId");
      var name := Get(store, "name");
      var gender := Get(store, "gender");
      var ageString := Get(store, "age");
      var heightString := Get(store, "height");
      var weightString := Get(store, "weight");
      var goal := Get(store, "goal");
      var trainingPlace := Get(store, "trainingPlace");

      if !Truthy(userId) {
        return None, Some(MissingUserIdAlert), None;
      }
      if |selectedDays| == 0 {
        return None, Some(NoDaySelectedAlert), None;
      }

      var age := if Truthy(ageString) then Some(parseInt(ageString.value)) else None;
      var heightCm := if Truthy(heightString) then Some(parseInt(heightString.value)) else None;
      var weightKg := if Truthy(weightString) then Some(parseInt(weightString.value)) else None;

      // selectedDays.sort((a, b) => a - b) reorders the state array itself
      var days := new int[|selectedDays|](i requires 0 <= i < |selectedDays| reads this => selectedDays[i]);
      assert days[..] == selectedDays;
      SortInPlace(days);
      selectedDays := days[..];

      payload := Some(Payload(userId.value, name, gender, age, heightCm, weightKg,
                              selectedDays, goal, trainingPlace, duration, "default"));
      if submitted.Ok? {
        alert, nav := None, Some(Push(DashboardRoute));
      } else {
        alert, nav := Some(Alert("Erreur", OrElse(Some(submitted.error), SubmitFallbackMessage))), None;
      }
    }
  }

  /** What the submitted days look like when the choice was made with the
      buttons: strictly increasing days of the week. */
  lemma SubmittedDaysAreOrderedWeekdays(days: seq<int>)
    requires ValidSelection(days)
    ensures StrictlyIncreasing(SortAsc(days))
    ensures forall k :: 0 <= k < |days| ==> 1 <= SortAsc(days)[k] <= 7
  {
    SortedDistinct(days);
    forall k | 0 <= k < |days| ensures 1 <= SortAsc(days)[k] <= 7 {
      SortAscSameElements(days, SortAsc(days)[k]);
    }
  }
}
