/** The profile screen's local logic: `formatTrainingDays` (day numbers to
    one-letter labels, in ascending order, joined by ", "), the translate-or-
    fall-back display of the goal and the training place, and `handleLogout`. */
module UserProfile {
  import opened Common
  import opened Storage
  import opened Sorting

  /** `DAY_LABELS`, Monday first. */
  const DayLabels: seq<string> := ["L", "M", "M", "J", "V", "S", "D"]

  /** `DAY_LABELS[dayValue - 1] || "?"`: an index outside the table reads undefined. */
  function DayLabel(d: int): (name: string)
    ensures 1 <= d <= 7 ==> name == DayLabels[d - 1]
    ensures !(1 <= d <= 7) ==> name == "?"
    ensures |name| == 1
  {
    var index := d - 1;
    if 0 <= index < |DayLabels| && DayLabels[index] != "" then DayLabels[index] else "?"
  }

  /** `days.map((d) => DAY_LABELS[d - 1] || "?")`. */
  function Labels(days: seq<int>): seq<string> {
    seq(|days|, i requires 0 <= i < |days| => DayLabel(days[i]))
  }

  /** What `formatTrainingDays` shows for the days `days` held before the call. */
  function FormatDays(days: seq<int>): (text: string)
    ensures text == "-" <==> days == []
  {
    if days == [] then "-"
    else
      LabelsLayout(SortAsc(days));
      Join(Labels(SortAsc(days)), ", ")
  }

  /** The join of one-character parts: the i-th part at position 3i, ", " between. */
  lemma {:induction false} JoinLayout(parts: seq<string>)
    requires parts != []
    requires forall i :: 0 <= i < |parts| ==> |parts[i]| == 1
    ensures |Join(parts, ", ")| == 3 * |parts| - 2
    ensures forall i :: 0 <= i < |parts| ==> Join(parts, ", ")[3 * i] == parts[i][0]
    ensures forall i :: 0 <= i < |parts| - 1 ==>
              Join(parts, ", ")[3 * i + 1] == ',' && Join(parts, ", ")[3 * i + 2] == ' '
  {
    if |parts| > 1 {
      var rest := parts[1..];
      JoinLayout(rest);
      var r := Join(parts, ", ");
      assert r == parts[0] + ", " + Join(rest, ", ");
      forall i | 1 <= i < |parts| ensures r[3 * i] == parts[i][0] {
        assert r[3 * i] == Join(rest, ", ")[3 * (i - 1)];
        assert rest[i - 1] == parts[i];
      }
      forall i | 1 <= i < |parts| - 1 ensures r[3 * i + 1] == ',' && r[3 * i + 2] == ' ' {
        assert r[3 * i + 1] == Join(rest, ", ")[3 * (i - 1) + 1];
        assert r[3 * i + 2] == Join(rest, ", ")[3 * (i - 1) + 2];
      }
    }
  }

  /** The labels of `t`, joined: one letter per element, ", " between. */
  lemma LabelsLayout(t: seq<int>)
    requires t != []
    ensures |Join(Labels(t), ", ")| == 3 * |t| - 2
    ensures forall i :: 0 <= i < |t| ==> Join(Labels(t), ", ")[3 * i] == DayLabel(t[i])[0]
    ensures forall i :: 0 <= i < |t| - 1 ==> Join(Labels(t), ", ")[3 * i + 1 .. 3 * i + 3] == ", "
  {
    var labels := Labels(t);
    JoinLayout(labels);
    var r := Join(labels, ", ");
    forall i | 0 <= i < |t| ensures r[3 * i] == DayLabel(t[i])[0] {
      assert labels[i] == DayLabel(t[i]);
    }
    forall i | 0 <= i < |t| - 1 ensures r[3 * i + 1 .. 3 * i + 3] == ", " {
      assert r[3 * i + 1] == ',' && r[3 * i + 2] == ' ';
      assert r[3 * i + 1 .. 3 * i + 3] == [r[3 * i + 1], r[3 * i + 2]];
    }
  }

  /** The text has one letter per day, duplicates included, in ascending order
      of the day numbers, separated by ", " and with no trailing separator. */
  lemma FormatDaysLayout(days: seq<int>)
    requires days != []
    ensures |FormatDays(days)| == 3 * |days| - 2
    ensures forall i :: 0 <= i < |days| ==> FormatDays(days)[3 * i] == DayLabel(SortAsc(days)[i])[0]
    ensures forall i :: 0 <= i < |days| - 1 ==> FormatDays(days)[3 * i + 1 .. 3 * i + 3] == ", "
    ensures forall i, j :: 0 <= i < j < |days| ==> SortAsc(days)[i] <= SortAsc(days)[j]
  {
    LabelsLayout(SortAsc(days));
  }

  /** The text ignores the order the days were given in. */
  lemma FormatDaysOrderIndependent(a: seq<int>, b: seq<int>)
    requires multiset(a) == multiset(b)
    ensures FormatDays(a) == FormatDays(b)
  {
    SortedPermutationUnique(SortAsc(a), SortAsc(b));
    assert |a| == |multiset(a)| == |b|;
  }

  /** `formatTrainingDays(days)`: "-" for a missing or empty array; otherwise
      the array is sorted in place and its labels are joined. */
  method FormatTrainingDays(days: array?<int>) returns (text: string)
    modifies days
    ensures days == null ==> text == "-"
    ensures days != null ==> days[..] == SortAsc(old(days[..])) && text == FormatDays(old(days[..]))
  {
    if days == null || days.Length == 0 {
      return "-";
    }
    SortInPlace(days);
    text := Join(Labels(days[..]), ", ");
  }

  // ---------------------------------------------------------------- translations

  const GoalTranslations: map<string, string> := map[
    "lose weight" := "Perdre du gras",
    "gain muscle" := "Me muscler",
    "improve health" := "Santé"]

  const TrainingPlaceTranslations: map<string, string> := map[
    "gym" := "Salle de sport",
    "home_no_equipment" := "Maison",
    "home_with_equipment" := "Maison (avec équipement)"]

  /** A translation table as the screen declares them: no empty key, no empty text. */
  predicate WellFormedTable(table: map<string, string>) {
    "" !in table && forall k :: k in table ==> table[k] != ""
  }

  lemma TablesWellFormed()
    ensures WellFormedTable(GoalTranslations)
    ensures WellFormedTable(TrainingPlaceTranslations)
  {
  }

  /** The key a stored value is looked up under: `value?.toLowerCase() || ""`. */
  function LookupKey(value: Option<string>): (key: string)
    ensures key == "" <==> !Truthy(value)
    ensures Lower(key) == key
  {
    if value.Some? then
      LowerIdempotent(value.value);
      Lower(value.value)
    else ""
  }

  /** `table[key] || value || "-"`, with the table read as its own keys only. */
  function Display(table: map<string, string>, value: Option<string>): (shown: string)
    requires WellFormedTable(table)
    ensures value.Some? && Lower(value.value) in table ==> shown == table[Lower(value.value)]
    ensures (value.None? || Lower(value.value) !in table) && Truthy(value) ==> shown == value.value
    ensures !Truthy(value) ==> shown == "-"
    ensures shown != ""
  {
    var key := LookupKey(value);
    if key in table && table[key] != "" then table[key]
    else if Truthy(value) then value.value
    else "-"
  }

  /** Values that differ only in ASCII case show the same translation. */
  lemma DisplayIgnoresCase(table: map<string, string>, a: string, b: string)
    requires WellFormedTable(table)
    requires Lower(a) == Lower(b) && Lower(a) in table
    ensures Display(table, Some(a)) == Display(table, Some(b)) == table[Lower(a)]
  {
  }

  /** The goal line of the profile. */
  function GoalDisplay(goal: Option<string>): (shown: string)
    ensures goal.Some? && Lower(goal.value) in GoalTranslations ==>
              shown == GoalTranslations[Lower(goal.value)]
    ensures (goal.None? || Lower(goal.value) !in GoalTranslations) && Truthy(goal) ==> shown == goal.value
    ensures !Truthy(goal) ==> shown == "-"
  {
    TablesWellFormed();
    Display(GoalTranslations, goal)
  }

  /** The training place line of the profile. */
  function PlaceDisplay(place: Option<string>): (shown: string)
    ensures place.Some? && Lower(place.value) in TrainingPlaceTranslations ==>
              shown == TrainingPlaceTranslations[Lower(place.value)]
    ensures (place.None? || Lower(place.value) !in TrainingPlaceTranslations) && Truthy(place) ==>
              shown == place.value
    ensures !Truthy(place) ==> shown == "-"
  {
    TablesWellFormed();
    Display(TrainingPlaceTranslations, place)
  }

  lemma KnownValuesTranslated()
    ensures GoalDisplay(Some("Lose Weight")) == "Perdre du gras"
    ensures PlaceDisplay(Some("GYM")) == "Salle de sport"
    ensures PlaceDisplay(Some("home_with_equipment")) == "Maison (avec équipement)"
    ensures GoalDisplay(Some("yoga")) == "yoga"
    ensures PlaceDisplay(None) == "-"
  {
    assert Lower("Lose Weight") == "lose weight";
    assert Lower("GYM") == "gym";
    assert Lower("home_with_equipment") == "home_with_equipment";
    assert Lower("yoga") == "yoga";
  }

  // ---------------------------------------------------------------- as written

  /** The keys a plain object literal inherits from `Object.prototype` that a
      lower-cased string can spell. */
  const InheritedKeys: set<string> := {"constructor", "__proto__"}

  /** What `table[key]` yields on the object literal: an own text, an inherited
      non-text member (a function or the prototype object), or undefined. */
  datatype Shown = ShownText(text: string) | ShownInherited(key: string)

  /** `table[key] || value || "-"` exactly as written: the bracket lookup also
      finds inherited members, which are truthy and are not text. */
  function DisplayAsWritten(table: map<string, string>, value: Option<string>): (shown: Shown)
    requires WellFormedTable(table)
    requires forall k :: k in table ==> k !in InheritedKeys
    ensures LookupKey(value) !in InheritedKeys ==> shown == ShownText(Display(table, value))
    ensures LookupKey(value) in InheritedKeys ==> shown == ShownInherited(LookupKey(value))
  {
    var key := LookupKey(value);
    if key in table then ShownText(table[key])
    else if key in InheritedKeys then ShownInherited(key)
    else if Truthy(value) then ShownText(value.value)
    else ShownText("-")
  }

  /** A goal stored as "Constructor" reaches `Object.prototype.constructor`
      instead of being shown as itself. */
  lemma InheritedKeyShownAsWritten()
    ensures DisplayAsWritten(GoalTranslations, Some("Constructor")) == ShownInherited("constructor")
    ensures GoalDisplay(Some("Constructor")) == "Constructor"
  {
    assert Lower("Constructor") == "constructor";
  }

  // ---------------------------------------------------------------- logout

  /** The fields of `UserPreferencesDetail` the profile reads. */
  datatype PreferencesDetail = PreferencesDetail(
    goal: Option<string>,
    training_days: Option<seq<int>>,
    training_place: Option<string>,
    session_length: Option<int>,
    active_program_id: Option<int>,
    error: Option<string>)

  datatype Program = Program(id: int, name: string)
  datatype ProgramSession = ProgramSession(id: int, name: string)

  /** The storage keys `handleLogout` removes. */
  const SessionKeys: set<string> := {"token", "userId", "name", "userEmail"}
  const HomeRoute := "/"

  class ProfileScreen {
    var isLoading: bool
    var error: Option<string>
    var userEmail: Option<string>
    var userName: Option<string>
    var userPreferences: Option<PreferencesDetail>
    var activeProgram: Option<Program>
    var programSessions: seq<ProgramSession>

    constructor ()
      ensures isLoading && error == None && userEmail == None && userName == None
      ensures userPreferences == None && activeProgram == None && programSessions == []
    {
      isLoading, error, userEmail, userName := true, None, None, None;
      userPreferences, activeProgram, programSessions := None, None, [];
    }

    /** `handleLogout`: forgets the session in storage and on screen, then
        replaces the screen with the home route. */
    method HandleLogout(store: Store) returns (store': Store, nav: Navigation)
      modifies this
      ensures forall k :: k in SessionKeys ==> Get(store', k) == None
      ensures forall k :: k !in SessionKeys ==> Get(store', k) == Get(store, k)
      ensures userPreferences == None && activeProgram == None && programSessions == []
      ensures userName == None && userEmail == None && !isLoading
      ensures error == old(error)
      ensures nav == Replace(HomeRoute)
    {
      isLoading := true;
      store' := RemoveAll(store, SessionKeys);
      userPreferences := None;
      activeProgram := None;
      programSessions := [];
      userName := None;
      userEmail := None;
      isLoading := false;
      nav := Replace(HomeRoute);
    }
  }
}
