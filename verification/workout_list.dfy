/**
 * The workout history screen's state: every known workout and the subset the user currently
 * sees, chosen by a workout-type filter and a free-text search.
 */
module WorkoutList {
  import opened Wrappers
  import opened Text
  import opened Seqs
  import opened Palette
  import opened WorkoutModel
  import opened PreviousWorkouts

  /** The filter chips above the list. */
  datatype WorkoutFilter = All | Running | Strength | Swimming | Cycling | Walking | Other

  /** The title fragments the type filters look for. */
  const CommonTypes: seq<string> := ["run", "strength", "weight", "swim", "cycl", "bike", "walk"]

  /** The type test, on the lower-cased title. */
  predicate MatchesType(w: Workout, f: WorkoutFilter) {
    var t := Lower(w.title);
    match f
    case All => true
    case Running => Contains(t, "run")
    case Strength => Contains(t, "strength") || Contains(t, "weight")
    case Swimming => Contains(t, "swim")
    case Cycling => Contains(t, "cycl") || Contains(t, "bike")
    case Walking => Contains(t, "walk")
    case Other => !(exists k :: 0 <= k < |CommonTypes| && Contains(t, CommonTypes[k]))
  }

  /** "Other" keeps exactly the workouts that every specific type rejects. */
  lemma OtherIsNoSpecificType(w: Workout)
    ensures MatchesType(w, Other) <==>
      !MatchesType(w, Running) && !MatchesType(w, Strength) && !MatchesType(w, Swimming)
      && !MatchesType(w, Cycling) && !MatchesType(w, Walking)
  {
    var t := Lower(w.title);
    assert CommonTypes[0] == "run" && CommonTypes[1] == "strength" && CommonTypes[2] == "weight";
    assert CommonTypes[3] == "swim" && CommonTypes[4] == "cycl" && CommonTypes[5] == "bike";
    assert CommonTypes[6] == "walk";
  }

  /** The search test: the lower-cased query occurs in the lower-cased title, date, duration or calories. */
  predicate MatchesSearch(w: Workout, query: string) {
    var q := Lower(query);
    Contains(Lower(w.title), q) || Contains(Lower(w.date), q)
    || Contains(Lower(w.duration), q) || Contains(Lower(w.calories), q)
  }

  /** What the screen shows for a filter and a search text. */
  function Filtered(ws: seq<Workout>, f: WorkoutFilter, query: string): (r: seq<Workout>)
    ensures |r| <= |ws|
  {
    var typed := if f == All then ws else Keep(ws, w => MatchesType(w, f));
    if query == [] then typed else Keep(typed, w => MatchesSearch(w, query))
  }

  /** A workout is shown exactly when it passes both the type test and (for a non-empty query) the search. */
  predicate Shown(w: Workout, f: WorkoutFilter, query: string) {
    MatchesType(w, f) && (query == [] || MatchesSearch(w, query))
  }

  /** The two steps combine into one order-preserving filter by the conjunction. */
  lemma FilteredIsOneFilter(ws: seq<Workout>, f: WorkoutFilter, query: string)
    ensures Filtered(ws, f, query) == Keep(ws, w => Shown(w, f, query))
  {
    var typed := if f == All then ws else Keep(ws, w => MatchesType(w, f));
    assert typed == Keep(ws, w => MatchesType(w, f)) by {
      if f == All {
        KeepEvery(ws, w => MatchesType(w, f));
      }
    }
    if query == [] {
      KeepSame(ws, w => MatchesType(w, f), w => Shown(w, f, query));
    } else {
      KeepKeep(ws, w => MatchesType(w, f), w => MatchesSearch(w, query), w => Shown(w, f, query));
    }
  }

  /** Membership: in the result exactly when in the list and shown. */
  lemma FilteredMembers(ws: seq<Workout>, f: WorkoutFilter, query: string, w: Workout)
    ensures w in Filtered(ws, f, query) <==> w in ws && Shown(w, f, query)
  {
    FilteredIsOneFilter(ws, f, query);
    KeepMembers(ws, x => Shown(x, f, query));
  }

  /** Filtering a list made of two parts filters each part in place, so the order is kept. */
  lemma FilteredKeepsOrder(a: seq<Workout>, b: seq<Workout>, f: WorkoutFilter, query: string)
    ensures Filtered(a + b, f, query) == Filtered(a, f, query) + Filtered(b, f, query)
  {
    FilteredIsOneFilter(a + b, f, query);
    FilteredIsOneFilter(a, f, query);
    FilteredIsOneFilter(b, f, query);
    KeepAppend(a, b, w => Shown(w, f, query));
  }

  /** No filter and no search shows everything. */
  lemma AllWithoutSearchIsIdentity(ws: seq<Workout>)
    ensures Filtered(ws, All, "") == ws
  {
  }

  /** The search ignores letter case: a query and its lower-cased form show the same workouts. */
  lemma SearchIgnoresCase(ws: seq<Workout>, f: WorkoutFilter, query: string)
    ensures Filtered(ws, f, query) == Filtered(ws, f, Lower(query))
  {
    LowerIdempotent(query);
    FilteredIsOneFilter(ws, f, query);
    FilteredIsOneFilter(ws, f, Lower(query));
    KeepSame(ws, w => Shown(w, f, query), w => Shown(w, f, Lower(query)));
  }

  /** Applying the same filter and search to what is shown changes nothing. */
  lemma FilteredIdempotent(ws: seq<Workout>, f: WorkoutFilter, query: string)
    ensures Filtered(Filtered(ws, f, query), f, query) == Filtered(ws, f, query)
  {
    FilteredIsOneFilter(ws, f, query);
    FilteredIsOneFilter(Filtered(ws, f, query), f, query);
    KeepIdempotent(ws, w => Shown(w, f, query));
  }

  /** The seven kinds of mock workout: title, symbol and colour. */
  const MockTypes: seq<(string, string, Color)> := [
    ("Running", "figure.run", Green),
    ("Strength Training", "figure.strengthtraining.traditional", Orange),
    ("Swimming", "figure.pool.swim", Blue),
    ("Cycling", "figure.outdoor.cycle", Purple),
    ("Walking", "figure.walk", Teal),
    ("Basketball", "figure.basketball", Red),
    ("Yoga", "figure.mind.and.body", Indigo)
  ]

  /** The duration texts a mock workout can have: 15 to 120 minutes. */
  const MockDurations: set<string> := set m | 15 <= m <= 120 :: MinutesText(m)

  /** The calorie texts a mock workout can have: 100 to 800 kcal. */
  const MockCalories: set<string> := set c | 100 <= c <= 800 :: KcalText(c)

  /** A mock workout: one of the seven kinds, with a mock duration and a mock calorie text. */
  predicate MockShaped(w: Workout) {
    (w.title, w.image, w.tinColor) in MockTypes && w.duration in MockDurations && w.calories in MockCalories
  }

  /** The numbers a comparison reads back from a mock workout are the generated ones, in range. */
  lemma MockNumbersReadBack(w: Workout)
    requires MockShaped(w)
    ensures 15 <= FromWorkout(w).durationInMinutes <= 120
    ensures 100 <= FromWorkout(w).caloriesBurned <= 800
  {
    var m :| 15 <= m <= 120 && w.duration == MinutesText(m);
    var c :| 100 <= c <= 800 && w.calories == KcalText(c);
    FromWorkoutRoundTrip(w, m, c);
  }

  /** One random mock workout with the given id and date label. */
  method MockWorkout(id: int, date: string) returns (w: Workout)
    ensures MockShaped(w) && w.id == Some(id) && w.date == date
  {
    var k :| 0 <= k < |MockTypes|;
    var minutes :| 15 <= minutes <= 120;
    var kcal :| 100 <= kcal <= 800;
    var (title, image, color) := MockTypes[k];
    w := Workout(Some(id), title, image, color, MinutesText(minutes), date, KcalText(kcal));
  }

  class WorkoutListViewModel {
    var allWorkouts: seq<Workout>
    var filteredWorkouts: seq<Workout>
    var isLoading: bool

    constructor ()
      ensures allWorkouts == [] && filteredWorkouts == [] && !isLoading
    {
      allWorkouts := [];
      filteredWorkouts := [];
      isLoading := false;
    }

    /**
     * `loadWorkouts` once the month query has answered. On success the fetched workouts, plus
     * up to 25 mock workouts of earlier months (`added`), are reordered by the date sort; on
     * failure thirty mock workouts replace the list. Either way everything is shown.
     */
    method LoadWorkouts(result: Fetch<seq<Workout>>, dateExists: (int, int) -> bool,
                        monthLabel: (int, int) -> string, dayLabel: int -> string)
      returns (ghost added: seq<Workout>)
      modifies this
      ensures !isLoading && filteredWorkouts == allWorkouts
      ensures result.Success? ==> MockAdditions(added) && multiset(allWorkouts) == multiset(result.value + added)
      ensures result.Failure? ==> ThirtyMocks(allWorkouts)
    {
      isLoading := true;
      added := [];
      match result {
        case Success(workouts) =>
          added := LoadFetched(workouts, dateExists, monthLabel);
        case Failure =>
          GenerateMockWorkouts(dayLabel);
          filteredWorkouts := allWorkouts;
      }
      isLoading := false;
    }

    /** The success branch of `loadWorkouts`: the fetched workouts with the mock months, sorted and shown. */
    method LoadFetched(workouts: seq<Workout>, dateExists: (int, int) -> bool, monthLabel: (int, int) -> string)
      returns (ghost added: seq<Workout>)
      modifies this
      ensures isLoading == old(isLoading) && filteredWorkouts == allWorkouts
      ensures MockAdditions(added) && multiset(allWorkouts) == multiset(workouts + added)
    {
      allWorkouts := workouts;
      AddMockWorkoutsForPreviousMonths(dateExists, monthLabel);
      added := allWorkouts[|workouts|..];
      assert allWorkouts == workouts + added;
      assert MockAdditions(added) by {
        assert forall i :: 0 <= i < |added| ==> added[i] == allWorkouts[|workouts| + i];
      }
      var sorted: seq<Workout> :| multiset(sorted) == multiset(allWorkouts);
      allWorkouts := sorted;
      filteredWorkouts := allWorkouts;
    }

    /** `filterWorkouts(by:searchText:)`: recomputes the visible list from the full one. */
    method FilterWorkouts(filter: WorkoutFilter, searchText: string)
      modifies this
      ensures allWorkouts == old(allWorkouts) && isLoading == old(isLoading)
      ensures filteredWorkouts == Filtered(allWorkouts, filter, searchText)
    {
      var filtered := allWorkouts;
      if filter != All {
        filtered := Keep(filtered, w => MatchesType(w, filter));
      }
      if searchText != [] {
        filtered := Keep(filtered, w => MatchesSearch(w, searchText));
      }
      filteredWorkouts := filtered;
    }

    /**
     * `generateMockWorkouts`: thirty random workouts with ids 0 to 29, then sorted by date.
     * `dateLabel(d)` is the formatted date `d` days ago; the sort's date comparison is not
     * modelled, so the result is some reordering of the generated list.
     */
    method GenerateMockWorkouts(dateLabel: int -> string)
      modifies this
      ensures filteredWorkouts == old(filteredWorkouts) && isLoading == old(isLoading)
      ensures ThirtyMocks(allWorkouts)
      ensures forall j :: 0 <= j < |allWorkouts| ==> allWorkouts[j].id.Some? && 0 <= allWorkouts[j].id.value < 30
    {
      allWorkouts := [];
      for i := 0 to 30
        invariant filteredWorkouts == old(filteredWorkouts) && isLoading == old(isLoading)
        invariant |allWorkouts| == i
        invariant forall j :: 0 <= j < i ==> MockShaped(allWorkouts[j]) && allWorkouts[j].id == Some(j)
      {
        var daysAgo :| 0 <= daysAgo <= 180;
        var w := MockWorkout(i, dateLabel(daysAgo));
        allWorkouts := allWorkouts + [w];
      }
      var sorted: seq<Workout> :| multiset(sorted) == multiset(allWorkouts);
      SortedMockWorkouts(allWorkouts, sorted);
      allWorkouts := sorted;
    }

    /**
     * `addMockWorkoutsForPreviousMonths`: five months back, five tries each. A try is skipped
     * when the calendar cannot build its date (`dateExists`); otherwise it appends a mock
     * workout whose id is the current count plus ten times the month plus the try number.
     * The ids of the appended workouts increase strictly.
     */
    method AddMockWorkoutsForPreviousMonths(dateExists: (int, int) -> bool, dateLabel: (int, int) -> string)
      modifies this
      ensures filteredWorkouts == old(filteredWorkouts) && isLoading == old(isLoading)
      ensures old(|allWorkouts|) <= |allWorkouts| <= old(|allWorkouts|) + 25
      ensures allWorkouts[..old(|allWorkouts|)] == old(allWorkouts)
      ensures forall i :: old(|allWorkouts|) <= i < |allWorkouts| ==> MockShaped(allWorkouts[i])
      ensures IncreasingIds(allWorkouts, old(|allWorkouts|))
      ensures (forall m, d :: dateExists(m, d)) ==> |allWorkouts| == old(|allWorkouts|) + 25
    {
      ghost var start := |allWorkouts|;
      for month := 1 to 6
        invariant filteredWorkouts == old(filteredWorkouts) && isLoading == old(isLoading)
        invariant start <= |allWorkouts| <= start + 5 * (month - 1)
        invariant allWorkouts[..start] == old(allWorkouts)
        invariant forall i :: start <= i < |allWorkouts| ==> MockShaped(allWorkouts[i])
        invariant IncreasingIds(allWorkouts, start)
        invariant IdsBelow(allWorkouts, start, |allWorkouts| + month * 10)
        invariant (forall m, d :: dateExists(m, d)) ==> |allWorkouts| == start + 5 * (month - 1)
      {
        ghost var before := allWorkouts;
        AddMockMonth(month, dateExists, dateLabel);
        IncreasingIdsJoin(before, allWorkouts, start, month);
      }
    }

    /** The five tries of one month. */
    method AddMockMonth(month: int, dateExists: (int, int) -> bool, dateLabel: (int, int) -> string)
      modifies this
      ensures filteredWorkouts == old(filteredWorkouts) && isLoading == old(isLoading)
      ensures old(|allWorkouts|) <= |allWorkouts| <= old(|allWorkouts|) + 5
      ensures allWorkouts[..old(|allWorkouts|)] == old(allWorkouts)
      ensures forall i :: old(|allWorkouts|) <= i < |allWorkouts| ==> MockShaped(allWorkouts[i])
      ensures IncreasingIds(allWorkouts, old(|allWorkouts|))
      ensures IdsAtLeast(allWorkouts, old(|allWorkouts|), old(|allWorkouts|) + month * 10)
      ensures IdsBelow(allWorkouts, old(|allWorkouts|), |allWorkouts| + month * 10 + 5)
      ensures (forall d :: dateExists(month, d)) ==> |allWorkouts| == old(|allWorkouts|) + 5
    {
      ghost var start := |allWorkouts|;
      for day := 0 to 5
        invariant filteredWorkouts == old(filteredWorkouts) && isLoading == old(isLoading)
        invariant start <= |allWorkouts| <= start + day
        invariant allWorkouts[..start] == old(allWorkouts)
        invariant forall i :: start <= i < |allWorkouts| ==> MockShaped(allWorkouts[i])
        invariant IncreasingIds(allWorkouts, start)
        invariant IdsAtLeast(allWorkouts, start, start + month * 10)
        invariant IdsBelow(allWorkouts, start, |allWorkouts| + month * 10 + day)
        invariant (forall d :: dateExists(month, d)) ==> |allWorkouts| == start + day
      {
        var daysOffset :| 1 <= daysOffset <= 28;
        if !dateExists(month, daysOffset) {
          continue;
        }
        var w := MockWorkout(|allWorkouts| + month * 10 + day, dateLabel(month, daysOffset));
        MockAppended(allWorkouts, start, w, month, day);
        allWorkouts := allWorkouts + [w];
      }
    }
  }

  /** At most 25 workouts, all mock-shaped: what the previous-months step may append. */
  predicate MockAdditions(added: seq<Workout>) {
    |added| <= 25 && forall i :: 0 <= i < |added| ==> MockShaped(added[i])
  }

  /** Thirty mock-shaped workouts carrying each of the ids 0 to 29. */
  predicate ThirtyMocks(ws: seq<Workout>) {
    && |ws| == 30 && (forall i :: 0 <= i < |ws| ==> MockShaped(ws[i]))
    && (forall i :: 0 <= i < 30 ==> exists j :: 0 <= j < |ws| && ws[j].id == Some(i))
  }

  /** From position `from` on, every workout has an id and the ids increase strictly. */
  predicate IncreasingIds(ws: seq<Workout>, from: int) {
    && (forall i :: from <= i < |ws| && 0 <= i ==> ws[i].id.Some?)
    && (forall i, j :: from <= i < j < |ws| && 0 <= i ==> ws[i].id.Some? && ws[j].id.Some? && ws[i].id.value < ws[j].id.value)
  }

  predicate IdsBelow(ws: seq<Workout>, from: int, bound: int) {
    forall i :: from <= i < |ws| && 0 <= i ==> ws[i].id.Some? && ws[i].id.value < bound
  }

  predicate IdsAtLeast(ws: seq<Workout>, from: int, bound: int) {
    forall i :: from <= i < |ws| && 0 <= i ==> ws[i].id.Some? && ws[i].id.value >= bound
  }

  /** Appending the next try's workout keeps the id bounds of a month. */
  lemma MockAppended(ws: seq<Workout>, start: int, w: Workout, month: int, day: int)
    requires 0 <= day && 0 <= start <= |ws| && MockShaped(w) && w.id == Some(|ws| + month * 10 + day)
    requires forall i :: start <= i < |ws| ==> MockShaped(ws[i])
    requires IncreasingIds(ws, start) && IdsAtLeast(ws, start, start + month * 10)
    requires IdsBelow(ws, start, |ws| + month * 10 + day)
    ensures (ws + [w])[..start] == ws[..start]
    ensures forall i :: start <= i < |ws + [w]| ==> MockShaped((ws + [w])[i])
    ensures IncreasingIds(ws + [w], start) && IdsAtLeast(ws + [w], start, start + month * 10)
    ensures IdsBelow(ws + [w], start, |ws + [w]| + month * 10 + day + 1)
  {
    var ws' := ws + [w];
    assert ws'[|ws|] == w;
    forall i | start <= i < |ws'|
      ensures MockShaped(ws'[i]) && ws'[i].id.Some?
      ensures start + month * 10 <= ws'[i].id.value < |ws'| + month * 10 + day + 1
    {
      if i < |ws| {
        assert ws'[i] == ws[i];
      }
    }
    forall i, j | start <= i < j < |ws'|
      ensures ws'[i].id.value < ws'[j].id.value
    {
      assert ws'[i] == ws[i];
      if j < |ws| {
        assert ws'[j] == ws[j];
      }
    }
  }

  /** The ids of one month all exceed those of the months before it. */
  lemma IncreasingIdsJoin(before: seq<Workout>, after: seq<Workout>, start: int, month: int)
    requires 0 <= start <= |before| <= |after| && after[..|before|] == before
    requires IncreasingIds(before, start) && IdsBelow(before, start, |before| + month * 10)
    requires IncreasingIds(after, |before|) && IdsAtLeast(after, |before|, |before| + month * 10)
    requires IdsBelow(after, |before|, |after| + month * 10 + 5)
    ensures IncreasingIds(after, start) && IdsBelow(after, start, |after| + (month + 1) * 10)
  {
    forall i | start <= i < |before|
      ensures after[i] == before[i]
    {
      assert after[..|before|][i] == after[i];
    }
  }

  /** A reordering of the thirty generated workouts keeps their shapes and their ids 0 to 29. */
  lemma SortedMockWorkouts(generated: seq<Workout>, sorted: seq<Workout>)
    requires |generated| == 30 && multiset(sorted) == multiset(generated)
    requires forall j :: 0 <= j < 30 ==> MockShaped(generated[j]) && generated[j].id == Some(j)
    ensures ThirtyMocks(sorted)
    ensures forall j :: 0 <= j < |sorted| ==> sorted[j].id.Some? && 0 <= sorted[j].id.value < 30
  {
    PermutationMembers(generated, sorted);
    forall j | 0 <= j < |sorted|
      ensures MockShaped(sorted[j]) && sorted[j].id.Some? && 0 <= sorted[j].id.value < 30
    {
      var k :| 0 <= k < 30 && generated[k] == sorted[j];
    }
    forall i | 0 <= i < 30
      ensures exists j :: 0 <= j < |sorted| && sorted[j].id == Some(i)
    {
      var j :| 0 <= j < |sorted| && sorted[j] == generated[i];
    }
  }
}
