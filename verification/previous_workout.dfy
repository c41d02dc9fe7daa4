/**
 * The compact record used to compare a workout with earlier ones: its id, its date, and the
 * numbers read back from the `"45 mins"` and `"320 kcal"` strings.
 */
module PreviousWorkouts {
  import opened Wrappers
  import opened Text
  import opened WorkoutModel

  datatype PreviousWorkout = PreviousWorkout(
    id: Option<int>,
    date: string,
    durationInMinutes: int,
    caloriesBurned: int)

  /**
   * `Double(s.components(separatedBy: " ").first ?? "0") ?? 0`: the number written before the
   * first space, or 0 when that text is not a number. The first component always exists.
   */
  function LeadingNumber(s: string): (n: int)
    ensures var w := FirstComponent(s); |w| > 0 && AllDigits(w) ==> n == DigitsValue(w)
    ensures ParseSignedDigits(FirstComponent(s)).None? ==> n == 0
    ensures s == [] || s[0] == ' ' ==> n == 0
  {
    match ParseSignedDigits(FirstComponent(s))
    case Some(v) => v
    case None => 0
  }

  /** `"\(n) mins"`, as the add-workout form and the mock generators write a duration. */
  function MinutesText(n: int): string {
    IntToString(n) + " mins"
  }

  /** `"\(n) kcal"`, as the add-workout form and the mock generators write calories. */
  function KcalText(n: int): string {
    IntToString(n) + " kcal"
  }

  /** Anything written as a number, a space and a unit reads back as that number. */
  lemma LeadingNumberOfText(n: int, unit: string)
    ensures LeadingNumber(IntToString(n) + " " + unit) == n
  {
    var d := IntToString(n);
    assert ' ' !in d by {
      assert n < 0 ==> d == [d[0]] + d[1..];
    }
    FirstComponentOfWords(d, unit);
    ParseIntToString(n);
  }

  lemma MinutesRoundTrip(n: int)
    ensures LeadingNumber(MinutesText(n)) == n
  {
    LeadingNumberOfText(n, "mins");
    assert MinutesText(n) == IntToString(n) + " " + "mins";
  }

  lemma KcalRoundTrip(n: int)
    ensures LeadingNumber(KcalText(n)) == n
  {
    LeadingNumberOfText(n, "kcal");
    assert KcalText(n) == IntToString(n) + " " + "kcal";
  }

  /** `PreviousWorkout(from:)`: never fails; unreadable amounts become 0. */
  function FromWorkout(w: Workout): (p: PreviousWorkout)
    ensures p.id == w.id && p.date == w.date
    ensures p.durationInMinutes == LeadingNumber(w.duration)
    ensures p.caloriesBurned == LeadingNumber(w.calories)
  {
    PreviousWorkout(w.id, w.date, LeadingNumber(w.duration), LeadingNumber(w.calories))
  }

  /** A workout entered through the form compares with exactly the numbers typed in. */
  lemma FromWorkoutRoundTrip(w: Workout, minutes: int, kcal: int)
    requires w.duration == MinutesText(minutes) && w.calories == KcalText(kcal)
    ensures FromWorkout(w).durationInMinutes == minutes && FromWorkout(w).caloriesBurned == kcal
  {
    MinutesRoundTrip(minutes);
    KcalRoundTrip(kcal);
  }
}
