/**
 * The workout record shared by the list, the detail screen and the insight generators, with its
 * hand-written equality and hashing.
 */
module WorkoutModel {
  import opened Wrappers
  import opened Palette

  /** `id` is optional; `tinColor` is a display colour. */
  datatype Workout = Workout(
    id: Option<int>,
    title: string,
    image: string,
    tinColor: Color,
    duration: string,
    date: string,
    calories: string)

  /**
   * The custom `==`: two workouts that both carry an id are equal exactly when the ids are;
   * otherwise title, image, duration, date and calories are compared and the colour is ignored.
   */
  predicate Same(a: Workout, b: Workout) {
    if a.id.Some? && b.id.Some? then a.id.value == b.id.value
    else
      a.title == b.title && a.image == b.image && a.duration == b.duration
      && a.date == b.date && a.calories == b.calories
  }

  /** With both ids present, nothing but the ids matters. */
  lemma SameByIds(a: Workout, b: Workout)
    requires a.id.Some? && b.id.Some?
    ensures Same(a, b) <==> a.id == b.id
  {
  }

  /** The colour never takes part in the comparison. */
  lemma SameIgnoresColor(a: Workout, b: Workout, c: Color)
    ensures Same(a, b) <==> Same(a.(tinColor := c), b)
  {
  }

  lemma SameReflexive(a: Workout)
    ensures Same(a, a)
  {
  }

  lemma SameSymmetric(a: Workout, b: Workout)
    ensures Same(a, b) <==> Same(b, a)
  {
  }

  /**
   * The comparison is not transitive: a workout without id equals two workouts with the same
   * fields but different ids, which are not equal to each other.
   */
  lemma SameNotTransitive(x: Workout)
    ensures var a, b, c := x.(id := Some(1)), x.(id := None), x.(id := Some(2));
      Same(a, b) && Same(b, c) && !Same(a, c)
  {
  }

  /** What `hash(into:)` feeds the hasher: every field except the colour, in declaration order. */
  datatype HashInput = HashInput(id: Option<int>, title: string, image: string, duration: string,
                                 date: string, calories: string)

  function Hashed(w: Workout): (h: HashInput)
    ensures h.id == w.id && h.title == w.title && h.image == w.image
    ensures h.duration == w.duration && h.date == w.date && h.calories == w.calories
  {
    HashInput(w.id, w.title, w.image, w.duration, w.date, w.calories)
  }

  /** Equal hash inputs imply equality, so hashing is finer than `==`. */
  lemma HashedDeterminesSame(a: Workout, b: Workout)
    requires Hashed(a) == Hashed(b)
    ensures Same(a, b)
  {
  }

  /**
   * The converse fails: two workouts with the same id and different titles are equal, yet feed
   * different inputs to the hasher.
   */
  lemma SameButHashedApart(x: Workout, t: string)
    requires x.id.Some? && t != x.title
    ensures Same(x, x.(title := t)) && Hashed(x) != Hashed(x.(title := t))
  {
  }
}
