/**
 * The four mood attributes of the pet hedgehog, their limits and the clamp
 * that update_stats applies after every activity.
 */
module Mood {

  /** Lower and upper limit of every mood. */
  const MoodMinimum: int := 0
  const MoodMaximum: int := 15

  /** The value every mood starts with. */
  const InitialMood: int := 10

  /**
   * The mood dictionary with its four fixed keys. The fields are plain
   * integers: an activity may push a mood outside the limits before the
   * clamp brings it back (hunger 1 fed down to -1, for one).
   */
  datatype Moods = Moods(cleanliness: int, energy: int, happiness: int, hunger: int)

  /** The state the program starts with: every mood at 10. */
  const Initial: Moods := Moods(InitialMood, InitialMood, InitialMood, InitialMood)

  predicate InBounds(v: int) {
    MoodMinimum <= v <= MoodMaximum
  }

  /** The invariant shown on the status bar: every mood within the limits. */
  predicate InRange(m: Moods) {
    InBounds(m.cleanliness) && InBounds(m.energy) && InBounds(m.happiness) && InBounds(m.hunger)
  }

  function Min(a: int, b: int): int {
    if a <= b then a else b
  }

  function Max(a: int, b: int): int {
    if a >= b then a else b
  }

  /**
   * One mood clamped the way update_stats does it: a value above the maximum
   * is set to the maximum, then a value below the minimum to the minimum.
   */
  function Clamp(v: int): (r: int)
    ensures InBounds(r)
    ensures InBounds(v) ==> r == v
    ensures v > MoodMaximum ==> r == MoodMaximum
    ensures v < MoodMinimum ==> r == MoodMinimum
  {
    var capped := if v > MoodMaximum then MoodMaximum else v;
    if capped < MoodMinimum then MoodMinimum else capped
  }

  /** All four moods clamped; there is no interaction between the moods. */
  function ClampAll(m: Moods): (r: Moods)
    ensures InRange(r)
    ensures InRange(m) ==> r == m
  {
    Moods(Clamp(m.cleanliness), Clamp(m.energy), Clamp(m.happiness), Clamp(m.hunger))
  }

  /** Clamping twice is clamping once. */
  lemma ClampAllIdempotent(m: Moods)
    ensures ClampAll(ClampAll(m)) == ClampAll(m)
  {
  }
}
