/**
 * The five activities as pure transitions of the moods: the cleanliness gate,
 * each activity's first-match-wins rule, and the clamp that follows.
 */
module Activities {
  import opened Mood

  datatype Activity = Bathe | Feed | Love | Play | Sleep

  /**
   * What an activity leads to: the new moods, the phrase that the feedback
   * bar shows, and whether the activity's animation plays.
   */
  datatype Reaction = Reaction(moods: Moods, saying: string, animated: bool)

  const TooDirty: string := "I am too dirty to do anything!"
  const HateBathing: string := "I hate bathing"
  const AsCleanAsCanBe: string := "I am as clean as can be!"
  const Yummy: string := "That was yummy"
  const TooFull: string := "I am too full to eat"
  const LoveYou: string := "I love you"
  const NeedSpace: string := "Thanks, but I need some space"
  const NoEnergy: string := "Sorry I have no energy, I need sleep!"
  const TooHungry: string := "I am too hungry to play!"
  const Fun: string := "Haha that was fun"
  const Bedtime: string := "Hmm... bedtime"
  const WellRested: string := "I feel very rested and do not want to sleep"

  /** Every activity but bathing first passes the cleanliness gate. */
  predicate Gated(a: Activity) {
    a != Bathe
  }

  /**
   * The activity's own rule on the moods after the gate, before the clamp:
   * the first condition that holds decides the phrase, the deltas and the
   * animation. Every refusal of a gated activity gives back the point of
   * cleanliness that the gate took.
   */
  function Rule(a: Activity, m: Moods): Reaction {
    match a
    case Bathe =>
      if m.cleanliness < MoodMaximum then
        Reaction(m.(happiness := m.happiness - 1, cleanliness := m.cleanliness + 3), HateBathing, true)
      else
        Reaction(m.(cleanliness := m.cleanliness + 1), AsCleanAsCanBe, false)
    case Feed =>
      if MoodMinimum < m.hunger <= MoodMaximum then
        Reaction(m.(energy := m.energy + 1, hunger := m.hunger - 2), Yummy, true)
      else
        Reaction(m.(cleanliness := m.cleanliness + 1), TooFull, false)
    case Love =>
      if MoodMinimum < m.happiness < MoodMaximum then
        Reaction(m.(happiness := m.happiness + 1), LoveYou, true)
      else
        Reaction(m.(cleanliness := m.cleanliness + 1), NeedSpace, false)
    case Play =>
      if m.energy <= MoodMinimum then
        Reaction(m.(cleanliness := m.cleanliness + 1), NoEnergy, false)
      else if m.hunger >= MoodMaximum then
        Reaction(m.(cleanliness := m.cleanliness + 1), TooHungry, false)
      else
        Reaction(m.(energy := m.energy - 2, happiness := m.happiness + 1, hunger := m.hunger + 1), Fun, true)
    case Sleep =>
      if m.energy < MoodMaximum then
        Reaction(m.(energy := m.energy + 3), Bedtime, true)
      else
        Reaction(m.(cleanliness := m.cleanliness + 1), WellRested, false)
  }

  /**
   * One button press. A gated activity on a pet with no cleanliness left
   * stops at once: the moods stay as they are (not even clamped) and nothing
   * plays. Otherwise the gate takes one point of cleanliness, the rule runs
   * and all four moods are clamped.
   */
  function Step(m: Moods, a: Activity): (r: Reaction)
    ensures Gated(a) && m.cleanliness <= MoodMinimum ==> r == Reaction(m, TooDirty, false)
    ensures !Gated(a) || m.cleanliness > MoodMinimum ==> InRange(r.moods)
    ensures InRange(m) ==> InRange(r.moods)
  {
    if Gated(a) && m.cleanliness <= MoodMinimum then
      Reaction(m, TooDirty, false)
    else
      var gated := if Gated(a) then m.(cleanliness := m.cleanliness - 1) else m;
      var raw := Rule(a, gated);
      raw.(moods := ClampAll(raw.moods))
  }

  /** Bathing: the two branches with the clamp worked out as saturation. */
  lemma BatheEffect(m: Moods)
    requires InRange(m)
    ensures Step(m, Bathe) ==
      if m.cleanliness < MoodMaximum then
        Reaction(m.(happiness := Max(m.happiness - 1, MoodMinimum),
                    cleanliness := Min(m.cleanliness + 3, MoodMaximum)), HateBathing, true)
      else
        Reaction(m, AsCleanAsCanBe, false)
  {
  }

  /** Feeding a pet that is not too dirty. */
  lemma FeedEffect(m: Moods)
    requires InRange(m) && m.cleanliness > MoodMinimum
    ensures Step(m, Feed) ==
      if m.hunger > MoodMinimum then
        Reaction(m.(cleanliness := m.cleanliness - 1,
                    energy := Min(m.energy + 1, MoodMaximum),
                    hunger := Max(m.hunger - 2, MoodMinimum)), Yummy, true)
      else
        Reaction(m, TooFull, false)
  {
  }

  /** Loving a pet that is not too dirty. */
  lemma LoveEffect(m: Moods)
    requires InRange(m) && m.cleanliness > MoodMinimum
    ensures Step(m, Love) ==
      if MoodMinimum < m.happiness < MoodMaximum then
        Reaction(m.(cleanliness := m.cleanliness - 1, happiness := m.happiness + 1), LoveYou, true)
      else
        Reaction(m, NeedSpace, false)
  {
  }

  /** Playing with a pet that is not too dirty: no energy is checked before hunger. */
  lemma PlayEffect(m: Moods)
    requires InRange(m) && m.cleanliness > MoodMinimum
    ensures Step(m, Play) ==
      if m.energy <= MoodMinimum then
        Reaction(m, NoEnergy, false)
      else if m.hunger >= MoodMaximum then
        Reaction(m, TooHungry, false)
      else
        Reaction(m.(cleanliness := m.cleanliness - 1,
                    energy := Max(m.energy - 2, MoodMinimum),
                    happiness := Min(m.happiness + 1, MoodMaximum),
                    hunger := m.hunger + 1), Fun, true)
  {
  }

  /** Putting a pet that is not too dirty to sleep. */
  lemma SleepEffect(m: Moods)
    requires InRange(m) && m.cleanliness > MoodMinimum
    ensures Step(m, Sleep) ==
      if m.energy < MoodMaximum then
        Reaction(m.(cleanliness := m.cleanliness - 1, energy := Min(m.energy + 3, MoodMaximum)), Bedtime, true)
      else
        Reaction(m, WellRested, false)
  {
  }

  /**
   * On a state within the limits an activity changes the moods exactly when
   * its animation plays: every refusal, the gate's included, is neutral.
   */
  lemma AnimatedIffChanged(m: Moods, a: Activity)
    requires InRange(m)
    ensures Step(m, a).animated <==> Step(m, a).moods != m
  {
  }

  /**
   * The net cost in cleanliness of a gated activity is one point when its
   * animation plays and nothing otherwise.
   */
  lemma GatedCleanlinessCost(m: Moods, a: Activity)
    requires InRange(m) && Gated(a)
    ensures Step(m, a).moods.cleanliness ==
      if Step(m, a).animated then m.cleanliness - 1 else m.cleanliness
  {
  }

  /** From the starting state, bathing gives happiness 9 and cleanliness 13. */
  lemma InitialBathe()
    ensures Step(Initial, Bathe) == Reaction(Moods(13, 10, 9, 10), HateBathing, true)
  {
  }

  /** The moods after a sequence of button presses, one after another. */
  function Run(m: Moods, acts: seq<Activity>): Moods
    decreases |acts|
  {
    if acts == [] then m else Run(Step(m, acts[0]).moods, acts[1..])
  }

  /** However the buttons are pressed, the moods stay within the limits. */
  lemma {:induction false} RunStaysInRange(m: Moods, acts: seq<Activity>)
    requires InRange(m)
    ensures InRange(Run(m, acts))
    decreases |acts|
  {
    if acts != [] {
      RunStaysInRange(Step(m, acts[0]).moods, acts[1..]);
    }
  }
}
