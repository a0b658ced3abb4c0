/**
 * The program's state and handlers in their imperative form: the mood
 * dictionary as four mutable fields, the feedback phrase and the status bar
 * text, and one method per button handler. Each handler is proved to do what
 * Activities.Step says of the pure state.
 */
module Pet {
  import opened Mood
  import opened Status
  import opened Activities

  class Hedgehog {
    var cleanliness: int
    var energy: int
    var happiness: int
    var hunger: int

    /** The phrase on the feedback bar. */
    var saying: string

    /** The text on the status bar. */
    var status: string

    /** The four moods as a value. */
    function State(): Moods
      reads this
    {
      Moods(cleanliness, energy, happiness, hunger)
    }

    /** Moods within the limits, and the status bar showing them. */
    ghost predicate Valid()
      reads this
    {
      InRange(State()) && status == StatusLine(State())
    }

    /** Program start: every mood at 10, the status bar filled in, a greeting. */
    constructor ()
      ensures Valid()
      ensures State() == Initial && saying == "Hello friend!"
    {
      cleanliness, energy, happiness, hunger := InitialMood, InitialMood, InitialMood, InitialMood;
      saying, status := "", "";
      new;
      UpdateStats();
      UpdateSayings("Hello friend!");
    }

    /** Shows a phrase on the feedback bar. */
    method UpdateSayings(phrase: string)
      modifies this`saying
      ensures saying == phrase
    {
      saying := phrase;
    }

    /**
     * The gate: with no cleanliness left it shows that the pet is too dirty
     * and refuses; otherwise it takes one point of cleanliness.
     */
    method CheckCleanliness() returns (clean: bool)
      modifies this
      ensures clean <==> old(cleanliness) > MoodMinimum
      ensures clean ==> State() == old(State()).(cleanliness := old(cleanliness) - 1) && saying == old(saying)
      ensures !clean ==> State() == old(State()) && saying == TooDirty
      ensures status == old(status)
    {
      if cleanliness <= MoodMinimum {
        UpdateSayings(TooDirty);
        return false;
      } else {
        cleanliness := cleanliness - 1;
        return true;
      }
    }

    /** Brings each mood back within the limits, one field after another. */
    method ClampMoods()
      modifies this
      ensures State() == ClampAll(old(State()))
      ensures saying == old(saying) && status == old(status)
    {
      if cleanliness > MoodMaximum { cleanliness := MoodMaximum; }
      if cleanliness < MoodMinimum { cleanliness := MoodMinimum; }
      if energy > MoodMaximum { energy := MoodMaximum; }
      if energy < MoodMinimum { energy := MoodMinimum; }
      if happiness > MoodMaximum { happiness := MoodMaximum; }
      if happiness < MoodMinimum { happiness := MoodMinimum; }
      if hunger > MoodMaximum { hunger := MoodMaximum; }
      if hunger < MoodMinimum { hunger := MoodMinimum; }
    }

    /** Clamps the moods, then rebuilds the status bar text from them. */
    method UpdateStats()
      modifies this
      ensures State() == ClampAll(old(State()))
      ensures saying == old(saying)
      ensures Valid()
    {
      ClampMoods();
      status := RenderStats(Entries(State()));
    }

    /** The bathe button: no gate, then the rule, then update_stats. */
    method HandleBathe() returns (animated: bool)
      modifies this
      ensures Reaction(State(), saying, animated) == Step(old(State()), Bathe)
      ensures Valid()
    {
      if cleanliness < MoodMaximum {
        UpdateSayings(HateBathing);
        happiness := happiness - 1;
        cleanliness := cleanliness + 3;
        animated := true;
      } else {
        UpdateSayings(AsCleanAsCanBe);
        cleanliness := cleanliness + 1;
        animated := false;
      }
      UpdateStats();
    }

    /** The feed button: the gate, then the rule, then update_stats. */
    method HandleFeed() returns (animated: bool)
      modifies this
      ensures Reaction(State(), saying, animated) == Step(old(State()), Feed)
      ensures status == if old(cleanliness) <= MoodMinimum then old(status) else StatusLine(State())
      ensures old(Valid()) ==> Valid()
    {
      var clean := CheckCleanliness();
      if !clean {
        return false;
      }
      if MoodMinimum < hunger <= MoodMaximum {
        UpdateSayings(Yummy);
        energy := energy + 1;
        hunger := hunger - 2;
        animated := true;
      } else {
        UpdateSayings(TooFull);
        cleanliness := cleanliness + 1;
        animated := false;
      }
      UpdateStats();
    }

    /** The love button: the gate, then the rule, then update_stats. */
    method HandleLove() returns (animated: bool)
      modifies this
      ensures Reaction(State(), saying, animated) == Step(old(State()), Love)
      ensures status == if old(cleanliness) <= MoodMinimum then old(status) else StatusLine(State())
      ensures old(Valid()) ==> Valid()
    {
      var clean := CheckCleanliness();
      if !clean {
        return false;
      }
      if MoodMinimum < happiness < MoodMaximum {
        UpdateSayings(LoveYou);
        happiness := happiness + 1;
        animated := true;
      } else {
        UpdateSayings(NeedSpace);
        cleanliness := cleanliness + 1;
        animated := false;
      }
      UpdateStats();
    }

    /** The play button: the gate, then the rule, then update_stats. */
    method HandlePlay() returns (animated: bool)
      modifies this
      ensures Reaction(State(), saying, animated) == Step(old(State()), Play)
      ensures status == if old(cleanliness) <= MoodMinimum then old(status) else StatusLine(State())
      ensures old(Valid()) ==> Valid()
    {
      var clean := CheckCleanliness();
      if !clean {
        return false;
      }
      if energy <= MoodMinimum {
        UpdateSayings(NoEnergy);
        cleanliness := cleanliness + 1;
        animated := false;
      } else if hunger >= MoodMaximum {
        UpdateSayings(TooHungry);
        cleanliness := cleanliness + 1;
        animated := false;
      } else {
        UpdateSayings(Fun);
        energy := energy - 2;
        happiness := happiness + 1;
        hunger := hunger + 1;
        animated := true;
      }
      UpdateStats();
    }

    /** The sleep button: the gate, then the rule, then update_stats. */
    method HandleSleep() returns (animated: bool)
      modifies this
      ensures Reaction(State(), saying, animated) == Step(old(State()), Sleep)
      ensures status == if old(cleanliness) <= MoodMinimum then old(status) else StatusLine(State())
      ensures old(Valid()) ==> Valid()
    {
      var clean := CheckCleanliness();
      if !clean {
        return false;
      }
      if energy < MoodMaximum {
        UpdateSayings(Bedtime);
        energy := energy + 3;
        animated := true;
      } else {
        UpdateSayings(WellRested);
        cleanliness := cleanliness + 1;
        animated := false;
      }
      UpdateStats();
    }
  }
}
