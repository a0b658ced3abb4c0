# My Pet Hedgehog: the pet-state engine

A model of the state engine behind the virtual pet hedgehog in
`my_pet_hedgehog.py`. The pet has four moods (Cleanliness, Energy, Happiness,
Hunger), each starting at 10 and kept between 0 and 15. Five buttons (bathe,
feed, love, play, sleep) each run a first-match-wins rule that adjusts the
moods, picks a phrase for the feedback bar and maybe plays an animation.
Every button except bathe first passes a cleanliness gate. At cleanliness 0
the gate shows "I am too dirty to do anything!" and stops the handler. Otherwise the
gate takes one point of cleanliness. After the rule, `update_stats` clamps
all four moods into [0, 15] and rebuilds the status text.

The project has five modules:

- `Mood` (`mood.dfy`): the limits, the `Moods` record of the four moods, and the clamp.
- `Decimal` (`decimal.dfy`): the decimal text of an integer, as Python's `str`
  writes it, and its inverse.
- `Status` (`status.dfy`): the status bar text, one segment per mood in the
  dictionary's order. A segment is the name, `": "`, the value and five
  spaces, and the last segment is padded too. The text is built by the same
  appending loop as the source.
- `Activities` (`activities.dfy`): the gate, the five rules and the clamp as
  one pure transition `Step`, plus the properties proved about it.
- `Pet` (`pet.dfy`): the class `Hedgehog`. It holds the mood dictionary as four
  mutable `int` fields, plus the phrase and the status text. It has one method
  per handler, each updating the fields step by step as the source does.
  Every handler is proved to leave exactly the state that `Step` gives.

The moods are `int` and not `nat`, because a rule may push a mood out of range
before the clamp (hunger 1 fed down to -1).

## Model

| member | source | states |
|---|---|---|
| Mood.Clamp | my_pet_hedgehog.py:429-451 | a clamped mood lies in [0, 15]; in-range values are unchanged; values above 15 become 15 and values below 0 become 0 |
| Mood.ClampAll | my_pet_hedgehog.py:429-451 | after the clamp all four moods lie in [0, 15], and a state already within the limits is left unchanged |
| Mood.ClampAllIdempotent | my_pet_hedgehog.py:429-451 | clamping twice gives the same state as clamping once |
| Decimal.NatToString | my_pet_hedgehog.py:460 | the decimal text of a natural number is non-empty, all digits, and has no leading zero |
| Decimal.IntToString | my_pet_hedgehog.py:460 | the text of an integer is non-empty, starts with a minus sign exactly when the integer is negative, and has no zero padding after the sign |
| Decimal.NatRoundTrip | my_pet_hedgehog.py:460 | reading the digits of a natural number back gives that number |
| Decimal.IntRoundTrip | my_pet_hedgehog.py:460 | the text of any integer is a numeral, and reading it back gives that integer |
| Status.RenderStats | my_pet_hedgehog.py:458-460 | the loop that starts from the empty string and appends one segment per entry gives the concatenation of all segments in order |
| Status.RenderAppend | my_pet_hedgehog.py:460 | appending one entry to the list appends its segment to the text |
| Status.StatusLineShape | my_pet_hedgehog.py:458-460 | the status text is the Cleanliness, Energy, Happiness and Hunger segments in that order (the dictionary order of lines 44-47), each with its trailing padding |
| Status.StatusLineInjective | my_pet_hedgehog.py:458-461 | two states with the same status text are equal, so the status bar shows every mood |
| Activities.Step | my_pet_hedgehog.py:111-292 | a gated activity at cleanliness 0 or less gives back the unchanged state, the too-dirty phrase and no animation; every other press ends with all moods in [0, 15]; a state in range stays in range |
| Activities.BatheEffect | my_pet_hedgehog.py:111-130 | below cleanliness 15: "I hate bathing", animation, happiness max(h-1, 0), cleanliness min(c+3, 15), nothing else changes; at 15: "I am as clean as can be!", no animation, state unchanged |
| Activities.FeedEffect | my_pet_hedgehog.py:147-169 | past the gate, with hunger above 0: "That was yummy", animation, cleanliness c-1, energy min(e+1, 15), hunger max(h-2, 0); at hunger 0: "I am too full to eat", no animation, state unchanged |
| Activities.LoveEffect | my_pet_hedgehog.py:186-207 | past the gate, with happiness strictly between 0 and 15: "I love you", animation, happiness +1, cleanliness c-1; at 0 or 15: "Thanks, but I need some space", no animation, state unchanged |
| Activities.PlayEffect | my_pet_hedgehog.py:226-254 | past the gate, checked in order: energy 0 gives "Sorry I have no energy, I need sleep!", then hunger 15 gives "I am too hungry to play!", both leaving the state unchanged; otherwise "Haha that was fun", animation, energy max(e-2, 0), happiness min(h+1, 15), hunger +1, cleanliness c-1 |
| Activities.SleepEffect | my_pet_hedgehog.py:271-292 | past the gate, below energy 15: "Hmm... bedtime", animation, energy min(e+3, 15), cleanliness c-1; at 15: "I feel very rested and do not want to sleep", no animation, state unchanged |
| Activities.AnimatedIffChanged | my_pet_hedgehog.py:111-292 | on a state in range, an activity changes the moods exactly when its animation plays, so every refusal (the gate's included) is neutral |
| Activities.GatedCleanlinessCost | my_pet_hedgehog.py:407-417 | on a state in range, feed, love, play and sleep cost one point of cleanliness net when they animate and none otherwise |
| Activities.InitialBathe | my_pet_hedgehog.py:44-47 | from the starting state, bathing gives happiness 9, cleanliness 13, "I hate bathing" and the animation |
| Activities.RunStaysInRange | my_pet_hedgehog.py:420-451 | after any sequence of button presses from a state in range, every mood is still in [0, 15] |
| Pet.Hedgehog.constructor | my_pet_hedgehog.py:44-47 | the pet starts with every mood at 10, a status text matching the moods, and the greeting "Hello friend!" (as main sets them up at lines 489 and 501) |
| Pet.Hedgehog.UpdateSayings | my_pet_hedgehog.py:466-473 | the feedback phrase becomes the given phrase and nothing else changes |
| Pet.Hedgehog.CheckCleanliness | my_pet_hedgehog.py:407-417 | passes exactly when cleanliness is above 0, and then takes one point of cleanliness; otherwise it sets the too-dirty phrase and changes no mood |
| Pet.Hedgehog.ClampMoods | my_pet_hedgehog.py:429-451 | overwriting the out-of-range fields one by one leaves the clamp of the old state, and no other field changes |
| Pet.Hedgehog.UpdateStats | my_pet_hedgehog.py:420-463 | the moods become the clamp of the old moods, the status text is rebuilt from them, and the phrase stays |
| Pet.Hedgehog.HandleBathe | my_pet_hedgehog.py:111-130 | the new moods, phrase and animation flag are exactly what `Step` gives for bathing, and the state is valid afterwards |
| Pet.Hedgehog.HandleFeed | my_pet_hedgehog.py:147-169 | the new moods, phrase and animation flag are what `Step` gives for feeding; the status text is only rebuilt when the gate lets the activity through |
| Pet.Hedgehog.HandleLove | my_pet_hedgehog.py:186-207 | the new moods, phrase and animation flag are what `Step` gives for loving; the status text is only rebuilt when the gate lets the activity through |
| Pet.Hedgehog.HandlePlay | my_pet_hedgehog.py:226-254 | the new moods, phrase and animation flag are what `Step` gives for playing; the status text is only rebuilt when the gate lets the activity through |
| Pet.Hedgehog.HandleSleep | my_pet_hedgehog.py:271-292 | the new moods, phrase and animation flag are what `Step` gives for sleeping; the status text is only rebuilt when the gate lets the activity through |

Two facts about the code that the model keeps exactly:

- Line 460 appends five spaces after every entry, the last one included.
- The gated handlers return at lines 155-156, 194-195, 236-237 and 279-280,
  before `update_stats` runs. On that path nothing is clamped and the status
  text is not rebuilt, although the `update_stats` docstring (lines 423-424)
  speaks of an update after every activity. The handlers say this in their
  `status` postcondition.

## Left out

- The tkinter window, frames, buttons and labels, and the `main` loop: user interface only. The constructor stands for the start-up part of `main` (lines 489 and 501).
- Image loading and resizing with PIL (`get_initial_hedgehog`, `open_animation_image`, `reset_hedgehog`): calls into a foreign library.
- The animations and `update_panel`, with their `time.sleep` delays and frame timing (`ANIMATION_FPS`): reduced to the `animated` result of each handler.
- `disable_buttons` and `enable_buttons`: they only keep clicks from queueing while an animation plays. Every handler runs to completion without interleaving, so the model has no busy state.
- The `print` calls and the `StringVar` setters: output. The phrase and the status text are plain string fields instead.
- A dispatcher that takes an activity by name and rejects unknown names: the program has none, since each button calls its own handler.
