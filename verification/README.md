# Glow stick fold reaction, modelled in Dafny

Barkane is a paper-folding puzzle game. One of its items is a glow stick
that sits on a paper joint and listens to the fold event. The stick has
three states: primed, cracked and off. It starts primed, with a fold counter
`lifetime` that defaults to 4. The first completed fold whose fold line holds
the stick's joint cracks it. Cracking switches both of its glow-stick boxes
on, shows the second material of its renderer's list and turns on the
particles of every crystal shard. Each later fold takes one from the counter.
When the counter reaches exactly 0 the stick goes off. Going off switches the
boxes off, shows the third material and turns the shard particles off.

The project has three modules:

- `CSharpInt` (`int32.dfy`): the C# `int` that `lifetime` is, with its unchecked
  wrap-around on decrement.
- `GlowStickLogic` (`glowstick.dfy`):
  - the state enum, and a `Snapshot` value holding everything a fold event can change;
  - the pure reaction `Fold`;
  - the class `GlowStick`, with the fields of the source class;
  - the event handler `OnFold`, `ToggleGSBoxes` and the loop over the shards.
  - `OnFold` is proved to leave the scene exactly as `Fold` says.
- `GlowStickLifecycle` (`lifecycle.dfy`): `Run`, the effect of a sequence of
  folds, and lemmas about whole lifecycles.

A few points where the code's own semantics decide the model:

- `lifetime` is a 32-bit `int` in unchecked arithmetic. A cracked stick whose
  counter is 0 or below when cracked is therefore not lit forever. The test
  `lifetime == 0` fails until the counter has wrapped from -2^31 to 2^31 - 1
  and run down again, which takes `lifetime + 2^32` folds.
  `GlowStickLifecycle.CrackedNonPositiveLifetime` states this. For the same
  reason, the counter never increases except at that wrap.
- Indexing `materials[1]` or `materials[2]` on a list that is too short
  throws `ArgumentOutOfRangeException`. The model returns this as
  `FoldOutcome.ArgumentOutOfRange`. It keeps
  the updates that happen before the throw: the state and both box flags
  change, but the material and the shards do not.
- The two boxes are objects and may be the same object. The shard flags are
  one array, and several sticks may share it, as they share the scene's shards.

## Model

| member | source | states |
|---|---|---|
| `CSharpInt.Decrement` | Barkane/Assets/Scripts/Mechanics/GlowStick/GlowStickLogic.cs:34 | `lifetime--` gives the 32-bit value congruent to `lifetime - 1` modulo 2^32; it is smaller than before except when the counter was -2^31 |
| `GlowStickLogic.Fold` | Barkane/Assets/Scripts/Mechanics/GlowStick/GlowStickLogic.cs:30-53 | one fold event: only a cracked stick's counter moves, by exactly one, and it never increases except at the 32-bit wrap; a cracked stick goes off iff the decremented counter is 0, and then both boxes are off, every shard is dark and the third material is shown (or the indexer throws with index 2 and shards and material are unchanged); otherwise only the counter changes; a primed stick cracks iff the fold line holds its joint, and then both boxes are on, every shard is lit and the second material is shown (or the indexer throws with index 1), with the counter unchanged, so no fold both cracks and decrements; an off stick and a primed stick off the fold line are left as they are; the state moves forward by at most one step |
| `GlowStickLogic.GlowStick.constructor` | Barkane/Assets/Scripts/Mechanics/GlowStick/GlowStickLogic.cs:7-14 | a new stick is primed with lifetime 4 and holds the boxes, materials, shards and joint it is given |
| `GlowStickLogic.GlowStick.OnFold` | Barkane/Assets/Scripts/Mechanics/GlowStick/GlowStickLogic.cs:30-53 | the handler leaves the stick's state, counter and material, both boxes' flags and every shard flag exactly as `Fold` of the old scene says, and reports whether the material indexer threw |
| `GlowStickLogic.GlowStick.ToggleGSBoxes` | Barkane/Assets/Scripts/Mechanics/GlowStick/GlowStickLogic.cs:56-60 | both boxes' flags become `toggle`; nothing else may change |
| `GlowStickLogic.GlowStick.ActivateShards` | Barkane/Assets/Scripts/Mechanics/GlowStick/GlowStickLogic.cs:41-42 | every shard's particle flag becomes `on` |
| `GlowStickLifecycle.CrackedRun` | Barkane/Assets/Scripts/Mechanics/GlowStick/GlowStickLogic.cs:32-43 | a cracked stick stays cracked, with its counter running down modulo 2^32, for fewer than `FoldsUntilOff(lifetime)` folds, and is off with counter 0 from then on, whatever joints the folds hold |
| `GlowStickLifecycle.CrackedGoesOffAfterLifetime` | Barkane/Assets/Scripts/Mechanics/GlowStick/GlowStickLogic.cs:34-38 | with a counter n > 0, a cracked stick is still cracked with counter n - k after k < n folds and is off after n or more folds |
| `GlowStickLifecycle.CrackedNonPositiveLifetime` | Barkane/Assets/Scripts/Mechanics/GlowStick/GlowStickLogic.cs:34-38 | with a counter n <= 0, a cracked stick is off exactly after n + 2^32 or more folds, so it stays cracked through any run of up to 2^31 - 1 folds |
| `GlowStickLifecycle.OffRun` | Barkane/Assets/Scripts/Mechanics/GlowStick/GlowStickLogic.cs:32-52 | once off, the stick is unchanged by any sequence of folds |
| `GlowStickLifecycle.PrimedWaits` | Barkane/Assets/Scripts/Mechanics/GlowStick/GlowStickLogic.cs:45 | a primed stick is unchanged by any sequence of folds none of whose fold lines holds its joint |
| `GlowStickLifecycle.PrimedLifecycle` | Barkane/Assets/Scripts/Mechanics/GlowStick/GlowStickLogic.cs:32-52 | the cracking fold does not count against the lifetime: a primed stick with counter n > 0 cracked by the first fold is cracked through n folds and off from fold n + 1 on |
| `GlowStickLifecycle.RunEndsNoEarlier` | Barkane/Assets/Scripts/Mechanics/GlowStick/GlowStickLogic.cs:32-52 | the state after a run of folds is never earlier than the state before it, in the order primed, cracked, off |
| `GlowStickLifecycle.RunAppend` | Barkane/Assets/Scripts/Mechanics/GlowStick/GlowStickLogic.cs:30-53 | folds act one after another: running `a` and then `b` gives the same stick as running `a + b` |
| `GlowStickLifecycle.RunMovesForward` | Barkane/Assets/Scripts/Mechanics/GlowStick/GlowStickLogic.cs:32-52 | over any sequence of folds the state never returns to an earlier one: for any two prefixes of the run, the state after the longer one is no earlier than the state after the shorter one |

## Left out

- Subscribing and unsubscribing the handler (`OnEnable`/`OnDisable`) is engine lifecycle and is not modelled. `OnDisable` uses `+=`, so it subscribes the handler again instead of removing it. A disabled stick therefore keeps reacting to folds, and a re-enabled one reacts more than once per fold. The model treats every fold event as exactly one `OnFold` call.
- The scene lookups in `Start` (all crystal shards, the parent joint) are engine calls. The constructor takes the shard flags and the joint identity instead.
- Rendering is reduced to the identity of the material shown. The shard's `ActivateParticles` is reduced to one boolean per shard. The debug log line is not modelled.
- Joints are compared by identity (`JointId`). A stick without a parent joint (a null `paperJoint`) is not modelled.
- Null boxes, renderer or shard array would throw `NullReferenceException`. The model's references are non-null.
- `GlowStickLogic.GlowStick.OnFold`: an exception ends this handler call, and the model reports it. What the exception then does to the event's other subscribers and to the fold animation is not modelled. `Run` simply carries the partial state on to the next fold.
- The glow-stick box's effect on crystals is not part of this model; a box is only its `glowstickActive` flag. The fold-validity checks that decide whether a fold happens are not part of this model either. The stick only sees the joint list of a completed fold.
