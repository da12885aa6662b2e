# Gesture rock-paper-scissors: classifier and round controller

This project models the decision logic of a browser game. In the game, a
player shows rock, paper or scissors to a webcam and plays against an AI.
The hand tracker and all drawing, text and sound are outside the model. Two
parts of `script.js` are modelled:

- **The gesture classifier.** For a tracked hand, the thumb and each of the
  four other fingers are tested for extension. The tests are threshold
  comparisons on landmark coordinates. The thumb test is mirrored by
  handedness. The resulting five-finger vector maps to ROCK (no finger
  extended), PAPER (all extended), SCISSORS (index and middle only) or
  UNKNOWN. Module `Gestures` (`gestures.dfy`) holds it. The finger loop is
  modelled as a method, `ComputeFingerStates`. The vector-to-gesture mapping
  is a pure function, `Classify`.
- **The round controller.** The source keeps the round state in module-level
  variables: the last hand time, the last recognized gesture,
  `isCountdownRunning`, the countdown value, the AI mode and the score tally.
  Events change that state: a tracker frame, a start request, a countdown
  tick, the settle timeout that resolves the round, and the cooldown timeout.
  Class `Round.RoundController` (`round.dfy`) models this state. It has one
  method per event. `Valid()` is the invariant that every event keeps. The
  AI's choice, the beats-relation, the outcome and the score update are pure
  functions in module `Rules` (`rules.dfy`).
  `Scenarios` (`scenarios.dfy`) plays whole rounds on a fresh controller.

The model's inputs stand for the environment:

- Clock readings (`performance.now()`) are the `now` argument, in
  milliseconds.
- The random draw `Math.floor(Math.random() * 3)` is a `RandomIndex`
  argument, 0 to 2, that picks from [ROCK, PAPER, SCISSORS].
- Each timer is a flag saying it is pending. The countdown interval, the
  200 ms settle timeout and the 1500 ms cooldown timeout each fire as one
  method call. When the timer is not pending, that call changes nothing,
  because a cleared timer never fires.

Some behaviours of the code are easy to miss:

- The hand time starts at 0. So in the first 1200 ms after page load, a
  start is accepted even though no hand has been seen yet.
  `Scenarios.StartBeforeAnyHand` shows this.
- Any handedness label other than "right", in any letter case, is treated as
  a left hand. A missing or empty label counts as "Right".
- A hand with fewer than 21 landmarks makes the frame handler fail after it
  has already recorded the hand time. The model then keeps the previous
  gesture.
- The count 3 is shown when the round starts. The three ticks then show 2,
  1 and "SHOOT!", so only two number displays come from ticks.
- New frames keep overwriting the last gesture during a round. Resolution
  reads it once, when the settle timeout fires.
- If the player's gesture is known and the AI's gesture is UNKNOWN, the
  outcome is an AI win. This case cannot happen, because `ChooseAiGesture`
  never returns UNKNOWN.

## Model

| member | source | states |
|---|---|---|
| `Gestures.ComputeFingerStates` | script.js:196-233 | The thumb is tested first. The loop over the four finger descriptors then fills in each finger from its own tip/pip pair. The result is defined exactly when the frame has 21 landmarks, and it equals the finger-by-finger reference `FingerStatesOf`. |
| `Gestures.RightHandLabels` | script.js:201 | A label selects the right-hand test exactly when it is "right" in any mix of upper and lower case. |
| `Gestures.ToLower` | script.js:201 | Lowering keeps the length and lowers each ASCII letter in place. |
| `Gestures.IsRightHand` | script.js:201 | Only a five-letter label can select the right-hand test. |
| `Gestures.ThumbExtended` | script.js:203-205 | An extended thumb lies outward of its IP joint: left of it in the image for a right hand, right of it for a left hand. |
| `Gestures.FingerExtended` | script.js:225 | An extended finger's tip lies above its pip joint in the image. |
| `Gestures.FingerStatesOf` | script.js:196-227 | The reference finger states: the thumb from landmarks 4 and 3 under the handedness, and each finger of the descriptor table from its own tip and pip pair. |
| `Gestures.ThumbTestMirrored` | script.js:201-205 | The left-hand thumb test on a horizontally mirrored hand equals the right-hand test on the original, and the other way round. |
| `Gestures.ThumbTestsExclusive` | script.js:203-205 | For the same thumb geometry, the right-hand and left-hand tests are never both true. |
| `Gestures.MirroredHandSameStates` | script.js:196-227 | A mirrored left hand shows exactly the finger states of the right hand it mirrors. |
| `Gestures.DescriptorsMatchStates` | script.js:207-227 | For each descriptor (8/6, 12/10, 16/14, 20/18), the finger's state is `tip.y < pip.y - 0.02`, on landmarks that exist. |
| `Gestures.FingerDependsOnOwnJoints` | script.js:222-227 | Two frames that agree on a finger's tip and pip give that finger the same state, whatever the other landmarks are. |
| `Gestures.ThumbDependsOnOwnJoints` | script.js:197-205 | The thumb's state depends only on landmarks 3 and 4 and the handedness. |
| `Gestures.Pattern` | script.js:238-240 | The move patterns: thumb, ring and pinky are extended only for PAPER; index and middle for PAPER and SCISSORS, never for ROCK. |
| `Gestures.Classify` | script.js:235-253 | A move is returned only for that move's own finger pattern: all five extended for PAPER, none for ROCK, index and middle only for SCISSORS. |
| `Gestures.ClassifyPattern` | script.js:235-253 | Each move's pattern is classified as that move. Together with `Classify`'s contract, the classifier and `Pattern` are inverse to each other. |
| `Gestures.ClassifyExactly` | script.js:238-250 | Both directions: PAPER if and only if all five fingers are extended, ROCK if and only if none is, SCISSORS if and only if only index and middle are extended. |
| `Gestures.KnownVectors` | script.js:238-240 | The three patterns are distinct vectors. |
| `Gestures.OnlyThreeVectorsAreKnown` | script.js:235-253 | Among all finger vectors, exactly the three patterns give a gesture other than UNKNOWN. |
| `Gestures.EveryVectorIsRealisable` | script.js:196-227 | Every finger vector is produced by some right-hand geometry. |
| `Rules.ChooseAiGesture` | script.js:338-346 | The AI never plays UNKNOWN. In EVIL mode, a known player gesture is beaten. Otherwise the random draw picks from [ROCK, PAPER, SCISSORS]. |
| `Rules.WinningGestureAgainst` | script.js:348-359 | The answer to a known gesture beats it. For UNKNOWN, the answer is the NORMAL-mode random pick from [ROCK, PAPER, SCISSORS], so never UNKNOWN. |
| `Rules.Beats` | script.js:383-386 | Only a move beats, only a move is beaten, and no move beats itself. |
| `Rules.WinningGestureIsUnique` | script.js:348-359 | A move beats a known gesture exactly when it is the counter-move: ROCK to PAPER, PAPER to SCISSORS, SCISSORS to ROCK. |
| `Rules.BeatsIsStrictCycle` | script.js:383-386 | The beats-relation is irreflexive and asymmetric, it decides between any two distinct moves, and it never involves UNKNOWN. |
| `Rules.EvilPickIsDetermined` | script.js:338-341 | In EVIL mode with a known player gesture, the AI's pick does not depend on the random draw. |
| `Rules.EvilAlwaysWins` | script.js:383-404 | In EVIL mode with a known player gesture, the outcome is an AI win. |
| `Rules.RandomPickCoversMoves` | script.js:343-345 | In NORMAL mode, or against UNKNOWN, each of the three moves is the pick for some draw. |
| `Rules.OutcomeOf` | script.js:366-405 | Inconclusive exactly when the player's gesture is UNKNOWN. A draw exactly when a known gesture equals the AI's. A player win exactly when the player's gesture beats the AI's. An AI win otherwise. |
| `Rules.Record` | script.js:366-405 | Recording an outcome never lowers a counter. It adds 1 to the total for a decided round and 0 for an inconclusive one. |
| `Rules.OutcomeTable` | script.js:366-405 | The outcome table: UNKNOWN is inconclusive whatever the AI plays, equal moves draw, and ROCK beats SCISSORS, SCISSORS beats PAPER, PAPER beats ROCK. The reverses are AI wins. |
| `Rules.OutcomeSwapsWithSides` | script.js:383-404 | For two distinct moves, the player wins exactly when, with the sides swapped, the AI wins. |
| `Rules.RecordOneRound` | script.js:366-405 | An UNKNOWN player leaves the tally unchanged. Otherwise exactly one counter grows, by exactly 1: draw for equal gestures, player when the player's gesture beats the AI's, and AI in every other case. |
| `Round.HandednessLabel` | script.js:147 | The label used is never empty, and a present non-empty label is used as it is. |
| `Round.LabelSelectsThumbTest` | script.js:147-205 | Both directions: the right-hand thumb test is used exactly when the first hand's label is missing or empty, or is "right" in any letter case. |
| `Round.LeftLabelUsesLeftThumbTest` | script.js:147-205 | The same mirrored open hand is PAPER when labelled "Left" and UNKNOWN when labelled "Right". |
| `Round.MissingLabelMeansRightHand` | script.js:147 | Without a usable label, the thumb is tested as a right hand's. |
| `Round.RoundController.constructor` | script.js:36-51 | Initial state: hand time 0, gesture UNKNOWN, no round running, countdown value 3, NORMAL mode, all scores 0. |
| `Round.RoundController.RunningUntilIdle` | script.js:273-289 | `isCountdownRunning` holds exactly while the round is counting down, resolving or cooling down. |
| `Round.RoundController.OnResults` | script.js:138-168 | A frame with a hand records `now` and sets the gesture to the classification of the first hand. A too-short hand leaves the gesture as it was. A frame without a hand resets the gesture to UNKNOWN only when more than 1200 ms have passed since the last hand. Round state and scores are untouched. |
| `Round.RoundController.StartRound` | script.js:273-289 | Nothing changes while a round runs, or when more than 1200 ms have passed since the last hand; the latter shows the prompt. Otherwise the mode is recorded and the countdown starts at 3, with 3 shown. |
| `Round.RoundController.RunCountdown` | script.js:304-307 | The current count is shown and the interval is set. |
| `Round.RoundController.Tick` | script.js:307-321 | With the interval set, the count drops by 1. A positive count is shown. At 0 the interval is cleared, "SHOOT!" is shown and resolution is scheduled. Without the interval, nothing changes. |
| `Round.RoundController.SettleExpiry` | script.js:318-320 | If the settle timer is pending, the round is concluded once and the cooldown begins. Otherwise nothing changes. |
| `Round.RoundController.ConcludeRound` | script.js:324-336 | The player's gesture is read once, at that instant. The AI picks. The result event carries both gestures, the outcome and the tally, which is updated by that outcome. The cooldown is scheduled. |
| `Round.RoundController.DetermineWinner` | script.js:366-405 | The outcome is the one in the outcome table, and the tally records it. No other state changes. |
| `Round.RoundController.CooldownExpiry` | script.js:331-335 | A pending cooldown ends the round, so a start is accepted again. Otherwise nothing changes. |
| `Scenarios.NormalRockAgainstRandomPaper` | script.js:324-405 | NORMAL mode, ROCK frozen at resolution, random draw PAPER: AI wins, and the tally goes from 0/0/0 to 0/1/0. |
| `Scenarios.EvilAgainstPaper` | script.js:338-404 | EVIL mode against PAPER: the AI plays SCISSORS and wins, for every random draw. |
| `Scenarios.CountdownShowsThreeTwoOne` | script.js:273-321 | The display shows 3, 2, 1 and "SHOOT!". A start during the countdown and a tick after "SHOOT!" change nothing. |
| `Scenarios.RejectStartsUntilIdle` | script.js:273-335 | From any resolving round, a start at any time is ignored while resolving and during the cooldown. The result carries the gesture held when the settle timeout fires. The cooldown leaves the controller idle, and the hand time and gesture are untouched. |
| `Scenarios.LockoutUntilCooldownEnds` | script.js:273-335 | On the program's timeline, with SCISSORS shown, a start while resolving and one during the cooldown are ignored. A start after the cooldown, with a fresh hand, is accepted again. The round is scored on SCISSORS. |
| `Scenarios.StaleHandIsRefused` | script.js:160-282 | A handless frame 1200 ms after the last hand keeps the gesture, and one 1201 ms after resets it to UNKNOWN. A start 1201 ms after the last hand is refused with the prompt. |
| `Scenarios.StartBeforeAnyHand` | script.js:36-289 | With no hand ever seen, a start at 1200 ms is accepted. The round is then inconclusive and scores nothing. |

## Left out

- MediaPipe `Hands` and `Camera` setup, and the `getUserMedia` check (script.js:103-136): these are a foreign library and device I/O. Tracker output enters the model as the `Results` argument of `OnResults`.
- Canvas drawing, DOM text and class updates, the icon table and its fallback, and the score display (script.js:27-32, 170-194, 255-271, 291-296, 298-302, 361-364, 407-411): these are UI only. The countdown text an event sets is returned as a `Display` value.
- Audio playback and win/lose animations, the overlay, mute and debug toggles (script.js:413-455, 470-473): these are side effects with no decision logic.
- `registerCustomAiMode` and `setGestureIcon` (script.js:458-468): they only log or write to the icon table.
- The wrist-depth `confidence` tag (script.js:230): the classifier never reads it.
- Real timers and their durations: events carry no time stamp. Tick, settle and cooldown are calls, and the 1000, 200 and 1500 ms delays are named constants only. The model does not capture that the cooldown lasts 1500 ms; it captures that no start is accepted until the cooldown event.
- The distribution of `Math.random`: only which index picks which move is modelled, not uniformity.
- Floating point: coordinates and tolerances are exact reals, and clock readings are whole milliseconds. Rounding in `x - 0.12` or `y - 0.02` can differ from double arithmetic at the exact threshold.
- `Gestures.ToLower`: lowers ASCII letters only, not the full Unicode mapping of `toLowerCase`. No non-ASCII character lowers into the letters of "right", so the handedness test gives the same answer.
- AI modes other than NORMAL and EVIL: the source treats any other mode string as NORMAL, and the model's mode type has only the two values.
- `Round.RoundController.OnResults`: the exception a too-short landmark list raises is not modelled as an error; the handler just stops, keeping the earlier gesture.
