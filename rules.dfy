/**
  The rules of a round: the AI's pick (random, or countering the player in
  EVIL mode), the rock-paper-scissors beats-relation, the outcome of a round
  and how the score tally records it.
*/
module Rules {
  import opened Gestures

  datatype AiMode = Normal | Evil

  /** What a round resolves to; INCONCLUSIVE (no player gesture) is not a draw. */
  datatype Outcome = Inconclusive | Draw | PlayerWin | AiWin

  datatype Scores = Scores(player: nat, ai: nat, draw: nat)

  /** The index drawn by `Math.floor(Math.random() * 3)`; its distribution is not modelled. */
  type RandomIndex = i: int | 0 <= i < 3

  /** The moves a random pick chooses from, in order. */
  const OPTIONS: seq<Gesture> := [Rock, Paper, Scissors]

  /** `a` beats `b`: rock blunts scissors, paper covers rock, scissors cut paper. */
  predicate Beats(a: Gesture, b: Gesture)
    ensures Beats(a, b) ==> a != Unknown && b != Unknown && a != b
  {
    || (a == Rock && b == Scissors)
    || (a == Paper && b == Rock)
    || (a == Scissors && b == Paper)
  }

  /**
    The AI's gesture. In EVIL mode with a known player gesture it is the one
    that beats the player; otherwise it is the random pick.
  */
  function ChooseAiGesture(mode: AiMode, playerGesture: Gesture, randomIndex: RandomIndex): (r: Gesture)
    ensures r != Unknown
    ensures mode == Evil && playerGesture != Unknown ==> Beats(r, playerGesture)
    ensures !(mode == Evil && playerGesture != Unknown) ==> r == OPTIONS[randomIndex]
    decreases if mode == Evil && playerGesture != Unknown then 2 else 0
  {
    if mode == Evil && playerGesture != Unknown then
      WinningGestureAgainst(playerGesture, randomIndex)
    else
      OPTIONS[randomIndex]
  }

  /**
    The gesture that beats `playerGesture`. For UNKNOWN there is nothing to
    counter, and the answer is a NORMAL-mode random pick.
  */
  function WinningGestureAgainst(playerGesture: Gesture, randomIndex: RandomIndex): (r: Gesture)
    ensures r != Unknown
    ensures playerGesture != Unknown ==> Beats(r, playerGesture)
    ensures playerGesture == Unknown ==> r == OPTIONS[randomIndex]
    decreases 1
  {
    match playerGesture
    case Rock => Paper
    case Paper => Scissors
    case Scissors => Rock
    case Unknown => ChooseAiGesture(Normal, Unknown, randomIndex)
  }

  /** The outcome of a round, as the winner is determined: unclear player first, then a draw, then the beats-relation. */
  function OutcomeOf(playerGesture: Gesture, aiGesture: Gesture): (o: Outcome)
    ensures o == Inconclusive <==> playerGesture == Unknown
    ensures o == Draw <==> playerGesture != Unknown && playerGesture == aiGesture
    ensures o == PlayerWin <==> Beats(playerGesture, aiGesture)
  {
    if playerGesture == Unknown then Inconclusive
    else if playerGesture == aiGesture then Draw
    else if Beats(playerGesture, aiGesture) then PlayerWin
    else AiWin
  }

  /** The tally after recording one outcome. */
  function Record(scores: Scores, outcome: Outcome): (r: Scores)
    ensures Total(r) == Total(scores) + (if outcome == Inconclusive then 0 else 1)
    ensures r.player >= scores.player && r.ai >= scores.ai && r.draw >= scores.draw
  {
    match outcome
    case Inconclusive => scores
    case Draw => scores.(draw := scores.draw + 1)
    case PlayerWin => scores.(player := scores.player + 1)
    case AiWin => scores.(ai := scores.ai + 1)
  }

  function Total(scores: Scores): nat
  {
    scores.player + scores.ai + scores.draw
  }

  /** The beats-relation is a strict cycle on the three moves: irreflexive, asymmetric and total between distinct moves. */
  lemma BeatsIsStrictCycle(a: Move, b: Move)
    ensures !Beats(a, a)
    ensures Beats(a, b) ==> !Beats(b, a)
    ensures a != b ==> Beats(a, b) || Beats(b, a)
    ensures !Beats(Unknown, a) && !Beats(a, Unknown)
  {
  }

  /** The counter-move table: the answer to a known gesture is the only move that beats it. */
  lemma WinningGestureIsUnique(playerGesture: Move, m: Move, randomIndex: RandomIndex)
    ensures Beats(m, playerGesture) <==> m == WinningGestureAgainst(playerGesture, randomIndex)
    ensures WinningGestureAgainst(Rock, randomIndex) == Paper
    ensures WinningGestureAgainst(Paper, randomIndex) == Scissors
    ensures WinningGestureAgainst(Scissors, randomIndex) == Rock
  {
  }

  /** In EVIL mode a known player gesture fixes the AI's pick, whatever the random draw. */
  lemma EvilPickIsDetermined(playerGesture: Move, i: RandomIndex, j: RandomIndex)
    ensures ChooseAiGesture(Evil, playerGesture, i) == ChooseAiGesture(Evil, playerGesture, j)
  {
  }

  /** ... and the AI then always wins the round. */
  lemma EvilAlwaysWins(playerGesture: Move, randomIndex: RandomIndex)
    ensures OutcomeOf(playerGesture, ChooseAiGesture(Evil, playerGesture, randomIndex)) == AiWin
  {
  }

  /** A random pick can be any of the three moves, and is never UNKNOWN. */
  lemma {:induction false} RandomPickCoversMoves(mode: AiMode, playerGesture: Gesture, m: Move)
    requires mode == Normal || playerGesture == Unknown
    ensures exists i: RandomIndex :: ChooseAiGesture(mode, playerGesture, i) == m
  {
    var i: RandomIndex := match m case Rock => 0 case Paper => 1 case Scissors => 2;
    assert ChooseAiGesture(mode, playerGesture, i) == m;
  }

  /** The exhaustive 4 x 4 outcome table. */
  lemma OutcomeTable(playerGesture: Gesture, aiGesture: Gesture)
    ensures playerGesture == Unknown ==> OutcomeOf(playerGesture, aiGesture) == Inconclusive
    ensures playerGesture != Unknown && playerGesture == aiGesture ==> OutcomeOf(playerGesture, aiGesture) == Draw
    ensures OutcomeOf(Rock, Scissors) == PlayerWin && OutcomeOf(Scissors, Rock) == AiWin
    ensures OutcomeOf(Scissors, Paper) == PlayerWin && OutcomeOf(Paper, Scissors) == AiWin
    ensures OutcomeOf(Paper, Rock) == PlayerWin && OutcomeOf(Rock, Paper) == AiWin
  {
  }

  /** Swapping two distinct moves swaps the winner. */
  lemma OutcomeSwapsWithSides(a: Move, b: Move)
    requires a != b
    ensures OutcomeOf(a, b) == PlayerWin <==> OutcomeOf(b, a) == AiWin
    ensures OutcomeOf(a, b) in {PlayerWin, AiWin}
  {
  }

  /**
    Recording a round: an UNKNOWN player gesture changes nothing; otherwise
    exactly one counter grows, by exactly one, and it is the draw counter for
    equal gestures, the player's when the player's gesture beats the AI's, and
    the AI's in every other case.
  */
  lemma RecordOneRound(scores: Scores, playerGesture: Gesture, aiGesture: Gesture)
    ensures var after := Record(scores, OutcomeOf(playerGesture, aiGesture));
      && (playerGesture == Unknown ==> after == scores)
      && (playerGesture != Unknown ==> Total(after) == Total(scores) + 1)
      && after.player >= scores.player && after.ai >= scores.ai && after.draw >= scores.draw
      && (playerGesture != Unknown && playerGesture == aiGesture ==> after.draw == scores.draw + 1)
      && (Beats(playerGesture, aiGesture) ==> after.player == scores.player + 1)
      && (playerGesture != Unknown && playerGesture != aiGesture && !Beats(playerGesture, aiGesture) ==>
            after.ai == scores.ai + 1)
  {
  }
}
