/**
  Whole rounds played on a fresh controller, event by event, with hand frames
  built to show a chosen gesture.
*/
module Scenarios {
  import opened Wrappers
  import opened Gestures
  import opened Rules
  import opened Round

  /** A tracker report holding one right hand that shows `m`. */
  function HandShowing(m: Move): (results: Results)
    ensures |results.multiHandLandmarks| == 1
    ensures |results.multiHandLandmarks[0]| == LANDMARK_COUNT
    ensures Classify(FingerStatesOf(results.multiHandLandmarks[0], IsRightHand(HandednessLabel(results.multiHandedness)))) == m
  {
    MissingLabelMeansRightHand([]);
    EveryVectorIsRealisable(Pattern(m));
    ClassifyPattern(m);
    Results([UprightRightHand(Pattern(m))], [])
  }

  /** The tracker reports, at time `now`, a right hand showing `m`. */
  method ShowHand(game: RoundController, now: int, m: Move)
    requires game.Valid()
    modifies game`lastHandTimestamp, game`lastRecognizedGesture
    ensures game.Valid()
    ensures game.lastHandTimestamp == now && game.lastRecognizedGesture == m
  {
    game.OnResults(now, HandShowing(m));
  }

  /** Three ticks take a fresh countdown to "SHOOT!" and leave the round waiting for the settle timeout. */
  method TickToShoot(game: RoundController) returns (shown: seq<Display>)
    requires game.Valid() && game.Phase() == CountingDown && game.countdownValue == COUNTDOWN_SECONDS
    modifies game`countdownValue, game`countdownTimerActive, game`settleTimerPending
    ensures game.Valid() && game.Phase() == Resolving
    ensures shown == [Count(2), Count(1), Shoot]
  {
    var two := game.Tick();
    var one := game.Tick();
    var go := game.Tick();
    shown := [two, one, go];
  }

  /**
    NORMAL mode, the player's gesture is ROCK when the round resolves and the
    random draw is PAPER: the AI wins, and only its counter grows, by one.
  */
  method NormalRockAgainstRandomPaper() returns (result: Option<RoundResult>)
    ensures result == Some(RoundResult(Rock, Paper, AiWin, Scores(0, 1, 0)))
  {
    var game := new RoundController();
    ShowHand(game, 1000, Rock);
    var shown := game.StartRound(1100, Normal);
    var ticks := TickToShoot(game);
    assert game.lastRecognizedGesture == Rock && game.currentMode == Normal && game.scores == Scores(0, 0, 0);
    result := game.SettleExpiry(1);
  }

  /** EVIL mode against PAPER: the AI plays SCISSORS and wins, whatever the random draw. */
  method EvilAgainstPaper(randomIndex: RandomIndex) returns (result: Option<RoundResult>)
    ensures result == Some(RoundResult(Paper, Scissors, AiWin, Scores(0, 1, 0)))
  {
    var game := new RoundController();
    ShowHand(game, 1000, Paper);
    var shown := game.StartRound(1100, Evil);
    var ticks := TickToShoot(game);
    assert game.lastRecognizedGesture == Paper && game.currentMode == Evil && game.scores == Scores(0, 0, 0);
    result := game.SettleExpiry(randomIndex);
  }

  /** The countdown shows 3, 2, 1 and SHOOT, one step per tick; a start while counting down is ignored. */
  method CountdownShowsThreeTwoOne(mode: AiMode) returns (shown: seq<Display>)
    ensures shown == [Count(3), NoChange, Count(2), Count(1), Shoot, NoChange]
  {
    var game := new RoundController();
    ShowHand(game, 1000, Scissors);
    var started := game.StartRound(1000, mode);
    var whileCounting := game.StartRound(1100, mode);
    var two := game.Tick();
    var one := game.Tick();
    var go := game.Tick();
    var afterGo := game.Tick();
    shown := [started, whileCounting, two, one, go, afterGo];
  }

  /**
    From any resolving round: a start at any time is ignored while the round
    resolves and during the cooldown; the round is scored on the gesture held
    when the settle timeout fires; the cooldown then ends the round.
  */
  method RejectStartsUntilIdle(game: RoundController, mode: AiMode, randomIndex: RandomIndex, firstTry: int, secondTry: int)
    returns (shown: seq<Display>, result: Option<RoundResult>)
    requires game.Valid() && game.Phase() == Resolving
    modifies game
    ensures game.Valid() && game.Phase() == Idle
    ensures shown == [NoChange, NoChange, HandReady]
    ensures result.Some? && result.value.playerGesture == old(game.lastRecognizedGesture)
    ensures game.lastHandTimestamp == old(game.lastHandTimestamp)
    ensures game.lastRecognizedGesture == old(game.lastRecognizedGesture)
  {
    var whileResolving := game.StartRound(firstTry, mode);
    result := game.SettleExpiry(randomIndex);
    var whileCooling := game.StartRound(secondTry, mode);
    var ready := game.CooldownExpiry();
    shown := [whileResolving, whileCooling, ready];
  }

  /**
    On the program's own timeline: a start at 1000 ms ticks at 2000, 3000 and
    4000 ms, resolves at 4200 ms and cools down until 5700 ms. A start at
    4100 ms (resolving) and one at 5000 ms (cooling down) are ignored; after
    the cooldown a hand seen at 5750 ms lets a start at 5800 ms through. The
    round is scored on the gesture held at resolution, SCISSORS.
  */
  method LockoutUntilCooldownEnds(mode: AiMode, randomIndex: RandomIndex)
    returns (shown: seq<Display>, result: Option<RoundResult>)
    ensures shown == [NoChange, NoChange, HandReady, Count(3)]
    ensures result.Some? && result.value.playerGesture == Scissors
  {
    var game := new RoundController();
    ShowHand(game, 1000, Scissors);
    var started := game.StartRound(1000, mode);
    var ticks := TickToShoot(game);
    var rejected;
    rejected, result := RejectStartsUntilIdle(game, mode, randomIndex, 4100, 5000);
    ShowHand(game, 5750, Rock);
    var restarted := game.StartRound(5800, mode);
    shown := rejected + [restarted];
  }

  /**
    A start 1201 ms after the last hand is refused with a prompt; a frame with
    no hand inside the timeout keeps the last gesture, and one after it
    resets the gesture to UNKNOWN.
  */
  method StaleHandIsRefused() returns (shown: Display, kept: Gesture, reset: Gesture)
    ensures shown == ShowYourHand
    ensures kept == Paper && reset == Unknown
  {
    var game := new RoundController();
    ShowHand(game, 5000, Paper);
    game.OnResults(6200, Results([], []));
    kept := game.lastRecognizedGesture;
    game.OnResults(6201, Results([], []));
    reset := game.lastRecognizedGesture;
    shown := game.StartRound(6201, Normal);
  }

  /**
    The hand time starts at 0, so within the first 1200 ms a start is
    accepted although no hand has been seen; the round then resolves with an
    UNKNOWN player gesture, is inconclusive and scores nothing.
  */
  method StartBeforeAnyHand(mode: AiMode, randomIndex: RandomIndex)
    returns (shown: Display, result: Option<RoundResult>)
    ensures shown == Count(3)
    ensures result.Some? && result.value.playerGesture == Unknown
    ensures result.Some? && result.value.outcome == Inconclusive && result.value.scores == Scores(0, 0, 0)
  {
    var game := new RoundController();
    shown := game.StartRound(1200, mode);
    var ticks := TickToShoot(game);
    result := game.SettleExpiry(randomIndex);
  }
}
