/**
  The round controller: the module-level state of the game and the events
  that change it. A frame from the hand tracker updates the last recognized
  gesture; a start request begins the countdown; the once-per-second
  countdown tick counts 3, 2, 1 and then schedules resolution; the settle
  timeout resolves the round and schedules the cooldown; the cooldown timeout
  re-enables starting.

  Timers are not run: each pending timer is a flag, the scheduler delivers its
  expiry as a call, and an expiry for a timer that is not pending changes
  nothing (a cleared timer never fires). Clock readings are the `now`
  argument, in milliseconds.
*/
module Round {
  import opened Wrappers
  import opened Gestures
  import opened Rules

  const COUNTDOWN_SECONDS := 3
  const HAND_PRESENT_TIMEOUT_MS := 1200
  const TICK_INTERVAL_MS := 1000
  const SETTLE_DELAY_MS := 200
  const COOLDOWN_DELAY_MS := 1500

  /** What the hand tracker reports for one video frame: the landmarks of each hand found, and each hand's handedness label if any. */
  datatype Results = Results(multiHandLandmarks: seq<seq<Point>>, multiHandedness: seq<Option<string>>)

  /** What the countdown display is set to by an event. */
  datatype Display = NoChange | ShowYourHand | Count(n: int) | Shoot | HandReady

  /** The outcome event of a resolved round. */
  datatype RoundResult = RoundResult(playerGesture: Gesture, aiGesture: Gesture, outcome: Outcome, scores: Scores)

  datatype RoundPhase = Idle | CountingDown | Resolving | Cooldown

  /** The label of the first hand; a missing or empty label reads as "Right". */
  function HandednessLabel(multiHandedness: seq<Option<string>>): (name: string)
    ensures name != ""
    ensures |multiHandedness| > 0 && multiHandedness[0].Some? && multiHandedness[0].value != "" ==>
      name == multiHandedness[0].value
  {
    if |multiHandedness| > 0 && multiHandedness[0].Some? && multiHandedness[0].value != ""
    then multiHandedness[0].value
    else "Right"
  }

  /** Without a handedness label the thumb is tested as a right hand's. */
  lemma {:induction false} MissingLabelMeansRightHand(multiHandedness: seq<Option<string>>)
    requires |multiHandedness| == 0 || multiHandedness[0] == None || multiHandedness[0] == Some("")
    ensures IsRightHand(HandednessLabel(multiHandedness))
  {
    assert HandednessLabel(multiHandedness) == "Right";
    assert ToLower("Right") == "right" by {
      assert ToLower("Right")[0] == LowerAscii('R') == 'r';
    }
  }

  /**
    The right-hand thumb test is used exactly when the first hand's label is
    missing or empty, or spells "right" in any letter case; every other label
    selects the left-hand test.
  */
  lemma {:induction false} LabelSelectsThumbTest(multiHandedness: seq<Option<string>>)
    ensures IsRightHand(HandednessLabel(multiHandedness)) <==>
      || |multiHandedness| == 0
      || multiHandedness[0].None?
      || multiHandedness[0].value == ""
      || ToLower(multiHandedness[0].value) == "right"
  {
    if |multiHandedness| == 0 || multiHandedness[0].None? || multiHandedness[0].value == "" {
      MissingLabelMeansRightHand(multiHandedness);
    }
  }

  /**
    The label matters: a mirrored open hand is PAPER when labelled "Left",
    but labelled "Right" its thumb fails the right-hand test and the frame is
    UNKNOWN.
  */
  lemma {:induction false} LeftLabelUsesLeftThumbTest()
    ensures var frame := MirrorFrame(UprightRightHand(Pattern(Paper)));
      && Classify(FingerStatesOf(frame, IsRightHand(HandednessLabel([Some("Left")])))) == Paper
      && Classify(FingerStatesOf(frame, IsRightHand(HandednessLabel([Some("Right")])))) == Unknown
  {
    var hand := UprightRightHand(Pattern(Paper));
    var frame := MirrorFrame(hand);
    EveryVectorIsRealisable(Pattern(Paper));
    MirroredHandSameStates(hand);
    assert !IsRightHand("Left") by {
      assert ToLower("Left")[0] == LowerAscii('L') == 'l';
    }
    assert IsRightHand("Right") by {
      MissingLabelMeansRightHand([]);
    }
    assert frame[THUMB_TIP] == Point(0.7, 0.5, 0.0) && frame[THUMB_IP] == Point(0.5, 0.5, 0.0);
    assert !FingerStatesOf(frame, true).thumb;
  }

  class RoundController {
    var lastHandTimestamp: int
    var lastRecognizedGesture: Gesture
    var isCountdownRunning: bool
    var countdownValue: int
    var currentMode: AiMode
    var scores: Scores

    // The timers the scheduler holds: the countdown interval, the settle timeout and the cooldown timeout.
    var countdownTimerActive: bool
    var settleTimerPending: bool
    var cooldownTimerPending: bool

    // How many rounds have been started and how many resolved.
    ghost var roundsStarted: nat
    ghost var roundsResolved: nat

    /**
      A round is running exactly while one of its timers is pending, one timer
      at a time; the countdown shows 1..3 while it ticks; and every started
      round is resolved once, after its countdown and settle delay.
    */
    ghost predicate Valid()
      reads this
    {
      && (isCountdownRunning <==> countdownTimerActive || settleTimerPending || cooldownTimerPending)
      && (countdownTimerActive ==> !settleTimerPending && !cooldownTimerPending)
      && (settleTimerPending ==> !cooldownTimerPending)
      && (countdownTimerActive ==> 1 <= countdownValue <= COUNTDOWN_SECONDS)
      && (settleTimerPending || cooldownTimerPending ==> countdownValue == 0)
      && roundsResolved + (if countdownTimerActive || settleTimerPending then 1 else 0) == roundsStarted
    }

    function Phase(): RoundPhase
      reads this
    {
      if countdownTimerActive then CountingDown
      else if settleTimerPending then Resolving
      else if cooldownTimerPending then Cooldown
      else Idle
    }

    /** The tally and round flags as the page loads. */
    constructor()
      ensures Valid()
      ensures lastHandTimestamp == 0 && lastRecognizedGesture == Unknown
      ensures !isCountdownRunning && countdownValue == COUNTDOWN_SECONDS && currentMode == Normal
      ensures scores == Scores(0, 0, 0)
      ensures Phase() == Idle && roundsStarted == 0 && roundsResolved == 0
    {
      lastHandTimestamp := 0;
      lastRecognizedGesture := Unknown;
      isCountdownRunning := false;
      countdownValue := COUNTDOWN_SECONDS;
      currentMode := Normal;
      scores := Scores(0, 0, 0);
      countdownTimerActive, settleTimerPending, cooldownTimerPending := false, false, false;
      roundsStarted, roundsResolved := 0, 0;
    }

    /** `isCountdownRunning` stays set from an accepted start until the cooldown ends. */
    lemma RunningUntilIdle()
      requires Valid()
      ensures isCountdownRunning <==> Phase() != Idle
    {
    }

    /**
      A frame from the tracker. With a hand, the hand's time is stamped and the
      gesture re-classified (a hand with too few landmarks stops the handler
      after the stamp, leaving the gesture as it was). Without a hand, the
      gesture is reset to UNKNOWN only once the hand has been gone for longer
      than the presence timeout. Round state is never touched.
    */
    method OnResults(now: int, results: Results)
      requires Valid()
      modifies this`lastHandTimestamp, this`lastRecognizedGesture
      ensures Valid()
      ensures |results.multiHandLandmarks| > 0 ==>
        && lastHandTimestamp == now
        && var landmarks := results.multiHandLandmarks[0];
           lastRecognizedGesture ==
             if |landmarks| >= LANDMARK_COUNT
             then Classify(FingerStatesOf(landmarks, IsRightHand(HandednessLabel(results.multiHandedness))))
             else old(lastRecognizedGesture)
      ensures |results.multiHandLandmarks| == 0 ==>
        && lastHandTimestamp == old(lastHandTimestamp)
        && lastRecognizedGesture ==
             if now - old(lastHandTimestamp) > HAND_PRESENT_TIMEOUT_MS then Unknown else old(lastRecognizedGesture)
    {
      var handPresent := |results.multiHandLandmarks| > 0;
      if handPresent {
        lastHandTimestamp := now;
        var landmarks := results.multiHandLandmarks[0];
        var handedness := HandednessLabel(results.multiHandedness);
        var fingerStates := ComputeFingerStates(landmarks, handedness);
        if fingerStates.Some? {
          var gesture := Classify(fingerStates.value);
          lastRecognizedGesture := gesture;
        }
      } else {
        var timeSinceLastHand := now - lastHandTimestamp;
        if timeSinceLastHand > HAND_PRESENT_TIMEOUT_MS {
          lastRecognizedGesture := Unknown;
        }
      }
    }

    /**
      A start request. Ignored while a round runs (through countdown,
      resolution and cooldown) and when no hand has been seen within the
      presence timeout; otherwise records the mode and starts the countdown
      at 3.
    */
    method StartRound(now: int, mode: AiMode) returns (shown: Display)
      requires Valid()
      modifies this`currentMode, this`isCountdownRunning, this`countdownValue, this`countdownTimerActive,
        this`roundsStarted
      ensures Valid()
      ensures old(isCountdownRunning) ==> unchanged(this) && shown == NoChange
      ensures !old(isCountdownRunning) && now - lastHandTimestamp > HAND_PRESENT_TIMEOUT_MS ==>
        unchanged(this) && shown == ShowYourHand
      ensures !old(isCountdownRunning) && now - lastHandTimestamp <= HAND_PRESENT_TIMEOUT_MS ==>
        && currentMode == mode && isCountdownRunning
        && countdownValue == COUNTDOWN_SECONDS && Phase() == CountingDown
        && roundsStarted == old(roundsStarted) + 1
        && shown == Count(COUNTDOWN_SECONDS)
    {
      if isCountdownRunning {
        return NoChange;
      }
      var timeSinceLastHand := now - lastHandTimestamp;
      if timeSinceLastHand > HAND_PRESENT_TIMEOUT_MS {
        return ShowYourHand;
      }
      currentMode := mode;
      isCountdownRunning := true;
      countdownValue := COUNTDOWN_SECONDS;
      roundsStarted := roundsStarted + 1;
      shown := RunCountdown();
    }

    /** Shows the current count and sets the once-per-second interval. */
    method RunCountdown() returns (shown: Display)
      requires !countdownTimerActive && !settleTimerPending && !cooldownTimerPending
      modifies this`countdownTimerActive
      ensures countdownTimerActive && shown == Count(countdownValue)
    {
      shown := Count(countdownValue);
      countdownTimerActive := true;
    }

    /**
      One countdown tick: the count drops by one and is shown while positive;
      at zero the interval is cleared, "SHOOT!" is shown and resolution is
      scheduled, once.
    */
    method Tick() returns (shown: Display)
      requires Valid()
      modifies this`countdownValue, this`countdownTimerActive, this`settleTimerPending
      ensures Valid()
      ensures !old(countdownTimerActive) ==> unchanged(this) && shown == NoChange
      ensures old(countdownTimerActive) ==> countdownValue == old(countdownValue) - 1
      ensures old(countdownTimerActive) && countdownValue > 0 ==>
        Phase() == CountingDown && shown == Count(countdownValue)
      ensures old(countdownTimerActive) && countdownValue <= 0 ==>
        countdownValue == 0 && Phase() == Resolving && shown == Shoot
    {
      if !countdownTimerActive {
        return NoChange;
      }
      countdownValue := countdownValue - 1;
      if countdownValue > 0 {
        return Count(countdownValue);
      }
      countdownTimerActive := false;
      settleTimerPending := true;
      shown := Shoot;
    }

    /**
      The settle timeout: the round is concluded. The player's gesture is read
      once, at this instant; the AI picks; the winner is determined and the
      tally updated; the cooldown is scheduled.
    */
    method SettleExpiry(randomIndex: RandomIndex) returns (result: Option<RoundResult>)
      requires Valid()
      modifies this`scores, this`settleTimerPending, this`cooldownTimerPending, this`roundsResolved
      ensures Valid()
      ensures !old(settleTimerPending) ==> unchanged(this) && result == None
      ensures old(settleTimerPending) ==>
        var playerGesture := lastRecognizedGesture;
        var aiGesture := ChooseAiGesture(currentMode, playerGesture, randomIndex);
        && scores == Record(old(scores), OutcomeOf(playerGesture, aiGesture))
        && result == Some(RoundResult(playerGesture, aiGesture, OutcomeOf(playerGesture, aiGesture), scores))
        && Phase() == Cooldown && isCountdownRunning
        && roundsResolved == old(roundsResolved) + 1
    {
      if !settleTimerPending {
        return None;
      }
      settleTimerPending := false;
      result := ConcludeRound(randomIndex);
    }

    /** Reads the player's gesture, lets the AI pick, scores the round and schedules the cooldown. */
    method ConcludeRound(randomIndex: RandomIndex) returns (result: Option<RoundResult>)
      requires !countdownTimerActive && !settleTimerPending && !cooldownTimerPending
      modifies this`scores, this`cooldownTimerPending, this`roundsResolved
      ensures cooldownTimerPending && roundsResolved == old(roundsResolved) + 1
      ensures var playerGesture := lastRecognizedGesture;
        var aiGesture := ChooseAiGesture(currentMode, playerGesture, randomIndex);
        && scores == Record(old(scores), OutcomeOf(playerGesture, aiGesture))
        && result == Some(RoundResult(playerGesture, aiGesture, OutcomeOf(playerGesture, aiGesture), scores))
    {
      var playerGesture := lastRecognizedGesture;
      var aiGesture := ChooseAiGesture(currentMode, playerGesture, randomIndex);
      var outcome := DetermineWinner(playerGesture, aiGesture);
      roundsResolved := roundsResolved + 1;
      cooldownTimerPending := true;
      result := Some(RoundResult(playerGesture, aiGesture, outcome, scores));
    }

    /**
      Scores one round: an unclear player gesture scores nothing; equal
      gestures are a draw; otherwise the player wins exactly when the player's
      gesture beats the AI's, and the AI wins in every other case.
    */
    method DetermineWinner(playerGesture: Gesture, aiGesture: Gesture) returns (outcome: Outcome)
      modifies this`scores
      ensures outcome == OutcomeOf(playerGesture, aiGesture)
      ensures scores == Record(old(scores), outcome)
    {
      if playerGesture == Unknown {
        return Inconclusive;
      }
      if playerGesture == aiGesture {
        scores := scores.(draw := scores.draw + 1);
        return Draw;
      }
      var playerWins :=
        || (playerGesture == Rock && aiGesture == Scissors)
        || (playerGesture == Paper && aiGesture == Rock)
        || (playerGesture == Scissors && aiGesture == Paper);
      if playerWins {
        scores := scores.(player := scores.player + 1);
        outcome := PlayerWin;
      } else {
        scores := scores.(ai := scores.ai + 1);
        outcome := AiWin;
      }
    }

    /** The cooldown timeout: the round is over and a new start is accepted again. */
    method CooldownExpiry() returns (shown: Display)
      requires Valid()
      modifies this`isCountdownRunning, this`cooldownTimerPending
      ensures Valid()
      ensures !old(cooldownTimerPending) ==> unchanged(this) && shown == NoChange
      ensures old(cooldownTimerPending) ==> !isCountdownRunning && Phase() == Idle && shown == HandReady
    {
      if !cooldownTimerPending {
        return NoChange;
      }
      cooldownTimerPending := false;
      isCountdownRunning := false;
      shown := HandReady;
    }
  }
}
