/** The birthday app's top level: a five-step stepper (welcome, surprise
    reveal, birthday game, memory lane, final celebration), the choice of
    a path at the surprise reveal, which hands the screen to the crown or
    the love path until that path finishes, and the small twelve-balloon
    game of the third step. */
module BirthdayApp {
  import opened Optional

  const StepCount: nat := 5
  const BalloonCount: nat := 12
  const PointsPerBalloon: nat := 10

  /** `nextStep` on the step number: one step on, except on the last. */
  function Next(step: nat): (r: nat)
    requires step < StepCount
    ensures r < StepCount && step <= r <= step + 1
    ensures r == step <==> step == StepCount - 1
  {
    if step < StepCount - 1 then step + 1 else step
  }

  /** `prevStep` on the step number: one step back, except on the first. */
  function Prev(step: nat): (r: nat)
    requires step < StepCount
    ensures r < StepCount && step - 1 <= r <= step
    ensures r == step <==> step == 0
  {
    if step > 0 then step - 1 else step
  }

  /** Back undoes forward everywhere but on the last step, and forward
      undoes back everywhere but on the first. */
  lemma NextPrevInverse(step: nat)
    requires step < StepCount
    ensures step < StepCount - 1 ==> Prev(Next(step)) == step
    ensures step > 0 ==> Next(Prev(step)) == step
  {
  }

  /** From any step, four forward moves reach the final celebration and
      four back moves reach the welcome step. */
  lemma FourMovesReachTheEnds(step: nat)
    requires step < StepCount
    ensures Next(Next(Next(Next(step)))) == StepCount - 1
    ensures Prev(Prev(Prev(Prev(step)))) == 0
  {
  }

  /** The steps whose arrival throws confetti: the surprise reveal and the
      final celebration. */
  predicate ConfettiStep(step: nat)
  {
    step == 1 || step == 4
  }

  /** What the app renders: a path, which hides the stepper, or the
      stepper at a step. */
  datatype AppView = CrownPathView | LovePathView | StepView(step: nat)

  /** No balloon id is listed twice. */
  predicate NoRepeats(ids: seq<nat>)
  {
    forall i, j :: 0 <= i < j < |ids| ==> ids[i] != ids[j]
  }

  class App {
    var currentStep: nat
    var selectedPath: Option<string>
    var showConfetti: bool
    var gameScore: nat
    var gameActive: bool
    var clickedBalloons: seq<nat>
    var showCrownPath: bool
    var showLovePath: bool

    /** The step is one of the five, and the balloon score is ten points
        per distinct balloon clicked. */
    ghost predicate Valid()
      reads this`currentStep, this`gameScore, this`clickedBalloons
    {
      && currentStep < StepCount
      && NoRepeats(clickedBalloons)
      && gameScore == PointsPerBalloon * |clickedBalloons|
    }

    constructor ()
      ensures Valid()
      ensures currentStep == 0 && selectedPath == None && !showConfetti
      ensures gameScore == 0 && !gameActive && clickedBalloons == []
      ensures !showCrownPath && !showLovePath
    {
      currentStep := 0;
      selectedPath := None;
      showConfetti := false;
      gameScore, gameActive, clickedBalloons := 0, false, [];
      showCrownPath, showLovePath := false, false;
    }

    /** The crown path is tested first, so it wins when both path flags
        are set; the stepper shows only when neither is. */
    function View(): (v: AppView)
      reads this`currentStep, this`showCrownPath, this`showLovePath
      ensures showCrownPath <==> v == CrownPathView
      ensures v == LovePathView <==> showLovePath && !showCrownPath
      ensures v.StepView? <==> !showCrownPath && !showLovePath
      ensures v.StepView? ==> v.step == currentStep
    {
      if showCrownPath then CrownPathView
      else if showLovePath then LovePathView
      else StepView(currentStep)
    }

    /** Arriving on a step: the effect on the step number throws
        confetti when it becomes the reveal or the celebration. */
    method ArriveAt(step: nat)
      requires step < StepCount
      modifies this`currentStep, this`showConfetti
      ensures currentStep == step
      ensures step != old(currentStep) && ConfettiStep(step) ==> showConfetti
      ensures !(step != old(currentStep) && ConfettiStep(step)) ==> showConfetti == old(showConfetti)
    {
      var changed := step != currentStep;
      currentStep := step;
      if changed && ConfettiStep(step) {
        showConfetti := true;
      }
    }

    /** `nextStep`. */
    method NextStep()
      requires Valid()
      modifies this`currentStep, this`showConfetti
      ensures Valid() && currentStep == Next(old(currentStep))
    {
      ArriveAt(Next(currentStep));
    }

    /** `prevStep`. */
    method PrevStep()
      requires Valid()
      modifies this`currentStep, this`showConfetti
      ensures Valid() && currentStep == Prev(old(currentStep))
    {
      ArriveAt(Prev(currentStep));
    }

    /** The confetti's four seconds run out. */
    method ConfettiDone()
      modifies this`showConfetti
      ensures !showConfetti
    {
      showConfetti := false;
    }

    /** A path card is chosen: the choice is recorded, and half a second
        later (not modelled) 'queen' opens the crown path, 'love' the love
        path, and any other path moves the stepper one step on. */
    method HandlePathSelection(pathId: string)
      requires Valid()
      modifies this`selectedPath, this`showCrownPath, this`showLovePath, this`currentStep,
               this`showConfetti
      ensures Valid() && selectedPath == Some(pathId)
      ensures pathId == "queen" ==>
                showCrownPath && View() == CrownPathView && unchanged(this`currentStep, this`showLovePath)
      ensures pathId == "love" ==>
                showLovePath && unchanged(this`currentStep, this`showCrownPath)
      ensures pathId != "queen" && pathId != "love" ==>
                currentStep == Next(old(currentStep)) && unchanged(this`showCrownPath, this`showLovePath)
    {
      selectedPath := Some(pathId);
      if pathId == "queen" {
        showCrownPath := true;
      } else if pathId == "love" {
        showLovePath := true;
      } else {
        NextStep();
      }
    }

    /** The crown path reports completion: it is hidden and the stepper
        moves one step on. */
    method HandleCrownPathComplete()
      requires Valid()
      modifies this`showCrownPath, this`currentStep, this`showConfetti
      ensures Valid() && !showCrownPath && currentStep == Next(old(currentStep))
    {
      showCrownPath := false;
      NextStep();
    }

    /** The love path reports completion: it is hidden and the stepper
        moves one step on. */
    method HandleLovePathComplete()
      requires Valid()
      modifies this`showLovePath, this`currentStep, this`showConfetti
      ensures Valid() && !showLovePath && currentStep == Next(old(currentStep))
    {
      showLovePath := false;
      NextStep();
    }

    /** `startGame`: play on, no score, no balloon clicked. */
    method StartGame()
      requires Valid()
      modifies this`gameActive, this`gameScore, this`clickedBalloons
      ensures Valid() && gameActive && gameScore == 0 && clickedBalloons == []
    {
      gameActive, gameScore, clickedBalloons := true, 0, [];
    }

    /** The fifteen seconds of `startGame` run out. */
    method GameTimeout()
      modifies this`gameActive
      ensures !gameActive
    {
      gameActive := false;
    }

    /** `popBalloon(id)`: a balloon not clicked before is added and scores
        ten points; a second click on it changes nothing.  The handler
        itself does not look at `gameActive` (only the button's
        `disabled` does), so neither does this. */
    method PopBalloon(id: nat)
      requires Valid()
      modifies this`clickedBalloons, this`gameScore
      ensures Valid()
      ensures id !in old(clickedBalloons) ==>
                clickedBalloons == old(clickedBalloons) + [id] && gameScore == old(gameScore) + PointsPerBalloon
      ensures id in old(clickedBalloons) ==> unchanged(this`clickedBalloons, this`gameScore)
    {
      if id !in clickedBalloons {
        clickedBalloons := clickedBalloons + [id];
        gameScore := gameScore + PointsPerBalloon;
      }
    }
  }

  /** Clicks on the twelve balloons score at most 120 points: distinct
      ids below twelve number at most twelve. */
  lemma {:induction false} ScoreAtMostAllBalloons(ids: seq<nat>)
    requires NoRepeats(ids)
    requires forall i :: 0 <= i < |ids| ==> ids[i] < BalloonCount
    ensures PointsPerBalloon * |ids| <= PointsPerBalloon * BalloonCount
  {
    DistinctBelowBound(ids, BalloonCount);
  }

  /** Distinct naturals below `n` number at most `n`. */
  lemma {:induction false} DistinctBelowBound(ids: seq<nat>, n: nat)
    requires NoRepeats(ids)
    requires forall i :: 0 <= i < |ids| ==> ids[i] < n
    ensures |ids| <= n
    decreases |ids|
  {
    if |ids| > 0 {
      var last := ids[|ids| - 1];
      var init := ids[..|ids| - 1];
      // Renumber: ids above `last` move down by one, so the rest fit below n - 1.
      var moved := seq(|init|, i requires 0 <= i < |init| => if init[i] > last then init[i] - 1 else init[i]);
      forall i, j | 0 <= i < j < |moved| ensures moved[i] != moved[j] {
        assert init[i] != init[j] && init[i] != last && init[j] != last;
      }
      forall i | 0 <= i < |moved| ensures moved[i] < n - 1 {
        assert init[i] != last;
      }
      DistinctBelowBound(moved, n - 1);
    }
  }
}
