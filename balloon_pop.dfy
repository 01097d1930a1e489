/** The Bonus Balloon Pop: twenty balloons float on screen for fifteen
    seconds, each click on an unpopped balloon pops it and scores a
    point, and ten points are needed to pass.  Positions, speeds, sizes
    and colours are floating-point animation and are not modelled; a
    balloon is its id and whether it is popped. */
module BalloonPop {
  import opened Lifecycle
  import opened Optional

  const TotalBalloons: nat := 20
  const PlaySeconds: nat := 15
  const PassScore: nat := 10
  const WinSeconds: nat := 5

  datatype Balloon = Balloon(id: nat, isPopped: bool)

  /** No two balloons share an id. */
  predicate DistinctIds(bs: seq<Balloon>)
  {
    forall i, j :: 0 <= i < j < |bs| ==> bs[i].id != bs[j].id
  }

  /** The balloons a game starts with: ids 0 to 19, none popped. */
  function FreshBalloons(): (bs: seq<Balloon>)
    ensures |bs| == TotalBalloons && DistinctIds(bs)
    ensures forall i :: 0 <= i < |bs| ==> bs[i].id == i && !bs[i].isPopped
  {
    seq(TotalBalloons, i requires 0 <= i < TotalBalloons => Balloon(i, false))
  }

  /** The number of popped balloons. */
  function PoppedCount(bs: seq<Balloon>): (n: nat)
    ensures n <= |bs|
  {
    if |bs| == 0 then 0 else (if bs[0].isPopped then 1 else 0) + PoppedCount(bs[1..])
  }

  /** The first balloon with id `id`, if any (the handler's `find`). */
  function Find(bs: seq<Balloon>, id: nat): (r: Option<Balloon>)
    ensures r.Some? ==> r.value in bs && r.value.id == id
    ensures r.None? <==> forall b :: b in bs ==> b.id != id
  {
    if |bs| == 0 then None
    else if bs[0].id == id then Some(bs[0])
    else Find(bs[1..], id)
  }

  /** The click finds an unpopped balloon with its id. */
  predicate Poppable(bs: seq<Balloon>, id: nat)
  {
    Find(bs, id).Some? && !Find(bs, id).value.isPopped
  }

  /** One balloon under the handler's `map`: popped if it has the id and
      is not popped yet, unchanged otherwise. */
  function PopOne(b: Balloon, id: nat): Balloon
  {
    if b.id == id && !b.isPopped then b.(isPopped := true) else b
  }

  /** The balloon list after a click on `id`: every balloon with that id
      is popped, every other balloon is left as it was. */
  function PopInList(bs: seq<Balloon>, id: nat): (r: seq<Balloon>)
    ensures |r| == |bs|
    ensures forall i :: 0 <= i < |bs| ==>
              && r[i].id == bs[i].id
              && (r[i].isPopped <==> bs[i].isPopped || bs[i].id == id)
  {
    if |bs| == 0 then [] else [PopOne(bs[0], id)] + PopInList(bs[1..], id)
  }

  /** A click on an id no balloon has changes nothing. */
  lemma PopAbsent(bs: seq<Balloon>, id: nat)
    requires forall b :: b in bs ==> b.id != id
    ensures PopInList(bs, id) == bs
  {
    var r := PopInList(bs, id);
    forall i | 0 <= i < |bs| ensures r[i] == bs[i] {
      assert bs[i] in bs;
    }
  }

  /** A second click on the same balloon changes nothing more. */
  lemma PopIdempotent(bs: seq<Balloon>, id: nat)
    ensures PopInList(PopInList(bs, id), id) == PopInList(bs, id)
  {
  }

  /** The count of popped balloons after a click: one more when the click
      finds an unpopped balloon, the same otherwise. */
  lemma {:induction false} PopCount(bs: seq<Balloon>, id: nat)
    requires DistinctIds(bs)
    ensures PoppedCount(PopInList(bs, id)) == PoppedCount(bs) + if Poppable(bs, id) then 1 else 0
  {
    if |bs| > 0 {
      var rest := bs[1..];
      assert DistinctIds(rest) by {
        forall i, j | 0 <= i < j < |rest| ensures rest[i].id != rest[j].id {
          assert rest[i] == bs[i + 1] && rest[j] == bs[j + 1];
        }
      }
      var r := PopInList(bs, id);
      assert r[1..] == PopInList(rest, id);
      if bs[0].id == id {
        forall b | b in rest ensures b.id != id {
          var k :| 0 <= k < |rest| && rest[k] == b;
          assert b == bs[k + 1];
        }
        PopAbsent(rest, id);
      } else {
        PopCount(rest, id);
      }
    }
  }

  /** A list with no popped balloon counts zero pops; the fresh list is
      one. */
  lemma {:induction false} NonePoppedCountsZero(bs: seq<Balloon>)
    requires forall i :: 0 <= i < |bs| ==> !bs[i].isPopped
    ensures PoppedCount(bs) == 0
  {
    if |bs| > 0 {
      NonePoppedCountsZero(bs[1..]);
    }
  }

  /** The evaluation's threshold, inclusive. */
  predicate CanContinue(score: nat)
  {
    score >= PassScore
  }

  /** Ten balloons pass and nine do not, out of at most twenty. */
  lemma PassNeedsHalfTheBalloons(bs: seq<Balloon>)
    requires |bs| == TotalBalloons
    ensures CanContinue(PoppedCount(bs)) ==> 2 * PoppedCount(bs) >= |bs|
    ensures CanContinue(PassScore) && !CanContinue(PassScore - 1)
  {
  }

  /** The state of one mounted balloon component. */
  class Game {
    var intro: Intro
    var balloons: seq<Balloon>
    var score: nat
    var balloonsPopped: nat
    var timeLeft: nat
    var gameActive: bool
    var gameCompleted: bool
    var showWinScreen: bool
    var winTimer: nat
    var attempts: nat
    var showRetryScreen: bool
    var retryTimer: nat
    var completed: bool       // onComplete has been called

    /** The score and the pop count both count the popped balloons. */
    ghost predicate CountValid()
      reads this`balloons, this`score, this`balloonsPopped
    {
      && DistinctIds(balloons) && |balloons| <= TotalBalloons
      && score == balloonsPopped == PoppedCount(balloons)
    }

    /** How the flags hang together: play and its end exclude each
        other, and each end screen agrees with the evaluation. */
    ghost predicate FlowValid()
      reads this`intro, this`score, this`timeLeft, this`gameActive, this`gameCompleted,
            this`showWinScreen, this`winTimer, this`attempts, this`showRetryScreen,
            this`retryTimer, this`completed
    {
      && timeLeft <= PlaySeconds && winTimer <= WinSeconds && retryTimer <= RetrySeconds
      && attempts >= 1
      && (!intro.Started? ==> !gameActive && !gameCompleted)
      && !(gameActive && gameCompleted)
      && (gameCompleted ==> timeLeft == 0)
      && (showWinScreen ==> gameCompleted && CanContinue(score) && !showRetryScreen)
      && (showRetryScreen ==> gameCompleted && !CanContinue(score))
      && (completed ==> showWinScreen && winTimer == 0)
    }

    ghost predicate Valid()
      reads this
    {
      CountValid() && FlowValid()
    }

    constructor ()
      ensures Valid()
      ensures intro == Opening() && balloons == [] && score == 0 && balloonsPopped == 0
      ensures timeLeft == PlaySeconds && !gameActive && !gameCompleted
      ensures !showWinScreen && winTimer == WinSeconds && attempts == 1
      ensures !showRetryScreen && retryTimer == RetrySeconds && !completed
    {
      intro := Opening();
      balloons := [];
      score, balloonsPopped := 0, 0;
      timeLeft := PlaySeconds;
      gameActive, gameCompleted := false, false;
      showWinScreen, winTimer := false, WinSeconds;
      attempts := 1;
      showRetryScreen, retryTimer := false, RetrySeconds;
      completed := false;
    }

    /** The screen rendered: rules, countdown, retry, success, then the
        balloons. */
    function View(): (s: Screen)
      reads this`intro, this`showRetryScreen, this`showWinScreen
      ensures s == PlayScreen <==> intro.Started? && !showRetryScreen && !showWinScreen
      ensures s == RetryScreen <==> intro.Started? && showRetryScreen
    {
      match intro
      case Rules(_) => RulesScreen
      case Countdown(_) => CountdownScreen
      case Started =>
        if showRetryScreen then RetryScreen
        else if showWinScreen then WinScreen
        else PlayScreen
    }

    /** A game just started: twenty fresh balloons, no score, fifteen
        seconds, play on. */
    ghost predicate FreshGame()
      reads this
    {
      && balloons == FreshBalloons() && score == 0 && balloonsPopped == 0
      && timeLeft == PlaySeconds && gameActive && !gameCompleted
    }

    /** Twenty fresh balloons, no score, fifteen seconds, play on. */
    method InitializeGame()
      requires Valid() && intro.Started? && !showWinScreen && !showRetryScreen
      modifies this`balloons, this`score, this`balloonsPopped, this`timeLeft, this`gameActive,
               this`gameCompleted
      ensures Valid() && FreshGame()
    {
      DealBalloons();
      timeLeft := PlaySeconds;
      gameActive, gameCompleted := true, false;
    }

    /** The balloons and the counts of a new game. */
    method DealBalloons()
      modifies this`balloons, this`score, this`balloonsPopped
      ensures CountValid()
      ensures balloons == FreshBalloons() && score == 0 && balloonsPopped == 0
    {
      balloons := FreshBalloons();
      NonePoppedCountsZero(balloons);
      score, balloonsPopped := 0, 0;
    }

    /** A new game after a failed one: the attempt number goes up, the
        retry timer is wound back, and play starts at once, without the
        rules or the countdown. */
    method ResetGame()
      requires Valid() && intro.Started? && !showWinScreen && !showRetryScreen
      modifies this`attempts, this`retryTimer, this`balloons, this`score, this`balloonsPopped,
               this`timeLeft, this`gameActive, this`gameCompleted
      ensures Valid()
      ensures attempts == old(attempts) + 1 && retryTimer == RetrySeconds
      ensures FreshGame()
    {
      attempts, retryTimer := attempts + 1, RetrySeconds;
      InitializeGame();
    }

    /** A click on balloon `id`.  Outside play nothing happens.  In play
        the balloon is popped if it is not yet, and the score and the pop
        count go up by one exactly when the click found an unpopped
        balloon; a second click on a popped balloon changes nothing. */
    method PopBalloon(id: nat)
      requires Valid()
      modifies this`balloons, this`score, this`balloonsPopped
      ensures Valid()
      ensures !old(gameActive) ==> unchanged(this)
      ensures old(gameActive) && Poppable(old(balloons), id) ==>
                && balloons == PopInList(old(balloons), id)
                && score == old(score) + 1 && balloonsPopped == old(balloonsPopped) + 1
      ensures old(gameActive) && !Poppable(old(balloons), id) ==> unchanged(this)
    {
      if !gameActive {
        return;
      }
      var before := balloons;
      PopCount(before, id);
      balloons := PopInList(before, id);
      var balloon := Find(before, id);
      if balloon.Some? && !balloon.value.isPopped {
        score := score + 1;
        balloonsPopped := balloonsPopped + 1;
      } else if balloon.Some? {
        PopAbsentOrPopped(before, id);
      } else {
        PopAbsent(before, id);
      }
    }

    /** The success screen after ten points or more, the retry screen
        otherwise (the second's delay before them is not modelled). */
    method Evaluate()
      requires Valid() && gameCompleted
      modifies this`showWinScreen, this`showRetryScreen
      ensures Valid()
      ensures old(!showWinScreen && !showRetryScreen) ==>
                && (showWinScreen <==> CanContinue(score))
                && (showRetryScreen <==> !CanContinue(score))
    {
      if !showWinScreen && !showRetryScreen {
        if CanContinue(score) {
          showWinScreen := true;
        } else {
          showRetryScreen := true;
        }
      }
    }

    /** One second of the game clock while play is on: at its last second
        the clock reads 0, play stops, the game is completed and
        evaluated. */
    method ClockStep()
      requires Valid()
      modifies this`timeLeft, this`gameActive, this`gameCompleted, this`showWinScreen,
               this`showRetryScreen
      ensures Valid()
      ensures !old(gameActive) ==> unchanged(this)
      ensures old(gameActive) && old(timeLeft) > 1 ==>
                && timeLeft == old(timeLeft) - 1 && gameActive
                && unchanged(this`gameCompleted, this`showWinScreen, this`showRetryScreen)
      ensures old(gameActive) && old(timeLeft) <= 1 ==>
                && timeLeft == 0 && !gameActive && gameCompleted
                && (showWinScreen <==> CanContinue(score))
                && (showRetryScreen <==> !CanContinue(score))
    {
      if gameActive && !gameCompleted {
        if timeLeft <= 1 {
          timeLeft, gameActive, gameCompleted := 0, false, true;
          Evaluate();
        } else {
          timeLeft := timeLeft - 1;
        }
      }
    }

    /** One second of the success screen; at 0 the game is complete. */
    method WinStep()
      requires Valid()
      modifies this`winTimer, this`completed
      ensures Valid()
      ensures old(showWinScreen) ==> winTimer == (if old(winTimer) > 0 then old(winTimer) - 1 else 0)
      ensures old(showWinScreen) ==> (completed <==> old(completed) || winTimer == 0)
      ensures !old(showWinScreen) ==> unchanged(this)
    {
      if showWinScreen {
        if winTimer > 0 {
          winTimer := winTimer - 1;
        }
        if winTimer == 0 {
          completed := true;
        }
      }
    }

    /** One second of the retry screen; at 0 a new game starts. */
    method RetryStep()
      requires Valid()
      modifies this`retryTimer, this`attempts, this`showRetryScreen, this`balloons, this`score,
               this`balloonsPopped, this`timeLeft, this`gameActive, this`gameCompleted
      ensures Valid()
      ensures old(showRetryScreen) && old(retryTimer) <= 1 ==>
                && attempts == old(attempts) + 1 && retryTimer == RetrySeconds && !showRetryScreen
                && FreshGame() && View() == PlayScreen
      ensures old(showRetryScreen) && old(retryTimer) > 1 ==>
                && retryTimer == old(retryTimer) - 1 && showRetryScreen
                && unchanged(this`attempts, this`balloons, this`score, this`balloonsPopped,
                             this`timeLeft, this`gameActive, this`gameCompleted)
      ensures !old(showRetryScreen) ==> unchanged(this)
    {
      if showRetryScreen {
        if retryTimer > 0 {
          retryTimer := retryTimer - 1;
        }
        if retryTimer == 0 {
          showRetryScreen := false;
          ResetGame();
        }
      }
    }

    /** One second of the component.  During the opening only the opening
        advances, and its end starts the first game.  Afterwards the timer
        of the phase the game is in advances: the play clock, the success
        screen or the retry screen. */
    method Tick()
      requires Valid()
      modifies this
      ensures Valid()
      ensures !old(intro).Started? ==>
                && intro == IntroTick(old(intro))
                && (intro.Started? ==> FreshGame())
                && (!intro.Started? ==>
                      unchanged(this`balloons, this`score, this`balloonsPopped, this`timeLeft,
                                this`gameActive, this`gameCompleted))
                && unchanged(this`showWinScreen, this`winTimer, this`attempts, this`showRetryScreen,
                             this`retryTimer, this`completed)
      ensures old(intro).Started? ==> intro == old(intro)
      ensures old(intro).Started? && old(gameActive) ==>
                && (old(timeLeft) > 1 ==>
                      && timeLeft == old(timeLeft) - 1 && gameActive
                      && unchanged(this`gameCompleted, this`showWinScreen, this`showRetryScreen))
                && (old(timeLeft) <= 1 ==>
                      && timeLeft == 0 && !gameActive && gameCompleted
                      && (showWinScreen <==> CanContinue(score))
                      && (showRetryScreen <==> !CanContinue(score)))
                && unchanged(this`balloons, this`score, this`balloonsPopped, this`winTimer,
                             this`attempts, this`retryTimer, this`completed)
      ensures old(intro).Started? && old(showWinScreen) ==>
                && winTimer == (if old(winTimer) > 0 then old(winTimer) - 1 else 0)
                && (completed <==> old(completed) || winTimer == 0)
                && unchanged(this`balloons, this`score, this`balloonsPopped, this`timeLeft,
                             this`gameActive, this`gameCompleted, this`showWinScreen, this`attempts,
                             this`showRetryScreen, this`retryTimer)
      ensures old(intro).Started? && old(showRetryScreen) ==>
                && (old(retryTimer) <= 1 ==>
                      && attempts == old(attempts) + 1 && retryTimer == RetrySeconds
                      && !showRetryScreen && FreshGame())
                && (old(retryTimer) > 1 ==>
                      && retryTimer == old(retryTimer) - 1 && showRetryScreen
                      && unchanged(this`attempts, this`balloons, this`score, this`balloonsPopped,
                                   this`timeLeft, this`gameActive, this`gameCompleted))
                && unchanged(this`showWinScreen, this`winTimer, this`completed)
      ensures old(intro).Started? && !(old(gameActive) || old(showWinScreen) || old(showRetryScreen)) ==>
                unchanged(this)
    {
      if !intro.Started? {
        intro := IntroTick(intro);
        if intro.Started? {
          InitializeGame();
        }
        return;
      }
      // Play, the success screen and the retry screen exclude one
      // another, so at most one of their timers runs.
      if gameActive {
        ClockStep();
      } else if showWinScreen {
        WinStep();
      } else if showRetryScreen {
        RetryStep();
      }
    }
  }

  /** A popped balloon found by the click stays as it is: with distinct
      ids it is the only balloon with that id. */
  lemma PopAbsentOrPopped(bs: seq<Balloon>, id: nat)
    requires DistinctIds(bs) && Find(bs, id).Some? && Find(bs, id).value.isPopped
    ensures PopInList(bs, id) == bs
  {
    var r := PopInList(bs, id);
    forall i | 0 <= i < |bs| ensures r[i] == bs[i] {
      if bs[i].id == id {
        FoundIsUnique(bs, id, i);
      }
    }
  }

  /** With distinct ids, the balloon found for `id` is the one at any
      position holding that id. */
  lemma {:induction false} FoundIsUnique(bs: seq<Balloon>, id: nat, i: nat)
    requires DistinctIds(bs) && i < |bs| && bs[i].id == id
    ensures Find(bs, id) == Some(bs[i])
  {
    if bs[0].id != id {
      var rest := bs[1..];
      assert DistinctIds(rest) by {
        forall a, b | 0 <= a < b < |rest| ensures rest[a].id != rest[b].id {
          assert rest[a] == bs[a + 1] && rest[b] == bs[b + 1];
        }
      }
      FoundIsUnique(rest, id, i - 1);
    }
  }
}
