/** The Snake & Ladders race against the computer: a 100-tile board with
    fixed snake and ladder tables, the three-sixes rule for both sides,
    the computer's habit of stepping around ladder feet, a seven-minute
    clock, and the win screen that hands control back to the path.
    Dice rolls and the computer's coin flips are parameters. */
module SnakeLadder {
  import opened Lifecycle

  const Finish: int := 100
  const TimeBudget: nat := 420
  const WinSeconds: nat := 5
  const PopupSeconds: nat := 2

  /** Snake heads and the tiles they send a token down to. */
  const Snakes: map<int, int> :=
    map[16 := 6, 47 := 26, 49 := 11, 56 := 53, 62 := 19, 64 := 60, 87 := 24, 93 := 73, 95 := 75, 98 := 78]

  /** Ladder feet and the tiles they lift a token up to. */
  const Ladders: map<int, int> :=
    map[4 := 14, 9 := 21, 21 := 42, 28 := 84, 36 := 44, 51 := 67, 71 := 91, 80 := 100]

  /** Every snake goes down, and stays on the board. */
  lemma SnakesGoDown()
    ensures forall h :: h in Snakes ==> 1 <= Snakes[h] < h <= Finish
  {
  }

  /** Every ladder goes up, and stays on the board. */
  lemma LaddersGoUp()
    ensures forall f :: f in Ladders ==> 1 <= f < Ladders[f] <= Finish
  {
  }

  /** No tile is both a snake head and a ladder foot. */
  lemma HeadsAreNotFeet()
    ensures Snakes.Keys !! Ladders.Keys
  {
  }

  /** The tile a roll reaches before snakes and ladders: the sum,
      clamped to the last tile. */
  function Advance(pos: int, steps: int): (r: int)
    ensures r <= Finish
    ensures pos + steps <= Finish ==> r == pos + steps
    ensures pos + steps > Finish ==> r == Finish
  {
    if pos + steps < Finish then pos + steps else Finish
  }

  /** Any roll that would pass tile 100 stops on it: the board does not
      demand the exact landing its rules screen announces. */
  lemma OvershootReachesFinish(pos: int, steps: int)
    requires pos <= Finish && pos + steps >= Finish
    ensures Advance(pos, steps) == Finish
  {
  }

  /** Where a token that stops on `p` ends up: down a snake, up a ladder,
      or where it stopped. */
  function Slide(p: int): (r: int)
    ensures p in Snakes ==> r == Snakes[p] && r < p
    ensures p in Ladders ==> r == Ladders[p] && r > p
    ensures p !in Snakes && p !in Ladders ==> r == p
  {
    if p in Snakes then Snakes[p] else if p in Ladders then Ladders[p] else p
  }

  /** A tile the computer may take instead of the ladder foot `landing`:
      within two tiles of it, past its old tile, on the board and not a
      ladder foot itself. */
  predicate IsSubstitute(oldPos: int, landing: int, a: int)
  {
    a != landing && landing - 2 <= a <= landing + 2 && oldPos < a <= Finish && a !in Ladders
  }

  /** The one-tile list for `offset` if that tile is a substitute. */
  function Candidate(oldPos: int, landing: int, offset: int): seq<int>
  {
    if offset != 0 && IsSubstitute(oldPos, landing, landing + offset) then [landing + offset] else []
  }

  /** The candidates the loop has collected once its offset has reached
      `offset` (offsets run from -2 to 2 and skip 0). */
  function SubstitutesBefore(oldPos: int, landing: int, offset: int): seq<int>
  {
    (if offset > -2 then Candidate(oldPos, landing, -2) else [])
    + (if offset > -1 then Candidate(oldPos, landing, -1) else [])
    + (if offset > 1 then Candidate(oldPos, landing, 1) else [])
    + (if offset > 2 then Candidate(oldPos, landing, 2) else [])
  }

  /** The alternatives list the computer draws from. */
  function Substitutes(oldPos: int, landing: int): seq<int>
  {
    SubstitutesBefore(oldPos, landing, 3)
  }

  /** The alternatives are exactly the substitute tiles, each once, in
      increasing order. */
  lemma SubstitutesExact(oldPos: int, landing: int)
    ensures forall a :: a in Substitutes(oldPos, landing) <==> IsSubstitute(oldPos, landing, a)
    ensures forall i, j :: 0 <= i < j < |Substitutes(oldPos, landing)| ==>
                          Substitutes(oldPos, landing)[i] < Substitutes(oldPos, landing)[j]
  {
    var c1, c2, c3, c4 := Candidate(oldPos, landing, -2), Candidate(oldPos, landing, -1),
                          Candidate(oldPos, landing, 1), Candidate(oldPos, landing, 2);
    var alts := Substitutes(oldPos, landing);
    assert alts == c1 + c2 + c3 + c4;
    forall a | IsSubstitute(oldPos, landing, a)
      ensures a in alts
    {
      if a == landing - 2 { assert a in c1; }
      else if a == landing - 1 { assert a in c2; }
      else if a == landing + 1 { assert a in c3; }
      else { assert a in c4; }
    }
  }

  /** The loop that collects the computer's alternatives to a ladder
      foot. */
  method Alternatives(oldPos: int, landing: int) returns (alts: seq<int>)
    ensures alts == Substitutes(oldPos, landing)
    ensures forall a :: a in alts <==> IsSubstitute(oldPos, landing, a)
  {
    alts := [];
    var offset := -2;
    while offset <= 2
      invariant -2 <= offset <= 3
      invariant alts == SubstitutesBefore(oldPos, landing, offset)
      decreases 3 - offset
    {
      if offset != 0 {
        var altPos := landing + offset;
        if altPos > oldPos && altPos <= Finish && altPos !in Ladders {
          alts := alts + [altPos];
        }
      }
      offset := offset + 1;
    }
    SubstitutesExact(oldPos, landing);
  }

  /** The tile the computer's roll takes it to before snakes and ladders:
      `avoid` is the 72.5% coin flip that makes it step around a ladder
      foot, `pick` the draw among the alternatives. */
  function ComputerLanding(oldPos: int, roll: int, avoid: bool, pick: nat): int
  {
    var landing := Advance(oldPos, roll);
    if landing in Ladders && avoid then
      var alts := Substitutes(oldPos, landing);
      if |alts| > 0 then alts[pick % |alts|] else landing
    else landing
  }

  /** When the computer is steered away from a ladder foot, the tile it
      takes instead is within two tiles of the foot, ahead of where it
      stood, on the board and not a ladder foot; otherwise it takes the
      clamped sum. */
  lemma ComputerLandingRedirect(oldPos: int, roll: int, avoid: bool, pick: nat)
    ensures var r := ComputerLanding(oldPos, roll, avoid, pick);
            var landing := Advance(oldPos, roll);
            r == landing || (landing in Ladders && avoid && IsSubstitute(oldPos, landing, r))
    ensures !avoid ==> ComputerLanding(oldPos, roll, avoid, pick) == Advance(oldPos, roll)
    ensures Advance(oldPos, roll) !in Ladders ==> ComputerLanding(oldPos, roll, avoid, pick) == Advance(oldPos, roll)
  {
    var landing := Advance(oldPos, roll);
    if landing in Ladders && avoid {
      var alts := Substitutes(oldPos, landing);
      SubstitutesExact(oldPos, landing);
      if |alts| > 0 {
        assert alts[pick % |alts|] in alts;
      }
    }
  }

  /** The computer's target tile as its turn computes it: the clamped
      sum, replaced by a collected alternative when it is a ladder foot
      and the coin says to avoid it. */
  method ComputerTarget(oldPos: int, roll: int, avoid: bool, pick: nat) returns (t: int)
    ensures t == ComputerLanding(oldPos, roll, avoid, pick)
  {
    t := Advance(oldPos, roll);
    if t in Ladders && avoid {
      var alternatives := Alternatives(oldPos, t);
      if |alternatives| > 0 {
        t := alternatives[pick % |alternatives|];
      }
    }
  }

  datatype Turn = Player | Computer

  /** The state of one mounted Snake & Ladders component. */
  class Game {
    var intro: Intro
    var playerPosition: int
    var computerPosition: int
    var currentPlayer: Turn
    var diceValue: int
    var sixCount: nat
    var computerSixCount: nat
    var gameEnded: bool
    var turnPopup: nat        // seconds the turn popup stays on screen
    var timeRemaining: nat
    var showWinScreen: bool
    var winTimer: nat
    var completed: bool       // onComplete has been called

    ghost predicate Valid()
      reads this
    {
      && 1 <= playerPosition <= Finish
      && 1 <= computerPosition <= Finish
      && sixCount < 3 && computerSixCount < 3
      && timeRemaining <= TimeBudget
      && turnPopup <= PopupSeconds
      && winTimer <= WinSeconds
      && (timeRemaining == 0 ==> gameEnded)
    }

    constructor ()
      ensures Valid()
      ensures intro == Opening() && !completed
      ensures playerPosition == 1 && computerPosition == 1 && currentPlayer == Player
      ensures sixCount == 0 && computerSixCount == 0 && diceValue == 1
      ensures !gameEnded && timeRemaining == TimeBudget && turnPopup == 0
      ensures !showWinScreen && winTimer == WinSeconds
    {
      intro := Opening();
      playerPosition, computerPosition := 1, 1;
      currentPlayer := Player;
      diceValue := 1;
      sixCount, computerSixCount := 0, 0;
      gameEnded := false;
      turnPopup := 0;
      timeRemaining := TimeBudget;
      showWinScreen := false;
      winTimer := WinSeconds;
      completed := false;
    }

    /** The roll button does something: it is the player's turn, play has
        started, the game has not ended and no turn popup is showing.  The
        roll animation is not modelled, so the rolling flag is always
        clear between handlers. */
    predicate CanRoll()
      reads this
    {
      currentPlayer == Player && intro.Started? && !gameEnded && turnPopup == 0
    }

    /** What moving the player by `steps` does to the state. */
    twostate predicate PlayerMoved(steps: int)
      reads this
    {
      var tentative := Advance(old(playerPosition), steps);
      && (steps == 6 && old(sixCount) + 1 >= 3 ==>
            && playerPosition == 1 && sixCount == 0
            && currentPlayer == Computer && turnPopup == PopupSeconds
            && gameEnded == old(gameEnded) && showWinScreen == old(showWinScreen))
      && (steps == 6 && old(sixCount) + 1 < 3 ==>
            && playerPosition == tentative && sixCount == old(sixCount) + 1
            && currentPlayer == old(currentPlayer) && turnPopup == old(turnPopup)
            && gameEnded == old(gameEnded) && showWinScreen == old(showWinScreen))
      && (steps != 6 ==>
            && sixCount == 0 && playerPosition == Slide(tentative)
            && (playerPosition >= Finish ==>
                  gameEnded && showWinScreen
                  && currentPlayer == old(currentPlayer) && turnPopup == old(turnPopup))
            && (playerPosition < Finish ==>
                  currentPlayer == Computer && turnPopup == PopupSeconds
                  && gameEnded == old(gameEnded) && showWinScreen == old(showWinScreen)))
    }

    /** The player's token moves `steps` tiles: a third six in a row sends
        it back to tile 1 and passes the turn; any other six keeps the
        turn and skips the snake and ladder lookup and the win check; any
        other roll clears the six count, follows a snake or ladder, and
        either wins or passes the turn. */
    method MovePlayer(steps: int)
      requires Valid() && 1 <= steps <= 6
      modifies this`playerPosition, this`sixCount, this`currentPlayer, this`turnPopup,
               this`gameEnded, this`showWinScreen
      ensures Valid()
      ensures PlayerMoved(steps)
    {
      var newPosition := Advance(playerPosition, steps);
      playerPosition := newPosition;
      if steps == 6 {
        if sixCount + 1 >= 3 {
          playerPosition := 1;
          sixCount := 0;
          currentPlayer := Computer;
          turnPopup := PopupSeconds;
          return;
        } else {
          sixCount := sixCount + 1;
          return;
        }
      } else {
        sixCount := 0;
      }
      var finalPosition := Slide(newPosition);
      playerPosition := finalPosition;
      if finalPosition >= Finish {
        gameEnded := true;
        showWinScreen := true;
        return;
      }
      currentPlayer := Computer;
      turnPopup := PopupSeconds;
    }

    /** A click on the roll button with `roll` as the die's final face. */
    method RollDice(roll: int)
      requires Valid() && 1 <= roll <= 6
      modifies this`diceValue, this`playerPosition, this`sixCount, this`currentPlayer,
               this`turnPopup, this`gameEnded, this`showWinScreen
      ensures Valid()
      ensures !old(CanRoll()) ==> unchanged(this)
      ensures old(CanRoll()) ==> diceValue == roll && PlayerMoved(roll)
    {
      if !CanRoll() {
        return;
      }
      diceValue := roll;
      MovePlayer(roll);
    }

    /** One run of the computer's delayed turn.  A six that is not its
        third leaves the computer where it is with the turn still its own
        (the component schedules another run); a third six sends it back
        to tile 1 and hands the turn over; any other roll moves it, and
        reaching tile 100 ends the game and completes it. */
    method ComputerTurn(roll: int, avoid: bool, pick: nat)
      requires Valid() && 1 <= roll <= 6
      modifies this`computerPosition, this`computerSixCount, this`currentPlayer,
               this`turnPopup, this`gameEnded, this`completed
      ensures Valid()
      ensures roll == 6 && old(computerSixCount) + 1 >= 3 ==>
                && computerPosition == 1 && computerSixCount == 0
                && currentPlayer == Player && turnPopup == PopupSeconds
                && gameEnded == old(gameEnded) && completed == old(completed)
      ensures roll == 6 && old(computerSixCount) + 1 < 3 ==>
                && computerPosition == old(computerPosition)
                && computerSixCount == old(computerSixCount) + 1
                && currentPlayer == old(currentPlayer) && turnPopup == old(turnPopup)
                && gameEnded == old(gameEnded) && completed == old(completed)
      ensures roll != 6 ==>
                && computerSixCount == 0
                && computerPosition == Slide(ComputerLanding(old(computerPosition), roll, avoid, pick))
      ensures roll != 6 && computerPosition >= Finish ==>
                && gameEnded && completed
                && currentPlayer == old(currentPlayer) && turnPopup == old(turnPopup)
      ensures roll != 6 && computerPosition < Finish ==>
                && currentPlayer == Player && turnPopup == PopupSeconds
                && gameEnded == old(gameEnded) && completed == old(completed)
    {
      var newComputerPosition := ComputerTarget(computerPosition, roll, avoid, pick);
      if roll == 6 {
        if computerSixCount + 1 >= 3 {
          computerPosition := 1;
          computerSixCount := 0;
          currentPlayer := Player;
          turnPopup := PopupSeconds;
          return;
        } else {
          computerSixCount := computerSixCount + 1;
          return;
        }
      } else {
        computerSixCount := 0;
      }
      ComputerLandingRedirect(computerPosition, roll, avoid, pick);
      ComputerLands(newComputerPosition);
    }

    /** The computer's token stops on `target` and slides: on tile 100
        the game ends and completes, anywhere else the turn passes to the
        player with the turn popup showing. */
    method ComputerLands(target: int)
      requires Valid() && 1 <= target <= Finish
      modifies this`computerPosition, this`currentPlayer, this`turnPopup, this`gameEnded, this`completed
      ensures Valid()
      ensures computerPosition == Slide(target)
      ensures computerPosition >= Finish ==>
                && gameEnded && completed
                && currentPlayer == old(currentPlayer) && turnPopup == old(turnPopup)
      ensures computerPosition < Finish ==>
                && currentPlayer == Player && turnPopup == PopupSeconds
                && gameEnded == old(gameEnded) && completed == old(completed)
    {
      var finalPosition := Slide(target);
      computerPosition := finalPosition;
      if finalPosition >= Finish {
        gameEnded := true;
        completed := true;
        return;
      }
      currentPlayer := Player;
      turnPopup := PopupSeconds;
    }

    /** The clock has run out: the game ends, a player who is ahead gets
        the win screen, and a tie or a player behind completes the game
        all the same. */
    method TimeUp()
      modifies this`gameEnded, this`showWinScreen, this`completed
      ensures gameEnded
      ensures playerPosition > computerPosition ==> showWinScreen && completed == old(completed)
      ensures playerPosition <= computerPosition ==> completed && showWinScreen == old(showWinScreen)
    {
      gameEnded := true;
      if playerPosition > computerPosition {
        showWinScreen := true;
      } else {
        completed := true;
      }
    }

    /** One second: the rules and countdown screens (play starts with the
        "your turn" popup), the popup, the win screen (its timer reaching
        0 completes the game) and the game clock. */
    method Tick()
      requires Valid()
      modifies this`intro, this`turnPopup, this`winTimer, this`completed,
               this`timeRemaining, this`gameEnded, this`showWinScreen
      ensures Valid()
      ensures !old(intro).Started? ==>
                && intro == IntroTick(old(intro))
                && turnPopup == (if intro.Started? then PopupSeconds else old(turnPopup))
                && unchanged(this`winTimer, this`completed, this`timeRemaining, this`gameEnded, this`showWinScreen)
      ensures old(intro).Started? ==>
                && intro.Started?
                && turnPopup == (if old(turnPopup) > 0 then old(turnPopup) - 1 else 0)
                && winTimer == (if old(showWinScreen) && old(winTimer) > 0 then old(winTimer) - 1 else old(winTimer))
                && timeRemaining == (if old(gameEnded) then old(timeRemaining) else old(timeRemaining) - 1)
                && var lastSecond := !old(gameEnded) && old(timeRemaining) == 1;
                   && gameEnded == (old(gameEnded) || lastSecond)
                   && showWinScreen == (old(showWinScreen) || (lastSecond && playerPosition > computerPosition))
                   && completed == (|| old(completed)
                                    || (old(showWinScreen) && winTimer == 0)
                                    || (lastSecond && playerPosition <= computerPosition))
    {
      if !intro.Started? {
        intro := IntroTick(intro);
        if intro.Started? {
          turnPopup := PopupSeconds;
        }
        return;
      }
      if turnPopup > 0 {
        turnPopup := turnPopup - 1;
      }
      if showWinScreen {
        if winTimer > 0 {
          winTimer := winTimer - 1;
        }
        if winTimer == 0 {
          completed := true;
        }
      }
      ClockStep();
    }

    /** One second of the seven-minute clock, which stops when the game
        ends; at 0 the time-out decides. */
    method ClockStep()
      requires Valid()
      modifies this`timeRemaining, this`gameEnded, this`showWinScreen, this`completed
      ensures Valid()
      ensures timeRemaining == (if old(gameEnded) then old(timeRemaining) else old(timeRemaining) - 1)
      ensures var lastSecond := !old(gameEnded) && old(timeRemaining) == 1;
              && gameEnded == (old(gameEnded) || lastSecond)
              && showWinScreen == (old(showWinScreen) || (lastSecond && playerPosition > computerPosition))
              && completed == (old(completed) || (lastSecond && playerPosition <= computerPosition))
    {
      if !gameEnded && timeRemaining > 0 {
        timeRemaining := timeRemaining - 1;
        if timeRemaining == 0 {
          TimeUp();
        }
      }
    }
  }

  /** A six that carries the player onto a snake head is not bitten: the
      six branch returns before the lookup. */
  method SixSkipsSnake() returns (position: int, bitten: bool)
    ensures position == 16 && !bitten
  {
    var g := new Game();
    g.intro := Started;
    g.playerPosition := 10;
    g.RollDice(6);
    position := g.playerPosition;
    bitten := position == Snakes[16];
  }

  /** From tile 97 a roll of 5 wins, without landing exactly on 100. */
  method OvershootWins() returns (ended: bool, winScreen: bool)
    ensures ended && winScreen
  {
    var g := new Game();
    g.intro := Started;
    g.playerPosition := 97;
    g.RollDice(5);
    ended, winScreen := g.gameEnded, g.showWinScreen;
  }

  /** When the computer reaches 100 first, the game is still completed
      and the path moves on. */
  method ComputerWinStillCompletes() returns (completed: bool, winScreen: bool)
    ensures completed && !winScreen
  {
    var g := new Game();
    g.intro := Started;
    g.currentPlayer := Computer;
    g.computerPosition := 97;
    g.ComputerTurn(5, true, 0);
    completed, winScreen := g.completed, g.showWinScreen;
  }
}
