/** The Love Maze: the player walks a 15 by 15 grid of walls and paths
    from the bottom-left start to the finish at the top right, within
    300 seconds and with 3 lives.  Three guards patrol fixed paths and
    cost a life on contact; two gates, each with a question, stand in
    the middle corridors. */
module LoveMaze {
  import opened Lifecycle
  import opened Optional

  const Size: int := 15
  const WallMark: nat := 1
  const FinishMark: nat := 2
  const GateMark: nat := 3
  const StartLives: int := 3
  const TimeLimit: nat := 300
  const WinScore: nat := 100
  const ConfettiSeconds: nat := 3
  const WinSeconds: nat := 5

  /** Row `y` of the grid, from the top: 0 is path, 1 wall, 2 the
      finish, 3 a gate. */
  function Row(y: int): (r: seq<nat>)
    ensures |r| == Size
  {
    if y == 0 then [1, 1, 1, 1, 1, 1, 1, 1, 1, 1, 1, 1, 1, 1, 1] else
    if y == 1 then [1, 0, 0, 0, 1, 0, 0, 0, 0, 0, 1, 0, 0, 0, 2] else
    if y == 2 then [1, 0, 1, 0, 1, 0, 1, 1, 1, 0, 1, 0, 1, 0, 1] else
    if y == 3 then [1, 0, 1, 0, 0, 0, 0, 0, 1, 0, 0, 0, 1, 0, 1] else
    if y == 4 then [1, 0, 1, 1, 1, 1, 1, 0, 1, 1, 1, 0, 1, 0, 1] else
    if y == 5 then [1, 0, 0, 0, 0, 0, 1, 0, 0, 0, 1, 0, 0, 0, 1] else
    if y == 6 then [1, 1, 1, 0, 1, 0, 1, 1, 1, 0, 1, 1, 1, 0, 1] else
    if y == 7 then [1, 0, 0, 0, 1, 0, 0, 3, 0, 0, 1, 0, 0, 0, 1] else
    if y == 8 then [1, 0, 1, 1, 1, 1, 1, 0, 1, 1, 1, 1, 1, 0, 1] else
    if y == 9 then [1, 0, 0, 0, 0, 0, 0, 3, 0, 0, 0, 0, 0, 0, 1] else
    if y == 10 then [1, 1, 1, 0, 1, 1, 1, 0, 1, 1, 1, 0, 1, 1, 1] else
    if y == 11 then [1, 0, 0, 0, 1, 0, 0, 0, 0, 0, 1, 0, 0, 0, 1] else
    if y == 12 then [1, 0, 1, 1, 1, 0, 1, 1, 1, 0, 1, 1, 1, 0, 1] else
    if y == 13 then [0, 0, 1, 0, 0, 0, 0, 0, 0, 0, 0, 0, 1, 0, 1] else
    [1, 1, 1, 1, 1, 1, 1, 1, 1, 1, 1, 1, 1, 1, 1]
  }

  /** A cell, by column `x` and row `y`. */
  datatype Pos = Pos(x: int, y: int)

  const Start: Pos := Pos(1, 13)
  const Finish: Pos := Pos(14, 1)

  predicate InGrid(p: Pos)
  {
    0 <= p.x < Size && 0 <= p.y < Size
  }

  function Cell(p: Pos): nat
    requires InGrid(p)
  {
    Row(p.y)[p.x]
  }

  /** A cell the player may stand on: inside the grid and not a wall. */
  predicate Walkable(p: Pos)
  {
    InGrid(p) && Cell(p) != WallMark
  }

  datatype Direction = Up | Down | Left | Right

  function Max(a: int, b: int): int { if a >= b then a else b }
  function Min(a: int, b: int): int { if a <= b then a else b }

  /** The cell one step away in direction `d`, kept inside the grid: at
      an edge the step is clamped to the edge. */
  function Step(p: Pos, d: Direction): (r: Pos)
    requires InGrid(p)
    ensures InGrid(r)
    ensures r == p || (r.x == p.x && (r.y == p.y - 1 || r.y == p.y + 1))
                   || (r.y == p.y && (r.x == p.x - 1 || r.x == p.x + 1))
    ensures d.Up? ==> r.x == p.x && r.y <= p.y
    ensures d.Down? ==> r.x == p.x && r.y >= p.y
    ensures d.Left? ==> r.y == p.y && r.x <= p.x
    ensures d.Right? ==> r.y == p.y && r.x >= p.x
  {
    match d
    case Up => Pos(p.x, Max(0, p.y - 1))
    case Down => Pos(p.x, Min(Size - 1, p.y + 1))
    case Left => Pos(Max(0, p.x - 1), p.y)
    case Right => Pos(Min(Size - 1, p.x + 1), p.y)
  }

  /** A gate: where it stands, whether it is open, and the option that
      answers its question. */
  datatype Gate = Gate(id: nat, pos: Pos, isOpen: bool, correctAnswer: nat)

  /** The two cells that hold a gate. */
  predicate OnGateCell(p: Pos)
  {
    p == Pos(7, 7) || p == Pos(7, 9)
  }

  /** The gate cells are the ones the grid marks 3, and the only cell
      marked 2 is the finish. */
  lemma MarkedCells(p: Pos)
    requires InGrid(p)
    ensures OnGateCell(p) ==> Cell(p) == GateMark
    ensures Cell(p) == FinishMark <==> p == Finish
  {
    if p.y == 1 {
      assert Row(1) == [1, 0, 0, 0, 1, 0, 0, 0, 0, 0, 1, 0, 0, 0, 2];
    } else {
      NoFinishOffTopRow(p.y);
    }
  }

  /** No row but row 1 holds the finish mark. */
  lemma NoFinishOffTopRow(y: int)
    requires 0 <= y < Size && y != 1
    ensures FinishMark !in Row(y)
  {
  }

  /** Both gates closed, as every game starts. */
  const InitialGates: seq<Gate> := [Gate(1, Pos(7, 7), false, 1), Gate(2, Pos(7, 9), false, 1)]

  /** The first gate standing on `p`, if any. */
  function GateAt(gates: seq<Gate>, p: Pos): (r: Option<Gate>)
    ensures r.Some? ==> r.value in gates && r.value.pos == p
    ensures r.None? <==> forall g :: g in gates ==> g.pos != p
  {
    if |gates| == 0 then None
    else if gates[0].pos == p then Some(gates[0])
    else GateAt(gates[1..], p)
  }

  /** `p` holds a gate that is shut. */
  predicate Blocked(gates: seq<Gate>, p: Pos)
  {
    GateAt(gates, p).Some? && !GateAt(gates, p).value.isOpen
  }

  /** Where a step in direction `d` takes the player: the clamped step,
      unless it leads into a wall or a closed gate, in which case the
      player stays put. */
  function Move(p: Pos, d: Direction, gates: seq<Gate>): (r: Pos)
    requires InGrid(p)
    ensures InGrid(r)
  {
    var n := Step(p, d);
    if Cell(n) != WallMark then
      if Blocked(gates, n) then p else n
    else p
  }

  /** A move changes at most one coordinate by one; it goes wherever the
      step leads unless that is a wall or a shut gate, and then nowhere;
      so from a cell the player may stand on, the player ends on such a
      cell again, and never on a shut gate. */
  lemma MoveRules(p: Pos, d: Direction, gates: seq<Gate>)
    requires InGrid(p)
    ensures var r := Move(p, d, gates);
      && (r == p || r == Step(p, d))
      && (r != p ==> Walkable(r) && !Blocked(gates, r))
      && (Walkable(Step(p, d)) && !Blocked(gates, Step(p, d)) ==> r == Step(p, d))
      && (Walkable(p) ==> Walkable(r))
      && (!Blocked(gates, p) ==> !Blocked(gates, r))
  {
  }

  /** The player after a series of key presses. */
  function Walk(p: Pos, ds: seq<Direction>, gates: seq<Gate>): (r: Pos)
    requires InGrid(p)
    ensures InGrid(r)
    decreases |ds|
  {
    if |ds| == 0 then p else Walk(Move(p, ds[0], gates), ds[1..], gates)
  }

  /** However the player presses the keys, starting from a cell that is
      not a wall or a closed gate, the player never stands on a wall or
      a closed gate: the gate question, which needs the player on a
      closed gate, cannot come up by walking. */
  lemma {:induction false} WalkAvoidsWallsAndClosedGates(p: Pos, ds: seq<Direction>, gates: seq<Gate>)
    requires Walkable(p) && !Blocked(gates, p)
    ensures Walkable(Walk(p, ds, gates)) && !Blocked(gates, Walk(p, ds, gates))
    decreases |ds|
  {
    if |ds| > 0 {
      MoveRules(p, ds[0], gates);
      WalkAvoidsWallsAndClosedGates(Move(p, ds[0], gates), ds[1..], gates);
    }
  }

  /** The gates bar the way: from the cell left of the upper gate a step
      right, into the shut gate, leaves the player where they are. */
  lemma ClosedGateBars()
    ensures Move(Pos(6, 7), Right, InitialGates) == Pos(6, 7)
    ensures Cell(Pos(7, 7)) == GateMark && Cell(Pos(7, 9)) == GateMark
  {
  }

  /** A guard: its patrol path, walked in a loop, and its place on it. */
  datatype Guard = Guard(id: nat, path: seq<Pos>, index: nat)

  /** The cell a guard stands on. */
  function GuardPos(g: Guard): Pos
    requires g.index < |g.path|
  {
    g.path[g.index]
  }

  /** One second of patrol: on to the next cell of the path, back to its
      first cell after the last. */
  function GuardStep(g: Guard): (r: Guard)
    requires g.index < |g.path|
    ensures r.id == g.id && r.path == g.path && r.index < |r.path|
    ensures g.index + 1 < |g.path| ==> r.index == g.index + 1
    ensures g.index + 1 == |g.path| ==> r.index == 0
  {
    if g.index + 1 < |g.path| then g.(index := g.index + 1) else g.(index := 0)
  }

  /** The step is the component's `(index + 1) % path.length`. */
  lemma GuardStepWraps(g: Guard)
    requires g.index < |g.path|
    ensures GuardStep(g).index == (g.index + 1) % |g.path|
  {
  }

  /** A guard after `n` seconds of patrol. */
  function GuardAfter(g: Guard, n: nat): (r: Guard)
    requires g.index < |g.path|
    ensures r.id == g.id && r.path == g.path && r.index < |r.path|
    decreases n
  {
    if n == 0 then g else GuardAfter(GuardStep(g), n - 1)
  }

  /** After a whole lap along its path a guard is back where it was. */
  lemma LapReturns(g: Guard)
    requires g.index < |g.path|
    ensures GuardAfter(g, |g.path|) == g
  {
    var len := |g.path|;
    var h := g;
    var k := 0;
    while k < len
      invariant 0 <= k <= len && h.path == g.path && h.id == g.id
      invariant h.index == if g.index + k < len then g.index + k else g.index + k - len
      invariant GuardAfter(g, len) == GuardAfter(h, len - k)
    {
      h := GuardStep(h);
      k := k + 1;
    }
  }

  /** So a patrol repeats with the length of its path as period. */
  lemma {:induction false} GuardPeriodic(g: Guard, n: nat)
    requires g.index < |g.path|
    ensures GuardAfter(g, n + |g.path|) == GuardAfter(g, n)
    decreases n
  {
    if n == 0 {
      LapReturns(g);
    } else {
      GuardPeriodic(GuardStep(g), n - 1);
    }
  }

  /** A guard on a well-formed patrol: a non-empty path that passes
      neither the start nor the finish, and a place on it. */
  predicate GuardValid(g: Guard)
  {
    && |g.path| > 0 && g.index < |g.path|
    && forall k :: 0 <= k < |g.path| ==> g.path[k] != Finish && g.path[k] != Start
  }

  /** The start is an open cell, not the finish, and no gate on a gate
      cell stands on it. */
  lemma StartIsOpen(gates: seq<Gate>)
    requires forall g :: g in gates ==> OnGateCell(g.pos)
    ensures Walkable(Start) && Cell(Start) == 0 && !Blocked(gates, Start)
  {
  }

  /** A board as play may find it: the player on an open cell that is no
      shut gate, guards on their patrols and gates on the gate cells. */
  predicate Board(player: Pos, guards: seq<Guard>, gates: seq<Gate>)
  {
    && Walkable(player) && !Blocked(gates, player)
    && (forall i :: 0 <= i < |guards| ==> GuardValid(guards[i]))
    && (forall g :: g in gates ==> OnGateCell(g.pos))
  }

  /** The three guards as the game places them. */
  const InitialGuards: seq<Guard> := [
    Guard(1, [Pos(3, 3), Pos(4, 3), Pos(5, 3), Pos(4, 3)], 0),
    Guard(2, [Pos(7, 7), Pos(7, 8), Pos(7, 9), Pos(7, 8)], 0),
    Guard(3, [Pos(11, 5), Pos(11, 4), Pos(11, 3), Pos(11, 4)], 0)
  ]

  /** The placed guards patrol away from the start and the finish. */
  lemma InitialGuardsValid()
    ensures forall i :: 0 <= i < |InitialGuards| ==> GuardValid(InitialGuards[i])
  {
    assert GuardValid(InitialGuards[0]);
    assert GuardValid(InitialGuards[1]);
    assert GuardValid(InitialGuards[2]);
  }

  /** Every game starts on such a board. */
  lemma InitialBoard(player: Pos, guards: seq<Guard>, gates: seq<Gate>)
    requires player == Start && guards == InitialGuards && gates == InitialGates
    ensures Board(player, guards, gates)
  {
    InitialGuardsValid();
    StartIsOpen(InitialGates);
  }

  /** The patrols keep to cells the player may stand on, and the second
      guard walks through both gate cells, shut or not. */
  lemma PatrolsOnOpenCells()
    ensures forall i, k :: 0 <= i < |InitialGuards| && 0 <= k < |InitialGuards[i].path| ==>
              Walkable(InitialGuards[i].path[k])
    ensures Pos(7, 7) in InitialGuards[1].path && Pos(7, 9) in InitialGuards[1].path
  {
    forall i, k | 0 <= i < |InitialGuards| && 0 <= k < |InitialGuards[i].path|
      ensures Walkable(InitialGuards[i].path[k])
    {
      var p := InitialGuards[i].path[k];
      assert p in {Pos(3, 3), Pos(4, 3), Pos(5, 3), Pos(7, 7), Pos(7, 8), Pos(7, 9),
                   Pos(11, 5), Pos(11, 4), Pos(11, 3)};
    }
  }

  /** All guards one second further on: each keeps its path and moves
      to the next cell of it, wrapping round after the last. */
  function StepGuards(gs: seq<Guard>): (r: seq<Guard>)
    requires forall i :: 0 <= i < |gs| ==> GuardValid(gs[i])
    ensures |r| == |gs|
    ensures forall i :: 0 <= i < |gs| ==>
      && GuardValid(r[i]) && r[i].id == gs[i].id && r[i].path == gs[i].path
      && r[i].index == (if gs[i].index + 1 < |gs[i].path| then gs[i].index + 1 else 0)
  {
    seq(|gs|, i requires 0 <= i < |gs| && GuardValid(gs[i]) => GuardStep(gs[i]))
  }

  /** Some guard stands on `p`. */
  predicate GuardOn(gs: seq<Guard>, p: Pos)
  {
    exists i :: 0 <= i < |gs| && gs[i].index < |gs[i].path| && GuardPos(gs[i]) == p
  }

  /** The gates after a correct answer at gate `id`: that gate opens,
      every other is as it was, and no gate moves. */
  function OpenGate(gates: seq<Gate>, id: nat): (r: seq<Gate>)
    ensures |r| == |gates|
    ensures forall i :: 0 <= i < |r| ==> r[i].id == gates[i].id && r[i].pos == gates[i].pos
    ensures forall i :: 0 <= i < |r| && gates[i].id == id ==> r[i].isOpen
    ensures forall i :: 0 <= i < |r| && gates[i].id != id ==> r[i] == gates[i]
  {
    seq(|gates|, i requires 0 <= i < |gates| =>
      if gates[i].id == id then gates[i].(isOpen := true) else gates[i])
  }

  /** The clock shown on screen: whole minutes and the seconds left over. */
  function FormatTime(seconds: nat): (r: (nat, nat))
    ensures r.0 * 60 + r.1 == seconds && r.1 < 60
  {
    (seconds / 60, seconds % 60)
  }

  /** The full time reads 5:00. */
  lemma FullTimeIsFiveMinutes()
    ensures FormatTime(TimeLimit) == (5, 0)
  {
  }

  class Game {
    var intro: Intro
    var player: Pos
    var guards: seq<Guard>
    var gates: seq<Gate>
    var lives: int
    var score: nat
    var timeLeft: nat
    var gameActive: bool
    var gameCompleted: bool
    var showConfetti: bool
    var confettiLeft: nat
    var showWinScreen: bool
    var winTimer: nat
    var showQuestion: bool
    var currentGate: Option<Gate>
    var selectedAnswer: Option<nat>
    var attempts: nat
    var showRetryScreen: bool
    var retryTimer: nat
    /** `onComplete` has been called. */
    var completed: bool

    /** Where the player may be and what the guards and gates are: the
        player on an open cell that is no shut gate, guards on their
        patrols and gates on the gate cells (neither before the first
        game). */
    ghost predicate BoardValid()
      reads this`player, this`guards, this`gates
    {
      Board(player, guards, gates)
    }

    /** How the flags hang together. */
    ghost predicate FlowValid()
      reads this`intro, this`player, this`lives, this`score, this`timeLeft, this`gameActive,
            this`gameCompleted, this`showConfetti, this`confettiLeft, this`showWinScreen,
            this`winTimer, this`showQuestion, this`currentGate, this`attempts,
            this`showRetryScreen, this`retryTimer, this`completed
    {
      && 0 <= lives <= StartLives && timeLeft <= TimeLimit && attempts >= 1
      && confettiLeft <= ConfettiSeconds && winTimer <= WinSeconds && retryTimer <= RetrySeconds
      && !showQuestion && currentGate.None?
      && (!intro.Started? ==> !gameActive && !gameCompleted && !showRetryScreen)
      && (gameActive ==> lives > 0 && timeLeft > 0 && !gameCompleted && !showRetryScreen)
      && (gameCompleted ==> score == WinScore && player == Finish && !showRetryScreen)
      && (showConfetti ==> gameCompleted && !showWinScreen)
      && (showWinScreen ==> gameCompleted)
      && (completed ==> showWinScreen && winTimer == 0)
    }

    /** Play is never on while the player stands on the finish: reaching
        it wins at once. */
    ghost predicate OffFinish()
      reads this`gameActive, this`player
    {
      gameActive ==> player != Finish
    }

    ghost predicate Valid()
      reads this
    {
      BoardValid() && FlowValid() && OffFinish()
    }

    constructor ()
      ensures Valid()
      ensures intro == Opening() && player == Start && guards == [] && gates == []
      ensures lives == StartLives && score == 0 && timeLeft == TimeLimit && attempts == 1
      ensures !gameActive && !gameCompleted && !showRetryScreen && !showWinScreen && !completed
    {
      intro := Opening();
      player := Start;
      guards := [];
      gates := [];
      lives := StartLives;
      score := 0;
      timeLeft := TimeLimit;
      gameActive := false;
      gameCompleted := false;
      showConfetti := false;
      confettiLeft := ConfettiSeconds;
      showWinScreen := false;
      winTimer := WinSeconds;
      showQuestion := false;
      currentGate := None;
      selectedAnswer := None;
      attempts := 1;
      showRetryScreen := false;
      retryTimer := RetrySeconds;
      completed := false;
    }

    /** The screen rendered: rules, countdown, retry, success, a gate
        question, then the maze. */
    function View(): (s: Screen)
      reads this
      ensures s == PlayScreen <==> (intro.Started? && !showRetryScreen && !showWinScreen
                                    && !(showQuestion && currentGate.Some?))
      ensures s == RetryScreen <==> intro.Started? && showRetryScreen
    {
      match intro
      case Rules(_) => RulesScreen
      case Countdown(_) => CountdownScreen
      case Started =>
        if showRetryScreen then RetryScreen
        else if showWinScreen then WinScreen
        else if showQuestion && currentGate.Some? then QuestionScreen
        else PlayScreen
    }

    /** A game just started: guards and shut gates in their places, the
        player on the start with 3 lives, no score and the whole time
        limit, play on with no question and no confetti. */
    ghost predicate FreshPlay()
      reads this
    {
      && guards == InitialGuards && gates == InitialGates && player == Start
      && lives == StartLives && score == 0 && timeLeft == TimeLimit
      && gameActive && !gameCompleted && !showQuestion && currentGate.None? && selectedAnswer.None?
      && !showConfetti
    }

    /** Places the guards and the shut gates, puts the player on the
        start with 3 lives and 300 seconds, and starts play. */
    method InitializeGame()
      requires Valid() && intro.Started? && !showRetryScreen && !gameCompleted
      modifies this`guards, this`gates, this`player, this`lives, this`score, this`timeLeft,
               this`gameActive, this`showQuestion, this`currentGate, this`selectedAnswer,
               this`showConfetti
      ensures Valid() && FreshPlay()
    {
      PlaceBoard();
      StartPlay();
    }

    /** The guards and shut gates in their places, the player on the start. */
    method PlaceBoard()
      modifies this`guards, this`gates, this`player
      ensures BoardValid()
      ensures guards == InitialGuards && gates == InitialGates && player == Start
    {
      guards, gates, player := InitialGuards, InitialGates, Start;
      InitialBoard(player, guards, gates);
    }

    /** Full lives, no score, the whole time limit, play on. */
    method StartPlay()
      requires FlowValid() && intro.Started? && !showRetryScreen && !gameCompleted
      modifies this`lives, this`score, this`timeLeft, this`gameActive, this`showQuestion,
               this`currentGate, this`selectedAnswer, this`showConfetti
      ensures FlowValid()
      ensures lives == StartLives && score == 0 && timeLeft == TimeLimit
      ensures gameActive && !gameCompleted && !showQuestion && currentGate.None? && selectedAnswer.None?
      ensures !showConfetti
    {
      ResetCounters();
      gameActive, showConfetti := true, false;
      showQuestion, currentGate, selectedAnswer := false, None, None;
    }

    /** Three lives, no score, the whole time limit. */
    method ResetCounters()
      requires FlowValid() && !gameCompleted
      modifies this`lives, this`score, this`timeLeft
      ensures FlowValid()
      ensures lives == StartLives && score == 0 && timeLeft == TimeLimit
    {
      lives, score, timeLeft := StartLives, 0, TimeLimit;
    }

    /** A new game after a lost one: the attempt number goes up, the
        retry timer is wound back, and play is initialised again. */
    method ResetGame()
      requires Valid() && intro.Started? && !gameCompleted
      modifies this`attempts, this`retryTimer, this`showRetryScreen, this`guards, this`gates,
               this`player, this`lives, this`score, this`timeLeft, this`gameActive,
               this`showQuestion, this`currentGate, this`selectedAnswer, this`showConfetti
      ensures Valid()
      ensures attempts == old(attempts) + 1 && retryTimer == RetrySeconds && !showRetryScreen
      ensures FreshPlay()
    {
      attempts := attempts + 1;
      retryTimer := RetrySeconds;
      showRetryScreen := false;
      InitializeGame();
    }

    /** A guard caught the player: one life less; with none left play
        stops and the retry screen shows, otherwise the player goes back
        to the start. */
    method GuardCollision()
      requires BoardValid() && FlowValid() && gameActive
      modifies this`lives, this`gameActive, this`showRetryScreen, this`player
      ensures BoardValid() && FlowValid() && !gameCompleted
      ensures lives == old(lives) - 1
      ensures lives <= 0 ==> !gameActive && showRetryScreen && player == old(player)
      ensures lives > 0 ==> gameActive && !showRetryScreen && player == Start
    {
      lives := lives - 1;
      if lives <= 0 {
        gameActive := false;
        showRetryScreen := true;
      } else {
        StartIsOpen(gates);
        player := Start;
      }
    }

    /** The player reached the finish: the game is won with 100 points
        and play stops; the confetti shows for three seconds before the
        success screen. */
    method HandleWin()
      requires BoardValid() && FlowValid() && intro.Started? && !showRetryScreen && !gameCompleted
      requires player == Finish
      modifies this`gameCompleted, this`gameActive, this`score, this`showConfetti, this`confettiLeft
      ensures Valid()
      ensures gameCompleted && !gameActive && score == WinScore && showConfetti
      ensures confettiLeft == ConfettiSeconds
    {
      gameCompleted := true;
      gameActive := false;
      score := WinScore;
      showConfetti := true;
      confettiLeft := ConfettiSeconds;
    }

    /** The collision check that runs whenever the player or the guards
        move: a guard on the player's cell, a shut gate there (which
        would raise its question), the finish there.  All three tests
        read the position from before the check. */
    method CheckCollisions()
      requires BoardValid() && FlowValid()
      modifies this`lives, this`gameActive, this`showRetryScreen, this`player, this`currentGate,
               this`showQuestion, this`gameCompleted, this`score, this`showConfetti, this`confettiLeft
      ensures Valid()
      ensures !old(gameActive) ==> unchanged(this)
      ensures old(gameActive) ==>
                var caught := GuardOn(guards, old(player));
                var lost := caught && old(lives) == 1;
                && lives == (if caught then old(lives) - 1 else old(lives))
                && player == (if caught && !lost then Start else old(player))
                && (lost ==> !gameActive && showRetryScreen)
                && (old(player) == Finish ==>
                      && gameCompleted && score == WinScore && !gameActive && !showRetryScreen
                      && showConfetti && confettiLeft == ConfettiSeconds)
                && (!lost && old(player) != Finish ==> gameActive && showRetryScreen == old(showRetryScreen))
                && (old(player) != Finish ==>
                      unchanged(this`gameCompleted, this`score, this`showConfetti, this`confettiLeft))
      ensures !showQuestion
    {
      if !gameActive {
        return;
      }
      var at := player;
      MarkedCells(at);
      if GuardOn(guards, at) {
        GuardCollision();
      }
      // A shut gate on the player's cell would raise its question and
      // pause play; the player never stands on one.
      assert !Blocked(gates, at);
      if Cell(at) == FinishMark {
        HandleWin();
      }
    }

    /** An arrow key or button: ignored unless play is on and no question
        shows; otherwise the player moves as `Move` says, and a move that
        changes the cell runs the collision check. */
    method MovePlayer(d: Direction)
      requires Valid()
      modifies this`lives, this`gameActive, this`showRetryScreen, this`player, this`currentGate,
               this`showQuestion, this`gameCompleted, this`score, this`showConfetti, this`confettiLeft
      ensures Valid()
      ensures !old(gameActive) || old(showQuestion) ==> unchanged(this)
      ensures old(gameActive) && Move(old(player), d, gates) == old(player) ==> unchanged(this)
      ensures old(gameActive) && Move(old(player), d, gates) == Finish ==>
                gameCompleted && score == WinScore
      ensures old(gameActive) && !GuardOn(guards, Move(old(player), d, gates)) ==>
                player == Move(old(player), d, gates) && lives == old(lives)
      ensures var at := Move(old(player), d, gates);
              var caught := GuardOn(guards, at);
              var lost := caught && old(lives) == 1;
              old(gameActive) && !old(showQuestion) && at != old(player) ==>
                && lives == (if caught then old(lives) - 1 else old(lives))
                && player == (if caught && !lost then Start else at)
                && (lost ==> !gameActive && showRetryScreen)
                && (!lost && at != Finish ==> gameActive && showRetryScreen == old(showRetryScreen))
                && (at == Finish ==> gameCompleted && !gameActive && showConfetti && confettiLeft == ConfettiSeconds)
                && (at != Finish ==> unchanged(this`gameCompleted, this`score, this`showConfetti, this`confettiLeft))
    {
      if !gameActive || showQuestion {
        return;
      }
      MoveRules(player, d, gates);
      var next := Move(player, d, gates);
      if next != player {
        player := next;
        CheckCollisions();
      }
    }

    /** A click on option `index` of a gate question. */
    method SelectAnswer(index: nat)
      modifies this`selectedAnswer
      ensures selectedAnswer == Some(index)
    {
      selectedAnswer := Some(index);
    }

    /** The answer to a gate question: a right one opens that gate and
        resumes play; a wrong one costs a life and sends the player back
        to the start, or to the retry screen with no lives left.  In a
        valid game no question is ever showing, so it does nothing. */
    method AnswerGate()
      modifies this`gates, this`showQuestion, this`currentGate, this`selectedAnswer,
               this`gameActive, this`lives, this`showRetryScreen, this`player
      ensures old(Valid()) ==> unchanged(this)
      ensures old(currentGate).None? || old(selectedAnswer).None? ==> unchanged(this)
      ensures old(currentGate).Some? && old(selectedAnswer) == Some(old(currentGate).value.correctAnswer) ==>
                && gates == OpenGate(old(gates), old(currentGate).value.id)
                && !showQuestion && currentGate.None? && selectedAnswer.None? && gameActive
                && lives == old(lives) && player == old(player)
      ensures old(currentGate).Some? && old(selectedAnswer).Some?
              && old(selectedAnswer) != Some(old(currentGate).value.correctAnswer) ==>
                && gates == old(gates) && lives == old(lives) - 1
                && !showQuestion && currentGate.None? && selectedAnswer.None?
                && (lives <= 0 ==> showRetryScreen && player == old(player) && gameActive == old(gameActive))
                && (lives > 0 ==> player == Start && gameActive && showRetryScreen == old(showRetryScreen))
    {
      if currentGate.None? || selectedAnswer.None? {
        return;
      }
      var gate := currentGate.value;
      if selectedAnswer.value == gate.correctAnswer {
        gates := OpenGate(gates, gate.id);
        showQuestion := false;
        currentGate := None;
        selectedAnswer := None;
        gameActive := true;
      } else {
        lives := lives - 1;
        showQuestion := false;
        currentGate := None;
        selectedAnswer := None;
        if lives <= 0 {
          showRetryScreen := true;
        } else {
          player := Start;
          gameActive := true;
        }
      }
    }

    /** One second of play as `PlayStep` takes it.  The guards step on.
        A guard now on the player's cell costs a life: the last one stops
        play on the retry screen, the clock standing; otherwise the
        player goes back to the start.  While play goes on the clock
        counts down, and at 0 play stops on the retry screen.  The player
        cannot stand on the finish during play, so nothing is won, and no
        gate, score or confetti changes. */
    twostate predicate PlaySecond()
      requires old(BoardValid())
      reads this
    {
      var caught := GuardOn(StepGuards(old(guards)), old(player));
      var lost := caught && old(lives) == 1;
      && guards == StepGuards(old(guards))
      && lives == (if caught then old(lives) - 1 else old(lives))
      && (lost ==>
            && !gameActive && showRetryScreen
            && player == old(player) && timeLeft == old(timeLeft))
      && (!lost ==>
            && player == (if caught then Start else old(player))
            && timeLeft == old(timeLeft) - 1
            && (gameActive <==> timeLeft > 0) && (showRetryScreen <==> timeLeft == 0))
      && gates == old(gates) && score == old(score) && gameCompleted == old(gameCompleted)
      && showConfetti == old(showConfetti) && confettiLeft == old(confettiLeft)
      && showQuestion == old(showQuestion) && currentGate == old(currentGate)
    }

    /** One second of play: the guards step on along their patrols (and
        the collision check runs), then the clock; at 0 play stops and
        the retry screen shows. */
    method PlayStep()
      requires Valid()
      modifies this`guards, this`timeLeft, this`lives, this`gameActive, this`showRetryScreen,
               this`player, this`currentGate, this`showQuestion, this`gameCompleted, this`score,
               this`showConfetti, this`confettiLeft
      ensures Valid()
      ensures !old(gameActive) ==> unchanged(this)
      ensures old(gameActive) ==> PlaySecond()
    {
      if !gameActive {
        return;
      }
      guards := StepGuards(guards);
      CheckCollisions();
      TimerStep();
    }

    /** One second of the game clock while play is on; when it reaches 0
        play stops and the retry screen shows. */
    method TimerStep()
      requires Valid()
      modifies this`timeLeft, this`gameActive, this`showRetryScreen
      ensures Valid()
      ensures old(gameActive) ==>
                && timeLeft == old(timeLeft) - 1
                && (gameActive <==> timeLeft > 0) && (showRetryScreen <==> timeLeft == 0)
      ensures !old(gameActive) ==> unchanged(this)
    {
      if gameActive && !gameCompleted && timeLeft > 0 {
        timeLeft := timeLeft - 1;
      }
      if timeLeft == 0 && gameActive {
        gameActive := false;
        showRetryScreen := true;
      }
    }

    /** One second of the confetti, after which the success screen
        shows. */
    method ConfettiStep()
      requires Valid()
      modifies this`showConfetti, this`confettiLeft, this`showWinScreen
      ensures Valid()
      ensures old(showConfetti) && old(confettiLeft) <= 1 ==> showWinScreen && !showConfetti
      ensures old(showConfetti) && old(confettiLeft) > 1 ==>
                showConfetti && confettiLeft == old(confettiLeft) - 1 && showWinScreen == old(showWinScreen)
      ensures !old(showConfetti) ==> unchanged(this)
    {
      if showConfetti {
        confettiLeft := if confettiLeft > 0 then confettiLeft - 1 else 0;
        if confettiLeft == 0 {
          showConfetti := false;
          showWinScreen := true;
        }
      }
    }

    /** One second of the success screen; at 0 the game is complete. */
    method WinStep()
      requires Valid()
      modifies this`winTimer, this`completed
      ensures Valid()
      ensures old(showWinScreen) ==> winTimer == (if old(winTimer) > 0 then old(winTimer) - 1 else 0)
      ensures old(showWinScreen) ==> (completed <==> old(completed) || winTimer == 0)
      ensures !old(showWinScreen) ==> unchanged(this)
    {
      if showWinScreen {
        if winTimer > 0 {
          winTimer := winTimer - 1;
        }
        if winTimer == 0 {
          completed := true;
        }
      }
    }

    /** One second of the retry screen; at 0 a new game starts. */
    method RetryStep()
      requires Valid()
      modifies this`retryTimer, this`attempts, this`showRetryScreen, this`guards, this`gates,
               this`player, this`lives, this`score, this`timeLeft, this`gameActive,
               this`showQuestion, this`currentGate, this`selectedAnswer, this`showConfetti
      ensures Valid()
      ensures old(showRetryScreen) && old(retryTimer) <= 1 ==>
                && attempts == old(attempts) + 1 && retryTimer == RetrySeconds && !showRetryScreen
                && FreshPlay()
      ensures old(showRetryScreen) && old(retryTimer) > 1 ==>
                && retryTimer == old(retryTimer) - 1 && showRetryScreen
                && unchanged(this`attempts, this`guards, this`gates, this`player, this`lives, this`score,
                             this`timeLeft, this`gameActive, this`showQuestion, this`currentGate,
                             this`selectedAnswer, this`showConfetti)
      ensures !old(showRetryScreen) ==> unchanged(this)
    {
      if showRetryScreen {
        if retryTimer > 0 {
          retryTimer := retryTimer - 1;
        }
        if retryTimer == 0 {
          showRetryScreen := false;
          ResetGame();
        }
      }
    }

    /** One second of the component.  During the opening only the opening
        advances, and its end starts the first game.  Afterwards the timer
        of the phase the game is in advances: play, the confetti, the
        success screen or the retry screen. */
    method Tick()
      requires Valid()
      modifies this
      ensures Valid()
      ensures !old(intro).Started? ==>
                && intro == IntroTick(old(intro))
                && (intro.Started? ==> FreshPlay())
                && (!intro.Started? ==>
                      unchanged(this`guards, this`gates, this`player, this`lives, this`score,
                                this`timeLeft, this`gameActive, this`selectedAnswer))
                && unchanged(this`gameCompleted, this`showConfetti, this`confettiLeft, this`showWinScreen,
                             this`winTimer, this`attempts, this`showRetryScreen, this`retryTimer,
                             this`completed)
      ensures old(intro).Started? ==> intro == old(intro)
      ensures old(intro).Started? && old(gameActive) ==>
                && PlaySecond()
                && unchanged(this`showWinScreen, this`winTimer, this`selectedAnswer, this`attempts,
                             this`retryTimer, this`completed)
      ensures old(intro).Started? && old(showConfetti) ==>
                && (old(confettiLeft) <= 1 ==> showWinScreen && !showConfetti)
                && (old(confettiLeft) > 1 ==>
                      showConfetti && confettiLeft == old(confettiLeft) - 1 && !showWinScreen)
                && unchanged(this`guards, this`gates, this`player, this`lives, this`score, this`timeLeft,
                             this`gameActive, this`gameCompleted, this`winTimer, this`showQuestion,
                             this`currentGate, this`selectedAnswer, this`attempts, this`showRetryScreen,
                             this`retryTimer, this`completed)
      ensures old(intro).Started? && old(showWinScreen) ==>
                && winTimer == (if old(winTimer) > 0 then old(winTimer) - 1 else 0)
                && (completed <==> old(completed) || winTimer == 0)
                && unchanged(this`guards, this`gates, this`player, this`lives, this`score, this`timeLeft,
                             this`gameActive, this`gameCompleted, this`showConfetti, this`confettiLeft,
                             this`showWinScreen, this`showQuestion, this`currentGate,
                             this`selectedAnswer, this`attempts, this`showRetryScreen, this`retryTimer)
      ensures old(intro).Started? && old(showRetryScreen) ==>
                && (old(retryTimer) <= 1 ==>
                      && attempts == old(attempts) + 1 && retryTimer == RetrySeconds && !showRetryScreen
                      && FreshPlay())
                && (old(retryTimer) > 1 ==>
                      && retryTimer == old(retryTimer) - 1 && showRetryScreen
                      && unchanged(this`attempts, this`guards, this`gates, this`player, this`lives,
                                   this`score, this`timeLeft, this`gameActive, this`selectedAnswer))
                && unchanged(this`gameCompleted, this`showConfetti, this`confettiLeft, this`showWinScreen,
                             this`winTimer, this`completed)
      ensures old(intro).Started? &&
              !(old(gameActive) || old(showConfetti) || old(showWinScreen) || old(showRetryScreen)) ==>
                unchanged(this)
    {
      if !intro.Started? {
        OpeningStep();
      } else {
        PhaseStep();
      }
    }

    /** One second of the rules or the countdown; when play starts the
        first game is set up. */
    method OpeningStep()
      requires Valid() && !intro.Started?
      modifies this
      ensures Valid()
      ensures intro == IntroTick(old(intro))
      ensures intro.Started? ==> FreshPlay()
      ensures !intro.Started? ==>
                unchanged(this`guards, this`gates, this`player, this`lives, this`score,
                          this`timeLeft, this`gameActive, this`selectedAnswer)
      ensures unchanged(this`gameCompleted, this`showConfetti, this`confettiLeft, this`showWinScreen,
                        this`winTimer, this`attempts, this`showRetryScreen, this`retryTimer,
                        this`completed)
    {
      intro := IntroTick(intro);
      if intro.Started? && !gameActive {
        InitializeGame();
      }
    }

    /** One second after the opening: the timer of the phase the game is
        in advances.  Play, the confetti, the success screen and the
        retry screen exclude one another, so at most one of their timers
        runs. */
    method PhaseStep()
      requires Valid() && intro.Started?
      modifies this
      ensures Valid() && intro == old(intro)
      ensures old(gameActive) ==>
                && PlaySecond()
                && unchanged(this`showWinScreen, this`winTimer, this`selectedAnswer, this`attempts,
                             this`retryTimer, this`completed)
      ensures old(showConfetti) ==>
                && (old(confettiLeft) <= 1 ==> showWinScreen && !showConfetti)
                && (old(confettiLeft) > 1 ==>
                      showConfetti && confettiLeft == old(confettiLeft) - 1 && !showWinScreen)
                && unchanged(this`guards, this`gates, this`player, this`lives, this`score, this`timeLeft,
                             this`gameActive, this`gameCompleted, this`winTimer, this`showQuestion,
                             this`currentGate, this`selectedAnswer, this`attempts, this`showRetryScreen,
                             this`retryTimer, this`completed)
      ensures old(showWinScreen) ==>
                && winTimer == (if old(winTimer) > 0 then old(winTimer) - 1 else 0)
                && (completed <==> old(completed) || winTimer == 0)
                && unchanged(this`guards, this`gates, this`player, this`lives, this`score, this`timeLeft,
                             this`gameActive, this`gameCompleted, this`showConfetti, this`confettiLeft,
                             this`showWinScreen, this`showQuestion, this`currentGate,
                             this`selectedAnswer, this`attempts, this`showRetryScreen, this`retryTimer)
      ensures old(showRetryScreen) ==>
                && (old(retryTimer) <= 1 ==>
                      && attempts == old(attempts) + 1 && retryTimer == RetrySeconds && !showRetryScreen
                      && FreshPlay())
                && (old(retryTimer) > 1 ==>
                      && retryTimer == old(retryTimer) - 1 && showRetryScreen
                      && unchanged(this`attempts, this`guards, this`gates, this`player, this`lives,
                                   this`score, this`timeLeft, this`gameActive, this`selectedAnswer))
                && unchanged(this`gameCompleted, this`showConfetti, this`confettiLeft, this`showWinScreen,
                             this`winTimer, this`completed)
      ensures !(old(gameActive) || old(showConfetti) || old(showWinScreen) || old(showRetryScreen)) ==>
                unchanged(this)
    {
      if gameActive {
        PlayStep();
      } else {
        EndStep();
      }
    }

    /** One second once play is over: the confetti, the success screen or
        the retry screen, whichever shows. */
    method EndStep()
      requires Valid() && intro.Started? && !gameActive
      modifies this
      ensures Valid() && intro == old(intro)
      ensures old(showConfetti) ==>
                && (old(confettiLeft) <= 1 ==> showWinScreen && !showConfetti)
                && (old(confettiLeft) > 1 ==>
                      showConfetti && confettiLeft == old(confettiLeft) - 1 && !showWinScreen)
                && unchanged(this`guards, this`gates, this`player, this`lives, this`score, this`timeLeft,
                             this`gameActive, this`gameCompleted, this`winTimer, this`showQuestion,
                             this`currentGate, this`selectedAnswer, this`attempts, this`showRetryScreen,
                             this`retryTimer, this`completed)
      ensures old(showWinScreen) ==>
                && winTimer == (if old(winTimer) > 0 then old(winTimer) - 1 else 0)
                && (completed <==> old(completed) || winTimer == 0)
                && unchanged(this`guards, this`gates, this`player, this`lives, this`score, this`timeLeft,
                             this`gameActive, this`gameCompleted, this`showConfetti, this`confettiLeft,
                             this`showWinScreen, this`showQuestion, this`currentGate,
                             this`selectedAnswer, this`attempts, this`showRetryScreen, this`retryTimer)
      ensures old(showRetryScreen) ==>
                && (old(retryTimer) <= 1 ==>
                      && attempts == old(attempts) + 1 && retryTimer == RetrySeconds && !showRetryScreen
                      && FreshPlay())
                && (old(retryTimer) > 1 ==>
                      && retryTimer == old(retryTimer) - 1 && showRetryScreen
                      && unchanged(this`attempts, this`guards, this`gates, this`player, this`lives,
                                   this`score, this`timeLeft, this`gameActive, this`selectedAnswer))
                && unchanged(this`gameCompleted, this`showConfetti, this`confettiLeft, this`showWinScreen,
                             this`winTimer, this`completed)
      ensures !(old(showConfetti) || old(showWinScreen) || old(showRetryScreen)) ==>
                unchanged(this)
    {
      if showConfetti {
        ConfettiStep();
      } else if showWinScreen {
        WinStep();
      } else if showRetryScreen {
        RetryStep();
      }
    }
  }
}
