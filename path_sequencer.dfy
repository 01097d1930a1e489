/** The two four-game paths, the crown path and the love path.  Each
    starts on a welcome screen, plays its four games in a fixed order,
    keeps one completion flag per game, and ends on a celebration screen
    whose button hands control back to the app.  The two components
    differ only in which game fills each slot, so one class models both,
    parameterised by the path. */
module PathSequencer {

  datatype PathKind = Crown | Love

  /** The game components the two paths render.  The love path has its
      own memory-match and balloon components. */
  datatype GameId =
    | SnakeLadder | MemoryMatch | Friendship | BalloonPop
    | LoveMaze | LoveMemoryMatch | Romance | LoveBalloon

  /** The path whose component renders game `g`. */
  function PathOf(g: GameId): PathKind
  {
    if g.SnakeLadder? || g.MemoryMatch? || g.Friendship? || g.BalloonPop? then Crown else Love
  }

  /** The slot game `g` fills in its path. */
  function SlotOf(g: GameId): nat
  {
    if g.SnakeLadder? || g.LoveMaze? then 0
    else if g.MemoryMatch? || g.LoveMemoryMatch? then 1
    else if g.Friendship? || g.Romance? then 2
    else 3
  }

  /** Games in a path are numbered by slot, 0 to 3, in the order they are
      played (which is also the order of the progress record's keys). */
  const GameCount: nat := 4

  /** The game in slot `slot` of a path.  Each game belongs to one path
      and one slot, so the two paths share no game and no game is played
      twice in a path. */
  function GameAt(kind: PathKind, slot: nat): (g: GameId)
    requires slot < GameCount
    ensures PathOf(g) == kind && SlotOf(g) == slot
  {
    match kind
    case Crown => [SnakeLadder, MemoryMatch, Friendship, BalloonPop][slot]
    case Love => [LoveMaze, LoveMemoryMatch, Romance, LoveBalloon][slot]
  }

  /** Every game component fills a slot of its path, and that slot shows
      it. */
  lemma EveryGameHasASlot(g: GameId)
    ensures SlotOf(g) < GameCount && GameAt(PathOf(g), SlotOf(g)) == g
  {
  }

  /** What a path renders: its welcome screen, the game in one slot, or
      the celebration. */
  datatype View = Welcome | Playing(slot: nat) | Celebration

  /** The number of true flags (`Object.values(...).filter(Boolean).length`). */
  function CountTrue(flags: seq<bool>): (n: nat)
    ensures n <= |flags|
    ensures n == |flags| <==> forall i :: 0 <= i < |flags| ==> flags[i]
    ensures n == 0 <==> forall i :: 0 <= i < |flags| ==> !flags[i]
  {
    if |flags| == 0 then 0
    else
      var rest := CountTrue(flags[1..]);
      assert forall i :: 1 <= i < |flags| ==> flags[i] == flags[1..][i - 1];
      (if flags[0] then 1 else 0) + rest
  }

  /** Setting one flag raises the count by one if that flag was false and
      leaves it as it was otherwise. */
  lemma {:induction false} CountAfterSet(flags: seq<bool>, k: nat)
    requires k < |flags|
    ensures CountTrue(flags[k := true]) == CountTrue(flags) + if flags[k] then 0 else 1
  {
    var after := flags[k := true];
    if k == 0 {
      assert after[1..] == flags[1..];
    } else {
      assert after[1..] == flags[1..][k - 1 := true];
      CountAfterSet(flags[1..], k - 1);
    }
  }

  /** Setting flags never lowers the count. */
  lemma {:induction false} CountMonotone(before: seq<bool>, after: seq<bool>)
    requires |before| == |after|
    requires forall i :: 0 <= i < |before| && before[i] ==> after[i]
    ensures CountTrue(before) <= CountTrue(after)
  {
    if |before| > 0 {
      CountMonotone(before[1..], after[1..]);
    }
  }

  /** One mounted path component. */
  class Path {
    const kind: PathKind
    var view: View
    var progress: seq<bool>   // one completion flag per slot
    var showConfetti: bool
    var finished: bool        // the path's own onComplete has been called

    /** The progress record has one flag per game and the view names a
        slot that exists. */
    ghost predicate Valid()
      reads this`view, this`progress
    {
      |progress| == GameCount && (view.Playing? ==> view.slot < GameCount)
    }

    /** The state reached by the welcome start button, the back buttons
        and the completion of the game on screen: every game before the
        one shown is completed, and the celebration shows only when all
        four are. */
    ghost predicate Reached()
      reads this`view, this`progress
      requires Valid()
    {
      && (view.Playing? ==> forall j :: 0 <= j < view.slot ==> progress[j])
      && (view.Celebration? ==> forall j :: 0 <= j < GameCount ==> progress[j])
    }

    constructor (kind: PathKind)
      ensures Valid() && Reached()
      ensures this.kind == kind && view == Welcome && !showConfetti && !finished
      ensures progress == [false, false, false, false] && CompletedGamesCount() == 0
    {
      this.kind := kind;
      view := Welcome;
      progress := [false, false, false, false];
      showConfetti := false;
      finished := false;
    }

    /** `completedGamesCount`: how many games are completed, 0 to 4; all
        four exactly when every flag is set. */
    function CompletedGamesCount(): (n: nat)
      reads this`view, this`progress
      requires Valid()
      ensures n <= GameCount
      ensures n == GameCount <==> forall j :: 0 <= j < GameCount ==> progress[j]
    {
      CountTrue(progress)
    }

    /** The game on screen, if any. */
    function Shown(): (g: GameId)
      reads this`view, this`progress
      requires Valid() && view.Playing?
      ensures g == GameAt(kind, view.slot)
    {
      GameAt(kind, view.slot)
    }

    /** The welcome screen's start button opens the first game. */
    method StartJourney()
      requires Valid() && Reached() && view == Welcome
      modifies this`view
      ensures Valid() && Reached()
      ensures view == Playing(0) && Shown() == (if kind == Crown then SnakeLadder else LoveMaze)
    {
      view := Playing(0);
    }

    /** The back button of the game on screen: the previous game, or the
        welcome screen from the first. */
    method Back()
      requires Valid() && view.Playing?
      modifies this`view
      ensures Valid()
      ensures old(view).slot == 0 ==> view == Welcome
      ensures old(view).slot > 0 ==> view == Playing(old(view).slot - 1)
      ensures old(Reached()) ==> Reached()
    {
      if view.slot == 0 {
        view := Welcome;
      } else {
        view := Playing(view.slot - 1);
      }
    }

    /** `handleGameComplete` for the game in slot `slot`: exactly that flag
        is set, and the view moves to the next game, or to the
        celebration with confetti after the last (the second's delay
        before it is not modelled). */
    method HandleGameComplete(slot: nat)
      requires Valid() && slot < GameCount
      modifies this`progress, this`view, this`showConfetti
      ensures Valid()
      ensures progress == old(progress)[slot := true]
      ensures slot < GameCount - 1 ==> view == Playing(slot + 1) && showConfetti == old(showConfetti)
      ensures slot == GameCount - 1 ==> view == Celebration && showConfetti
      ensures CompletedGamesCount() == old(CompletedGamesCount()) + if old(progress)[slot] then 0 else 1
      ensures old(Reached()) && old(view) == Playing(slot) ==> Reached()
    {
      CountAfterSet(progress, slot);
      progress := progress[slot := true];
      if slot < GameCount - 1 {
        view := Playing(slot + 1);
      } else {
        view := Celebration;
        showConfetti := true;
      }
    }

    /** The confetti's four seconds run out. */
    method ConfettiDone()
      modifies this`showConfetti
      ensures !showConfetti
    {
      showConfetti := false;
    }

    /** The celebration's button: confetti again, and the path reports
        completion to the app (after a second, not modelled). */
    method ReturnToBirthday()
      requires Valid() && view == Celebration
      modifies this`showConfetti, this`finished
      ensures showConfetti && finished
    {
      showConfetti := true;
      finished := true;
    }
  }

  /** Completion flags only ever go from false to true: one completion
      keeps every flag set that was set before. */
  lemma CompletionIsMonotone(flags: seq<bool>, slot: nat)
    requires slot < |flags|
    ensures forall j :: 0 <= j < |flags| && flags[j] ==> flags[slot := true][j]
    ensures CountTrue(flags) <= CountTrue(flags[slot := true])
  {
    CountAfterSet(flags, slot);
  }

  /** Playing a path through from its welcome screen, each game completed
      in turn, reaches the celebration with all four games completed. */
  method PlayThrough(kind: PathKind) returns (p: Path)
    ensures fresh(p) && p.Valid() && p.Reached() && p.kind == kind
    ensures p.view == Celebration && p.CompletedGamesCount() == GameCount
  {
    p := new Path(kind);
    p.StartJourney();
    var i := 0;
    while i < GameCount
      invariant 0 <= i <= GameCount
      invariant p.Valid() && p.Reached() && p.kind == kind
      invariant i < GameCount ==> p.view == Playing(i)
      invariant i == GameCount ==> p.view == Celebration
      modifies p
    {
      p.HandleGameComplete(i);
      i := i + 1;
    }
  }
}
