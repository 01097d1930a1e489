/** The opening every mini-game shares: a rules screen that counts down
    from 10 seconds, then a 3-second countdown, then play.  Each game's
    rules effect and countdown effect decrement a timer once per second,
    and the moment a timer reads 0 the effect moves on to the next screen
    in the same second.  The games differ only in what they do when play
    starts, so the opening is a value that every game class keeps in a
    field and advances with `IntroTick`. */
module Lifecycle {

  const RulesSeconds: nat := 10
  const CountdownSeconds: nat := 3
  const RetrySeconds: nat := 4

  /** What a game shows before play: the rules with the seconds left on
      them, the countdown with its seconds left, or play has started
      (`gameReady` in the components). */
  datatype Intro = Rules(rulesLeft: nat) | Countdown(countLeft: nat) | Started

  /** The state every game is mounted in: rules showing, 10 seconds. */
  function Opening(): Intro { Rules(RulesSeconds) }

  /** Seconds of ticking still needed before play starts. */
  function SecondsToPlay(i: Intro): nat
  {
    match i
    case Rules(t) => (if t == 0 then 1 else t) + CountdownSeconds
    case Countdown(t) => if t == 0 then 1 else t
    case Started => 0
  }

  /** One second of the rules and countdown effects. */
  function IntroTick(i: Intro): (r: Intro)
    ensures i.Started? ==> r.Started?
    ensures !i.Started? ==> SecondsToPlay(r) + 1 == SecondsToPlay(i)
    ensures i.Rules? ==> r.Rules? || r == Countdown(CountdownSeconds)
    ensures i.Countdown? ==> r.Countdown? || r.Started?
  {
    match i
    case Rules(t) => if t <= 1 then Countdown(CountdownSeconds) else Rules(t - 1)
    case Countdown(t) => if t <= 1 then Started else Countdown(t - 1)
    case Started => Started
  }

  /** The opening after `n` seconds. */
  function IntroAfter(i: Intro, n: nat): Intro
    decreases n
  {
    if n == 0 then i else IntroAfter(IntroTick(i), n - 1)
  }

  /** Play starts after exactly `SecondsToPlay(i)` seconds, and not a
      second earlier. */
  lemma {:induction false} IntroAfterStarts(i: Intro, n: nat)
    ensures IntroAfter(i, n).Started? <==> n >= SecondsToPlay(i)
    decreases n
  {
    if n > 0 {
      IntroAfterStarts(IntroTick(i), n - 1);
      if i.Started? {
        assert IntroTick(i).Started?;
      }
    } else if !i.Started? {
      assert SecondsToPlay(i) > 0;
    }
  }

  /** From mounting, play starts after the 10 rules seconds and the 3
      countdown seconds: 13 seconds in all. */
  lemma OpeningLasts13Seconds(n: nat)
    ensures IntroAfter(Opening(), n).Started? <==> n >= 13
  {
    IntroAfterStarts(Opening(), n);
  }

  /** The screen a component renders, in the order its render code tests
      its flags; only the maze has a question screen (for its gates). */
  datatype Screen = RulesScreen | CountdownScreen | PlayScreen | WinScreen | RetryScreen | QuestionScreen
}
