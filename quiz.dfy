/** The five-question quiz shared by the Romance Quiz and the Friendship
    game: a round draws five questions at random from a pool of twenty,
    preferring ones not yet answered correctly, gives each fifteen
    seconds, scores 10 points a correct answer, and is passed with three
    correct answers.  The two games differ only in their pools, which
    live in their own modules. */
module Quiz {
  import opened Lifecycle
  import opened Optional

  const QuestionsPerRound: nat := 5
  const QuestionSeconds: nat := 15
  const PassCorrect: nat := 3
  const PassPoints: nat := 30
  const PointsPerCorrect: nat := 10

  /** The answer key of a question by its type: one option, a set of
      options, or a word to type. */
  datatype Key = Single(choice: nat) | Multiple(choices: seq<nat>) | Input(word: string)

  /** A question as far as the rules see it: its id and its key.  The
      wording, options and hint are not modelled. */
  datatype Question = Question(id: nat, key: Key)

  /** The player's answer so far: the option chosen for a single-choice
      question, the options ticked for a multiple-choice one, the text
      typed for an input one. */
  datatype Answer = Answer(selected: Option<nat>, multiple: seq<nat>, input: string)

  const NoAnswer: Answer := Answer(None, [], "")

  predicate NoDup<T(==)>(s: seq<T>)
  {
    forall i, j :: 0 <= i < j < |s| ==> s[i] != s[j]
  }

  predicate DistinctIds(qs: seq<Question>)
  {
    forall i, j :: 0 <= i < j < |qs| ==> qs[i].id != qs[j].id
  }

  function Elems(s: seq<nat>): set<nat>
  {
    set x | x in s
  }

  /** A list without repeats has as many elements as its set. */
  lemma {:induction false} NoDupCard(s: seq<nat>)
    requires NoDup(s)
    ensures |Elems(s)| == |s|
  {
    if |s| > 0 {
      assert NoDup(s[1..]);
      NoDupCard(s[1..]);
      assert Elems(s) == {s[0]} + Elems(s[1..]);
      assert s[0] !in Elems(s[1..]);
    }
  }

  lemma {:induction false} SubsetCard<T>(a: set<T>, b: set<T>)
    requires a <= b
    ensures |a| <= |b|
    decreases |a|
  {
    if a != {} {
      var y :| y in a;
      SubsetCard(a - {y}, b - {y});
    }
  }

  lemma SubsetSameSize<T>(a: set<T>, b: set<T>)
    requires a <= b && |a| == |b|
    ensures a == b
  {
    if a != b {
      var x :| x in b && x !in a;
      SubsetCard(a, b - {x});
    }
  }

  /** The multiple-choice test: as many options ticked as the key has,
      each of them in the key. */
  predicate MultipleCorrect(selected: seq<nat>, key: seq<nat>)
  {
    |selected| == |key| && forall a :: a in selected ==> a in key
  }

  /** For lists without repeats (the toggle keeps the ticked options
      so, and the keys have none) the test is set equality: the order in
      which options were ticked does not matter, and a missing or an
      extra option fails. */
  lemma MultipleCorrectIsSetEquality(selected: seq<nat>, key: seq<nat>)
    requires NoDup(selected) && NoDup(key)
    ensures MultipleCorrect(selected, key) <==> Elems(selected) == Elems(key)
  {
    NoDupCard(selected);
    NoDupCard(key);
    if MultipleCorrect(selected, key) {
      assert Elems(selected) <= Elems(key);
      SubsetSameSize(Elems(selected), Elems(key));
    }
    if Elems(selected) == Elems(key) {
      forall a | a in selected ensures a in key {
        assert a in Elems(selected);
      }
    }
  }

  /** Lower-casing of the ASCII capitals; other characters are kept. */
  function LowerChar(c: char): (r: char)
    ensures 'A' <= c <= 'Z' ==> r as int == c as int + 32
    ensures !('A' <= c <= 'Z') ==> r == c
    ensures !('A' <= r <= 'Z')
  {
    if 'A' <= c <= 'Z' then (c as int + 32) as char else c
  }

  function Lower(s: string): string
  {
    seq(|s|, i requires 0 <= i < |s| => LowerChar(s[i]))
  }

  /** Lower-casing twice is lower-casing once. */
  lemma LowerIdempotent(s: string)
    ensures Lower(Lower(s)) == Lower(s)
  {
  }

  /** The white space and line terminators that string trimming removes:
      tab, line tabulation, form feed, the space separators, the byte
      order mark, line feed, carriage return and the line and paragraph
      separators. */
  predicate IsSpace(c: char)
  {
    var n := c as int;
    n == 0x09 || n == 0x0B || n == 0x0C || n == 0x20 || n == 0xA0 || n == 0xFEFF
    || n == 0x1680 || (0x2000 <= n <= 0x200A) || n == 0x202F || n == 0x205F || n == 0x3000
    || n == 0x0A || n == 0x0D || n == 0x2028 || n == 0x2029
  }

  /** Lower-casing keeps white space where it is. */
  lemma LowerKeepsSpace(c: char)
    ensures IsSpace(LowerChar(c)) <==> IsSpace(c)
  {
  }

  predicate AllSpace(s: string)
  {
    forall i :: 0 <= i < |s| ==> IsSpace(s[i])
  }

  /** `s` with its leading white space removed. */
  function TrimStart(s: string): (r: string)
    ensures |r| <= |s| && r == s[|s| - |r|..]
    ensures AllSpace(s[..|s| - |r|])
    ensures |r| > 0 ==> !IsSpace(r[0])
  {
    if |s| > 0 && IsSpace(s[0]) then TrimStart(s[1..]) else s
  }

  /** `s` with its trailing white space removed. */
  function TrimEnd(s: string): (r: string)
    ensures |r| <= |s| && r == s[..|r|]
    ensures AllSpace(s[|r|..])
    ensures |r| > 0 ==> !IsSpace(r[|r| - 1])
  {
    if |s| > 0 && IsSpace(s[|s| - 1]) then TrimEnd(s[..|s| - 1]) else s
  }

  function Trim(s: string): string
  {
    TrimEnd(TrimStart(s))
  }

  /** Where the trimmed text lies in `s`. */
  lemma TrimBounds(s: string) returns (i: nat, j: nat)
    ensures i <= j <= |s| && Trim(s) == s[i..j]
    ensures AllSpace(s[..i]) && AllSpace(s[j..])
  {
    var t := TrimStart(s);
    var e := TrimEnd(t);
    i, j := |s| - |t|, |s| - |t| + |e|;
    assert t == s[i..];
    assert e == t[..|e|] == s[i..j];
    assert s[j..] == t[|e|..];
  }

  /** Trimming keeps a middle slice of the text, drops only white space,
      and leaves no white space at either end. */
  lemma TrimSlice(s: string)
    ensures exists i, j :: 0 <= i <= j <= |s| && Trim(s) == s[i..j]
                           && AllSpace(s[..i]) && AllSpace(s[j..])
    ensures |Trim(s)| > 0 ==> !IsSpace(Trim(s)[0]) && !IsSpace(Trim(s)[|Trim(s)| - 1])
  {
    var i, j := TrimBounds(s);
    var t := TrimStart(s);
    if |Trim(s)| > 0 {
      assert Trim(s)[0] == t[0];
    }
  }

  lemma {:induction false} TrimStartPadded(pad: string, w: string)
    requires AllSpace(pad)
    requires |w| > 0 && !IsSpace(w[0])
    ensures TrimStart(pad + w) == w
    decreases |pad|
  {
    if |pad| > 0 {
      assert (pad + w)[1..] == pad[1..] + w;
      TrimStartPadded(pad[1..], w);
    } else {
      assert pad + w == w;
    }
  }

  lemma {:induction false} TrimEndPadded(w: string, pad: string)
    requires AllSpace(pad)
    requires |w| > 0 && !IsSpace(w[|w| - 1])
    ensures TrimEnd(w + pad) == w
    decreases |pad|
  {
    if |pad| > 0 {
      assert (w + pad)[..|w + pad| - 1] == w + pad[..|pad| - 1];
      TrimEndPadded(w, pad[..|pad| - 1]);
    } else {
      assert w + pad == w;
    }
  }

  /** White space typed around a word is ignored. */
  lemma TrimPadded(before: string, w: string, after: string)
    requires AllSpace(before) && AllSpace(after)
    requires |w| > 0 && !IsSpace(w[0]) && !IsSpace(w[|w| - 1])
    ensures Trim(before + w + after) == w
  {
    assert before + w + after == before + (w + after);
    TrimStartPadded(before, w + after);
    TrimEndPadded(w, after);
  }

  /** Whether `a` answers `q` correctly. */
  predicate IsCorrect(q: Question, a: Answer)
  {
    match q.key
    case Single(c) => a.selected == Some(c)
    case Multiple(cs) => MultipleCorrect(a.multiple, cs)
    case Input(w) => Trim(Lower(a.input)) == Lower(w)
  }

  /** Lower-casing keeps white space where it is, and nothing else
      becomes white space. */
  lemma LowerAllSpace(s: string)
    ensures AllSpace(Lower(s)) <==> AllSpace(s)
  {
    forall i | 0 <= i < |s| ensures IsSpace(Lower(s)[i]) <==> IsSpace(s[i]) {
      LowerKeepsSpace(s[i]);
    }
  }

  lemma LowerConcat(a: string, b: string, c: string)
    ensures Lower(a + b + c) == Lower(a) + Lower(b) + Lower(c)
  {
  }

  /** An input answer is accepted whatever its capitals and the white
      space around it: typing `before + t + after` where `t` lower-cases
      to the key is correct. */
  lemma InputIgnoresCaseAndPadding(id: nat, word: string, before: string, t: string, after: string)
    requires AllSpace(before) && AllSpace(after)
    requires Lower(t) == Lower(word)
    requires |t| > 0 && !IsSpace(t[0]) && !IsSpace(t[|t| - 1])
    ensures IsCorrect(Question(id, Input(word)), Answer(None, [], before + t + after))
  {
    LowerConcat(before, t, after);
    LowerKeepsSpace(t[0]);
    LowerKeepsSpace(t[|t| - 1]);
    LowerAllSpace(before);
    LowerAllSpace(after);
    TrimPadded(Lower(before), Lower(t), Lower(after));
  }

  /** Trimming leaves nothing exactly when the text is all white space. */
  lemma TrimEmpty(s: string)
    ensures Trim(s) == "" <==> AllSpace(s)
  {
    var t := TrimStart(s);
    if Trim(s) == "" {
      assert s == s[..|s| - |t|] + t;
      assert t == TrimEnd(t)[..0] + t[0..];
    }
  }

  /** The submit button is enabled: the question is not yet answered and
      something is chosen, ticked or typed (typed text must not be only
      white space). */
  predicate HasAnswer(q: Question, a: Answer)
  {
    match q.key
    case Single(_) => a.selected.Some?
    case Multiple(_) => |a.multiple| > 0
    case Input(_) => Trim(a.input) != ""
  }

  /** A correct answer is always one the submit button accepts. */
  lemma CorrectAnswersCanBeSubmitted(q: Question, a: Answer)
    requires IsCorrect(q, a)
    requires q.key.Multiple? ==> |q.key.choices| > 0
    requires q.key.Input? ==> Lower(q.key.word) != ""
    ensures HasAnswer(q, a)
  {
    if q.key.Input? {
      TrimEmpty(a.input);
      TrimEmpty(Lower(a.input));
      LowerAllSpace(a.input);
    }
  }

  /** A key some answer meets: a multiple-choice key has options and no
      option twice, an input key has no white space at either end. */
  predicate Answerable(k: Key)
  {
    match k
    case Single(_) => true
    case Multiple(cs) => |cs| > 0 && NoDup(cs)
    case Input(w) => |w| > 0 && !IsSpace(w[0]) && !IsSpace(w[|w| - 1])
  }

  /** Typing the key word itself is correct and can be submitted. */
  lemma TypedKeyAccepted(id: nat, w: string)
    requires Answerable(Input(w))
    ensures IsCorrect(Question(id, Input(w)), Answer(None, [], w))
    ensures HasAnswer(Question(id, Input(w)), Answer(None, [], w))
  {
    InputIgnoresCaseAndPadding(id, w, "", w, "");
    assert "" + w + "" == w;
    CorrectAnswersCanBeSubmitted(Question(id, Input(w)), Answer(None, [], w));
  }

  /** The answer that picks, ticks or types exactly the key: it is
      correct, and the submit button accepts it. */
  function KeyAnswer(q: Question): (a: Answer)
    requires Answerable(q.key)
    ensures IsCorrect(q, a) && HasAnswer(q, a)
  {
    match q.key
    case Single(c) => Answer(Some(c), [], "")
    case Multiple(cs) => Answer(None, cs, "")
    case Input(w) => TypedKeyAccepted(q.id, w); Answer(None, [], w)
  }

  /** Ids numbered 1, 2, 3, ... in pool order are distinct. */
  lemma NumberedIdsDistinct(pool: seq<Question>)
    requires forall i :: 0 <= i < |pool| ==> pool[i].id == i + 1
    ensures DistinctIds(pool)
  {
  }

  /** A game's pool of questions: twenty of them, no id twice, every key
      one that can be met. */
  predicate WellFormedPool(pool: seq<Question>)
  {
    && |pool| == 20 && DistinctIds(pool)
    && forall i :: 0 <= i < |pool| ==> Answerable(pool[i].key)
  }

  /** The options ticked after a click on option `o`: removed if it was
      ticked, appended otherwise. */
  function Toggle(selected: seq<nat>, o: nat): (r: seq<nat>)
  {
    if o in selected then Without(selected, o) else selected + [o]
  }

  function Without(s: seq<nat>, o: nat): (r: seq<nat>)
    ensures forall x :: x in r <==> x in s && x != o
    ensures NoDup(s) ==> NoDup(r)
  {
    if |s| == 0 then []
    else
      var rest := Without(s[1..], o);
      assert NoDup(s) ==> NoDup(s[1..]) && s[0] !in s[1..];
      if s[0] == o then rest else [s[0]] + rest
  }

  /** A click toggles exactly option `o` in the ticked set and keeps the
      list free of repeats; two clicks on the same option restore the
      ticked set. */
  lemma ToggleFlips(selected: seq<nat>, o: nat)
    requires NoDup(selected)
    ensures NoDup(Toggle(selected, o))
    ensures Elems(Toggle(selected, o)) == if o in selected then Elems(selected) - {o} else Elems(selected) + {o}
    ensures Elems(Toggle(Toggle(selected, o), o)) == Elems(selected)
  {
  }

  /** The questions of `pool` whose ids are not in `answered`, in pool
      order. */
  function Available(pool: seq<Question>, answered: set<nat>): (r: seq<Question>)
    ensures |r| <= |pool|
    ensures forall q :: q in r <==> q in pool && q.id !in answered
    ensures DistinctIds(pool) ==> DistinctIds(r)
  {
    if |pool| == 0 then []
    else
      var rest := Available(pool[1..], answered);
      assert DistinctIds(pool) ==> DistinctIds(pool[1..]);
      assert DistinctIds(pool) ==> forall q :: q in rest ==> q.id != pool[0].id;
      if pool[0].id in answered then rest else [pool[0]] + rest
  }

  /** With nothing answered yet, every question is available, in order. */
  lemma {:induction false} AvailableNothingAnswered(pool: seq<Question>)
    ensures Available(pool, {}) == pool
    decreases |pool|
  {
    if |pool| > 0 {
      AvailableNothingAnswered(pool[1..]);
      assert [pool[0]] + pool[1..] == pool;
    }
  }

  /** Taking out the question at `k` leaves questions of the pool, and,
      when the pool's ids are distinct, distinct ids none of which is the
      one taken out. */
  lemma RemoveAtKeepsDistinct(pool: seq<Question>, k: nat)
    requires k < |pool|
    ensures forall q :: q in pool[..k] + pool[k + 1..] ==> q in pool
    ensures DistinctIds(pool) ==>
              && DistinctIds(pool[..k] + pool[k + 1..])
              && forall q :: q in pool[..k] + pool[k + 1..] ==> q.id != pool[k].id
  {
    var rest := pool[..k] + pool[k + 1..];
    assert forall q :: q in rest ==> q in pool;
    if DistinctIds(pool) {
      forall i, j | 0 <= i < j < |rest| ensures rest[i].id != rest[j].id {
        var i' := if i < k then i else i + 1;
        var j' := if j < k then j else j + 1;
        assert rest[i] == pool[i'] && rest[j] == pool[j'];
      }
      forall q | q in rest ensures q.id != pool[k].id {
        var i :| 0 <= i < |rest| && rest[i] == q;
        assert q == pool[if i < k then i else i + 1];
      }
    }
  }

  /** A question put in front of questions with distinct ids, none of
      them its own, gives distinct ids. */
  lemma ConsDistinct(a: Question, t: seq<Question>)
    requires DistinctIds(t) && forall q :: q in t ==> q.id != a.id
    ensures DistinctIds([a] + t)
  {
    var s := [a] + t;
    forall i, j | 0 <= i < j < |s| ensures s[i].id != s[j].id {
      assert s[j] == t[j - 1];
      if i > 0 {
        assert s[i] == t[i - 1];
      }
    }
  }

  /** `n` questions drawn one by one, without replacement, from `pool`;
      each draw picks the position `draws[k] % |remaining|`. */
  function TakeRandom(pool: seq<Question>, n: nat, draws: seq<nat>): (r: seq<Question>)
    ensures |r| == if n <= |pool| then n else |pool|
    ensures forall q :: q in r ==> q in pool
    ensures DistinctIds(pool) ==> DistinctIds(r)
    decreases n
  {
    if n == 0 || |pool| == 0 then []
    else
      var k := (if |draws| > 0 then draws[0] else 0) % |pool|;
      var rest := pool[..k] + pool[k + 1..];
      var tail := TakeRandom(rest, n - 1, if |draws| > 0 then draws[1..] else []);
      RemoveAtKeepsDistinct(pool, k);
      if DistinctIds(pool) then
        ConsDistinct(pool[k], tail);
        [pool[k]] + tail
      else
        [pool[k]] + tail
  }

  /** With every answer worth 10 points, the two ways of passing the
      five-question round coincide: passing is three correct answers. */
  lemma PassIsThreeCorrect(correct: nat)
    ensures (correct >= PassCorrect || PointsPerCorrect * correct >= PassPoints) <==> correct >= PassCorrect
  {
  }

  /** The state of one mounted quiz component over its question pool.
      The confetti, the "time's up" screen and the hint are display only;
      the result flag is never set by the component, so it is left out. */
  class Game {
    const pool: seq<Question>
    var intro: Intro
    var currentQuestionIndex: nat
    var selectedQuestions: seq<Question>
    var answer: Answer
    var correctAnswers: nat
    var questionsAnswered: nat
    var points: nat
    var gameCompleted: bool
    var attempts: nat
    var questionTimer: nat
    var answeredQuestions: set<nat>
    var showRetryScreen: bool
    var retryTimer: nat
    var currentQuestionAnswered: bool
    var allQuestionsCompleted: bool
    var completions: nat      // calls of onComplete scheduled so far

    /** Questions taken into account so far in this round: one per
        question passed, and the current one once answered. */
    function Progress(): nat
      reads this`currentQuestionIndex, this`currentQuestionAnswered
    {
      currentQuestionIndex + if currentQuestionAnswered then 1 else 0
    }

    /** The round on screen: five distinct questions of the pool, once
        play has started. */
    ghost predicate RoundValid()
      reads this`intro, this`selectedQuestions, this`currentQuestionIndex
    {
      && |pool| >= QuestionsPerRound && DistinctIds(pool)
      && (intro.Started? ==>
            && |selectedQuestions| == QuestionsPerRound
            && DistinctIds(selectedQuestions)
            && currentQuestionIndex < QuestionsPerRound)
      && (!intro.Started? ==> currentQuestionIndex == 0)
      && (forall q :: q in selectedQuestions ==> q in pool)
    }

    /** Ten points a correct answer, and no more correct answers than
        questions taken, nor more questions taken than answers counted. */
    ghost predicate ScoreValid()
      reads this`points, this`correctAnswers, this`currentQuestionIndex,
            this`currentQuestionAnswered, this`questionsAnswered
    {
      && points == PointsPerCorrect * correctAnswers
      && correctAnswers <= Progress() <= questionsAnswered
    }

    /** The screens: a completed game had three correct answers and has
        called back, and only a completed game has; the retry screen
        means fewer than three. */
    ghost predicate FlagsValid()
      reads this`intro, this`currentQuestionAnswered, this`showRetryScreen, this`gameCompleted,
            this`completions, this`correctAnswers, this`retryTimer, this`questionTimer,
            this`attempts, this`answer
    {
      && (!intro.Started? ==> !currentQuestionAnswered && !showRetryScreen && !gameCompleted)
      && NoDup(answer.multiple)
      && questionTimer <= QuestionSeconds
      && retryTimer <= RetrySeconds
      && (!showRetryScreen ==> retryTimer == RetrySeconds)
      && (gameCompleted ==> correctAnswers >= PassCorrect && completions > 0 && !showRetryScreen)
      && (showRetryScreen ==> correctAnswers < PassCorrect)
      && (completions > 0 ==> gameCompleted)
      && attempts >= 1
    }

    ghost predicate Valid()
      reads this
    {
      RoundValid() && ScoreValid() && FlagsValid()
    }

    constructor (questions: seq<Question>)
      requires |questions| >= QuestionsPerRound && DistinctIds(questions)
      ensures Valid()
      ensures pool == questions && intro == Opening()
      ensures selectedQuestions == [] && currentQuestionIndex == 0 && answer == NoAnswer
      ensures correctAnswers == 0 && questionsAnswered == 0 && points == 0
      ensures questionTimer == QuestionSeconds && answeredQuestions == {} && attempts == 1
      ensures !gameCompleted && !showRetryScreen && !currentQuestionAnswered && completions == 0
      ensures !allQuestionsCompleted && retryTimer == RetrySeconds
    {
      pool := questions;
      intro := Opening();
      currentQuestionIndex := 0;
      selectedQuestions := [];
      answer := NoAnswer;
      correctAnswers, questionsAnswered, points := 0, 0, 0;
      gameCompleted := false;
      attempts := 1;
      questionTimer := QuestionSeconds;
      answeredQuestions := {};
      showRetryScreen := false;
      retryTimer := RetrySeconds;
      currentQuestionAnswered := false;
      allQuestionsCompleted := false;
      completions := 0;
    }

    /** The question on screen. */
    function CurrentQuestion(): Question
      reads this
      requires currentQuestionIndex < |selectedQuestions|
    {
      selectedQuestions[currentQuestionIndex]
    }

    /** The screen rendered: rules, countdown, retry, the success screen,
        then the question. */
    function View(): (s: Screen)
      reads this
      ensures s == PlayScreen <==> intro.Started? && !showRetryScreen && !gameCompleted
    {
      match intro
      case Rules(_) => RulesScreen
      case Countdown(_) => CountdownScreen
      case Started =>
        if showRetryScreen then RetryScreen
        else if gameCompleted then WinScreen
        else PlayScreen
    }

    /** A click on the submit button does something. */
    predicate CanSubmit()
      reads this
    {
      View() == PlayScreen && currentQuestionIndex < |selectedQuestions|
      && !currentQuestionAnswered && HasAnswer(CurrentQuestion(), answer)
    }

    /** The round's questions were drawn with `answered` as the record of
        correct answers: five distinct questions of the pool, none of them
        in the record; the record is kept when at least five questions
        are outside it, and cleared otherwise. */
    ghost predicate Drawn(answered: set<nat>)
      reads this`selectedQuestions, this`answeredQuestions
    {
      && |selectedQuestions| == QuestionsPerRound && DistinctIds(selectedQuestions)
      && (forall q :: q in selectedQuestions ==> q in pool && q.id !in answeredQuestions)
      && (|Available(pool, answered)| >= QuestionsPerRound ==> answeredQuestions == answered)
      && (|Available(pool, answered)| < QuestionsPerRound ==> answeredQuestions == {})
    }

    /** Draws the round's questions: five taken at random from those not
        yet answered correctly, or, when fewer than five remain, from the
        whole pool with the record cleared. */
    method SelectRandomQuestions(draws: seq<nat>)
      requires |pool| >= QuestionsPerRound && DistinctIds(pool)
      modifies this`selectedQuestions, this`answeredQuestions
      ensures Drawn(old(answeredQuestions))
    {
      var available := Available(pool, answeredQuestions);
      if |available| < QuestionsPerRound {
        answeredQuestions := {};
        selectedQuestions := TakeRandom(pool, QuestionsPerRound, draws);
      } else {
        selectedQuestions := TakeRandom(available, QuestionsPerRound, draws);
        assert forall q :: q in selectedQuestions ==> q in available;
      }
    }

    /** The round is over: three correct answers (or 30 points) completes
        the game, anything less brings the retry screen. */
    method Evaluate(pass: bool)
      requires Valid() && intro.Started?
      requires pass <==> correctAnswers >= PassCorrect
      modifies this`allQuestionsCompleted, this`gameCompleted, this`completions, this`showRetryScreen
      ensures Valid()
      ensures allQuestionsCompleted
      ensures pass ==> gameCompleted && completions == old(completions) + 1 && showRetryScreen == old(showRetryScreen)
      ensures !pass ==> showRetryScreen && gameCompleted == old(gameCompleted) && completions == old(completions)
    {
      allQuestionsCompleted := true;
      if pass {
        gameCompleted := true;
        completions := completions + 1;
      } else {
        showRetryScreen := true;
      }
    }

    /** Moves to the next question, with nothing chosen and a full
        question clock; on the last question it does nothing. */
    method NextQuestion()
      requires Valid() && intro.Started? && currentQuestionAnswered
      modifies this`currentQuestionIndex, this`answer, this`questionTimer, this`currentQuestionAnswered
      ensures Valid()
      ensures old(currentQuestionIndex) + 1 < |selectedQuestions| ==>
                && currentQuestionIndex == old(currentQuestionIndex) + 1
                && answer == NoAnswer && questionTimer == QuestionSeconds && !currentQuestionAnswered
      ensures old(currentQuestionIndex) + 1 >= |selectedQuestions| ==> unchanged(this)
    {
      if currentQuestionIndex + 1 < |selectedQuestions| {
        currentQuestionIndex := currentQuestionIndex + 1;
        answer := NoAnswer;
        questionTimer := QuestionSeconds;
        currentQuestionAnswered := false;
      }
    }

    /** What happens after an answer or a time-out once its display
        delay is over: the judgement if the answer count read by the
        handler says the round is over, the next question otherwise. */
    twostate predicate Concluded(roundOver: bool, pass: bool)
      reads this
    {
      && (roundOver ==>
            && allQuestionsCompleted
            && (pass ==> gameCompleted && completions == old(completions) + 1
                         && showRetryScreen == old(showRetryScreen))
            && (!pass ==> showRetryScreen && gameCompleted == old(gameCompleted)
                          && completions == old(completions))
            && currentQuestionIndex == old(currentQuestionIndex)
            && currentQuestionAnswered)
      && (!roundOver && old(currentQuestionIndex) + 1 < |selectedQuestions| ==>
            && currentQuestionIndex == old(currentQuestionIndex) + 1
            && answer == NoAnswer && questionTimer == QuestionSeconds && !currentQuestionAnswered
            && gameCompleted == old(gameCompleted) && showRetryScreen == old(showRetryScreen)
            && allQuestionsCompleted == old(allQuestionsCompleted) && completions == old(completions))
      && (!roundOver && old(currentQuestionIndex) + 1 >= |selectedQuestions| ==>
            && currentQuestionIndex == old(currentQuestionIndex) && currentQuestionAnswered
            && gameCompleted == old(gameCompleted) && showRetryScreen == old(showRetryScreen)
            && allQuestionsCompleted == old(allQuestionsCompleted) && completions == old(completions))
    }

    /** The delayed part of an answer or a time-out. */
    method Conclude(roundOver: bool, pass: bool)
      requires Valid() && intro.Started? && currentQuestionAnswered
      requires pass <==> correctAnswers >= PassCorrect
      modifies this`currentQuestionIndex, this`answer, this`questionTimer, this`currentQuestionAnswered,
               this`allQuestionsCompleted, this`gameCompleted, this`completions, this`showRetryScreen
      ensures Valid()
      ensures Concluded(roundOver, pass)
      ensures roundOver ==> unchanged(this`answer, this`questionTimer)
    {
      if roundOver {
        Evaluate(pass);
      } else {
        NextQuestion();
      }
    }

    /** A click on the submit button.  The answer is judged; a correct
        one scores 10 points and is recorded.  The round-over test then
        reads the answer count from before this answer: plus one after a
        correct answer, as it stands after a wrong one. */
    method Submit()
      requires Valid()
      modifies this`questionsAnswered, this`currentQuestionAnswered, this`correctAnswers, this`points,
               this`answeredQuestions, this`currentQuestionIndex, this`answer, this`questionTimer,
               this`allQuestionsCompleted, this`gameCompleted, this`completions, this`showRetryScreen
      ensures Valid()
      ensures !old(CanSubmit()) ==> unchanged(this)
      ensures old(CanSubmit()) ==>
                var q := old(CurrentQuestion());
                var right := IsCorrect(q, old(answer));
                && questionsAnswered == old(questionsAnswered) + 1
                && (right ==>
                      && correctAnswers == old(correctAnswers) + 1
                      && answeredQuestions == old(answeredQuestions) + {q.id}
                      && Concluded(old(questionsAnswered) + 1 >= QuestionsPerRound, correctAnswers >= PassCorrect))
                && (!right ==>
                      && correctAnswers == old(correctAnswers)
                      && answeredQuestions == old(answeredQuestions)
                      && Concluded(old(questionsAnswered) >= QuestionsPerRound, correctAnswers >= PassCorrect))
    {
      if !CanSubmit() {
        return;
      }
      var q := CurrentQuestion();
      var isCorrect := IsCorrect(q, answer);
      var answeredBefore := questionsAnswered;
      Record(isCorrect, q.id);
      PassIsThreeCorrect(correctAnswers);
      if isCorrect {
        Conclude(answeredBefore + 1 >= QuestionsPerRound, correctAnswers >= PassCorrect || points >= PassPoints);
      } else {
        Conclude(answeredBefore >= QuestionsPerRound, correctAnswers >= PassCorrect || points >= PassPoints);
      }
    }

    /** The immediate part of a submitted answer: the question is marked
        answered and counted; a correct answer also scores 10 points and
        its id joins the record of correct answers. */
    method Record(right: bool, id: nat)
      requires Valid() && intro.Started? && !currentQuestionAnswered && !gameCompleted && !showRetryScreen
      modifies this`currentQuestionAnswered, this`questionsAnswered, this`correctAnswers, this`points,
               this`answeredQuestions
      ensures Valid() && currentQuestionAnswered
      ensures questionsAnswered == old(questionsAnswered) + 1
      ensures right ==>
                && correctAnswers == old(correctAnswers) + 1 && points == old(points) + PointsPerCorrect
                && answeredQuestions == old(answeredQuestions) + {id}
      ensures !right ==>
                && correctAnswers == old(correctAnswers) && points == old(points)
                && answeredQuestions == old(answeredQuestions)
    {
      currentQuestionAnswered := true;
      questionsAnswered := questionsAnswered + 1;
      if right {
        correctAnswers := correctAnswers + 1;
        points := points + PointsPerCorrect;
        answeredQuestions := answeredQuestions + {id};
      }
    }

    /** The question clock ran out: the question counts as answered,
        wrongly, and the round-over test reads the count from before plus
        one; passing then needs three correct answers.  Nothing here
        tests whether the game is already completed. */
    method TimeUp()
      requires Valid() && intro.Started?
      modifies this`questionsAnswered, this`currentQuestionAnswered, this`currentQuestionIndex,
               this`answer, this`questionTimer, this`allQuestionsCompleted, this`gameCompleted,
               this`completions, this`showRetryScreen
      ensures Valid()
      ensures questionsAnswered == old(questionsAnswered) + 1
      ensures Concluded(old(questionsAnswered) + 1 >= QuestionsPerRound, correctAnswers >= PassCorrect)
      ensures old(questionsAnswered) + 1 >= QuestionsPerRound ==> unchanged(this`answer, this`questionTimer)
    {
      var answeredBefore := questionsAnswered;
      currentQuestionAnswered := true;
      questionsAnswered := questionsAnswered + 1;
      Conclude(answeredBefore + 1 >= QuestionsPerRound, correctAnswers >= PassCorrect);
    }

    /** Starts a new round after a failed one: counts, points and
        answers cleared, a full clock, a new draw of questions, and the
        attempt number raised.  The record of correct answers is kept. */
    method ResetGame(draws: seq<nat>)
      requires Valid() && intro.Started? && !gameCompleted
      modifies this`currentQuestionIndex, this`answer, this`correctAnswers, this`questionsAnswered,
               this`points, this`questionTimer, this`attempts, this`retryTimer,
               this`allQuestionsCompleted, this`currentQuestionAnswered, this`selectedQuestions,
               this`answeredQuestions
      ensures Valid() && NewRound(old(attempts))
      ensures Drawn(old(answeredQuestions))
    {
      SelectRandomQuestions(draws);
      ClearRound();
    }

    /** The counters of a new round: first question, nothing chosen, no
        answers or points, a full clock, and the attempt number raised. */
    method ClearRound()
      requires Valid() && intro.Started? && !gameCompleted
      modifies this`currentQuestionIndex, this`answer, this`correctAnswers, this`questionsAnswered,
               this`points, this`questionTimer, this`attempts, this`retryTimer,
               this`allQuestionsCompleted, this`currentQuestionAnswered
      ensures Valid() && NewRound(old(attempts))
    {
      ClearScore();
      questionTimer, retryTimer, attempts := QuestionSeconds, RetrySeconds, attempts + 1;
      allQuestionsCompleted := false;
    }

    /** Back to the first question with nothing chosen, answered or
        scored. */
    method ClearScore()
      requires Valid() && intro.Started? && !gameCompleted
      modifies this`currentQuestionIndex, this`answer, this`correctAnswers, this`questionsAnswered,
               this`points, this`currentQuestionAnswered
      ensures Valid()
      ensures currentQuestionIndex == 0 && answer == NoAnswer && !currentQuestionAnswered
      ensures correctAnswers == 0 && questionsAnswered == 0 && points == 0
    {
      currentQuestionIndex, answer, currentQuestionAnswered := 0, NoAnswer, false;
      correctAnswers, questionsAnswered, points := 0, 0, 0;
    }

    /** A click on option `index` of a single-choice question. */
    method SelectAnswer(index: nat)
      requires Valid()
      modifies this`answer
      ensures Valid()
      ensures answer == old(answer).(selected := Some(index))
    {
      answer := answer.(selected := Some(index));
    }

    /** A click on option `optionIndex` of a multiple-choice question. */
    method HandleMultipleSelect(optionIndex: nat)
      requires Valid()
      modifies this`answer
      ensures Valid()
      ensures answer == old(answer).(multiple := Toggle(old(answer).multiple, optionIndex))
    {
      ToggleFlips(answer.multiple, optionIndex);
      answer := answer.(multiple := Toggle(answer.multiple, optionIndex));
    }

    /** The text typed into an input question. */
    method SetInput(text: string)
      requires Valid()
      modifies this`answer
      ensures Valid()
      ensures answer == old(answer).(input := text)
    {
      answer := answer.(input := text);
    }

    /** One second of the component: the opening (whose end draws the
        first round), the retry screen (whose end starts a new round, with
        the question clock starting a second later) and the question
        clock, which runs until the game is completed. */
    method Tick(draws: seq<nat>)
      requires Valid()
      modifies this`intro, this`questionsAnswered, this`currentQuestionAnswered, this`correctAnswers,
               this`points, this`answeredQuestions, this`currentQuestionIndex, this`answer,
               this`questionTimer, this`allQuestionsCompleted, this`gameCompleted, this`completions,
               this`showRetryScreen, this`retryTimer, this`attempts, this`selectedQuestions
      ensures Valid()
      ensures !old(intro).Started? ==>
                && intro == IntroTick(old(intro))
                && (intro.Started? ==> Drawn(old(answeredQuestions)))
                && (!intro.Started? ==> unchanged(this`selectedQuestions, this`answeredQuestions))
                && unchanged(this`questionsAnswered, this`currentQuestionAnswered, this`correctAnswers,
                             this`points, this`currentQuestionIndex, this`answer, this`questionTimer,
                             this`allQuestionsCompleted, this`gameCompleted, this`completions,
                             this`showRetryScreen, this`retryTimer, this`attempts)
      ensures old(intro).Started? ==> intro == old(intro)
      ensures old(intro).Started? && old(showRetryScreen) && old(retryTimer) <= 1 ==>
                && !showRetryScreen && NewRound(old(attempts)) && Drawn(old(answeredQuestions))
                && unchanged(this`gameCompleted, this`completions)
      ensures old(intro).Started? && old(showRetryScreen) && old(retryTimer) > 1 ==>
                && retryTimer == old(retryTimer) - 1 && ClockSecond()
                && unchanged(this`correctAnswers, this`points, this`answeredQuestions,
                             this`selectedQuestions, this`attempts)
      ensures old(intro).Started? && !old(showRetryScreen) ==>
                && ClockSecond()
                && unchanged(this`correctAnswers, this`points, this`answeredQuestions,
                             this`selectedQuestions, this`attempts, this`retryTimer)
    {
      if !intro.Started? {
        OpeningStep(draws);
        return;
      }
      if showRetryScreen {
        RetryStep(draws);
        if !showRetryScreen {
          return;
        }
      }
      ClockStep();
    }

    /** One second of the rules or the countdown; when play starts the
        first round is drawn. */
    method OpeningStep(draws: seq<nat>)
      requires Valid() && !intro.Started?
      modifies this`intro, this`selectedQuestions, this`answeredQuestions
      ensures Valid()
      ensures intro == IntroTick(old(intro))
      ensures intro.Started? ==> Drawn(old(answeredQuestions))
      ensures !intro.Started? ==> unchanged(this`selectedQuestions, this`answeredQuestions)
    {
      intro := IntroTick(intro);
      if intro.Started? {
        SelectRandomQuestions(draws);
      }
    }

    /** The counters of a round just started, the attempt after
        `previousAttempts`: first question, nothing chosen, answered or
        scored, a full question clock and a full retry timer. */
    ghost predicate NewRound(previousAttempts: nat)
      reads this
    {
      && currentQuestionIndex == 0 && answer == NoAnswer && correctAnswers == 0
      && questionsAnswered == 0 && points == 0 && questionTimer == QuestionSeconds
      && attempts == previousAttempts + 1 && retryTimer == RetrySeconds
      && !allQuestionsCompleted && !currentQuestionAnswered
    }

    /** One second of the retry screen; at 0 it closes on a new round. */
    method RetryStep(draws: seq<nat>)
      requires Valid() && intro.Started? && showRetryScreen
      modifies this`currentQuestionIndex, this`answer, this`correctAnswers, this`questionsAnswered,
               this`points, this`questionTimer, this`attempts, this`retryTimer,
               this`allQuestionsCompleted, this`currentQuestionAnswered, this`selectedQuestions,
               this`answeredQuestions, this`showRetryScreen
      ensures Valid()
      ensures old(retryTimer) > 1 ==>
                && retryTimer == old(retryTimer) - 1 && showRetryScreen
                && unchanged(this`currentQuestionIndex, this`answer, this`correctAnswers,
                             this`questionsAnswered, this`points, this`questionTimer, this`attempts,
                             this`allQuestionsCompleted, this`currentQuestionAnswered,
                             this`selectedQuestions, this`answeredQuestions)
      ensures old(retryTimer) <= 1 ==>
                !showRetryScreen && NewRound(old(attempts)) && Drawn(old(answeredQuestions))
    {
      if retryTimer > 0 {
        retryTimer := retryTimer - 1;
      }
      if retryTimer == 0 {
        ResetGame(draws);
        showRetryScreen := false;
      }
    }

    /** One second of the question clock as `ClockStep` takes it, on the
        fields it may change.  The clock stands still once the game is
        completed, and at 0.  Above 1 it counts down.  At 1 it reaches 0
        and the question times out: the next question, the retry screen,
        or a pass; a pass completes the game, the effect runs again on
        the clock still at 0, and the question is taken and the game
        passed a second time. */
    twostate predicate ClockSecond()
      reads this
    {
      && (old(gameCompleted) || old(questionTimer) == 0 ==>
            && questionTimer == old(questionTimer) && Unanswered())
      && (!old(gameCompleted) && old(questionTimer) > 1 ==>
            && questionTimer == old(questionTimer) - 1 && Unanswered())
      && (!old(gameCompleted) && old(questionTimer) == 1 ==>
            var roundOver := old(questionsAnswered) + 1 >= QuestionsPerRound;
            var pass := correctAnswers >= PassCorrect;
            && (!(roundOver && pass) ==>
                  && questionsAnswered == old(questionsAnswered) + 1
                  && Concluded(roundOver, pass)
                  && (roundOver ==> questionTimer == 0 && answer == old(answer)))
            && (roundOver && pass ==>
                  && questionsAnswered == old(questionsAnswered) + 2
                  && completions == old(completions) + 2
                  && gameCompleted && allQuestionsCompleted && currentQuestionAnswered
                  && currentQuestionIndex == old(currentQuestionIndex)
                  && questionTimer == 0 && answer == old(answer)
                  && showRetryScreen == old(showRetryScreen)))
    }

    /** No answer taken and no screen changed since the previous state. */
    twostate predicate Unanswered()
      reads this
    {
      && questionsAnswered == old(questionsAnswered)
      && currentQuestionAnswered == old(currentQuestionAnswered)
      && currentQuestionIndex == old(currentQuestionIndex) && answer == old(answer)
      && allQuestionsCompleted == old(allQuestionsCompleted)
      && gameCompleted == old(gameCompleted) && completions == old(completions)
      && showRetryScreen == old(showRetryScreen)
    }

    /** One second of the question clock.  The time-out test of the
        effect does not look at the completed flag, which the effect
        depends on: a time-out that passes the game is taken again. */
    method ClockStep()
      requires Valid() && intro.Started?
      modifies this`questionsAnswered, this`currentQuestionAnswered, this`currentQuestionIndex,
               this`answer, this`questionTimer, this`allQuestionsCompleted, this`gameCompleted,
               this`completions, this`showRetryScreen
      ensures Valid()
      ensures ClockSecond()
    {
      if !gameCompleted && questionTimer > 0 {
        questionTimer := questionTimer - 1;
        if questionTimer == 0 {
          TimeUp();
          if gameCompleted {
            TimeUp();
          }
        }
      }
    }

    /** The question clock with the time-out taken only while the game is
        not completed: a time-out counts one question, and onComplete is
        called at most once. */
    method ClockStepGuarded()
      requires Valid() && intro.Started?
      modifies this`questionsAnswered, this`currentQuestionAnswered, this`currentQuestionIndex,
               this`answer, this`questionTimer, this`allQuestionsCompleted, this`gameCompleted,
               this`completions, this`showRetryScreen
      ensures Valid()
      ensures old(gameCompleted) || old(questionTimer) == 0 ==> unchanged(this)
      ensures !old(gameCompleted) && old(questionTimer) > 1 ==>
                questionTimer == old(questionTimer) - 1 && Unanswered()
      ensures !old(gameCompleted) && old(questionTimer) == 1 ==>
                && questionsAnswered == old(questionsAnswered) + 1
                && Concluded(old(questionsAnswered) + 1 >= QuestionsPerRound, correctAnswers >= PassCorrect)
      ensures !old(gameCompleted) ==> completions <= 1
    {
      if !gameCompleted && questionTimer > 0 {
        questionTimer := questionTimer - 1;
        if questionTimer == 0 {
          TimeUp();
        }
      }
    }
  }

  /** Five single-choice questions whose key is option 1. */
  function SampleRound(): seq<Question>
  {
    [Question(1, Single(1)), Question(2, Single(1)), Question(3, Single(1)),
     Question(4, Single(1)), Question(5, Single(1))]
  }

  /** A game on the last question of the sample round, with four
      questions taken and `correct` of them answered correctly. */
  method AtFifthQuestion(correct: nat) returns (g: Game)
    requires correct <= 4
    ensures fresh(g) && g.Valid() && g.intro.Started?
    ensures g.selectedQuestions == SampleRound() && g.currentQuestionIndex == 4
    ensures g.questionsAnswered == 4 && g.correctAnswers == correct && !g.currentQuestionAnswered
    ensures g.answer == NoAnswer && g.questionTimer == QuestionSeconds
    ensures !g.gameCompleted && !g.showRetryScreen && g.completions == 0 && !g.allQuestionsCompleted
  {
    g := new Game(SampleRound());
    g.intro := Started;
    g.selectedQuestions := SampleRound();
    g.currentQuestionIndex := 4;
    g.questionsAnswered := 4;
    g.correctAnswers, g.points := correct, PointsPerCorrect * correct;
  }

  /** A wrong answer to the fifth question, after three correct ones,
      leaves the round open on that question. */
  method WrongFifthAnswer() returns (g: Game)
    ensures fresh(g) && g.Valid() && g.intro.Started?
    ensures g.questionsAnswered == 5 && g.correctAnswers == 3
    ensures !g.allQuestionsCompleted && !g.gameCompleted && !g.showRetryScreen
  {
    g := AtFifthQuestion(3);
    g.SelectAnswer(0);
    assert g.View() == PlayScreen && g.CurrentQuestion() == Question(5, Single(1));
    assert g.CanSubmit();
    assert !IsCorrect(g.CurrentQuestion(), g.answer);
    g.Submit();
    assert g.currentQuestionIndex == 4 && g.questionsAnswered == 5;
  }

  /** The lopsided round-over test: a wrong fifth answer does not end the
      round.  The game waits on the last question until its clock runs
      out, and the time-out then passes it on three correct answers. */
  method WrongFifthAnswerWaitsForClock() returns (endedBySubmit: bool, endedByClock: bool, passed: bool)
    ensures !endedBySubmit && endedByClock && passed
  {
    var g := WrongFifthAnswer();
    endedBySubmit := g.allQuestionsCompleted || g.gameCompleted || g.showRetryScreen;
    g.TimeUp();
    assert g.allQuestionsCompleted;
    assert g.completions > 0;
    endedByClock := g.allQuestionsCompleted;
    passed := g.gameCompleted;
  }

  /** The fifth question times out after three correct answers.  The
      time-out completes the game; the question-clock effect, which
      depends on the completed flag, runs again with the clock still at
      0 and takes the time-out a second time: six questions are counted
      and onComplete is scheduled twice. */
  method FifthTimeOutCallsBackTwice() returns (answered: nat, callbacks: nat)
    ensures answered == 6 && callbacks == 2
  {
    var g := AtFifthQuestion(3);
    g.questionTimer := 1;
    g.ClockStep();
    answered, callbacks := g.questionsAnswered, g.completions;
  }

  /** With the time-out taken only before completion, the same game
      counts five questions and calls onComplete once. */
  method FifthTimeOutGuardedCallsBackOnce() returns (answered: nat, callbacks: nat)
    ensures answered == 5 && callbacks == 1
  {
    var g := AtFifthQuestion(3);
    g.questionTimer := 1;
    g.ClockStepGuarded();
    answered, callbacks := g.questionsAnswered, g.completions;
  }

  /** A correct fifth answer ends the round at once, and two earlier
      correct answers are enough with it. */
  method RightFifthAnswerEndsRound() returns (passed: bool)
    ensures passed
  {
    var g := AtFifthQuestion(2);
    g.SelectAnswer(1);
    assert g.View() == PlayScreen && g.CurrentQuestion() == Question(5, Single(1));
    assert g.CanSubmit();
    assert IsCorrect(g.CurrentQuestion(), g.answer);
    g.Submit();
    assert g.correctAnswers == 3 && g.questionsAnswered == 5;
    assert g.completions == 1;
    passed := g.gameCompleted;
  }
}
