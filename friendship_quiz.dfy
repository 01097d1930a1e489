/** The Friendship game: the five-question quiz over a pool that has the
    Romance Quiz's ids and keys except the typed word of question 20. */
module FriendshipQuiz {
  import opened Quiz
  import RomanceQuiz
  import opened Optional

  /** The pool, in the order the component lists it. */
  const Questions: seq<Question> := [
    Question(1, Single(1)),
    Question(2, Single(2)),
    Question(3, Multiple([0, 2, 4])),
    Question(4, Single(2)),
    Question(5, Input("trust")),
    Question(6, Multiple([0, 2, 4])),
    Question(7, Single(1)),
    Question(8, Input("support")),
    Question(9, Multiple([0, 2, 3])),
    Question(10, Single(1)),
    Question(11, Input("who")),
    Question(12, Multiple([0, 2, 4])),
    Question(13, Single(1)),
    Question(14, Input("communication")),
    Question(15, Multiple([1, 2, 4])),
    Question(16, Single(1)),
    Question(17, Input("best")),
    Question(18, Multiple([0, 2, 4])),
    Question(19, Single(1)),
    Question(20, Input("treated"))
  ]

  /** The two pools agree on every question but the last, whose typed
      answer is "treated" here and "loved" in the Romance Quiz; so an
      answer to any other question is judged alike in both games. */
  lemma PoolsDifferOnlyInLastWord(i: nat, a: Answer)
    requires i < |Questions|
    ensures |Questions| == |RomanceQuiz.Questions|
    ensures i != 19 ==> (IsCorrect(Questions[i], a) <==> IsCorrect(RomanceQuiz.Questions[i], a))
    ensures Questions[19].key == Input("treated") && RomanceQuiz.Questions[19].key == Input("loved")
    ensures IsCorrect(RomanceQuiz.Questions[19], Answer(None, [], "loved"))
    ensures !IsCorrect(Questions[19], Answer(None, [], "loved"))
  {
    var loved := KeyAnswer(RomanceQuiz.Questions[19]);
    assert Lower("treated") == "treated";
    assert Lower("loved") == "loved";
  }

  /** The pool is well formed, like the Romance Quiz's. */
  lemma PoolWellFormed()
    ensures WellFormedPool(Questions)
    ensures |Questions| >= QuestionsPerRound && DistinctIds(Questions)
  {
    Numbered();
    NumberedIdsDistinct(Questions);
    KeysAnswerable();
  }

  /** The ids run from 1 to 20 in pool order. */
  lemma Numbered()
    ensures |Questions| == 20 && forall i :: 0 <= i < |Questions| ==> Questions[i].id == i + 1
  {
  }

  /** Every answer key in the pool has an answer that is accepted. */
  lemma KeysAnswerable()
    ensures forall i :: 0 <= i < |Questions| ==> Answerable(Questions[i].key)
  {
    forall i | 0 <= i < |Questions| ensures Answerable(Questions[i].key) {
      var k := Questions[i].key;
      if k.Multiple? {
        assert k.choices == [0, 2, 4] || k.choices == [0, 2, 3] || k.choices == [1, 2, 4];
      }
    }
  }
}
