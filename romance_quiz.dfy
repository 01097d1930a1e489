/** The Romance Quiz: the five-question quiz over its own pool of twenty
    questions, of which the rules see only the ids and answer keys. */
module RomanceQuiz {
  import opened Quiz

  /** The pool, in the order the component lists it. */
  const Questions: seq<Question> := [
    Question(1, Single(1)),
    Question(2, Single(2)),
    Question(3, Multiple([0, 2, 4])),
    Question(4, Single(2)),
    Question(5, Input("trust")),
    Question(6, Multiple([0, 2, 4])),
    Question(7, Single(1)),
    Question(8, Input("support")),
    Question(9, Multiple([0, 2, 3])),
    Question(10, Single(1)),
    Question(11, Input("who")),
    Question(12, Multiple([0, 2, 4])),
    Question(13, Single(1)),
    Question(14, Input("communication")),
    Question(15, Multiple([1, 2, 4])),
    Question(16, Single(1)),
    Question(17, Input("best")),
    Question(18, Multiple([0, 2, 4])),
    Question(19, Single(1)),
    Question(20, Input("loved"))
  ]

  /** The pool is well formed: twenty questions with distinct ids, each
      of them answerable; so every question has a correct answer the
      submit button accepts, and a game can be built over the pool. */
  lemma PoolWellFormed()
    ensures WellFormedPool(Questions)
    ensures forall q :: q in Questions ==> Answerable(q.key)
    ensures |Questions| >= QuestionsPerRound && DistinctIds(Questions)
  {
    Numbered();
    NumberedIdsDistinct(Questions);
    KeysAnswerable();
  }

  /** The ids run from 1 to 20 in pool order. */
  lemma Numbered()
    ensures |Questions| == 20 && forall i :: 0 <= i < |Questions| ==> Questions[i].id == i + 1
  {
  }

  /** Every answer key in the pool has an answer that is accepted. */
  lemma KeysAnswerable()
    ensures forall i :: 0 <= i < |Questions| ==> Answerable(Questions[i].key)
  {
    forall i | 0 <= i < |Questions| ensures Answerable(Questions[i].key) {
      var k := Questions[i].key;
      if k.Multiple? {
        assert k.choices == [0, 2, 4] || k.choices == [0, 2, 3] || k.choices == [1, 2, 4];
      }
    }
  }

  /** At the first draw nothing has been answered, so the whole pool is
      available and the round is taken from it without clearing. */
  lemma FirstDrawFromWholePool()
    ensures Available(Questions, {}) == Questions
  {
    PoolWellFormed();
    AvailableNothingAnswered(Questions);
  }
}
