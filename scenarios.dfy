/** Concrete sessions, pass by pass: the worked three-question example, and a session
    with a step back showing that the summary pairs scores with questions by position
    in the order Next was pressed, not by question.

    Each Next pass here is followed directly by the user's next pass. The page also
    reruns itself right after Next, with no button pressed, which records the radio's
    current value under the new question; that extra pass is left out of these
    sessions, since the following pass records its own selection under the same
    question again and the states they end in are the same. */
module Scenarios {
  import opened Text
  import opened Quiz
  import opened Controller

  /** A pass after the quiz has started: the loader result is ignored by then. */
  function Press(selection: string, button: Button): Pass {
    Pass([], 1, false, selection, button)
  }

  // Three questions; the first is answered right, the second not at all, the third wrong.

  function ThreeQuestions(): seq<Question> {
    [Question("Q1", NoImage, "A\nX", "A", ""),
     Question("Q2", NoImage, "B\nX", "B", ""),
     Question("Q3", NoImage, "C\nX", "C", "")]
  }

  lemma ThreeStart()
    ensures Rerun(Initial(), Pass(ThreeQuestions(), 3, true, "A", NoButton)).0
            == State(true, ThreeQuestions(), 0, map["Q1" := "A"], [])
  {
    StripTrimmed("A", IsSpace);
  }

  lemma ThreeFirst()
    ensures Rerun(State(true, ThreeQuestions(), 0, map["Q1" := "A"], []), Press("A", NextButton)).0
            == State(true, ThreeQuestions(), 1, map["Q1" := "A"], [1.0])
  {
    StripTrimmed("A", IsSpace);
    NextPass(State(true, ThreeQuestions(), 0, map["Q1" := "A"], []), Press("A", NextButton));
  }

  lemma ThreeSecond()
    ensures Rerun(State(true, ThreeQuestions(), 1, map["Q1" := "A"], [1.0]), Press(NoneOption, NextButton)).0
            == State(true, ThreeQuestions(), 2, map["Q1" := "A", "Q2" := ""], [1.0, 0.0])
  {
    NextPass(State(true, ThreeQuestions(), 1, map["Q1" := "A"], [1.0]), Press(NoneOption, NextButton));
  }

  lemma ThreeThird()
    ensures Rerun(State(true, ThreeQuestions(), 2, map["Q1" := "A", "Q2" := ""], [1.0, 0.0]), Press("X", NextButton)).0
            == State(true, ThreeQuestions(), 3, map["Q1" := "A", "Q2" := "", "Q3" := "X"], [1.0, 0.0, -0.25])
  {
    StripTrimmed("X", IsSpace);
    NextPass(State(true, ThreeQuestions(), 2, map["Q1" := "A", "Q2" := ""], [1.0, 0.0]), Press("X", NextButton));
  }

  lemma ThreeSummary()
    ensures var s := State(true, ThreeQuestions(), 3, map["Q1" := "A", "Q2" := "", "Q3" := "X"], [1.0, 0.0, -0.25]);
      var v := Rerun(s, Press(NoneOption, NoButton)).1;
      v.Summary? && v.total == 0.75 && |v.rows| == 3 &&
      v.rows[0].yourAnswer == "A" && v.rows[1].yourAnswer == "" && v.rows[2].yourAnswer == "X" &&
      v.rows[0].score == 1.0 && v.rows[1].score == 0.0 && v.rows[2].score == -0.25
  {
    var s := State(true, ThreeQuestions(), 3, map["Q1" := "A", "Q2" := "", "Q3" := "X"], [1.0, 0.0, -0.25]);
    SummaryPass(s, Press(NoneOption, NoButton));
    assert s.scores[..2] == [1.0, 0.0] && [1.0, 0.0][..1] == [1.0] && [1.0][..0] == [];
    assert Sum(s.scores) == 0.75;
    SummaryRowAt(s.questions, s.answers, s.scores, 0);
    SummaryRowAt(s.questions, s.answers, s.scores, 1);
    SummaryRowAt(s.questions, s.answers, s.scores, 2);
  }

  /** Three questions answered right, not at all and wrong: the scores are 1, 0 and
      -0.25 in question order, and the summary shows a total of 0.75. */
  lemma ThreeQuestionSession()
    ensures var s1 := Rerun(Initial(), Pass(ThreeQuestions(), 3, true, "A", NoButton)).0;
      var s2 := Rerun(s1, Press("A", NextButton)).0;
      var s3 := Rerun(s2, Press(NoneOption, NextButton)).0;
      var s4 := Rerun(s3, Press("X", NextButton)).0;
      var v := Rerun(s4, Press(NoneOption, NoButton)).1;
      s4.scores == [1.0, 0.0, -0.25] && v.Summary? && v.total == 0.75 &&
      |v.rows| == 3 && v.rows[0].yourAnswer == "A" && v.rows[1].yourAnswer == "" &&
      v.rows[2].yourAnswer == "X" && v.rows[0].score == 1.0 && v.rows[1].score == 0.0 &&
      v.rows[2].score == -0.25
  {
    ThreeStart();
    ThreeFirst();
    ThreeSecond();
    ThreeThird();
    ThreeSummary();
  }

  // Two questions; the first is answered right twice (with a step back between), the
  // second wrong.

  function TwoQuestions(): seq<Question> {
    [Question("Q1", NoImage, "A\nB", "A", ""),
     Question("Q2", NoImage, "A\nB", "B", "")]
  }

  lemma TwoStart()
    ensures Rerun(Initial(), Pass(TwoQuestions(), 2, true, "A", NoButton)).0
            == State(true, TwoQuestions(), 0, map["Q1" := "A"], [])
  {
    StripTrimmed("A", IsSpace);
  }

  lemma TwoForward()
    ensures Rerun(State(true, TwoQuestions(), 0, map["Q1" := "A"], []), Press("A", NextButton)).0
            == State(true, TwoQuestions(), 1, map["Q1" := "A"], [1.0])
  {
    StripTrimmed("A", IsSpace);
    NextPass(State(true, TwoQuestions(), 0, map["Q1" := "A"], []), Press("A", NextButton));
  }

  lemma TwoBack()
    ensures Rerun(State(true, TwoQuestions(), 1, map["Q1" := "A"], [1.0]), Press("A", PreviousButton)).0
            == State(true, TwoQuestions(), 0, map["Q1" := "A", "Q2" := "A"], [1.0])
  {
    StripTrimmed("A", IsSpace);
    PreviousPass(State(true, TwoQuestions(), 1, map["Q1" := "A"], [1.0]), Press("A", PreviousButton));
  }

  lemma TwoForwardAgain()
    ensures Rerun(State(true, TwoQuestions(), 0, map["Q1" := "A", "Q2" := "A"], [1.0]), Press("A", NextButton)).0
            == State(true, TwoQuestions(), 1, map["Q1" := "A", "Q2" := "A"], [1.0, 1.0])
  {
    StripTrimmed("A", IsSpace);
    NextPass(State(true, TwoQuestions(), 0, map["Q1" := "A", "Q2" := "A"], [1.0]), Press("A", NextButton));
  }

  lemma TwoLast()
    ensures Rerun(State(true, TwoQuestions(), 1, map["Q1" := "A", "Q2" := "A"], [1.0, 1.0]), Press("A", NextButton)).0
            == State(true, TwoQuestions(), 2, map["Q1" := "A", "Q2" := "A"], [1.0, 1.0, -0.25])
  {
    StripTrimmed("A", IsSpace);
    NextPass(State(true, TwoQuestions(), 1, map["Q1" := "A", "Q2" := "A"], [1.0, 1.0]), Press("A", NextButton));
  }

  lemma TwoSummary()
    ensures var s := State(true, TwoQuestions(), 2, map["Q1" := "A", "Q2" := "A"], [1.0, 1.0, -0.25]);
      var v := Rerun(s, Press(NoneOption, NoButton)).1;
      v.Summary? && v.total == 1.75 &&
      v.rows[1].question == "Q2" && v.rows[1].yourAnswer == "A" &&
      Score(v.rows[1].yourAnswer, v.rows[1].correctAnswer) == -0.25 && v.rows[1].score == 1.0
  {
    var s := State(true, TwoQuestions(), 2, map["Q1" := "A", "Q2" := "A"], [1.0, 1.0, -0.25]);
    SummaryPass(s, Press(NoneOption, NoButton));
    assert s.scores[..2] == [1.0, 1.0] && [1.0, 1.0][..1] == [1.0] && [1.0][..0] == [];
    assert Sum(s.scores) == 1.75;
    SummaryRowAt(s.questions, s.answers, s.scores, 1);
  }

  /** Answer the first question right, go on, step back, go on again, then answer the
      second wrong. Three scores are recorded and all count towards the total, but the
      second row of the summary shows the score of the repeated first question (1.0),
      not the -0.25 the second question earned. */
  lemma StepBackShiftsSummaryScores()
    ensures var s1 := Rerun(Initial(), Pass(TwoQuestions(), 2, true, "A", NoButton)).0;
      var s2 := Rerun(s1, Press("A", NextButton)).0;
      var s3 := Rerun(s2, Press("A", PreviousButton)).0;
      var s4 := Rerun(s3, Press("A", NextButton)).0;
      var s5 := Rerun(s4, Press("A", NextButton)).0;
      var v := Rerun(s5, Press(NoneOption, NoButton)).1;
      s5.scores == [1.0, 1.0, -0.25] && v.Summary? && v.total == 1.75 &&
      v.rows[1].question == "Q2" && v.rows[1].yourAnswer == "A" &&
      Score(v.rows[1].yourAnswer, v.rows[1].correctAnswer) == -0.25 && v.rows[1].score == 1.0
  {
    TwoStart();
    TwoForward();
    TwoBack();
    TwoForwardAgain();
    TwoLast();
    TwoSummary();
  }
}
