/** The session controller as the page script runs it: an object whose fields are the
    session state and whose methods update them in place, each proved to make exactly
    the transition the state machine in `Controller` describes. */
module App {
  import opened Text
  import opened Quiz
  import opened Controller

  class Session {
    var started: bool
    var questions: seq<Question>
    var currentQuestionIndex: nat
    var answers: map<string, string>
    var scores: seq<real>

    /** The fields as a state-machine value. */
    function Snapshot(): State
      reads this
    {
      State(started, questions, currentQuestionIndex, answers, scores)
    }

    /** The session invariant, on the fields. */
    predicate Valid()
      reads this
    {
      Inv(Snapshot())
    }

    /** The first pass of a new session: not started, index 0, no answers, no scores
        (the questions are loaded by the same pass, see `LoadQuestions`). */
    constructor ()
      ensures Valid() && Snapshot() == Initial()
    {
      started := false;
      questions := [];
      currentQuestionIndex := 0;
      answers := map[];
      scores := [];
    }

    /** Until the quiz is started, every pass takes the loader's fresh questions, and
        pressing Start fixes them. */
    method LoadQuestions(fetched: seq<Question>, requested: int, startPressed: bool)
      requires Valid() && Fetched(fetched, requested)
      modifies this
      ensures Valid() && Snapshot() == Configure(old(Snapshot()), fetched, requested, startPressed)
    {
      if !started {
        questions := fetched;
        if startPressed {
          started := true;
        }
      }
    }

    /** Store the selected option, stripped (nothing for the "None" option), under the
        current question's text. */
    method RecordAnswer(selection: string)
      requires Valid() && currentQuestionIndex < |questions|
      modifies this`answers
      ensures Valid() && Snapshot() == Record(old(Snapshot()), selection)
    {
      var answer := if selection != NoneOption then Strip(selection) else "";
      answers := answers[questions[currentQuestionIndex].text := answer];
    }

    /** The Previous button: step back unless at the first question. */
    method Previous()
      requires Valid()
      modifies this`currentQuestionIndex
      ensures Valid() && Snapshot() == Controller.Previous(old(Snapshot()))
    {
      if currentQuestionIndex > 0 {
        currentQuestionIndex := currentQuestionIndex - 1;
      }
    }

    /** The Next button: advance, then score the question just left from the answer
        recorded under its text and append the score. */
    method Next()
      requires Valid() && currentQuestionIndex < |questions|
      modifies this`currentQuestionIndex, this`scores
      ensures Valid() && Snapshot() == Controller.Next(old(Snapshot()))
    {
      var current := questions[currentQuestionIndex];
      currentQuestionIndex := currentQuestionIndex + 1;
      var correctAnswer := current.correctAnswer;
      var picked := if current.text in answers then answers[current.text] else "";
      var score: real;
      if picked == "" {
        score := 0.0;
      } else if picked == correctAnswer {
        score := 1.0;
      } else {
        score := -0.25;
      }
      scores := scores + [score];
    }

    /** The summary of a finished session: the sum of every recorded score, and one row
        per question, built in question order. */
    method Summary() returns (total: real, rows: seq<Row>)
      requires Valid() && currentQuestionIndex >= |questions|
      ensures total == Sum(scores)
      ensures |rows| == |questions|
      ensures forall i :: 0 <= i < |rows| ==> rows[i] == SummaryRow(questions[i], answers, scores[i])
    {
      total := Sum(scores);
      rows := [];
      for i := 0 to |questions|
        invariant |rows| == i
        invariant forall k :: 0 <= k < i ==> rows[k] == SummaryRow(questions[k], answers, scores[k])
      {
        var question := questions[i];
        var userAnswer := if question.text in answers then answers[question.text] else "";
        rows := rows + [Row(question.text, ImagePlaceholder, question.possibleAnswers,
                            question.correctAnswer, question.explanation, userAnswer, scores[i])];
      }
    }

    /** One pass of the page script: load, then either show the summary, or show the
        current question, record the selection and apply the pressed button. */
    method RunPass(p: Pass) returns (view: View)
      requires Valid() && Fetched(p.fetched, p.requested)
      modifies this
      ensures Valid() && (Snapshot(), view) == Rerun(old(Snapshot()), p)
    {
      LoadQuestions(p.fetched, p.requested, p.startPressed);
      if currentQuestionIndex >= |questions| {
        var total, rows := Summary();
        SummaryMatches(questions, answers, scores, rows);
        view := View.Summary(total, rows);
        return;
      }
      var current := questions[currentQuestionIndex];
      view := Asking(current, Options(current));
      RecordAnswer(p.selection);
      match p.button {
        case NoButton =>
        case PreviousButton => Previous();
        case NextButton => Next();
      }
    }
  }

  /** Rows that agree with `SummaryRow` position by position are the summary table. */
  lemma {:induction false} SummaryMatches(questions: seq<Question>, answers: map<string, string>, scores: seq<real>, rows: seq<Row>)
    requires |questions| <= |scores| && |rows| == |questions|
    requires forall i :: 0 <= i < |rows| ==> rows[i] == SummaryRow(questions[i], answers, scores[i])
    ensures rows == SummaryRows(questions, answers, scores)
  {
    if rows != [] {
      var n := |rows| - 1;
      SummaryMatches(questions[..n], answers, scores, rows[..n]);
    }
  }
}
