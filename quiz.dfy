/** The quiz's data and its pure rules: what a question row holds, the answer options
    offered for it, how a selection is recorded, how a recorded answer is scored, how
    the total is summed and how the summary table is built. */
module Quiz {
  import opened Text

  /** The optional image column of a question row. */
  datatype Image = NoImage | Blob(bytes: seq<bv8>)

  /** One row of the question table, its five columns in their stored order. */
  datatype Question = Question(
    text: string,            // also the key under which the answer is recorded
    image: Image,
    possibleAnswers: string, // the options, one per line
    correctAnswer: string,
    explanation: string)

  /** One row of the summary table: the question's columns with the image replaced by
      the text "N/A", followed by the recorded answer and a score. */
  datatype Row = Row(
    question: string,
    image: string,
    possibleAnswers: string,
    correctAnswer: string,
    explanation: string,
    yourAnswer: string,
    score: real)

  /** The extra option offered after the question's own, meaning "no answer". */
  const NoneOption: string := "None"

  /** The placeholder that stands for the image in the summary table. */
  const ImagePlaceholder: string := "N/A"

  /** The options shown for a question: its stored answers split on line breaks,
      followed by one `NoneOption`. */
  function Options(q: Question): (r: seq<string>)
    ensures |r| >= 2 && r[|r| - 1] == NoneOption
    ensures forall k :: 0 <= k < |r| - 1 ==> '\n' !in r[k]
    ensures Join(r[..|r| - 1], '\n') == q.possibleAnswers
  {
    var pieces := Split(q.possibleAnswers, '\n');
    JoinSplit(q.possibleAnswers, '\n');
    assert (pieces + [NoneOption])[..|pieces|] == pieces;
    pieces + [NoneOption]
  }

  /** What is stored for a selected option: the empty string for `NoneOption`,
      otherwise the option with its surrounding whitespace stripped. */
  function RecordedAnswer(selection: string): (r: string)
    ensures Trimmed(r, IsSpace) && |r| <= |selection|
    ensures selection != NoneOption ==> StripsTo(selection, r, IsSpace)
    ensures r == "" <==> selection == NoneOption || forall i :: 0 <= i < |selection| ==> IsSpace(selection[i])
  {
    if selection != NoneOption then Strip(selection) else ""
  }

  /** The score values the rule can produce. */
  predicate IsScore(x: real) {
    x == 0.0 || x == 1.0 || x == -0.25
  }

  /** Every entry of a score list is one of the three values. */
  predicate AllScores(scores: seq<real>) {
    forall k :: 0 <= k < |scores| ==> IsScore(scores[k])
  }

  /** The scoring rule: no answer scores nothing, an exact (case-sensitive) match with
      the correct answer scores one point, any other answer costs a quarter point. */
  function Score(answer: string, correct: string): (r: real)
    ensures IsScore(r)
    ensures r == 0.0 <==> answer == ""
    ensures r == 1.0 <==> answer != "" && answer == correct
    ensures r == -0.25 <==> answer != "" && answer != correct
  {
    if answer == "" then 0.0
    else if answer == correct then 1.0
    else -0.25
  }

  /** A selection earns the point exactly when it is not `NoneOption`, the correct
      answer is not empty, and the stripped selection equals the correct answer.
      In particular a correct answer stored with surrounding whitespace can never be
      matched, whatever is selected. */
  lemma SelectionEarnsPoint(selection: string, correct: string)
    ensures Score(RecordedAnswer(selection), correct) == 1.0 <==>
            selection != NoneOption && correct != "" && Strip(selection) == correct
    ensures Score(RecordedAnswer(selection), correct) == 1.0 ==> Trimmed(correct, IsSpace)
  {
    if selection != NoneOption && Strip(selection) == correct && correct != "" {
      assert RecordedAnswer(selection) == correct;
    }
  }

  /** Python's `dict.get(key, '')` on the answer map: the stored value of a present
      key, the empty string for a missing one. */
  function Lookup(answers: map<string, string>, key: string): (r: string)
    ensures key in answers ==> r == answers[key]
    ensures key !in answers ==> r == ""
  {
    if key in answers then answers[key] else ""
  }

  /** Python's `sum` over the score list, added left to right. For rule-produced scores
      the total lies between a quarter point lost per entry and one point per entry. */
  function Sum(scores: seq<real>): (r: real)
    ensures AllScores(scores) ==> -0.25 * |scores| as real <= r <= |scores| as real
  {
    if scores == [] then 0.0 else Sum(scores[..|scores| - 1]) + scores[|scores| - 1]
  }

  /** How many entries of `scores` equal `v`: its multiplicity in the list. */
  function CountOf(scores: seq<real>, v: real): (n: nat)
    ensures n <= |scores|
    ensures n == multiset(scores)[v]
  {
    if scores == [] then 0
    else
      var last := |scores| - 1;
      assert scores == scores[..last] + [scores[last]];
      CountOf(scores[..last], v) + (if scores[last] == v then 1 else 0)
  }

  /** The sum splits over concatenation. */
  lemma {:induction false} SumConcat(a: seq<real>, b: seq<real>)
    ensures Sum(a + b) == Sum(a) + Sum(b)
  {
    if b == [] {
      assert a + b == a;
    } else {
      SumConcat(a, b[..|b| - 1]);
      assert (a + b)[..|a + b| - 1] == a + b[..|b| - 1];
    }
  }

  /** The total of a list of rule-produced scores is the number of points earned
      less a quarter for each wrong answer. */
  lemma {:induction false} SumByCounts(scores: seq<real>)
    requires AllScores(scores)
    ensures Sum(scores) == CountOf(scores, 1.0) as real - 0.25 * CountOf(scores, -0.25) as real
    ensures CountOf(scores, 1.0) + CountOf(scores, -0.25) <= |scores|
  {
    if scores != [] {
      SumByCounts(scores[..|scores| - 1]);
    }
  }

  /** The summary row of one question, its recorded answer and the score paired with it. */
  function SummaryRow(q: Question, answers: map<string, string>, score: real): Row {
    Row(q.text, ImagePlaceholder, q.possibleAnswers, q.correctAnswer, q.explanation,
        Lookup(answers, q.text), score)
  }

  /** The summary table: one row per question, in question order, the i-th question
      paired with the i-th entry of the score list. */
  function SummaryRows(questions: seq<Question>, answers: map<string, string>, scores: seq<real>): (r: seq<Row>)
    requires |questions| <= |scores|
    ensures |r| == |questions|
  {
    if questions == [] then []
    else
      var n := |questions| - 1;
      SummaryRows(questions[..n], answers, scores) + [SummaryRow(questions[n], answers, scores[n])]
  }

  /** Row `i` of the summary shows question `i` (image replaced), the answer recorded
      under its text (empty if none) and the `i`-th score in the list. */
  lemma {:induction false} SummaryRowAt(questions: seq<Question>, answers: map<string, string>, scores: seq<real>, i: nat)
    requires |questions| <= |scores| && i < |questions|
    ensures var row := SummaryRows(questions, answers, scores)[i];
      row.question == questions[i].text && row.image == ImagePlaceholder &&
      row.possibleAnswers == questions[i].possibleAnswers &&
      row.correctAnswer == questions[i].correctAnswer &&
      row.explanation == questions[i].explanation &&
      row.yourAnswer == (if questions[i].text in answers then answers[questions[i].text] else "") &&
      row.score == scores[i]
  {
    var n := |questions| - 1;
    if i < n {
      SummaryRowAt(questions[..n], answers, scores, i);
    }
  }

  /** The score column of a table. */
  function ScoreColumn(rows: seq<Row>): seq<real> {
    seq(|rows|, k requires 0 <= k < |rows| => rows[k].score)
  }

  /** The score column of the summary is the first `|questions|` entries of the score
      list, so it adds up to the total exactly when no question was scored twice. */
  lemma SummaryScoreColumn(questions: seq<Question>, answers: map<string, string>, scores: seq<real>)
    requires |questions| <= |scores|
    ensures ScoreColumn(SummaryRows(questions, answers, scores)) == scores[..|questions|]
    ensures |scores| == |questions| ==> Sum(ScoreColumn(SummaryRows(questions, answers, scores))) == Sum(scores)
  {
    forall i | 0 <= i < |questions|
      ensures SummaryRows(questions, answers, scores)[i].score == scores[i]
    {
      SummaryRowAt(questions, answers, scores, i);
    }
    assert |scores| == |questions| ==> scores[..|questions|] == scores;
  }
}
