/** The quiz session as a state machine on values: the session state, the actions
    that change it (loading and starting, recording the selected option, Previous,
    Next), one complete pass of the page script, and what holds after any sequence
    of passes. */
module Controller {
  import opened Text
  import opened Quiz

  /** The largest question count the count widget lets the user ask for. */
  const MaxQuestions: nat := 140

  /** The navigation button pressed in a pass, if any (a pass reports at most one). */
  datatype Button = NoButton | PreviousButton | NextButton

  /** What a pass shows: the current question and its options, or, once the index has
      run past the last question, the total and the summary table. */
  datatype View =
    | Asking(question: Question, options: seq<string>)
    | Summary(total: real, rows: seq<Row>)

  /** The session state kept between passes. */
  datatype State = State(
    started: bool,
    questions: seq<Question>,
    index: nat,
    answers: map<string, string>,
    scores: seq<real>)

  /** The inputs of one pass: the rows the loader returned for the requested count,
      whether Start was pressed, the option the radio group reports, and the
      navigation button pressed. */
  datatype Pass = Pass(
    fetched: seq<Question>,
    requested: int,
    startPressed: bool,
    selection: string,
    button: Button)

  /** What the loader may return: at most the requested count, which the widget keeps
      between 1 and `MaxQuestions`. */
  predicate Fetched(fetched: seq<Question>, requested: int) {
    1 <= requested <= MaxQuestions && |fetched| <= requested
  }

  /** The session invariant: every Next appended one score and nothing else raises the
      index, so there are at least as many scores as the index; the question list is
      never longer than the widget allows; every score is one the rule produces. */
  predicate Inv(s: State) {
    s.index <= |s.scores| && |s.questions| <= MaxQuestions && AllScores(s.scores)
  }

  /** The index has run past the last question: the summary is shown. */
  predicate Finished(s: State) {
    s.index >= |s.questions|
  }

  /** A fresh session: not started, no questions yet, index 0, no answers, no scores. */
  function Initial(): (s: State)
    ensures Inv(s)
    ensures !s.started && s.index == 0 && s.answers == map[] && s.scores == []
  {
    State(false, [], 0, map[], [])
  }

  /** Before the quiz is started every pass reloads the questions, and pressing Start
      fixes them; once started nothing here changes. Index, answers and scores are
      never touched. */
  function Configure(s: State, fetched: seq<Question>, requested: int, startPressed: bool): (r: State)
    requires Fetched(fetched, requested)
    ensures Inv(s) ==> Inv(r)
    ensures r.index == s.index && r.answers == s.answers && r.scores == s.scores
    ensures s.started ==> r == s
    ensures !s.started ==> r.questions == fetched && r.started == startPressed
  {
    if s.started then s else s.(questions := fetched, started := startPressed)
  }

  /** Record the selected option under the current question's text. Every other key
      keeps its entry (or its absence), and nothing but the answer map changes. */
  function Record(s: State, selection: string): (r: State)
    requires s.index < |s.questions|
    ensures Inv(s) ==> Inv(r)
    ensures r.(answers := s.answers) == s
    ensures var key := s.questions[s.index].text;
      key in r.answers && r.answers[key] == RecordedAnswer(selection) &&
      r.answers.Keys == s.answers.Keys + {key} &&
      forall k :: k in s.answers && k != key ==> r.answers[k] == s.answers[k]
  {
    s.(answers := s.answers[s.questions[s.index].text := RecordedAnswer(selection)])
  }

  /** Previous: step back one question unless already at the first; answers and scores
      are never touched. */
  function Previous(s: State): (r: State)
    ensures Inv(s) ==> Inv(r)
    ensures r.(index := s.index) == s
    ensures s.index == 0 ==> r == s
    ensures s.index > 0 ==> r.index + 1 == s.index
  {
    if s.index > 0 then s.(index := s.index - 1) else s
  }

  /** Next: advance the index and append the score of the question just left, computed
      from the answer recorded under its text; the total grows by that score. */
  function Next(s: State): (r: State)
    requires s.index < |s.questions|
    ensures Inv(s) ==> Inv(r)
    ensures r.index == s.index + 1
    ensures var q := s.questions[s.index];
      var score := Score(Lookup(s.answers, q.text), q.correctAnswer);
      r.scores == s.scores + [score] && Sum(r.scores) == Sum(s.scores) + score
    ensures r.(index := s.index, scores := s.scores) == s
  {
    var q := s.questions[s.index];
    var r := s.(index := s.index + 1, scores := s.scores + [Score(Lookup(s.answers, q.text), q.correctAnswer)]);
    assert r.scores[..|r.scores| - 1] == s.scores;
    r
  }

  /** The summary of a finished session: the total of ALL recorded scores and the
      table, which the invariant makes well defined (one score per question at least). */
  function SummaryView(s: State): (v: View)
    requires Inv(s) && Finished(s)
    ensures v.Summary? && |v.rows| == |s.questions|
    ensures v.rows == SummaryRows(s.questions, s.answers, s.scores)
    ensures v.total == Sum(s.scores)
    ensures forall i :: 0 <= i < |v.rows| ==> v.rows[i].score == s.scores[i]
  {
    var rows := SummaryRows(s.questions, s.answers, s.scores);
    SummaryScoreColumn(s.questions, s.answers, s.scores);
    assert forall i :: 0 <= i < |rows| ==> ScoreColumn(rows)[i] == rows[i].score;
    Summary(Sum(s.scores), rows)
  }

  /** One pass of the page script: load (unless started), then either show the summary
      and stop, or show the current question, record the selection, and apply the
      pressed navigation button. The invariant is kept; `PassEffects` says what else
      the pass does. */
  function Rerun(s: State, p: Pass): (r: (State, View))
    requires Inv(s) && Fetched(p.fetched, p.requested)
    ensures Inv(r.0)
  {
    var c := Configure(s, p.fetched, p.requested, p.startPressed);
    if Finished(c) then (c, SummaryView(c))
    else
      var q := c.questions[c.index];
      var d := Record(c, p.selection);
      var e := match p.button
        case NoButton => d
        case PreviousButton => Previous(d)
        case NextButton => Next(d);
      (e, Asking(q, Options(q)))
  }

  /** What one pass does: once started the questions stay fixed; the score list is
      only appended to, by at most one entry, and only by Next pressed on a question;
      that entry scores the option selected in the same pass; the summary pass only
      loads (before Start) and shows the total of all scores; a question pass records
      the selection under the question's text and moves the index as its button says. */
  lemma PassEffects(s: State, p: Pass)
    requires Inv(s) && Fetched(p.fetched, p.requested)
    ensures var (r, v) := Rerun(s, p);
      (s.started ==> r.started && r.questions == s.questions) &&
      |s.scores| <= |r.scores| <= |s.scores| + 1 && r.scores[..|s.scores|] == s.scores &&
      (v.Summary? <==> Finished(Configure(s, p.fetched, p.requested, p.startPressed))) &&
      (v.Summary? ==> r == Configure(s, p.fetched, p.requested, p.startPressed) &&
                      r.index == s.index && r.scores == s.scores && r.answers == s.answers &&
                      v.total == Sum(s.scores)) &&
      (v.Asking? ==> r.index == match p.button
                       case NoButton => s.index
                       case PreviousButton => if s.index > 0 then s.index - 1 else 0
                       case NextButton => s.index + 1) &&
      (v.Asking? ==> v.options == Options(v.question) &&
                     v.question.text in r.answers && r.answers[v.question.text] == RecordedAnswer(p.selection)) &&
      (|r.scores| == |s.scores| + 1 <==> v.Asking? && p.button == NextButton) &&
      (v.Asking? && p.button == NextButton ==>
         r.scores[|s.scores|] == Score(RecordedAnswer(p.selection), v.question.correctAnswer))
  {
    var c := Configure(s, p.fetched, p.requested, p.startPressed);
    if !Finished(c) {
      var d := Record(c, p.selection);
      var e := Rerun(s, p).0;
      assert e.scores[..|s.scores|] == s.scores;
    }
  }

  /** Every pass's loader result is within the requested count. */
  predicate AllFetched(passes: seq<Pass>) {
    forall k :: 0 <= k < |passes| ==> Fetched(passes[k].fetched, passes[k].requested)
  }

  /** The state after a sequence of passes, first pass first. The invariant holds
      throughout, the score list is only ever appended to, and once started the
      questions stay fixed. */
  function Replay(s: State, passes: seq<Pass>): (r: State)
    requires Inv(s) && AllFetched(passes)
    ensures Inv(r)
    ensures |s.scores| <= |r.scores| && r.scores[..|s.scores|] == s.scores
    ensures s.started ==> r.started && r.questions == s.questions
    decreases |passes|
  {
    if passes == [] then s
    else
      var t := Rerun(s, passes[0]).0;
      PassEffects(s, passes[0]);
      var r := Replay(t, passes[1..]);
      assert r.scores[..|s.scores|] == r.scores[..|t.scores|][..|s.scores|];
      r
  }

  /** In any session reached from a fresh one, a finished state has a score for every
      question, so each row of the summary has its score. */
  lemma {:induction false} ReachableSummaryDefined(passes: seq<Pass>)
    requires AllFetched(passes)
    ensures var s := Replay(Initial(), passes);
      Finished(s) ==> |s.questions| <= |s.scores| && SummaryView(s).total == Sum(s.scores)
  {
  }

  /** A pass on a started, unfinished session that presses Next records the selection
      under the current question and scores exactly that selection. */
  lemma NextPass(s: State, p: Pass)
    requires Inv(s) && Fetched(p.fetched, p.requested) && s.started && !Finished(s)
    requires p.button == NextButton
    ensures var q := s.questions[s.index];
      var answer := RecordedAnswer(p.selection);
      Rerun(s, p).0 == State(true, s.questions, s.index + 1, s.answers[q.text := answer],
                             s.scores + [Score(answer, q.correctAnswer)]) &&
      Rerun(s, p).1 == Asking(q, Options(q))
  {
    var q := s.questions[s.index];
    var d := Record(s, p.selection);
    assert Configure(s, p.fetched, p.requested, p.startPressed) == s;
    assert Rerun(s, p) == (Next(d), Asking(q, Options(q)));
    assert Lookup(d.answers, q.text) == RecordedAnswer(p.selection);
  }

  /** A pass on a started session that presses Previous records the selection and
      steps back if it can; no score is recorded. */
  lemma PreviousPass(s: State, p: Pass)
    requires Inv(s) && Fetched(p.fetched, p.requested) && s.started && !Finished(s)
    requires p.button == PreviousButton
    ensures var q := s.questions[s.index];
      Rerun(s, p).0 == State(true, s.questions, if s.index > 0 then s.index - 1 else 0,
                             s.answers[q.text := RecordedAnswer(p.selection)], s.scores) &&
      Rerun(s, p).1 == Asking(q, Options(q))
  {
    var q := s.questions[s.index];
    assert Configure(s, p.fetched, p.requested, p.startPressed) == s;
    assert Rerun(s, p) == (Previous(Record(s, p.selection)), Asking(q, Options(q)));
  }

  /** A pass on a started, finished session changes nothing and shows the summary. */
  lemma SummaryPass(s: State, p: Pass)
    requires Inv(s) && Fetched(p.fetched, p.requested) && s.started && Finished(s)
    ensures Rerun(s, p) == (s, Summary(Sum(s.scores), SummaryRows(s.questions, s.answers, s.scores)))
  {
  }
}
