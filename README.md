# Quiz session controller

A model of the Streamlit quiz page `app.py`. The page loads random question rows from an
uploaded SQLite file. It then walks the user through them one per page pass: it records the
selected option under the question's text, moves with Previous and Next, and scores each
question when Next leaves it. Once the index runs past the last question it shows the total
and a summary table.

The project has five modules:

- `Text` models Python's `str.strip()` (the `str.isspace` character set) and
  `str.split(sep)` with a one-character separator. It also defines the inverse `Join`, with
  both round trips proved.
- `Quiz` holds the question and summary-row records and the pure rules:
  - the options offered for a question;
  - what is stored for a selection;
  - the scoring rule (0, 1 or -0.25);
  - the total as a left-to-right sum;
  - the summary table built by `create_summary_table`.
- `Controller` is the session as a state machine on values: `State` holds the session
  fields, and `Pass` holds the inputs of one run of `main()`.
  - Each action (load/start, record, Previous, Next) is a function, and so is one whole
    pass (`Rerun`) and any sequence of passes (`Replay`).
  - It proves the invariant `index <= |scores|` and what one pass may change.
- `App` is the same session as a `Session` class whose fields are updated in place. Each
  method is proved to make exactly the transition its `Controller` counterpart describes.
  The summary is built by a loop.
- `Scenarios` steps through two concrete sessions pass by pass, leaving out the rerun the
  page triggers right after each Next (app.py:109). That pass presses no button and records
  the radio's value under the new question, which the following pass overwrites with its
  own selection, so the end states are the same:
  - a three-question session with the answers right, missing and wrong (total 0.75);
  - a session with a step back.

  The step-back session shows how the code behaves as written. The score list is kept in
  the order Next was pressed, and the summary pairs its i-th entry with the i-th question.
  After a step back a row can therefore show another question's score, while the total
  still counts every press of Next.

The score list is not keyed by question. Stepping back and pressing Next again appends a
second score. The model keeps this behaviour exactly as the code has it: `Next` appends,
`SummaryRows` pairs by position, and `Sum` adds every entry.

## Model

| member | source | states |
|---|---|---|
| Text.IsSpace | app.py:87 | The characters `str.strip()` removes: those Python's `str.isspace` accepts (tab to carriage return, 0x1C-0x20, 0x85, 0xA0 and the Unicode space separators). (A predicate; what is proved about it is in the `Strip` rows.) |
| Text.StripChars | app.py:87 | The result is a contiguous piece of the input, and everything before it and after it is in the class. Neither end of the result is in the class. It is no longer than the input, and it is empty exactly when every input character is in the class. |
| Text.Strip | app.py:87 | `str.strip()`: the result is the input with a run of whitespace (in Python's `isspace` sense) cut from each end, and neither of its ends is whitespace. |
| Text.StripUnique | app.py:87 | At most one piece of a string is both a cut of whitespace-only ends and free of whitespace at its own ends. So the `StripChars` contract determines the result completely. |
| Text.LeadCount | app.py:87 | The number of leading class characters: all of them are in the class, and the next one, if any, is not. |
| Text.TrailCount | app.py:87 | The number of trailing class characters: all of them are in the class, and the one before them, if any, is not. |
| Text.StripTrimmed | app.py:87 | Stripping a string with no class character at either end returns it unchanged. |
| Text.StripIdempotent | app.py:87 | Stripping twice gives the same result as stripping once. |
| Text.Split | app.py:84 | `str.split('\n')` returns at least one piece, and no piece contains the separator. |
| Text.JoinSplit | app.py:84 | Joining the pieces of a split with the separator gives back the original string. |
| Text.SplitJoin | app.py:84 | Splitting a join of separator-free pieces gives back those pieces. |
| Text.SplitNoSeparator | app.py:84 | A string without the separator splits into itself alone. |
| Text.SplitAfterPiece | app.py:84 | A separator-free piece followed by the separator comes out as the first piece of the split. |
| Quiz.Options | app.py:84-85 | There are at least two options, and the last one is "None". The options before it have no line break, and joined with line breaks they give the stored possible answers. |
| Quiz.RecordedAnswer | app.py:87 | For any selection other than "None", the stored answer is the selection with its surrounding whitespace cut off. It has no whitespace at either end and is no longer than the selection. It is empty exactly when the selection is "None" or all whitespace. |
| Quiz.Score | app.py:99-105 | The score is 0 exactly for an empty answer, 1 exactly for a non-empty answer equal to the correct one, and -0.25 exactly for any other non-empty answer. |
| Quiz.SelectionEarnsPoint | app.py:87-105 | A selection earns the point exactly when it is not "None", the correct answer is non-empty, and the stripped selection equals the correct answer. A correct answer with surrounding whitespace can never be matched. |
| Quiz.SumConcat | app.py:68 | The total of a concatenation is the sum of the two totals. |
| Quiz.SumByCounts | app.py:68 | The total of rule-produced scores equals the points earned minus a quarter per wrong answer, and together these two counts are at most the number of scores. |
| Quiz.Sum | app.py:68 | `sum(scores)`, added left to right. The total of n rule-produced scores lies between -0.25·n and n. `SumConcat` and `SumByCounts` prove how it splits over concatenation and how it counts right and wrong answers. |
| Quiz.Lookup | app.py:99 | `answers.get(key, '')` (also at app.py:29): the stored value for a present key, and the empty string for a missing one. |
| Quiz.SummaryRow | app.py:29-36 | One summary row: the question text, "N/A", the options, the correct answer, the explanation, the stored answer and the given score. (A definition; its fields are stated for every row by `SummaryRowAt`.) |
| Quiz.SummaryRows | app.py:26-36 | The summary table has exactly one row per question. |
| Quiz.SummaryRowAt | app.py:28-36 | Row i shows question i's text, "N/A" for the image, and its options, correct answer and explanation. Its answer is the one stored under the question's text (empty if none), and its score is the i-th entry of the score list. |
| Quiz.SummaryScoreColumn | app.py:26-36 | The score column of the summary is the first \|questions\| entries of the score list. When there are exactly as many scores as questions, the column adds up to the total. |
| Controller.Finished | app.py:66 | The summary is shown exactly when the index is at or past the number of questions. (A predicate; `PassEffects` states that a pass shows the summary exactly when it holds.) |
| Controller.Initial | app.py:53-57 | A new session is not started and has index 0, no answers and no scores, and it satisfies the invariant. |
| Controller.Configure | app.py:59-64 | Before Start, the loader's rows replace the questions, and pressing Start sets started. Once started, nothing changes. Index, answers and scores are never touched, and the invariant is kept. |
| Controller.Record | app.py:87 | Only the answer map changes. The current question's text maps to the recorded answer, the keys grow by exactly that text, and every other entry keeps its value. |
| Controller.Previous | app.py:90-91 | At index 0 nothing changes. Otherwise the index drops by one. Nothing else changes, and the invariant is kept. |
| Controller.Next | app.py:93-107 | The index rises by one, and the score of the answer stored under the question just left is appended. The total grows by that score, nothing else changes, and the invariant is kept. |
| Controller.SummaryView | app.py:66-72 | A finished session shows a summary whose total is the sum of all scores. Its rows are the summary table of the questions, the answers and the scores: one row per question, and row i carries the i-th score. |
| Controller.Rerun | app.py:51-107 | One pass of `main()` keeps the invariant `index <= \|scores\|` (and the score values and question bound). |
| Controller.PassEffects | app.py:51-107 | Within one pass: once started the questions stay fixed, and scores are only appended, at most one per pass. A summary is shown exactly when the index is past the last question. A summary pass only does the loading step (before Start it still reloads the questions and may set started), and the index, the answers and the scores stay as they are; `SummaryPass` states that nothing changes once started. A question pass shows its options, records the selection under its text, and moves the index as its button says (unchanged, back one unless at 0, or forward one). A score is appended exactly when Next is pressed on a question, and that score is the score of the selection. |
| Controller.Replay | app.py:51-109 | Over any sequence of passes: the invariant holds, the score list is only extended, and once started the questions stay fixed. |
| Controller.ReachableSummaryDefined | app.py:66-71 | In any session reached from a new one, a finished state has a score for every question, so the summary is defined and its total is the sum of the scores. |
| Controller.NextPass | app.py:84-107 | On a started, unfinished session, pressing Next stores the selection, advances the index and appends the score of exactly that selection. |
| Controller.PreviousPass | app.py:84-91 | On a started, unfinished session, pressing Previous stores the selection and steps back unless at index 0; no score is appended. |
| Controller.SummaryPass | app.py:66-74 | On a started, finished session, a pass changes nothing and shows the total and the summary table. |
| App.Session.constructor | app.py:53-57 | A new session object has the fields of `Controller.Initial`. |
| App.Session.LoadQuestions | app.py:59-64 | Updates the fields exactly as `Controller.Configure` does and keeps the invariant. |
| App.Session.RecordAnswer | app.py:87 | Updates only the answer map, exactly as `Controller.Record` does. |
| App.Session.Previous | app.py:90-91 | Updates only the index, exactly as `Controller.Previous` does. |
| App.Session.Next | app.py:93-107 | Updates the index and the score list exactly as `Controller.Next` does. |
| App.Session.Summary | app.py:26-36 | Changes nothing. Returns the sum of all scores and one row per question; row i is question i with the answer stored under its text and the i-th score. |
| App.SummaryMatches | app.py:26-36 | Rows that agree position by position with the per-question rows form the summary table. |
| App.Session.RunPass | app.py:51-107 | One pass on the object produces exactly the state and the view of `Controller.Rerun`, and keeps the invariant. |
| Scenarios.ThreeStart | app.py:53-87 | The first pass of a three-question session starts the quiz and records "A" for Q1. |
| Scenarios.ThreeFirst | app.py:84-107 | Next on Q1 with "A" scores 1. |
| Scenarios.ThreeSecond | app.py:84-107 | Next on Q2 with "None" records an empty answer and scores 0. |
| Scenarios.ThreeThird | app.py:84-107 | Next on Q3 with a wrong option scores -0.25. |
| Scenarios.ThreeSummary | app.py:26-72 | The finished three-question session shows a total of 0.75, with the rows' answers and scores in question order. |
| Scenarios.ThreeQuestionSession | app.py:51-107 | A whole session answering right, not at all and wrong gives the scores [1, 0, -0.25], and the summary shows a total of 0.75. |
| Scenarios.TwoStart | app.py:53-87 | The first pass of a two-question session starts the quiz and records "A" for Q1. |
| Scenarios.TwoForward | app.py:84-107 | Next on Q1 with "A" scores 1. |
| Scenarios.TwoBack | app.py:84-91 | Previous on Q2 records "A" for Q2 and returns to Q1 without scoring. |
| Scenarios.TwoForwardAgain | app.py:84-107 | Next on Q1 again appends a second 1. |
| Scenarios.TwoLast | app.py:84-107 | Next on Q2 with "A" appends -0.25. |
| Scenarios.TwoSummary | app.py:26-72 | The summary totals 1.75. Q2's row shows answer "A", which scores -0.25, but carries the score 1. |
| Scenarios.StepBackShiftsSummaryScores | app.py:26-107 | After a step back, three scores are recorded for two questions and all count towards the total (1.75). The summary row of Q2 shows the score of the repeated first question rather than its own. |

## Left out

- Loading questions (`get_random_questions`, app.py:11-23) is not modelled: the temporary file, SQLite and the random order. A pass receives the loaded rows as a parameter, constrained only to at most the requested count.
- The count widget (app.py:60) is not modelled; its bounds 1..140 appear as a precondition on the requested count.
- The file-upload gate (app.py:46-49) is not modelled: a pass without an uploaded file returns before touching the session, so it is simply not a pass here.
- Streamlit rendering (titles, subheaders, writes, the data frame) is not modelled. What a pass shows is reduced to the `View` value.
- The radio widget's remembered selection is not modelled. The selected option is a parameter of the pass, and so is the pressed navigation button.
- A `Pass` allows more input combinations than the page produces. Streamlit reports at most one clicked button per rerun, but a `Pass` can have Start pressed together with Previous or Next. The selection is also not tied to the options shown. Every lemma holds for all passes, so these extra combinations only widen what is proved.
- The explicit rerun at app.py:109 is modelled as the next pass in `Replay`. Streamlit's scheduling is not modelled.
- Image display in the summary (app.py:30-34) is not modelled. A failing image there is caught and only produces a warning. The summary replaces the image by "N/A" as the code does.
- The question's image at app.py:80-81 is not modelled. That call has no exception handler. If it raises, the pass stops before app.py:87: the selection is not recorded, the buttons are not drawn, and a started quiz can never leave that question. The model assumes the image call always returns, so every question pass records the selection and applies the button.
- pandas is not modelled: the summary is a sequence of `Row` records with the same seven columns.
- Scores and the total are exact reals. Floating-point rounding of repeated quarter-point additions and the float formatting of the total are not modelled.
- Question rows of the wrong width or column types are not modelled: a row is a record of five typed columns.
