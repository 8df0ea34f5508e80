# Trivia quiz and todo list: a verified model

This project models the two pieces of real state logic in a small Jetpack
Compose demo app:

- **The trivia quiz screen** (`trivia.dfy`, module `Trivia`). It uses a fixed
  bank of 16 four-option questions and six screen variables: `currentIndex`,
  `selectedAnswer`, `score`, `showFeedback`, `lives` and `quizFinished`.
  Three click handlers change them: an option row, the main
  Confirm/Next button, and the Restart button on the results screen. The
  results screen shows a truncated percentage and a three-way tier.
  The state is first described as a value (`QuizState`), with one pure step
  function per click handler and an invariant `Inv`. `Step`/`Run` replay any
  sequence of clicks. The screen itself is the class `Trivia.Quiz`. Its
  methods assign its fields in place, and each method's postcondition says
  that the new state is the step function applied to the old state.
- **The todo list screen** (`todo.dfy`, module `Todo`). It holds an ordered
  list of `TodoItem(id, text, done)` and the text field's content. The add
  button trims the input, ignores blank input, gives the new item the id
  `max + 1` (or `1` for an empty list) and appends it. A click on a card
  replaces the item with a flipped copy at the position `indexOf` finds. The
  delete button removes the first equal item. The pending and completed views
  are order-keeping filters. The screen is the class `Todo.TodoList`, whose
  list is a `seq` field that its methods reassign.

The click handlers reject nothing. A disabled button or a control the
screen does not show becomes a `requires` on the class method (the guard the
UI enforces); in `Trivia.Step` it becomes a click that changes nothing. The
option click the code itself ignores while feedback is shown
(`if (!showFeedback)`) stays a no-op in `Trivia.SelectStep` and
`Trivia.Quiz.Select`, as in the code.

Points about the code that the model makes explicit:

- The final percentage is truncated by Kotlin's `Int` division, not rounded.
- There are no typed error results. An option index cannot be out of range,
  because options are clicked from the question's own list. Confirm without a
  selection cannot happen, because the button is disabled.
- Finishing does not clear `selectedAnswer` or `showFeedback`. In the model
  (no configuration changes, see "## Left out") a finished state always has
  `showFeedback` set.
- Todo ids can be reused. The next id is the current largest id plus one, so
  after the item with the largest id is deleted the next id is at most the
  deleted id (`Todo.IdReuse`), and it is exactly the deleted id when the id
  just below it is still in use (`Todo.IdReuseExact`). When that id is not in
  use the next id can be smaller still: from the ids `[1, 5]`, deleting 5
  gives next id 2 (`Todo.IdReuseGap`).

## Model

| member | source | states |
|---|---|---|
| `Trivia.Bank` | app/src/main/java/com/example/todo/TriviaActivity.kt:44-63 | the bank has 16 questions, each with exactly 4 options and `0 <= correctIndex < options.size` |
| `Trivia.InitialInv` | app/src/main/java/com/example/todo/TriviaActivity.kt:65-70 | the start values (index 0, no selection, score 0, no feedback, 3 lives, not finished) satisfy the invariant and are in the answering phase |
| `Trivia.SelectStep` | app/src/main/java/com/example/todo/TriviaActivity.kt:156-178 | clicking option `i` keeps the invariant and the phase; it sets the selection to `i` while no feedback is shown; during feedback the state, selection included, is frozen; no other variable changes |
| `Trivia.ConfirmStep` | app/src/main/java/com/example/todo/TriviaActivity.kt:195-201 | a right answer adds 1 to the score and keeps the lives; a wrong one costs a life and keeps the score; feedback is then shown, and the index and selection are unchanged; the invariant holds |
| `Trivia.AdvanceStep` | app/src/main/java/com/example/todo/TriviaActivity.kt:203-210 | the quiz finishes iff `lives == 0` or the index is the last one, with nothing else changed; otherwise the index goes up by 1, the selection is cleared and feedback hidden; the invariant holds |
| `Trivia.PressStep` | app/src/main/java/com/example/todo/TriviaActivity.kt:192-213 | the main button (enabled only with a selection) keeps the invariant, never adds a life and strictly decreases the number of presses left before the end |
| `Trivia.RestartStep` | app/src/main/java/com/example/todo/TriviaActivity.kt:121-128 | from any finished state, restart yields index 0, score 0, 3 lives, no selection, no feedback, not finished, a state satisfying the invariant |
| `Trivia.Step` | app/src/main/java/com/example/todo/TriviaActivity.kt:121-213 | any click keeps the invariant; a click other than restart never adds a life; restart on the results screen returns to the start state |
| `Trivia.Run` | app/src/main/java/com/example/todo/TriviaActivity.kt:65-213 | every state reachable by clicks from a fresh screen satisfies the invariant |
| `Trivia.CountingLaw` | app/src/main/java/com/example/todo/TriviaActivity.kt:196-210 | in every reachable state `0 <= currentIndex < size`, `0 <= lives <= 3` and `score + (3 - lives) == currentIndex + (showFeedback ? 1 : 0)` |
| `Trivia.LivesNonIncreasing` | app/src/main/java/com/example/todo/TriviaActivity.kt:196-210 | along any click sequence without a restart, lives never go up |
| `Trivia.ScoreBound` | app/src/main/java/com/example/todo/TriviaActivity.kt:196-199 | the score, and the lives lost, never exceed the number of confirmed answers `currentIndex + 1` |
| `Trivia.NoConfirmWithoutLives` | app/src/main/java/com/example/todo/TriviaActivity.kt:195-205 | while answering, at least one life is left, so a confirm never drives lives below 0 |
| `Trivia.EarlyFinishMeansNoLives` | app/src/main/java/com/example/todo/TriviaActivity.kt:204-205 | a quiz finished before its last question has no lives left |
| `Trivia.Cycle` | app/src/main/java/com/example/todo/TriviaActivity.kt:171-210 | one question (select, confirm, advance) keeps the invariant, never adds a life, and either finishes or moves to the next question |
| `Trivia.Play` | app/src/main/java/com/example/todo/TriviaActivity.kt:171-210 | answering questions one after the other keeps the invariant and never adds a life |
| `Trivia.PlayFinishes` | app/src/main/java/com/example/todo/TriviaActivity.kt:204-210 | termination: the quiz is finished after at most `questions.size - currentIndex` answered questions |
| `Trivia.PlayAllCorrect` | app/src/main/java/com/example/todo/TriviaActivity.kt:196-207 | answering every remaining question right finishes with score `questions.size` and 3 lives |
| `Trivia.KotlinDiv` | app/src/main/java/com/example/todo/TriviaActivity.kt:91 | Kotlin `Int` division: the quotient is truncated toward zero, for either sign of the dividend |
| `Trivia.Percentage` | app/src/main/java/com/example/todo/TriviaActivity.kt:91 | `(score*100)/size` is the truncated percentage: `p*size <= score*100 < p*size + size`, and it lies in `[0,100]` when `0 <= score <= size` |
| `Trivia.TierOf` | app/src/main/java/com/example/todo/TriviaActivity.kt:93-97 | the tier is High iff `p >= 80`, Mid iff `50 <= p < 80`, Low iff `p < 50` |
| `Trivia.TierMonotone` | app/src/main/java/com/example/todo/TriviaActivity.kt:91-97 | a higher score never gives a lower percentage or tier |
| `Trivia.Quiz.constructor` | app/src/main/java/com/example/todo/TriviaActivity.kt:44-70 | a fresh screen holds the bank (a constant field, never reassigned, not even by restart) and the start values |
| `Trivia.Quiz.CurrentQuestion` | app/src/main/java/com/example/todo/TriviaActivity.kt:72 | the displayed question is `questions[currentIndex]`, always in bounds, and is a well-formed question of the bank |
| `Trivia.Quiz.Select` | app/src/main/java/com/example/todo/TriviaActivity.kt:171-177 | the fields change exactly as `SelectStep` says |
| `Trivia.Quiz.Confirm` | app/src/main/java/com/example/todo/TriviaActivity.kt:195-201 | the fields change exactly as `ConfirmStep` says |
| `Trivia.Quiz.Advance` | app/src/main/java/com/example/todo/TriviaActivity.kt:203-210 | the fields change exactly as `AdvanceStep` says |
| `Trivia.Quiz.Press` | app/src/main/java/com/example/todo/TriviaActivity.kt:192-213 | the main button changes the fields exactly as `PressStep` says |
| `Trivia.Quiz.Restart` | app/src/main/java/com/example/todo/TriviaActivity.kt:121-128 | the fields change exactly as `RestartStep` says |
| `Trivia.Quiz.Results` | app/src/main/java/com/example/todo/TriviaActivity.kt:89-97 | on the results screen the percentage is in `[0,100]` and is the truncated `score*100/size`, and the tier is `TierOf` of it |
| `Todo.LeadingWhitespace` | app/src/main/java/com/example/todo/TodoAppActivity.kt:75 | the count of leading whitespace characters: all of them whitespace, the next one not |
| `Todo.TrailingWhitespace` | app/src/main/java/com/example/todo/TodoAppActivity.kt:75 | the count of trailing whitespace characters: all of them whitespace, the one before not |
| `Todo.Trim` | app/src/main/java/com/example/todo/TodoAppActivity.kt:75 | `trim()` is empty iff the input is all whitespace; otherwise it neither starts nor ends with whitespace; it is a slice of the input, and everything cut off on either side is whitespace |
| `Todo.TrimIdempotent` | app/src/main/java/com/example/todo/TodoAppActivity.kt:84 | trimming the stored text again changes nothing |
| `Todo.MaxId` | app/src/main/java/com/example/todo/TodoAppActivity.kt:79 | `maxOf { it.id }` is at least every id and is the id of some item |
| `Todo.NextId` | app/src/main/java/com/example/todo/TodoAppActivity.kt:77-79 | the new id is 1 for an empty list; otherwise it is one more than an id in the list; either way it is greater than every existing id |
| `Todo.AppendNextIdKeepsIds` | app/src/main/java/com/example/todo/TodoAppActivity.kt:77-86 | appending an item with the new id keeps the ids pairwise distinct and positive |
| `Todo.IndexOf` | app/src/main/java/com/example/todo/TodoAppActivity.kt:158 | `indexOf` gives the first position holding the item, or -1 when it is absent |
| `Todo.ToggleIn` | app/src/main/java/com/example/todo/TodoAppActivity.kt:158-159 | toggling keeps the length; the item at its first position becomes the copy with `done` negated; every other position is unchanged; ids and texts are kept everywhere |
| `Todo.RemoveFirst` | app/src/main/java/com/example/todo/TodoAppActivity.kt:185 | `remove` of an absent item changes nothing; of a present item, the length drops by 1 and the multiset loses exactly one copy of it |
| `Todo.RemoveFirstSplices` | app/src/main/java/com/example/todo/TodoAppActivity.kt:185 | what `remove` deletes is exactly the first occurrence; the items before and after keep their relative order |
| `Todo.RemoveFirstAt` | app/src/main/java/com/example/todo/TodoAppActivity.kt:185 | after removal, each position holds the item that stood there, or one place further once past the removed item |
| `Todo.RemoveKeepsIds` | app/src/main/java/com/example/todo/TodoAppActivity.kt:185 | removing keeps the remaining ids distinct and positive |
| `Todo.ToggleTwice` | app/src/main/java/com/example/todo/TodoAppActivity.kt:157-159 | with distinct ids, a second click on the flipped card restores the list |
| `Todo.IdReuse` | app/src/main/java/com/example/todo/TodoAppActivity.kt:77-79 | after removing the item with the largest id, the next id is at most the removed id |
| `Todo.IdReuseExact` | app/src/main/java/com/example/todo/TodoAppActivity.kt:77-79 | after removing the item with the largest id, the next id is that same id whenever the id just below it is still in use |
| `Todo.IdReuseGap` | app/src/main/java/com/example/todo/TodoAppActivity.kt:77-79 | from the ids `[1, 5]`, deleting the item with id 5 gives next id 2, not 5: reuse of the exact id needs the id below it in use |
| `Todo.Pending` | app/src/main/java/com/example/todo/TodoAppActivity.kt:55 | the pending view is no longer than the list and holds only items not done |
| `Todo.Completed` | app/src/main/java/com/example/todo/TodoAppActivity.kt:56 | the completed view is no longer than the list and holds only items done |
| `Todo.ViewMembers` | app/src/main/java/com/example/todo/TodoAppActivity.kt:55-56 | an item is pending iff it is in the list and not done, and completed iff it is in the list and done |
| `Todo.PartitionCounts` | app/src/main/java/com/example/todo/TodoAppActivity.kt:55-56 | the sizes of the two views add up to the list's size, and together they hold every item exactly as often as the list does |
| `Todo.PendingOfAppend` | app/src/main/java/com/example/todo/TodoAppActivity.kt:55 | the pending view keeps list order: filtering a concatenation concatenates the filtered parts |
| `Todo.CompletedOfAppend` | app/src/main/java/com/example/todo/TodoAppActivity.kt:56 | the completed view keeps list order in the same way |
| `Todo.AddedItemIsPending` | app/src/main/java/com/example/todo/TodoAppActivity.kt:55-88 | a newly added (not done) item appears last in the pending view, and the completed view is unchanged |
| `Todo.PendingCountAround` | app/src/main/java/com/example/todo/TodoAppActivity.kt:55 | the pending count of a list split around one item is the sum of the parts' counts plus one if that item is not done |
| `Todo.ToggleMovesOneItem` | app/src/main/java/com/example/todo/TodoAppActivity.kt:157-159 | a click on a card moves exactly one item from one view to the other |
| `Todo.TodoList.constructor` | app/src/main/java/com/example/todo/TodoAppActivity.kt:49-53 | a fresh screen has an empty list and an empty text field |
| `Todo.TodoList.EditText` | app/src/main/java/com/example/todo/TodoAppActivity.kt:107-109 | typing replaces the field's text and leaves the list unchanged |
| `Todo.TodoList.Add` | app/src/main/java/com/example/todo/TodoAppActivity.kt:74-89 | blank input leaves list and field unchanged; otherwise exactly one item `(NextId, trim(input), false)` is appended after the unchanged earlier items and the field is cleared; ids stay distinct and positive |
| `Todo.TodoList.Toggle` | app/src/main/java/com/example/todo/TodoAppActivity.kt:157-160 | the list becomes `ToggleIn(list, task)`, the field is unchanged, and ids stay distinct and positive |
| `Todo.TodoList.Remove` | app/src/main/java/com/example/todo/TodoAppActivity.kt:185 | the list becomes `RemoveFirst(list, task)`, the field is unchanged, and ids stay distinct and positive |

## Left out

- The progress bar: `progress` is a `Float` ratio fed to an animation
  (TriviaActivity.kt:73-74). Floating point and animation are not modelled.
- All rendering: scaffolds, colours, emoji and button labels. The tier stands
  for the emoji choice.
- `remember` versus `rememberSaveable`. Configuration changes (a rotation)
  are not modelled: all six quiz variables and the todo list are ordinary
  state here. In the app, `selectedAnswer` and `showFeedback` use `remember`
  (TriviaActivity.kt:66,68) and are reset by a rotation, while
  `currentIndex`, `score`, `lives` and `quizFinished` use `rememberSaveable`
  (TriviaActivity.kt:65,67,69,70) and survive it. So `Trivia.Inv`,
  `Trivia.Run`, `Trivia.CountingLaw`, `lives >= 0` and the `[0, 100]` bound of
  `Trivia.Quiz.Results` hold only between configuration changes. A rotation
  during feedback returns the same question to answering with its score or
  lost life already counted, so it can be confirmed again: a correct answer
  can be scored twice (score above `currentIndex + 1`, percentage above 100),
  and four wrong confirms with rotations between them leave `lives == -1`,
  after which the `lives == 0` test (TriviaActivity.kt:204) never ends the
  quiz early. A rotation on the results screen leaves `quizFinished` set with
  `showFeedback` false. On the todo screen `todos` uses `remember`
  (TodoAppActivity.kt:51) and is emptied by a rotation, while `newTaskText`
  uses `rememberSaveable` (TodoAppActivity.kt:49) and survives it.
- Kotlin's 32-bit `Int`. Ids (`max + 1`), the score and `score * 100` are
  unbounded integers. The values the screens produce stay far below 2^31.
  `NextId` does not model the wrap-around at `Int.MAX_VALUE`.
- `Todo.IsWhitespace` follows the JVM's `Char.isWhitespace`. That is the
  ASCII controls TAB to CR and FS to US, plus the Unicode space, line and
  paragraph separators, listed as of current Unicode. Later Unicode versions
  may add separators.
- `Todo.TodoList.Toggle` requires the clicked item to be in the list.
  Otherwise `indexOf` returns -1 and the indexed assignment throws, and a
  crash is not modelled.
- The counter screen, navigation between screens and the theme are not part of
  this model. They hold no logic beyond integer increments and constants.
