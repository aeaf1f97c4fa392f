# MathQuizzler quiz session, modelled in Dafny

MathQuizzler is a one-screen multiplication quiz. On the settings screen the
player picks a table (0 to 12) and a number of questions (5, 10, 15 or 20).
The quiz screen then asks "table × n" with `n` drawn at random from 0 to 12.
The player types an answer on an on-screen keypad and presses Submit. The
screen keeps a running score and shows the final score after the last
question.

This project models the behaviour behind those screens, all of it in
`MathQuizzler/ContentView.swift`:

- `swift_int.dfy` (module `SwiftInt`): Swift's failable `Int(_: String)`,
  which reads the typed answer. It takes an optional sign, then one or more
  ASCII digits, and the value must fit in a 64-bit `Int`; anything else gives
  nil. The module also gives the decimal spelling of a natural and the lemmas
  that connect the two.
- `keypad.dfy` (module `Keypad`): the keypad's key layout and
  `handleKeyPress` as a function on the answer text. The delete key drops the
  last character, the confirm key does nothing, and any other key is appended.
- `quiz.dfy` (module `Quiz`): the `QuizView` screen. The class `QuizView`
  has the screen's state fields: `score`, `currentQuestion`, `currentAnswer`,
  `firstNumber`, `secondNumber` and `showFinalScore`. Its methods
  `GenerateQuestion`, `CheckAnswer` and `HandleKeyPress` update those fields
  in place. Each method's postcondition ties the new state to a pure function
  of the old one (`Generated`, `Checked`, `KeyPressed`). The random operand is
  passed in as a `draw` parameter in 0..12.
- `quiz_runs.dfy` (module `QuizRuns`): whole runs of the screen as a sequence
  of events (key presses, submissions, the screen appearing again). Lemmas
  state what holds after any run: the invariant, when the final score shows,
  and how far the score can go.
- `content_view.dfy` (module `App`): the root `ContentView`. It holds the
  settings, switches to the quiz on "Start Quiz" and back on "New Game".

The Submit button stays enabled after the final score is shown
(`ContentView.swift:84-86`). Each later submission grades the same question
again and can add a point. The code never caps the score at questionCount and
never disables Submit, so the model bounds the score by the number of
submissions, not by the question count.
`QuizRuns.ScoreCanExceedQuestionCount` shows a run that ends with
questionCount + 1 points. Before the final score shows, the score is at most
the number of questions already answered (`Quiz.Inv`). The settings have no
validating constructor: the steppers only offer in-range values, so the model
takes those ranges as preconditions (`Quiz.ValidConfig`).

## Model

| member | source | states |
|---|---|---|
| `SwiftInt.ParseInt` | MathQuizzler/ContentView.swift:108 | `Int(currentAnswer)`: the empty string gives nil, and any value returned lies in the 64-bit `Int` range |
| `SwiftInt.DecimalValue` | MathQuizzler/ContentView.swift:108 | reading back the decimal spelling of `n` gives `n` |
| `SwiftInt.ParseDecimal` | MathQuizzler/ContentView.swift:108 | `Int` parses the decimal spelling of every representable natural, with or without a sign |
| `SwiftInt.LeadingZeroParse` | MathQuizzler/ContentView.swift:108 | `Int` accepts leading zeros: a "0" in front of a digit string does not change what it parses to |
| `SwiftInt.ParseDigitsMatches` | MathQuizzler/ContentView.swift:108 | on a digit-only answer, `Int(answer) == p` holds exactly when the answer is non-empty and its unbounded decimal value is `p` |
| `Keypad.KeyPressed` | MathQuizzler/ContentView.swift:153-163 | "←" removes the last character of a non-empty text and leaves an empty one alone; "✔" leaves the text unchanged; any other key is appended |
| `Keypad.KeyAlphabet` | MathQuizzler/ContentView.swift:124-129 | a key is on the keypad exactly when it is "←", "✔" or a single decimal digit |
| `Keypad.PressKeepsDigits` | MathQuizzler/ContentView.swift:153-163 | pressing any keypad key keeps an answer made only of digits so |
| `Keypad.DeleteUndoesDigit` | MathQuizzler/ContentView.swift:155-161 | "←" right after a digit key restores the text from before the digit |
| `Quiz.Generated` | MathQuizzler/ContentView.swift:102-105 | `generateQuestion` sets the first operand to the table and the second to the draw, and changes no other field |
| `Quiz.Appeared` | MathQuizzler/ContentView.swift:55-60 | after appearing, the screen has score 0, question 1, an empty answer, no final score, first operand = table and second operand in 0..12; with valid settings it satisfies the invariant (question in 1..questionCount, first operand = table, second in 0..12, digit-only answer, score ≤ question − 1 until the final score shows) |
| `Quiz.Checked` | MathQuizzler/ContentView.swift:107-117 | `checkAnswer` adds 1 to the score exactly when the answer is right, always clears the answer, and then either moves to the next question with a new draw or keeps question and operands and shows the final score |
| `Quiz.CheckedInv` | MathQuizzler/ContentView.swift:107-117 | a submission keeps that invariant |
| `Quiz.CheckedScoresIff` | MathQuizzler/ContentView.swift:108-110 | a submission scores exactly when the digit answer is non-empty and spells the product; an empty answer never scores |
| `Quiz.TypedProductScores` | MathQuizzler/ContentView.swift:108-110 | submitting the decimal spelling of the product always scores |
| `Quiz.QuizView.constructor` | MathQuizzler/ContentView.swift:50-60 | the screen starts with the chosen settings and the appeared state, and satisfies the invariant |
| `Quiz.QuizView.GenerateQuestion` | MathQuizzler/ContentView.swift:102-105 | updates the fields in place as `Generated` says and keeps the invariant |
| `Quiz.QuizView.CheckAnswer` | MathQuizzler/ContentView.swift:107-117 | updates the fields in place as `Checked` says and keeps the invariant |
| `Quiz.QuizView.HandleKeyPress` | MathQuizzler/ContentView.swift:153-163 | edits the answer as `KeyPressed` says, leaves every other field alone, and keeps the invariant |
| `QuizRuns.RunInv` | MathQuizzler/ContentView.swift:107-117 | every run of keypad presses, submissions and re-appearances keeps the invariant |
| `QuizRuns.ScoreBoundedBySubmissions` | MathQuizzler/ContentView.swift:107-117 | over any run the score never falls and grows by at most the number of submissions |
| `QuizRuns.RunProgress` | MathQuizzler/ContentView.swift:112-117 | each submission moves to the next question until the last one; the final score shows once a submission is made on the last question and is never hidden again |
| `QuizRuns.FinalScoreAfterQuestionCount` | MathQuizzler/ContentView.swift:112-117 | from appearance, the final score shows exactly when questionCount submissions have been made, the question number is min(1 + submissions, questionCount), and the score is at most the number of submissions |
| `QuizRuns.TypedRun` | MathQuizzler/ContentView.swift:153-163 | typing digits on the keypad appends exactly those digits to the answer |
| `QuizRuns.SubmitDecimal` | MathQuizzler/ContentView.swift:107-117 | submitting the spelling of `x` scores exactly when `x` is the product, for any next draw; the answer ends empty, the invariant holds, and before the last question the next question has the drawn operand |
| `QuizRuns.RoundScore` | MathQuizzler/ContentView.swift:107-117 | typing any digit answer and submitting, with any next draw, scores exactly when the answer is non-empty and spells the product, adds at most 1, empties the answer and keeps the invariant |
| `QuizRuns.GameScore` | MathQuizzler/ContentView.swift:107-117 | the score of a game is the number of right answers submitted, whatever operands are drawn and however many submissions there are |
| `QuizRuns.AllRightGame` | MathQuizzler/ContentView.swift:107-117 | answering all questionCount questions right, whatever operands are drawn, ends with the final score shown and equal to questionCount |
| `QuizRuns.OneWrongGame` | MathQuizzler/ContentView.swift:107-117 | missing any one of the questionCount questions, whatever operands are drawn, ends with the final score shown and equal to questionCount − 1 |
| `QuizRuns.ScoreCanExceedQuestionCount` | MathQuizzler/ContentView.swift:84-86 | because Submit stays enabled, questionCount + 1 right submissions, whatever operands are drawn, end with the score questionCount + 1 |
| `App.ContentView.constructor` | MathQuizzler/ContentView.swift:4-6 | the app starts on the settings screen with table 2 and 10 questions, inside the steppers' ranges |
| `App.ContentView.ChooseSettings` | MathQuizzler/ContentView.swift:30-34 | the steppers store a table in 0..12 and a count in {5, 10, 15, 20} |
| `App.ContentView.StartGame` | MathQuizzler/ContentView.swift:9-16 | "Start Quiz" makes the quiz active and shows a fresh quiz screen with the current settings, in the appeared state |
| `App.ContentView.GameEnded` | MathQuizzler/ContentView.swift:90-95 | "New Game", offered only once the final score shows, discards the quiz screen, returns to the settings screen and keeps the settings |

## Left out

- SwiftUI layout, fonts, colours, `NavigationStack`, `Form` and `#Preview` are presentation only.
- `Int.random(in: 0...12)` is a `draw` parameter constrained to 0..12. Its uniform distribution is not modelled.
- SwiftUI's `onAppear` is the constructor calling `GenerateQuestion`; a later re-appearance is the `Appear` event of `QuizRuns`. When SwiftUI fires `onAppear` is not modelled.
- Stepper widget behaviour is not modelled. Only its ranges are kept, as preconditions of `ChooseSettings` and the quiz constructor.
- `SwiftInt.ParseInt` models `Int` on 64-bit platforms only.
- `Quiz.QuizView.CheckAnswer` does not model the trap Swift raises when `score += 1` overflows `Int`. That would need 2^63 submissions, and the score is an unbounded integer here.
- `Keypad.KeyPressed` removes one Unicode scalar where Swift's `removeLast` removes one grapheme cluster. The two agree on every text the keypad can type: its keys are single scalars and the answer holds only digits.
- The `@Binding` that shares `currentAnswer` between `QuizView` and `NumericKeypad` is not modelled as aliasing. The keypad's edit is the method `QuizView.HandleKeyPress` on the quiz's own field.
- `QuizRuns.GameScore`, `QuizRuns.AllRightGame`, `QuizRuns.OneWrongGame` and `QuizRuns.ScoreCanExceedQuestionCount` type a wrong answer as the product plus one. Any other wrong digit answer is covered one submission at a time by `QuizRuns.RoundScore`.
