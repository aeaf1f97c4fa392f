/** The quiz screen (`QuizView`): its state, the question generator and the
    grading step run by the Submit button. */
module Quiz {
  import opened SwiftInt
  import opened Keypad

  /** The settings a quiz is started with. */
  datatype Config = Config(selectedTable: int, questionCount: int)

  /** The ranges the settings screen's steppers allow: a table from 0 to 12 and
      5, 10, 15 or 20 questions. */
  predicate ValidConfig(cfg: Config) {
    0 <= cfg.selectedTable <= 12 && cfg.questionCount in {5, 10, 15, 20}
  }

  /** The quiz screen's state fields, as one value. */
  datatype Snapshot = Snapshot(
    score: int,
    currentQuestion: int,
    currentAnswer: string,
    firstNumber: int,
    secondNumber: int,
    showFinalScore: bool)

  /** A value `Int.random(in: 0...12)` can return. */
  predicate IsDraw(draw: int) { 0 <= draw <= 12 }

  /** The state before the screen appears: the fields' initial values. */
  function Initial(): (s: Snapshot) {
    Snapshot(0, 1, "", 0, 0, false)
  }

  /** The question the screen asks: the table times the drawn operand. */
  function Product(s: Snapshot): (p: int) { s.firstNumber * s.secondNumber }

  /** The typed answer is right: `Int(currentAnswer)` equals the product. */
  predicate IsCorrect(s: Snapshot) {
    ParseInt(s.currentAnswer) == Some(Product(s))
  }

  /** `generateQuestion`: the first operand becomes the table, the second the
      random draw, and nothing else changes. */
  function Generated(s: Snapshot, table: int, draw: int): (r: Snapshot)
    ensures r.firstNumber == table && r.secondNumber == draw
    ensures r.(firstNumber := s.firstNumber, secondNumber := s.secondNumber) == s
  {
    s.(firstNumber := table, secondNumber := draw)
  }

  /** The screen on appearing: the initial fields with a first question drawn. */
  function Appeared(cfg: Config, draw: int): (r: Snapshot)
    requires IsDraw(draw)
    ensures r.score == 0 && r.currentQuestion == 1 && r.currentAnswer == []
    ensures !r.showFinalScore
    ensures r.firstNumber == cfg.selectedTable && IsDraw(r.secondNumber)
    ensures ValidConfig(cfg) ==> Inv(cfg, r)
  {
    Generated(Initial(), cfg.selectedTable, draw)
  }

  /** `checkAnswer`: a right answer scores one point, the answer is cleared,
      then either the next question is drawn or, on the last question, the
      final score is shown. The last branch is taken again by every later
      submission, on the same question. */
  function Checked(cfg: Config, s: Snapshot, draw: int): (r: Snapshot)
    ensures r.score == if IsCorrect(s) then s.score + 1 else s.score
    ensures r.currentAnswer == []
    ensures s.currentQuestion < cfg.questionCount ==>
      r.currentQuestion == s.currentQuestion + 1 &&
      r.firstNumber == cfg.selectedTable && r.secondNumber == draw &&
      r.showFinalScore == s.showFinalScore
    ensures s.currentQuestion >= cfg.questionCount ==>
      r.currentQuestion == s.currentQuestion &&
      r.firstNumber == s.firstNumber && r.secondNumber == s.secondNumber &&
      r.showFinalScore
  {
    var graded := if IsCorrect(s) then s.(score := s.score + 1) else s;
    var cleared := graded.(currentAnswer := "");
    if cleared.currentQuestion < cfg.questionCount then
      Generated(cleared.(currentQuestion := cleared.currentQuestion + 1), cfg.selectedTable, draw)
    else
      cleared.(showFinalScore := true)
  }

  /** What holds of the screen's state in every reachable moment. */
  predicate Inv(cfg: Config, s: Snapshot) {
    && 1 <= s.currentQuestion <= cfg.questionCount
    && s.firstNumber == cfg.selectedTable
    && IsDraw(s.secondNumber)
    && AllDigits(s.currentAnswer)
    && 0 <= s.score
    && (!s.showFinalScore ==> s.score <= s.currentQuestion - 1)
    && (s.showFinalScore ==> s.currentQuestion == cfg.questionCount)
  }

  /** Grading keeps the invariant. */
  lemma CheckedInv(cfg: Config, s: Snapshot, draw: int)
    requires Inv(cfg, s) && IsDraw(draw)
    ensures Inv(cfg, Checked(cfg, s, draw))
  {
  }

  /** On a digit-only answer, the point is scored exactly when the answer is
      non-empty and its decimal value is the product; an empty answer is
      graded wrong. */
  lemma CheckedScoresIff(cfg: Config, s: Snapshot, draw: int)
    requires Inv(cfg, s) && ValidConfig(cfg) && IsDraw(draw)
    ensures Checked(cfg, s, draw).score == s.score + 1 <==>
      s.currentAnswer != [] && DigitsValue(s.currentAnswer) == Product(s)
    ensures s.currentAnswer == [] ==> Checked(cfg, s, draw).score == s.score
  {
  }

  /** Typing the decimal spelling of the product, then submitting, scores. */
  lemma TypedProductScores(cfg: Config, s: Snapshot, draw: int)
    requires Inv(cfg, s) && ValidConfig(cfg) && IsDraw(draw)
    requires s.currentAnswer == Decimal(Product(s))
    ensures Checked(cfg, s, draw).score == s.score + 1
  {
    ParseDecimal(Product(s));
  }

  class QuizView {
    const selectedTable: int
    const questionCount: int

    var score: int
    var currentQuestion: int
    var currentAnswer: string
    var firstNumber: int
    var secondNumber: int
    var showFinalScore: bool

    function Settings(): Config {
      Config(selectedTable, questionCount)
    }

    function State(): Snapshot
      reads this
    {
      Snapshot(score, currentQuestion, currentAnswer, firstNumber, secondNumber, showFinalScore)
    }

    ghost predicate Valid()
      reads this
    {
      ValidConfig(Settings()) && Inv(Settings(), State())
    }

    /** The screen is created with the chosen settings and, on appearing,
        draws its first question. */
    constructor (selectedTable: int, questionCount: int, draw: int)
      requires ValidConfig(Config(selectedTable, questionCount)) && IsDraw(draw)
      ensures this.selectedTable == selectedTable && this.questionCount == questionCount
      ensures State() == Appeared(Settings(), draw)
      ensures Valid()
    {
      this.selectedTable := selectedTable;
      this.questionCount := questionCount;
      score := 0;
      currentQuestion := 1;
      currentAnswer := "";
      firstNumber := 0;
      secondNumber := 0;
      showFinalScore := false;
      new;
      GenerateQuestion(draw);
    }

    /** `generateQuestion`, with the random operand passed in as `draw`. */
    method GenerateQuestion(draw: int)
      requires IsDraw(draw)
      modifies this
      ensures State() == Generated(old(State()), selectedTable, draw)
      ensures old(Valid()) ==> Valid()
    {
      firstNumber := selectedTable;
      secondNumber := draw;
    }

    /** `checkAnswer`, run by the Submit button; `draw` is the operand the next
        question would get. */
    method CheckAnswer(draw: int)
      requires Valid() && IsDraw(draw)
      modifies this
      ensures State() == Checked(Settings(), old(State()), draw)
      ensures Valid()
    {
      ghost var before := State();
      if ParseInt(currentAnswer) == Some(firstNumber * secondNumber) {
        score := score + 1;
      }
      currentAnswer := "";
      if currentQuestion < questionCount {
        currentQuestion := currentQuestion + 1;
        GenerateQuestion(draw);
      } else {
        showFinalScore := true;
      }
      CheckedInv(Settings(), before, draw);
    }

    /** `NumericKeypad.handleKeyPress` acting, through its binding, on the
        answer text. */
    method HandleKeyPress(key: string)
      requires Valid() && IsKey(key)
      modifies this
      ensures State() == old(State()).(currentAnswer := KeyPressed(old(currentAnswer), key))
      ensures Valid()
    {
      PressKeepsDigits(currentAnswer, key);
      if key == Delete {
        if currentAnswer != [] {
          currentAnswer := currentAnswer[..|currentAnswer| - 1];
        }
      } else if key == Confirm {
      } else {
        currentAnswer := currentAnswer + key;
      }
    }
  }
}
