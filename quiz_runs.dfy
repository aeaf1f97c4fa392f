/** Runs of the quiz screen: what a sequence of key presses and submissions
    does to its state, and what holds of every run. */
module QuizRuns {
  import opened SwiftInt
  import opened Keypad
  import opened Quiz

  /** What happens on the quiz screen: a keypad button, the Submit button
      together with the operand the random generator would draw next, or the
      screen appearing again, which draws a new question. */
  datatype Event = Press(key: string) | Submit(draw: int) | Appear(draw: int)

  predicate ValidEvent(e: Event) {
    match e
    case Press(key) => IsKey(key)
    case Submit(draw) => IsDraw(draw)
    case Appear(draw) => IsDraw(draw)
  }

  predicate ValidEvents(evs: seq<Event>) {
    forall i :: 0 <= i < |evs| ==> ValidEvent(evs[i])
  }

  function Apply(cfg: Config, s: Snapshot, e: Event): (r: Snapshot) {
    match e
    case Press(key) => s.(currentAnswer := KeyPressed(s.currentAnswer, key))
    case Submit(draw) => Checked(cfg, s, draw)
    case Appear(draw) => Generated(s, cfg.selectedTable, draw)
  }

  /** The state after the events, in order. */
  function Run(cfg: Config, s: Snapshot, evs: seq<Event>): (r: Snapshot)
    decreases |evs|
  {
    if evs == [] then s else Run(cfg, Apply(cfg, s, evs[0]), evs[1..])
  }

  /** How many times Submit was pressed. */
  function Submissions(evs: seq<Event>): (n: nat)
    decreases |evs|
  {
    if evs == [] then 0 else (if evs[0].Submit? then 1 else 0) + Submissions(evs[1..])
  }

  function Min(a: int, b: int): (m: int) { if a <= b then a else b }

  lemma {:induction false} RunAppend(cfg: Config, s: Snapshot, a: seq<Event>, b: seq<Event>)
    ensures Run(cfg, s, a + b) == Run(cfg, Run(cfg, s, a), b)
    decreases |a|
  {
    if a != [] {
      assert (a + b)[1..] == a[1..] + b;
      RunAppend(cfg, Apply(cfg, s, a[0]), a[1..], b);
    } else {
      assert a + b == b;
    }
  }

  lemma {:induction false} SubmissionsAppend(a: seq<Event>, b: seq<Event>)
    ensures Submissions(a + b) == Submissions(a) + Submissions(b)
    decreases |a|
  {
    if a != [] {
      assert (a + b)[1..] == a[1..] + b;
      SubmissionsAppend(a[1..], b);
    } else {
      assert a + b == b;
    }
  }

  /** Every run of valid events keeps the screen's invariant: the question
      number stays within 1..questionCount, the operands within range, the
      answer made of digits, and the score at most the questions answered
      before the final score shows. */
  lemma {:induction false} RunInv(cfg: Config, s: Snapshot, evs: seq<Event>)
    requires Inv(cfg, s) && ValidEvents(evs)
    ensures Inv(cfg, Run(cfg, s, evs))
    decreases |evs|
  {
    if evs != [] {
      assert ValidEvent(evs[0]);
      match evs[0] {
        case Press(key) => PressKeepsDigits(s.currentAnswer, key);
        case Submit(draw) => CheckedInv(cfg, s, draw);
        case Appear(draw) =>
      }
      assert ValidEvents(evs[1..]) by {
        forall i | 0 <= i < |evs[1..]| ensures ValidEvent(evs[1..][i]) {
          assert evs[1..][i] == evs[i + 1];
        }
      }
      RunInv(cfg, Apply(cfg, s, evs[0]), evs[1..]);
    }
  }

  /** The score never grows by more than the number of submissions, however
      many there are. */
  lemma {:induction false} ScoreBoundedBySubmissions(cfg: Config, s: Snapshot, evs: seq<Event>)
    ensures s.score <= Run(cfg, s, evs).score <= s.score + Submissions(evs)
    decreases |evs|
  {
    if evs != [] {
      ScoreBoundedBySubmissions(cfg, Apply(cfg, s, evs[0]), evs[1..]);
    }
  }

  /** Each submission moves to the next question until the last one; the
      final score shows once a submission is made on the last question, and
      it is never hidden again. */
  lemma {:induction false} RunProgress(cfg: Config, s: Snapshot, evs: seq<Event>)
    requires 1 <= s.currentQuestion <= cfg.questionCount
    requires s.showFinalScore ==> s.currentQuestion == cfg.questionCount
    ensures Run(cfg, s, evs).currentQuestion ==
      Min(s.currentQuestion + Submissions(evs), cfg.questionCount)
    ensures Run(cfg, s, evs).showFinalScore <==>
      s.showFinalScore || s.currentQuestion + Submissions(evs) > cfg.questionCount
    decreases |evs|
  {
    if evs != [] {
      RunProgress(cfg, Apply(cfg, s, evs[0]), evs[1..]);
    }
  }

  /** From the moment the screen appears, the final score shows exactly when
      questionCount submissions have been made; before that the score is at
      most the number of submissions. */
  lemma FinalScoreAfterQuestionCount(cfg: Config, draw: int, evs: seq<Event>)
    requires ValidConfig(cfg) && IsDraw(draw)
    ensures Run(cfg, Appeared(cfg, draw), evs).showFinalScore <==>
      Submissions(evs) >= cfg.questionCount
    ensures Run(cfg, Appeared(cfg, draw), evs).currentQuestion ==
      Min(1 + Submissions(evs), cfg.questionCount)
    ensures Run(cfg, Appeared(cfg, draw), evs).score <= Submissions(evs)
  {
    RunProgress(cfg, Appeared(cfg, draw), evs);
    ScoreBoundedBySubmissions(cfg, Appeared(cfg, draw), evs);
  }

  /** The key presses that type `text`. */
  function Typed(text: string): (evs: seq<Event>)
    requires AllDigits(text)
    ensures ValidEvents(evs) && Submissions(evs) == 0
    decreases |text|
  {
    if text == [] then []
    else
      KeyAlphabet([text[0]]);
      [Press([text[0]])] + Typed(text[1..])
  }

  /** Typing digits on the keypad appends them to the answer. */
  lemma {:induction false} TypedRun(cfg: Config, s: Snapshot, text: string)
    requires AllDigits(text)
    ensures Run(cfg, s, Typed(text)) == s.(currentAnswer := s.currentAnswer + text)
    decreases |text|
  {
    if text != [] {
      var t := s.(currentAnswer := s.currentAnswer + [text[0]]);
      TypedRun(cfg, t, text[1..]);
      assert t.currentAnswer + text[1..] == s.currentAnswer + text;
    }
  }

  /** One question answered: type `text` on the keypad, then press Submit;
      `draw` is what the generator returns for the next question. */
  function Round(text: string, draw: int): (evs: seq<Event>)
    requires AllDigits(text) && IsDraw(draw)
    ensures ValidEvents(evs) && Submissions(evs) == 1
  {
    SubmissionsAppend(Typed(text), [Submit(draw)]);
    Typed(text) + [Submit(draw)]
  }

  lemma ProductBound(a: int, b: int)
    requires 0 <= a <= 12 && 0 <= b <= 12
    ensures 0 <= a * b <= 144
  {
  }

  /** Submitting the decimal spelling of `x` scores exactly when `x` is the
      product; the answer ends empty, and before the last question the next
      question has the drawn operand. */
  lemma SubmitDecimal(cfg: Config, s: Snapshot, draw: int, x: nat)
    requires IsDraw(draw) && Inv(cfg, s)
    requires x <= MaxInt && s.currentAnswer == Decimal(x)
    ensures var t := Checked(cfg, s, draw);
      t.score == s.score + (if x == Product(s) then 1 else 0) &&
      t.currentAnswer == [] && Inv(cfg, t) &&
      (s.currentQuestion < cfg.questionCount ==> t.secondNumber == draw)
  {
    ParseDecimal(x);
    CheckedInv(cfg, s, draw);
  }

  /** A round with any digit answer scores exactly when the answer is
      non-empty and spells the product, whatever the next draw is; it leaves
      the answer empty and keeps the invariant. */
  lemma RoundScore(cfg: Config, s: Snapshot, text: string, draw: int)
    requires ValidConfig(cfg) && IsDraw(draw) && Inv(cfg, s)
    requires AllDigits(text) && s.currentAnswer == []
    ensures var t := Run(cfg, s, Round(text, draw));
      (t.score == s.score + 1 <==> text != [] && DigitsValue(text) == Product(s)) &&
      (t.score == s.score || t.score == s.score + 1) &&
      t.currentAnswer == [] && Inv(cfg, t)
  {
    var typed := s.(currentAnswer := text);
    assert Run(cfg, s, Typed(text)) == typed by {
      TypedRun(cfg, s, text);
      assert s.currentAnswer + text == text;
    }
    assert Run(cfg, s, Round(text, draw)) == Run(cfg, typed, [Submit(draw)]) by {
      RunAppend(cfg, s, Typed(text), [Submit(draw)]);
    }
    assert Run(cfg, typed, [Submit(draw)]) == Checked(cfg, typed, draw);
    CheckedInv(cfg, typed, draw);
    ProductBound(s.firstNumber, s.secondNumber);
    ParseDigitsMatches(text, Product(s));
  }

  /** The player's plan for one question: answer right or wrong, and the
      operand the generator will draw for the next question. */
  datatype Attempt = Attempt(right: bool, draw: int)

  predicate DrawsInRange(plan: seq<Attempt>) {
    forall i :: 0 <= i < |plan| ==> IsDraw(plan[i].draw)
  }

  /** What the player types: the spelling of the product for a right answer,
      of the product plus one for a wrong one. */
  function AnswerText(s: Snapshot, right: bool): (text: string)
    requires 0 <= Product(s) <= 144
    ensures text != [] && AllDigits(text)
    ensures DigitsValue(text) == Product(s) <==> right
  {
    DecimalValue(if right then Product(s) else Product(s) + 1);
    Decimal(if right then Product(s) else Product(s) + 1)
  }

  /** The events of a game played from `s` by the plan: each question is
      answered as planned, whatever operands the generator draws. */
  function Game(cfg: Config, s: Snapshot, plan: seq<Attempt>): (evs: seq<Event>)
    requires ValidConfig(cfg) && Inv(cfg, s) && s.currentAnswer == [] && DrawsInRange(plan)
    ensures ValidEvents(evs) && Submissions(evs) == |plan|
    decreases |plan|
  {
    if plan == [] then []
    else
      ProductBound(s.firstNumber, s.secondNumber);
      var text := AnswerText(s, plan[0].right);
      var r := Round(text, plan[0].draw);
      RoundScore(cfg, s, text, plan[0].draw);
      var rest := Game(cfg, Run(cfg, s, r), plan[1..]);
      SubmissionsAppend(r, rest);
      r + rest
  }

  function CountRight(plan: seq<Attempt>): (n: nat)
    decreases |plan|
  {
    if plan == [] then 0 else (if plan[0].right then 1 else 0) + CountRight(plan[1..])
  }

  /** The score of a game is the number of right answers submitted, whatever
      the draws and however many submissions there are. */
  lemma {:induction false} GameScore(cfg: Config, s: Snapshot, plan: seq<Attempt>)
    requires ValidConfig(cfg) && Inv(cfg, s) && s.currentAnswer == [] && DrawsInRange(plan)
    ensures Run(cfg, s, Game(cfg, s, plan)).score == s.score + CountRight(plan)
    decreases |plan|
  {
    if plan != [] {
      ProductBound(s.firstNumber, s.secondNumber);
      var text := AnswerText(s, plan[0].right);
      var r := Round(text, plan[0].draw);
      RoundScore(cfg, s, text, plan[0].draw);
      var t := Run(cfg, s, r);
      RunAppend(cfg, s, r, Game(cfg, t, plan[1..]));
      GameScore(cfg, t, plan[1..]);
    }
  }

  lemma {:induction false} CountAllRight(plan: seq<Attempt>)
    requires forall i :: 0 <= i < |plan| ==> plan[i].right
    ensures CountRight(plan) == |plan|
    decreases |plan|
  {
    if plan != [] {
      CountAllRight(plan[1..]);
    }
  }

  lemma {:induction false} CountOneMissed(plan: seq<Attempt>, missed: nat)
    requires missed < |plan|
    requires forall i :: 0 <= i < |plan| ==> plan[i].right == (i != missed)
    ensures CountRight(plan) == |plan| - 1
    decreases |plan|
  {
    if missed == 0 {
      CountAllRight(plan[1..]);
    } else {
      CountOneMissed(plan[1..], missed - 1);
    }
  }

  /** Answering every question right from the moment the screen appears
      ends with the final score equal to questionCount, whatever the draws. */
  lemma {:induction false} AllRightGame(cfg: Config, draw: int, plan: seq<Attempt>)
    requires ValidConfig(cfg) && IsDraw(draw) && DrawsInRange(plan)
    requires |plan| == cfg.questionCount && forall i :: 0 <= i < |plan| ==> plan[i].right
    ensures var start := Appeared(cfg, draw);
      var t := Run(cfg, start, Game(cfg, start, plan));
      t.showFinalScore && t.score == cfg.questionCount
  {
    var start := Appeared(cfg, draw);
    GameScore(cfg, start, plan);
    CountAllRight(plan);
    FinalScoreAfterQuestionCount(cfg, draw, Game(cfg, start, plan));
  }

  /** Missing one question, whichever it is, ends with questionCount - 1. */
  lemma {:induction false} OneWrongGame(cfg: Config, draw: int, plan: seq<Attempt>, missed: nat)
    requires ValidConfig(cfg) && IsDraw(draw) && DrawsInRange(plan)
    requires |plan| == cfg.questionCount && missed < |plan|
    requires forall i :: 0 <= i < |plan| ==> plan[i].right == (i != missed)
    ensures var start := Appeared(cfg, draw);
      var t := Run(cfg, start, Game(cfg, start, plan));
      t.showFinalScore && t.score == cfg.questionCount - 1
  {
    var start := Appeared(cfg, draw);
    GameScore(cfg, start, plan);
    CountOneMissed(plan, missed);
    FinalScoreAfterQuestionCount(cfg, draw, Game(cfg, start, plan));
  }

  /** Submit stays enabled after the final score shows, so one more right
      answer pushes the score past questionCount. */
  lemma {:induction false} ScoreCanExceedQuestionCount(cfg: Config, draw: int, plan: seq<Attempt>)
    requires ValidConfig(cfg) && IsDraw(draw) && DrawsInRange(plan)
    requires |plan| == cfg.questionCount + 1 && forall i :: 0 <= i < |plan| ==> plan[i].right
    ensures var start := Appeared(cfg, draw);
      var t := Run(cfg, start, Game(cfg, start, plan));
      t.showFinalScore && t.score == cfg.questionCount + 1
  {
    var start := Appeared(cfg, draw);
    GameScore(cfg, start, plan);
    CountAllRight(plan);
    FinalScoreAfterQuestionCount(cfg, draw, Game(cfg, start, plan));
  }
}
