/** The root screen (`ContentView`): the settings it keeps and the switch
    between the settings screen and a running quiz. */
module App {
  import opened Quiz

  class ContentView {
    var isGameActive: bool
    var selectedTable: int
    var questionCount: int
    /** The quiz screen on show while a game is active; SwiftUI discards it,
        with its state, when the settings screen returns. */
    var quiz: QuizView?

    /** The settings always lie in the steppers' ranges, and a quiz screen is
        on show, created with those settings, exactly while a game is active. */
    ghost predicate Valid()
      reads this
    {
      && ValidConfig(Config(selectedTable, questionCount))
      && (isGameActive <==> quiz != null)
      && (quiz != null ==> quiz.Settings() == Config(selectedTable, questionCount))
    }

    /** The settings screen first shows table 2 and 10 questions. */
    constructor ()
      ensures !isGameActive && selectedTable == 2 && questionCount == 10
      ensures Valid()
    {
      isGameActive := false;
      selectedTable := 2;
      questionCount := 10;
      quiz := null;
    }

    /** The steppers write the chosen table and question count through their
        bindings; they only offer values in their ranges. */
    method ChooseSettings(table: int, count: int)
      requires Valid() && !isGameActive && ValidConfig(Config(table, count))
      modifies this
      ensures !isGameActive && selectedTable == table && questionCount == count
      ensures Valid()
    {
      selectedTable := table;
      questionCount := count;
    }

    /** "Start Quiz": the quiz screen replaces the settings, is created with the
        current settings and draws its first question as it appears. */
    method StartGame(draw: int)
      requires Valid() && !isGameActive && IsDraw(draw)
      modifies this
      ensures isGameActive && Valid()
      ensures selectedTable == old(selectedTable) && questionCount == old(questionCount)
      ensures quiz != null && fresh(quiz) && quiz.Valid()
      ensures quiz.State() == Appeared(Config(selectedTable, questionCount), draw)
    {
      isGameActive := true;
      quiz := new QuizView(selectedTable, questionCount, draw);
    }

    /** "New Game", which the quiz screen only shows with the final score,
        returns to the settings, which keep their values. */
    method GameEnded()
      requires Valid() && isGameActive && quiz != null && quiz.showFinalScore
      modifies this
      ensures !isGameActive && quiz == null && Valid()
      ensures selectedTable == old(selectedTable) && questionCount == old(questionCount)
    {
      isGameActive := false;
      quiz := null;
    }
  }
}
