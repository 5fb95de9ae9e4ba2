// The quiz widget: the `QuizState` record and the handlers that update it.

module SatelliteQuizWidget {
  import opened Common
  import SatelliteAiService

  const QuizFailedMessage: string := "Failed to generate quiz question"

  const MutedColor: string := "text-muted-foreground"
  const GreenColor: string := "text-green-400"
  const YellowColor: string := "text-yellow-400"
  const RedColor: string := "text-red-400"

  /** `result.error || fallback` */
  function ErrorOr(e: Option<string>, fallback: string): (r: string)
    ensures e.Some? && e.value != "" ==> r == e.value
    ensures e.None? || e.value == "" ==> r == fallback
  {
    if e.Some? && e.value != "" then e.value else fallback
  }

  /**
   * `getScoreColor` on a score of `score` out of `total`: the percentage
   * is compared with 80 and 60.
   */
  function ScoreColor(score: int, total: int): (r: string)
    ensures total == 0 ==> r == MutedColor
    ensures total > 0 ==> (r == GreenColor <==> 5 * score >= 4 * total)
    ensures total > 0 ==> (r == YellowColor <==> 5 * score < 4 * total && 5 * score >= 3 * total)
    ensures total > 0 ==> (r == RedColor <==> 5 * score < 3 * total)
  {
    if total == 0 then MutedColor
    else
      var percentage := (score as real) / (total as real) * 100.0;
      PercentageThreshold(score, total, 80);
      PercentageThreshold(score, total, 60);
      if percentage >= 80.0 then GreenColor
      else if percentage >= 60.0 then YellowColor
      else RedColor
  }

  /** `score / total * 100 >= p` is `100 * score >= p * total` for a positive total. */
  lemma PercentageThreshold(score: int, total: int, p: int)
    ensures total > 0 ==>
      ((score as real) / (total as real) * 100.0 >= p as real <==> 100 * score >= p * total)
  {
    if total > 0 {
      var t := total as real;
      var q := (score as real) / t;
      assert q * t == score as real;
      assert (q * 100.0) * t == (score as real) * 100.0;
      if q * 100.0 >= p as real {
        assert (q * 100.0) * t >= (p as real) * t;
      } else {
        assert (q * 100.0) * t < (p as real) * t;
      }
    }
  }

  /** `getDifficultyColor` */
  function DifficultyColor(difficulty: string): (r: string)
    ensures difficulty == "easy" ==> r == "text-green-400 border-green-400/30"
    ensures difficulty == "hard" ==> r == "text-red-400 border-red-400/30"
    ensures difficulty != "easy" && difficulty != "hard" ==> r == "text-yellow-400 border-yellow-400/30"
  {
    if difficulty == "easy" then "text-green-400 border-green-400/30"
    else if difficulty == "hard" then "text-red-400 border-red-400/30"
    else "text-yellow-400 border-yellow-400/30"
  }

  class QuizWidget {
    var question: string
    var options: seq<string>
    var correctAnswer: int
    var explanation: string
    var userAnswer: Option<int>
    var showResult: bool
    var score: int
    var totalQuestions: int
    var loading: bool
    var error: Option<string>

    /** The score never exceeds the number of questions answered. */
    predicate Valid()
      reads this
    {
      0 <= score <= totalQuestions
    }

    constructor()
      ensures Valid()
      ensures question == "" && options == [] && correctAnswer == 0 && explanation == ""
      ensures userAnswer == None && !showResult && score == 0 && totalQuestions == 0
      ensures !loading && error == None
    {
      question, options, correctAnswer, explanation := "", [], 0, "";
      userAnswer, showResult, score, totalQuestions := None, false, 0, 0;
      loading, error := false, None;
    }

    /**
     * `fetchNewQuestion` once `generateSatelliteQuiz` resolved to `res`
     * (`SatelliteAiService.GenerateSatelliteQuiz` of the chat reply).
     */
    method FetchNewQuestion(res: SatelliteAiService.QuizResponse)
      requires Valid()
      modifies this
      ensures Valid()
      ensures !loading
      ensures score == old(score) && totalQuestions == old(totalQuestions)
      ensures if res.success then
          question == res.question && options == res.options && correctAnswer == res.correctAnswer
          && explanation == res.explanation && userAnswer == None && !showResult && error == None
        else
          question == old(question) && options == old(options) && correctAnswer == old(correctAnswer)
          && explanation == old(explanation) && userAnswer == old(userAnswer) && showResult == old(showResult)
          && error == Some(ErrorOr(res.error, QuizFailedMessage))
    {
      loading := true;
      error := None;
      if res.success {
        question, options, correctAnswer, explanation := res.question, res.options, res.correctAnswer, res.explanation;
        userAnswer, showResult := None, false;
      } else {
        error := Some(ErrorOr(res.error, QuizFailedMessage));
      }
      loading := false;
    }

    /** `handleAnswerSelect`: each question is scored at most once. */
    method HandleAnswerSelect(answer: int)
      requires Valid()
      modifies this
      ensures Valid()
      ensures old(showResult) ==>
        userAnswer == old(userAnswer) && showResult && score == old(score) && totalQuestions == old(totalQuestions)
      ensures !old(showResult) ==>
        userAnswer == Some(answer) && showResult && totalQuestions == old(totalQuestions) + 1
        && score == old(score) + (if answer == correctAnswer then 1 else 0)
      ensures question == old(question) && options == old(options) && correctAnswer == old(correctAnswer)
      ensures explanation == old(explanation) && loading == old(loading) && error == old(error)
    {
      if showResult {
        return;
      }
      userAnswer := Some(answer);
      showResult := true;
      if answer == correctAnswer {
        score := score + 1;
      }
      totalQuestions := totalQuestions + 1;
    }

    /** `resetScore` */
    method ResetScore()
      modifies this
      ensures Valid()
      ensures score == 0 && totalQuestions == 0
      ensures question == old(question) && options == old(options) && correctAnswer == old(correctAnswer)
      ensures explanation == old(explanation) && userAnswer == old(userAnswer) && showResult == old(showResult)
      ensures loading == old(loading) && error == old(error)
    {
      score, totalQuestions := 0, 0;
    }

    function ScoreColorNow(): (r: string)
      reads this
      ensures totalQuestions == 0 <==> r == MutedColor
    {
      ScoreColor(score, totalQuestions)
    }
  }
}
