/**
 * A user's session record: their settings and quiz, the answers they gave to
 * the last quiz, its score, and the running totals of questions attempted and
 * answered correctly. Taking a quiz, viewing the report and the stats, and
 * resetting the stats are the operations on it.
 */
module Scoring {
  import opened Questions
  import opened Configuration
  import opened Generation

  /** How many of the answers are right, question by question. */
  function CountCorrect(questions: seq<Question>, answers: seq<int>): (n: nat)
    requires |questions| == |answers|
    ensures n <= |questions|
  {
    if questions == [] then 0
    else
      var k := |questions| - 1;
      CountCorrect(questions[..k], answers[..k]) + (if Answers(questions[k], answers[k]) then 1 else 0)
  }

  /** The positions whose answer is right. */
  ghost function CorrectIndices(questions: seq<Question>, answers: seq<int>): set<int>
    requires |questions| == |answers|
  {
    set i | 0 <= i < |questions| && Answers(questions[i], answers[i])
  }

  /** The score is the number of positions whose answer is right. */
  lemma {:induction false} CountCorrectIsNumberOfIndices(questions: seq<Question>, answers: seq<int>)
    requires |questions| == |answers|
    ensures CountCorrect(questions, answers) == |CorrectIndices(questions, answers)|
  {
    if questions != [] {
      var k := |questions| - 1;
      var qs, ans := questions[..k], answers[..k];
      CountCorrectIsNumberOfIndices(qs, ans);
      var before := CorrectIndices(qs, ans);
      var now := CorrectIndices(questions, answers);
      assert now == before + (if Answers(questions[k], answers[k]) then {k} else {}) by {
        forall i ensures i in now <==> i in before || (i == k && Answers(questions[k], answers[k])) {
          if 0 <= i < k {
            assert qs[i] == questions[i] && ans[i] == answers[i];
          }
        }
      }
    }
  }

  /** The score is the full count exactly when every answer is right. */
  lemma {:induction false} FullScoreIffAllCorrect(questions: seq<Question>, answers: seq<int>)
    requires |questions| == |answers|
    ensures CountCorrect(questions, answers) == |questions| <==>
            forall i :: 0 <= i < |questions| ==> Answers(questions[i], answers[i])
  {
    if questions != [] {
      var k := |questions| - 1;
      var qs, ans := questions[..k], answers[..k];
      FullScoreIffAllCorrect(qs, ans);
      if forall i :: 0 <= i < |questions| ==> Answers(questions[i], answers[i]) {
        forall i | 0 <= i < k ensures Answers(qs[i], ans[i]) {
          assert qs[i] == questions[i] && ans[i] == answers[i];
        }
      } else if CountCorrect(questions, answers) == |questions| {
        forall i | 0 <= i < |questions| ensures Answers(questions[i], answers[i]) {
          if i < k {
            assert qs[i] == questions[i] && ans[i] == answers[i];
          }
        }
      }
    }
  }

  /** The values of the questions, the answers the report gives as correct. */
  function Results(questions: seq<Question>): (r: seq<int>)
    requires forall i :: 0 <= i < |questions| ==> Exact(questions[i])
    ensures |r| == |questions|
    ensures forall i :: 0 <= i < |r| ==> Answers(questions[i], r[i])
  {
    var r := seq(|questions|, i requires 0 <= i < |questions| => Value(questions[i]));
    assert forall i :: 0 <= i < |r| ==> Answers(questions[i], r[i]) by {
      forall i | 0 <= i < |r| ensures Answers(questions[i], r[i]) {
        AnswersIffValue(questions[i], r[i]);
      }
    }
    r
  }

  /** Answering every question with its value scores every question. */
  lemma PerfectAnswersScoreFull(questions: seq<Question>)
    requires forall i :: 0 <= i < |questions| ==> Exact(questions[i])
    ensures CountCorrect(questions, Results(questions)) == |questions|
  {
    FullScoreIffAllCorrect(questions, Results(questions));
  }

  /** The worked example [2 + 2, 10 / 5] answered [4, 3] scores 1. */
  lemma ScoringExample()
    ensures CountCorrect([Question(2, 2, Add), Question(10, 5, Div)], [4, 3]) == 1
  {
  }

  /** One entry of the report: the question, what the user entered, the correct answer. */
  datatype ReportLine = ReportLine(question: Question, entered: int, expected: int)

  datatype Report =
    | NoQuizTaken                                          // no answers recorded yet
    | Report(score: int, total: int, lines: seq<ReportLine>)

  datatype Stats =
    | NoQuizzesYet                                         // nothing attempted since the last reset
    | Stats(attempted: int, correct: int)

  /** The entries of a report with every answer recorded. */
  function ReportLines(questions: seq<Question>, answers: seq<int>): (lines: seq<ReportLine>)
    requires |questions| == |answers|
    requires forall i :: 0 <= i < |questions| ==> Exact(questions[i])
    ensures |lines| == |questions|
    ensures forall i :: 0 <= i < |lines| ==>
              && lines[i].question == questions[i] && lines[i].entered == answers[i]
              && lines[i].expected == Value(questions[i])
              && (lines[i].entered == lines[i].expected <==> Answers(questions[i], answers[i]))
  {
    var lines := seq(|questions|, i requires 0 <= i < |questions| =>
                       ReportLine(questions[i], answers[i], Value(questions[i])));
    assert forall i :: 0 <= i < |lines| ==>
             (lines[i].entered == lines[i].expected <==> Answers(questions[i], answers[i])) by {
      forall i | 0 <= i < |lines|
        ensures lines[i].entered == lines[i].expected <==> Answers(questions[i], answers[i])
      {
        AnswersIffValue(questions[i], answers[i]);
      }
    }
    lines
  }

  /** The score a report shows is the number of its entries whose answer equals the correct one. */
  lemma ReportScoreCounts(questions: seq<Question>, answers: seq<int>)
    requires |questions| == |answers|
    requires forall i :: 0 <= i < |questions| ==> Exact(questions[i])
    ensures var lines := ReportLines(questions, answers);
            CountCorrect(questions, answers) ==
            |set i | 0 <= i < |lines| && lines[i].entered == lines[i].expected|
  {
    var lines := ReportLines(questions, answers);
    CountCorrectIsNumberOfIndices(questions, answers);
    assert (set i | 0 <= i < |lines| && lines[i].entered == lines[i].expected) ==
           CorrectIndices(questions, answers);
  }

  /**
   * The question loop of a quiz: each question in turn gets the user's answer,
   * which is recorded and, when it equals the question's result, scored.
   */
  method AskQuestions(questions: seq<Question>, respond: (nat, Question) -> int)
    returns (answers: seq<int>, score: nat)
    ensures |answers| == |questions|
    ensures forall i :: 0 <= i < |answers| ==> answers[i] == respond(i, questions[i])
    ensures score == CountCorrect(questions, answers)
  {
    answers, score := [], 0;
    for i := 0 to |questions|
      invariant |answers| == i
      invariant forall k :: 0 <= k < i ==> answers[k] == respond(k, questions[k])
      invariant score == CountCorrect(questions[..i], answers)
    {
      var userInput := respond(i, questions[i]);
      if Answers(questions[i], userInput) {
        score := score + 1;
      }
      assert questions[..i + 1][..i] == questions[..i];
      assert (answers + [userInput])[..i] == answers;
      answers := answers + [userInput];
    }
    assert questions[..|questions|] == questions;
  }

  class Session {
    var settings: Settings
    var quiz: Quiz
    var userAnswers: seq<int>
    var score: int
    var numAttempted: int
    var numCorrect: int

    /**
     * The quiz reads the session's own settings; the recorded answers are
     * either none or one per question, and then the score is theirs; no more
     * questions are counted correct than were attempted.
     */
    ghost predicate Valid()
      reads this, settings, quiz
    {
      && settings.Valid()
      && quiz.settings == settings
      && quiz.Valid()
      && (userAnswers != [] ==>
            |userAnswers| == |quiz.questions| && score == CountCorrect(quiz.questions, userAnswers))
      && 0 <= score <= |quiz.questions|
      && 0 <= numCorrect <= numAttempted
    }

    /** A new user's record: default settings, an empty quiz, no answers, all counters zero. */
    constructor ()
      ensures Valid() && fresh(settings) && fresh(quiz)
      ensures settings.Snapshot() == Config(10, 10, AllowedOperations, false)
      ensures quiz.questions == [] && userAnswers == []
      ensures score == 0 && numAttempted == 0 && numCorrect == 0
    {
      var defaults := new Settings();
      settings := defaults;
      quiz := new Quiz(defaults);
      userAnswers := [];
      score := 0;
      numAttempted := 0;
      numCorrect := 0;
    }

    /**
     * Generates a new quiz from the settings and puts every question to the
     * user in order; respond(i, q) is the integer the user enters for the
     * i-th question q. Records the answers and the score and adds them to
     * the running totals.
     */
    method Start(respond: (nat, Question) -> int)
      requires Valid()
      modifies this, quiz
      ensures Valid()
      ensures settings == old(settings) && quiz == old(quiz)
      ensures |quiz.questions| == settings.numQuestions
      ensures forall i :: 0 <= i < |quiz.questions| ==> Generable(settings.Snapshot(), quiz.questions[i])
      ensures |userAnswers| == |quiz.questions|
      ensures forall i :: 0 <= i < |userAnswers| ==> userAnswers[i] == respond(i, quiz.questions[i])
      ensures score == CountCorrect(quiz.questions, userAnswers)
      ensures numCorrect == old(numCorrect) + score
      ensures numAttempted == old(numAttempted) + |quiz.questions|
    {
      userAnswers := [];
      quiz.UpdateSettings(settings);
      quiz.GenerateQuiz();
      var questions := quiz.questions;
      var answers, total := AskQuestions(questions, respond);
      userAnswers := answers;
      score := total;
      numCorrect := numCorrect + total;
      numAttempted := numAttempted + |questions|;
    }

    /**
     * The report of the last quiz: nothing before any answer is recorded;
     * otherwise the score over the number of questions and one entry per
     * question, in order, whose count of right answers is the score.
     */
    function ViewReport(): (r: Report)
      reads this, settings, quiz
      requires Valid()
      ensures r.NoQuizTaken? <==> userAnswers == []
      ensures r.Report? ==>
                && r.score == score && r.total == |quiz.questions|
                && |r.lines| == |quiz.questions|
                && (forall i :: 0 <= i < |r.lines| ==>
                      && r.lines[i].question == quiz.questions[i] && r.lines[i].entered == userAnswers[i]
                      && r.lines[i].expected == Value(quiz.questions[i]))
                && r.score == |set i | 0 <= i < |r.lines| && r.lines[i].entered == r.lines[i].expected|
    {
      if |userAnswers| == 0 then NoQuizTaken
      else
        ReportScoreCounts(quiz.questions, userAnswers);
        Report(score, |quiz.questions|, ReportLines(quiz.questions, userAnswers))
    }

    /** The running totals: nothing while no question has been attempted; never more correct than attempted. */
    function ViewStats(): (s: Stats)
      reads this, settings, quiz
      requires Valid()
      ensures s.NoQuizzesYet? <==> numAttempted == 0
      ensures s.Stats? ==> s.attempted == numAttempted && s.correct == numCorrect
      ensures s.Stats? ==> 0 <= s.correct <= s.attempted
    {
      if numAttempted == 0 then NoQuizzesYet else Stats(numAttempted, numCorrect)
    }

    /** Zeroes both running totals and forgets the last quiz's answers; the score and the quiz stay. */
    method ResetStats()
      requires Valid()
      modifies this`numAttempted, this`numCorrect, this`userAnswers
      ensures Valid()
      ensures numAttempted == 0 && numCorrect == 0 && userAnswers == []
    {
      numAttempted := 0;
      numCorrect := 0;
      userAnswers := [];
    }
  }
}
