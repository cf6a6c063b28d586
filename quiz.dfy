/**
 * `src/components/student/quiz-viewer.tsx`: taking a timed quiz. The viewer
 * moves START -> ACTIVE -> SUBMITTING -> RESULTS (or back to ACTIVE when the
 * submission fails), keeps the chosen option per question, the question on
 * screen and the seconds left, and sends the answers as a list.
 */
module Quiz {

  import opened Common
  import opened Text
  import opened Dialogs

  datatype QuizState = Start | Active | Submitting | Results

  datatype QuizOption = QuizOption(id: int, text: string)

  /** Question ids are the keys of the answer record, so they are non-negative integers here. */
  datatype Question = Question(id: nat, text: string, options: seq<QuizOption>)

  datatype QuizData = QuizData(id: int, passingScorePercentage: int, timeLimitMinutes: nat, questions: seq<Question>)

  datatype AttemptResponse = AttemptResponse(
    id: int,
    question: int,
    questionText: string,
    selectedOption: Option<int>,
    selectedOptionText: Option<string>,
    isCorrect: bool)

  datatype AttemptResult = AttemptResult(id: int, isCompleted: bool, responses: seq<AttemptResponse>)

  /** One entry of the submitted `answers` list. */
  datatype AnswerInput = AnswerInput(questionId: nat, optionId: int)

  // ---------------------------------------------------------------------------
  // Navigation

  /** "Previous": `Math.max(0, i - 1)`. */
  function PrevIndex(i: int): (j: int)
    ensures i > 0 ==> j == i - 1
    ensures i <= 0 ==> j == 0
  {
    if i - 1 < 0 then 0 else i - 1
  }

  /** "Next": `Math.min(len - 1, i + 1)`. */
  function NextIndex(i: int, len: nat): (j: int)
    ensures i + 1 <= len - 1 ==> j == i + 1
    ensures i + 1 > len - 1 ==> j == len - 1
  {
    if i + 1 < len - 1 then i + 1 else len - 1
  }

  /** Both moves keep a valid index valid when there is at least one question. */
  lemma NavigationStaysInRange(i: int, len: nat)
    requires 0 <= i < len
    ensures 0 <= PrevIndex(i) < len && 0 <= NextIndex(i, len) < len
    ensures PrevIndex(i) <= i <= NextIndex(i, len)
  {
  }

  // ---------------------------------------------------------------------------
  // The answers payload

  /** A set of naturals holding `x` has a least element: descend while something smaller exists. */
  lemma {:induction false} LeastExists(keys: set<nat>, x: nat)
    requires x in keys
    ensures exists k :: k in keys && forall j :: j in keys ==> k <= j
    decreases x
  {
    if exists y :: y in keys && y < x {
      var y :| y in keys && y < x;
      LeastExists(keys, y);
    }
  }

  /** The smallest question id with an answer. */
  function LeastKey(answers: map<nat, int>): (k: nat)
    requires answers != map[]
    ensures k in answers && forall j :: j in answers ==> k <= j
  {
    var x :| x in answers;
    LeastExists(answers.Keys, x);
    var k :| k in answers && forall j :: j in answers ==> k <= j;
    k
  }

  /**
   * `formattedAnswers`: `Object.entries(answers)` mapped to
   * `{question_id, option_id}`. Integer keys come out in ascending order.
   */
  function FormatAnswers(answers: map<nat, int>): (r: seq<AnswerInput>)
    ensures |r| == |answers|
    ensures forall i :: 0 <= i < |r| ==> r[i].questionId in answers && answers[r[i].questionId] == r[i].optionId
    ensures forall q :: q in answers ==> exists i :: 0 <= i < |r| && r[i].questionId == q
    ensures forall i, j :: 0 <= i < j < |r| ==> r[i].questionId < r[j].questionId
    decreases |answers|
  {
    if answers == map[] then []
    else
      var k := LeastKey(answers);
      var rest := answers - {k};
      assert rest.Keys == answers.Keys - {k};
      var tail := FormatAnswers(rest);
      FormatAnswersCons(answers, k, rest, tail);
      [AnswerInput(k, answers[k])] + tail
  }

  /** The step of `FormatAnswers`: the least key in front of the answers to the others. */
  lemma FormatAnswersCons(answers: map<nat, int>, k: nat, rest: map<nat, int>, tail: seq<AnswerInput>)
    requires k in answers && forall j :: j in answers ==> k <= j
    requires rest == answers - {k}
    requires |tail| == |rest|
    requires forall i :: 0 <= i < |tail| ==> tail[i].questionId in rest && rest[tail[i].questionId] == tail[i].optionId
    requires forall q :: q in rest ==> exists i :: 0 <= i < |tail| && tail[i].questionId == q
    requires forall i, j :: 0 <= i < j < |tail| ==> tail[i].questionId < tail[j].questionId
    ensures var r := [AnswerInput(k, answers[k])] + tail;
            && |r| == |answers|
            && (forall i :: 0 <= i < |r| ==> r[i].questionId in answers && answers[r[i].questionId] == r[i].optionId)
            && (forall q :: q in answers ==> exists i :: 0 <= i < |r| && r[i].questionId == q)
            && (forall i, j :: 0 <= i < j < |r| ==> r[i].questionId < r[j].questionId)
  {
    assert rest.Keys == answers.Keys - {k};
    assert |rest| == |answers| - 1;
    ConsFields(answers, k, rest, tail);
    ConsCovers(answers, k, rest, tail);
    ConsAscending(answers, k, rest, tail);
  }

  lemma ConsFields(answers: map<nat, int>, k: nat, rest: map<nat, int>, tail: seq<AnswerInput>)
    requires k in answers && rest == answers - {k}
    requires forall i :: 0 <= i < |tail| ==> tail[i].questionId in rest && rest[tail[i].questionId] == tail[i].optionId
    ensures var r := [AnswerInput(k, answers[k])] + tail;
            forall i :: 0 <= i < |r| ==> r[i].questionId in answers && answers[r[i].questionId] == r[i].optionId
  {
    var r := [AnswerInput(k, answers[k])] + tail;
    forall i | 0 <= i < |r| ensures r[i].questionId in answers && answers[r[i].questionId] == r[i].optionId {
      if i > 0 {
        assert r[i] == tail[i - 1];
      }
    }
  }

  lemma ConsCovers(answers: map<nat, int>, k: nat, rest: map<nat, int>, tail: seq<AnswerInput>)
    requires k in answers && rest == answers - {k}
    requires forall q :: q in rest ==> exists i :: 0 <= i < |tail| && tail[i].questionId == q
    ensures var r := [AnswerInput(k, answers[k])] + tail;
            forall q :: q in answers ==> exists i :: 0 <= i < |r| && r[i].questionId == q
  {
    var r := [AnswerInput(k, answers[k])] + tail;
    forall q | q in answers ensures exists i :: 0 <= i < |r| && r[i].questionId == q {
      if q == k {
        assert r[0].questionId == q;
      } else {
        assert q in rest;
        var i :| 0 <= i < |tail| && tail[i].questionId == q;
        assert r[i + 1].questionId == q;
      }
    }
  }

  lemma ConsAscending(answers: map<nat, int>, k: nat, rest: map<nat, int>, tail: seq<AnswerInput>)
    requires k in answers && forall j :: j in answers ==> k <= j
    requires rest == answers - {k}
    requires forall i :: 0 <= i < |tail| ==> tail[i].questionId in rest
    requires forall i, j :: 0 <= i < j < |tail| ==> tail[i].questionId < tail[j].questionId
    ensures var r := [AnswerInput(k, answers[k])] + tail;
            forall i, j :: 0 <= i < j < |r| ==> r[i].questionId < r[j].questionId
  {
    var r := [AnswerInput(k, answers[k])] + tail;
    forall i, j | 0 <= i < j < |r| ensures r[i].questionId < r[j].questionId {
      assert r[j] == tail[j - 1];
      if i > 0 {
        assert r[i] == tail[i - 1];
      } else {
        assert tail[j - 1].questionId in rest;
      }
    }
  }

  // ---------------------------------------------------------------------------
  // The clock

  /** `timeString`: minutes and seconds, each zero-padded to two digits. */
  function TimeString(t: nat): (s: string)
    ensures |s| >= 5 && s[|s| - 3] == ':'
    ensures t < 6000 ==> |s| == 5
  {
    Pad2(t / 60) + ":" + Pad2(t % 60)
  }

  /** Reading the minutes before the colon and the seconds after it gives back `t`. */
  lemma TimeStringReadsBack(t: nat)
    ensures var s := TimeString(t);
            forall i :: 0 <= i < |s| && i != |s| - 3 ==> IsDigit(s[i])
    ensures var s := TimeString(t);
            ParseDigits(s[..|s| - 3]) == t / 60 && ParseDigits(s[|s| - 2..]) == t % 60
    ensures var s := TimeString(t);
            ParseDigits(s[..|s| - 3]) * 60 + ParseDigits(s[|s| - 2..]) == t
  {
    var m := Pad2(t / 60);
    var sec := Pad2(t % 60);
    var s := m + ":" + sec;
    assert TimeString(t) == s;
    assert s[..|s| - 3] == m && s[|s| - 2..] == sec;
    Pad2RoundTrip(t / 60);
    Pad2RoundTrip(t % 60);
    assert t == t / 60 * 60 + t % 60;
    forall i | 0 <= i < |s| && i != |s| - 3 ensures IsDigit(s[i]) {
      if i < |m| {
        assert s[i] == m[i];
      } else {
        assert s[i] == sec[i - |m| - 1];
      }
    }
  }

  lemma TimeStringExamples()
    ensures TimeString(0) == "00:00"
    ensures TimeString(65) == "01:05"
  {
  }

  // ---------------------------------------------------------------------------
  // The viewer

  const SubmitConfirm := DialogOptions("Submit Quiz?",
    "Are you sure you want to submit your answers? You cannot change them after submission.",
    Some(Info), Some("Yes, submit"), None)
  const TimesUpAlert := DialogOptions("Time's Up!", "Your quiz has been automatically submitted.", Some(Warning), None, None)
  const SubmitFailedAlert := DialogOptions("Error", "Failed to submit quiz. Please try again.", Some(Error), None, None)

  class QuizViewer {

    var quiz: Option<QuizData>
    var isLoading: bool
    var state: QuizState
    var currentIndex: int
    var answers: map<nat, int>
    var timeLeft: int
    var result: Option<AttemptResult>
    /**
     * The answers the running timer would submit. The timer effect depends
     * only on the state and the clock, so its callback (and the
     * `handleSubmit` it calls) holds the answers of the render in which the
     * state or the clock last changed; a later choice does not reach it.
     */
    var timerAnswers: map<nat, int>

    /** The index points at a question, and the clock is never negative. */
    ghost predicate Valid()
      reads this
    {
      && timeLeft >= 0
      && currentIndex >= 0
      && (quiz.Some? && |quiz.value.questions| > 0 ==> currentIndex < |quiz.value.questions|)
    }

    function QuestionCount(): nat
      reads this
    {
      if quiz.Some? then |quiz.value.questions| else 0
    }

    constructor ()
      ensures quiz == None && isLoading && state == Start
      ensures currentIndex == 0 && answers == map[] && timeLeft == 0 && result == None
      ensures timerAnswers == map[]
      ensures Valid()
    {
      timerAnswers := map[];
      quiz := None;
      isLoading := true;
      state := Start;
      currentIndex := 0;
      answers := map[];
      timeLeft := 0;
      result := None;
    }

    /**
     * The fetch effect. A non-empty list installs its first quiz and sets the
     * clock to its time limit; an empty list, any other body and a failure
     * install nothing. Loading ends in every case.
     */
    method LoadQuiz(resp: Response<Data<QuizData>>)
      modifies this
      ensures !isLoading
      ensures resp.Ok? && resp.data.Arr? && |resp.data.items| > 0 ==>
                quiz == Some(resp.data.items[0]) && timeLeft == resp.data.items[0].timeLimitMinutes * 60
      ensures !(resp.Ok? && resp.data.Arr? && |resp.data.items| > 0) ==>
                quiz == old(quiz) && timeLeft == old(timeLeft)
      ensures state == old(state) && currentIndex == old(currentIndex) && answers == old(answers) && result == old(result)
      ensures timerAnswers == answers
    {
      timerAnswers := answers;
      if resp.Ok? && resp.data.Arr? && |resp.data.items| > 0 {
        quiz := Some(resp.data.items[0]);
        timeLeft := resp.data.items[0].timeLimitMinutes * 60;
      }
      isLoading := false;
    }

    /** "Start Assessment". */
    method StartAssessment()
      modifies this
      ensures state == Active && timerAnswers == answers
      ensures quiz == old(quiz) && currentIndex == old(currentIndex) && answers == old(answers)
      ensures timeLeft == old(timeLeft) && result == old(result) && isLoading == old(isLoading)
    {
      state := Active;
      timerAnswers := answers;
    }

    /** Choosing an option of the question on screen. */
    method Choose(optionId: int)
      requires quiz.Some? && 0 <= currentIndex < |quiz.value.questions|
      modifies this
      ensures answers == old(answers)[old(quiz).value.questions[old(currentIndex)].id := optionId]
      ensures forall q :: q in old(answers) && q != old(quiz).value.questions[old(currentIndex)].id ==>
                q in answers && answers[q] == old(answers)[q]
      ensures quiz == old(quiz) && currentIndex == old(currentIndex) && state == old(state)
      ensures timeLeft == old(timeLeft) && result == old(result) && isLoading == old(isLoading)
      ensures timerAnswers == old(timerAnswers)
    {
      answers := answers[quiz.value.questions[currentIndex].id := optionId];
    }

    /** "Previous". */
    method Previous()
      requires Valid()
      modifies this
      ensures currentIndex == PrevIndex(old(currentIndex)) && Valid()
      ensures quiz == old(quiz) && state == old(state) && answers == old(answers)
      ensures timeLeft == old(timeLeft) && result == old(result) && isLoading == old(isLoading)
      ensures timerAnswers == old(timerAnswers)
    {
      currentIndex := PrevIndex(currentIndex);
    }

    /** "Next", shown while a quiz with questions is on screen. */
    method Next()
      requires Valid() && quiz.Some? && |quiz.value.questions| > 0
      modifies this
      ensures currentIndex == NextIndex(old(currentIndex), |old(quiz).value.questions|) && Valid()
      ensures quiz == old(quiz) && state == old(state) && answers == old(answers)
      ensures timeLeft == old(timeLeft) && result == old(result) && isLoading == old(isLoading)
      ensures timerAnswers == old(timerAnswers)
    {
      currentIndex := NextIndex(currentIndex, |quiz.value.questions|);
    }

    /** A button of the question navigator. */
    method JumpTo(i: int)
      requires Valid() && quiz.Some? && 0 <= i < |quiz.value.questions|
      modifies this
      ensures currentIndex == i && Valid()
      ensures quiz == old(quiz) && state == old(state) && answers == old(answers)
      ensures timeLeft == old(timeLeft) && result == old(result) && isLoading == old(isLoading)
      ensures timerAnswers == old(timerAnswers)
    {
      currentIndex := i;
    }

    /**
     * One second of the timer, which runs only while ACTIVE with time left.
     * `expired` says the tick hit zero and submits automatically.
     */
    method Tick() returns (expired: bool)
      requires Valid() && state == Active && timeLeft > 0
      modifies this
      ensures old(timeLeft) <= 1 ==> timeLeft == 0 && expired
      ensures old(timeLeft) > 1 ==> timeLeft == old(timeLeft) - 1 && !expired
      ensures Valid()
      ensures quiz == old(quiz) && state == old(state) && currentIndex == old(currentIndex)
      ensures answers == old(answers) && result == old(result) && isLoading == old(isLoading)
      ensures old(timeLeft) <= 1 ==> timerAnswers == old(timerAnswers)
      ensures old(timeLeft) > 1 ==> timerAnswers == answers
    {
      if timeLeft <= 1 {
        timeLeft := 0;
        expired := true;
      } else {
        timeLeft := timeLeft - 1;
        timerAnswers := answers;
        expired := false;
      }
    }

    /**
     * The first half of `handleSubmit`, up to the request. A manual submit
     * asks first (`confirmed` is the answer) and sends the current
     * answers; an automatic one, called from the timer, only tells and sends
     * the answers the timer holds. Both dialogs are awaited: the step ends
     * when the dialog is closed. While the confirmation is open the quiz is
     * still ACTIVE and the timer keeps ticking; those ticks are taken as
     * happening before this step. `payload` is the answer list sent when the
     * submission goes ahead.
     */
    method BeginSubmit(isAutoSubmit: bool, confirmed: bool)
      returns (accepted: bool, payload: seq<AnswerInput>, shown: Option<DialogOptions>)
      modifies this
      ensures old(quiz).None? ==> !accepted && shown == None && state == old(state)
      ensures old(quiz).Some? && !isAutoSubmit ==> shown == Some(SubmitConfirm) && accepted == confirmed
      ensures old(quiz).Some? && isAutoSubmit ==> shown == Some(TimesUpAlert) && accepted
      ensures accepted ==> state == Submitting
      ensures accepted && !isAutoSubmit ==> payload == FormatAnswers(old(answers))
      ensures accepted && isAutoSubmit ==> payload == FormatAnswers(old(timerAnswers))
      ensures !accepted ==> state == old(state)
      ensures unchanged(this`quiz, this`currentIndex, this`answers, this`timerAnswers)
      ensures unchanged(this`timeLeft, this`result, this`isLoading)
    {
      accepted, payload, shown := false, [], None;
      if quiz.Some? {
        if isAutoSubmit {
          shown := Some(TimesUpAlert);
          accepted, payload := true, FormatAnswers(timerAnswers);
        } else {
          shown := Some(SubmitConfirm);
          if confirmed {
            accepted, payload := true, FormatAnswers(answers);
          }
        }
        if accepted {
          state := Submitting;
        }
      }
    }

    /**
     * The second half: the reply to the request. Success shows the results
     * and calls `onComplete`; failure opens the error alert and waits for it,
     * still SUBMITTING.
     */
    method FinishSubmit(resp: Response<AttemptResult>)
      returns (completed: bool, shown: Option<DialogOptions>)
      modifies this
      ensures resp.Ok? ==> state == Results && result == Some(resp.data) && completed && shown == None
      ensures resp.Failed? ==> state == old(state) && result == old(result) && !completed && shown == Some(SubmitFailedAlert)
      ensures quiz == old(quiz) && currentIndex == old(currentIndex) && answers == old(answers)
      ensures timeLeft == old(timeLeft) && isLoading == old(isLoading) && timerAnswers == old(timerAnswers)
    {
      if resp.Ok? {
        result := Some(resp.data);
        state := Results;
        return true, None;
      }
      return false, Some(SubmitFailedAlert);
    }

    /** The awaited error alert is closed: back to the quiz, answers kept. */
    method CloseSubmitFailedAlert()
      modifies this
      ensures state == Active && timerAnswers == answers
      ensures quiz == old(quiz) && currentIndex == old(currentIndex) && answers == old(answers)
      ensures timeLeft == old(timeLeft) && result == old(result) && isLoading == old(isLoading)
    {
      state := Active;
      timerAnswers := answers;
    }
  }

  /**
   * A rejected submission keeps the viewer in SUBMITTING while the error
   * alert is open, and returns to the quiz with every answer kept once it
   * is closed.
   */
  method FailedSubmitBackToQuiz(v: QuizViewer)
    requires v.state == Submitting
    modifies v
    ensures v.state == Active && v.answers == old(v.answers) && v.result == old(v.result)
  {
    var completed, shown := v.FinishSubmit(Failed);
    assert v.state == Submitting && shown == Some(SubmitFailedAlert);
    v.CloseSubmitFailedAlert();
  }

  /**
   * A whole timed-out attempt: the last tick submits on its own, sending the
   * answers the timer holds (those of the moment the last second began),
   * and the viewer ends in RESULTS with the clock at zero.
   */
  method TimedOutAttempt(v: QuizViewer, reply: AttemptResult) returns (payload: seq<AnswerInput>)
    requires v.Valid() && v.quiz.Some? && v.state == Active && v.timeLeft == 1
    modifies v
    ensures payload == FormatAnswers(old(v.timerAnswers))
    ensures v.state == Results && v.timeLeft == 0 && v.result == Some(reply)
    ensures v.answers == old(v.answers)
  {
    var expired := v.Tick();
    assert expired;
    var accepted, shown;
    accepted, payload, shown := v.BeginSubmit(true, false);
    var completed, _ := v.FinishSubmit(Ok(reply));
  }

  /**
   * A choice made during the last second is not sent: the clock drops from
   * 2 to 1, an answer is chosen for a question that had none, and when the
   * time runs out the submitted list has no entry for that question.
   */
  method LastSecondChoiceNotSent(v: QuizViewer, optionId: int, reply: AttemptResult)
    returns (payload: seq<AnswerInput>)
    requires v.Valid() && v.quiz.Some? && 0 <= v.currentIndex < |v.quiz.value.questions|
    requires v.state == Active && v.timeLeft == 2
    requires v.quiz.value.questions[v.currentIndex].id !in v.answers
    modifies v
    ensures var q := old(v.quiz).value.questions[old(v.currentIndex)].id;
            && q in v.answers && v.answers[q] == optionId
            && forall i :: 0 <= i < |payload| ==> payload[i].questionId != q
    ensures v.state == Results
  {
    var q := v.quiz.value.questions[v.currentIndex].id;
    var first := v.Tick();
    assert v.timerAnswers == v.answers && q !in v.timerAnswers;
    v.Choose(optionId);
    var last := v.Tick();
    assert last;
    var accepted, shown;
    accepted, payload, shown := v.BeginSubmit(true, false);
    assert payload == FormatAnswers(v.timerAnswers);
    var completed, _ := v.FinishSubmit(Ok(reply));
  }
}
