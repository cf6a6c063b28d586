/**
 * `src/components/student/quiz-history.tsx`: the list of past quiz
 * attempts, one of which can be expanded to review its answers. The record
 * type comes from a module that is not part of this model; its fields here
 * are the ones the component reads.
 */
module History {

  import opened Common
  import opened Seqs

  datatype ResponseRecord = ResponseRecord(
    id: int,
    questionText: string,
    selectedOption: Option<int>,
    selectedOptionText: Option<string>,
    isCorrect: bool)

  datatype QuizAttemptRecord = QuizAttemptRecord(
    id: int,
    quizTitle: Option<string>,
    startTime: string,
    responses: seq<ResponseRecord>)

  datatype Verdict = Correct | Wrong | Skipped

  /** `selected_option` is truthy: present and not 0. */
  predicate HasSelection(r: ResponseRecord)
  {
    r.selectedOption.Some? && r.selectedOption.value != 0
  }

  /** The icon and colour of one reviewed answer. */
  function Classify(r: ResponseRecord): (v: Verdict)
    ensures v == Correct <==> r.isCorrect
    ensures v == Skipped <==> !r.isCorrect && !HasSelection(r)
  {
    if r.isCorrect then Correct
    else if HasSelection(r) then Wrong
    else Skipped
  }

  function IsCorrect(r: ResponseRecord): bool
  {
    r.isCorrect
  }

  /** `correctCount`. */
  function CorrectCount(responses: seq<ResponseRecord>): (n: nat)
    ensures n <= |responses|
  {
    |Filter(responses, IsCorrect)|
  }

  /** How many responses get verdict `v`. */
  function CountVerdict(responses: seq<ResponseRecord>, v: Verdict): (n: nat)
    ensures n <= |responses|
  {
    if responses == [] then 0
    else (if Classify(responses[0]) == v then 1 else 0) + CountVerdict(responses[1..], v)
  }

  /**
   * The summary row and the detailed review agree: the correct count is the
   * number of answers drawn as correct, and every answer is drawn as exactly
   * one of correct, wrong and skipped.
   */
  lemma {:induction false} VerdictsPartition(responses: seq<ResponseRecord>)
    ensures CorrectCount(responses) == CountVerdict(responses, Correct)
    ensures CountVerdict(responses, Correct) + CountVerdict(responses, Wrong) + CountVerdict(responses, Skipped)
            == |responses|
  {
    if responses != [] {
      VerdictsPartition(responses[1..]);
    }
  }

  /** `selected_option_text || 'Skipped'`. */
  function AnswerText(r: ResponseRecord): (s: string)
    ensures s != []
    ensures r.selectedOptionText.Some? && r.selectedOptionText.value != [] ==> s == r.selectedOptionText.value
    ensures r.selectedOptionText.None? || r.selectedOptionText.value == [] ==> s == "Skipped"
  {
    OrElse(r.selectedOptionText, "Skipped")
  }

  /** `quiz_title || 'Assessment'`. */
  function Title(a: QuizAttemptRecord): (s: string)
    ensures s != []
    ensures a.quizTitle.Some? && a.quizTitle.value != [] ==> s == a.quizTitle.value
    ensures a.quizTitle.None? || a.quizTitle.value == [] ==> s == "Assessment"
  {
    OrElse(a.quizTitle, "Assessment")
  }

  class QuizHistory {

    var attempts: seq<QuizAttemptRecord>
    var isLoading: bool
    var expandedId: Option<int>

    constructor ()
      ensures attempts == [] && isLoading && expandedId == None
    {
      attempts := [];
      isLoading := true;
      expandedId := None;
    }

    /** The mount effect. A rejected load is not caught, so the spinner stays. */
    method Load(resp: Response<seq<QuizAttemptRecord>>)
      modifies this
      ensures resp.Ok? ==> attempts == resp.data && !isLoading
      ensures resp.Failed? ==> attempts == old(attempts) && isLoading == old(isLoading)
      ensures expandedId == old(expandedId)
    {
      if resp.Ok? {
        attempts := resp.data;
        isLoading := false;
      }
    }

    predicate IsExpanded(a: QuizAttemptRecord)
      reads this
    {
      expandedId == Some(a.id)
    }

    /**
     * A click on the summary row of attempt `id`: it collapses when it is the
     * expanded one, and otherwise becomes the only expanded one.
     */
    method Toggle(id: int)
      modifies this
      ensures old(expandedId) == Some(id) ==> expandedId == None
      ensures old(expandedId) != Some(id) ==> expandedId == Some(id)
      ensures forall i :: 0 <= i < |attempts| && IsExpanded(attempts[i]) ==> attempts[i].id == id
      ensures attempts == old(attempts) && isLoading == old(isLoading)
    {
      expandedId := if expandedId == Some(id) then None else Some(id);
    }
  }
}
