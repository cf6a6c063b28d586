/**
 * `src/app/admission/page.tsx`: the public admission form. Edits change one
 * field at a time; submitting folds the fields the backend has no column for
 * into one `learning_goal` summary and posts six fields.
 */
module Admission {

  import opened Common
  import opened Text
  import opened Dialogs

  datatype PreferredMode = Online | Offline | Hybrid

  function ModeName(m: PreferredMode): (s: string)
    ensures s != [] && '|' !in s
  {
    match m
    case Online => "Online"
    case Offline => "Offline"
    case Hybrid => "Hybrid"
  }

  datatype AdmissionForm = AdmissionForm(
    firstName: string,
    lastName: string,
    email: string,
    phone: string,
    guardianName: string,
    guardianPhone: string,
    grade: string,
    targetExam: string,
    address: string,
    preferredMode: PreferredMode,
    notes: string)

  /** `initialState`. */
  const InitialForm := AdmissionForm("", "", "", "", "", "", "", "", "", Online, "")

  /** The text fields of the form, by key. */
  datatype TextField = FirstName | LastName | Email | Phone | GuardianName | GuardianPhone
                     | Grade | TargetExam | Address | Notes

  function FieldOf(f: AdmissionForm, k: TextField): string
  {
    match k
    case FirstName => f.firstName
    case LastName => f.lastName
    case Email => f.email
    case Phone => f.phone
    case GuardianName => f.guardianName
    case GuardianPhone => f.guardianPhone
    case Grade => f.grade
    case TargetExam => f.targetExam
    case Address => f.address
    case Notes => f.notes
  }

  /** `{ ...prev, [key]: value }` for a text field. */
  function WithField(f: AdmissionForm, k: TextField, v: string): (g: AdmissionForm)
    ensures FieldOf(g, k) == v
    ensures forall other :: other != k ==> FieldOf(g, other) == FieldOf(f, other)
    ensures g.preferredMode == f.preferredMode
  {
    match k
    case FirstName => f.(firstName := v)
    case LastName => f.(lastName := v)
    case Email => f.(email := v)
    case Phone => f.(phone := v)
    case GuardianName => f.(guardianName := v)
    case GuardianPhone => f.(guardianPhone := v)
    case Grade => f.(grade := v)
    case TargetExam => f.(targetExam := v)
    case Address => f.(address := v)
    case Notes => f.(notes := v)
  }

  /** Every text field starts empty and the mode starts as Online. */
  lemma InitialFormEmpty()
    ensures forall k :: FieldOf(InitialForm, k) == []
    ensures InitialForm.preferredMode == Online
  {
  }

  /** A later edit of the same field wins; edits of different fields commute. */
  lemma WithFieldLaws(f: AdmissionForm, j: TextField, k: TextField, v: string, w: string)
    ensures WithField(WithField(f, k, v), k, w) == WithField(f, k, w)
    ensures j != k ==> WithField(WithField(f, j, v), k, w) == WithField(WithField(f, k, w), j, v)
  {
  }

  /** The five segments of the summary, in order. */
  function BridgeSegments(f: AdmissionForm): (segs: seq<string>)
    ensures |segs| == 5
  {
    [ "Exam: " + f.targetExam,
      "Mode: " + ModeName(f.preferredMode),
      "Guardian: " + f.guardianName + " (" + f.guardianPhone + ")",
      "Address: " + f.address,
      "Notes: " + (if f.notes == [] then "None" else f.notes) ]
  }

  /** `bridgeData`: the segments joined by `" | "`. */
  function LearningGoal(f: AdmissionForm): string
  {
    Join(BridgeSegments(f), Bar)
  }

  /** None of the free-text fields that go into the summary holds a `'|'`. */
  predicate BarFree(f: AdmissionForm)
  {
    '|' !in f.targetExam && '|' !in f.guardianName && '|' !in f.guardianPhone
    && '|' !in f.address && '|' !in f.notes
  }

  /**
   * When the fields hold no `'|'`, cutting the summary at `" | "` gives back
   * the five labelled segments: exam, mode, guardian, address and notes.
   */
  lemma LearningGoalSplits(f: AdmissionForm)
    requires BarFree(f)
    ensures SplitBar(LearningGoal(f)) == BridgeSegments(f)
    ensures SplitBar(LearningGoal(f))[0] == "Exam: " + f.targetExam
    ensures SplitBar(LearningGoal(f))[4] == "Notes: " + (if f.notes == [] then "None" else f.notes)
  {
    var segs := BridgeSegments(f);
    forall i | 0 <= i < |segs| ensures '|' !in segs[i] {
      if i == 2 {
        assert segs[2] == "Guardian: " + f.guardianName + " (" + f.guardianPhone + ")";
      }
    }
    SplitJoinRoundTrip(segs);
  }

  /** Empty notes and notes reading "None" give the same summary: the summary cannot tell them apart. */
  lemma NotesNoneAmbiguous(f: AdmissionForm)
    requires f.notes == []
    ensures LearningGoal(f) == LearningGoal(f.(notes := "None"))
  {
  }

  /** What is posted: six fields. */
  datatype AdmissionPayload = AdmissionPayload(
    studentFirstName: string,
    studentLastName: string,
    email: string,
    phone: string,
    classGrade: string,
    learningGoal: string)

  function PayloadOf(f: AdmissionForm): (p: AdmissionPayload)
    ensures p.studentFirstName == FieldOf(f, FirstName) && p.studentLastName == FieldOf(f, LastName)
    ensures p.email == FieldOf(f, Email) && p.phone == FieldOf(f, Phone) && p.classGrade == FieldOf(f, Grade)
    ensures p.learningGoal == LearningGoal(f)
  {
    AdmissionPayload(f.firstName, f.lastName, f.email, f.phone, f.grade, LearningGoal(f))
  }

  /** Editing a field that the payload does not carry directly changes only the summary. */
  lemma GuardianOnlyInSummary(f: AdmissionForm, v: string)
    ensures var p := PayloadOf(f);
            var q := PayloadOf(WithField(f, GuardianName, v));
            p.(learningGoal := q.learningGoal) == q
  {
  }

  const FallbackError := "Failed to submit your application. Please try again later."

  /** `err?.response?.data?.detail || <fallback>`. */
  function ErrorMessage(detail: Option<string>): (m: string)
    ensures m != []
    ensures detail.Some? && detail.value != [] ==> m == detail.value
    ensures detail.None? || detail.value == [] ==> m == FallbackError
  {
    OrElse(detail, FallbackError)
  }

  function FailureAlert(detail: Option<string>): DialogOptions
  {
    DialogOptions("Submission Failed", ErrorMessage(detail), Some(Error), None, None)
  }

  /** The outcome of the post: accepted, or rejected with an optional `detail` text. */
  datatype SubmitOutcome = Accepted | Rejected(detail: Option<string>)

  class AdmissionPage {

    var form: AdmissionForm
    var isSubmitting: bool
    var pushed: seq<string>

    constructor ()
      ensures form == InitialForm && !isSubmitting && pushed == []
    {
      form := InitialForm;
      isSubmitting := false;
      pushed := [];
    }

    /** `handleChange(k, v)` for a text field. */
    method HandleChange(k: TextField, v: string)
      modifies this
      ensures form == WithField(old(form), k, v)
      ensures isSubmitting == old(isSubmitting) && pushed == old(pushed)
    {
      form := WithField(form, k, v);
    }

    /** `handleChange('preferredMode', m)`. */
    method ChooseMode(m: PreferredMode)
      modifies this
      ensures form == old(form).(preferredMode := m)
      ensures isSubmitting == old(isSubmitting) && pushed == old(pushed)
    {
      form := form.(preferredMode := m);
    }

    /** The first half of `handleSubmit`: the flag goes up and the payload is built. */
    method BeginSubmit() returns (payload: AdmissionPayload)
      modifies this
      ensures isSubmitting && payload == PayloadOf(form)
      ensures form == old(form) && pushed == old(pushed)
    {
      isSubmitting := true;
      payload := PayloadOf(form);
    }

    /**
     * The second half: success goes to the success page and the flag comes
     * down; failure opens the error alert and waits for it, still submitting.
     */
    method FinishSubmit(outcome: SubmitOutcome) returns (shown: Option<DialogOptions>)
      modifies this
      ensures form == old(form)
      ensures outcome.Accepted? ==> !isSubmitting && pushed == old(pushed) + ["/admission/success"] && shown == None
      ensures outcome.Rejected? ==>
                isSubmitting == old(isSubmitting) && pushed == old(pushed) && shown == Some(FailureAlert(outcome.detail))
    {
      if outcome.Accepted? {
        pushed := pushed + ["/admission/success"];
        shown := None;
        isSubmitting := false;
      } else {
        shown := Some(FailureAlert(outcome.detail));
      }
    }

    /** The awaited failure alert is closed: the `finally` brings the flag down. */
    method CloseFailureAlert()
      modifies this
      ensures !isSubmitting && form == old(form) && pushed == old(pushed)
    {
      isSubmitting := false;
    }
  }

  /**
   * A rejected application keeps the button disabled while the error alert
   * is open, and re-enables it, with the form as typed, once it is closed.
   */
  method RejectedThenRetry(page: AdmissionPage, detail: Option<string>)
    modifies page
    ensures !page.isSubmitting && page.form == old(page.form) && page.pushed == old(page.pushed)
  {
    var payload := page.BeginSubmit();
    var shown := page.FinishSubmit(Rejected(detail));
    assert page.isSubmitting && shown == Some(FailureAlert(detail));
    assert payload == PayloadOf(page.form);
    page.CloseFailureAlert();
  }
}
