/**
 * Submitting a calculator form: the absences are counted from the attendance
 * checkboxes, every number field is checked against its `max` attribute, and
 * only when no field is flagged is the subject's calculator run.
 */
module Form {
  import opened Wrappers
  import opened Grading
  import Lecture
  import Lab

  /** Number of checked boxes, counted from the front. */
  function CountChecked(boxes: seq<bool>): (n: nat)
    ensures n <= |boxes|
    ensures n == 0 <==> forall i :: 0 <= i < |boxes| ==> !boxes[i]
    ensures n == |boxes| <==> forall i :: 0 <= i < |boxes| ==> boxes[i]
  {
    if |boxes| == 0 then 0
    else
      var rest := boxes[..|boxes| - 1];
      assert forall i :: 0 <= i < |rest| ==> rest[i] == boxes[i];
      CountChecked(rest) + if boxes[|boxes| - 1] then 1 else 0
  }

  /** The checked boxes are the `true`s of the sequence, the rest its `false`s. */
  lemma {:induction false} CheckedMultiplicity(boxes: seq<bool>)
    ensures CountChecked(boxes) == multiset(boxes)[true]
    ensures |boxes| - CountChecked(boxes) == multiset(boxes)[false]
  {
    if |boxes| > 0 {
      var rest := boxes[..|boxes| - 1];
      CheckedMultiplicity(rest);
      assert boxes == rest + [boxes[|boxes| - 1]];
      assert multiset(boxes) == multiset(rest) + multiset{boxes[|boxes| - 1]};
    }
  }

  /**
   * The absence count of `handleCalculation`: the number of attendance boxes
   * minus the number of checked ones.
   */
  method CountAbsences(boxes: seq<bool>) returns (absences: nat)
    ensures absences == |boxes| - CountChecked(boxes)
    ensures absences == multiset(boxes)[false]
  {
    var presentDays := 0;
    var i := 0;
    while i < |boxes|
      invariant 0 <= i <= |boxes|
      invariant presentDays == CountChecked(boxes[..i])
    {
      assert boxes[..i + 1][..i] == boxes[..i];
      if boxes[i] {
        presentDays := presentDays + 1;
      }
      i := i + 1;
    }
    assert boxes[..|boxes|] == boxes;
    absences := |boxes| - presentDays;
    CheckedMultiplicity(boxes);
  }

  /**
   * A number input: its parsed `max` attribute and its parsed value, `None`
   * where parsing gives NaN (no attribute, an empty or malformed entry).
   */
  datatype NumberField = NumberField(max: Option<real>, value: Option<real>)

  /** JavaScript truthiness of a parsed number: neither NaN nor zero. */
  predicate Truthy(x: Option<real>)
  {
    x.Some? && x.value != 0.0
  }

  /** `validateInput` shows its message when `max && value > max`. */
  predicate Flagged(f: NumberField)
  {
    Truthy(f.max) && f.value.Some? && f.value.value > f.max.value
  }

  /**
   * A field is flagged exactly when it has a non-zero maximum and a value
   * above it; a missing or zero maximum and a value that is not a number
   * never raise the message.
   */
  lemma FlaggedExactly(f: NumberField)
    ensures f.max.None? || f.max == Some(0.0) || f.value.None? ==> !Flagged(f)
    ensures f.max.Some? && f.value.Some? && f.max.value != 0.0 ==>
            (Flagged(f) <==> f.value.value > f.max.value)
  {
  }

  /** The validity gate: `isValid` is cleared by any flagged field. */
  method CheckFields(fields: seq<NumberField>) returns (isValid: bool)
    ensures isValid <==> forall i :: 0 <= i < |fields| ==> !Flagged(fields[i])
  {
    isValid := true;
    var i := 0;
    while i < |fields|
      invariant 0 <= i <= |fields|
      invariant isValid <==> forall k :: 0 <= k < i ==> !Flagged(fields[k])
    {
      if Flagged(fields[i]) {
        isValid := false;
      }
      i := i + 1;
    }
  }

  /**
   * The lecture form's number fields, assuming the page gives them the same
   * maxima the calculator clamps to.
   */
  function LectureFields(s: Lecture.Scores): seq<NumberField>
  {
    [NumberField(Some(Lecture.PrelimExamMax), Some(s.prelimExam)),
     NumberField(Some(Lecture.EssayMax), Some(s.essay)),
     NumberField(Some(Lecture.PvmMax), Some(s.pvm)),
     NumberField(Some(Lecture.JavaBasicsMax), Some(s.javaBasics)),
     NumberField(Some(Lecture.IntroJsMax), Some(s.introJs))]
  }

  /** The laboratory form's eight number fields, each with maximum 100. */
  function LabFields(s: Lab.Scores): seq<NumberField>
  {
    [NumberField(Some(Lab.ScoreMax), Some(s.java1)), NumberField(Some(Lab.ScoreMax), Some(s.java2)),
     NumberField(Some(Lab.ScoreMax), Some(s.js1)), NumberField(Some(Lab.ScoreMax), Some(s.js2)),
     NumberField(Some(Lab.ScoreMax), Some(s.mp1)), NumberField(Some(Lab.ScoreMax), Some(s.mp2)),
     NumberField(Some(Lab.ScoreMax), Some(s.mp3)), NumberField(Some(Lab.ScoreMax), Some(s.mp3Docu))]
  }

  /**
   * When the form's maxima are the calculator's clamp bounds, scores that
   * pass the gate are exactly those the clamp leaves alone.
   */
  lemma GateMatchesClamp(lecture: Lecture.Scores, lab: Lab.Scores)
    ensures (forall i :: 0 <= i < |LectureFields(lecture)| ==> !Flagged(LectureFields(lecture)[i]))
            <==> Lecture.ClampScores(lecture) == lecture
    ensures (forall i :: 0 <= i < |LabFields(lab)| ==> !Flagged(LabFields(lab)[i]))
            <==> Lab.ClampScores(lab) == lab
  {
    var fs := LectureFields(lecture);
    if Lecture.ClampScores(lecture) != lecture {
      assert !Lecture.WithinMaxima(lecture);
      assert Flagged(fs[0]) || Flagged(fs[1]) || Flagged(fs[2]) || Flagged(fs[3]) || Flagged(fs[4]);
    }
    var gs := LabFields(lab);
    if Lab.ClampScores(lab) != lab {
      assert !Lab.WithinMaxima(lab);
      assert Flagged(gs[0]) || Flagged(gs[1]) || Flagged(gs[2]) || Flagged(gs[3]) ||
             Flagged(gs[4]) || Flagged(gs[5]) || Flagged(gs[6]) || Flagged(gs[7]);
    }
  }

  /** The submitted form: its subject and its (already parsed) scores. */
  datatype Submission = LectureSubmission(lecture: Lecture.Scores) | LabSubmission(lab: Lab.Scores)

  /** What the subject's calculator returns. */
  datatype Results = LectureResults(lecture: Lecture.Result) | LabResults(lab: Lab.Result)
  {
    function Grade(): real
    {
      match this
      case LectureResults(r) => r.prelimGrade
      case LabResults(r) => r.prelimGrade
    }

    predicate Failed()
    {
      match this
      case LectureResults(r) => r.failed
      case LabResults(r) => r.failed
    }

    function Absences(): nat
    {
      match this
      case LectureResults(r) => r.absences
      case LabResults(r) => r.absences
    }
  }

  /** Runs the calculator of the submission's subject. */
  function Evaluate(sub: Submission, absences: nat): (r: Results)
    ensures r.LectureResults? <==> sub.LectureSubmission?
    ensures sub.LectureSubmission? ==> r == LectureResults(Lecture.Grade(sub.lecture, absences))
    ensures sub.LabSubmission? ==> r == LabResults(Lab.Grade(sub.lab, absences))
    ensures r.Absences() == absences
    ensures r.Failed() <==> absences >= AbsenceLimit || r.Grade() < PassingGrade
    ensures r.Grade() <= 100.0
  {
    match sub
    case LectureSubmission(s) => LectureResults(Lecture.Grade(s, absences))
    case LabSubmission(s) => LabResults(Lab.Grade(s, absences))
  }

  /**
   * `handleCalculation`: no result when any number field is flagged,
   * otherwise the subject's grade with the absences the unchecked
   * attendance boxes give.
   */
  method HandleCalculation(sub: Submission, fields: seq<NumberField>, boxes: seq<bool>)
    returns (r: Option<Results>)
    ensures r.None? <==> exists i :: 0 <= i < |fields| && Flagged(fields[i])
    ensures r.Some? ==> r.value == Evaluate(sub, multiset(boxes)[false])
    ensures r.Some? ==> r.value.Absences() <= |boxes|
  {
    var absences := CountAbsences(boxes);
    var isValid := CheckFields(fields);
    if !isValid {
      return None;
    }
    r := Some(Evaluate(sub, absences));
  }
}
