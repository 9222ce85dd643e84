/**
 * The rules shared by the lecture and the laboratory grade: clamping a raw
 * score to its field maximum, turning a score into a percentage, the
 * attendance penalty, the two weighted blends and the failure rule.
 */
module Grading {

  /** A prelim grade below this fails the course. */
  const PassingGrade: real := 75.0

  /** This many absences or more fail the course whatever the grade. */
  const AbsenceLimit: nat := 4

  /** Points deducted from the attendance score per absence. */
  const AbsencePenalty: real := 10.0

  /** `Math.min(score, max)`: a score above its maximum counts as the maximum. */
  function Clamp(score: real, max: real): (r: real)
    ensures r <= max
    ensures score <= max ==> r == score
    ensures max < score ==> r == max
  {
    if score < max then score else max
  }

  /** `score` as a percentage of `max`. */
  function Percentage(score: real, max: real): (r: real)
    requires 0.0 < max
    ensures 0.0 <= score ==> 0.0 <= r
    ensures score <= max ==> r <= 100.0
    ensures r == 100.0 <==> score == max
  {
    score / max * 100.0
  }

  /** `Math.max(0, 100 - absences * 10)`. */
  function Attendance(absences: nat): (r: real)
    ensures 0.0 <= r <= 100.0
    ensures r == 100.0 <==> absences == 0
    ensures r == 0.0 <==> absences >= 10
  {
    var penalised := 100.0 - absences as real * AbsencePenalty;
    if penalised < 0.0 then 0.0 else penalised
  }

  /**
   * Each further absence takes another ten points off the attendance score
   * until it reaches zero.
   */
  lemma AttendanceStep(absences: nat)
    ensures Attendance(0) == 100.0
    ensures Attendance(absences + 1) ==
            if Attendance(absences) < AbsencePenalty then 0.0
            else Attendance(absences) - AbsencePenalty
  {
  }

  /** More absences never give a higher attendance score. */
  lemma AttendanceNonIncreasing(fewer: nat, more: nat)
    requires fewer <= more
    ensures Attendance(more) <= Attendance(fewer)
  {
  }

  /** Class standing: 60% coursework, 40% attendance. */
  function ClassStanding(coursework: real, attendance: real): (r: real)
    ensures coursework <= attendance ==> coursework <= r <= attendance
    ensures attendance <= coursework ==> attendance <= r <= coursework
  {
    0.6 * coursework + 0.4 * attendance
  }

  /** Prelim grade: 60% exam, 40% class standing. */
  function PrelimGrade(exam: real, classStanding: real): (r: real)
    ensures exam <= classStanding ==> exam <= r <= classStanding
    ensures classStanding <= exam ==> classStanding <= r <= exam
  {
    0.6 * exam + 0.4 * classStanding
  }

  /** The failure rule both calculators apply. */
  predicate Fails(absences: nat, prelimGrade: real)
  {
    absences >= AbsenceLimit || prelimGrade < PassingGrade
  }

  /**
   * Both blends are weighted means: a grade of 100 needs a perfect exam,
   * perfect coursework and perfect attendance, when none exceeds 100.
   */
  lemma PerfectBlend(exam: real, coursework: real, attendance: real)
    requires exam <= 100.0 && coursework <= 100.0 && attendance <= 100.0
    ensures PrelimGrade(exam, ClassStanding(coursework, attendance)) <= 100.0
    ensures PrelimGrade(exam, ClassStanding(coursework, attendance)) == 100.0 <==>
            exam == 100.0 && coursework == 100.0 && attendance == 100.0
  {
  }
}
