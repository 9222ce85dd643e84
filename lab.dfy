/**
 * The laboratory grade: four practical exam parts (Java 1 and 2, JavaScript
 * 1 and 2) weighted 20/30/20/30 into the prelim exam, and four pieces of lab
 * work (three machine problems and the third one's documentation) whose
 * points out of 400 give the lab-work percentage. Every score is out of 100.
 */
module Lab {
  import opened Grading

  datatype Scores = Scores(
    java1: real, java2: real, js1: real, js2: real,
    mp1: real, mp2: real, mp3: real, mp3Docu: real)

  /** The maximum of every laboratory score. */
  const ScoreMax: real := 100.0

  /** The lab-work points available: four pieces out of 100. */
  const MaxLabPoints: real := 400.0

  const Perfect: Scores := Scores(100.0, 100.0, 100.0, 100.0, 100.0, 100.0, 100.0, 100.0)

  predicate WithinMaxima(s: Scores)
  {
    s.java1 <= ScoreMax && s.java2 <= ScoreMax && s.js1 <= ScoreMax && s.js2 <= ScoreMax &&
    s.mp1 <= ScoreMax && s.mp2 <= ScoreMax && s.mp3 <= ScoreMax && s.mp3Docu <= ScoreMax
  }

  predicate NonNegative(s: Scores)
  {
    0.0 <= s.java1 && 0.0 <= s.java2 && 0.0 <= s.js1 && 0.0 <= s.js2 &&
    0.0 <= s.mp1 && 0.0 <= s.mp2 && 0.0 <= s.mp3 && 0.0 <= s.mp3Docu
  }

  /** The clamped scores the calculator works with (and reports back). */
  function ClampScores(s: Scores): (c: Scores)
    ensures WithinMaxima(c)
    ensures WithinMaxima(s) ==> c == s
    ensures NonNegative(s) ==> NonNegative(c)
    ensures s.java1 <= ScoreMax ==> c.java1 == s.java1
    ensures ScoreMax < s.java1 ==> c.java1 == ScoreMax
    ensures s.java2 <= ScoreMax ==> c.java2 == s.java2
    ensures ScoreMax < s.java2 ==> c.java2 == ScoreMax
    ensures s.js1 <= ScoreMax ==> c.js1 == s.js1
    ensures ScoreMax < s.js1 ==> c.js1 == ScoreMax
    ensures s.js2 <= ScoreMax ==> c.js2 == s.js2
    ensures ScoreMax < s.js2 ==> c.js2 == ScoreMax
    ensures s.mp1 <= ScoreMax ==> c.mp1 == s.mp1
    ensures ScoreMax < s.mp1 ==> c.mp1 == ScoreMax
    ensures s.mp2 <= ScoreMax ==> c.mp2 == s.mp2
    ensures ScoreMax < s.mp2 ==> c.mp2 == ScoreMax
    ensures s.mp3 <= ScoreMax ==> c.mp3 == s.mp3
    ensures ScoreMax < s.mp3 ==> c.mp3 == ScoreMax
    ensures s.mp3Docu <= ScoreMax ==> c.mp3Docu == s.mp3Docu
    ensures ScoreMax < s.mp3Docu ==> c.mp3Docu == ScoreMax
  {
    Scores(Clamp(s.java1, ScoreMax), Clamp(s.java2, ScoreMax),
           Clamp(s.js1, ScoreMax), Clamp(s.js2, ScoreMax),
           Clamp(s.mp1, ScoreMax), Clamp(s.mp2, ScoreMax),
           Clamp(s.mp3, ScoreMax), Clamp(s.mp3Docu, ScoreMax))
  }

  /** The weighted prelim exam: 20% Java 1, 30% Java 2, 20% JS 1, 30% JS 2. */
  function PrelimExam(c: Scores): (r: real)
    ensures c.java1 == c.java2 == c.js1 == c.js2 ==> r == c.java1
    ensures c.java1 <= ScoreMax && c.java2 <= ScoreMax && c.js1 <= ScoreMax && c.js2 <= ScoreMax
            ==> r <= ScoreMax
    ensures 0.0 <= c.java1 && 0.0 <= c.java2 && 0.0 <= c.js1 && 0.0 <= c.js2 ==> 0.0 <= r
  {
    0.2 * c.java1 + 0.3 * c.java2 + 0.2 * c.js1 + 0.3 * c.js2
  }

  /** The result record of the laboratory calculator. */
  datatype Result = Result(
    prelimExam: real,
    labPointsEarned: real,
    maxLabPoints: real,
    labWorkPercentage: real,
    attendance: real,
    classStanding: real,
    prelimGrade: real,
    failed: bool,
    rawScores: Scores,
    absences: nat)

  /** Every computed percentage and grade lies between `lo` and 100. */
  predicate GradesAtLeast(r: Result, lo: real)
  {
    lo <= r.prelimExam <= 100.0 && lo <= r.labWorkPercentage <= 100.0 &&
    lo <= r.attendance <= 100.0 && lo <= r.classStanding <= 100.0 &&
    lo <= r.prelimGrade <= 100.0
  }

  /** `calculateLabGrade`. */
  function Grade(raw: Scores, absences: nat): (r: Result)
    ensures r.rawScores == ClampScores(raw) && r.absences == absences
    ensures r.maxLabPoints == MaxLabPoints && r.labPointsEarned <= MaxLabPoints
    ensures r.attendance == Attendance(absences)
    ensures r.failed <==> absences >= AbsenceLimit || r.prelimGrade < PassingGrade
    ensures r.prelimExam <= 100.0 && r.labWorkPercentage <= 100.0
    ensures r.classStanding <= 100.0 && r.prelimGrade <= 100.0
    ensures NonNegative(raw) ==> GradesAtLeast(r, 0.0) && 0.0 <= r.labPointsEarned
  {
    var c := ClampScores(raw);
    var prelimExam := PrelimExam(c);
    var labPointsEarned := c.mp1 + c.mp2 + c.mp3 + c.mp3Docu;
    var labWorkPercentage := Percentage(labPointsEarned, MaxLabPoints);
    var attendance := Attendance(absences);
    var classStanding := ClassStanding(labWorkPercentage, attendance);
    var prelimGrade := PrelimGrade(prelimExam, classStanding);
    Result(prelimExam, labPointsEarned, MaxLabPoints, labWorkPercentage, attendance,
           classStanding, prelimGrade, Fails(absences, prelimGrade), c, absences)
  }

  /** A score above 100 behaves exactly like 100. */
  lemma ClampingIsTransparent(raw: Scores, absences: nat)
    ensures Grade(ClampScores(raw), absences) == Grade(raw, absences)
  {
  }

  /** Full marks and no absences give 100 everywhere and a pass. */
  lemma PerfectScores()
    ensures GradesAtLeast(Grade(Perfect, 0), 100.0)
    ensures !Grade(Perfect, 0).failed
  {
    assert ClampScores(Perfect) == Perfect;
  }

  /**
   * The prelim grade is 100 exactly when every clamped score is 100 and
   * there are no absences.
   */
  lemma PerfectGradeExactly(raw: Scores, absences: nat)
    ensures Grade(raw, absences).prelimGrade == 100.0 <==>
            ClampScores(raw) == Perfect && absences == 0
  {
    var r := Grade(raw, absences);
    PerfectBlend(r.prelimExam, r.labWorkPercentage, r.attendance);
  }

  /** Four or more absences fail the course whatever the scores. */
  lemma ExcessAbsencesFail(raw: Scores, absences: nat)
    requires absences >= AbsenceLimit
    ensures Grade(raw, absences).failed
  {
  }

  /** Extra absences never raise the grade nor turn a failure into a pass. */
  lemma MoreAbsencesNeverHelp(raw: Scores, fewer: nat, more: nat)
    requires fewer <= more
    ensures Grade(raw, more).prelimGrade <= Grade(raw, fewer).prelimGrade
    ensures Grade(raw, fewer).failed ==> Grade(raw, more).failed
  {
    AttendanceNonIncreasing(fewer, more);
  }
}
