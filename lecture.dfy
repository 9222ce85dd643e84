/**
 * The lecture grade: a prelim exam out of 100 and four quizzes (essay out of
 * 100, PVM out of 60, Java basics out of 40, intro to JavaScript out of 40).
 * Each quiz becomes a percentage of its own maximum and the quiz percentage
 * is the plain average of the four.
 */
module Lecture {
  import opened Grading

  datatype Scores = Scores(prelimExam: real, essay: real, pvm: real, javaBasics: real, introJs: real)

  const PrelimExamMax: real := 100.0
  const EssayMax: real := 100.0
  const PvmMax: real := 60.0
  const JavaBasicsMax: real := 40.0
  const IntroJsMax: real := 40.0

  /** Every score at its field maximum. */
  const Perfect: Scores := Scores(PrelimExamMax, EssayMax, PvmMax, JavaBasicsMax, IntroJsMax)

  predicate WithinMaxima(s: Scores)
  {
    s.prelimExam <= PrelimExamMax && s.essay <= EssayMax && s.pvm <= PvmMax &&
    s.javaBasics <= JavaBasicsMax && s.introJs <= IntroJsMax
  }

  predicate NonNegative(s: Scores)
  {
    0.0 <= s.prelimExam && 0.0 <= s.essay && 0.0 <= s.pvm &&
    0.0 <= s.javaBasics && 0.0 <= s.introJs
  }

  /** The clamped scores the calculator works with (and reports back). */
  function ClampScores(s: Scores): (c: Scores)
    ensures WithinMaxima(c)
    ensures WithinMaxima(s) ==> c == s
    ensures NonNegative(s) ==> NonNegative(c)
    ensures s.prelimExam <= PrelimExamMax ==> c.prelimExam == s.prelimExam
    ensures PrelimExamMax < s.prelimExam ==> c.prelimExam == PrelimExamMax
    ensures s.essay <= EssayMax ==> c.essay == s.essay
    ensures EssayMax < s.essay ==> c.essay == EssayMax
    ensures s.pvm <= PvmMax ==> c.pvm == s.pvm
    ensures PvmMax < s.pvm ==> c.pvm == PvmMax
    ensures s.javaBasics <= JavaBasicsMax ==> c.javaBasics == s.javaBasics
    ensures JavaBasicsMax < s.javaBasics ==> c.javaBasics == JavaBasicsMax
    ensures s.introJs <= IntroJsMax ==> c.introJs == s.introJs
    ensures IntroJsMax < s.introJs ==> c.introJs == IntroJsMax
  {
    Scores(Clamp(s.prelimExam, PrelimExamMax), Clamp(s.essay, EssayMax), Clamp(s.pvm, PvmMax),
           Clamp(s.javaBasics, JavaBasicsMax), Clamp(s.introJs, IntroJsMax))
  }

  /** The result record of the lecture calculator. */
  datatype Result = Result(
    essayPercentage: real,
    pvmPercentage: real,
    javaBasicsPercentage: real,
    introJsPercentage: real,
    quizPercentage: real,
    attendance: real,
    classStanding: real,
    prelimGrade: real,
    failed: bool,
    rawScores: Scores,
    absences: nat)

  /** Every computed percentage and grade lies between `lo` and 100. */
  predicate GradesAtLeast(r: Result, lo: real)
  {
    lo <= r.essayPercentage <= 100.0 && lo <= r.pvmPercentage <= 100.0 &&
    lo <= r.javaBasicsPercentage <= 100.0 && lo <= r.introJsPercentage <= 100.0 &&
    lo <= r.quizPercentage <= 100.0 && lo <= r.attendance <= 100.0 &&
    lo <= r.classStanding <= 100.0 && lo <= r.prelimGrade <= 100.0
  }

  /**
   * The computation of `calculateLectureGrade` once the scores are clamped:
   * per-quiz percentages, their average, attendance, class standing, prelim
   * grade and the failure flag.
   */
  function GradeClamped(c: Scores, absences: nat): (r: Result)
    ensures r.rawScores == c && r.absences == absences
    ensures r.attendance == Attendance(absences)
    ensures r.failed <==> absences >= AbsenceLimit || r.prelimGrade < PassingGrade
    ensures WithinMaxima(c) ==> r.essayPercentage <= 100.0 && r.pvmPercentage <= 100.0
    ensures WithinMaxima(c) ==> r.javaBasicsPercentage <= 100.0 && r.introJsPercentage <= 100.0
    ensures WithinMaxima(c) ==>
            r.quizPercentage <= 100.0 && r.classStanding <= 100.0 && r.prelimGrade <= 100.0
    ensures WithinMaxima(c) && NonNegative(c) ==> GradesAtLeast(r, 0.0)
  {
    var essayPercentage := Percentage(c.essay, EssayMax);
    var pvmPercentage := Percentage(c.pvm, PvmMax);
    var javaBasicsPercentage := Percentage(c.javaBasics, JavaBasicsMax);
    var introJsPercentage := Percentage(c.introJs, IntroJsMax);
    var quizPercentage :=
      (essayPercentage + pvmPercentage + javaBasicsPercentage + introJsPercentage) / 4.0;
    var attendance := Attendance(absences);
    var classStanding := ClassStanding(quizPercentage, attendance);
    var prelimGrade := PrelimGrade(c.prelimExam, classStanding);
    Result(essayPercentage, pvmPercentage, javaBasicsPercentage, introJsPercentage,
           quizPercentage, attendance, classStanding, prelimGrade,
           Fails(absences, prelimGrade), c, absences)
  }

  /** `calculateLectureGrade`: clamp the raw scores, then grade them. */
  function Grade(raw: Scores, absences: nat): (r: Result)
    ensures r.rawScores == ClampScores(raw) && r.absences == absences
    ensures r.attendance == Attendance(absences)
    ensures r.failed <==> absences >= AbsenceLimit || r.prelimGrade < PassingGrade
    ensures r.essayPercentage <= 100.0 && r.pvmPercentage <= 100.0
    ensures r.javaBasicsPercentage <= 100.0 && r.introJsPercentage <= 100.0
    ensures r.quizPercentage <= 100.0 && r.classStanding <= 100.0 && r.prelimGrade <= 100.0
    ensures NonNegative(raw) ==> GradesAtLeast(r, 0.0)
  {
    var c := ClampScores(raw);
    assert WithinMaxima(c);
    assert NonNegative(raw) ==> NonNegative(c);
    GradeClamped(c, absences)
  }

  /** A score above its maximum behaves exactly like the maximum. */
  lemma ClampingIsTransparent(raw: Scores, absences: nat)
    ensures Grade(ClampScores(raw), absences) == Grade(raw, absences)
  {
  }

  /** Full marks and no absences give 100 everywhere and a pass. */
  lemma PerfectScores()
    ensures GradesAtLeast(Grade(Perfect, 0), 100.0)
    ensures !Grade(Perfect, 0).failed
  {
  }

  /**
   * The prelim grade is 100 exactly when every clamped score is at its
   * maximum and there are no absences.
   */
  lemma PerfectGradeExactly(raw: Scores, absences: nat)
    ensures Grade(raw, absences).prelimGrade == 100.0 <==>
            ClampScores(raw) == Perfect && absences == 0
  {
    var r := Grade(raw, absences);
    PerfectBlend(r.rawScores.prelimExam, r.quizPercentage, r.attendance);
  }

  /** Four or more absences fail the course whatever the scores. */
  lemma ExcessAbsencesFail(raw: Scores, absences: nat)
    requires absences >= AbsenceLimit
    ensures Grade(raw, absences).failed
  {
  }

  /** Extra absences never raise the grade nor turn a failure into a pass. */
  lemma MoreAbsencesNeverHelp(raw: Scores, fewer: nat, more: nat)
    requires fewer <= more
    ensures Grade(raw, more).prelimGrade <= Grade(raw, fewer).prelimGrade
    ensures Grade(raw, fewer).failed ==> Grade(raw, more).failed
  {
    AttendanceNonIncreasing(fewer, more);
  }

  /**
   * The quiz percentage is the average of the four per-quiz percentages. It
   * equals the share of the 240 quiz points only when four times the essay
   * score is five times the two 40-point quizzes together (the 60-point
   * quiz weighs the same under both readings).
   */
  lemma QuizPercentageIsAverage(raw: Scores, absences: nat)
    ensures var c := ClampScores(raw);
            var r := Grade(raw, absences);
            && r.quizPercentage ==
               (r.essayPercentage + r.pvmPercentage + r.javaBasicsPercentage + r.introJsPercentage) / 4.0
            && (r.quizPercentage == (c.essay + c.pvm + c.javaBasics + c.introJs) / 240.0 * 100.0
                <==> 4.0 * c.essay == 5.0 * (c.javaBasics + c.introJs))
  {
  }

  /**
   * An illustration of the difference: an essay of 100 with the other
   * quizzes at 0 gives 25, while the points share would be 100/240 of 100.
   */
  lemma QuizAverageIsNotPointShare()
    ensures Grade(Scores(0.0, 100.0, 0.0, 0.0, 0.0), 0).quizPercentage == 25.0
    ensures (100.0 + 0.0 + 0.0 + 0.0) / 240.0 * 100.0 != 25.0
  {
    var s := Scores(0.0, 100.0, 0.0, 0.0, 0.0);
    assert ClampScores(s) == s;
    var r := Grade(s, 0);
    assert r.essayPercentage == 100.0;
    assert r.pvmPercentage == 0.0 && r.javaBasicsPercentage == 0.0 && r.introJsPercentage == 0.0;
  }
}
