# Grade calculator: how a prelim grade is computed and classified

The calculator is a browser form with two subjects. The **lecture** form
takes a prelim exam score and four quiz scores. The **laboratory** form takes
four practical exam parts and four pieces of lab work. Both forms have a row
of attendance checkboxes. On submit, the page does four things:

1. It counts the absences as the unchecked attendance boxes.
2. It refuses to calculate while any number field is above its `max`.
3. It runs the subject's calculator. The calculator clamps each score to its
   maximum, blends the scores with fixed weights into a class standing and a
   prelim grade, and marks the result failed on four or more absences or a
   grade below 75.
4. It classifies the result as "failed due to excessive absences", PASSED or
   FAILED, and for either subject lists the missed dates.

The model works on exact reals (`real`) and on already-parsed numbers.

- `wrappers.dfy`: module `Wrappers`, the `Option` type.
- `grading.dfy`: module `Grading`, the rules both calculators share. These
  are the clamp, the percentage, the attendance penalty
  `max(0, 100 - 10 * absences)`, class standing (60% coursework, 40%
  attendance), prelim grade (60% exam, 40% class standing) and the failure
  rule.
- `lecture.dfy`: module `Lecture`, `calculateLectureGrade`.
- `lab.dfy`: module `Lab`, `calculateLabGrade`.
- `form.dfy`: module `Form`, `handleCalculation` and `validateInput`. It
  holds the absence-counting loop, the validity gate and the dispatch to
  the subject's calculator.
- `display.dfy`: module `Display`, the decisions `displayResults` makes.
  These are the notice, the status line and the missed-date loop.

The lecture quiz percentage follows the code. The code turns each quiz into
a percentage of its own maximum and averages the four. The comment at
script.js:149 calls this the new calculation; dividing the sum of the quiz
points by 240 is the other reading. `Lecture.QuizPercentageIsAverage` states
exactly when the two agree, and `Lecture.QuizAverageIsNotPointShare` gives
an input on which they differ.

## Model

| member | source | states |
|---|---|---|
| `Grading.Clamp` | script.js:143-147 | a clamped score never exceeds its maximum; a score within the maximum is kept, one above it becomes the maximum |
| `Grading.Percentage` | script.js:150-153 | a score between 0 and its maximum gives a percentage between 0 and 100, and exactly 100 at the maximum |
| `Grading.Attendance` | script.js:157 | attendance lies in [0, 100]; it is 100 exactly when there are no absences and 0 exactly from ten absences on |
| `Grading.AttendanceStep` | script.js:200 | attendance starts at 100 and each further absence takes ten points off, down to 0 |
| `Grading.AttendanceNonIncreasing` | script.js:157 | more absences never give a higher attendance score |
| `Grading.ClassStanding` | script.js:158 | class standing lies between the coursework percentage and the attendance score (a weighted mean) |
| `Grading.PrelimGrade` | script.js:159 | the prelim grade lies between the exam score and the class standing (a weighted mean) |
| `Grading.PerfectBlend` | script.js:201-202 | with exam, coursework and attendance at most 100, the prelim grade is at most 100, and equals 100 exactly when all three are 100 |
| `Lecture.ClampScores` | script.js:143-147 | field by field: a lecture score within its maximum (100, 100, 60, 40, 40) is kept and one above it becomes the maximum, whatever the other fields hold; so all clamped scores are within the maxima and non-negative scores stay non-negative |
| `Lecture.GradeClamped` | script.js:149-170 | on scores within their maxima every percentage, the class standing and the grade are at most 100 (and at least 0 for non-negative scores); attendance follows the penalty rule and `failed` holds exactly when absences >= 4 or the grade < 75 |
| `Lecture.Grade` | script.js:142-181 | reports the clamped scores and the absences; attendance follows the penalty rule; `failed` holds exactly when absences >= 4 or the grade < 75; every percentage, the class standing and the grade are at most 100, and at least 0 for non-negative scores |
| `Lecture.ClampingIsTransparent` | script.js:143-147 | grading the clamped scores gives the same result as grading the raw ones (an essay of 150 behaves as 100) |
| `Lecture.PerfectScores` | script.js:150-170 | full marks and no absences give 100 for every quiz percentage, the quiz percentage, attendance, class standing and grade, and a pass |
| `Lecture.PerfectGradeExactly` | script.js:149-159 | the lecture grade is 100 exactly when every clamped score is at its maximum and there are no absences |
| `Lecture.ExcessAbsencesFail` | script.js:170 | four or more absences fail the lecture whatever the scores |
| `Lecture.MoreAbsencesNeverHelp` | script.js:157-170 | with the same scores, more absences never raise the lecture grade nor turn a failure into a pass |
| `Lecture.QuizPercentageIsAverage` | script.js:149-155 | for every input, the quiz percentage is the plain average of the four per-quiz percentages, and it equals the share of the 240 quiz points exactly when four times the essay equals five times the two 40-point quizzes together |
| `Lecture.QuizAverageIsNotPointShare` | script.js:149-155 | an illustration: a full essay with the other quizzes at 0 gives a quiz percentage of 25, not the points share 100/240 of 100 |
| `Lab.ClampScores` | script.js:184-191 | field by field: a lab score within 100 is kept and one above 100 becomes 100, whatever the other fields hold; so all clamped scores are at most 100 and non-negative scores stay non-negative |
| `Lab.PrelimExam` | script.js:193-194 | the exam weights sum to one: four equal parts give that value; the four exam parts within [0, 100] give an exam within [0, 100] |
| `Lab.Grade` | script.js:183-225 | reports the clamped scores, the absences and 400 lab points available; earned lab points are at most 400; attendance follows the penalty rule; `failed` holds exactly when absences >= 4 or the grade < 75; exam, lab-work percentage, class standing and grade are at most 100, and at least 0 for non-negative scores |
| `Lab.ClampingIsTransparent` | script.js:184-191 | grading the clamped lab scores gives the same result as grading the raw ones |
| `Lab.PerfectScores` | script.js:193-212 | all scores at 100 and no absences give exam, lab-work percentage, attendance, class standing and grade of 100, and a pass |
| `Lab.PerfectGradeExactly` | script.js:193-202 | the lab grade is 100 exactly when every clamped score is 100 and there are no absences |
| `Lab.ExcessAbsencesFail` | script.js:212 | four or more absences fail the lab whatever the scores |
| `Lab.MoreAbsencesNeverHelp` | script.js:200-212 | with the same scores, more absences never raise the lab grade nor turn a failure into a pass |
| `Form.CountChecked` | script.js:237-243 | the number of present days is at most the number of boxes; it is 0 exactly when no box is checked and the total exactly when all are |
| `Form.CheckedMultiplicity` | script.js:236-246 | present days are the checked boxes and absences the unchecked ones, counted as multiplicities |
| `Form.CountAbsences` | script.js:235-246 | the loop's absences equal total boxes minus present days, that is, the number of unchecked boxes |
| `Form.FlaggedExactly` | script.js:31-42 | a field shows its error exactly when it has a non-zero maximum and a value above it; a missing or zero maximum and a value that is not a number never show it |
| `Form.CheckFields` | script.js:248-254 | the form is valid exactly when no number field is flagged |
| `Form.GateMatchesClamp` | script.js:36 | when the form's maxima equal the clamp bounds, the scores that pass validation are exactly those clamping leaves unchanged, for both subjects |
| `Form.Evaluate` | script.js:266-268 | the subject picks the calculator, which grades the submitted scores (the lecture grade for a lecture form, the lab grade otherwise); the result carries the absences, fails exactly when absences >= 4 or the grade < 75, and has a grade of at most 100 |
| `Form.HandleCalculation` | script.js:228-269 | no result exactly when some field is flagged; otherwise the subject's grade with the number of unchecked boxes as absences, which never exceed the number of boxes |
| `Display.Classify` | script.js:418-424 | exactly one of the notice, PASSED and FAILED is shown; the notice exactly when failed with a grade >= 75; PASSED exactly when not failed and grade >= 75; FAILED exactly when the grade < 75 |
| `Display.VerdictOfGrade` | script.js:273 | on a calculator's result, the absence notice means four or more absences with a passing grade, PASSED is shown exactly when the result did not fail, and FAILED only on a failed result |
| `Display.Missed` | script.js:285-290 | there are no more missed dates than dates; each one is a given date whose box exists and is unchecked |
| `Display.MissedComplete` | script.js:287-288 | every date whose box exists and is unchecked is listed |
| `Display.MissedKeepsOrder` | script.js:285-290 | the missed dates keep calendar order: the list for two consecutive stretches of dates is the first stretch's list followed by the second's |
| `Display.MissedCountIsAbsences` | script.js:281-290 | when every date has its box, there are as many missed dates as absences counted from those boxes |
| `Display.MissedSingle` | script.js:287-288 | a single date is listed exactly when its box exists and is unchecked |
| `Display.TrackedDatesMissed` | script.js:281-290 | for the four tracked meetings, the missed list names each date whose box is unchecked once, in calendar order |
| `Display.CollectMissedDates` | script.js:281-290 | the loop that pushes each unchecked date yields exactly the missed dates |

## Left out

- Parsing: scores are already-parsed reals. `parseFloat`, NaN results from empty or malformed input and `toFixed` formatting are not modelled. The validator's parsed numbers are `Option<real>`, with `None` for NaN.
- Floating point: the model computes on exact rationals. The page computes on IEEE doubles, so a grade within rounding distance of 75 may be classified differently.
- Negative scores: `Math.min` clamps only from above. The lower bounds are therefore stated only for non-negative scores.
- The page markup (the forms, their `max` attributes and the attendance boxes) is not part of this model. The boxes and fields are parameters. `Form.GateMatchesClamp` assumes the maxima equal the clamp bounds.
- Checkbox lookup by name (`attendance-` plus the lower-cased date without its space) is a DOM query. It is a parameter `lookup` from date to box state.
- The calculators overwrite the submitted data with the clamped scores. The model returns those scores in the result record instead.
- DOM lookup, event wiring, tab switching and the HTML rendering of the results are UI work with no decisions beyond those modelled.
- The theme toggle and its `localStorage` persistence are browser I/O.
- The particle background animation uses randomness and floating-point motion. It is decorative.
- The one-second delay and the asynchronous flow before results appear only affect timing.
