/**
 * What `displayResults` decides: whether the "failed due to excessive
 * absences" notice is shown, the PASSED / FAILED status shown otherwise,
 * and, for either subject, the dates whose attendance box is left unchecked.
 */
module Display {
  import opened Wrappers
  import opened Grading
  import opened Form

  datatype Status = Passed | Failed

  /** The notice flag and the status line (absent when the notice is shown). */
  datatype Verdict = Verdict(failedDueToAbsences: bool, status: Option<Status>)

  /** Exactly one of the notice, PASSED and FAILED appears. */
  predicate ShowsExactlyOne(v: Verdict)
  {
    (v.failedDueToAbsences && v.status.None?) ||
    (!v.failedDueToAbsences && v.status == Some(Passed)) ||
    (!v.failedDueToAbsences && v.status == Some(Failed))
  }

  /** The classification of a calculator's `failed` flag and prelim grade. */
  function Classify(failed: bool, prelimGrade: real): (v: Verdict)
    ensures ShowsExactlyOne(v)
    ensures v.failedDueToAbsences <==> failed && prelimGrade >= PassingGrade
    ensures v.status == Some(Passed) <==> !failed && prelimGrade >= PassingGrade
    ensures v.status == Some(Failed) <==> prelimGrade < PassingGrade
  {
    var failedDueToAbsences := failed && prelimGrade >= PassingGrade;
    Verdict(failedDueToAbsences,
            if failedDueToAbsences then None
            else if prelimGrade >= PassingGrade then Some(Passed) else Some(Failed))
  }

  /**
   * On a calculator's result the absence notice means four or more absences
   * with a passing grade, and PASSED is shown exactly when the result did
   * not fail.
   */
  lemma VerdictOfGrade(sub: Submission, absences: nat)
    ensures var r := Evaluate(sub, absences);
            var v := Classify(r.Failed(), r.Grade());
            && (v.failedDueToAbsences <==> absences >= AbsenceLimit && r.Grade() >= PassingGrade)
            && (v.status == Some(Passed) <==> !r.Failed())
            && (v.status == Some(Failed) ==> r.Failed())
  {
  }

  /** The four meetings whose attendance both forms track, in calendar order. */
  const AttendanceDates: seq<string> := ["January 27", "February 3", "February 10", "February 17"]

  /**
   * The dates whose checkbox exists and is unchecked, in the order given.
   * `lookup` gives, per date, the state of the box found for it (`None` when
   * the form has no such box).
   */
  function Missed(dates: seq<string>, lookup: string -> Option<bool>): (m: seq<string>)
    ensures |m| <= |dates|
    ensures forall d :: d in m ==> d in dates && lookup(d) == Some(false)
  {
    if |dates| == 0 then []
    else
      var last := dates[|dates| - 1];
      Missed(dates[..|dates| - 1], lookup) + if lookup(last) == Some(false) then [last] else []
  }

  /** Every date whose box is unchecked is listed. */
  lemma {:induction false} MissedComplete(dates: seq<string>, lookup: string -> Option<bool>, d: string)
    requires d in dates && lookup(d) == Some(false)
    ensures d in Missed(dates, lookup)
  {
    var rest := dates[..|dates| - 1];
    if d != dates[|dates| - 1] {
      assert d in rest by {
        var k :| 0 <= k < |dates| && dates[k] == d;
        assert rest[k] == d;
      }
      MissedComplete(rest, lookup, d);
    }
  }

  /**
   * Missed dates keep the order of the dates: the list for two consecutive
   * stretches of dates is the first stretch's list followed by the second's.
   */
  lemma {:induction false} MissedKeepsOrder(first: seq<string>, second: seq<string>, lookup: string -> Option<bool>)
    ensures Missed(first + second, lookup) == Missed(first, lookup) + Missed(second, lookup)
  {
    if |second| > 0 {
      var all := first + second;
      assert all[..|all| - 1] == first + second[..|second| - 1];
      MissedKeepsOrder(first, second[..|second| - 1], lookup);
    } else {
      assert first + second == first;
    }
  }

  /**
   * For the four tracked meetings, the list names each date whose box is
   * unchecked once, in calendar order.
   */
  lemma TrackedDatesMissed(lookup: string -> Option<bool>)
    ensures Missed(AttendanceDates, lookup) ==
            (if lookup("January 27") == Some(false) then ["January 27"] else []) +
            (if lookup("February 3") == Some(false) then ["February 3"] else []) +
            (if lookup("February 10") == Some(false) then ["February 10"] else []) +
            (if lookup("February 17") == Some(false) then ["February 17"] else [])
  {
    var a, b, c, e := ["January 27"], ["February 3"], ["February 10"], ["February 17"];
    assert AttendanceDates == ((a + b) + c) + e;
    MissedKeepsOrder((a + b) + c, e, lookup);
    MissedKeepsOrder(a + b, c, lookup);
    MissedKeepsOrder(a, b, lookup);
    MissedSingle("January 27", lookup);
    MissedSingle("February 3", lookup);
    MissedSingle("February 10", lookup);
    MissedSingle("February 17", lookup);
  }

  /** A single date is listed exactly when its box exists and is unchecked. */
  lemma MissedSingle(date: string, lookup: string -> Option<bool>)
    ensures Missed([date], lookup) == if lookup(date) == Some(false) then [date] else []
  {
    assert [date][..0] == [];
  }

  /** The box states, date by date, counting a missing box as unchecked. */
  function CheckedAt(dates: seq<string>, lookup: string -> Option<bool>): (boxes: seq<bool>)
    ensures |boxes| == |dates|
  {
    if |dates| == 0 then []
    else CheckedAt(dates[..|dates| - 1], lookup) + [lookup(dates[|dates| - 1]) == Some(true)]
  }

  /**
   * When every date has its box, the missed dates are as many as the
   * absences counted from those boxes.
   */
  lemma {:induction false} MissedCountIsAbsences(dates: seq<string>, lookup: string -> Option<bool>)
    requires forall i :: 0 <= i < |dates| ==> lookup(dates[i]).Some?
    ensures |Missed(dates, lookup)| == |dates| - CountChecked(CheckedAt(dates, lookup))
  {
    if |dates| > 0 {
      var rest := dates[..|dates| - 1];
      var last := dates[|dates| - 1];
      assert forall i :: 0 <= i < |rest| ==> rest[i] == dates[i];
      MissedCountIsAbsences(rest, lookup);
      var boxes := CheckedAt(dates, lookup);
      var restBoxes := CheckedAt(rest, lookup);
      var checked := lookup(last) == Some(true);
      assert boxes == restBoxes + [checked];
      assert boxes[..|boxes| - 1] == restBoxes;
      assert CountChecked(boxes) == CountChecked(restBoxes) + if checked then 1 else 0;
      assert Missed(dates, lookup) ==
             Missed(rest, lookup) + if lookup(last) == Some(false) then [last] else [];
      assert lookup(last) == Some(false) <==> !checked by {
        assert lookup(dates[|dates| - 1]).Some?;
        if lookup(last).value {
          assert lookup(last) == Some(true);
        } else {
          assert lookup(last) == Some(false);
        }
      }
    }
  }

  /** The missed-date loop of `displayResults`, pushing each unchecked date. */
  method CollectMissedDates(dates: seq<string>, lookup: string -> Option<bool>)
    returns (missedDates: seq<string>)
    ensures missedDates == Missed(dates, lookup)
  {
    missedDates := [];
    var i := 0;
    while i < |dates|
      invariant 0 <= i <= |dates|
      invariant missedDates == Missed(dates[..i], lookup)
    {
      assert dates[..i + 1][..i] == dates[..i];
      var box := lookup(dates[i]);
      if box.Some? && !box.value {
        missedDates := missedDates + [dates[i]];
      }
      i := i + 1;
    }
    assert dates[..|dates|] == dates;
  }
}
