/**
 * The stand-alone program: it asks for a level until one is accepted and
 * then reports eighteen curves at that level, six regular and twelve
 * glitch groups. Its curve functions have the same bodies as the library's,
 * so the report is built from the same definitions. Reading the level and
 * printing are left to the caller; what remains is the acceptance test and
 * the list of values reported once a level has been accepted.
 */
module Expcalc {
  import opened Catalog
  import Regular
  import Glitch

  /** The prompt loop leaves once the level is neither below 1 nor above 100. */
  function LevelAccepted(n: int): (accepted: bool)
    ensures accepted <==> 1 <= n <= 100
  {
    !(n < 1 || n > 100)
  }

  /** The groups the program reports, in the order it prints them. */
  const ReportOrder: seq<Group> := [
    Erratic, Fast, MediumFast, MediumSlow, Slow, Fluctuating,
    GlitchD1, Glitch7B, Glitch81, Glitch0D, Glitch1A, Glitch06,
    Glitch1D, Glitch37, Glitch4B, Glitch57, Glitch64, Glitch88
  ]

  /**
   * What the program reports for an entered level: nothing for a rejected
   * level, which is asked for again, and otherwise each reported group's
   * value at that level, in print order.
   */
  function Report(n: int): (r: Option<seq<int>>)
    ensures r.Some? <==> 1 <= n <= 100
    ensures r.Some? ==> |r.value| == |ReportOrder| == 18
    ensures r.Some? ==> forall i :: 0 <= i < |r.value| ==> r.value[i] == Evaluate(ReportOrder[i], n)
  {
    if LevelAccepted(n) then Some(seq(|ReportOrder|, i requires 0 <= i < |ReportOrder| => Evaluate(ReportOrder[i], n)))
    else None
  }

  /** An accepted level reports the six regular curves first, Erratic leading. */
  lemma RegularCurvesReported(n: int)
    requires LevelAccepted(n)
    ensures Report(n).value[..6] == [
      Regular.Erratic(n), Regular.Fast(n), Regular.MediumFast(n), Regular.MediumSlow(n),
      Regular.Slow(n), Regular.Fluctuating(n)]
  {
  }

  /** The levels on either side of the accepted range. */
  lemma AcceptanceBoundaries()
    ensures LevelAccepted(1) && LevelAccepted(100)
    ensures !LevelAccepted(0) && !LevelAccepted(101)
  {
  }

  /** Levels just outside the accepted range report nothing. */
  lemma ReportRejects()
    ensures Report(0) == None && Report(101) == None
  {
  }

  /** The regular groups as reported at level 1: Medium Slow underflows to -53. */
  lemma RegularReportAtLevelOne()
    ensures Report(1).Some?
    ensures Report(1).value[..6] == [
        1, 0, 1, -53, 1, 0]
  {
    RegularCurvesReported(1);
    Regular.LevelOne();
  }

  /** The regular groups as reported at level 100, the documented maxima among them. */
  lemma RegularReportAtLevelHundred()
    ensures Report(100).Some?
    ensures Report(100).value[..6] == [
        600_000, 800_000, 1_000_000, 1_059_860, 1_250_000, 1_640_000]
  {
    RegularCurvesReported(100);
    Regular.LevelHundred();
  }
}
