/**
 * The call-count cell of the `Stats` report table: the count averaged over
 * the runs, followed by `/` and the averaged non-recursive count when some
 * calls were recursive. The number formatting itself is not modelled.
 */
module Report {
  import opened Wrappers

  /** The report divides by the run count; zero runs is a ZeroDivisionError. */
  datatype ReportError = ZeroRuns

  /** One `ncalls` cell: averaged calls and, for recursive functions, averaged non-recursive calls. */
  datatype NCalls = NCalls(calls: real, nonrec: Option<real>)

  /** The `ncalls` cell of one function. */
  function NCallsCell(count: int, countNonrec: int, nruns: int): (r: Result<NCalls, ReportError>)
    ensures r.Err? <==> nruns == 0
    ensures r.Ok? ==> r.value.calls * nruns as real == count as real
    ensures r.Ok? ==> (r.value.nonrec.Some? <==> count > countNonrec)
    ensures r.Ok? && r.value.nonrec.Some? ==> r.value.nonrec.value * nruns as real == countNonrec as real
  {
    if nruns == 0 then Err(ZeroRuns)
    else
      var calls := count as real / nruns as real;
      if count > countNonrec then Ok(NCalls(calls, Some(countNonrec as real / nruns as real)))
      else Ok(NCalls(calls, None))
  }

  /**
   * The suffix marks recursion: it is shown exactly when some calls came
   * from the function itself, and then the shown non-recursive average is
   * below the shown call average whenever the run count is positive.
   */
  lemma NonrecSuffixBelowCalls(count: int, countNonrec: int, nruns: int)
    requires nruns > 0
    ensures NCallsCell(count, countNonrec, nruns).value.nonrec.Some? ==>
      NCallsCell(count, countNonrec, nruns).value.nonrec.value < NCallsCell(count, countNonrec, nruns).value.calls
  {
    var r := NCallsCell(count, countNonrec, nruns).value;
    if r.nonrec.Some? {
      assert r.nonrec.value * nruns as real < r.calls * nruns as real;
    }
  }

  /** The documented sample row: 101 calls of which 1 non-recursive, over one run, reads `101/1`. */
  lemma SampleRow()
    ensures NCallsCell(101, 1, 1) == Ok(NCalls(101.0, Some(1.0)))
  {
  }
}
