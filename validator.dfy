/**
 * `ValidationReport` of src/polygon/validator.rs: a table from check name to its number of
 * failed rows, a row count, and an overall verdict that turns false at the first check
 * reporting failures and never turns back.
 */
module Validator {

  /** One `add_check` call: a check's name and how many rows failed it. */
  datatype Check = Check(name: string, failedRows: nat)

  /** What a sequence of `add_check` calls leaves in the report: the check table and the verdict. */
  datatype Outcome = Outcome(checks: map<string, nat>, passed: bool)

  /** The outcome of recording the checks of `log`, in order, into a fresh report. */
  function Replay(log: seq<Check>): Outcome
  {
    if |log| == 0 then Outcome(map[], true)
    else
      var prior, c := Replay(log[..|log| - 1]), log[|log| - 1];
      Outcome(prior.checks[c.name := c.failedRows], prior.passed && c.failedRows == 0)
  }

  /** The verdict is true exactly when no recorded check reported a failed row. */
  lemma {:induction false} PassedIffNoFailures(log: seq<Check>)
    ensures Replay(log).passed <==> forall i :: 0 <= i < |log| ==> log[i].failedRows == 0
  {
    if |log| > 0 {
      var init := log[..|log| - 1];
      PassedIffNoFailures(init);
      assert forall i :: 0 <= i < |init| ==> init[i] == log[i];
    }
  }

  /**
   * A name is in the table exactly when some check of that name was recorded, and it maps to
   * the failed-row count of the latest such check.
   */
  lemma {:induction false} LatestCheckWins(log: seq<Check>, name: string)
    ensures name in Replay(log).checks <==> exists i :: 0 <= i < |log| && log[i].name == name
    ensures forall i :: 0 <= i < |log| && log[i].name == name &&
                        (forall j :: i < j < |log| ==> log[j].name != name) ==>
              Replay(log).checks[name] == log[i].failedRows
  {
    if |log| > 0 {
      var init := log[..|log| - 1];
      LatestCheckWins(init, name);
      assert forall i :: 0 <= i < |init| ==> init[i] == log[i];
      if log[|log| - 1].name != name {
        assert (exists i :: 0 <= i < |log| && log[i].name == name) ==>
               exists i :: 0 <= i < |init| && init[i].name == name;
      }
    }
  }

  /** A report that passed holds only zero counts. */
  lemma PassedMeansZeroCounts(log: seq<Check>)
    requires Replay(log).passed
    ensures forall name :: name in Replay(log).checks ==> Replay(log).checks[name] == 0
  {
    PassedIffNoFailures(log);
    forall name | name in Replay(log).checks
      ensures Replay(log).checks[name] == 0
    {
      LatestCheckWins(log, name);
      var i :| 0 <= i < |log| && log[i].name == name;
      var k := LastOf(log, name, i);
    }
  }

  /** The index of the latest check named `name`, given that the check at `i` has that name. */
  lemma {:induction false} LastOf(log: seq<Check>, name: string, i: nat) returns (k: nat)
    requires i < |log| && log[i].name == name
    ensures i <= k < |log| && log[k].name == name
    ensures forall j :: k < j < |log| ==> log[j].name != name
    decreases |log| - i
  {
    if exists j :: i < j < |log| && log[j].name == name {
      var j :| i < j < |log| && log[j].name == name;
      k := LastOf(log, name, j);
    } else {
      k := i;
    }
  }

  /** Once a check has failed the verdict stays false, whatever is recorded afterwards. */
  lemma NeverPassesAgain(log: seq<Check>, later: seq<Check>)
    requires !Replay(log).passed
    ensures !Replay(log + later).passed
  {
    PassedIffNoFailures(log);
    PassedIffNoFailures(log + later);
    var i :| 0 <= i < |log| && log[i].failedRows != 0;
    assert (log + later)[i] == log[i];
  }

  /**
   * The converse of `PassedMeansZeroCounts` fails: re-recording a failed check with zero
   * failures clears its count but not the verdict.
   */
  lemma OverwriteKeepsFailedVerdict(log: seq<Check>)
    requires |log| == 2 && log[0] == Check("Time Gaps", 3) && log[1] == Check("Time Gaps", 0)
    ensures Replay(log).checks == map["Time Gaps" := 0]
    ensures !Replay(log).passed
  {
    assert log[..1][..0] == [];
    assert Replay(log[..1]) == Outcome(map["Time Gaps" := 3], false);
  }

  class ValidationReport {
    var checks: map<string, nat>
    var totalRows: nat
    var passed: bool
    /** The `add_check` calls so far. */
    ghost var log: seq<Check>

    /** The table and the verdict are those the recorded checks produce. */
    ghost predicate Valid()
      reads this
    {
      Replay(log) == Outcome(checks, passed)
    }

    /** `new`: no checks, no rows, passed. */
    constructor ()
      ensures Valid() && log == []
      ensures checks == map[] && totalRows == 0 && passed
    {
      checks := map[];
      totalRows := 0;
      passed := true;
      log := [];
    }

    /**
     * `add_check`: records the count under the name, replacing any earlier count for it, and
     * clears the verdict when rows failed.
     */
    method AddCheck(name: string, failedRows: nat)
      requires Valid()
      modifies this
      ensures Valid() && log == old(log) + [Check(name, failedRows)]
      ensures checks == old(checks)[name := failedRows]
      ensures passed == (old(passed) && failedRows == 0)
      ensures totalRows == old(totalRows)
    {
      checks := checks[name := failedRows];
      if failedRows > 0 {
        passed := false;
      }
      log := log + [Check(name, failedRows)];
      assert log[..|log| - 1] == old(log);
    }

    /** `set_total_rows`: changes the row count and nothing else. */
    method SetTotalRows(count: nat)
      modifies this`totalRows
      ensures totalRows == count
    {
      totalRows := count;
    }
  }
}
