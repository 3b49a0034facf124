/** The result aggregator: it reads the execution engine's structured log
    stream one line at a time, keeps every test-case result it finds, and
    derives the run's exit status from them. */
module Results {
  import opened Wrappers

  /** The `msg` of a log record: free text, or an object of string fields. */
  datatype Message = Text(text: string) | Fields(fields: map<string, string>)

  /** A decoded log record: its level, its message and its timestamp. */
  datatype LogRecord = LogRecord(lvl: string, msg: Message, dt: Option<string>)

  /** One line of the stream once decoded: empty, not a structured record,
      or a record. */
  datatype StreamLine = Blank | Malformed(text: string) | Record(record: LogRecord)

  /** One test-case outcome: its suite (`definition`), case and result. */
  datatype CaseResult = CaseResult(suite: string, testCase: string, result: string)

  const ResultsLevel := "results"
  const PassResult := "pass"

  /** The test-case result a line carries: only a record at the results level
      whose message holds `definition`, `case` and `result` carries one. */
  function CaseResultOf(line: StreamLine): Option<CaseResult> {
    match line
    case Record(LogRecord(lvl, Fields(f), _)) =>
      if lvl == ResultsLevel && "definition" in f && "case" in f && "result" in f
      then Some(CaseResult(f["definition"], f["case"], f["result"]))
      else None
    case _ => None
  }

  /** The results a line contributes, as a sequence of zero or one. */
  function ResultsIn(line: StreamLine): seq<CaseResult> {
    match CaseResultOf(line)
    case Some(r) => [r]
    case None => []
  }

  predicate AllPass(rs: seq<CaseResult>) {
    forall i | 0 <= i < |rs| :: rs[i].result == PassResult
  }

  /** The exit status of a sequence of results, folded from the last: a single
      result that is not a pass makes it 1; no results at all is 0. */
  function Verdict(rs: seq<CaseResult>): (code: int)
    ensures code == 0 || code == 1
    ensures code == 0 <==> AllPass(rs)
  {
    if |rs| == 0 then 0
    else if rs[|rs| - 1].result != PassResult then 1
    else
      assert forall i | 0 <= i < |rs| - 1 :: rs[..|rs| - 1][i] == rs[i];
      Verdict(rs[..|rs| - 1])
  }

  /** Adding one result changes the verdict only by failing it. */
  lemma VerdictSnoc(rs: seq<CaseResult>, r: CaseResult)
    ensures Verdict(rs + [r]) == if r.result == PassResult then Verdict(rs) else 1
  {
    assert (rs + [r])[..|rs|] == rs;
  }

  /** The verdict of a stream split anywhere is the worse of the two parts'
      verdicts: no result is lost or counted twice by splitting, and a
      provisional 1 stays 1 whatever follows. */
  lemma {:induction false} VerdictAppend(a: seq<CaseResult>, b: seq<CaseResult>)
    ensures Verdict(a + b) == if Verdict(a) == 1 || Verdict(b) == 1 then 1 else 0
  {
    if |b| == 0 {
      assert a + b == a;
    } else {
      var b' := b[..|b| - 1];
      var r := b[|b| - 1];
      assert b == b' + [r];
      assert a + b == (a + b') + [r];
      VerdictAppend(a, b');
      VerdictSnoc(a + b', r);
      VerdictSnoc(b', r);
    }
  }

  /** The aggregator object. `results` holds every test-case result parsed so
      far, in arrival order and never revised; `status` is the exit status
      kept up to date as they arrive; `anomalies` counts lines that were not
      structured records. */
  class Results {
    var results: seq<CaseResult>
    var status: int
    var anomalies: nat

    ghost predicate Valid()
      reads this
    {
      status == Verdict(results)
    }

    constructor ()
      ensures Valid()
      ensures results == [] && anomalies == 0
    {
      results := [];
      status := 0;
      anomalies := 0;
    }

    /** `parse`: consumes one line. A result record is appended; a malformed
        line is counted and otherwise skipped; anything else changes nothing. */
    method Parse(line: StreamLine)
      requires Valid()
      modifies this
      ensures Valid()
      ensures results == old(results) + ResultsIn(line)
      ensures anomalies == old(anomalies) + (if line.Malformed? then 1 else 0)
    {
      if line.Malformed? {
        anomalies := anomalies + 1;
      }
      var r := CaseResultOf(line);
      if r.Some? {
        VerdictSnoc(results, r.value);
        results := results + [r.value];
        if r.value.result != PassResult {
          status := 1;
        }
      }
    }

    /** `ret`: 0 when every result seen so far is a pass (or none was seen),
        1 otherwise. It only reads the object, so calling it again gives the
        same answer. */
    function Ret(): (code: int)
      requires Valid()
      reads this
      ensures code == 0 || code == 1
      ensures code == 0 <==> AllPass(results)
    {
      status
    }
  }

  /** The result record that the unit tests feed to `parse`. */
  function GenTest(name: string, result: string, suite: string): StreamLine {
    Record(LogRecord(ResultsLevel, Fields(map["definition" := suite, "case" := name, "result" := result]), None))
  }

  /** A fresh aggregator returns 0. */
  method ReturnsZeroByDefault() returns (code: int)
    ensures code == 0
  {
    var results := new Results();
    code := results.Ret();
  }

  /** Two passing results in one suite give 0. */
  method ReturnsZeroWithNoFailures() returns (code: int)
    ensures code == 0
  {
    var results := new Results();
    results.Parse(GenTest("test1", "pass", "mytestsuite"));
    results.Parse(GenTest("test2", "pass", "mytestsuite"));
    code := results.Ret();
  }

  /** A pass followed by a failure in the same suite gives 1. */
  method ReturnsOneOnFailure() returns (code: int)
    ensures code == 1
  {
    var results := new Results();
    results.Parse(GenTest("test1", "pass", "mytestsuite"));
    results.Parse(GenTest("test2", "fail", "mytestsuite"));
    code := results.Ret();
  }
}
