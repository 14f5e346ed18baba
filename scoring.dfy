/** The scoring loop: run the selected checks in registry order, each inside
    an exception boundary, add up the points, record one result per check and
    give the verdict against the passing score. */
module Scoring {
  import opened Text
  import opened Project
  import opened Registry

  /** One entry of the results list. */
  datatype CheckRecord = CheckRecord(name: string, moduleNum: nat, points: nat, earned: nat, passed: bool, message: string)

  /** What a run that selected some checks returns. */
  datatype Report = Report(results: seq<CheckRecord>, earnedPoints: nat, totalPoints: nat)

  /** The absolute number of points a run needs to pass. */
  const PassingScore: nat := 70

  /** The verdict of a run. */
  predicate Passed(r: Report) {
    r.earnedPoints >= PassingScore
  }

  /** The record of one check: an exception counts as a failure whose message
      is the exception's text after `Error: `. */
  function Record(c: Check, o: Outcome): (r: CheckRecord)
    ensures r.name == c.name && r.moduleNum == c.moduleNum && r.points == c.points
    ensures r.passed <==> o.Pass?
    ensures r.earned == if o.Pass? then c.points else 0
    ensures r.message == if o.Fault? then "Error: " + o.error else o.message
  {
    match o
    case Pass(msg) => CheckRecord(c.name, c.moduleNum, c.points, c.points, true, msg)
    case Fail(msg) => CheckRecord(c.name, c.moduleNum, c.points, 0, false, msg)
    case Fault(e) => CheckRecord(c.name, c.moduleNum, c.points, 0, false, "Error: " + e)
  }

  /** The checks a run executes: the whole registry, or the entries of the
      filtered module in registry order. */
  function Selected(checks: seq<Check>, filter: Option<nat>): seq<Check> {
    if filter.None? then checks else ModuleChecks(checks, filter.value)
  }

  /** What each check's evaluator yields. */
  function Outcomes(cs: seq<Check>, env: Env): (outs: seq<Outcome>)
    ensures |outs| == |cs|
    ensures forall k | 0 <= k < |cs| :: outs[k] == cs[k].func(env)
  {
    if |cs| == 0 then [] else [cs[0].func(env)] + Outcomes(cs[1..], env)
  }

  /** One record per check, in order. */
  function Records(cs: seq<Check>, outs: seq<Outcome>): (rs: seq<CheckRecord>)
    requires |outs| == |cs|
    ensures |rs| == |cs|
    ensures forall k | 0 <= k < |cs| :: rs[k] == Record(cs[k], outs[k])
  {
    if |cs| == 0 then [] else [Record(cs[0], outs[0])] + Records(cs[1..], outs[1..])
  }

  /** The points of the checks that passed. */
  function Earned(cs: seq<Check>, outs: seq<Outcome>): (n: nat)
    requires |outs| == |cs|
    ensures n <= Points(cs)
  {
    if |cs| == 0 then 0
    else (if outs[0].Pass? then cs[0].points else 0) + Earned(cs[1..], outs[1..])
  }

  /** The report for the checks `cs` whose evaluators yielded `outs`. */
  function MakeReport(cs: seq<Check>, outs: seq<Outcome>): Report
    requires |outs| == |cs|
  {
    Report(Records(cs, outs), Earned(cs, outs), Points(cs))
  }

  /** The module numbers whose headers are shown when the checks `cs` run
      after a check of module `prev`: one each time the module changes. */
  function HeadersAfter(prev: Option<nat>, cs: seq<Check>): seq<nat>
    decreases |cs|
  {
    if |cs| == 0 then []
    else (if prev == Some(cs[0].moduleNum) then [] else [cs[0].moduleNum]) + HeadersAfter(Some(cs[0].moduleNum), cs[1..])
  }

  function Headers(cs: seq<Check>): seq<nat> {
    HeadersAfter(None, cs)
  }

  /** How far the loop of `run_checks` has got after the checks `sel[..i]`:
      each accumulator plus what the remaining checks will add is its final
      value, and the records so far are those of the checks run so far. */
  ghost predicate Progress(sel: seq<Check>, outs: seq<Outcome>, i: nat, total: nat, earned: nat,
                           results: seq<CheckRecord>, headers: seq<nat>, current: Option<nat>)
    requires |outs| == |sel| && i <= |sel|
  {
    && total + Points(sel[i..]) == Points(sel)
    && earned + Earned(sel[i..], outs[i..]) == Earned(sel, outs)
    && |results| == i && (forall k | 0 <= k < i :: results[k] == Record(sel[k], outs[k]))
    && headers + HeadersAfter(current, sel[i..]) == Headers(sel)
    && current == if i == 0 then None else Some(sel[i - 1].moduleNum)
  }

  /** Running the check at index `i` keeps the loop on track. */
  lemma ProgressStep(sel: seq<Check>, outs: seq<Outcome>, i: nat, total: nat, earned: nat,
                     results: seq<CheckRecord>, headers: seq<nat>, current: Option<nat>)
    requires |outs| == |sel| && i < |sel|
    requires Progress(sel, outs, i, total, earned, results, headers, current)
    ensures var m := sel[i].moduleNum;
      Progress(sel, outs, i + 1, total + sel[i].points, earned + Gain(sel[i], outs[i]),
               results + [Record(sel[i], outs[i])],
               if current == Some(m) then headers else headers + [m], Some(m))
  {
    RunStep(sel, outs, i);
    HeaderStep(sel, i, current, headers, Headers(sel));
  }

  /** What running the check at index `i` adds to the totals. */
  lemma RunStep(sel: seq<Check>, outs: seq<Outcome>, i: nat)
    requires |outs| == |sel| && i < |sel|
    ensures Points(sel[i..]) == sel[i].points + Points(sel[i + 1..])
    ensures Earned(sel[i..], outs[i..]) == Gain(sel[i], outs[i]) + Earned(sel[i + 1..], outs[i + 1..])
  {
    assert sel[i..][1..] == sel[i + 1..] && outs[i..][1..] == outs[i + 1..];
  }

  /** Showing the header of the check at index `i` when its module differs
      from the previous one keeps the headers on track. */
  lemma HeaderStep(sel: seq<Check>, i: nat, prev: Option<nat>, shown: seq<nat>, whole: seq<nat>)
    requires i < |sel| && shown + HeadersAfter(prev, sel[i..]) == whole
    ensures var m := sel[i].moduleNum;
      (if prev == Some(m) then shown else shown + [m]) + HeadersAfter(Some(m), sel[i + 1..]) == whole
  {
    assert sel[i..][1..] == sel[i + 1..];
    var m := sel[i].moduleNum;
    var rest := HeadersAfter(Some(m), sel[i + 1..]);
    if prev != Some(m) {
      assert shown + ([m] + rest) == (shown + [m]) + rest;
    }
  }

  /** After the last check the accumulators hold the report and the headers. */
  lemma ProgressDone(sel: seq<Check>, outs: seq<Outcome>, total: nat, earned: nat,
                     results: seq<CheckRecord>, headers: seq<nat>, current: Option<nat>)
    requires |outs| == |sel|
    requires Progress(sel, outs, |sel|, total, earned, results, headers, current)
    ensures Report(results, earned, total) == MakeReport(sel, outs) && headers == Headers(sel)
  {
    assert sel[|sel|..] == [] && outs[|sel|..] == [];
    assert headers + [] == headers;
    assert results == Records(sel, outs);
  }

  /** The dictionary the loop appends for a check is its record. */
  lemma RecordOf(c: Check, o: Outcome, record: CheckRecord)
    requires record.name == c.name && record.moduleNum == c.moduleNum && record.points == c.points
    requires record.passed == o.Pass? && record.earned == if o.Pass? then c.points else 0
    requires record.message == if o.Fault? then "Error: " + o.error else o.message
    ensures record == Record(c, o)
  {
  }

  /** The loop of `run_checks` over the selected checks: the totals, the
      records and the module headers, in registry order. */
  method ScoreAll(sel: seq<Check>, env: Env) returns (report: Report, headers: seq<nat>)
    ensures report == MakeReport(sel, Outcomes(sel, env)) && headers == Headers(sel)
  {
    ghost var outs := Outcomes(sel, env);
    var total: nat, earned: nat := 0, 0;
    var results: seq<CheckRecord> := [];
    var current: Option<nat> := None;
    headers := [];
    for i := 0 to |sel|
      invariant Progress(sel, outs, i, total, earned, results, headers, current)
    {
      var check := sel[i];
      ProgressStep(sel, outs, i, total, earned, results, headers, current);
      if current != Some(check.moduleNum) {
        headers := headers + [check.moduleNum];
        current := Some(check.moduleNum);
      }
      total := total + check.points;
      var o := check.func(env);
      var passed := o.Pass?;
      var message := if o.Fault? then "Error: " + o.error else o.message;
      if passed {
        earned := earned + check.points;
      }
      var record := CheckRecord(check.name, check.moduleNum, check.points, if passed then check.points else 0, passed, message);
      RecordOf(check, o, record);
      results := results + [record];
    }
    ProgressDone(sel, outs, total, earned, results, headers, current);
    report := Report(results, earned, total);
  }

  /** `run_checks`. With a filter that selects nothing, there is no report
      and nothing is scored; otherwise every selected check is run in order
      and the report holds what each evaluator yielded. */
  method RunChecks(checks: seq<Check>, filter: Option<nat>, env: Env) returns (report: Option<Report>, headers: seq<nat>)
    ensures report.None? <==> filter.Some? && Selected(checks, filter) == []
    ensures report.None? ==> headers == []
    ensures report.Some? ==>
      var sel := Selected(checks, filter);
      report.value == MakeReport(sel, Outcomes(sel, env)) && headers == Headers(sel)
  {
    var sel := Selected(checks, filter);
    if filter.Some? && |sel| == 0 {
      return None, [];
    }
    var r;
    r, headers := ScoreAll(sel, env);
    report := Some(r);
  }

  // ---------------------------------------------------------------- properties of a run

  /** The sum of the points the records earned. */
  function SumEarned(rs: seq<CheckRecord>): nat {
    if |rs| == 0 then 0 else rs[0].earned + SumEarned(rs[1..])
  }

  /** The sum of the points the records were worth. */
  function SumPoints(rs: seq<CheckRecord>): nat {
    if |rs| == 0 then 0 else rs[0].points + SumPoints(rs[1..])
  }

  /** The two running totals agree with the records: the earned points are
      the sum of what the records earned and the total is the sum of what
      they were worth, and each record earned all of its points or none. */
  lemma {:induction false} ReportConsistent(cs: seq<Check>, outs: seq<Outcome>)
    requires |outs| == |cs|
    ensures var r := MakeReport(cs, outs);
      && r.earnedPoints == SumEarned(r.results)
      && r.totalPoints == SumPoints(r.results)
      && r.earnedPoints <= r.totalPoints
      && forall k | 0 <= k < |r.results| :: r.results[k].earned == (if r.results[k].passed then r.results[k].points else 0)
  {
    if |cs| > 0 {
      ReportConsistent(cs[1..], outs[1..]);
      assert Records(cs, outs)[1..] == Records(cs[1..], outs[1..]);
    }
  }

  /** What a check's outcome is worth. */
  function Gain(c: Check, o: Outcome): nat {
    if o.Pass? then c.points else 0
  }

  /** Every record depends on its own check's outcome only: changing the
      outcome of check `k` changes record `k` and nothing else among the
      records, leaves the total alone and moves the earned points by the
      difference in what that one outcome is worth. */
  lemma ReplaceOutcome(cs: seq<Check>, outs: seq<Outcome>, k: nat, o: Outcome)
    requires |outs| == |cs| && k < |cs|
    ensures Records(cs, outs[k := o]) == Records(cs, outs)[k := Record(cs[k], o)]
    ensures Earned(cs, outs[k := o]) + Gain(cs[k], outs[k]) == Earned(cs, outs) + Gain(cs[k], o)
  {
    var after, before := Records(cs, outs[k := o]), Records(cs, outs)[k := Record(cs[k], o)];
    assert |after| == |before|;
    assert forall j | 0 <= j < |cs| :: after[j] == before[j];
    EarnedReplace(cs, outs, k, o);
  }

  lemma {:induction false} EarnedReplace(cs: seq<Check>, outs: seq<Outcome>, k: nat, o: Outcome)
    requires |outs| == |cs| && k < |cs|
    ensures Earned(cs, outs[k := o]) + Gain(cs[k], outs[k]) == Earned(cs, outs) + Gain(cs[k], o)
  {
    var outs' := outs[k := o];
    if k == 0 {
      assert outs'[1..] == outs[1..];
    } else {
      EarnedReplace(cs[1..], outs[1..], k - 1, o);
      assert outs'[1..] == outs[1..][k - 1 := o];
    }
  }

  /** A check that raises is recorded as failed with `Error: ` and the
      exception's text, still counts its full weight in the total, earns
      nothing, and every other check's record stays what it was. */
  lemma FaultIsolation(cs: seq<Check>, outs: seq<Outcome>, k: nat, e: string)
    requires |outs| == |cs| && k < |cs|
    ensures var before, after := MakeReport(cs, outs), MakeReport(cs, outs[k := Fault(e)]);
      && |after.results| == |before.results|
      && (forall j | 0 <= j < |cs| && j != k :: after.results[j] == before.results[j])
      && !after.results[k].passed && after.results[k].earned == 0
      && after.results[k].message == "Error: " + e
      && after.totalPoints == before.totalPoints
      && after.earnedPoints == before.earnedPoints - Gain(cs[k], outs[k])
  {
    ReplaceOutcome(cs, outs, k, Fault(e));
    var before, after := MakeReport(cs, outs), MakeReport(cs, outs[k := Fault(e)]);
    assert after.results == before.results[k := Record(cs[k], Fault(e))];
    assert after.earnedPoints + Gain(cs[k], outs[k]) == before.earnedPoints;
  }

  /** A filtered run selects at most one module, worth at most 25 points, so
      against the absolute passing score of 70 it can never pass. */
  lemma FilteredRunNeverPasses(m: nat, env: Env)
    ensures var sel := Selected(Rubric, Some(m));
      !Passed(MakeReport(sel, Outcomes(sel, env)))
  {
    RubricByModule(m);
  }

  /** The unfiltered run scores all 27 checks out of 100 points. */
  lemma FullRunTotal(env: Env)
    ensures var r := MakeReport(Rubric, Outcomes(Rubric, env));
      |r.results| == 27 && r.totalPoints == 100
  {
    RubricSize();
    RubricTotal();
  }

  /** Running a block of one module after a check of module `prev` shows
      that module's header once, unless it was already showing. */
  lemma {:induction false} HeadersOfBlock(prev: Option<nat>, block: seq<Check>, n: nat)
    requires |block| > 0 && OfModule(block, n)
    ensures HeadersAfter(prev, block) == if prev == Some(n) then [] else [n]
    decreases |block|
  {
    if |block| > 1 {
      HeadersOfBlock(Some(n), block[1..], n);
    }
  }

  /** Headers of a sequence of checks run one part after the other. */
  lemma {:induction false} HeadersAppend(prev: Option<nat>, a: seq<Check>, b: seq<Check>)
    requires |a| > 0
    ensures HeadersAfter(prev, a + b) == HeadersAfter(prev, a) + HeadersAfter(Some(a[|a| - 1].moduleNum), b)
    decreases |a|
  {
    assert (a + b)[0] == a[0];
    if |a| == 1 {
      assert (a + b)[1..] == b;
      assert a[1..] == [];
    } else {
      assert (a + b)[1..] == a[1..] + b;
      HeadersAppend(Some(a[0].moduleNum), a[1..], b);
    }
  }

  /** The `n` module numbers from `FirstModule` on, in order. */
  function ModulesFrom(n: nat): seq<nat> {
    if n == 0 then [] else ModulesFrom(n - 1) + [FirstModule + n - 1]
  }

  /** Appending a block of module `n` to checks whose last one belongs to
      module `n - 1` shows the header of module `n` after theirs. */
  lemma HeadersStep(prefix: seq<Check>, block: seq<Check>, n: nat)
    requires 0 < n && |prefix| > 0 && prefix[|prefix| - 1].moduleNum == n - 1
    requires |block| > 0 && OfModule(block, n)
    ensures Headers(prefix + block) == Headers(prefix) + [n]
    ensures (prefix + block)[|prefix + block| - 1].moduleNum == n
  {
    HeadersAppend(None, prefix, block);
    HeadersOfBlock(Some(n - 1), block, n);
  }

  /** Laid-out blocks show the header of each of their modules once, in order. */
  lemma {:induction false} FlattenHeaders(bs: seq<seq<Check>>)
    requires Layout(bs) && |bs| > 0
    ensures Headers(Flatten(bs)) == ModulesFrom(|bs|)
    ensures |Flatten(bs)| > 0 && Flatten(bs)[|Flatten(bs)| - 1].moduleNum == FirstModule + |bs| - 1
    decreases |bs|
  {
    var init, last := bs[..|bs| - 1], bs[|bs| - 1];
    assert Layout(init);
    if |bs| == 1 {
      assert Flatten(bs) == last by {
        assert Flatten(init) == [];
      }
      HeadersOfBlock(None, last, FirstModule);
    } else {
      FlattenHeaders(init);
      HeadersStep(Flatten(init), last, FirstModule + |init|);
    }
  }

  /** A full run shows each module's header once, in module order. */
  lemma FullRunHeaders()
    ensures Headers(Rubric) == [4, 5, 6, 7, 8, 9, 10, 11]
  {
    BlocksLayout();
    FlattenHeaders(Blocks);
    assert ModulesFrom(8) == [4, 5, 6, 7, 8, 9, 10, 11];
  }

  /** A filtered run that selects a module shows just that module's header. */
  lemma FilteredRunHeaders(m: nat)
    requires 4 <= m <= 11
    ensures Headers(Selected(Rubric, Some(m))) == [m]
  {
    RubricByModule(m);
    BlockFacts(m);
    HeadersOfBlock(None, Block(m), m);
  }
}
