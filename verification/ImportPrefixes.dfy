/** An import as one list of writes, and a run cut off after any number of them. */
module ImportPrefixes {
  import opened Common
  import opened ImportModel
  import opened ImportSteps
  import opened ImportRuns
  import opened ImportTheorems
  import opened ImportIndex
  import opened ImportCourse

  lemma {:induction false} ImportAppend(verify: bool, g: Gate, rs: seq<Row>, qs: seq<Row>)
    ensures Import(verify, g, rs + qs) == Import(verify, Import(verify, g, rs), qs)
    decreases rs
  {
    hide After;
    if rs == [] {
      assert rs + qs == qs;
    } else {
      ImportAppend(verify, After(verify, g, rs[0]), rs[1..], qs);
      assert (rs + qs)[0] == rs[0] && (rs + qs)[1..] == rs[1..] + qs;
    }
  }

  lemma {:induction false} RunAppend(verify: bool, g: Gate, rs: seq<Row>, qs: seq<Row>)
    ensures Import(verify, g, rs + qs) == Import(verify, Import(verify, g, rs), qs)
    ensures RunWrites(verify, g, rs + qs) == RunWrites(verify, g, rs) + RunWrites(verify, Import(verify, g, rs), qs)
    ensures Reports(verify, g, rs + qs) == Reports(verify, g, rs) + Reports(verify, Import(verify, g, rs), qs)
    decreases rs
  {
    hide Plan, After, ReportOf;
    ImportAppend(verify, g, rs, qs);
    if rs == [] {
      assert rs + qs == qs;
    } else {
      var g', end := After(verify, g, rs[0]), Import(verify, g, rs);
      RunAppend(verify, g', rs[1..], qs);
      assert (rs + qs)[0] == rs[0] && (rs + qs)[1..] == rs[1..] + qs;
      AppendAssociates(Plan(verify, g, rs[0]), RunWrites(verify, g', rs[1..]), RunWrites(verify, end, qs));
      AppendAssociates([ReportOf(verify, g, rs[0])], Reports(verify, g', rs[1..]), Reports(verify, end, qs));
    }
  }

  lemma {:induction false} RunOfNothing(verify: bool, g: Gate)
    ensures Import(verify, g, []) == g && RunWrites(verify, g, []) == [] && Reports(verify, g, []) == []
  {
  }

  lemma {:induction false} OneRow(verify: bool, g: Gate, r: Row)
    ensures Import(verify, g, [r]) == After(verify, g, r)
    ensures RunWrites(verify, g, [r]) == Plan(verify, g, r)
    ensures Reports(verify, g, [r]) == [ReportOf(verify, g, r)]
  {
    hide Plan, After, ReportOf;
    assert [r][1..] == [];
  }

  lemma {:induction false} RunOneOn(verify: bool, v: Gate, rs: seq<Row>, i: nat)
    requires i < |rs|
    ensures var g := Import(verify, v, rs[..i]);
      && Import(verify, v, rs[..i + 1]) == After(verify, g, rs[i])
      && RunWrites(verify, v, rs[..i + 1]) == RunWrites(verify, v, rs[..i]) + Plan(verify, g, rs[i])
      && Reports(verify, v, rs[..i + 1]) == Reports(verify, v, rs[..i]) + [ReportOf(verify, g, rs[i])]
      && RunWrites(verify, v, rs[..i]) + Plan(verify, g, rs[i]) <= RunWrites(verify, v, rs)
      && Reports(verify, v, rs[..i]) <= Reports(verify, v, rs)
      && |Reports(verify, v, rs[..i])| == i
  {
    hide Plan, After, ReportOf, Import, RunWrites, Reports;
    var g := Import(verify, v, rs[..i]);
    assert rs[..i + 1] == rs[..i] + [rs[i]] && rs == rs[..i + 1] + rs[i + 1..];
    RunAppend(verify, v, rs[..i], [rs[i]]);
    RunAppend(verify, v, rs[..i + 1], rs[i + 1..]);
    OneRow(verify, g, rs[i]);
    OneReportEach(verify, v, rs[..i]);
  }

  lemma {:induction false} OneReportEach(verify: bool, g: Gate, rs: seq<Row>)
    ensures |Reports(verify, g, rs)| == |rs|
    decreases rs
  {
    hide Plan, After, ReportOf;
    if rs != [] {
      OneReportEach(verify, After(verify, g, rs[0]), rs[1..]);
    }
  }

  lemma {:induction false} ImportIsItsWrites(verify: bool, g: Gate, rs: seq<Row>)
    ensures Import(verify, g, rs) == ApplyAll(g, RunWrites(verify, g, rs))
    decreases rs
  {
    hide Plan, ApplyAll;
    if rs == [] {
      NoWriteApplied(g);
    } else {
      ImportIsItsWrites(verify, After(verify, g, rs[0]), rs[1..]);
      ApplyAllAppend(g, Plan(verify, g, rs[0]), RunWrites(verify, After(verify, g, rs[0]), rs[1..]));
    }
  }

  /** The first `n` writes of a run, if they are not all of it, stop inside some row. */
  lemma {:induction false} StopsInsideARow(verify: bool, g: Gate, rs: seq<Row>, n: nat) returns (i: nat, k: nat)
    requires n < |RunWrites(verify, g, rs)|
    ensures i < |rs| && k < |Plan(verify, Import(verify, g, rs[..i]), rs[i])| && n == |RunWrites(verify, g, rs[..i])| + k
    decreases rs
  {
    hide Plan;
    if n < |Plan(verify, g, rs[0])| {
      i, k := 0, n;
      assert rs[..0] == [];
    } else {
      i, k := StopsInsideARow(verify, After(verify, g, rs[0]), rs[1..], n - |Plan(verify, g, rs[0])|);
      assert rs[..i + 1] == [rs[0]] + rs[1..][..i];
      RunAppend(verify, g, [rs[0]], rs[1..][..i]);
      OneRow(verify, g, rs[0]);
      i := i + 1;
    }
  }

  lemma {:induction false} CutIsAPrefix(verify: bool, g: Gate, rs: seq<Row>, i: nat, k: nat)
    requires i < |rs| && k <= |Plan(verify, Import(verify, g, rs[..i]), rs[i])|
    ensures var n := |RunWrites(verify, g, rs[..i])| + k;
      n <= |RunWrites(verify, g, rs)| && Cut(verify, g, rs, i, k) == ApplyAll(g, RunWrites(verify, g, rs)[..n])
  {
    hide Plan, Import, RunWrites, ApplyAll;
    var before := RunWrites(verify, g, rs[..i]);
    var plan := Plan(verify, Import(verify, g, rs[..i]), rs[i]);
    RunOneOn(verify, g, rs, i);
    ImportIsItsWrites(verify, g, rs[..i]);
    ApplyAllAppend(g, before, plan[..k]);
    assert (before + plan)[..|before| + k] == before + plan[..k];
    assert RunWrites(verify, g, rs)[..|before| + k] == (before + plan)[..|before| + k];
  }

  /** A run cut off after any prefix of its writes - none, all, or part of a row - and then run again whole ends in the
      state of one uninterrupted run. */
  lemma {:induction false} AnyPrefixResumes(verify: bool, g: Gate, rs: seq<Row>, n: nat)
    requires RowsOk(rs) && InOrder(rs) && WellKept(g) && n <= |RunWrites(verify, g, rs)|
    ensures Import(verify, ApplyAll(g, RunWrites(verify, g, rs)[..n]), rs) == Import(verify, g, rs)
  {
    hide Plan, Import, RunWrites, ApplyAll, Cut;
    var ws := RunWrites(verify, g, rs);
    if n == |ws| {
      assert ws[..n] == ws;
      ImportIsItsWrites(verify, g, rs);
      SecondRunChangesNothing(verify, g, rs);
    } else {
      var i, k := StopsInsideARow(verify, g, rs, n);
      CutIsAPrefix(verify, g, rs, i, k);
      ImportResumes(verify, g, rs, i, k);
    }
  }

  /** What a run comes to. Dry, the reports of the real run and nothing written; real, the whole import if the gateway
      answers that often, and otherwise exactly as many of its writes as it answered, or one more that got no answer, with
      the reports of the rows finished by then. */
  ghost predicate Came(dry: bool, verify: bool, v: Gate, rs: seq<Row>, had: nat, reports: seq<Report>, stopped: bool, left: nat,
                       state: Gate) {
    var ws := RunWrites(verify, v, rs);
    if dry then !stopped && reports == Reports(verify, v, rs) && left == had
    else if |ws| <= had
    then !stopped && reports == Reports(verify, v, rs) && left == had - |ws| && state == Import(verify, v, rs)
    else
      && stopped && |reports| < |rs| && reports <= Reports(verify, v, rs) && left == 0
      && (state == ApplyAll(v, ws[..had]) || state == ApplyAll(v, ws[..had + 1]))
  }

  /** Whatever a stopped run left, run again whole it ends in the state of one uninterrupted run. */
  lemma {:induction false} StoppedRunResumes(verify: bool, v: Gate, rs: seq<Row>, had: nat, reports: seq<Report>, stopped: bool,
                                             left: nat, state: Gate)
    requires RowsOk(rs) && InOrder(rs) && WellKept(v) && Came(false, verify, v, rs, had, reports, stopped, left, state)
    ensures Import(verify, state, rs) == Import(verify, v, rs)
  {
    hide Plan, Import, RunWrites, ApplyAll, Reports;
    var ws := RunWrites(verify, v, rs);
    if had < |ws| {
      AnyPrefixResumes(verify, v, rs, had);
      AnyPrefixResumes(verify, v, rs, had + 1);
    } else {
      SecondRunChangesNothing(verify, v, rs);
    }
  }

  lemma {:induction false} RowLoaded(dry: bool, verify: bool, g: Gate, r: Row, had: nat, report: Report, left: nat, state: Gate)
    requires Loaded(dry, verify, g, r, had, Some(report), left, state)
    ensures report == ReportOf(verify, g, r)
    ensures if dry then left == had else left + |Plan(verify, g, r)| == had
  {
    hide Plan, ReportOf;
  }

  lemma {:induction false} RunStops(dry: bool, verify: bool, v: Gate, rs: seq<Row>, i: nat, had: nat, had0: nat, left: nat, state: Gate)
    requires i < |rs| && (!dry ==> had + |RunWrites(verify, v, rs[..i])| == had0)
    requires Loaded(dry, verify, Import(verify, v, rs[..i]), rs[i], had, None, left, state)
    ensures Came(dry, verify, v, rs, had0, Reports(verify, v, rs[..i]), true, left, state)
  {
    hide Plan, Import, RunWrites, ApplyAll, Reports, ReportOf;
    RunOneOn(verify, v, rs, i);
    CutIsAPrefix(verify, v, rs, i, had);
    CutIsAPrefix(verify, v, rs, i, had + 1);
  }
}
