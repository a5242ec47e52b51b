/** Whole imports: cut off anywhere and run again, or simply run again. */
module ImportRuns {
  import opened Common
  import opened ImportModel
  import opened ImportSteps
  import opened ImportStays

  // ---- the structure, without addresses ----

  function PutAll(h: Held, ws: seq<Write>): Held
    decreases ws
  {
    if ws == [] then h else PutAll(Put(h, ws[0]), ws[1..])
  }

  function Ran(verify: bool, h: Held, rs: seq<Row>): Held
    decreases rs
  {
    if rs == [] then h else Ran(verify, PutAll(h, StepsOf(verify, h, rs[0]).writes), rs[1..])
  }

  /** How each row ends, in order. */
  function Ends(verify: bool, h: Held, rs: seq<Row>): (es: seq<End>)
    ensures |es| == |rs|
    decreases rs
  {
    if rs == [] then []
    else [StepsOf(verify, h, rs[0]).end] + Ends(verify, PutAll(h, StepsOf(verify, h, rs[0]).writes), rs[1..])
  }

  ghost predicate RowsOk(rs: seq<Row>) {
    forall r :: r in rs ==> RowOk(r)
  }

  /** Rows in the files' fixed order. */
  ghost predicate InOrder(rs: seq<Row>) {
    forall i, j :: 0 <= i < j < |rs| ==> Rank(rs[i]) <= Rank(rs[j])
  }

  // ---- one row's writes ----

  lemma {:induction false} FirstWriteIsOurs(verify: bool, h: Held, r: Row)
    requires StepsOf(verify, h, r).writes != []
    ensures var w := StepsOf(verify, h, r).writes[0];
      RankOf(w) == Rank(r) && Admissible(h, w) && (WellHeld(h) ==> WellHeld(Put(h, w)))
  {
    hide First, Last;
    var w := StepsOf(verify, h, r).writes[0];
    match r
    case CustomerRow(_, _, _, _, _, _, _, _, _) => CustomerFirstWrite(h, r);
    case AgreementRow(_, _, _, _, _, _, _, _) => AgreementFirstWrite(h, r);
    case _ =>
  }

  lemma {:induction false} CustomerFirstWrite(h: Held, r: Row)
    requires r.CustomerRow? && CustomerSteps(h, r).writes != []
    ensures var w := CustomerSteps(h, r).writes[0];
      RankOf(w) == 4 && Admissible(h, w) && (WellHeld(h) ==> WellHeld(Put(h, w)))
  {
    hide First, Last, TreeSteps;
    if OrgAt(h.orgs, r.ref).Some? {
      TreeOneOn(OrgAt(h.orgs, r.ref).value, Of(h.nodes, OrgAt(h.orgs, r.ref).value), r);
    }
  }

  lemma {:induction false} AgreementFirstWrite(h: Held, r: Row)
    requires r.AgreementRow? && AgreementSteps(h, r).writes != []
    ensures var w := AgreementSteps(h, r).writes[0];
      RankOf(w) == 5 && Admissible(h, w) && (WellHeld(h) ==> WellHeld(Put(h, w)))
  {
    hide First, Last, TermSteps;
    var w := AgreementSteps(h, r).writes[0];
    var org := OrgAt(h.orgs, r.customer).value;
    assert First(IsMsa(r.effectiveFrom), Of(h.contracts, org)).Some? ==>
        First(IsMsa(r.effectiveFrom), Of(h.contracts, org)).value < |Of(h.contracts, org)|;
    assert w.AuthorTerm? ==> w.orgAt == org && w.term.contract < |Of(h.contracts, org)|;
  }

  lemma {:induction false} PutAllOneOn(h: Held, ws: seq<Write>, k: nat)
    requires k < |ws|
    ensures PutAll(h, ws[..k + 1]) == Put(PutAll(h, ws[..k]), ws[k])
    decreases ws
  {
    if k == 0 {
      assert ws[..1][1..] == [] && ws[..0] == [];
    } else {
      PutAllOneOn(Put(h, ws[0]), ws[1..], k - 1);
      assert ws[..k + 1][1..] == ws[1..][..k] && ws[..k][1..] == ws[1..][..k - 1];
    }
  }

  /** A row stopped after any of its writes has exactly the others left. */
  lemma {:induction false} TakesUpWhereItStopped(verify: bool, h: Held, r: Row, k: nat)
    requires RowOk(r) && WellHeld(h) && k <= |StepsOf(verify, h, r).writes|
    ensures var s := StepsOf(verify, h, r);
      && WellHeld(PutAll(h, s.writes[..k]))
      && StepsOf(verify, PutAll(h, s.writes[..k]), r) == Steps(s.writes[k..], s.end)
    decreases k
  {
    hide StepsOf, WellHeld, Put;
    var s := StepsOf(verify, h, r);
    if k == 0 {
      assert s.writes[..0] == [] && s.writes[0..] == s.writes;
    } else {
      TakesUpWhereItStopped(verify, h, r, k - 1);
      var h1 := PutAll(h, s.writes[..k - 1]);
      FirstWriteIsOurs(verify, h1, r);
      OneOn(verify, h1, r);
      PutAllOneOn(h, s.writes, k - 1);
      assert s.writes[k - 1..][1..] == s.writes[k..];
    }
  }

  lemma {:induction false} RowSettles(verify: bool, h: Held, r: Row)
    requires RowOk(r) && WellHeld(h)
    ensures var h' := PutAll(h, StepsOf(verify, h, r).writes);
      WellHeld(h') && Settled(verify, h', r) && StepsOf(verify, h', r).end == StepsOf(verify, h, r).end
  {
    var ws := StepsOf(verify, h, r).writes;
    TakesUpWhereItStopped(verify, h, r, |ws|);
    assert ws[..|ws|] == ws;
  }

  /** Any part of a later row's writes leaves a settled row settled. */
  lemma {:induction false} StaysThroughRow(verify: bool, h: Held, q: Row, r: Row, k: nat)
    requires RowOk(r) && WellHeld(h) && Settled(verify, h, q) && Rank(q) <= Rank(r)
    requires k <= |StepsOf(verify, h, r).writes|
    ensures StepsOf(verify, PutAll(h, StepsOf(verify, h, r).writes[..k]), q) == StepsOf(verify, h, q)
    decreases k
  {
    hide StepsOf, WellHeld, Put, RankOf, Rank;
    var s := StepsOf(verify, h, r);
    if k == 0 {
      assert s.writes[..0] == [];
    } else {
      StaysThroughRow(verify, h, q, r, k - 1);
      TakesUpWhereItStopped(verify, h, r, k - 1);
      var h1 := PutAll(h, s.writes[..k - 1]);
      FirstWriteIsOurs(verify, h1, r);
      Stays(verify, h1, q, s.writes[k - 1]);
      PutAllOneOn(h, s.writes, k - 1);
    }
  }

  // ---- whole runs ----

  lemma {:induction false} RanOn(verify: bool, h: Held, rs: seq<Row>, qs: seq<Row>)
    ensures Ran(verify, h, rs + qs) == Ran(verify, Ran(verify, h, rs), qs)
    decreases rs
  {
    hide StepsOf, PutAll;
    if rs == [] {
      assert rs + qs == qs;
    } else {
      RanOn(verify, PutAll(h, StepsOf(verify, h, rs[0]).writes), rs[1..], qs);
      assert (rs + qs)[1..] == rs[1..] + qs && (rs + qs)[0] == rs[0];
    }
  }

  lemma {:induction false} RanAppend(verify: bool, h: Held, rs: seq<Row>, qs: seq<Row>)
    ensures Ran(verify, h, rs + qs) == Ran(verify, Ran(verify, h, rs), qs)
    ensures Ends(verify, h, rs + qs) == Ends(verify, h, rs) + Ends(verify, Ran(verify, h, rs), qs)
    decreases rs
  {
    hide StepsOf, PutAll;
    RanOn(verify, h, rs, qs);
    if rs == [] {
      assert rs + qs == qs;
    } else {
      var h', e := PutAll(h, StepsOf(verify, h, rs[0]).writes), StepsOf(verify, h, rs[0]).end;
      RanAppend(verify, h', rs[1..], qs);
      assert (rs + qs)[1..] == rs[1..] + qs && (rs + qs)[0] == rs[0];
      AppendAssociates([e], Ends(verify, h', rs[1..]), Ends(verify, Ran(verify, h, rs), qs));
    }
  }

  lemma {:induction false} RanStaysWell(verify: bool, h: Held, rs: seq<Row>)
    requires RowsOk(rs) && WellHeld(h)
    ensures WellHeld(Ran(verify, h, rs))
    decreases rs
  {
    hide StepsOf, PutAll, WellHeld;
    if rs != [] {
      RowSettles(verify, h, rs[0]);
      RanStaysWell(verify, PutAll(h, StepsOf(verify, h, rs[0]).writes), rs[1..]);
    }
  }

  lemma {:induction false} StaysThroughRun(verify: bool, h: Held, q: Row, rs: seq<Row>)
    requires RowsOk(rs) && WellHeld(h) && Settled(verify, h, q) && forall r :: r in rs ==> Rank(q) <= Rank(r)
    ensures StepsOf(verify, Ran(verify, h, rs), q) == StepsOf(verify, h, q)
    decreases rs
  {
    hide StepsOf, PutAll, WellHeld, Rank;
    if rs != [] {
      var ws := StepsOf(verify, h, rs[0]).writes;
      StaysThroughRow(verify, h, q, rs[0], |ws|);
      assert ws[..|ws|] == ws;
      RowSettles(verify, h, rs[0]);
      StaysThroughRun(verify, PutAll(h, ws), q, rs[1..]);
    }
  }

  /** Rows that all have nothing left to write, run again: nothing is written and they end as they would. */
  lemma {:induction false} SettledRunAgain(verify: bool, h: Held, rs: seq<Row>, es: seq<End>)
    requires |es| == |rs|
    requires forall i :: 0 <= i < |rs| ==> StepsOf(verify, h, rs[i]) == Steps([], es[i])
    ensures Ran(verify, h, rs) == h && Ends(verify, h, rs) == es
    decreases rs
  {
    hide StepsOf;
    if rs != [] {
      SettledRunAgain(verify, h, rs[1..], es[1..]);
    }
  }

  /** What a run of the first `i` rows and `k` writes of the next holds. */
  function CutOff(verify: bool, h: Held, rs: seq<Row>, i: nat, k: nat): Held
    requires i < |rs| && k <= |StepsOf(verify, Ran(verify, h, rs[..i]), rs[i]).writes|
  {
    var g := Ran(verify, h, rs[..i]);
    PutAll(g, StepsOf(verify, g, rs[i]).writes[..k])
  }

  lemma {:induction false} EndsAt(verify: bool, h: Held, rs: seq<Row>, t: nat)
    requires t < |rs|
    ensures Ends(verify, h, rs)[t] == StepsOf(verify, Ran(verify, h, rs[..t]), rs[t]).end
    decreases rs
  {
    hide StepsOf, PutAll;
    if t > 0 {
      EndsAt(verify, PutAll(h, StepsOf(verify, h, rs[0]).writes), rs[1..], t - 1);
      assert rs[..t][1..] == rs[1..][..t - 1];
    }
  }

  /** Every row already run before the cut has nothing to write after it, and ends as it did. */
  lemma {:induction false} EarlierRowsAreSettled(verify: bool, h: Held, rs: seq<Row>, i: nat, k: nat, t: nat)
    requires RowsOk(rs) && InOrder(rs) && WellHeld(h) && t < i < |rs|
    requires k <= |StepsOf(verify, Ran(verify, h, rs[..i]), rs[i]).writes|
    ensures StepsOf(verify, CutOff(verify, h, rs, i, k), rs[t]) == Steps([], Ends(verify, h, rs)[t])
  {
    hide StepsOf, PutAll, WellHeld, Rank;
    var before := Ran(verify, h, rs[..t]);
    RanStaysWell(verify, h, rs[..t]);
    RowSettles(verify, before, rs[t]);
    EndsAt(verify, h, rs, t);
    assert rs[..t] + [rs[t]] == rs[..t + 1];
    RanAppend(verify, h, rs[..t], [rs[t]]);
    var after := Ran(verify, h, rs[..t + 1]);
    assert [rs[t]][1..] == [];
    assert after == PutAll(before, StepsOf(verify, before, rs[t]).writes);
    assert rs[..t + 1] + rs[t + 1..i] == rs[..i];
    RanAppend(verify, h, rs[..t + 1], rs[t + 1..i]);
    StaysThroughRun(verify, after, rs[t], rs[t + 1..i]);
    RanStaysWell(verify, h, rs[..i]);
    StaysThroughRow(verify, Ran(verify, h, rs[..i]), rs[t], rs[i], k);
  }

  lemma {:induction false} CutRowFinishes(verify: bool, h: Held, rs: seq<Row>, i: nat, k: nat)
    requires RowsOk(rs) && WellHeld(h) && i < |rs| && k <= |StepsOf(verify, Ran(verify, h, rs[..i]), rs[i]).writes|
    ensures Ran(verify, CutOff(verify, h, rs, i, k), [rs[i]]) == Ran(verify, Ran(verify, h, rs[..i]), [rs[i]])
    ensures Ends(verify, CutOff(verify, h, rs, i, k), [rs[i]]) == Ends(verify, Ran(verify, h, rs[..i]), [rs[i]])
  {
    hide StepsOf, WellHeld, Put;
    var g := Ran(verify, h, rs[..i]);
    var s := StepsOf(verify, g, rs[i]);
    RanStaysWell(verify, h, rs[..i]);
    TakesUpWhereItStopped(verify, g, rs[i], k);
    PutAllAppend(g, s.writes[..k], s.writes[k..]);
    assert s.writes[..k] + s.writes[k..] == s.writes;
    assert [rs[i]][1..] == [];
  }

  lemma {:induction false} PutAllAppend(h: Held, ws: seq<Write>, us: seq<Write>)
    ensures PutAll(h, ws + us) == PutAll(PutAll(h, ws), us)
    decreases ws
  {
    hide Put;
    if ws == [] {
      assert ws + us == us;
    } else {
      PutAllAppend(Put(h, ws[0]), ws[1..], us);
      assert (ws + us)[1..] == ws[1..] + us;
    }
  }

  /** Running every file again over a run cut off after any write ends with what one whole run holds, each row
      ending as it did there. */
  lemma {:induction false} RunAgainAfterCut(verify: bool, h: Held, rs: seq<Row>, i: nat, k: nat)
    requires RowsOk(rs) && InOrder(rs) && WellHeld(h) && i < |rs|
    requires k <= |StepsOf(verify, Ran(verify, h, rs[..i]), rs[i]).writes|
    ensures Ran(verify, CutOff(verify, h, rs, i, k), rs) == Ran(verify, h, rs)
    ensures Ends(verify, CutOff(verify, h, rs, i, k), rs) == Ends(verify, h, rs)
  {
    hide StepsOf, PutAll, WellHeld, Ran, Ends, CutOff;
    var m, g := CutOff(verify, h, rs, i, k), Ran(verify, h, rs[..i]);
    forall t | 0 <= t < i ensures StepsOf(verify, m, rs[..i][t]) == Steps([], Ends(verify, h, rs)[..i][t]) {
      EarlierRowsAreSettled(verify, h, rs, i, k, t);
    }
    SettledRunAgain(verify, m, rs[..i], Ends(verify, h, rs)[..i]);
    CutRowFinishes(verify, h, rs, i, k);
    assert rs == rs[..i] + ([rs[i]] + rs[i + 1..]);
    RanAppend(verify, h, rs[..i], [rs[i]] + rs[i + 1..]);
    RanAppend(verify, m, rs[..i], [rs[i]] + rs[i + 1..]);
    RanAppend(verify, g, [rs[i]], rs[i + 1..]);
    RanAppend(verify, m, [rs[i]], rs[i + 1..]);
  }

  /** Running every file again over a whole run writes nothing new. */
  lemma {:induction false} RunAgain(verify: bool, h: Held, rs: seq<Row>)
    requires RowsOk(rs) && InOrder(rs) && WellHeld(h)
    ensures Ran(verify, Ran(verify, h, rs), rs) == Ran(verify, h, rs)
    ensures Ends(verify, Ran(verify, h, rs), rs) == Ends(verify, h, rs)
    ensures forall t :: 0 <= t < |rs| ==> StepsOf(verify, Ran(verify, h, rs), rs[t]) == Steps([], Ends(verify, h, rs)[t])
  {
    hide StepsOf, PutAll, WellHeld;
    if rs != [] {
      var i := |rs| - 1;
      var g := Ran(verify, h, rs[..i]);
      var k := |StepsOf(verify, g, rs[i]).writes|;
      assert StepsOf(verify, g, rs[i]).writes[..k] == StepsOf(verify, g, rs[i]).writes;
      assert rs == rs[..i] + [rs[i]] && [rs[i]][1..] == [];
      RanAppend(verify, h, rs[..i], [rs[i]]);
      assert CutOff(verify, h, rs, i, k) == Ran(verify, h, rs);
      RunAgainAfterCut(verify, h, rs, i, k);
      RanStaysWell(verify, h, rs[..i]);
      RowSettles(verify, g, rs[i]);
      EndsAt(verify, h, rs, i);
      forall t | 0 <= t < |rs| ensures StepsOf(verify, Ran(verify, h, rs), rs[t]) == Steps([], Ends(verify, h, rs)[t]) {
        if t < i {
          EarlierRowsAreSettled(verify, h, rs, i, k, t);
        }
      }
    }
  }
}
