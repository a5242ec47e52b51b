/** Addresses, and the importer's three promises: resumption after a cut, a second run that changes nothing, and
    when that run writes nothing at all. */
module ImportTheorems {
  import opened Common
  import opened ImportModel
  import opened ImportSteps
  import opened ImportStays
  import opened ImportRuns

  /** What a row that comes to a site does to its address: its fields over what was there. */
  function Stamp(a: map<Site, Address>, e: End, r: Row): map<Site, Address> {
    if r.CustomerRow? && e.Done? && e.site.Some? then a[e.site.value := AddressOf(a, e.site.value) + r.address] else a
  }

  function StampAll(a: map<Site, Address>, es: seq<End>, rs: seq<Row>): map<Site, Address>
    requires |es| == |rs|
  {
    if rs == [] then a
    else var n := |rs| - 1; Stamp(StampAll(a, es[..n], rs[..n]), es[n], rs[n])
  }

  ghost predicate WellKept(g: Gate) {
    && WellHeld(g.held)
    && forall s :: s in g.addresses ==> s.1 < |Of(g.held.nodes, s.0)|
  }

  predicate Addressing(w: Write) {
    w.SetAddress? || (w.CreateNode? && w.address.Some?)
  }

  // ---- which writes carry an address ----

  lemma {:induction false} SiteWriteIsLast(verify: bool, h: Held, r: Row)
    requires StepsOf(verify, h, r).writes != []
    ensures var s := StepsOf(verify, h, r);
      && !s.writes[0].SetAddress?
      && (Addressing(s.writes[0]) ==>
            && |s.writes| == 1 && r.CustomerRow? && s.writes[0].address == Some(r.address)
            && s.end == Done(Some((s.writes[0].orgAt, |Of(h.nodes, s.writes[0].orgAt)|))))
  {
    hide First, Last, TermSteps;
    match r
    case CustomerRow(_, _, _, _, _, _, _, _, _) => CustomerSiteWriteIsLast(h, r);
    case _ =>
  }

  lemma {:induction false} TreeSiteWriteIsLast(org: nat, nodes: seq<Node>, r: Row)
    requires r.CustomerRow? && TreeSteps(org, nodes, r).writes != []
    ensures var s := TreeSteps(org, nodes, r);
      Addressing(s.writes[0]) ==>
        && |s.writes| == 1 && s.writes[0].address == Some(r.address) && s.writes[0].orgAt == org
        && s.end == Done(Some((org, |nodes|)))
  {
    hide First;
  }

  lemma {:induction false} CustomerSiteWriteIsLast(h: Held, r: Row)
    requires r.CustomerRow? && CustomerSteps(h, r).writes != []
    ensures var s := CustomerSteps(h, r);
      && !s.writes[0].SetAddress?
      && (Addressing(s.writes[0]) ==>
            && |s.writes| == 1 && s.writes[0].address == Some(r.address)
            && s.end == Done(Some((s.writes[0].orgAt, |Of(h.nodes, s.writes[0].orgAt)|))))
  {
    hide First, Last, TreeSteps;
    if OrgAt(h.orgs, r.ref).Some? {
      var org := OrgAt(h.orgs, r.ref).value;
      TreeOneOn(org, Of(h.nodes, org), r);
      TreeSiteWriteIsLast(org, Of(h.nodes, org), r);
    }
  }

  /** A settled row that comes to a site comes to one that is there. */
  lemma {:induction false} SettledSiteIsThere(verify: bool, h: Held, r: Row)
    requires Settled(verify, h, r) && StepsOf(verify, h, r).end.Done? && StepsOf(verify, h, r).end.site.Some?
    ensures r.CustomerRow?
    ensures var s := StepsOf(verify, h, r).end.site.value; s.1 < |Of(h.nodes, s.0)|
  {
    hide First, Last, TermSteps;
  }

  lemma {:induction false} PlainWrites(g: Gate, ws: seq<Write>)
    requires forall w :: w in ws ==> !Addressing(w)
    ensures ApplyAll(g, ws) == Gate(PutAll(g.held, ws), g.addresses)
    decreases ws
  {
    hide Put;
    if ws != [] {
      assert ws[0] in ws && forall w :: w in ws[1..] ==> w in ws;
      PlainWrites(Apply(g, ws[0]), ws[1..]);
    }
  }

  /** Of a row's writes only its last can carry an address, and then it makes the site the row ends at. */
  lemma {:induction false} OnlyLastAddresses(verify: bool, h: Held, r: Row, k: nat)
    requires RowOk(r) && WellHeld(h) && k < |StepsOf(verify, h, r).writes|
    ensures var s := StepsOf(verify, h, r);
      && !s.writes[k].SetAddress?
      && (Addressing(s.writes[k]) ==>
            && k == |s.writes| - 1 && r.CustomerRow? && s.writes[k].address == Some(r.address)
            && s.end == Done(Some((s.writes[k].orgAt, |Of(PutAll(h, s.writes[..k]).nodes, s.writes[k].orgAt)|))))
  {
    hide StepsOf, PutAll, WellHeld;
    TakesUpWhereItStopped(verify, h, r, k);
    SiteWriteIsLast(verify, PutAll(h, StepsOf(verify, h, r).writes[..k]), r);
  }

  lemma {:induction false} ApplyAllAppend(g: Gate, ws: seq<Write>, us: seq<Write>)
    ensures ApplyAll(g, ws + us) == ApplyAll(ApplyAll(g, ws), us)
    decreases ws
  {
    hide Apply;
    if ws == [] {
      assert ws + us == us;
    } else {
      ApplyAllAppend(Apply(g, ws[0]), ws[1..], us);
      assert (ws + us)[1..] == ws[1..] + us;
    }
  }

  /** Up to its last write a row leaves every address alone. */
  lemma {:induction false} PartOfARow(verify: bool, g: Gate, r: Row, k: nat)
    requires RowOk(r) && WellHeld(g.held) && k < |Plan(verify, g, r)|
    ensures k <= |StepsOf(verify, g.held, r).writes|
    ensures ApplyAll(g, Plan(verify, g, r)[..k]) == Gate(PutAll(g.held, StepsOf(verify, g.held, r).writes[..k]), g.addresses)
  {
    hide StepsOf, PutAll, WellHeld, ApplyAll;
    var s := StepsOf(verify, g.held, r);
    var ws := Plan(verify, g, r)[..k];
    assert ws == s.writes[..k];
    forall w | w in ws ensures !Addressing(w) {
      var j :| 0 <= j < k && ws[j] == w;
      OnlyLastAddresses(verify, g.held, r, j);
      if j == |s.writes| - 1 {
        assert !MakesSite(s);
      }
    }
    PlainWrites(g, ws);
  }

  // ---- nodes are only added ----

  lemma {:induction false} NodesGrow(verify: bool, h: Held, r: Row, k: nat)
    requires RowOk(r) && WellHeld(h) && k <= |StepsOf(verify, h, r).writes|
    ensures forall o :: |Of(PutAll(h, StepsOf(verify, h, r).writes[..k]).nodes, o)| >= |Of(h.nodes, o)|
    decreases k
  {
    hide StepsOf, WellHeld;
    var s := StepsOf(verify, h, r);
    if k == 0 {
      assert s.writes[..0] == [];
    } else {
      NodesGrow(verify, h, r, k - 1);
      TakesUpWhereItStopped(verify, h, r, k - 1);
      PutAllOneOn(h, s.writes, k - 1);
      OneNodeMore(PutAll(h, s.writes[..k - 1]), s.writes[k - 1]);
    }
  }

  lemma {:induction false} OneNodeMore(h: Held, w: Write)
    requires WellHeld(h)
    ensures forall o :: |Of(Put(h, w).nodes, o)| >= |Of(h.nodes, o)|
  {
  }

  // ---- one row ----

  lemma {:induction false} MakingRow(verify: bool, g: Gate, r: Row)
    requires RowOk(r) && WellKept(g) && MakesSite(StepsOf(verify, g.held, r))
    ensures After(verify, g, r)
         == Gate(PutAll(g.held, StepsOf(verify, g.held, r).writes), Stamp(g.addresses, StepsOf(verify, g.held, r).end, r))
    ensures var e := StepsOf(verify, g.held, r).end;
      e.Done? && e.site.Some? ==> e.site.value.1 < |Of(After(verify, g, r).held.nodes, e.site.value.0)|
  {
    hide StepsOf, PutAll, WellHeld, ApplyAll;
    var s := StepsOf(verify, g.held, r);
    var n := |s.writes| - 1;
    var front, last := s.writes[..n], s.writes[n];
    OnlyLastAddresses(verify, g.held, r, n);
    forall w | w in front ensures !Addressing(w) {
      var j :| 0 <= j < n && front[j] == w;
      OnlyLastAddresses(verify, g.held, r, j);
    }
    PlainWrites(g, front);
    ApplyAllAppend(g, front, [last]);
    assert front + [last] == s.writes && Plan(verify, g, r) == s.writes;
    NodesGrow(verify, g.held, r, n);
    PutAllOneOn(g.held, s.writes, n);
    assert s.writes[..n + 1] == s.writes;
    AppliedLast(PutAll(g.held, front), g.addresses, last);
    assert s.end.site.value !in g.addresses;
    assert map[] + r.address == r.address;
  }

  lemma {:induction false} AppliedLast(h: Held, a: map<Site, Address>, w: Write)
    requires w.CreateNode? && w.address.Some?
    ensures ApplyAll(Gate(h, a), [w]) == Gate(Put(h, w), a[(w.orgAt, |Of(h.nodes, w.orgAt)|) := w.address.value])
    ensures |Of(Put(h, w).nodes, w.orgAt)| == |Of(h.nodes, w.orgAt)| + 1
  {
    assert [w][1..] == [];
  }

  lemma {:induction false} OtherRow(verify: bool, g: Gate, r: Row)
    requires RowOk(r) && WellKept(g) && !MakesSite(StepsOf(verify, g.held, r))
    ensures After(verify, g, r)
         == Gate(PutAll(g.held, StepsOf(verify, g.held, r).writes), Stamp(g.addresses, StepsOf(verify, g.held, r).end, r))
  {
    hide StepsOf, PutAll, WellHeld, ApplyAll;
    var s := StepsOf(verify, g.held, r);
    forall w | w in s.writes ensures !Addressing(w) {
      var j :| 0 <= j < |s.writes| && s.writes[j] == w;
      OnlyLastAddresses(verify, g.held, r, j);
    }
    PlainWrites(g, s.writes);
    var aw := AddressWrite(g.addresses, s, r);
    ApplyAllAppend(g, s.writes, aw);
    var g1 := Gate(PutAll(g.held, s.writes), g.addresses);
    if aw == [] {
      NoWriteApplied(g1);
      if r.CustomerRow? && s.end.Done? && s.end.site.Some? {
        var site := s.end.site.value;
        assert AddressOf(g.addresses, site) + r.address == AddressOf(g.addresses, site);
        assert site in g.addresses;
      }
    } else {
      SetApplied(g1, aw[0]);
      assert aw == [aw[0]];
    }
  }

  lemma {:induction false} NoWriteApplied(g: Gate)
    ensures ApplyAll(g, []) == g
  {
  }

  lemma {:induction false} SetApplied(g: Gate, w: Write)
    requires w.SetAddress?
    ensures ApplyAll(g, [w]) == Gate(g.held, g.addresses[(w.orgAt, w.at) := w.merged])
  {
    assert [w][1..] == [];
  }

  /** A row's whole effect: its structural writes, and its address over the site it ends at. */
  lemma {:induction false} RowEffect(verify: bool, g: Gate, r: Row)
    requires RowOk(r) && WellKept(g)
    ensures After(verify, g, r)
         == Gate(PutAll(g.held, StepsOf(verify, g.held, r).writes), Stamp(g.addresses, StepsOf(verify, g.held, r).end, r))
    ensures WellKept(After(verify, g, r))
  {
    hide StepsOf, PutAll, WellHeld, After;
    var s := StepsOf(verify, g.held, r);
    var h' := PutAll(g.held, s.writes);
    if MakesSite(s) {
      MakingRow(verify, g, r);
    } else {
      OtherRow(verify, g, r);
    }
    RowSettles(verify, g.held, r);
    NodesGrow(verify, g.held, r, |s.writes|);
    assert s.writes[..|s.writes|] == s.writes;
    if s.end.Done? && s.end.site.Some? {
      SettledSiteIsThere(verify, h', r);
    }
    assert forall x :: x in g.addresses ==> x.1 < |Of(h'.nodes, x.0)|;
  }

  // ---- whole runs ----

  lemma {:induction false} StampAllFromFirst(a: map<Site, Address>, es: seq<End>, rs: seq<Row>)
    requires |es| == |rs| > 0
    ensures StampAll(a, es, rs) == StampAll(Stamp(a, es[0], rs[0]), es[1..], rs[1..])
    decreases |rs|
  {
    var n := |rs| - 1;
    if n == 0 {
      assert es[..0] == [] && rs[..0] == [];
    } else {
      StampAllFromFirst(a, es[..n], rs[..n]);
      assert es[..n][1..] == es[1..][..n - 1] && rs[..n][1..] == rs[1..][..n - 1];
    }
  }

  /** An import is its structure and its addresses, each run on its own. */
  lemma {:induction false} ImportEffect(verify: bool, g: Gate, rs: seq<Row>)
    requires RowsOk(rs) && WellKept(g)
    ensures Import(verify, g, rs) == Gate(Ran(verify, g.held, rs), StampAll(g.addresses, Ends(verify, g.held, rs), rs))
    ensures WellKept(Import(verify, g, rs))
    decreases rs
  {
    hide StepsOf, PutAll, WellKept, After, Stamp;
    if rs != [] {
      RowEffect(verify, g, rs[0]);
      ImportEffect(verify, After(verify, g, rs[0]), rs[1..]);
      StampAllFromFirst(g.addresses, Ends(verify, g.held, rs), rs);
    }
  }

  // ---- addresses laid over one another ----

  function Merge(a: map<Site, Address>, o: map<Site, Address>): map<Site, Address> {
    map s | s in a.Keys + o.Keys :: AddressOf(a, s) + AddressOf(o, s)
  }

  lemma {:induction false} MergeAt(a: map<Site, Address>, o: map<Site, Address>, s: Site)
    ensures AddressOf(Merge(a, o), s) == AddressOf(a, s) + AddressOf(o, s)
    ensures Merge(a, o).Keys == a.Keys + o.Keys
  {
    var none: Address := map[];
    assert none + none == none;
  }

  lemma {:induction false} SameAddresses(a: map<Site, Address>, b: map<Site, Address>)
    requires a.Keys == b.Keys && forall s :: s in a ==> AddressOf(a, s) == AddressOf(b, s)
    ensures a == b
  {
    forall s | s in a ensures a[s] == b[s] {
      assert AddressOf(a, s) == AddressOf(b, s);
    }
  }

  lemma {:induction false} FieldsAssociate(p: Address, q: Address, t: Address)
    ensures (p + q) + t == p + (q + t)
    ensures (p + q) + (q + t) == p + (q + t)
  {
  }

  lemma {:induction false} StampAt(a: map<Site, Address>, e: End, r: Row, s: Site)
    ensures AddressOf(Stamp(a, e, r), s)
         == if Stamps(e, r) && s == e.site.value then AddressOf(a, s) + r.address else AddressOf(a, s)
    ensures Stamp(a, e, r).Keys == a.Keys + (if Stamps(e, r) then {e.site.value} else {})
  {
  }

  lemma {:induction false} StampMerge(a: map<Site, Address>, o: map<Site, Address>, e: End, r: Row)
    ensures Stamp(Merge(a, o), e, r) == Merge(a, Stamp(o, e, r))
  {
    hide Merge, Stamp;
    var left, right := Stamp(Merge(a, o), e, r), Merge(a, Stamp(o, e, r));
    forall s: Site
      ensures AddressOf(left, s) == AddressOf(right, s)
      ensures left.Keys == right.Keys
    {
      StampAt(Merge(a, o), e, r, s);
      StampAt(o, e, r, s);
      MergeAt(a, o, s);
      MergeAt(a, Stamp(o, e, r), s);
      FieldsAssociate(AddressOf(a, s), AddressOf(o, s), if r.CustomerRow? then r.address else map[]);
    }
    assert AddressOf(left, (0, 0)) == AddressOf(right, (0, 0));
    SameAddresses(left, right);
  }

  lemma {:induction false} StampAllMerge(a: map<Site, Address>, o: map<Site, Address>, es: seq<End>, rs: seq<Row>)
    requires |es| == |rs|
    ensures StampAll(Merge(a, o), es, rs) == Merge(a, StampAll(o, es, rs))
    decreases |rs|
  {
    hide Stamp, Merge;
    if rs != [] {
      var n := |rs| - 1;
      StampAllMerge(a, o, es[..n], rs[..n]);
      StampMerge(a, StampAll(o, es[..n], rs[..n]), es[n], rs[n]);
    }
  }

  lemma {:induction false} MergeNothing(a: map<Site, Address>)
    ensures Merge(a, map[]) == a
  {
    forall s | s in a ensures Merge(a, map[])[s] == a[s] {
      assert a[s] + map[] == a[s];
    }
  }

  lemma {:induction false} StampAllAppend(a: map<Site, Address>, es: seq<End>, rs: seq<Row>, m: nat)
    requires |es| == |rs| && m <= |rs|
    ensures StampAll(a, es, rs) == StampAll(StampAll(a, es[..m], rs[..m]), es[m..], rs[m..])
    decreases |rs|
  {
    hide Stamp;
    if m == |rs| {
      assert es[..m] == es && rs[..m] == rs && rs[m..] == [];
    } else {
      var n := |rs| - 1;
      StampAllAppend(a, es[..n], rs[..n], m);
      assert es[..n][..m] == es[..m] && rs[..n][..m] == rs[..m];
      assert es[..n][m..] == es[m..][..n - m] && rs[..n][m..] == rs[m..][..n - m];
    }
  }

  lemma {:induction false} MergeTwice(a: map<Site, Address>, y: map<Site, Address>, z: map<Site, Address>)
    ensures Merge(Merge(a, y), Merge(y, z)) == Merge(a, Merge(y, z))
  {
    hide Merge;
    var left, right := Merge(Merge(a, y), Merge(y, z)), Merge(a, Merge(y, z));
    forall s: Site
      ensures AddressOf(left, s) == AddressOf(right, s)
      ensures left.Keys == right.Keys
    {
      MergeAt(a, y, s);
      MergeAt(y, z, s);
      MergeAt(Merge(a, y), Merge(y, z), s);
      MergeAt(a, Merge(y, z), s);
      FieldsAssociate(AddressOf(a, s), AddressOf(y, s), AddressOf(z, s));
    }
    assert AddressOf(left, (0, 0)) == AddressOf(right, (0, 0));
    SameAddresses(left, right);
  }

  /** Fields laid down by some of the rows are laid down again by all of them: the earlier layer shows nowhere. */
  lemma {:induction false} StampedAgain(a: map<Site, Address>, es: seq<End>, rs: seq<Row>, m: nat)
    requires |es| == |rs| && m <= |rs|
    ensures StampAll(StampAll(a, es[..m], rs[..m]), es, rs) == StampAll(a, es, rs)
  {
    hide StampAll, Merge;
    var y := StampAll(map[], es[..m], rs[..m]);
    var z := StampAll(map[], es[m..], rs[m..]);
    MergeNothing(a);
    MergeNothing(y);
    StampAllMerge(a, map[], es[..m], rs[..m]);
    MergeNothing(Merge(a, y));
    StampAllMerge(Merge(a, y), map[], es, rs);
    StampAllAppend(map[], es, rs, m);
    StampAllMerge(y, map[], es[m..], rs[m..]);
    StampAllMerge(a, map[], es, rs);
    MergeTwice(a, y, z);
  }

  // ---- the promises ----

  /** The gateway after an import cut off in row `i` after `k` of its writes. */
  function Cut(verify: bool, g: Gate, rs: seq<Row>, i: nat, k: nat): Gate
    requires i < |rs| && k <= |Plan(verify, Import(verify, g, rs[..i]), rs[i])|
  {
    var before := Import(verify, g, rs[..i]);
    ApplyAll(before, Plan(verify, before, rs[i])[..k])
  }

  lemma {:induction false} EndsPrefix(verify: bool, h: Held, rs: seq<Row>, m: nat)
    requires m <= |rs|
    ensures Ends(verify, h, rs[..m]) == Ends(verify, h, rs)[..m]
  {
    assert rs[..m] + rs[m..] == rs;
    RanAppend(verify, h, rs[..m], rs[m..]);
  }

  lemma {:induction false} ResumeFrom(verify: bool, g: Gate, rs: seq<Row>, i: nat, k: nat, m: nat, cut: Gate)
    requires RowsOk(rs) && InOrder(rs) && WellKept(g) && WellKept(cut) && i < |rs| && m <= |rs|
    requires k <= |StepsOf(verify, Ran(verify, g.held, rs[..i]), rs[i]).writes|
    requires cut == Gate(CutOff(verify, g.held, rs, i, k), StampAll(g.addresses, Ends(verify, g.held, rs)[..m], rs[..m]))
    ensures Import(verify, cut, rs) == Import(verify, g, rs)
  {
    hide StepsOf, Ran, Ends, CutOff, StampAll, Import;
    ImportEffect(verify, g, rs);
    ImportEffect(verify, cut, rs);
    RunAgainAfterCut(verify, g.held, rs, i, k);
    StampedAgain(g.addresses, Ends(verify, g.held, rs), rs, m);
  }

  lemma {:induction false} CutIs(verify: bool, g: Gate, rs: seq<Row>, i: nat, k: nat)
      returns (j: nat, m: nat)
    requires RowsOk(rs) && WellKept(g) && i < |rs| && k <= |Plan(verify, Import(verify, g, rs[..i]), rs[i])|
    ensures m <= |rs| && j <= |StepsOf(verify, Ran(verify, g.held, rs[..i]), rs[i]).writes|
    ensures Cut(verify, g, rs, i, k)
         == Gate(CutOff(verify, g.held, rs, i, j), StampAll(g.addresses, Ends(verify, g.held, rs)[..m], rs[..m]))
    ensures WellKept(Cut(verify, g, rs, i, k))
  {
    hide StepsOf, PutAll, Ends, StampAll, WellHeld, ApplyAll, Import, Ran;
    var before := Import(verify, g, rs[..i]);
    ImportEffect(verify, g, rs[..i]);
    EndsPrefix(verify, g.held, rs, i);
    var plan := Plan(verify, before, rs[i]);
    var s := StepsOf(verify, before.held, rs[i]);
    if k < |plan| {
      PartOfARow(verify, before, rs[i], k);
      TakesUpWhereItStopped(verify, before.held, rs[i], k);
      NodesGrow(verify, before.held, rs[i], k);
      j, m := k, i;
    } else {
      j, m := |s.writes|, i + 1;
      assert plan[..k] == plan && s.writes[..j] == s.writes;
      RowEffect(verify, before, rs[i]);
      StampOneMore(verify, g, rs, i);
    }
  }

  lemma {:induction false} StampOneMore(verify: bool, g: Gate, rs: seq<Row>, i: nat)
    requires i < |rs|
    ensures var es := Ends(verify, g.held, rs);
      StampAll(g.addresses, es[..i + 1], rs[..i + 1])
      == Stamp(StampAll(g.addresses, es[..i], rs[..i]), StepsOf(verify, Ran(verify, g.held, rs[..i]), rs[i]).end, rs[i])
  {
    hide StepsOf, Ran, Ends, Stamp;
    var es := Ends(verify, g.held, rs);
    EndsAt(verify, g.held, rs, i);
    assert es[..i + 1][..i] == es[..i] && rs[..i + 1][..i] == rs[..i];
  }

  /** An import cut off after any prefix of its writes, then run again whole, ends in the state of one uninterrupted
      run - rows, references, states and addresses. */
  lemma {:induction false} ImportResumes(verify: bool, g: Gate, rs: seq<Row>, i: nat, k: nat)
    requires RowsOk(rs) && InOrder(rs) && WellKept(g) && i < |rs|
    requires k <= |Plan(verify, Import(verify, g, rs[..i]), rs[i])|
    ensures Import(verify, Cut(verify, g, rs, i, k), rs) == Import(verify, g, rs)
  {
    hide Import, Cut, CutOff, StepsOf, StampAll;
    var j, m := CutIs(verify, g, rs, i, k);
    ResumeFrom(verify, g, rs, i, j, m, Cut(verify, g, rs, i, k));
  }

  /** A second whole run leaves what the first one left. */
  lemma {:induction false} SecondRunChangesNothing(verify: bool, g: Gate, rs: seq<Row>)
    requires RowsOk(rs) && InOrder(rs) && WellKept(g)
    ensures Import(verify, Import(verify, g, rs), rs) == Import(verify, g, rs)
  {
    hide Import, Ran, StampAll, Ends;
    var g' := Import(verify, g, rs);
    ImportEffect(verify, g, rs);
    ImportEffect(verify, g', rs);
    RunAgain(verify, g.held, rs);
    var es := Ends(verify, g.held, rs);
    StampedAgain(g.addresses, es, rs, |rs|);
    assert es[..|rs|] == es && rs[..|rs|] == rs;
  }

  // ---- when the second run is silent ----

  function RunWrites(verify: bool, g: Gate, rs: seq<Row>): seq<Write>
    decreases rs
  {
    if rs == [] then [] else Plan(verify, g, rs[0]) + RunWrites(verify, After(verify, g, rs[0]), rs[1..])
  }

  predicate Stamps(e: End, r: Row) {
    r.CustomerRow? && e.Done? && e.site.Some?
  }

  /** No two rows give one site different values for the same field. */
  ghost predicate Agreeing(es: seq<End>, rs: seq<Row>)
    requires |es| == |rs|
  {
    forall i, j, f ::
      (0 <= i < j < |rs| && Stamps(es[i], rs[i]) && Stamps(es[j], rs[j]) && es[i].site == es[j].site
       && f in rs[i].address && f in rs[j].address) ==> rs[i].address[f] == rs[j].address[f]
  }

  ghost predicate Fits(a: map<Site, Address>, e: End, r: Row) {
    Stamps(e, r) ==> forall f :: f in r.address ==>
      f in AddressOf(a, e.site.value) && AddressOf(a, e.site.value)[f] == r.address[f]
  }

  lemma {:induction false} AgreeingFits(a: map<Site, Address>, es: seq<End>, rs: seq<Row>)
    requires |es| == |rs| && Agreeing(es, rs)
    ensures forall t :: 0 <= t < |rs| ==> Fits(StampAll(a, es, rs), es[t], rs[t])
    decreases |rs|
  {
    if rs != [] {
      var n := |rs| - 1;
      assert Agreeing(es[..n], rs[..n]) by {
        forall i, j, f | 0 <= i < j < n && Stamps(es[..n][i], rs[..n][i]) && Stamps(es[..n][j], rs[..n][j])
                         && es[..n][i].site == es[..n][j].site && f in rs[..n][i].address && f in rs[..n][j].address
          ensures rs[..n][i].address[f] == rs[..n][j].address[f]
        {
          assert rs[..n][i] == rs[i] && rs[..n][j] == rs[j];
        }
      }
      AgreeingFits(a, es[..n], rs[..n]);
      var before := StampAll(a, es[..n], rs[..n]);
      forall t | 0 <= t < |rs| ensures Fits(StampAll(a, es, rs), es[t], rs[t]) {
        if t < n {
          assert Fits(before, es[..n][t], rs[..n][t]);
        }
      }
    }
  }

  lemma {:induction false} SilentIffFits(verify: bool, g: Gate, rs: seq<Row>, es: seq<End>)
    requires |es| == |rs|
    requires forall t :: 0 <= t < |rs| ==> StepsOf(verify, g.held, rs[t]) == Steps([], es[t])
    ensures RunWrites(verify, g, rs) == [] <==> forall t :: 0 <= t < |rs| ==> Fits(g.addresses, es[t], rs[t])
    decreases rs
  {
    hide StepsOf;
    if rs != [] {
      var plan := Plan(verify, g, rs[0]);
      assert plan == AddressWrite(g.addresses, Steps([], es[0]), rs[0]);
      assert plan == [] <==> Fits(g.addresses, es[0], rs[0]);
      if plan == [] {
        assert After(verify, g, rs[0]) == g;
        SilentIffFits(verify, g, rs[1..], es[1..]);
        assert forall t :: 1 <= t < |rs| ==> rs[t] == rs[1..][t - 1] && es[t] == es[1..][t - 1];
        assert forall t :: 0 <= t < |rs| - 1 ==> rs[t + 1] == rs[1..][t] && es[t + 1] == es[1..][t];
      }
    }
  }

  /** The second run writes nothing, and so skips or rejects every row, exactly when no two rows of the files give one
      site different values for the same address field. */
  lemma {:induction false} SecondRunIsSilentIffRowsAgree(verify: bool, g: Gate, rs: seq<Row>)
    requires RowsOk(rs) && InOrder(rs) && WellKept(g)
    ensures RunWrites(verify, Import(verify, g, rs), rs) == [] <==> Agreeing(Ends(verify, g.held, rs), rs)
  {
    hide Import, Ran, StampAll, Ends, StepsOf, RunWrites;
    var g', es := Import(verify, g, rs), Ends(verify, g.held, rs);
    ImportEffect(verify, g, rs);
    RunAgain(verify, g.held, rs);
    SilentIffFits(verify, g', rs, es);
    if Agreeing(es, rs) {
      AgreeingFits(g.addresses, es, rs);
    } else if forall t :: 0 <= t < |rs| ==> Fits(g'.addresses, es[t], rs[t]) {
      FittingAgrees(g'.addresses, es, rs);
    }
  }

  lemma {:induction false} FittingAgrees(a: map<Site, Address>, es: seq<End>, rs: seq<Row>)
    requires |es| == |rs| && forall t :: 0 <= t < |rs| ==> Fits(a, es[t], rs[t])
    ensures Agreeing(es, rs)
  {
    forall i, j, f | 0 <= i < j < |rs| && Stamps(es[i], rs[i]) && Stamps(es[j], rs[j]) && es[i].site == es[j].site
                     && f in rs[i].address && f in rs[j].address
      ensures rs[i].address[f] == rs[j].address[f]
    {
      assert Fits(a, es[i], rs[i]) && Fits(a, es[j], rs[j]);
    }
  }

  lemma {:induction false} SilentRowsSkip(verify: bool, g: Gate, rs: seq<Row>)
    requires RunWrites(verify, g, rs) == []
    ensures forall q :: q in Reports(verify, g, rs) ==> q.outcome == Skipped || q.outcome == Rejected
    decreases rs
  {
    hide StepsOf, Plan, After;
    if rs != [] {
      SilentRowsSkip(verify, After(verify, g, rs[0]), rs[1..]);
    }
  }
}
