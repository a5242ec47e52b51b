/** What an import leaves of each row when all of it is over: what a row made stays, and whatever is new came of a row. */
module ImportRecords {
  import opened Common
  import opened ImportModel
  import opened ImportSteps
  import opened ImportRuns
  import opened ImportTheorems
  import opened ImportPrefixes
  import opened ImportMeaning

  // ---- what is held only grows ----

  /** A firm keeps its name, its other columns and its MSA, and only ever goes into service. */
  predicate FirmKept(was: Firm, now: Firm) {
    && now.name == was.name && now.facts == was.facts && (was.msa.Some? ==> now.msa == was.msa)
    && (now.status == was.status || (was.status == Onboarding && now.status == InService))
  }

  /** A credential only ever becomes verified. */
  predicate CredKept(was: Cred, now: Cred) {
    now == was.(verified := now.verified) && (was.verified ==> now.verified)
  }

  /** An agreement only ever goes live. */
  predicate ContractKept(was: Contract, now: Contract) {
    now == was || (was.state == Draft && now == was.(state := Live))
  }

  ghost predicate FirmsKept(was: seq<Firm>, now: seq<Firm>) {
    |was| <= |now| && forall i :: 0 <= i < |was| ==> FirmKept(was[i], now[i])
  }

  ghost predicate CredsKept(was: seq<Cred>, now: seq<Cred>) {
    |was| <= |now| && forall i :: 0 <= i < |was| ==> CredKept(was[i], now[i])
  }

  ghost predicate ContractsKept(was: seq<Contract>, now: seq<Contract>) {
    |was| <= |now| && forall i :: 0 <= i < |was| ==> ContractKept(was[i], now[i])
  }

  /** Nothing held is dropped, moved or otherwise changed. */
  ghost predicate Keeps(h: Held, h': Held) {
    && h'.regions == h.regions && FirmsKept(h.firms, h'.firms)
    && h.crews <= h'.crews && h.techs <= h'.techs && h.orgs <= h'.orgs
    && (forall k: nat :: Of(h.nodes, k) <= Of(h'.nodes, k) && Of(h.overrides, k) <= Of(h'.overrides, k))
    && (forall k: nat :: CredsKept(Of(h.creds, k), Of(h'.creds, k)) && ContractsKept(Of(h.contracts, k), Of(h'.contracts, k)))
  }

  lemma {:induction false} KeepsItself(h: Held)
    ensures Keeps(h, h)
  {
  }

  lemma {:induction false} ListsKept(a: Held, b: Held, c: Held)
    requires Keeps(a, b) && Keeps(b, c)
    ensures FirmsKept(a.firms, c.firms)
    ensures forall k: nat :: CredsKept(Of(a.creds, k), Of(c.creds, k)) && ContractsKept(Of(a.contracts, k), Of(c.contracts, k))
  {
    hide Of;
  }

  lemma {:induction false} KeepsOn(a: Held, b: Held, c: Held)
    requires Keeps(a, b) && Keeps(b, c)
    ensures Keeps(a, c)
  {
    hide FirmsKept, CredsKept, ContractsKept, Of;
    ListsKept(a, b, c);
  }

  lemma {:induction false} RowKeeps(verify: bool, h: Held, r: Row, e: End, h': Held)
    requires RowMeans(verify, h, r, e, h')
    ensures Keeps(h, h')
  {
    match r
    case FirmRow(_, _, _, _, _) => FirmRowKeeps(h, r, e, h');
    case CrewRow(_, _, _, _) =>
    case TechRow(_, _, _, _, _) =>
    case CredRow(_, _, _, _, _, _, _, _) => CredRowKeeps(verify, h, r, e, h');
    case CustomerRow(_, _, _, _, _, _, _, _, _) => CustomerRowKeeps(h, r, e, h');
    case AgreementRow(_, _, _, _, _, _, _, _) => AgreementRowKeeps(h, r, e, h');
    case Unreadable(_) =>
  }

  lemma {:induction false} FirmRowKeeps(h: Held, r: Row, e: End, h': Held)
    requires r.FirmRow? && FirmMeans(h, r, e, h')
    ensures Keeps(h, h')
  {
  }

  lemma {:induction false} CredRowKeeps(verify: bool, h: Held, r: Row, e: End, h': Held)
    requires r.CredRow? && CredMeans(verify, h, r, e, h')
    ensures Keeps(h, h')
  {
    hide FirmFor, CrewIs, OtherDates, NoCred;
    if e.Done? {
      var f, c: nat :| FirmFor(h, r.firm, f) && CrewIs(h, r.holder, r.region, f, c) && CredLands(verify, h, r, c, h');
      forall k: nat ensures CredsKept(Of(h.creds, k), Of(h'.creds, k)) {
        if k != c {
          assert Of(h'.creds, k) == Of(h.creds, k);
        }
      }
    }
  }

  lemma {:induction false} CustomerRowKeeps(h: Held, r: Row, e: End, h': Held)
    requires r.CustomerRow? && CustomerMeans(h, r, e, h')
    ensures Keeps(h, h')
  {
    hide OtherSegment, CustomerMet, CustomerMade, Keeps, Serves;
    KeepsItself(h);
    if CustomerMet(h, r, e, h') {
      CustomerMetKeeps(h, r, e, h');
    } else if CustomerMade(h, r, e, h') {
      CustomerMadeKeeps(h, r, e, h');
    }
  }

  lemma {:induction false} CustomerMetKeeps(h: Held, r: Row, e: End, h': Held)
    requires r.CustomerRow? && CustomerMet(h, r, e, h')
    ensures Keeps(h, h')
  {
    hide OrgIs, TreeLands, Keeps;
    KeepsItself(h);
    if r.segment == Commercial {
      var o: nat :| OrgIs(h, r.ref, o) && TreeLands(h, r, o, e, h');
      TreeKeeps(h, r, o, e, h');
    }
  }

  lemma {:induction false} CustomerMadeKeeps(h: Held, r: Row, e: End, h': Held)
    requires r.CustomerRow? && CustomerMade(h, r, e, h')
    ensures Keeps(h, h')
  {
    hide NoOrg, TreeLands, Keeps;
    var org := Org(Some(r.ref), r.name, Some(r.segment));
    var more := h.(orgs := h.orgs + [org]);
    OrgKeeps(h, org);
    if r.segment == Commercial {
      TreeKeeps(more, r, |h.orgs|, e, h');
      KeepsOn(h, more, h');
    }
  }

  lemma {:induction false} OrgKeeps(h: Held, org: Org)
    ensures Keeps(h, h.(orgs := h.orgs + [org]))
  {
  }

  lemma {:induction false} TreeKeeps(h: Held, r: Row, o: nat, e: End, h': Held)
    requires r.CustomerRow? && TreeLands(h, r, o, e, h')
    ensures Keeps(h, h')
  {
    hide RegionIs, LocationIs, SiteIs, ComesTo;
    assert Of(h.nodes, o) <= Of(h'.nodes, o);
  }

  lemma {:induction false} AgreementRowKeeps(h: Held, r: Row, e: End, h': Held)
    requires r.AgreementRow? && AgreementMeans(h, r, e, h')
    ensures Keeps(h, h')
  {
    hide NoOrg, OrgIs, Company, Party, SignedOtherwise, TermsOtherwise, AgreementLands, Keeps;
    KeepsItself(h);
    if e.Done? {
      var o: nat, region: Id :| Party(h, r, o, region) && AgreementLands(h, r, o, region, h');
      PapersKeep(h, r, o, region, h');
    }
  }

  lemma {:induction false} ContractsStay(was: seq<Contract>, r: Row, region: Id, c: nat, now: seq<Contract>)
    requires r.AgreementRow? && ContractLands(was, r, region, c, now)
    ensures ContractsKept(was, now)
  {
    hide NoMsa;
  }

  lemma {:induction false} PapersKeep(h: Held, r: Row, o: nat, region: Id, h': Held)
    requires r.AgreementRow? && AgreementLands(h, r, o, region, h')
    ensures Keeps(h, h')
  {
    hide Missing, ContractLands;
    var c: nat, at, added :| ContractLands(Of(h.contracts, o), r, region, c, Of(h'.contracts, o))
      && Missing(Of(h.overrides, o), c, r.terms, at, added) && Of(h'.overrides, o) == Of(h.overrides, o) + added;
    ContractsStay(Of(h.contracts, o), r, region, c, Of(h'.contracts, o));
    forall k: nat ensures ContractsKept(Of(h.contracts, k), Of(h'.contracts, k)) && Of(h.overrides, k) <= Of(h'.overrides, k) {
      if k != o {
        assert Of(h'.contracts, k) == Of(h.contracts, k);
      }
    }
  }

  // ---- whole imports ----

  /** Row `t` of an import leaves what its columns say of what the rows before it left, and that is still there when the
      import is over. */
  lemma {:induction false} ImportIsMeant(verify: bool, g: Gate, rs: seq<Row>, t: nat)
    requires RowsOk(rs) && WellKept(g) && t < |rs|
    ensures var before, after, e := Import(verify, g, rs[..t]), Import(verify, g, rs[..t + 1]), Ends(verify, g.held, rs)[t];
      && Keeps(g.held, before.held) && RowMeans(verify, before.held, rs[t], e, after.held)
      && Addressed(before.addresses, rs[t], e, after.addresses) && Keeps(after.held, Import(verify, g, rs).held)
  {
    hide StepsOf, RowMeans, Addressed, WellKept, Keeps, Import, Ran;
    var before := Import(verify, g, rs[..t]);
    ImportEffect(verify, g, rs[..t]);
    EndsAt(verify, g.held, rs, t);
    RowIsMeant(verify, before, rs[t]);
    assert rs[..t + 1] == rs[..t] + [rs[t]];
    ImportAppend(verify, g, rs[..t], [rs[t]]);
    OneRow(verify, before, rs[t]);
    RowEffect(verify, before, rs[t]);
    assert rs == rs[..t + 1] + rs[t + 1..];
    ImportAppend(verify, g, rs[..t + 1], rs[t + 1..]);
    ImportKeeps(verify, g, rs[..t]);
    ImportKeeps(verify, Import(verify, g, rs[..t + 1]), rs[t + 1..]);
  }

  /** No import drops, moves or changes what was held, but to put a firm in service, verify a credential and bring an
      agreement to life. */
  lemma {:induction false} ImportKeeps(verify: bool, g: Gate, rs: seq<Row>)
    requires RowsOk(rs) && WellKept(g)
    ensures Keeps(g.held, Import(verify, g, rs).held)
    decreases rs
  {
    hide StepsOf, RowMeans, Addressed, WellKept, Keeps, After;
    KeepsItself(g.held);
    if rs != [] {
      var g1 := After(verify, g, rs[0]);
      RowIsMeant(verify, g, rs[0]);
      RowKeeps(verify, g.held, rs[0], StepsOf(verify, g.held, rs[0]).end, g1.held);
      RowEffect(verify, g, rs[0]);
      ImportKeeps(verify, g1, rs[1..]);
      KeepsOn(g.held, g1.held, Import(verify, g, rs).held);
    }
  }

  // ---- what a row made, as it is when all is over ----

  lemma {:induction false} FirmForStays(h: Held, h': Held, name: Option<Name>, f: Option<nat>)
    requires Keeps(h, h') && FirmFor(h, name, f)
    ensures FirmFor(h', name, f)
  {
    hide CredsKept, ContractsKept;
    if f.Some? {
      forall i | 0 <= i <= f.value ensures h'.firms[i].name == h.firms[i].name {
        assert FirmKept(h.firms[i], h'.firms[i]);
      }
    }
  }

  lemma {:induction false} CrewIsStays(h: Held, h': Held, title: Name, region: Id, firm: Option<nat>, c: nat)
    requires Keeps(h, h') && CrewIs(h, title, region, firm, c)
    ensures CrewIs(h', title, region, firm, c)
  {
    hide CredsKept, ContractsKept, FirmsKept, LikeCrew;
    assert forall i :: 0 <= i <= c ==> h'.crews[i] == h.crews[i];
  }

  lemma {:induction false} CrewForStays(h: Held, h': Held, title: Option<Name>, region: Id, firm: Option<nat>, c: Option<nat>)
    requires Keeps(h, h') && CrewFor(h, title, region, firm, c)
    ensures CrewFor(h', title, region, firm, c)
  {
    hide Keeps, CrewIs;
    if title.Some? {
      CrewIsStays(h, h', title.value, region, firm, c.value);
    }
  }

  lemma {:induction false} OneFirm(h: Held, name: Option<Name>, f: Option<nat>, f': Option<nat>)
    requires FirmFor(h, name, f) && FirmFor(h, name, f')
    ensures f == f'
  {
  }

  /** The technician at `k` is the row's: its text and columns, its firm, and the crew it names, by that crew's title,
      region and firm - on none exactly if the row names none. */
  ghost predicate TechIs(h: Held, r: Row, f: Option<nat>, c: Option<nat>, k: nat)
    requires r.TechRow?
  {
    && FirmFor(h, r.firm, f) && CrewFor(h, r.crew, r.region, f, c)
    && k < |h.techs| && h.techs[k] == Tech(r.name, f, c, r.facts)
  }

  lemma {:induction false} TechIsStays(h: Held, h': Held, r: Row, f: Option<nat>, c: Option<nat>, k: nat)
    requires r.TechRow? && Keeps(h, h') && TechIs(h, r, f, c, k)
    ensures TechIs(h', r, f, c, k)
  {
    hide FirmFor, CrewFor, FirmsKept, CredsKept, ContractsKept;
    FirmForStays(h, h', r.firm, f);
    CrewForStays(h, h', r.crew, r.region, f, c);
  }

  /** No technician by the row's name and firm was held at first, and no earlier row not refused has them. */
  ghost predicate FirstFor(h: Held, end: Held, rs: seq<Row>, es: seq<End>, t: nat, f: Option<nat>)
    requires |es| == |rs| && t < |rs| && rs[t].TechRow?
  {
    && NoTech(h, rs[t].name, f)
    && forall s :: 0 <= s < t && rs[s].TechRow? && es[s].Done? && rs[s].name.key == rs[t].name.key ==> !FirmFor(end, rs[s].firm, f)
  }

  lemma {:induction false} OnlyTechRowsMakeTechs(verify: bool, h: Held, r: Row, e: End, h': Held)
    requires RowMeans(verify, h, r, e, h')
    ensures !(r.TechRow? && e.Done?) ==> h'.techs == h.techs
  {
    hide FirmIs, FirmFor, NoFirm, CrewIs, OtherDates, CredMet, CredMade, OrgIs, NoOrg, OtherSegment, TreeMeans, ComesTo;
    hide Party, ContractLands, Missing, Company, ServedAs, SignedOtherwise, TermsOtherwise;
  }

  lemma {:induction false} StillNoTech(verify: bool, g: Gate, rs: seq<Row>, t: nat, f: Option<nat>, s: nat)
    requires RowsOk(rs) && WellKept(g) && s <= t < |rs| && rs[t].TechRow?
    requires FirstFor(g.held, Import(verify, g, rs).held, rs, Ends(verify, g.held, rs), t, f)
    ensures NoTech(Import(verify, g, rs[..s]).held, rs[t].name, f)
    decreases s
  {
    hide Import, Ends, WellKept, RowsOk, Keeps, RowMeans, Addressed, FirmFor, TechLands;
    RunOfNothing(verify, g);
    if s == 0 {
      assert rs[..0] == [];
    } else {
      var h, h', end := Import(verify, g, rs[..s - 1]).held, Import(verify, g, rs[..s]).held, Import(verify, g, rs).held;
      var r, e := rs[s - 1], Ends(verify, g.held, rs)[s - 1];
      StillNoTech(verify, g, rs, t, f, s - 1);
      ImportIsMeant(verify, g, rs, s - 1);
      OnlyTechRowsMakeTechs(verify, h, r, e, h');
      if r.TechRow? && e.Done? {
        TechRowDone(verify, h, r, e, h');
        var f1, c1 :| FirmFor(h, r.firm, f1) && TechLands(h, r, f1, c1, h');
        RowKeeps(verify, h, r, e, h');
        KeepsOn(h, h', end);
        FirmForStays(h, end, r.firm, f1);
        OneTechMore(h, r, f1, c1, h');
      }
    }
  }

  lemma {:induction false} TechRowDone(verify: bool, h: Held, r: Row, e: End, h': Held)
    requires r.TechRow? && e.Done? && RowMeans(verify, h, r, e, h')
    ensures exists f, c :: FirmFor(h, r.firm, f) && TechLands(h, r, f, c, h')
  {
    hide TechLands, FirmFor;
  }

  lemma {:induction false} OneTechMore(h: Held, r: Row, f: Option<nat>, c: Option<nat>, h': Held)
    requires r.TechRow? && TechLands(h, r, f, c, h')
    ensures forall t :: t in h'.techs ==> t in h.techs || (t.name == r.name && t.firm == f)
    ensures NoTech(h, r.name, f) ==> |h'.techs| == |h.techs| + 1 && h'.techs[|h.techs|] == Tech(r.name, f, c, r.facts)
    ensures CrewFor(h, r.crew, r.region, f, c)
  {
    hide CrewFor;
  }

  /** When an import is over, the first row not refused for a technician not held before - by name and firm - has left
      one just as it says; and the firm it names is there. */
  lemma {:induction false} FirstRowMakesTech(verify: bool, g: Gate, rs: seq<Row>, t: nat)
    requires RowsOk(rs) && WellKept(g) && t < |rs| && rs[t].TechRow? && Ends(verify, g.held, rs)[t].Done?
    ensures var end := Import(verify, g, rs).held;
      exists f :: FirmFor(end, rs[t].firm, f)
        && (FirstFor(g.held, end, rs, Ends(verify, g.held, rs), t, f) ==>
              exists c, k: nat :: |g.held.techs| <= k && TechIs(end, rs[t], f, c, k))
  {
    hide Import, Ends, WellKept, RowsOk, Keeps, RowMeans, Addressed, FirmFor, CrewFor, TechLands, FirstFor;
    var r, e := rs[t], Ends(verify, g.held, rs)[t];
    var h, h', end := Import(verify, g, rs[..t]).held, Import(verify, g, rs[..t + 1]).held, Import(verify, g, rs).held;
    ImportIsMeant(verify, g, rs, t);
    TechRowDone(verify, h, r, e, h');
    var f, c :| FirmFor(h, r.firm, f) && TechLands(h, r, f, c, h');
    RowKeeps(verify, h, r, e, h');
    KeepsOn(h, h', end);
    FirmForStays(h, end, r.firm, f);
    if FirstFor(g.held, end, rs, Ends(verify, g.held, rs), t, f) {
      StillNoTech(verify, g, rs, t, f, t);
      OneTechMore(h, r, f, c, h');
      FirmForStays(h, h', r.firm, f);
      CrewForStays(h, h', r.crew, r.region, f, c);
      TechIsStays(h', end, r, f, c, |h.techs|);
      TechsGrow(g.held, h);
      assert TechIs(end, r, f, c, |h.techs|);
    }
  }

  lemma {:induction false} TechsGrow(h: Held, h': Held)
    requires Keeps(h, h')
    ensures |h.techs| <= |h'.techs|
  {
  }
}
