/** Whatever an import adds to any table came of one of its rows, and says what that row says. */
module ImportSources {
  import opened Common
  import opened ImportModel
  import opened ImportRuns
  import opened ImportTheorems
  import opened ImportPrefixes
  import opened ImportMeaning
  import opened ImportRecords

  /** A place in one of the tables. */
  datatype Spot =
    | FirmSpot(at: nat) | CrewSpot(at: nat) | TechSpot(at: nat) | CredSpot(crew: nat, at: nat)
    | OrgSpot(at: nat) | NodeSpot(org: nat, at: nat) | ContractSpot(org: nat, at: nat) | TermSpot(org: nat, at: nat)

  predicate In(h: Held, s: Spot) {
    match s
    case FirmSpot(at) => at < |h.firms|
    case CrewSpot(at) => at < |h.crews|
    case TechSpot(at) => at < |h.techs|
    case CredSpot(crew, at) => at < |Of(h.creds, crew)|
    case OrgSpot(at) => at < |h.orgs|
    case NodeSpot(org, at) => at < |Of(h.nodes, org)|
    case ContractSpot(org, at) => at < |Of(h.contracts, org)|
    case TermSpot(org, at) => at < |Of(h.overrides, org)|
  }

  // ---- a record as its row says ----

  ghost predicate FirmSays(f: Firm, r: Row) {
    && r.FirmRow? && f.name == r.name && f.facts == r.facts
    && (r.msa.Some? ==> f.msa == r.msa) && (r.activate ==> f.status != Onboarding)
  }

  ghost predicate CrewSays(h: Held, c: Crew, r: Row) {
    r.CrewRow? && FirmFor(h, r.firm, c.firm) && c == Crew(r.title, r.region, c.firm, r.facts)
  }

  ghost predicate TechSays(h: Held, t: Tech, r: Row) {
    && r.TechRow? && FirmFor(h, r.firm, t.firm) && CrewFor(h, r.crew, r.region, t.firm, t.crew)
    && t == Tech(r.name, t.firm, t.crew, r.facts)
  }

  ghost predicate CredSays(verify: bool, h: Held, crew: nat, d: Cred, r: Row) {
    && r.CredRow? && (exists f :: FirmFor(h, r.firm, f) && CrewIs(h, r.holder, r.region, f, crew))
    && d == Cred(r.kind, r.identifier, r.validFrom, r.validTo, r.facts, d.verified) && (verify ==> d.verified)
  }

  predicate OrgSays(o: Org, r: Row) {
    r.CustomerRow? && o == Org(Some(r.ref), r.name, Some(r.segment))
  }

  predicate IsRefOf(h: Held, org: nat, ref: Id) {
    org < |h.orgs| && h.orgs[org].ref == Some(ref)
  }

  /** The row's region node, its location under that region, or its site under that location. */
  ghost predicate NodeSays(h: Held, org: nat, n: Node, r: Row) {
    && r.CustomerRow? && IsRefOf(h, org, r.ref) && r.segment == Commercial
    && match n.tier
       case RegionTier => n == Node(RegionTier, r.regionNode, None, r.region, None, true)
       case LocationTier =>
         exists reg :: RegionIs(Of(h.nodes, org), r, reg) && n == Node(LocationTier, r.location, Some(reg), r.region, None, true)
       case SiteTier =>
         exists reg, loc :: RegionIs(Of(h.nodes, org), r, reg) && LocationIs(Of(h.nodes, org), r, reg, loc)
           && n == Node(SiteTier, r.site, Some(loc), r.region, r.siteRef, true)
  }

  ghost predicate ContractSays(h: Held, org: nat, k: Contract, r: Row) {
    && r.AgreementRow? && IsRefOf(h, org, r.customer) && ServedAs(h, org, r, k.region)
    && k == Contract(true, r.effectiveFrom, r.effectiveTo, r.signedAt, r.billing, k.region, k.state)
    && (r.activate ==> k.state != Draft)
  }

  ghost predicate TermSays(h: Held, org: nat, o: Override, r: Row) {
    && r.AgreementRow? && IsRefOf(h, org, r.customer) && MsaIs(Of(h.contracts, org), r.effectiveFrom, o.contract)
    && exists t :: t in r.terms && o == Override(o.contract, true, t.key, t.value)
  }

  /** What is at the spot is what the row says. */
  ghost predicate Says(verify: bool, h: Held, s: Spot, r: Row)
    requires In(h, s)
  {
    match s
    case FirmSpot(at) => FirmSays(h.firms[at], r)
    case CrewSpot(at) => CrewSays(h, h.crews[at], r)
    case TechSpot(at) => TechSays(h, h.techs[at], r)
    case CredSpot(crew, at) => CredSays(verify, h, crew, Of(h.creds, crew)[at], r)
    case OrgSpot(at) => OrgSays(h.orgs[at], r)
    case NodeSpot(org, at) => NodeSays(h, org, Of(h.nodes, org)[at], r)
    case ContractSpot(org, at) => ContractSays(h, org, Of(h.contracts, org)[at], r)
    case TermSpot(org, at) => TermSays(h, org, Of(h.overrides, org)[at], r)
  }

  // ---- it goes on saying so ----

  lemma {:induction false} StaysIn(h: Held, h': Held, s: Spot)
    requires Keeps(h, h') && In(h, s)
    ensures In(h', s)
  {
  }

  lemma {:induction false} RefStays(h: Held, h': Held, org: nat, ref: Id)
    requires Keeps(h, h') && IsRefOf(h, org, ref)
    ensures IsRefOf(h', org, ref)
  {
    hide FirmsKept, CredsKept, ContractsKept;
  }

  lemma {:induction false} CredStays(verify: bool, h: Held, h': Held, crew: nat, at: nat, r: Row)
    requires Keeps(h, h') && at < |Of(h.creds, crew)| && CredSays(verify, h, crew, Of(h.creds, crew)[at], r)
    ensures at < |Of(h'.creds, crew)| && CredSays(verify, h', crew, Of(h'.creds, crew)[at], r)
  {
    hide FirmsKept, ContractsKept, FirmFor, CrewIs;
    var f :| FirmFor(h, r.firm, f) && CrewIs(h, r.holder, r.region, f, crew);
    FirmForStays(h, h', r.firm, f);
    CrewIsStays(h, h', r.holder, r.region, f, crew);
    assert CredsKept(Of(h.creds, crew), Of(h'.creds, crew));
  }

  lemma {:induction false} TreeStays(was: seq<Node>, now: seq<Node>, r: Row, reg: nat)
    requires r.CustomerRow? && was <= now && RegionIs(was, r, reg)
    ensures RegionIs(now, r, reg)
    ensures forall loc: nat :: LocationIs(was, r, reg, loc) ==> LocationIs(now, r, reg, loc)
  {
    hide LikeRegion, LikeLocation;
    assert forall i :: 0 <= i < |was| ==> now[i] == was[i];
  }

  lemma {:induction false} NodeStays(h: Held, h': Held, org: nat, at: nat, r: Row)
    requires Keeps(h, h') && at < |Of(h.nodes, org)| && NodeSays(h, org, Of(h.nodes, org)[at], r)
    ensures at < |Of(h'.nodes, org)| && NodeSays(h', org, Of(h'.nodes, org)[at], r)
  {
    hide FirmsKept, CredsKept, ContractsKept, RegionIs, LocationIs, IsRefOf;
    RefStays(h, h', org, r.ref);
    var was, now := Of(h.nodes, org), Of(h'.nodes, org);
    assert was <= now && now[at] == was[at];
    forall reg: nat | RegionIs(was, r, reg)
      ensures RegionIs(now, r, reg)
      ensures forall loc: nat :: LocationIs(was, r, reg, loc) ==> LocationIs(now, r, reg, loc)
    {
      TreeStays(was, now, r, reg);
    }
  }

  lemma {:induction false} ServedStays(h: Held, h': Held, org: nat, r: Row, region: Id)
    requires r.AgreementRow? && Keeps(h, h') && ServedAs(h, org, r, region)
    ensures ServedAs(h', org, r, region)
  {
    hide FirmsKept, CredsKept, ContractsKept;
    var was, now := Of(h.nodes, org), Of(h'.nodes, org);
    assert forall i :: 0 <= i < |was| ==> now[i] == was[i];
  }

  lemma {:induction false} ContractStays(h: Held, h': Held, org: nat, at: nat, r: Row)
    requires Keeps(h, h') && at < |Of(h.contracts, org)| && ContractSays(h, org, Of(h.contracts, org)[at], r)
    ensures at < |Of(h'.contracts, org)| && ContractSays(h', org, Of(h'.contracts, org)[at], r)
  {
    hide FirmsKept, CredsKept, ServedAs, IsRefOf;
    RefStays(h, h', org, r.customer);
    ServedStays(h, h', org, r, Of(h.contracts, org)[at].region);
    assert ContractsKept(Of(h.contracts, org), Of(h'.contracts, org));
  }

  lemma {:induction false} MsaStays(was: seq<Contract>, now: seq<Contract>, from: int, c: nat)
    requires ContractsKept(was, now) && MsaIs(was, from, c)
    ensures MsaIs(now, from, c)
  {
    assert forall i :: 0 <= i < |was| ==> (LikeMsa(now[i], from) <==> LikeMsa(was[i], from));
  }

  lemma {:induction false} TermStays(h: Held, h': Held, org: nat, at: nat, r: Row)
    requires Keeps(h, h') && at < |Of(h.overrides, org)| && TermSays(h, org, Of(h.overrides, org)[at], r)
    ensures at < |Of(h'.overrides, org)| && TermSays(h', org, Of(h'.overrides, org)[at], r)
  {
    hide FirmsKept, CredsKept, ContractsKept, MsaIs, IsRefOf;
    RefStays(h, h', org, r.customer);
    MsaStays(Of(h.contracts, org), Of(h'.contracts, org), r.effectiveFrom, Of(h.overrides, org)[at].contract);
    assert Of(h.overrides, org) <= Of(h'.overrides, org);
  }

  lemma {:induction false} FirmStays(h: Held, h': Held, at: nat, r: Row)
    requires Keeps(h, h') && at < |h.firms| && FirmSays(h.firms[at], r)
    ensures at < |h'.firms| && FirmSays(h'.firms[at], r)
  {
    hide CredsKept, ContractsKept;
    assert FirmKept(h.firms[at], h'.firms[at]);
  }

  lemma {:induction false} SaysOn(verify: bool, h: Held, h': Held, s: Spot, r: Row)
    requires Keeps(h, h') && In(h, s) && Says(verify, h, s, r)
    ensures In(h', s) && Says(verify, h', s, r)
  {
    hide Keeps, FirmSays, CredSays, NodeSays, ContractSays, TermSays, FirmFor, CrewFor;
    StaysIn(h, h', s);
    match s
    case FirmSpot(at) => FirmStays(h, h', at, r);
    case CrewSpot(at) =>
      FirmForStays(h, h', r.firm, h.crews[at].firm);
      TablesStay(h, h');
    case TechSpot(at) =>
      FirmForStays(h, h', r.firm, h.techs[at].firm);
      CrewForStays(h, h', r.crew, r.region, h.techs[at].firm, h.techs[at].crew);
      TablesStay(h, h');
    case CredSpot(crew, at) => CredStays(verify, h, h', crew, at, r);
    case OrgSpot(at) => TablesStay(h, h');
    case NodeSpot(org, at) => NodeStays(h, h', org, at, r);
    case ContractSpot(org, at) => ContractStays(h, h', org, at, r);
    case TermSpot(org, at) => TermStays(h, h', org, at, r);
  }

  lemma {:induction false} TablesStay(h: Held, h': Held)
    requires Keeps(h, h')
    ensures h.crews <= h'.crews && h.techs <= h'.techs && h.orgs <= h'.orgs
  {
  }

  // ---- what a row adds says what the row says ----

  lemma {:induction false} AddedByFirm(verify: bool, h: Held, r: Row, e: End, h': Held, s: Spot)
    requires r.FirmRow? && RowMeans(verify, h, r, e, h') && In(h', s) && !In(h, s)
    ensures Says(verify, h', s, r)
  {
  }

  lemma {:induction false} AddedByCrew(verify: bool, h: Held, r: Row, e: End, h': Held, s: Spot)
    requires r.CrewRow? && RowMeans(verify, h, r, e, h') && In(h', s) && !In(h, s)
    ensures Says(verify, h', s, r)
  {
    hide FirmFor, NoCrew, Keeps;
    var f :| FirmFor(h, r.firm, f) && CrewLands(h, r, f, h');
    RowKeeps(verify, h, r, e, h');
    FirmForStays(h, h', r.firm, f);
  }

  lemma {:induction false} AddedByTech(verify: bool, h: Held, r: Row, e: End, h': Held, s: Spot)
    requires r.TechRow? && RowMeans(verify, h, r, e, h') && In(h', s) && !In(h, s)
    ensures Says(verify, h', s, r)
  {
    hide FirmFor, CrewFor, NoTech, Keeps;
    var f, c :| FirmFor(h, r.firm, f) && TechLands(h, r, f, c, h');
    RowKeeps(verify, h, r, e, h');
    FirmForStays(h, h', r.firm, f);
    CrewForStays(h, h', r.crew, r.region, f, c);
  }

  lemma {:induction false} AddedByCred(verify: bool, h: Held, r: Row, e: End, h': Held, s: Spot)
    requires r.CredRow? && RowMeans(verify, h, r, e, h') && In(h', s) && !In(h, s)
    ensures Says(verify, h', s, r)
  {
    hide FirmFor, CrewIs, OtherDates, NoCred, Keeps;
    var f, c: nat :| FirmFor(h, r.firm, f) && CrewIs(h, r.holder, r.region, f, c) && CredLands(verify, h, r, c, h');
    RowKeeps(verify, h, r, e, h');
    FirmForStays(h, h', r.firm, f);
    CrewIsStays(h, h', r.holder, r.region, f, c);
  }

  lemma {:induction false} AddedToTree(verify: bool, h: Held, r: Row, o: nat, e: End, h': Held, s: Spot)
    requires r.CustomerRow? && r.segment == Commercial && TreeLands(h, r, o, e, h') && IsRefOf(h', o, r.ref)
    requires In(h', s) && !In(h, s)
    ensures s.NodeSpot? && NodeSays(h', s.org, Of(h'.nodes, s.org)[s.at], r)
  {
    hide RegionIs, LocationIs, SiteIs, ComesTo, IsRefOf;
    var was, now := Of(h.nodes, o), Of(h'.nodes, o);
    var reg: nat, loc: nat, site: nat :| TreeMeans(was, r, reg, loc, site, now) && ComesTo(now, o, loc, site, e);
    assert s.NodeSpot? && s.org == o;
  }

  lemma {:induction false} AddedByCustomer(verify: bool, h: Held, r: Row, e: End, h': Held, s: Spot)
    requires r.CustomerRow? && CustomerMeans(h, r, e, h') && In(h', s) && !In(h, s)
    ensures Says(verify, h', s, r)
  {
    hide TreeLands, OtherSegment, NoOrg, NodeSays;
    if CustomerMet(h, r, e, h') {
      var o: nat :| OrgIs(h, r.ref, o) && if r.segment == Residential then h' == h && e == Done(None) else TreeLands(h, r, o, e, h');
      TreeOnly(h, r, o, e, h');
      AddedToTree(verify, h, r, o, e, h', s);
    } else {
      var more := h.(orgs := h.orgs + [Org(Some(r.ref), r.name, Some(r.segment))]);
      if r.segment == Commercial {
        TreeOnly(more, r, |h.orgs|, e, h');
        if !In(more, s) {
          AddedToTree(verify, more, r, |h.orgs|, e, h', s);
        }
      }
    }
  }

  lemma {:induction false} TreeOnly(h: Held, r: Row, o: nat, e: End, h': Held)
    requires r.CustomerRow? && TreeLands(h, r, o, e, h')
    ensures h' == h.(nodes := h'.nodes)
  {
  }

  /** Only the one organization's contracts and terms grew. */
  lemma {:induction false} PapersOnly(h: Held, o: nat, h': Held, s: Spot)
    requires OnlyPapersOf(h, o, h') && In(h', s) && !In(h, s)
    ensures (s.ContractSpot? || s.TermSpot?) && s.org == o
  {
  }

  lemma {:induction false} AddedByAgreement(verify: bool, h: Held, r: Row, e: End, h': Held, s: Spot)
    requires r.AgreementRow? && AgreementMeans(h, r, e, h') && In(h', s) && !In(h, s)
    ensures Says(verify, h', s, r)
  {
    hide NoOrg, ServedAs, SignedOtherwise, TermsOtherwise, Missing, ContractLands, ContractSays, TermSays, OrgIs, Keeps, OnlyPapersOf;
    var o: nat, region: Id :| Party(h, r, o, region) && AgreementLands(h, r, o, region, h');
    var c: nat, at, added :| ContractLands(Of(h.contracts, o), r, region, c, Of(h'.contracts, o))
      && Missing(Of(h.overrides, o), c, r.terms, at, added) && Of(h'.overrides, o) == Of(h.overrides, o) + added;
    AgreementRowKeeps(h, r, e, h');
    PapersOnly(h, o, h', s);
    CustomerStays(h, h', r, o);
    match s
    case ContractSpot(_, i) => AddedContract(h, r, o, region, c, h', i);
    case TermSpot(_, i) => AddedTerm(h, r, o, region, c, at, added, h', i);
  }

  lemma {:induction false} CustomerStays(h: Held, h': Held, r: Row, o: nat)
    requires r.AgreementRow? && Keeps(h, h') && OrgIs(h, r.customer, o)
    ensures IsRefOf(h', o, r.customer)
  {
    hide Keeps;
    RefStays(h, h', o, r.customer);
  }

  lemma {:induction false} AddedContract(h: Held, r: Row, o: nat, region: Id, c: nat, h': Held, i: nat)
    requires r.AgreementRow? && Keeps(h, h') && ServedAs(h, o, r, region) && IsRefOf(h', o, r.customer)
    requires ContractLands(Of(h.contracts, o), r, region, c, Of(h'.contracts, o)) && |Of(h.contracts, o)| <= i < |Of(h'.contracts, o)|
    ensures ContractSays(h', o, Of(h'.contracts, o)[i], r)
  {
    hide Keeps, ServedAs, NoMsa;
    ServedStays(h, h', o, r, region);
  }

  lemma {:induction false} AddedTerm(h: Held, r: Row, o: nat, region: Id, c: nat, at: seq<nat>, added: seq<Override>, h': Held, i: nat)
    requires r.AgreementRow? && IsRefOf(h', o, r.customer) && Missing(Of(h.overrides, o), c, r.terms, at, added)
    requires ContractLands(Of(h.contracts, o), r, region, c, Of(h'.contracts, o)) && Of(h'.overrides, o) == Of(h.overrides, o) + added
    requires |Of(h.overrides, o)| <= i < |Of(h'.overrides, o)|
    ensures TermSays(h', o, Of(h'.overrides, o)[i], r)
  {
    hide ContractLands, Missing, MsaIs;
    LandedMsa(Of(h.contracts, o), r, region, c, Of(h'.contracts, o));
    MissingTerm(Of(h.overrides, o), c, r.terms, at, added, i - |Of(h.overrides, o)|);
  }

  lemma {:induction false} LandedMsa(was: seq<Contract>, r: Row, region: Id, c: nat, now: seq<Contract>)
    requires r.AgreementRow? && ContractLands(was, r, region, c, now)
    ensures MsaIs(now, r.effectiveFrom, c)
  {
  }

  lemma {:induction false} MissingTerm(on: seq<Override>, c: nat, terms: seq<Term>, at: seq<nat>, added: seq<Override>, i: nat)
    requires Missing(on, c, terms, at, added) && i < |added|
    ensures added[i].contract == c && exists t :: t in terms && added[i] == Override(c, true, t.key, t.value)
  {
    hide SaysNothing;
    assert Lacks(on, c, terms, at[i], added[i]);
    assert terms[at[i]] in terms;
  }

  lemma {:induction false} Added(verify: bool, h: Held, r: Row, e: End, h': Held, s: Spot)
    requires RowMeans(verify, h, r, e, h') && In(h', s) && !In(h, s)
    ensures Says(verify, h', s, r)
  {
    hide FirmMeans, CrewMeans, TechMeans, CredMeans, CustomerMeans, AgreementMeans, Says;
    match r
    case FirmRow(_, _, _, _, _) => AddedByFirm(verify, h, r, e, h', s);
    case CrewRow(_, _, _, _) => AddedByCrew(verify, h, r, e, h', s);
    case TechRow(_, _, _, _, _) => AddedByTech(verify, h, r, e, h', s);
    case CredRow(_, _, _, _, _, _, _, _) => AddedByCred(verify, h, r, e, h', s);
    case CustomerRow(_, _, _, _, _, _, _, _, _) => AddedByCustomer(verify, h, r, e, h', s);
    case AgreementRow(_, _, _, _, _, _, _, _) => AddedByAgreement(verify, h, r, e, h', s);
    case Unreadable(_) =>
  }

  /** When an import is over, whatever a table has that it had not before is what one of the rows says it is. */
  lemma {:induction false} EveryRecordCameOfARow(verify: bool, g: Gate, rs: seq<Row>, s: Spot)
    requires RowsOk(rs) && WellKept(g) && In(Import(verify, g, rs).held, s) && !In(g.held, s)
    ensures exists t :: 0 <= t < |rs| && Says(verify, Import(verify, g, rs).held, s, rs[t])
  {
    hide Import, Ends, WellKept, RowsOk, Keeps, RowMeans, Addressed, In, Says;
    RunOfNothing(verify, g);
    assert rs[..0] == [] && rs[..|rs|] == rs;
    var t := 0;
    while !In(Import(verify, g, rs[..t + 1]).held, s)
      invariant 0 <= t < |rs|
      invariant !In(Import(verify, g, rs[..t]).held, s)
      decreases |rs| - t
    {
      t := t + 1;
    }
    ImportIsMeant(verify, g, rs, t);
    var h, h', e := Import(verify, g, rs[..t]).held, Import(verify, g, rs[..t + 1]).held, Ends(verify, g.held, rs)[t];
    Added(verify, h, rs[t], e, h', s);
    SaysOn(verify, h', Import(verify, g, rs).held, s, rs[t]);
  }
}
