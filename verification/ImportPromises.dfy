/** What an import leaves behind: every row not refused is there, and nothing is there twice. */
module ImportPromises {
  import opened Common
  import opened ImportModel
  import opened ImportSteps
  import opened ImportStays
  import opened ImportRuns
  import opened ImportTheorems

  // ---- every row lands ----

  ghost predicate HasFirm(h: Held, name: Name, f: Option<nat>) {
    f.Some? && f.value < |h.firms| && h.firms[f.value].name.key == name.key
  }

  /** The firm a row names, if it names one, is `f`. */
  ghost predicate NamesFirm(h: Held, name: Option<Name>, f: Option<nat>) {
    if name.Some? then HasFirm(h, name.value, f) else f.None?
  }

  ghost predicate HasCrew(h: Held, title: Name, region: Id, f: Option<nat>, c: nat) {
    c < |h.crews| && h.crews[c].title.key == title.key && h.crews[c].region == region && h.crews[c].firm == f
  }

  ghost predicate HasTech(h: Held, name: Name, f: Option<nat>) {
    exists t :: 0 <= t < |h.techs| && h.techs[t].name.key == name.key && h.techs[t].firm == f
  }

  ghost predicate HasCred(h: Held, c: nat, r: Row, verify: bool)
    requires r.CredRow?
  {
    exists d :: d in Of(h.creds, c) && d.kind == r.kind && d.identifier == r.identifier
                && d.validFrom == r.validFrom && d.validTo == r.validTo && (verify ==> d.verified)
  }

  /** Its site, under its location, under a live node of its region. */
  ghost predicate HasSite(nodes: seq<Node>, r: Row, reg: nat, loc: nat, site: nat)
    requires r.CustomerRow?
  {
    && reg < |nodes| && IsRegion(r.region)(nodes[reg])
    && loc < |nodes| && IsLocation(reg, r.location.key)(nodes[loc])
    && site < |nodes| && nodes[site].tier == SiteTier && nodes[site].parent == Some(loc)
    && if r.siteRef.Some? then nodes[site].ref == r.siteRef else nodes[site].name.key == r.site.key
  }

  ghost predicate HasOrg(h: Held, ref: Id, o: nat) {
    o < |h.orgs| && h.orgs[o].ref == Some(ref)
  }

  ghost predicate IsSigned(k: Contract, r: Row)
    requires r.AgreementRow?
  {
    && k.parentMsa && k.effectiveFrom == r.effectiveFrom && k.signedAt == r.signedAt && k.billing == r.billing
    && (r.activate ==> k.state != Draft)
  }

  /** A master agreement as the row has it, every one of its terms on file, and no longer a draft if it was to be
      activated. */
  ghost predicate HasAgreement(h: Held, o: nat, r: Row, c: nat)
    requires r.AgreementRow?
  {
    && c < |Of(h.contracts, o)| && IsSigned(Of(h.contracts, o)[c], r)
    && forall t :: t in r.terms ==>
         exists x :: x in Of(h.overrides, o) && x.contract == c && x.parentScope && x.key == t.key && x.value == t.value
  }

  /** What a row asks for is held. */
  ghost predicate Holds(verify: bool, h: Held, r: Row) {
    match r
    case FirmRow(name, _, _, _, activate) =>
      exists f: nat :: HasFirm(h, name, Some(f)) && (activate ==> h.firms[f].status != Onboarding)
    case CrewRow(title, region, firm, _) => exists f, c :: NamesFirm(h, firm, f) && HasCrew(h, title, region, f, c)
    case TechRow(name, _, firm, _, _) => exists f :: NamesFirm(h, firm, f) && HasTech(h, name, f)
    case CredRow(holder, region, firm, _, _, _, _, _) =>
      exists f, c :: NamesFirm(h, firm, f) && HasCrew(h, holder, region, f, c) && HasCred(h, c, r, verify)
    case CustomerRow(ref, _, segment, _, _, _, _, _, _) =>
      exists o :: HasOrg(h, ref, o)
                  && (segment == Commercial ==> exists reg, loc, site :: HasSite(Of(h.nodes, o), r, reg, loc, site))
    case AgreementRow(ref, _, _, _, _, _, _, _) => exists o, c :: HasOrg(h, ref, o) && HasAgreement(h, o, r, c)
    case Unreadable(_) => false
  }

  lemma {:induction false} SettledHolds(verify: bool, h: Held, r: Row)
    requires Settled(verify, h, r) && StepsOf(verify, h, r).end.Done?
    ensures Holds(verify, h, r)
  {
    hide First, Last;
    match r
    case FirmRow(name, _, _, _, _) => assert HasFirm(h, name, FirmAt(h, name));
    case CrewRow(title, region, firm, _) =>
      var f := FirmNamed(h, firm);
      assert NamesFirm(h, firm, f) && HasCrew(h, title, region, f, CrewAt(h, title, region, f).value);
    case TechRow(name, _, firm, _, _) =>
      assert NamesFirm(h, firm, FirmNamed(h, firm)) && HasTech(h, name, FirmNamed(h, firm));
    case CredRow(holder, region, firm, kind, identifier, _, _, _) =>
      var f := FirmNamed(h, firm);
      var c := CrewAt(h, holder, region, f).value;
      assert NamesFirm(h, firm, f) && HasCrew(h, holder, region, f, c);
      assert Of(h.creds, c)[CredAt(Of(h.creds, c), kind, identifier).value] in Of(h.creds, c);
      assert HasCred(h, c, r, verify);
    case CustomerRow(_, _, _, _, _, _, _, _, _) => CustomerHolds(verify, h, r);
    case AgreementRow(_, _, _, _, _, _, _, _) => AgreementHolds(verify, h, r);
    case Unreadable(_) =>
  }

  lemma {:induction false} CustomerHolds(verify: bool, h: Held, r: Row)
    requires r.CustomerRow? && Settled(verify, h, r) && StepsOf(verify, h, r).end.Done?
    ensures Holds(verify, h, r)
  {
    hide First, Last;
    var o := OrgAt(h.orgs, r.ref).value;
    assert HasOrg(h, r.ref, o);
    if r.segment == Commercial {
      var nodes := Of(h.nodes, o);
      var reg := Place(o, nodes, IsRegion(r.region), RegionNode(r)).at;
      var loc := First(IsLocation(reg, r.location.key), nodes).value;
      assert HasSite(nodes, r, reg, loc, First(IsSite(r.siteRef, loc, r.site.key), nodes).value);
    }
  }

  lemma {:induction false} AgreementHolds(verify: bool, h: Held, r: Row)
    requires r.AgreementRow? && Settled(verify, h, r) && StepsOf(verify, h, r).end.Done?
    ensures Holds(verify, h, r)
  {
    hide First, Last, TermSteps;
    var o := OrgAt(h.orgs, r.customer).value;
    var c, on := First(IsMsa(r.effectiveFrom), Of(h.contracts, o)).value, Of(h.overrides, o);
    AllOnFile(o, c, on, r.terms);
    forall t | t in r.terms
      ensures exists x :: x in on && x.contract == c && x.parentScope && x.key == t.key && x.value == t.value
    {
      assert on[OnFile(on, c, t.key).value] in on;
    }
    assert HasOrg(h, r.customer, o) && HasAgreement(h, o, r, c);
  }

  lemma {:induction false} AllOnFile(org: nat, contract: nat, on: seq<Override>, terms: seq<Term>)
    requires TermSteps(org, contract, on, terms) == []
    ensures forall t :: t in terms ==> OnFile(on, contract, t.key).Some?
    decreases terms
  {
    hide OnFile;
    if terms != [] {
      AllOnFile(org, contract, on, terms[1..]);
      assert terms == [terms[0]] + terms[1..];
    }
  }

  /** After a whole import, what every row not refused asks for is held - rows of earlier files included, whatever the
      later ones did. */
  lemma {:induction false} EveryRowLands(verify: bool, g: Gate, rs: seq<Row>, t: nat)
    requires RowsOk(rs) && InOrder(rs) && WellKept(g) && t < |rs| && Ends(verify, g.held, rs)[t].Done?
    ensures Holds(verify, Import(verify, g, rs).held, rs[t])
  {
    hide StepsOf, Ran, Import, StampAll, Holds, WellHeld;
    ImportEffect(verify, g, rs);
    RunAgain(verify, g.held, rs);
    SettledHolds(verify, Ran(verify, g.held, rs), rs[t]);
  }

  // ---- nothing is there twice ----

  ghost predicate NoTwins<T(!new)>(same: (T, T) -> bool, xs: seq<T>) {
    forall i, j :: 0 <= i < j < |xs| ==> !same(xs[i], xs[j])
  }

  function SameFirm(): (Firm, Firm) -> bool {
    (a: Firm, b: Firm) => a.name.key == b.name.key
  }

  function SameCrew(): (Crew, Crew) -> bool {
    (a: Crew, b: Crew) => a.title.key == b.title.key && a.region == b.region && a.firm == b.firm
  }

  function SameTech(): (Tech, Tech) -> bool {
    (a: Tech, b: Tech) => a.name.key == b.name.key && a.firm == b.firm
  }

  function SameCred(): (Cred, Cred) -> bool {
    (a: Cred, b: Cred) => a.kind == b.kind && a.identifier == b.identifier
  }

  function SameOrg(): (Org, Org) -> bool {
    (a: Org, b: Org) => a.ref.Some? && a.ref == b.ref
  }

  function SameMsa(): (Contract, Contract) -> bool {
    (a: Contract, b: Contract) => a.parentMsa && b.parentMsa && a.effectiveFrom == b.effectiveFrom
  }

  function SameTerm(): (Override, Override) -> bool {
    (a: Override, b: Override) => a.parentScope && b.parentScope && a.contract == b.contract && a.key == b.key
  }

  /** An active region node for one of our regions; a location under its region by name; a site by its reference, or by
      its name under its location if it has none. */
  function SameNode(): (Node, Node) -> bool {
    (a: Node, b: Node) =>
      a.tier == b.tier
      && match a.tier
         case RegionTier => a.active && b.active && a.region == b.region
         case LocationTier => a.parent == b.parent && a.name.key == b.name.key
         case SiteTier => a.ref == b.ref && (a.ref.None? ==> a.parent == b.parent && a.name.key == b.name.key)
  }

  /** No two rows answer to one natural key. */
  ghost predicate NothingTwice(h: Held) {
    && NoTwins(SameFirm(), h.firms) && NoTwins(SameCrew(), h.crews) && NoTwins(SameTech(), h.techs) && NoTwins(SameOrg(), h.orgs)
    && (forall k: nat :: NoTwins(SameCred(), Of(h.creds, k)))
    && (forall o: nat :: NoTwins(SameNode(), Of(h.nodes, o)))
    && (forall o: nat :: NoTwins(SameMsa(), Of(h.contracts, o)) && NoTwins(SameTerm(), Of(h.overrides, o)))
  }

  lemma {:induction false} OneMore<T(!new)>(same: (T, T) -> bool, xs: seq<T>, x: T)
    requires NoTwins(same, xs) && forall i :: 0 <= i < |xs| ==> !same(xs[i], x)
    ensures NoTwins(same, xs + [x])
  {
  }

  lemma {:induction false} OneChanged<T(!new)>(same: (T, T) -> bool, xs: seq<T>, at: nat, f: T -> T)
    requires NoTwins(same, xs) && forall a, b :: (same(f(a), b) <==> same(a, b)) && (same(a, f(b)) <==> same(a, b))
    ensures NoTwins(same, Update(xs, at, f))
  {
    var ys := Update(xs, at, f);
    forall i, j | 0 <= i < j < |ys| ensures !same(ys[i], ys[j]) {
      assert !same(xs[i], xs[j]);
    }
  }

  // One table of `h` replaced by one with no twins in it.

  lemma {:induction false} FirmsStill(h: Held, xs: seq<Firm>)
    requires NothingTwice(h) && NoTwins(SameFirm(), xs)
    ensures NothingTwice(h.(firms := xs))
  {
    hide NoTwins;
  }

  lemma {:induction false} CredsStill(h: Held, k: nat, xs: seq<Cred>)
    requires NothingTwice(h) && NoTwins(SameCred(), xs)
    ensures NothingTwice(h.(creds := h.creds[k := xs]))
  {
    hide NoTwins;
    var creds := h.creds[k := xs];
    forall j: nat ensures NoTwins(SameCred(), Of(creds, j)) {
      assert Of(creds, j) == if j == k then xs else Of(h.creds, j);
    }
  }

  lemma {:induction false} ContractsStill(h: Held, k: nat, xs: seq<Contract>)
    requires NothingTwice(h) && NoTwins(SameMsa(), xs)
    ensures NothingTwice(h.(contracts := h.contracts[k := xs]))
  {
    hide NoTwins;
    var contracts := h.contracts[k := xs];
    forall j: nat ensures NoTwins(SameMsa(), Of(contracts, j)) {
      assert Of(contracts, j) == if j == k then xs else Of(h.contracts, j);
    }
  }

  lemma {:induction false} OverridesStill(h: Held, k: nat, xs: seq<Override>)
    requires NothingTwice(h) && NoTwins(SameTerm(), xs)
    ensures NothingTwice(h.(overrides := h.overrides[k := xs]))
  {
    hide NoTwins;
    var overrides := h.overrides[k := xs];
    forall j: nat ensures NoTwins(SameTerm(), Of(overrides, j)) {
      assert Of(overrides, j) == if j == k then xs else Of(h.overrides, j);
    }
  }

  lemma {:induction false} NodesStill(h: Held, k: nat, xs: seq<Node>)
    requires NothingTwice(h) && NoTwins(SameNode(), xs)
    ensures NothingTwice(h.(nodes := h.nodes[k := xs]))
  {
    hide NoTwins;
    var nodes := h.nodes[k := xs];
    forall j: nat ensures NoTwins(SameNode(), Of(nodes, j)) {
      assert Of(nodes, j) == if j == k then xs else Of(h.nodes, j);
    }
  }

  lemma {:induction false} OrgsStill(h: Held, xs: seq<Org>)
    requires NothingTwice(h) && NoTwins(SameOrg(), xs)
    ensures NothingTwice(h.(orgs := xs))
  {
    hide NoTwins;
  }

  lemma {:induction false} ListsHaveNoTwins(h: Held, k: nat)
    requires NothingTwice(h)
    ensures NoTwins(SameFirm(), h.firms) && NoTwins(SameCrew(), h.crews) && NoTwins(SameTech(), h.techs) && NoTwins(SameOrg(), h.orgs)
    ensures NoTwins(SameNode(), Of(h.nodes, k))
    ensures NoTwins(SameCred(), Of(h.creds, k)) && NoTwins(SameMsa(), Of(h.contracts, k)) && NoTwins(SameTerm(), Of(h.overrides, k))
  {
  }

  /** A row's next write makes no second of anything. */
  lemma {:induction false} WriteMakesNoTwin(verify: bool, h: Held, r: Row)
    requires NothingTwice(h) && StepsOf(verify, h, r).writes != []
    ensures NothingTwice(Put(h, StepsOf(verify, h, r).writes[0]))
  {
    hide FirmSteps, CrewSteps, TechSteps, CredSteps, CustomerSteps, AgreementSteps, NothingTwice, Put;
    match r
    case FirmRow(_, _, _, _, _) => FirmMakesNoTwin(h, r);
    case CrewRow(_, _, _, _) => CrewMakesNoTwin(h, r);
    case TechRow(_, _, _, _, _) => TechMakesNoTwin(h, r);
    case CredRow(_, _, _, _, _, _, _, _) => CredMakesNoTwin(verify, h, r);
    case CustomerRow(_, _, _, _, _, _, _, _, _) => CustomerMakesNoTwin(h, r);
    case AgreementRow(_, _, _, _, _, _, _, _) => AgreementMakesNoTwin(h, r);
    case Unreadable(_) =>
  }

  lemma {:induction false} FirmMakesNoTwin(h: Held, r: Row)
    requires NothingTwice(h) && r.FirmRow? && FirmSteps(h, r).writes != []
    ensures NothingTwice(Put(h, FirmSteps(h, r).writes[0]))
  {
    hide First, NoTwins, NothingTwice;
    var w := FirmSteps(h, r).writes[0];
    ListsHaveNoTwins(h, 0);
    if w.CreateFirm? {
      OneMore(SameFirm(), h.firms, w.firm);
      FirmsStill(h, h.firms + [w.firm]);
    } else {
      OneChanged(SameFirm(), h.firms, w.at, Activated(w.msa));
      FirmsStill(h, Update(h.firms, w.at, Activated(w.msa)));
    }
  }

  lemma {:induction false} CrewMakesNoTwin(h: Held, r: Row)
    requires NothingTwice(h) && r.CrewRow? && CrewSteps(h, r).writes != []
    ensures NothingTwice(Put(h, CrewSteps(h, r).writes[0]))
  {
    hide First, NoTwins;
    OneMore(SameCrew(), h.crews, CrewSteps(h, r).writes[0].crew);
  }

  lemma {:induction false} TechMakesNoTwin(h: Held, r: Row)
    requires NothingTwice(h) && r.TechRow? && TechSteps(h, r).writes != []
    ensures NothingTwice(Put(h, TechSteps(h, r).writes[0]))
  {
    hide First, NoTwins;
    OneMore(SameTech(), h.techs, TechSteps(h, r).writes[0].tech);
  }

  lemma {:induction false} CredMakesNoTwin(verify: bool, h: Held, r: Row)
    requires NothingTwice(h) && r.CredRow? && CredSteps(verify, h, r).writes != []
    ensures NothingTwice(Put(h, CredSteps(verify, h, r).writes[0]))
  {
    hide First, NoTwins, NothingTwice;
    var w := CredSteps(verify, h, r).writes[0];
    var creds := Of(h.creds, w.crewAt);
    ListsHaveNoTwins(h, w.crewAt);
    if w.RecordCred? {
      OneMore(SameCred(), creds, w.cred);
      CredsStill(h, w.crewAt, creds + [w.cred]);
    } else {
      OneChanged(SameCred(), creds, w.at, Verified());
      CredsStill(h, w.crewAt, Update(creds, w.at, Verified()));
    }
  }

  lemma {:induction false} CustomerMakesNoTwin(h: Held, r: Row)
    requires NothingTwice(h) && r.CustomerRow? && CustomerSteps(h, r).writes != []
    ensures NothingTwice(Put(h, CustomerSteps(h, r).writes[0]))
  {
    hide First, Last, TreeSteps, NoTwins, NothingTwice;
    var w := CustomerSteps(h, r).writes[0];
    match OrgAt(h.orgs, r.ref)
    case None =>
      ListsHaveNoTwins(h, 0);
      OneMore(SameOrg(), h.orgs, w.org);
      OrgsStill(h, h.orgs + [w.org]);
      if w.CreateOrg? {
        OnlyOne(w.node);
        NodesStill(h.(orgs := h.orgs + [w.org]), |h.orgs|, [w.node]);
      }
    case Some(org) =>
      ListsHaveNoTwins(h, org);
      TreeMakesNoTwin(org, Of(h.nodes, org), r);
      NodesStill(h, org, Of(h.nodes, org) + [w.node]);
  }

  lemma {:induction false} OnlyOne(n: Node)
    ensures NoTwins(SameNode(), [n])
  {
  }

  lemma {:induction false} TreeMakesNoTwin(org: nat, nodes: seq<Node>, r: Row)
    requires r.CustomerRow? && TreeSteps(org, nodes, r).writes != [] && NoTwins(SameNode(), nodes)
    ensures var w := TreeSteps(org, nodes, r).writes[0];
      w.CreateNode? && w.orgAt == org && NoTwins(SameNode(), nodes + [w.node])
  {
    hide First, NoTwins;
    OneMore(SameNode(), nodes, TreeSteps(org, nodes, r).writes[0].node);
  }

  lemma {:induction false} AgreementMakesNoTwin(h: Held, r: Row)
    requires NothingTwice(h) && r.AgreementRow? && AgreementSteps(h, r).writes != []
    ensures NothingTwice(Put(h, AgreementSteps(h, r).writes[0]))
  {
    hide First, TermSteps, NoTwins, NothingTwice, Conflicts, OrgAt, ServedFrom;
    var w := AgreementSteps(h, r).writes[0];
    var contracts, on := Of(h.contracts, w.orgAt), Of(h.overrides, w.orgAt);
    ListsHaveNoTwins(h, w.orgAt);
    match w
    case CreateContract(k, c) =>
      OneMore(SameMsa(), contracts, c);
      ContractsStill(h, k, contracts + [c]);
    case ActivateContract(k, at) =>
      OneChanged(SameMsa(), contracts, at, Enlivened());
      ContractsStill(h, k, Update(contracts, at, Enlivened()));
    case AuthorTerm(k, t) =>
      TermMakesNoTwin(k, t.contract, on, r.terms);
      OverridesStill(h, k, on + [t]);
    case _ =>
  }

  lemma {:induction false} FirstMissingIsMissing(org: nat, contract: nat, on: seq<Override>, terms: seq<Term>)
    requires TermSteps(org, contract, on, terms) != []
    ensures OnFile(on, contract, TermSteps(org, contract, on, terms)[0].term.key).None?
    decreases terms
  {
    hide OnFile;
    if OnFile(on, contract, terms[0].key).Some? {
      FirstMissingIsMissing(org, contract, on, terms[1..]);
    }
  }

  lemma {:induction false} TermMakesNoTwin(org: nat, contract: nat, on: seq<Override>, terms: seq<Term>)
    requires NoTwins(SameTerm(), on) && TermSteps(org, contract, on, terms) != []
    ensures NoTwins(SameTerm(), on + [TermSteps(org, contract, on, terms)[0].term])
  {
    hide TermSteps, NoTwins;
    FirstMissingIsMissing(org, contract, on, terms);
    OneMore(SameTerm(), on, TermSteps(org, contract, on, terms)[0].term);
  }

  lemma {:induction false} RowMakesNoTwin(verify: bool, h: Held, r: Row, k: nat)
    requires RowOk(r) && WellHeld(h) && NothingTwice(h) && k <= |StepsOf(verify, h, r).writes|
    ensures NothingTwice(PutAll(h, StepsOf(verify, h, r).writes[..k]))
    decreases k
  {
    hide StepsOf, WellHeld, Put, NothingTwice;
    var ws := StepsOf(verify, h, r).writes;
    if k == 0 {
      assert ws[..0] == [];
    } else {
      RowMakesNoTwin(verify, h, r, k - 1);
      TakesUpWhereItStopped(verify, h, r, k - 1);
      WriteMakesNoTwin(verify, PutAll(h, ws[..k - 1]), r);
      PutAllOneOn(h, ws, k - 1);
    }
  }

  /** Where no two rows answered to one natural key, none do after an import, however often the files name one. */
  lemma {:induction false} NothingIsMadeTwice(verify: bool, g: Gate, rs: seq<Row>)
    requires RowsOk(rs) && WellKept(g) && NothingTwice(g.held)
    ensures NothingTwice(Import(verify, g, rs).held)
    decreases rs
  {
    hide StepsOf, PutAll, WellHeld, NothingTwice, Plan, ApplyAll;
    if rs != [] {
      var ws := StepsOf(verify, g.held, rs[0]).writes;
      RowMakesNoTwin(verify, g.held, rs[0], |ws|);
      assert ws[..|ws|] == ws;
      RowEffect(verify, g, rs[0]);
      NothingIsMadeTwice(verify, After(verify, g, rs[0]), rs[1..]);
    }
  }
}
