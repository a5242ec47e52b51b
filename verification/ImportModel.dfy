/** The importer's meaning: what each row writes, given what the gateway holds. Rows are named by their place in
    creation order, so states that agree here agree up to a renaming of ids. */
module ImportModel {
  import opened Common

  /** A text and what it is matched on: lower case, single spaces. */
  datatype Name = Name(text: nat, key: nat)

  datatype Field = Line1 | Line2 | City | State | Postal | Country

  type Address = map<Field, nat>

  // ---- what the gateway holds ----

  datatype FirmStatus = Onboarding | InService | Ended(n: nat)

  datatype Segment = Commercial | Residential

  datatype Tier = RegionTier | LocationTier | SiteTier

  datatype ContractState = Draft | Live | Closed(n: nat)

  /** `facts` stands for the columns of a row that are written once and never read back. */
  datatype Firm = Firm(name: Name, status: FirmStatus, msa: Option<int>, facts: nat)

  datatype Crew = Crew(title: Name, region: Id, firm: Option<nat>, facts: nat)

  datatype Tech = Tech(name: Name, firm: Option<nat>, crew: Option<nat>, facts: nat)

  datatype Cred = Cred(kind: nat, identifier: Id, validFrom: int, validTo: int, facts: nat, verified: bool)

  datatype Org = Org(ref: Option<Id>, name: Name, segment: Option<Segment>)

  datatype Node = Node(tier: Tier, name: Name, parent: Option<nat>, region: Id, ref: Option<Id>, active: bool)

  datatype Contract = Contract(parentMsa: bool, effectiveFrom: int, effectiveTo: Option<int>, signedAt: int, billing: nat,
                               region: Id, state: ContractState)

  datatype Override = Override(contract: nat, parentScope: bool, key: Id, value: nat)

  /** Everything but addresses: regions and whether they are served; the tables; and each crew's credentials, each
      organization's nodes, contracts and overrides. */
  datatype Held = Held(regions: map<Id, bool>, firms: seq<Firm>, crews: seq<Crew>, techs: seq<Tech>,
                       creds: map<nat, seq<Cred>>, orgs: seq<Org>, nodes: map<nat, seq<Node>>,
                       contracts: map<nat, seq<Contract>>, overrides: map<nat, seq<Override>>)

  /** A site is its organization and its place among that organization's nodes. */
  type Site = (nat, nat)

  datatype Gate = Gate(held: Held, addresses: map<Site, Address>)

  function Of<T>(m: map<nat, seq<T>>, k: nat): seq<T> {
    if k in m then m[k] else []
  }

  function AddressOf(m: map<Site, Address>, s: Site): Address {
    if s in m then m[s] else map[]
  }

  // ---- rows, as the files' columns read ----

  datatype Term = Term(key: Id, value: nat)

  datatype Row =
    | FirmRow(name: Name, region: Id, facts: nat, msa: Option<int>, activate: bool)
    | CrewRow(title: Name, region: Id, firm: Option<Name>, facts: nat)
    | TechRow(name: Name, region: Id, firm: Option<Name>, crew: Option<Name>, facts: nat)
    | CredRow(holder: Name, region: Id, firm: Option<Name>, kind: nat, identifier: Id, validFrom: int, validTo: int, facts: nat)
    | CustomerRow(ref: Id, name: Name, segment: Segment, region: Id, address: Address, regionNode: Name, location: Name,
                  site: Name, siteRef: Option<Id>)
    | AgreementRow(customer: Id, servedFrom: Option<Id>, signedAt: int, effectiveFrom: int, effectiveTo: Option<int>,
                   billing: nat, terms: seq<Term>, activate: bool)
    | Unreadable(file: nat)  // a blank, or a value off its list: refused whatever the gateway holds

  /** The files' fixed order. */
  function Rank(r: Row): nat {
    match r
    case FirmRow(_, _, _, _, _) => 0
    case CrewRow(_, _, _, _) => 1
    case TechRow(_, _, _, _, _) => 2
    case CredRow(_, _, _, _, _, _, _, _) => 3
    case CustomerRow(_, _, _, _, _, _, _, _, _) => 4
    case AgreementRow(_, _, _, _, _, _, _, _) => 5
    case Unreadable(file) => file
  }

  /** Each term is a column of its own, so no row names one twice; an address has its first line. */
  predicate RowOk(r: Row) {
    && (r.AgreementRow? ==> forall i, j :: 0 <= i < j < |r.terms| ==> r.terms[i].key != r.terms[j].key)
    && (r.CustomerRow? ==> Line1 in r.address)
  }

  // ---- gateway writes ----

  datatype Write =
    | CreateFirm(firm: Firm)
    | ActivateFirm(at: nat, msa: Option<int>)
    | CreateCrew(crew: Crew)
    | CreateTech(tech: Tech)
    | RecordCred(crewAt: nat, cred: Cred)
    | VerifyCred(crewAt: nat, at: nat)
    | CreateOrg(org: Org, node: Node)
    | CreateHousehold(org: Org)
    | CreateNode(orgAt: nat, node: Node, address: Option<Address>)
    | SetAddress(orgAt: nat, at: nat, merged: Address)
    | CreateContract(orgAt: nat, contract: Contract)
    | AuthorTerm(orgAt: nat, term: Override)
    | ActivateContract(orgAt: nat, at: nat)

  /** The file whose rows make such a write. */
  function RankOf(w: Write): nat {
    match w
    case CreateFirm(_) | ActivateFirm(_, _) => 0
    case CreateCrew(_) => 1
    case CreateTech(_) => 2
    case RecordCred(_, _) | VerifyCred(_, _) => 3
    case CreateOrg(_, _) | CreateHousehold(_) | CreateNode(_, _, _) | SetAddress(_, _, _) => 4
    case CreateContract(_, _) | AuthorTerm(_, _) | ActivateContract(_, _) => 5
  }

  function Update<T>(xs: seq<T>, at: nat, f: T -> T): (r: seq<T>)
    ensures |r| == |xs|
    ensures forall i :: 0 <= i < |xs| ==> r[i] == if i == at then f(xs[i]) else xs[i]
  {
    if at < |xs| then xs[at := f(xs[at])] else xs
  }

  function Activated(msa: Option<int>): Firm -> Firm {
    (f: Firm) => f.(status := InService, msa := if msa.Some? then msa else f.msa)
  }

  function Verified(): Cred -> Cred {
    (c: Cred) => c.(verified := true)
  }

  function Enlivened(): Contract -> Contract {
    (c: Contract) => c.(state := Live)
  }

  /** A write the gateway admits, on everything but addresses. */
  function Put(h: Held, w: Write): Held {
    match w
    case CreateFirm(f) => h.(firms := h.firms + [f])
    case ActivateFirm(at, msa) => h.(firms := Update(h.firms, at, Activated(msa)))
    case CreateCrew(c) => h.(crews := h.crews + [c])
    case CreateTech(t) => h.(techs := h.techs + [t])
    case RecordCred(k, c) => h.(creds := h.creds[k := Of(h.creds, k) + [c]])
    case VerifyCred(k, at) => h.(creds := h.creds[k := Update(Of(h.creds, k), at, Verified())])
    case CreateOrg(org, node) => h.(orgs := h.orgs + [org], nodes := h.nodes[|h.orgs| := [node]])
    case CreateHousehold(org) => h.(orgs := h.orgs + [org])
    case CreateNode(o, n, _) => h.(nodes := h.nodes[o := Of(h.nodes, o) + [n]])
    case SetAddress(_, _, _) => h
    case CreateContract(o, c) => h.(contracts := h.contracts[o := Of(h.contracts, o) + [c]])
    case AuthorTerm(o, t) => h.(overrides := h.overrides[o := Of(h.overrides, o) + [t]])
    case ActivateContract(o, at) => h.(contracts := h.contracts[o := Update(Of(h.contracts, o), at, Enlivened())])
  }

  function Apply(g: Gate, w: Write): Gate {
    Gate(Put(g.held, w),
         match w
         case CreateNode(o, _, Some(a)) => g.addresses[(o, |Of(g.held.nodes, o)|) := a]
         case SetAddress(o, at, a) => g.addresses[(o, at) := a]
         case _ => g.addresses)
  }

  function ApplyAll(g: Gate, ws: seq<Write>): Gate
    decreases ws
  {
    if ws == [] then g else ApplyAll(Apply(g, ws[0]), ws[1..])
  }

  // ---- matching a row against what is held ----

  /** The first place a list has what is looked for. */
  function First<T(!new)>(p: T -> bool, xs: seq<T>): (r: Option<nat>)
    ensures r.Some? ==> r.value < |xs| && p(xs[r.value]) && forall i :: 0 <= i < r.value ==> !p(xs[i])
    ensures r.None? ==> forall i :: 0 <= i < |xs| ==> !p(xs[i])
  {
    if xs == [] then None
    else
      var before := First(p, xs[..|xs| - 1]);
      if before.Some? then before else if p(xs[|xs| - 1]) then Some(|xs| - 1) else None
  }

  /** The last such place: what a map filled in list order keeps. */
  function Last<T(!new)>(p: T -> bool, xs: seq<T>): (r: Option<nat>)
    ensures r.Some? ==> r.value < |xs| && p(xs[r.value]) && forall i :: r.value < i < |xs| ==> !p(xs[i])
    ensures r.None? ==> forall i :: 0 <= i < |xs| ==> !p(xs[i])
  {
    if xs == [] then None
    else if p(xs[|xs| - 1]) then Some(|xs| - 1)
    else Last(p, xs[..|xs| - 1])
  }

  predicate Served(h: Held, region: Id) {
    region in h.regions && h.regions[region]
  }

  function IsFirm(key: nat): Firm -> bool {
    (f: Firm) => f.name.key == key
  }

  function IsCrew(key: nat, region: Id, firm: Option<nat>): Crew -> bool {
    (c: Crew) => c.title.key == key && c.region == region && c.firm == firm
  }

  function IsTech(key: nat, firm: Option<nat>): Tech -> bool {
    (t: Tech) => t.name.key == key && t.firm == firm
  }

  function IsCred(kind: nat, identifier: Id): Cred -> bool {
    (c: Cred) => c.kind == kind && c.identifier == identifier
  }

  function IsOrg(ref: Id): Org -> bool {
    (o: Org) => o.ref == Some(ref)
  }

  function IsTerm(contract: nat, key: Id): Override -> bool {
    (o: Override) => o.contract == contract && o.parentScope && o.key == key
  }

  function IsLiveRegion(): Node -> bool {
    (n: Node) => n.tier == RegionTier && n.active
  }

  function FirmAt(h: Held, name: Name): Option<nat> {
    First(IsFirm(name.key), h.firms)
  }

  /** The firm a row names: none named is ours, one named must be held. */
  predicate FirmKnown(h: Held, name: Option<Name>) {
    name.Some? ==> FirmAt(h, name.value).Some?
  }

  function FirmNamed(h: Held, name: Option<Name>): Option<nat> {
    if name.Some? then FirmAt(h, name.value) else None
  }

  function CrewAt(h: Held, title: Name, region: Id, firm: Option<nat>): Option<nat> {
    First(IsCrew(title.key, region, firm), h.crews)
  }

  function TechAt(h: Held, name: Name, firm: Option<nat>): Option<nat> {
    First(IsTech(name.key, firm), h.techs)
  }

  function CredAt(creds: seq<Cred>, kind: nat, identifier: Id): Option<nat> {
    First(IsCred(kind, identifier), creds)
  }

  function OrgAt(orgs: seq<Org>, ref: Id): Option<nat> {
    Last(IsOrg(ref), orgs)
  }

  function IsRegion(region: Id): Node -> bool {
    (n: Node) => n.tier == RegionTier && n.region == region && n.active
  }

  function IsLocation(under: nat, key: nat): Node -> bool {
    (n: Node) => n.tier == LocationTier && n.parent == Some(under) && n.name.key == key
  }

  function IsSite(siteRef: Option<Id>, under: nat, key: nat): Node -> bool {
    if siteRef.Some? then (n: Node) => n.tier == SiteTier && n.ref == siteRef
    else (n: Node) => n.tier == SiteTier && n.parent == Some(under) && n.name.key == key
  }

  function IsMsa(effectiveFrom: int): Contract -> bool {
    (c: Contract) => c.parentMsa && c.effectiveFrom == effectiveFrom
  }

  function OnFile(overrides: seq<Override>, contract: nat, key: Id): Option<nat> {
    First(IsTerm(contract, key), overrides)
  }

  function IsConflict(overrides: seq<Override>, contract: nat): Term -> bool {
    (t: Term) => OnFile(overrides, contract, t.key).Some?
                 && overrides[OnFile(overrides, contract, t.key).value].value != t.value
  }

  predicate Conflicts(overrides: seq<Override>, contract: nat, terms: seq<Term>) {
    exists t :: t in terms && OnFile(overrides, contract, t.key).Some?
                && overrides[OnFile(overrides, contract, t.key).value].value != t.value
  }

  // ---- what a row writes ----

  datatype Reason =
    | BadRow | RegionNotServed | NeedsMsa | NoSuchFirm | NoSuchCrew | DatesDiffer | SegmentDiffers | SiteElsewhere
    | NoSuchCustomer | IsHousehold | NoRegion | SignedDiffers | TermDiffers

  /** Refused, perhaps after some writes; or done, perhaps having come to a site's address. */
  datatype End = Refused(why: Reason) | Done(site: Option<Site>)

  datatype Steps = Steps(writes: seq<Write>, end: End)

  function Then(ws: seq<Write>, s: Steps): Steps {
    s.(writes := ws + s.writes)
  }

  const NOTHING := Steps([], Done(None))

  function No(why: Reason): Steps {
    Steps([], Refused(why))
  }

  function FirmSteps(h: Held, r: Row): Steps
    requires r.FirmRow?
  {
    if !Served(h, r.region) then No(RegionNotServed)
    else if r.activate && r.msa.None? then No(NeedsMsa)
    else match FirmAt(h, r.name)
      case Some(at) =>
        if r.activate && h.firms[at].status == Onboarding
        then Steps([ActivateFirm(at, if h.firms[at].msa.Some? then None else r.msa)], Done(None))
        else NOTHING
      case None =>
        Steps([CreateFirm(Firm(r.name, Onboarding, r.msa, r.facts))]
              + (if r.activate then [ActivateFirm(|h.firms|, None)] else []), Done(None))
  }

  function CrewSteps(h: Held, r: Row): Steps
    requires r.CrewRow?
  {
    if !Served(h, r.region) then No(RegionNotServed)
    else if !FirmKnown(h, r.firm) then No(NoSuchFirm)
    else
      var firm := FirmNamed(h, r.firm);
      if CrewAt(h, r.title, r.region, firm).Some? then NOTHING
      else Steps([CreateCrew(Crew(r.title, r.region, firm, r.facts))], Done(None))
  }

  function TechSteps(h: Held, r: Row): Steps
    requires r.TechRow?
  {
    if !Served(h, r.region) then No(RegionNotServed)
    else if !FirmKnown(h, r.firm) then No(NoSuchFirm)
    else
      var firm := FirmNamed(h, r.firm);
      var crew := if r.crew.Some? then CrewAt(h, r.crew.value, r.region, firm) else None;
      if r.crew.Some? && crew.None? then No(NoSuchCrew)
      else if TechAt(h, r.name, firm).Some? then NOTHING
      else Steps([CreateTech(Tech(r.name, firm, crew, r.facts))], Done(None))
  }

  function CredSteps(verify: bool, h: Held, r: Row): Steps
    requires r.CredRow?
  {
    if !Served(h, r.region) then No(RegionNotServed)
    else if !FirmKnown(h, r.firm) then No(NoSuchFirm)
    else match CrewAt(h, r.holder, r.region, FirmNamed(h, r.firm))
      case None => No(NoSuchCrew)
      case Some(crew) =>
        var creds := Of(h.creds, crew);
        match CredAt(creds, r.kind, r.identifier)
        case Some(at) =>
          if creds[at].validFrom != r.validFrom || creds[at].validTo != r.validTo then No(DatesDiffer)
          else if verify && !creds[at].verified then Steps([VerifyCred(crew, at)], Done(None))
          else NOTHING
        case None =>
          Steps([RecordCred(crew, Cred(r.kind, r.identifier, r.validFrom, r.validTo, r.facts, false))]
                + (if verify then [VerifyCred(crew, |creds|)] else []), Done(None))
  }

  /** A node found, or else made: its place, the nodes with it, and the write that takes. */
  datatype Placed = Placed(at: nat, nodes: seq<Node>, writes: seq<Write>)

  function Place(org: nat, nodes: seq<Node>, p: Node -> bool, n: Node): Placed {
    match First(p, nodes)
    case Some(at) => Placed(at, nodes, [])
    case None => Placed(|nodes|, nodes + [n], [CreateNode(org, n, None)])
  }

  function RegionNode(r: Row): Node
    requires r.CustomerRow?
  {
    Node(RegionTier, r.regionNode, None, r.region, None, true)
  }

  function SiteSteps(org: nat, nodes: seq<Node>, loc: nat, r: Row): Steps
    requires r.CustomerRow?
  {
    match First(IsSite(r.siteRef, loc, r.site.key), nodes)
    case None =>
      Steps([CreateNode(org, Node(SiteTier, r.site, Some(loc), r.region, r.siteRef, true), Some(r.address))],
            Done(Some((org, |nodes|))))
    case Some(at) => if nodes[at].parent != Some(loc) then No(SiteElsewhere) else Steps([], Done(Some((org, at))))
  }

  function LocationSteps(org: nat, nodes: seq<Node>, reg: nat, r: Row): Steps
    requires r.CustomerRow?
  {
    var loc := Place(org, nodes, IsLocation(reg, r.location.key), Node(LocationTier, r.location, Some(reg), r.region, None, true));
    Then(loc.writes, SiteSteps(org, loc.nodes, loc.at, r))
  }

  function TreeSteps(org: nat, nodes: seq<Node>, r: Row): Steps
    requires r.CustomerRow?
  {
    var reg := Place(org, nodes, IsRegion(r.region), RegionNode(r));
    Then(reg.writes, LocationSteps(org, reg.nodes, reg.at, r))
  }

  function CustomerSteps(h: Held, r: Row): Steps
    requires r.CustomerRow?
  {
    if !Served(h, r.region) then No(RegionNotServed)
    else match OrgAt(h.orgs, r.ref)
      case Some(org) =>
        if h.orgs[org].segment.Some? && h.orgs[org].segment != Some(r.segment) then No(SegmentDiffers)
        else if r.segment == Residential then NOTHING
        else TreeSteps(org, Of(h.nodes, org), r)
      case None =>
        var org := Org(Some(r.ref), r.name, Some(r.segment));
        if r.segment == Residential then Steps([CreateHousehold(org)], Done(None))
        else Then([CreateOrg(org, RegionNode(r))], TreeSteps(|h.orgs|, [RegionNode(r)], r))
  }

  function TermSteps(org: nat, contract: nat, overrides: seq<Override>, terms: seq<Term>): (ws: seq<Write>)
    ensures forall w :: w in ws ==> w.AuthorTerm? && w.orgAt == org && w.term.contract == contract && w.term.parentScope
    decreases terms
  {
    if terms == [] then []
    else if OnFile(overrides, contract, terms[0].key).Some? then TermSteps(org, contract, overrides, terms[1..])
    else
      var o := Override(contract, true, terms[0].key, terms[0].value);
      [AuthorTerm(org, o)] + TermSteps(org, contract, overrides + [o], terms[1..])
  }

  /** The region an agreement is administered from: the one given, else that of the first live region node. */
  function ServedFrom(h: Held, org: nat, r: Row): Option<Id>
    requires r.AgreementRow?
  {
    if r.servedFrom.Some? then r.servedFrom
    else match First(IsLiveRegion(), Of(h.nodes, org))
      case Some(at) => Some(Of(h.nodes, org)[at].region)
      case None => None
  }

  function AgreementSteps(h: Held, r: Row): Steps
    requires r.AgreementRow?
  {
    match OrgAt(h.orgs, r.customer)
    case None => No(NoSuchCustomer)
    case Some(org) =>
      if h.orgs[org].segment == Some(Residential) then No(IsHousehold)
      else
        var region := ServedFrom(h, org, r);
        if r.servedFrom.Some? && !Served(h, r.servedFrom.value) then No(RegionNotServed)
        else if region.None? || !Served(h, region.value) then No(NoRegion)
        else OnAgreement(org, Of(h.contracts, org), Of(h.overrides, org), region.value, r)
  }

  function OnAgreement(org: nat, contracts: seq<Contract>, overrides: seq<Override>, region: Id, r: Row): Steps
    requires r.AgreementRow?
  {
    match First(IsMsa(r.effectiveFrom), contracts)
    case Some(at) =>
      if contracts[at].signedAt != r.signedAt || contracts[at].billing != r.billing then No(SignedDiffers)
      else if Conflicts(overrides, at, r.terms) then No(TermDiffers)
      else Steps(TermSteps(org, at, overrides, r.terms)
                 + (if r.activate && contracts[at].state == Draft then [ActivateContract(org, at)] else []), Done(None))
    case None =>
      var c := Contract(true, r.effectiveFrom, r.effectiveTo, r.signedAt, r.billing, region, Draft);
      Steps([CreateContract(org, c)] + TermSteps(org, |contracts|, overrides, r.terms)
            + (if r.activate then [ActivateContract(org, |contracts|)] else []), Done(None))
  }

  /** A row's writes but for an address, and how it ends. `verify` is the run's option to verify credentials. */
  function StepsOf(verify: bool, h: Held, r: Row): Steps {
    match r
    case FirmRow(_, _, _, _, _) => FirmSteps(h, r)
    case CrewRow(_, _, _, _) => CrewSteps(h, r)
    case TechRow(_, _, _, _, _) => TechSteps(h, r)
    case CredRow(_, _, _, _, _, _, _, _) => CredSteps(verify, h, r)
    case CustomerRow(_, _, _, _, _, _, _, _, _) => CustomerSteps(h, r)
    case AgreementRow(_, _, _, _, _, _, _, _) => AgreementSteps(h, r)
    case Unreadable(_) => No(BadRow)
  }

  /** A customer row that comes to a site already there writes its address when one of the row's fields differs. */
  function AddressWrite(addresses: map<Site, Address>, steps: Steps, r: Row): seq<Write> {
    if r.CustomerRow? && steps.end.Done? && steps.end.site.Some? && !MakesSite(steps)
    then
      var site := steps.end.site.value;
      var had := AddressOf(addresses, site);
      if forall f :: f in r.address ==> f in had && had[f] == r.address[f] then []
      else [SetAddress(site.0, site.1, had + r.address)]
    else []
  }

  predicate MakesSite(steps: Steps) {
    steps.writes != [] && var w := steps.writes[|steps.writes| - 1]; w.CreateNode? && w.address.Some?
  }

  function Plan(verify: bool, g: Gate, r: Row): seq<Write> {
    var steps := StepsOf(verify, g.held, r);
    steps.writes + AddressWrite(g.addresses, steps, r)
  }

  function After(verify: bool, g: Gate, r: Row): Gate {
    ApplyAll(g, Plan(verify, g, r))
  }

  function Import(verify: bool, g: Gate, rs: seq<Row>): Gate
    decreases rs
  {
    if rs == [] then g else Import(verify, After(verify, g, rs[0]), rs[1..])
  }

  // ---- what a row reports ----

  datatype Outcome = Created | Updated | Skipped | Rejected

  /** What was done, as the report's text lists it. */
  datatype Deed =
    | Made(name: Name) | MadeNode(tier: Tier, name: Name) | Readdressed | Drafted | TermAdded(key: Id) | Enacted | Recorded
    | CheckedOff

  /** What the report's text names beside the row's own columns: values on file. No firm is one of ours. */
  datatype Quote =
    | Unquoted
    | FirmQuoted(firm: Option<Name>)
    | CrewQuoted(title: Name)
    | DatesQuoted(title: Name, validFrom: int, validTo: int)
    | SegmentQuoted(segment: Option<Segment>)
    | SiteQuoted(name: Name)
    | CustomerQuoted(name: Name)
    | SigningQuoted(name: Name, signedAt: int, billing: nat)
    | TermQuoted(name: Name, key: Id, value: nat)

  datatype Report = Report(outcome: Outcome, deeds: seq<Deed>, why: Option<Reason>, quote: Quote)

  predicate Makes(w: Write) {
    w.CreateFirm? || w.CreateCrew? || w.CreateTech? || w.RecordCred? || w.CreateOrg? || w.CreateHousehold? || w.CreateNode?
    || w.CreateContract?
  }

  function DeedOf(w: Write): Deed {
    match w
    case CreateFirm(f) => Made(f.name)
    case CreateCrew(c) => Made(c.title)
    case CreateTech(t) => Made(t.name)
    case RecordCred(_, _) => Recorded
    case VerifyCred(_, _) => CheckedOff
    case ActivateFirm(_, _) => Enacted
    case CreateOrg(o, _) => Made(o.name)
    case CreateHousehold(o) => Made(o.name)
    case CreateNode(_, n, _) => MadeNode(n.tier, n.name)
    case SetAddress(_, _, _) => Readdressed
    case CreateContract(_, _) => Drafted
    case AuthorTerm(_, t) => TermAdded(t.key)
    case ActivateContract(_, _) => Enacted
  }

  function Deeds(ws: seq<Write>): (d: seq<Deed>)
    ensures |d| == |ws| && forall i :: 0 <= i < |ws| ==> d[i] == DeedOf(ws[i])
  {
    seq(|ws|, i requires 0 <= i < |ws| => DeedOf(ws[i]))
  }

  function OutcomeOf(ws: seq<Write>, end: End): Outcome {
    if end.Refused? then Rejected else if ws == [] then Skipped else if Makes(ws[0]) then Created else Updated
  }

  function ReportOf(verify: bool, g: Gate, r: Row): Report {
    var ws, end := Plan(verify, g, r), StepsOf(verify, g.held, r).end;
    Report(OutcomeOf(ws, end), Deeds(ws), if end.Refused? then Some(end.why) else None, QuoteOf(verify, g, r))
  }

  function FirmTitle(h: Held, firm: Option<nat>): Option<Name> {
    if firm.Some? && firm.value < |h.firms| then Some(h.firms[firm.value].name) else None
  }

  function CrewQuote(h: Held, r: Row): Quote
    requires r.CrewRow?
  {
    if CrewSteps(h, r).writes == [] then Unquoted else FirmQuoted(FirmTitle(h, FirmNamed(h, r.firm)))
  }

  function TechQuote(h: Held, r: Row): Quote
    requires r.TechRow?
  {
    if TechSteps(h, r) == No(NoSuchCrew) then FirmQuoted(FirmTitle(h, FirmNamed(h, r.firm))) else Unquoted
  }

  function CredQuote(h: Held, r: Row): Quote
    requires r.CredRow?
  {
    if !Served(h, r.region) || !FirmKnown(h, r.firm) then Unquoted
    else match CrewAt(h, r.holder, r.region, FirmNamed(h, r.firm))
      case None => FirmQuoted(FirmTitle(h, FirmNamed(h, r.firm)))
      case Some(crew) =>
        var creds, title := Of(h.creds, crew), h.crews[crew].title;
        match CredAt(creds, r.kind, r.identifier)
        case Some(at) =>
          if creds[at].validFrom != r.validFrom || creds[at].validTo != r.validTo
          then DatesQuoted(title, creds[at].validFrom, creds[at].validTo) else CrewQuoted(title)
        case None => CrewQuoted(title)
  }

  /** The site's name, where the row comes to one on file and makes nothing, or writes its address. */
  function CustomerQuote(verify: bool, g: Gate, r: Row): Quote
    requires r.CustomerRow?
  {
    var steps, plan, org := StepsOf(verify, g.held, r), Plan(verify, g, r), OrgAt(g.held.orgs, r.ref);
    if steps.end == Refused(SegmentDiffers) then (if org.Some? then SegmentQuoted(g.held.orgs[org.value].segment) else Unquoted)
    else if steps.end.Done? && steps.end.site.Some? && (plan == [] || plan[|plan| - 1].SetAddress?)
    then SiteQuote(After(verify, g, r).held, steps.end.site.value)
    else Unquoted
  }

  function SiteQuote(h: Held, site: Site): Quote {
    if site.1 < |Of(h.nodes, site.0)| then SiteQuoted(Of(h.nodes, site.0)[site.1].name) else Unquoted
  }

  function AgreementQuote(h: Held, r: Row): Quote
    requires r.AgreementRow?
  {
    match OrgAt(h.orgs, r.customer)
    case None => Unquoted
    case Some(org) =>
      var name, from := h.orgs[org].name, ServedFrom(h, org, r);
      if h.orgs[org].segment == Some(Residential) then CustomerQuoted(name)
      else if from.None? || !Served(h, from.value) then Unquoted
      else ContractQuote(name, Of(h.contracts, org), Of(h.overrides, org), r)
  }

  function ContractQuote(name: Name, contracts: seq<Contract>, overrides: seq<Override>, r: Row): Quote
    requires r.AgreementRow?
  {
    match First(IsMsa(r.effectiveFrom), contracts)
    case None => CustomerQuoted(name)
    case Some(at) =>
      if contracts[at].signedAt != r.signedAt || contracts[at].billing != r.billing
      then SigningQuoted(name, contracts[at].signedAt, contracts[at].billing)
      else match First(IsConflict(overrides, at), r.terms)
        case None => CustomerQuoted(name)
        case Some(i) => TermQuoted(name, r.terms[i].key, overrides[OnFile(overrides, at, r.terms[i].key).value].value)
  }

  function QuoteOf(verify: bool, g: Gate, r: Row): Quote {
    match r
    case CrewRow(_, _, _, _) => CrewQuote(g.held, r)
    case TechRow(_, _, _, _, _) => TechQuote(g.held, r)
    case CredRow(_, _, _, _, _, _, _, _) => CredQuote(g.held, r)
    case CustomerRow(_, _, _, _, _, _, _, _, _) => CustomerQuote(verify, g, r)
    case AgreementRow(_, _, _, _, _, _, _, _) => AgreementQuote(g.held, r)
    case _ => Unquoted
  }

  function Reports(verify: bool, g: Gate, rs: seq<Row>): seq<Report>
    decreases rs
  {
    if rs == [] then [] else [ReportOf(verify, g, rs[0])] + Reports(verify, After(verify, g, rs[0]), rs[1..])
  }
}
