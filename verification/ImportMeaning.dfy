/** What one row leaves behind, told by the tables before and after it alone. */
module ImportMeaning {
  import opened Common
  import opened ImportModel
  import opened ImportSteps
  import opened ImportRuns
  import opened ImportTheorems

  // ---- what a row's columns name ----

  ghost predicate Serves(h: Held, region: Id) {
    region in h.regions && h.regions[region]
  }

  /** The first firm by that name. */
  ghost predicate FirmIs(h: Held, name: Name, f: nat) {
    f < |h.firms| && h.firms[f].name.key == name.key && forall i :: 0 <= i < f ==> h.firms[i].name.key != name.key
  }

  ghost predicate NoFirm(h: Held, name: Name) {
    forall f :: f in h.firms ==> f.name.key != name.key
  }

  /** The firm a row names; a row that names none is about our own. */
  ghost predicate FirmFor(h: Held, name: Option<Name>, f: Option<nat>) {
    if name.Some? then f.Some? && FirmIs(h, name.value, f.value) else f.None?
  }

  ghost predicate FirmMissing(h: Held, name: Option<Name>) {
    name.Some? && NoFirm(h, name.value)
  }

  predicate LikeCrew(c: Crew, title: Name, region: Id, firm: Option<nat>) {
    c.title.key == title.key && c.region == region && c.firm == firm
  }

  ghost predicate CrewIs(h: Held, title: Name, region: Id, firm: Option<nat>, c: nat) {
    && c < |h.crews| && LikeCrew(h.crews[c], title, region, firm)
    && forall i :: 0 <= i < c ==> !LikeCrew(h.crews[i], title, region, firm)
  }

  ghost predicate NoCrew(h: Held, title: Name, region: Id, firm: Option<nat>) {
    forall c :: c in h.crews ==> !LikeCrew(c, title, region, firm)
  }

  /** The crew a row names, if it names one. */
  ghost predicate CrewFor(h: Held, title: Option<Name>, region: Id, firm: Option<nat>, c: Option<nat>) {
    if title.Some? then c.Some? && CrewIs(h, title.value, region, firm, c.value) else c.None?
  }

  ghost predicate NoTech(h: Held, name: Name, firm: Option<nat>) {
    forall t :: t in h.techs ==> !(t.name.key == name.key && t.firm == firm)
  }

  predicate LikeCred(c: Cred, kind: nat, identifier: Id) {
    c.kind == kind && c.identifier == identifier
  }

  ghost predicate CredIs(creds: seq<Cred>, r: Row, at: nat)
    requires r.CredRow?
  {
    && at < |creds| && LikeCred(creds[at], r.kind, r.identifier)
    && forall i :: 0 <= i < at ==> !LikeCred(creds[i], r.kind, r.identifier)
  }

  ghost predicate NoCred(creds: seq<Cred>, r: Row)
    requires r.CredRow?
  {
    forall c :: c in creds ==> !LikeCred(c, r.kind, r.identifier)
  }

  // ---- firms, crews, technicians ----

  ghost predicate FirmMeans(h: Held, r: Row, e: End, h': Held)
    requires r.FirmRow?
  {
    && (e == Refused(RegionNotServed) <==> !Serves(h, r.region))
    && (e == Refused(NeedsMsa) <==> Serves(h, r.region) && r.activate && r.msa.None?)
    && (e.Refused? ==> e.why in {RegionNotServed, NeedsMsa} && h' == h)
    && (e.Done? ==> e.site.None? && h' == h.(firms := h'.firms) && (FirmMet(h, r, h') || FirmMade(h, r, h')))
  }

  /** A firm on file is put in service if the row says so and it was not yet, and then takes the row's MSA if it had none. */
  ghost predicate FirmMet(h: Held, r: Row, h': Held)
    requires r.FirmRow?
  {
    exists f: nat :: FirmIs(h, r.name, f)
      && var had := h.firms[f];
         var starts := r.activate && had.status == Onboarding;
         h'.firms == h.firms[f := Firm(had.name, if starts then InService else had.status,
                                       if starts && had.msa.None? then r.msa else had.msa, had.facts)]
  }

  ghost predicate FirmMade(h: Held, r: Row, h': Held)
    requires r.FirmRow?
  {
    NoFirm(h, r.name) && h'.firms == h.firms + [Firm(r.name, if r.activate then InService else Onboarding, r.msa, r.facts)]
  }

  ghost predicate CrewMeans(h: Held, r: Row, e: End, h': Held)
    requires r.CrewRow?
  {
    && (e == Refused(RegionNotServed) <==> !Serves(h, r.region))
    && (e == Refused(NoSuchFirm) <==> Serves(h, r.region) && FirmMissing(h, r.firm))
    && (e.Refused? ==> e.why in {RegionNotServed, NoSuchFirm} && h' == h)
    && (e.Done? ==> e.site.None? && exists f :: FirmFor(h, r.firm, f) && CrewLands(h, r, f, h'))
  }

  ghost predicate CrewLands(h: Held, r: Row, f: Option<nat>, h': Held)
    requires r.CrewRow?
  {
    if NoCrew(h, r.title, r.region, f) then h' == h.(crews := h.crews + [Crew(r.title, r.region, f, r.facts)])
    else h' == h
  }

  ghost predicate TechMeans(h: Held, r: Row, e: End, h': Held)
    requires r.TechRow?
  {
    && (e == Refused(RegionNotServed) <==> !Serves(h, r.region))
    && (e == Refused(NoSuchFirm) <==> Serves(h, r.region) && FirmMissing(h, r.firm))
    && (e == Refused(NoSuchCrew) <==> Serves(h, r.region) && exists f :: FirmFor(h, r.firm, f) && CrewMissing(h, r, f))
    && (e.Refused? ==> e.why in {RegionNotServed, NoSuchFirm, NoSuchCrew} && h' == h)
    && (e.Done? ==> e.site.None? && exists f, c :: FirmFor(h, r.firm, f) && TechLands(h, r, f, c, h'))
  }

  ghost predicate CrewMissing(h: Held, r: Row, f: Option<nat>)
    requires r.TechRow?
  {
    r.crew.Some? && NoCrew(h, r.crew.value, r.region, f)
  }

  /** A technician not yet on file by the row's name and firm is made, on the crew the row names. */
  ghost predicate TechLands(h: Held, r: Row, f: Option<nat>, c: Option<nat>, h': Held)
    requires r.TechRow?
  {
    && CrewFor(h, r.crew, r.region, f, c)
    && if NoTech(h, r.name, f) then h' == h.(techs := h.techs + [Tech(r.name, f, c, r.facts)]) else h' == h
  }

  // ---- credentials ----

  ghost predicate CredMeans(verify: bool, h: Held, r: Row, e: End, h': Held)
    requires r.CredRow?
  {
    && (e == Refused(RegionNotServed) <==> !Serves(h, r.region))
    && (e == Refused(NoSuchFirm) <==> Serves(h, r.region) && FirmMissing(h, r.firm))
    && (e == Refused(NoSuchCrew) <==>
          Serves(h, r.region) && exists f :: FirmFor(h, r.firm, f) && NoCrew(h, r.holder, r.region, f))
    && (e == Refused(DatesDiffer) <==>
          Serves(h, r.region) && exists f, c :: FirmFor(h, r.firm, f) && CrewIs(h, r.holder, r.region, f, c) && OtherDates(h, r, c))
    && (e.Refused? ==> e.why in {RegionNotServed, NoSuchFirm, NoSuchCrew, DatesDiffer} && h' == h)
    && (e.Done? ==> e.site.None?)
    && (e.Done? ==> exists f, c :: FirmFor(h, r.firm, f) && CrewIs(h, r.holder, r.region, f, c) && CredLands(verify, h, r, c, h'))
  }

  /** On file under other dates. */
  ghost predicate OtherDates(h: Held, r: Row, c: nat)
    requires r.CredRow?
  {
    exists at: nat :: CredIs(Of(h.creds, c), r, at)
      && !(Of(h.creds, c)[at].validFrom == r.validFrom && Of(h.creds, c)[at].validTo == r.validTo)
  }

  ghost predicate CredLands(verify: bool, h: Held, r: Row, c: nat, h': Held)
    requires r.CredRow?
  {
    && h' == h.(creds := h'.creds)
    && (forall k: nat :: k != c ==> Of(h'.creds, k) == Of(h.creds, k))
    && (CredMet(verify, Of(h.creds, c), r, Of(h'.creds, c)) || CredMade(verify, Of(h.creds, c), r, Of(h'.creds, c)))
  }

  ghost predicate CredMet(verify: bool, was: seq<Cred>, r: Row, now: seq<Cred>)
    requires r.CredRow?
  {
    exists at: nat :: CredIs(was, r, at) && was[at].validFrom == r.validFrom && was[at].validTo == r.validTo
      && now == was[at := Cred(r.kind, r.identifier, r.validFrom, r.validTo, was[at].facts, verify || was[at].verified)]
  }

  ghost predicate CredMade(verify: bool, was: seq<Cred>, r: Row, now: seq<Cred>)
    requires r.CredRow?
  {
    NoCred(was, r) && now == was + [Cred(r.kind, r.identifier, r.validFrom, r.validTo, r.facts, verify)]
  }

  // ---- customers ----

  /** The last organization by that reference. */
  ghost predicate OrgIs(h: Held, ref: Id, o: nat) {
    o < |h.orgs| && h.orgs[o].ref == Some(ref) && forall i :: o < i < |h.orgs| ==> h.orgs[i].ref != Some(ref)
  }

  ghost predicate NoOrg(h: Held, ref: Id) {
    forall o :: o in h.orgs ==> o.ref != Some(ref)
  }

  predicate LikeRegion(n: Node, region: Id) {
    n.tier == RegionTier && n.active && n.region == region
  }

  predicate LikeLocation(n: Node, under: nat, name: Name) {
    n.tier == LocationTier && n.parent == Some(under) && n.name.key == name.key
  }

  /** A site goes by its reference, or by its name under its location if the row gives none. */
  predicate LikeSite(n: Node, ref: Option<Id>, under: nat, name: Name) {
    n.tier == SiteTier && if ref.Some? then n.ref == ref else n.parent == Some(under) && n.name.key == name.key
  }

  ghost predicate RegionIs(nodes: seq<Node>, r: Row, at: nat)
    requires r.CustomerRow?
  {
    at < |nodes| && LikeRegion(nodes[at], r.region) && forall i :: 0 <= i < at ==> !LikeRegion(nodes[i], r.region)
  }

  ghost predicate LocationIs(nodes: seq<Node>, r: Row, under: nat, at: nat)
    requires r.CustomerRow?
  {
    && at < |nodes| && LikeLocation(nodes[at], under, r.location)
    && forall i :: 0 <= i < at ==> !LikeLocation(nodes[i], under, r.location)
  }

  ghost predicate SiteIs(nodes: seq<Node>, r: Row, under: nat, at: nat)
    requires r.CustomerRow?
  {
    && at < |nodes| && LikeSite(nodes[at], r.siteRef, under, r.site)
    && forall i :: 0 <= i < at ==> !LikeSite(nodes[i], r.siteRef, under, r.site)
  }

  /** The row's region node, location and site, each the first that fits; what was missing is all that was added. */
  ghost predicate TreeMeans(was: seq<Node>, r: Row, reg: nat, loc: nat, site: nat, now: seq<Node>)
    requires r.CustomerRow?
  {
    && RegionIs(now, r, reg) && LocationIs(now, r, reg, loc) && SiteIs(now, r, loc, site)
    && now == was
         + (if reg < |was| then [] else [Node(RegionTier, r.regionNode, None, r.region, None, true)])
         + (if loc < |was| then [] else [Node(LocationTier, r.location, Some(reg), r.region, None, true)])
         + (if site < |was| then [] else [Node(SiteTier, r.site, Some(loc), r.region, r.siteRef, true)])
  }

  /** One organization's nodes change, and nothing else. */
  ghost predicate OnlyNodesOf(h: Held, o: nat, h': Held) {
    h' == h.(nodes := h'.nodes) && forall k: nat :: k != o ==> Of(h'.nodes, k) == Of(h.nodes, k)
  }

  ghost predicate CustomerMeans(h: Held, r: Row, e: End, h': Held)
    requires r.CustomerRow?
  {
    && (e == Refused(RegionNotServed) <==> !Serves(h, r.region))
    && (e == Refused(SegmentDiffers) <==> Serves(h, r.region) && OtherSegment(h, r))
    && (e.Refused? ==> e.why in {RegionNotServed, SegmentDiffers, SiteElsewhere})
    && (e.Refused? && e.why != SiteElsewhere ==> h' == h)
    && (e.Done? || e.why == SiteElsewhere ==> CustomerMet(h, r, e, h') || CustomerMade(h, r, e, h'))
  }

  ghost predicate OtherSegment(h: Held, r: Row)
    requires r.CustomerRow?
  {
    exists o: nat :: OrgIs(h, r.ref, o) && h.orgs[o].segment.Some? && h.orgs[o].segment != Some(r.segment)
  }

  /** A row ends at its site, or is refused if that is filed under another location. */
  ghost predicate ComesTo(nodes: seq<Node>, org: nat, loc: nat, site: nat, e: End) {
    && site < |nodes|
    && e == if nodes[site].parent == Some(loc) then Done(Some((org, site))) else Refused(SiteElsewhere)
  }

  ghost predicate TreeLands(h: Held, r: Row, o: nat, e: End, h': Held)
    requires r.CustomerRow?
  {
    && OnlyNodesOf(h, o, h')
    && exists reg, loc, site :: TreeMeans(Of(h.nodes, o), r, reg, loc, site, Of(h'.nodes, o)) && ComesTo(Of(h'.nodes, o), o, loc, site, e)
  }

  ghost predicate CustomerMet(h: Held, r: Row, e: End, h': Held)
    requires r.CustomerRow?
  {
    exists o: nat :: OrgIs(h, r.ref, o)
      && if r.segment == Residential then h' == h && e == Done(None) else TreeLands(h, r, o, e, h')
  }

  /** A new organization of the row's reference, name and segment; a company's tree is made from nothing, a household's
      by the gateway. */
  ghost predicate CustomerMade(h: Held, r: Row, e: End, h': Held)
    requires r.CustomerRow?
  {
    var more := h.(orgs := h.orgs + [Org(Some(r.ref), r.name, Some(r.segment))]);
    NoOrg(h, r.ref) && if r.segment == Residential then h' == more && e == Done(None) else TreeLands(more, r, |h.orgs|, e, h')
  }

  // ---- agreements ----

  predicate LikeMsa(k: Contract, from: int) {
    k.parentMsa && k.effectiveFrom == from
  }

  ghost predicate MsaIs(contracts: seq<Contract>, from: int, at: nat) {
    at < |contracts| && LikeMsa(contracts[at], from) && forall i :: 0 <= i < at ==> !LikeMsa(contracts[i], from)
  }

  ghost predicate NoMsa(contracts: seq<Contract>, from: int) {
    forall k :: k in contracts ==> !LikeMsa(k, from)
  }

  predicate LikeTerm(t: Override, contract: nat, key: Id) {
    t.contract == contract && t.parentScope && t.key == key
  }

  /** The value a contract has for a term: that of the first override of it. */
  ghost predicate Says(on: seq<Override>, contract: nat, key: Id, value: nat) {
    exists i :: 0 <= i < |on| && LikeTerm(on[i], contract, key) && on[i].value == value
      && forall j :: 0 <= j < i ==> !LikeTerm(on[j], contract, key)
  }

  ghost predicate SaysNothing(on: seq<Override>, contract: nat, key: Id) {
    forall t :: t in on ==> !LikeTerm(t, contract, key)
  }

  ghost predicate SaysOtherwise(on: seq<Override>, contract: nat, terms: seq<Term>) {
    exists t, v :: t in terms && Says(on, contract, t.key, v) && v != t.value
  }

  /** `added` is, in the row's order, each of its terms of which the contract says nothing. */
  ghost predicate Missing(on: seq<Override>, contract: nat, terms: seq<Term>, at: seq<nat>, added: seq<Override>) {
    && |at| == |added| && (forall i, j :: 0 <= i < j < |at| ==> at[i] < at[j])
    && (forall i :: 0 <= i < |at| ==> Lacks(on, contract, terms, at[i], added[i]))
    && (forall k: nat :: k < |terms| ==> k in at || !SaysNothing(on, contract, terms[k].key))
  }

  ghost predicate Lacks(on: seq<Override>, contract: nat, terms: seq<Term>, k: nat, o: Override) {
    k < |terms| && SaysNothing(on, contract, terms[k].key) && o == Override(contract, true, terms[k].key, terms[k].value)
  }

  /** The region of an organization's first live region node. */
  ghost predicate FirstRegion(nodes: seq<Node>, region: Id) {
    exists i :: 0 <= i < |nodes| && nodes[i].tier == RegionTier && nodes[i].active && nodes[i].region == region
      && forall j :: 0 <= j < i ==> !(nodes[j].tier == RegionTier && nodes[j].active)
  }

  /** The region an agreement is served from: the row's, or else the customer's first. */
  ghost predicate ServedAs(h: Held, o: nat, r: Row, region: Id)
    requires r.AgreementRow?
  {
    Serves(h, region) && if r.servedFrom.Some? then r.servedFrom.value == region else FirstRegion(Of(h.nodes, o), region)
  }

  ghost predicate Company(h: Held, r: Row, o: nat)
    requires r.AgreementRow?
  {
    OrgIs(h, r.customer, o) && h.orgs[o].segment != Some(Residential)
  }

  /** A company's agreement, and the region it is served from: what a row not refused before its contract has. */
  ghost predicate Party(h: Held, r: Row, o: nat, region: Id)
    requires r.AgreementRow?
  {
    Company(h, r, o) && ServedAs(h, o, r, region)
  }

  ghost predicate SignedOtherwise(h: Held, r: Row, o: nat)
    requires r.AgreementRow?
  {
    exists c: nat :: MsaIs(Of(h.contracts, o), r.effectiveFrom, c)
      && !(Of(h.contracts, o)[c].signedAt == r.signedAt && Of(h.contracts, o)[c].billing == r.billing)
  }

  ghost predicate TermsOtherwise(h: Held, r: Row, o: nat)
    requires r.AgreementRow?
  {
    exists c: nat :: MsaIs(Of(h.contracts, o), r.effectiveFrom, c) && SaysOtherwise(Of(h.overrides, o), c, r.terms)
  }

  ghost predicate AgreementMeans(h: Held, r: Row, e: End, h': Held)
    requires r.AgreementRow?
  {
    && (e == Refused(NoSuchCustomer) <==> NoOrg(h, r.customer))
    && (e == Refused(IsHousehold) <==> exists o: nat :: OrgIs(h, r.customer, o) && h.orgs[o].segment == Some(Residential))
    && (e == Refused(RegionNotServed) <==>
          (exists o: nat :: Company(h, r, o)) && r.servedFrom.Some? && !Serves(h, r.servedFrom.value))
    && (e == Refused(NoRegion) <==>
          r.servedFrom.None? && exists o: nat :: Company(h, r, o) && forall region: Id :: !ServedAs(h, o, r, region))
    && (e == Refused(SignedDiffers) <==> exists o: nat, region: Id :: Party(h, r, o, region) && SignedOtherwise(h, r, o))
    && (e == Refused(TermDiffers) <==>
          exists o: nat, region: Id :: Party(h, r, o, region) && !SignedOtherwise(h, r, o) && TermsOtherwise(h, r, o))
    && (e.Refused? ==> e.why in {NoSuchCustomer, IsHousehold, RegionNotServed, NoRegion, SignedDiffers, TermDiffers} && h' == h)
    && (e.Done? ==> e.site.None? && exists o: nat, region: Id :: Party(h, r, o, region) && AgreementLands(h, r, o, region, h'))
  }

  /** One organization's contracts and terms change, and nothing else. */
  ghost predicate OnlyPapersOf(h: Held, o: nat, h': Held) {
    && h' == h.(contracts := h'.contracts, overrides := h'.overrides)
    && forall k: nat :: k != o ==> Of(h'.contracts, k) == Of(h.contracts, k) && Of(h'.overrides, k) == Of(h.overrides, k)
  }

  ghost predicate AgreementLands(h: Held, r: Row, o: nat, region: Id, h': Held)
    requires r.AgreementRow?
  {
    && OnlyPapersOf(h, o, h')
    && exists c: nat, at, added :: ContractLands(Of(h.contracts, o), r, region, c, Of(h'.contracts, o))
         && Missing(Of(h.overrides, o), c, r.terms, at, added) && Of(h'.overrides, o) == Of(h.overrides, o) + added
  }

  /** The agreement on file, no longer a draft if the row activates it; or the row's, added last. */
  ghost predicate ContractLands(was: seq<Contract>, r: Row, region: Id, c: nat, now: seq<Contract>)
    requires r.AgreementRow?
  {
    if NoMsa(was, r.effectiveFrom) then
      && c == |was|
      && now == was + [Contract(true, r.effectiveFrom, r.effectiveTo, r.signedAt, r.billing, region, if r.activate then Live else Draft)]
    else
      && MsaIs(was, r.effectiveFrom, c)
      && was[c].signedAt == r.signedAt && was[c].billing == r.billing
      && now == if r.activate && was[c].state == Draft then was[c := was[c].(state := Live)] else was
  }

  // ---- proofs ----

  lemma {:induction false} FirmFound(h: Held, name: Option<Name>)
    ensures FirmKnown(h, name) <==> !FirmMissing(h, name)
    ensures FirmKnown(h, name) ==> FirmFor(h, name, FirmNamed(h, name))
    ensures forall f :: FirmFor(h, name, f) ==> FirmKnown(h, name) && f == FirmNamed(h, name)
  {
    hide First;
  }

  lemma {:induction false} CrewFound(h: Held, title: Name, region: Id, firm: Option<nat>)
    ensures CrewAt(h, title, region, firm).None? <==> NoCrew(h, title, region, firm)
    ensures forall c: nat :: CrewIs(h, title, region, firm, c) <==> CrewAt(h, title, region, firm) == Some(c)
  {
    hide First;
    var p := IsCrew(title.key, region, firm);
    assert forall c :: p(c) <==> LikeCrew(c, title, region, firm);
    var at := First(p, h.crews);
    assert at.Some? ==> h.crews[at.value] in h.crews;
  }

  lemma {:induction false} PutOne(h: Held, w: Write)
    ensures PutAll(h, [w]) == Put(h, w) && PutAll(h, []) == h
  {
    assert [w][1..] == [];
  }

  lemma {:induction false} PutTwo(h: Held, w: Write, v: Write)
    ensures PutAll(h, [w, v]) == Put(Put(h, w), v)
  {
    assert [w, v][1..] == [v];
    PutOne(Put(h, w), v);
  }

  lemma {:induction false} FirmRowMeans(h: Held, r: Row)
    requires r.FirmRow?
    ensures FirmMeans(h, r, FirmSteps(h, r).end, PutAll(h, FirmSteps(h, r).writes))
  {
    hide First, PutAll;
    var s, at := FirmSteps(h, r), FirmAt(h, r.name);
    var h' := PutAll(h, s.writes);
    PutOne(h, CreateFirm(Firm(r.name, Onboarding, r.msa, r.facts)));
    if s.end.Done? {
      if at.Some? {
        var f := at.value;
        assert FirmIs(h, r.name, f);
        PutOne(h, ActivateFirm(f, if h.firms[f].msa.Some? then None else r.msa));
        var had := h.firms[f];
        var starts := r.activate && had.status == Onboarding;
        assert h'.firms == h.firms[f := Firm(had.name, if starts then InService else had.status,
                                             if starts && had.msa.None? then r.msa else had.msa, had.facts)];
      } else {
        var w := CreateFirm(Firm(r.name, Onboarding, r.msa, r.facts));
        PutTwo(h, w, ActivateFirm(|h.firms|, None));
        if r.activate {
          assert s.writes == [w, ActivateFirm(|h.firms|, None)];
          assert h'.firms == h.firms + [Firm(r.name, InService, r.msa, r.facts)];
        } else {
          assert s.writes == [w];
        }
        assert FirmMade(h, r, h');
      }
    }
  }

  lemma {:induction false} CrewRowMeans(h: Held, r: Row)
    requires r.CrewRow?
    ensures CrewMeans(h, r, CrewSteps(h, r).end, PutAll(h, CrewSteps(h, r).writes))
  {
    hide First, PutAll, FirmFor, FirmMissing, NoCrew, FirmKnown, FirmNamed;
    FirmFound(h, r.firm);
    var f := FirmNamed(h, r.firm);
    CrewFound(h, r.title, r.region, f);
    PutOne(h, CreateCrew(Crew(r.title, r.region, f, r.facts)));
  }

  lemma {:induction false} TechFound(h: Held, name: Name, firm: Option<nat>)
    ensures TechAt(h, name, firm).None? <==> NoTech(h, name, firm)
  {
    hide First;
  }

  lemma {:induction false} TechRowMeans(h: Held, r: Row)
    requires r.TechRow?
    ensures TechMeans(h, r, TechSteps(h, r).end, PutAll(h, TechSteps(h, r).writes))
  {
    hide First, PutAll, FirmFor, FirmMissing, NoCrew, NoTech, FirmKnown, FirmNamed, CrewAt, TechAt, CrewIs;
    FirmFound(h, r.firm);
    var f := FirmNamed(h, r.firm);
    var c := if r.crew.Some? then CrewAt(h, r.crew.value, r.region, f) else None;
    if r.crew.Some? {
      CrewFound(h, r.crew.value, r.region, f);
    }
    TechFound(h, r.name, f);
    PutOne(h, CreateTech(Tech(r.name, f, c, r.facts)));
    if TechSteps(h, r).end.Done? {
      assert CrewFor(h, r.crew, r.region, f, c);
      assert TechLands(h, r, f, c, PutAll(h, TechSteps(h, r).writes));
    }
  }

  lemma {:induction false} CredFound(was: seq<Cred>, r: Row)
    requires r.CredRow?
    ensures CredAt(was, r.kind, r.identifier).None? <==> NoCred(was, r)
    ensures forall at: nat :: CredIs(was, r, at) <==> CredAt(was, r.kind, r.identifier) == Some(at)
  {
    hide First;
    var p := IsCred(r.kind, r.identifier);
    assert forall c :: p(c) <==> LikeCred(c, r.kind, r.identifier);
    var at := First(p, was);
    assert at.Some? ==> was[at.value] in was;
  }

  lemma {:induction false} PutCred(h: Held, c: nat, cred: Cred)
    ensures var h' := PutAll(h, [RecordCred(c, cred)]);
      h' == h.(creds := h'.creds) && Of(h'.creds, c) == Of(h.creds, c) + [cred]
      && forall k: nat :: k != c ==> Of(h'.creds, k) == Of(h.creds, k)
  {
    PutOne(h, RecordCred(c, cred));
  }

  lemma {:induction false} PutVerify(h: Held, c: nat, at: nat)
    requires at < |Of(h.creds, c)|
    ensures var h' := PutAll(h, [VerifyCred(c, at)]);
      h' == h.(creds := h'.creds) && Of(h'.creds, c) == Of(h.creds, c)[at := Of(h.creds, c)[at].(verified := true)]
      && forall k: nat :: k != c ==> Of(h'.creds, k) == Of(h.creds, k)
  {
    PutOne(h, VerifyCred(c, at));
  }

  lemma {:induction false} CredDone(verify: bool, h: Held, r: Row, c: nat)
    requires r.CredRow? && Serves(h, r.region) && FirmKnown(h, r.firm)
    requires CrewAt(h, r.holder, r.region, FirmNamed(h, r.firm)) == Some(c)
    requires CredSteps(verify, h, r).end.Done?
    ensures CredLands(verify, h, r, c, PutAll(h, CredSteps(verify, h, r).writes))
  {
    hide First, PutAll, FirmKnown, FirmNamed, CrewAt, CredAt, NoCred, CredIs;
    var was, s := Of(h.creds, c), CredSteps(verify, h, r);
    CredFound(was, r);
    match CredAt(was, r.kind, r.identifier)
    case Some(at) =>
      assert CredIs(was, r, at);
      LikesItself(was, r, at);
      if s.writes == [] {
        PutOne(h, VerifyCred(c, at));
        assert was[at := Cred(r.kind, r.identifier, r.validFrom, r.validTo, was[at].facts, verify || was[at].verified)] == was;
      } else {
        PutVerify(h, c, at);
      }
      assert CredMet(verify, was, r, Of(PutAll(h, s.writes).creds, c));
    case None =>
      var cred := Cred(r.kind, r.identifier, r.validFrom, r.validTo, r.facts, false);
      PutCred(h, c, cred);
      if verify {
        var h1 := PutAll(h, [RecordCred(c, cred)]);
        assert s.writes == [RecordCred(c, cred)] + [VerifyCred(c, |was|)];
        PutAllAppend(h, [RecordCred(c, cred)], [VerifyCred(c, |was|)]);
        PutVerify(h1, c, |was|);
        assert (was + [cred])[|was| := cred.(verified := true)] == was + [cred.(verified := true)];
      } else {
        assert s.writes == [RecordCred(c, cred)];
      }
      assert CredMade(verify, was, r, Of(PutAll(h, s.writes).creds, c));
  }

  lemma {:induction false} LikesItself(was: seq<Cred>, r: Row, at: nat)
    requires r.CredRow? && CredIs(was, r, at)
    ensures at < |was| && was[at].kind == r.kind && was[at].identifier == r.identifier
  {
  }

  lemma {:induction false} CredRowMeans(verify: bool, h: Held, r: Row)
    requires r.CredRow?
    ensures CredMeans(verify, h, r, CredSteps(verify, h, r).end, PutAll(h, CredSteps(verify, h, r).writes))
  {
    hide First, PutAll, FirmFor, FirmMissing, NoCrew, FirmKnown, FirmNamed, CrewAt, CrewIs, CredAt, CredIs, NoCred, CredLands;
    FirmFound(h, r.firm);
    var f := FirmNamed(h, r.firm);
    CrewFound(h, r.holder, r.region, f);
    if Serves(h, r.region) && FirmKnown(h, r.firm) && CrewAt(h, r.holder, r.region, f).Some? {
      var c := CrewAt(h, r.holder, r.region, f).value;
      CredFound(Of(h.creds, c), r);
      if CredSteps(verify, h, r).end.Done? {
        CredDone(verify, h, r, c);
      }
    }
    PutOne(h, CreateCrew(Crew(r.holder, r.region, f, r.facts)));
  }

  // ---- a customer's tree ----

  ghost predicate OnlyNodes(ws: seq<Write>, org: nat) {
    forall w :: w in ws ==> w.CreateNode? && w.orgAt == org
  }

  ghost function NodesOf(ws: seq<Write>): (r: seq<Node>)
    ensures |r| == |ws| && forall i :: 0 <= i < |ws| && ws[i].CreateNode? ==> r[i] == ws[i].node
  {
    seq(|ws|, i requires 0 <= i < |ws| => if ws[i].CreateNode? then ws[i].node else Node(SiteTier, Name(0, 0), None, 0, None, false))
  }

  lemma {:induction false} PutNode(h: Held, w: Write)
    requires w.CreateNode?
    ensures OnlyNodesOf(h, w.orgAt, Put(h, w)) && Of(Put(h, w).nodes, w.orgAt) == Of(h.nodes, w.orgAt) + [w.node]
  {
  }

  lemma {:induction false} PutTerm(h: Held, w: Write)
    requires w.AuthorTerm?
    ensures var h' := Put(h, w);
      && h' == h.(overrides := h'.overrides) && Of(h'.overrides, w.orgAt) == Of(h.overrides, w.orgAt) + [w.term]
      && forall k: nat :: k != w.orgAt ==> Of(h'.overrides, k) == Of(h.overrides, k)
  {
  }

  lemma {:induction false} FirstNode(ws: seq<Write>)
    requires ws != [] && ws[0].CreateNode?
    ensures NodesOf(ws) == [ws[0].node] + NodesOf(ws[1..])
  {
  }

  lemma {:induction false} FirstTerm(ws: seq<Write>)
    requires ws != [] && ws[0].AuthorTerm?
    ensures TermsOf(ws) == [ws[0].term] + TermsOf(ws[1..])
  {
  }

  lemma {:induction false} PutNodes(h: Held, org: nat, ws: seq<Write>)
    requires OnlyNodes(ws, org)
    ensures OnlyNodesOf(h, org, PutAll(h, ws)) && Of(PutAll(h, ws).nodes, org) == Of(h.nodes, org) + NodesOf(ws)
    decreases ws
  {
    if ws == [] {
      assert Of(h.nodes, org) + NodesOf(ws) == Of(h.nodes, org);
    } else {
      assert ws[0] in ws && forall w :: w in ws[1..] ==> w in ws;
      hide Put, Of, NodesOf;
      PutNode(h, ws[0]);
      PutNodes(Put(h, ws[0]), org, ws[1..]);
      FirstNode(ws);
      AppendAssociates(Of(h.nodes, org), [ws[0].node], NodesOf(ws[1..]));
    }
  }

  lemma {:induction false} SiteTree(org: nat, nodes: seq<Node>, loc: nat, r: Row) returns (site: nat)
    requires r.CustomerRow?
    ensures var s := SiteSteps(org, nodes, loc, r);
      var now := nodes + NodesOf(s.writes);
      && OnlyNodes(s.writes, org) && SiteIs(now, r, loc, site) && ComesTo(now, org, loc, site, s.end)
      && now == nodes + (if site < |nodes| then [] else [Node(SiteTier, r.site, Some(loc), r.region, r.siteRef, true)])
  {
    hide First;
    var p := IsSite(r.siteRef, loc, r.site.key);
    assert forall n :: p(n) <==> LikeSite(n, r.siteRef, loc, r.site);
    var at := First(p, nodes);
    if at.Some? {
      site := at.value;
      assert nodes + NodesOf([]) == nodes;
    } else {
      site := |nodes|;
      var n := Node(SiteTier, r.site, Some(loc), r.region, r.siteRef, true);
      assert nodes + NodesOf(SiteSteps(org, nodes, loc, r).writes) == nodes + [n];
    }
  }

  lemma {:induction false} LocationPlaced(org: nat, nodes: seq<Node>, reg: nat, r: Row, more: seq<Node>)
    requires r.CustomerRow?
    ensures var n := Node(LocationTier, r.location, Some(reg), r.region, None, true);
      var loc := Place(org, nodes, IsLocation(reg, r.location.key), n);
      && OnlyNodes(loc.writes, org) && LocationIs(loc.nodes + more, r, reg, loc.at)
      && loc.nodes == nodes + NodesOf(loc.writes)
      && loc.nodes == nodes + (if loc.at < |nodes| then [] else [n])
  {
    hide First;
    var n, p := Node(LocationTier, r.location, Some(reg), r.region, None, true), IsLocation(reg, r.location.key);
    assert forall x :: p(x) <==> LikeLocation(x, reg, r.location);
    var loc := Place(org, nodes, p, n);
    if First(p, nodes).Some? {
      assert loc.nodes + NodesOf([]) == nodes;
    } else {
      assert nodes + NodesOf(loc.writes) == nodes + [n];
    }
    assert forall i :: 0 <= i < |loc.nodes| ==> (loc.nodes + more)[i] == loc.nodes[i];
  }

  lemma {:induction false} RegionPlaced(org: nat, nodes: seq<Node>, r: Row, more: seq<Node>)
    requires r.CustomerRow?
    ensures var n := Node(RegionTier, r.regionNode, None, r.region, None, true);
      var reg := Place(org, nodes, IsRegion(r.region), RegionNode(r));
      && OnlyNodes(reg.writes, org) && RegionIs(reg.nodes + more, r, reg.at)
      && reg.nodes == nodes + NodesOf(reg.writes)
      && reg.nodes == nodes + (if reg.at < |nodes| then [] else [n])
  {
    hide First;
    var n, p := Node(RegionTier, r.regionNode, None, r.region, None, true), IsRegion(r.region);
    assert forall x :: p(x) <==> LikeRegion(x, r.region);
    var reg := Place(org, nodes, p, RegionNode(r));
    if First(p, nodes).Some? {
      assert reg.nodes + NodesOf([]) == nodes;
    } else {
      assert nodes + NodesOf(reg.writes) == nodes + [n];
    }
    assert forall i :: 0 <= i < |reg.nodes| ==> (reg.nodes + more)[i] == reg.nodes[i];
  }

  lemma {:induction false} NodesOfBoth(org: nat, a: seq<Write>, b: seq<Write>)
    requires OnlyNodes(a, org) && OnlyNodes(b, org)
    ensures OnlyNodes(a + b, org) && NodesOf(a + b) == NodesOf(a) + NodesOf(b)
  {
  }

  /** A row's tree is its region, its location and its site, one after the other. */
  lemma {:induction false} TreeParts(org: nat, was: seq<Node>, r: Row)
    requires r.CustomerRow?
    ensures var region := Place(org, was, IsRegion(r.region), RegionNode(r));
      var n := Node(LocationTier, r.location, Some(region.at), r.region, None, true);
      var location := Place(org, region.nodes, IsLocation(region.at, r.location.key), n);
      var last := SiteSteps(org, location.nodes, location.at, r);
      TreeSteps(org, was, r) == Steps(region.writes + (location.writes + last.writes), last.end)
  {
    hide Place, SiteSteps;
  }

  lemma {:induction false} NodesAfter(org: nat, was: seq<Node>, a: seq<Write>, b: seq<Write>, c: seq<Write>)
    requires OnlyNodes(a, org) && OnlyNodes(b, org) && OnlyNodes(c, org)
    ensures OnlyNodes(a + (b + c), org)
    ensures was + NodesOf(a + (b + c)) == was + NodesOf(a) + (NodesOf(b) + NodesOf(c))
    ensures was + NodesOf(a + (b + c)) == was + NodesOf(a) + NodesOf(b) + NodesOf(c)
  {
    hide NodesOf, OnlyNodes;
    NodesOfBoth(org, b, c);
    NodesOfBoth(org, a, b + c);
    AppendAssociates(was, NodesOf(a), NodesOf(b) + NodesOf(c));
    AppendAssociates(was + NodesOf(a), NodesOf(b), NodesOf(c));
  }

  lemma {:induction false} TreeIsMeant(org: nat, was: seq<Node>, r: Row) returns (reg: nat, loc: nat, site: nat)
    requires r.CustomerRow?
    ensures var s := TreeSteps(org, was, r);
      var now := was + NodesOf(s.writes);
      OnlyNodes(s.writes, org) && TreeMeans(was, r, reg, loc, site, now) && ComesTo(now, org, loc, site, s.end)
  {
    hide Place, SiteSteps, TreeSteps, OnlyNodes, NodesOf, RegionIs, LocationIs, SiteIs, ComesTo, RegionNode;
    var region := Place(org, was, IsRegion(r.region), RegionNode(r));
    reg := region.at;
    var n := Node(LocationTier, r.location, Some(reg), r.region, None, true);
    var location := Place(org, region.nodes, IsLocation(reg, r.location.key), n);
    loc := location.at;
    var last := SiteSteps(org, location.nodes, loc, r);
    site := SiteTree(org, location.nodes, loc, r);
    LocationPlaced(org, region.nodes, reg, r, NodesOf(last.writes));
    RegionPlaced(org, was, r, NodesOf(location.writes) + NodesOf(last.writes));
    NodesAfter(org, was, region.writes, location.writes, last.writes);
    TreeParts(org, was, r);
    var now := was + NodesOf(TreeSteps(org, was, r).writes);
    TiersApart(now, r, reg, loc, site);
    TreeAdds(was, r, reg, loc, site, region.nodes, location.nodes, now);
  }

  /** Each of the three is where it was found, or right after what was there. */
  lemma {:induction false} TreeAdds(was: seq<Node>, r: Row, reg: nat, loc: nat, site: nat, withRegion: seq<Node>, withLocation: seq<Node>,
                                    now: seq<Node>)
    requires r.CustomerRow? && reg != loc && loc != site && reg != site
    requires reg < |withRegion| && loc < |withLocation| && site < |now|
    requires withRegion == was + (if reg < |was| then [] else [Node(RegionTier, r.regionNode, None, r.region, None, true)])
    requires withLocation == withRegion
      + (if loc < |withRegion| then [] else [Node(LocationTier, r.location, Some(reg), r.region, None, true)])
    requires now == withLocation
      + (if site < |withLocation| then [] else [Node(SiteTier, r.site, Some(loc), r.region, r.siteRef, true)])
    ensures now == was
      + (if reg < |was| then [] else [Node(RegionTier, r.regionNode, None, r.region, None, true)])
      + (if loc < |was| then [] else [Node(LocationTier, r.location, Some(reg), r.region, None, true)])
      + (if site < |was| then [] else [Node(SiteTier, r.site, Some(loc), r.region, r.siteRef, true)])
  {
  }

  lemma {:induction false} TiersApart(nodes: seq<Node>, r: Row, reg: nat, loc: nat, site: nat)
    requires r.CustomerRow? && RegionIs(nodes, r, reg) && LocationIs(nodes, r, reg, loc) && SiteIs(nodes, r, loc, site)
    ensures reg != loc && loc != site && reg != site && reg < |nodes| && loc < |nodes| && site < |nodes|
  {
  }

  lemma {:induction false} OrgFound(h: Held, ref: Id)
    ensures OrgAt(h.orgs, ref).None? <==> NoOrg(h, ref)
    ensures OrgAt(h.orgs, ref).Some? ==> OrgAt(h.orgs, ref).value < |h.orgs|
    ensures forall o: nat :: OrgIs(h, ref, o) <==> OrgAt(h.orgs, ref) == Some(o)
  {
    hide Last;
    var p := IsOrg(ref);
    assert forall o :: p(o) <==> o.ref == Some(ref);
    var at := Last(p, h.orgs);
    assert at.Some? ==> h.orgs[at.value] in h.orgs;
  }

  lemma {:induction false} NewTree(r: Row, reg: nat, loc: nat, site: nat, now: seq<Node>)
    requires r.CustomerRow? && TreeMeans([RegionNode(r)], r, reg, loc, site, now)
    ensures TreeMeans([], r, reg, loc, site, now)
  {
    hide SiteIs, LocationIs;
    assert now[0] == RegionNode(r) && LikeRegion(now[0], r.region);
    assert reg == 0;

    TiersApart(now, r, reg, loc, site);
  }

  lemma {:induction false} TreeIsPut(h: Held, o: nat, r: Row)
    requires r.CustomerRow?
    ensures TreeLands(h, r, o, TreeSteps(o, Of(h.nodes, o), r).end, PutAll(h, TreeSteps(o, Of(h.nodes, o), r).writes))
  {
    hide TreeSteps, OnlyNodes, NodesOf, TreeMeans, ComesTo, PutAll, OnlyNodesOf;
    var reg, loc, site := TreeIsMeant(o, Of(h.nodes, o), r);
    PutNodes(h, o, TreeSteps(o, Of(h.nodes, o), r).writes);
  }

  lemma {:induction false} NewCustomerMeans(h: Held, r: Row)
    requires r.CustomerRow? && r.segment == Commercial && WellHeld(h) && NoOrg(h, r.ref)
    ensures var tree := TreeSteps(|h.orgs|, [RegionNode(r)], r);
      CustomerMade(h, r, tree.end, PutAll(h, [CreateOrg(Org(Some(r.ref), r.name, Some(r.segment)), RegionNode(r))] + tree.writes))
  {
    hide TreeSteps, NoOrg, OnlyNodes, NodesOf, ComesTo, TreeMeans;
    var o, org := |h.orgs|, Org(Some(r.ref), r.name, Some(r.segment));
    var more, w, tree := h.(orgs := h.orgs + [org]), CreateOrg(org, RegionNode(r)), TreeSteps(o, [RegionNode(r)], r);
    var h1, h' := Put(h, w), PutAll(h, [w] + tree.writes);
    assert ([w] + tree.writes)[1..] == tree.writes && h' == PutAll(h1, tree.writes);
    assert Of(h1.nodes, o) == [RegionNode(r)];
    var reg, loc, site := TreeIsMeant(o, [RegionNode(r)], r);
    PutNodes(h1, o, tree.writes);
    NewTree(r, reg, loc, site, Of(h'.nodes, o));
    assert Of(more.nodes, o) == [];
    assert forall k: nat :: k != o ==> Of(h1.nodes, k) == Of(h.nodes, k);
    assert OnlyNodesOf(more, o, h');
    assert TreeLands(more, r, o, tree.end, h');
  }

  lemma {:induction false} NewHouseholdMeans(h: Held, r: Row)
    requires r.CustomerRow? && r.segment == Residential && NoOrg(h, r.ref)
    ensures CustomerMade(h, r, Done(None), Put(h, CreateHousehold(Org(Some(r.ref), r.name, Some(r.segment)))))
  {
  }

  lemma {:induction false} CustomerRowMeans(h: Held, r: Row)
    requires r.CustomerRow? && WellHeld(h)
    ensures CustomerMeans(h, r, CustomerSteps(h, r).end, PutAll(h, CustomerSteps(h, r).writes))
  {
    hide Last, PutAll, TreeSteps, OrgIs, NoOrg, OrgAt, WellHeld, TreeLands, CustomerMade;
    OrgFound(h, r.ref);
    PutOne(h, CreateHousehold(Org(Some(r.ref), r.name, Some(r.segment))));
    var s, at := CustomerSteps(h, r), OrgAt(h.orgs, r.ref);
    if at.Some? && !OtherSegment(h, r) {
      assert OrgIs(h, r.ref, at.value);
      if r.segment == Commercial && Serves(h, r.region) {
        TreeIsPut(h, at.value, r);
        TreeEnds(at.value, Of(h.nodes, at.value), r);
        assert CustomerMet(h, r, s.end, PutAll(h, s.writes));
      }
    } else if at.None? && Serves(h, r.region) {
      if r.segment == Commercial {
        NewCustomerMeans(h, r);
        TreeEnds(|h.orgs|, [RegionNode(r)], r);
      } else {
        NewHouseholdMeans(h, r);
      }
    }
  }

  lemma {:induction false} TreeEnds(org: nat, nodes: seq<Node>, r: Row)
    requires r.CustomerRow?
    ensures var e := TreeSteps(org, nodes, r).end; e.Done? || e.why == SiteElsewhere
  {
    hide First;
  }

  // ---- an agreement's terms ----

  ghost function TermsOf(ws: seq<Write>): (r: seq<Override>)
    ensures |r| == |ws| && forall i :: 0 <= i < |ws| && ws[i].AuthorTerm? ==> r[i] == ws[i].term
  {
    seq(|ws|, i requires 0 <= i < |ws| => if ws[i].AuthorTerm? then ws[i].term else Override(0, false, 0, 0))
  }

  ghost predicate OnlyTerms(ws: seq<Write>, org: nat) {
    forall w :: w in ws ==> w.AuthorTerm? && w.orgAt == org
  }

  lemma {:induction false} PutTerms(h: Held, org: nat, ws: seq<Write>)
    requires OnlyTerms(ws, org)
    ensures var h' := PutAll(h, ws);
      && h' == h.(overrides := h'.overrides) && Of(h'.overrides, org) == Of(h.overrides, org) + TermsOf(ws)
      && forall k: nat :: k != org ==> Of(h'.overrides, k) == Of(h.overrides, k)
    decreases ws
  {
    if ws == [] {
      assert Of(h.overrides, org) + TermsOf(ws) == Of(h.overrides, org);
    } else {
      assert ws[0] in ws && forall w :: w in ws[1..] ==> w in ws;
      hide Put, Of, TermsOf;
      PutTerm(h, ws[0]);
      PutTerms(Put(h, ws[0]), org, ws[1..]);
      FirstTerm(ws);
      AppendAssociates(Of(h.overrides, org), [ws[0].term], TermsOf(ws[1..]));
    }
  }

  lemma {:induction false} TermFound(on: seq<Override>, contract: nat, key: Id)
    ensures OnFile(on, contract, key).None? <==> SaysNothing(on, contract, key)
    ensures OnFile(on, contract, key).Some? ==> Says(on, contract, key, on[OnFile(on, contract, key).value].value)
    ensures forall v :: Says(on, contract, key, v) ==> OnFile(on, contract, key).Some? && on[OnFile(on, contract, key).value].value == v
  {
    hide First;
    var p := IsTerm(contract, key);
    assert forall t :: p(t) <==> LikeTerm(t, contract, key);
    var at := First(p, on);
    assert at.Some? ==> on[at.value] in on;
  }

  lemma {:induction false} ConflictsAre(on: seq<Override>, contract: nat, terms: seq<Term>)
    ensures Conflicts(on, contract, terms) <==> SaysOtherwise(on, contract, terms)
  {
    hide First, Says;
    forall t | t in terms
      ensures OnFile(on, contract, t.key).Some? ==> Says(on, contract, t.key, on[OnFile(on, contract, t.key).value].value)
      ensures forall v :: Says(on, contract, t.key, v) ==> OnFile(on, contract, t.key).Some? && on[OnFile(on, contract, t.key).value].value == v
    {
      TermFound(on, contract, t.key);
    }
  }

  lemma {:induction false} OneSaid(on: seq<Override>, o: Override, contract: nat, terms: seq<Term>)
    requires forall t :: t in terms ==> t.key != o.key
    ensures forall t :: t in terms ==> (SaysNothing(on + [o], contract, t.key) <==> SaysNothing(on, contract, t.key))
  {
  }

  /** A row's first term is on file, and what its others leave missing is all that is. */
  lemma {:induction false} FirstIsThere(on: seq<Override>, contract: nat, terms: seq<Term>, at: seq<nat>, added: seq<Override>)
    requires terms != [] && !SaysNothing(on, contract, terms[0].key) && Missing(on, contract, terms[1..], at, added)
    ensures Missing(on, contract, terms, Shifted(at), added)
  {
    hide SaysNothing;
    forall k: nat | k < |terms| ensures k in Shifted(at) || !SaysNothing(on, contract, terms[k].key) {
      if k > 0 {
        assert terms[1..][k - 1] == terms[k];
        if k - 1 in at {
          ShiftedHas(at, k - 1);
        }
      }
    }
  }

  lemma {:induction false} LaterLacks(on: seq<Override>, o: Override, contract: nat, terms: seq<Term>, k: nat, x: Override)
    requires terms != [] && DistinctKeys(terms) && o.key == terms[0].key
    ensures Lacks(on + [o], contract, terms[1..], k, x) <==> Lacks(on, contract, terms, k + 1, x)
  {
    hide SaysNothing;
    if k + 1 < |terms| {
      OneSaid(on, o, contract, [terms[k + 1]]);
      assert terms[k + 1] in [terms[k + 1]];
    }
  }

  lemma {:induction false} FirstIsMissing(on: seq<Override>, contract: nat, terms: seq<Term>, at: seq<nat>, added: seq<Override>)
    requires terms != [] && SaysNothing(on, contract, terms[0].key) && DistinctKeys(terms)
    requires var o := Override(contract, true, terms[0].key, terms[0].value); Missing(on + [o], contract, terms[1..], at, added)
    ensures Missing(on, contract, terms, [0] + Shifted(at), [Override(contract, true, terms[0].key, terms[0].value)] + added)
  {
    hide SaysNothing, Lacks, DistinctKeys;
    var o, all := Override(contract, true, terms[0].key, terms[0].value), [0] + Shifted(at);
    forall i | 0 <= i < |all| ensures Lacks(on, contract, terms, all[i], ([o] + added)[i]) {
      if i > 0 {
        LaterLacks(on, o, contract, terms, at[i - 1], added[i - 1]);
      } else {
        FirstLacks(on, contract, terms);
      }
    }
    forall k: nat | k < |terms| ensures k in all || !SaysNothing(on, contract, terms[k].key) {
      if k > 0 {
        StillLacks(on, o, contract, terms, k);
        if k - 1 in at {
          ShiftedHas(at, k - 1);
        }
      } else {
        assert all[0] == k;
      }
    }
  }

  lemma {:induction false} FirstLacks(on: seq<Override>, contract: nat, terms: seq<Term>)
    requires terms != [] && SaysNothing(on, contract, terms[0].key)
    ensures Lacks(on, contract, terms, 0, Override(contract, true, terms[0].key, terms[0].value))
  {
  }

  lemma {:induction false} StillLacks(on: seq<Override>, o: Override, contract: nat, terms: seq<Term>, k: nat)
    requires 0 < k < |terms| && DistinctKeys(terms) && o.key == terms[0].key
    ensures SaysNothing(on + [o], contract, terms[1..][k - 1].key) <==> SaysNothing(on, contract, terms[k].key)
  {
    OneSaid(on, o, contract, [terms[k]]);
    assert terms[k] in [terms[k]];
  }

  lemma {:induction false} TermsAreMissing(org: nat, contract: nat, on: seq<Override>, terms: seq<Term>) returns (at: seq<nat>)
    requires DistinctKeys(terms)
    ensures Missing(on, contract, terms, at, TermsOf(TermSteps(org, contract, on, terms)))
    decreases terms
  {
    hide OnFile, SaysNothing, Missing, Shifted;
    if terms == [] {
      at := [];
      NoneMissing(on, contract);
    } else {
      var t, rest := terms[0], terms[1..];
      TermFound(on, contract, t.key);
      if OnFile(on, contract, t.key).Some? {
        at := TermsAreMissing(org, contract, on, rest);
        FirstIsThere(on, contract, terms, at, TermsOf(TermSteps(org, contract, on, rest)));
        at := Shifted(at);
      } else {
        var o := Override(contract, true, t.key, t.value);
        var ws := TermSteps(org, contract, on + [o], rest);
        at := TermsAreMissing(org, contract, on + [o], rest);
        FirstIsMissing(on, contract, terms, at, TermsOf(ws));
        at := [0] + Shifted(at);
        assert TermsOf([AuthorTerm(org, o)] + ws) == [o] + TermsOf(ws);
      }
    }
  }

  lemma {:induction false} NoneMissing(on: seq<Override>, contract: nat)
    ensures Missing(on, contract, [], [], TermsOf([]))
  {
  }

  // ---- an agreement ----

  lemma {:induction false} MsaFound(contracts: seq<Contract>, from: int)
    ensures First(IsMsa(from), contracts).None? <==> NoMsa(contracts, from)
    ensures forall c: nat :: MsaIs(contracts, from, c) <==> First(IsMsa(from), contracts) == Some(c)
  {
    hide First;
    var p := IsMsa(from);
    assert forall k :: p(k) <==> LikeMsa(k, from);
    var at := First(p, contracts);
    assert at.Some? ==> contracts[at.value] in contracts;
  }

  lemma {:induction false} RegionFound(h: Held, o: nat, r: Row)
    requires r.AgreementRow?
    ensures forall region: Id :: ServedAs(h, o, r, region) <==> ServedFrom(h, o, r) == Some(region) && Served(h, region)
  {
    hide First;
    var p, nodes := IsLiveRegion(), Of(h.nodes, o);
    assert forall n :: p(n) <==> n.tier == RegionTier && n.active;
    var at := First(p, nodes);
    forall region ensures FirstRegion(nodes, region) <==> at.Some? && nodes[at.value].region == region {
      if at.Some? {
        assert p(nodes[at.value]);
      }
    }
  }

  lemma {:induction false} PutActivation(h: Held, o: nat, at: nat)
    requires at < |Of(h.contracts, o)|
    ensures var h' := PutAll(h, [ActivateContract(o, at)]);
      && h' == h.(contracts := h'.contracts)
      && Of(h'.contracts, o) == Of(h.contracts, o)[at := Of(h.contracts, o)[at].(state := Live)]
      && forall k: nat :: k != o ==> Of(h'.contracts, k) == Of(h.contracts, k)
  {
    PutOne(h, ActivateContract(o, at));
  }

  lemma {:induction false} PutContract(h: Held, o: nat, c: Contract)
    ensures var h' := PutAll(h, [CreateContract(o, c)]);
      && h' == h.(contracts := h'.contracts) && Of(h'.contracts, o) == Of(h.contracts, o) + [c]
      && forall k: nat :: k != o ==> Of(h'.contracts, k) == Of(h.contracts, k)
  {
    PutOne(h, CreateContract(o, c));
  }

  lemma {:induction false} KnownAgreementLands(h: Held, r: Row, o: nat, region: Id, c: nat)
    requires r.AgreementRow? && RowOk(r) && MsaIs(Of(h.contracts, o), r.effectiveFrom, c)
    requires OnAgreement(o, Of(h.contracts, o), Of(h.overrides, o), region, r).end.Done?
    ensures AgreementLands(h, r, o, region, PutAll(h, OnAgreement(o, Of(h.contracts, o), Of(h.overrides, o), region, r).writes))
  {
    hide First, PutAll, TermSteps, Missing, MsaIs, NoMsa, Conflicts;
    var was, on := Of(h.contracts, o), Of(h.overrides, o);
    MsaFound(was, r.effectiveFrom);
    var s, ws := OnAgreement(o, was, on, region, r), TermSteps(o, c, on, r.terms);
    var at := TermsAreMissing(o, c, on, r.terms);
    PutTerms(h, o, ws);
    var h1 := PutAll(h, ws);
    var last := if r.activate && was[c].state == Draft then [ActivateContract(o, c)] else [];
    assert s.writes == ws + last;
    PutAllAppend(h, ws, last);
    if last != [] {
      PutActivation(h1, o, c);
    } else {
      PutOne(h1, ActivateContract(o, c));
    }
    var h' := PutAll(h, s.writes);
    assert OnlyPapersOf(h, o, h');
    assert ContractLands(was, r, region, c, Of(h'.contracts, o));
    assert Missing(on, c, r.terms, at, TermsOf(ws)) && Of(h'.overrides, o) == on + TermsOf(ws);
  }

  lemma {:induction false} NewAgreementLands(h: Held, r: Row, o: nat, region: Id)
    requires r.AgreementRow? && RowOk(r) && NoMsa(Of(h.contracts, o), r.effectiveFrom)
    ensures AgreementLands(h, r, o, region, PutAll(h, OnAgreement(o, Of(h.contracts, o), Of(h.overrides, o), region, r).writes))
    ensures OnAgreement(o, Of(h.contracts, o), Of(h.overrides, o), region, r).end == Done(None)
  {
    hide First, PutAll, TermSteps, Missing, MsaIs, NoMsa, Conflicts;
    var was, on := Of(h.contracts, o), Of(h.overrides, o);
    MsaFound(was, r.effectiveFrom);
    var c := |was|;
    var k := Contract(true, r.effectiveFrom, r.effectiveTo, r.signedAt, r.billing, region, Draft);
    var s, ws := OnAgreement(o, was, on, region, r), TermSteps(o, c, on, r.terms);
    var at := TermsAreMissing(o, c, on, r.terms);
    var h1 := PutAll(h, [CreateContract(o, k)]);
    PutContract(h, o, k);
    PutTerms(h1, o, ws);
    var h2 := PutAll(h1, ws);
    var last := if r.activate then [ActivateContract(o, c)] else [];
    assert s.writes == [CreateContract(o, k)] + ws + last;
    PutAllAppend(h, [CreateContract(o, k)], ws);
    PutAllAppend(h, [CreateContract(o, k)] + ws, last);
    if r.activate {
      PutActivation(h2, o, c);
      assert (was + [k])[c := k.(state := Live)] == was + [k.(state := Live)];
    } else {
      PutOne(h2, ActivateContract(o, c));
    }
    var h' := PutAll(h, s.writes);
    assert OnlyPapersOf(h, o, h');
    assert ContractLands(was, r, region, c, Of(h'.contracts, o));
    assert Missing(on, c, r.terms, at, TermsOf(ws)) && Of(h'.overrides, o) == on + TermsOf(ws);
  }

  lemma {:induction false} PapersEnd(h: Held, r: Row, o: nat, region: Id)
    requires r.AgreementRow? && RowOk(r)
    ensures var s := OnAgreement(o, Of(h.contracts, o), Of(h.overrides, o), region, r);
      && (s.end == Refused(SignedDiffers) <==> SignedOtherwise(h, r, o))
      && (s.end == Refused(TermDiffers) <==> !SignedOtherwise(h, r, o) && TermsOtherwise(h, r, o))
      && (s.end.Refused? ==> s.end.why in {SignedDiffers, TermDiffers} && s.writes == [])
      && (s.end.Done? ==> s.end == Done(None) && AgreementLands(h, r, o, region, PutAll(h, s.writes)))
  {
    hide First, PutAll, TermSteps, MsaIs, NoMsa, Conflicts, SaysOtherwise, AgreementLands;
    var was, on := Of(h.contracts, o), Of(h.overrides, o);
    MsaFound(was, r.effectiveFrom);
    match First(IsMsa(r.effectiveFrom), was)
    case Some(c) =>
      ConflictsAre(on, c, r.terms);
      if OnAgreement(o, was, on, region, r).end.Done? {
        KnownAgreementLands(h, r, o, region, c);
      }
    case None => NewAgreementLands(h, r, o, region);
  }

  lemma {:induction false} AgreementRowMeans(h: Held, r: Row)
    requires r.AgreementRow? && RowOk(r)
    ensures AgreementMeans(h, r, AgreementSteps(h, r).end, PutAll(h, AgreementSteps(h, r).writes))
  {
    hide First, Last, PutAll, OrgAt, OrgIs, NoOrg, ServedAs, ServedFrom, OnAgreement, SignedOtherwise, TermsOtherwise, AgreementLands;
    OrgFound(h, r.customer);
    PutOne(h, CreateTech(Tech(Name(0, 0), None, None, 0)));
    var at := OrgAt(h.orgs, r.customer);
    if at.Some? {
      var o := at.value;
      RegionFound(h, o, r);
      GivenRegion(h, o, r);
      var from := ServedFrom(h, o, r);
      if h.orgs[o].segment != Some(Residential) {
        assert Company(h, r, o);
        if from.Some? && Served(h, from.value) {
          assert Party(h, r, o, from.value);
          PapersEnd(h, r, o, from.value);
        }
      }
    }
  }

  lemma {:induction false} GivenRegion(h: Held, o: nat, r: Row)
    requires r.AgreementRow?
    ensures r.servedFrom.Some? ==> ServedFrom(h, o, r) == r.servedFrom
    ensures forall region: Id :: Serves(h, region) == Served(h, region)
  {
  }

  // ---- any row, and the addresses ----

  ghost predicate RowMeans(verify: bool, h: Held, r: Row, e: End, h': Held) {
    match r
    case FirmRow(_, _, _, _, _) => FirmMeans(h, r, e, h')
    case CrewRow(_, _, _, _) => CrewMeans(h, r, e, h')
    case TechRow(_, _, _, _, _) => TechMeans(h, r, e, h')
    case CredRow(_, _, _, _, _, _, _, _) => CredMeans(verify, h, r, e, h')
    case CustomerRow(_, _, _, _, _, _, _, _, _) => CustomerMeans(h, r, e, h')
    case AgreementRow(_, _, _, _, _, _, _, _) => AgreementMeans(h, r, e, h')
    case Unreadable(_) => e == Refused(BadRow) && h' == h
  }

  function FieldAt(a: map<Site, Address>, s: Site, f: Field): Option<nat> {
    if s in a && f in a[s] then Some(a[s][f]) else None
  }

  /** A row that ends at a site gives its address the fields it has; the other fields and sites keep theirs. */
  ghost predicate Addressed(a: map<Site, Address>, r: Row, e: End, a': map<Site, Address>) {
    if r.CustomerRow? && e.Done? && e.site.Some? then
      forall s: Site, f: Field ::
        FieldAt(a', s, f) == if s == e.site.value && f in r.address then Some(r.address[f]) else FieldAt(a, s, f)
    else a' == a
  }

  /** A row leaves exactly what its columns say, whatever writes it takes. */
  lemma {:induction false} RowIsMeant(verify: bool, g: Gate, r: Row)
    requires RowOk(r) && WellKept(g)
    ensures RowMeans(verify, g.held, r, StepsOf(verify, g.held, r).end, After(verify, g, r).held)
    ensures Addressed(g.addresses, r, StepsOf(verify, g.held, r).end, After(verify, g, r).addresses)
  {
    hide FirmSteps, CrewSteps, TechSteps, CredSteps, CustomerSteps, AgreementSteps, PutAll, After, WellHeld;
    hide FirmMeans, CrewMeans, TechMeans, CredMeans, CustomerMeans, AgreementMeans;
    RowEffect(verify, g, r);
    match r
    case FirmRow(_, _, _, _, _) => FirmRowMeans(g.held, r);
    case CrewRow(_, _, _, _) => CrewRowMeans(g.held, r);
    case TechRow(_, _, _, _, _) => TechRowMeans(g.held, r);
    case CredRow(_, _, _, _, _, _, _, _) => CredRowMeans(verify, g.held, r);
    case CustomerRow(_, _, _, _, _, _, _, _, _) => CustomerRowMeans(g.held, r);
    case AgreementRow(_, _, _, _, _, _, _, _) => AgreementRowMeans(g.held, r);
    case Unreadable(_) => PutOne(g.held, CreateTech(Tech(Name(0, 0), None, None, 0)));
  }
}
