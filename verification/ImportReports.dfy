/** What a row's report says, told by what was held before the row and after it. */
module ImportReports {
  import opened Common
  import opened ImportModel
  import opened ImportSteps
  import opened ImportRuns
  import opened ImportTheorems
  import opened ImportMeaning
  import opened ImportRecords
  import S = ImportSources

  // ---- what was done, as the report lists it ----

  ghost predicate FirmStarts(h: Held, h': Held) {
    exists i :: 0 <= i < |h'.firms| && h'.firms[i].status == InService && !(i < |h.firms| && h.firms[i].status == InService)
  }

  ghost predicate FirmTold(h: Held, r: Row, h': Held, rep: Report)
    requires r.FirmRow?
  {
    && rep.deeds == (if |h'.firms| > |h.firms| then [Made(r.name)] else []) + (if FirmStarts(h, h') then [Enacted] else [])
    && rep.quote == Unquoted
  }

  /** The firm's name as it is on file; none for one of ours. */
  ghost predicate QuotesFirm(h: Held, name: Option<Name>, q: Quote) {
    exists f: Option<nat> :: FirmFor(h, name, f) && (f.Some? ==> f.value < |h.firms|)
      && q == FirmQuoted(if f.Some? then Some(h.firms[f.value].name) else None)
  }

  ghost predicate CrewTold(h: Held, r: Row, h': Held, rep: Report)
    requires r.CrewRow?
  {
    if |h'.crews| > |h.crews| then rep.deeds == [Made(r.title)] && QuotesFirm(h, r.firm, rep.quote)
    else rep.deeds == [] && rep.quote == Unquoted
  }

  ghost predicate TechTold(h: Held, r: Row, e: End, h': Held, rep: Report)
    requires r.TechRow?
  {
    && rep.deeds == (if |h'.techs| > |h.techs| then [Made(r.name)] else [])
    && if e == Refused(NoSuchCrew) then QuotesFirm(h, r.firm, rep.quote) else rep.quote == Unquoted
  }

  ghost predicate CredVerified(was: seq<Cred>, now: seq<Cred>) {
    exists i :: 0 <= i < |now| && now[i].verified && !(i < |was| && was[i].verified)
  }

  /** The row's crew as it is on file, with the dates on file where they are others. */
  ghost predicate QuotesCrew(h: Held, r: Row, e: End, q: Quote)
    requires r.CredRow?
  {
    exists f, c: nat :: FirmFor(h, r.firm, f) && CrewIs(h, r.holder, r.region, f, c) && c < |h.crews|
      && if e.Done? then q == CrewQuoted(h.crews[c].title)
         else exists at: nat :: CredIs(Of(h.creds, c), r, at) && at < |Of(h.creds, c)|
                && q == DatesQuoted(h.crews[c].title, Of(h.creds, c)[at].validFrom, Of(h.creds, c)[at].validTo)
  }

  ghost function CredDeeds(was: seq<Cred>, now: seq<Cred>): seq<Deed> {
    (if |now| > |was| then [Recorded] else []) + (if CredVerified(was, now) then [CheckedOff] else [])
  }

  ghost predicate CredTold(h: Held, r: Row, e: End, h': Held, rep: Report)
    requires r.CredRow?
  {
    && (e.Refused? ==> rep.deeds == [])
    && (e.Done? ==>
          exists f, c: nat :: FirmFor(h, r.firm, f) && CrewIs(h, r.holder, r.region, f, c)
                              && rep.deeds == CredDeeds(Of(h.creds, c), Of(h'.creds, c)))
    && if e == Refused(RegionNotServed) || e == Refused(NoSuchFirm) then rep.quote == Unquoted
       else if e == Refused(NoSuchCrew) then QuotesFirm(h, r.firm, rep.quote)
       else QuotesCrew(h, r, e, rep.quote)
  }

  ghost function NodeDeeds(nodes: seq<Node>): (d: seq<Deed>)
    ensures |d| == |nodes| && forall i :: 0 <= i < |nodes| ==> d[i] == MadeNode(nodes[i].tier, nodes[i].name)
  {
    seq(|nodes|, i requires 0 <= i < |nodes| => MadeNode(nodes[i].tier, nodes[i].name))
  }

  /** The row ends at a site there before it, and one of its fields is not as on file. */
  ghost predicate Readdresses(g: Gate, r: Row, e: End)
    requires r.CustomerRow?
  {
    && e.Done? && e.site.Some? && e.site.value.1 < |Of(g.held.nodes, e.site.value.0)|
    && exists f :: f in r.address && FieldAt(g.addresses, e.site.value, f) != Some(r.address[f])
  }

  /** The organization if it is new, which for a company brings its first region node; the nodes made after; and the
      site's address if it was changed. */
  ghost predicate CustomerDid(g: Gate, r: Row, o: nat, e: End, h': Held, deeds: seq<Deed>)
    requires r.CustomerRow?
  {
    var fromNew := |h'.orgs| > |g.held.orgs|;
    var from := if fromNew && r.segment == Commercial then 1 else |Of(g.held.nodes, o)|;
    && (if fromNew then o == |g.held.orgs| else OrgIs(g.held, r.ref, o))
    && from <= |Of(h'.nodes, o)|
    && deeds == (if fromNew then [Made(r.name)] else []) + NodeDeeds(Of(h'.nodes, o)[from..])
                + (if Readdresses(g, r, e) then [Readdressed] else [])
  }

  /** The site's name on file where nothing was made, or its address was changed. */
  ghost predicate CustomerTold(g: Gate, r: Row, e: End, h': Held, rep: Report)
    requires r.CustomerRow?
  {
    && (e == Refused(RegionNotServed) || e == Refused(SegmentDiffers) ==> rep.deeds == [])
    && (e.Done? || e == Refused(SiteElsewhere) ==> exists o :: CustomerDid(g, r, o, e, h', rep.deeds))
    && if e == Refused(SegmentDiffers) then
         exists o: nat :: OrgIs(g.held, r.ref, o) && o < |g.held.orgs| && rep.quote == SegmentQuoted(g.held.orgs[o].segment)
       else if e.Done? && e.site.Some? && (rep.deeds == [] || rep.deeds[|rep.deeds| - 1] == Readdressed) then
         && e.site.value.1 < |Of(h'.nodes, e.site.value.0)|
         && rep.quote == SiteQuoted(Of(h'.nodes, e.site.value.0)[e.site.value.1].name)
       else rep.quote == Unquoted
  }

  ghost predicate GoesLive(was: seq<Contract>, now: seq<Contract>) {
    exists i :: 0 <= i < |now| && now[i].state == Live && !(i < |was| && was[i].state == Live)
  }

  ghost function TermDeeds(on: seq<Override>): (d: seq<Deed>)
    ensures |d| == |on| && forall i :: 0 <= i < |on| ==> d[i] == TermAdded(on[i].key)
  {
    seq(|on|, i requires 0 <= i < |on| => TermAdded(on[i].key))
  }

  ghost predicate AgreementDid(h: Held, o: nat, h': Held, deeds: seq<Deed>) {
    && |Of(h.overrides, o)| <= |Of(h'.overrides, o)|
    && deeds == (if |Of(h'.contracts, o)| > |Of(h.contracts, o)| then [Drafted] else [])
                + TermDeeds(Of(h'.overrides, o)[|Of(h.overrides, o)|..])
                + (if GoesLive(Of(h.contracts, o), Of(h'.contracts, o)) then [Enacted] else [])
  }

  /** The first of the row's terms the agreement has otherwise, as it has it. */
  ghost predicate FirstOtherwise(on: seq<Override>, c: nat, terms: seq<Term>, key: Id, value: nat) {
    exists i :: 0 <= i < |terms| && terms[i].key == key && ImportMeaning.Says(on, c, key, value) && value != terms[i].value
      && !SaysOtherwise(on, c, terms[..i])
  }

  /** The customer's name, with the signing or the term that differs as they are on file. */
  ghost predicate QuotesCustomer(h: Held, r: Row, o: nat, e: End, q: Quote)
    requires r.AgreementRow? && o < |h.orgs|
  {
    var name, contracts := h.orgs[o].name, Of(h.contracts, o);
    if e == Refused(SignedDiffers) then
      exists c: nat :: MsaIs(contracts, r.effectiveFrom, c) && c < |contracts|
        && q == SigningQuoted(name, contracts[c].signedAt, contracts[c].billing)
    else if e == Refused(TermDiffers) then
      exists c: nat, key, value :: MsaIs(contracts, r.effectiveFrom, c) && FirstOtherwise(Of(h.overrides, o), c, r.terms, key, value)
        && q == TermQuoted(name, key, value)
    else q == CustomerQuoted(name)
  }

  ghost predicate AgreementTold(h: Held, r: Row, e: End, h': Held, rep: Report)
    requires r.AgreementRow?
  {
    && (e.Refused? ==> rep.deeds == [])
    && (e.Done? ==> exists o: nat :: OrgIs(h, r.customer, o) && AgreementDid(h, o, h', rep.deeds))
    && if e == Refused(NoSuchCustomer) || e == Refused(RegionNotServed) || e == Refused(NoRegion) then rep.quote == Unquoted
       else exists o: nat :: OrgIs(h, r.customer, o) && o < |h.orgs| && QuotesCustomer(h, r, o, e, rep.quote)
  }

  // ---- proofs ----

  lemma {:induction false} DeedsOf(ws: seq<Write>)
    ensures Deeds([]) == []
    ensures |ws| == 1 ==> Deeds(ws) == [DeedOf(ws[0])]
    ensures |ws| == 2 ==> Deeds(ws) == [DeedOf(ws[0]), DeedOf(ws[1])]
  {
  }

  lemma {:induction false} PlainPlan(verify: bool, g: Gate, r: Row)
    requires !r.CustomerRow?
    ensures Plan(verify, g, r) == StepsOf(verify, g.held, r).writes
  {
    hide StepsOf;
  }

  lemma {:induction false} FirmTells(verify: bool, g: Gate, r: Row)
    requires r.FirmRow? && RowOk(r)
    ensures FirmTold(g.held, r, PutAll(g.held, FirmSteps(g.held, r).writes), ReportOf(verify, g, r))
  {
    hide First, PutAll, Deeds;
    PlainPlan(verify, g, r);
    var h, s, at := g.held, FirmSteps(g.held, r), FirmAt(g.held, r.name);
    DeedsOf(s.writes);
    PutOne(h, CreateFirm(Firm(r.name, Onboarding, r.msa, r.facts)));
    if s.writes != [] {
      PutOne(h, s.writes[0]);
      if |s.writes| == 2 {
        PutTwo(h, s.writes[0], s.writes[1]);
        assert s.writes == [s.writes[0], s.writes[1]];
      } else {
        assert s.writes == [s.writes[0]];
      }
      var h' := PutAll(h, s.writes);
      if at.Some? {
        assert h'.firms[at.value].status == InService && h.firms[at.value].status == Onboarding;
      } else if r.activate {
        assert h'.firms[|h.firms|].status == InService;
      }
    }
  }

  lemma {:induction false} CrewTells(verify: bool, g: Gate, r: Row)
    requires r.CrewRow?
    ensures CrewTold(g.held, r, PutAll(g.held, CrewSteps(g.held, r).writes), ReportOf(verify, g, r))
  {
    hide First, PutAll, Deeds, FirmFor, FirmMissing, FirmKnown, FirmNamed;
    PlainPlan(verify, g, r);
    FirmFound(g.held, r.firm);
    NamedIsThere(g.held, r.firm);
    var s := CrewSteps(g.held, r);
    DeedsOf(s.writes);
    PutOne(g.held, CreateCrew(Crew(r.title, r.region, FirmNamed(g.held, r.firm), r.facts)));
  }

  lemma {:induction false} NamedIsThere(h: Held, name: Option<Name>)
    ensures forall f: Option<nat> :: FirmFor(h, name, f) && f.Some? ==> f.value < |h.firms|
  {
  }

  lemma {:induction false} TechTells(verify: bool, g: Gate, r: Row)
    requires r.TechRow?
    ensures TechTold(g.held, r, TechSteps(g.held, r).end, PutAll(g.held, TechSteps(g.held, r).writes), ReportOf(verify, g, r))
  {
    hide First, PutAll, Deeds, FirmFor, FirmMissing, FirmKnown, FirmNamed, CrewAt;
    PlainPlan(verify, g, r);
    FirmFound(g.held, r.firm);
    NamedIsThere(g.held, r.firm);
    var s := TechSteps(g.held, r);
    DeedsOf(s.writes);
    PutOne(g.held, CreateTech(Tech(r.name, None, None, 0)));
    if s.writes != [] {
      PutOne(g.held, s.writes[0]);
      assert s.writes == [s.writes[0]];
    }
  }

  // ---- credentials ----

  lemma {:induction false} CredTells(verify: bool, g: Gate, r: Row)
    requires r.CredRow?
    ensures CredTold(g.held, r, CredSteps(verify, g.held, r).end, PutAll(g.held, CredSteps(verify, g.held, r).writes),
                     ReportOf(verify, g, r))
  {
    hide First, PutAll, Deeds, FirmFor, FirmMissing, FirmKnown, FirmNamed, CrewAt, CrewIs, CredAt, CredIs, CredDeeds;
    var h := g.held;
    PlainPlan(verify, g, r);
    FirmFound(h, r.firm);
    NamedIsThere(h, r.firm);
    var f := FirmNamed(h, r.firm);
    CrewFound(h, r.holder, r.region, f);
    CrewIsThere(h, r.holder, r.region, f);
    if Serves(h, r.region) && FirmKnown(h, r.firm) && CrewAt(h, r.holder, r.region, f).Some? {
      var c := CrewAt(h, r.holder, r.region, f).value;
      CredFound(Of(h.creds, c), r);
      CredIsThere(Of(h.creds, c), r);
      if CredSteps(verify, h, r).end.Done? {
        CredDid(verify, h, r, c);
      } else {
        DeedsOf([]);
      }
    } else {
      DeedsOf([]);
    }
  }

  lemma {:induction false} CrewIsThere(h: Held, title: Name, region: Id, firm: Option<nat>)
    ensures forall c: nat :: CrewIs(h, title, region, firm, c) ==> c < |h.crews|
  {
  }

  lemma {:induction false} CredIsThere(was: seq<Cred>, r: Row)
    requires r.CredRow?
    ensures forall at: nat :: CredIs(was, r, at) ==> at < |was|
  {
  }

  lemma {:induction false} CredDid(verify: bool, h: Held, r: Row, c: nat)
    requires r.CredRow? && Serves(h, r.region) && FirmKnown(h, r.firm)
    requires CrewAt(h, r.holder, r.region, FirmNamed(h, r.firm)) == Some(c)
    requires CredSteps(verify, h, r).end.Done?
    ensures var ws := CredSteps(verify, h, r).writes;
      Deeds(ws) == CredDeeds(Of(h.creds, c), Of(PutAll(h, ws).creds, c))
  {
    hide First, PutAll, FirmKnown, FirmNamed, CrewAt, CredAt, Deeds;
    var was, ws := Of(h.creds, c), CredSteps(verify, h, r).writes;
    CredFound(was, r);
    CredIsThere(was, r);
    DeedsOf(ws);
    match CredAt(was, r.kind, r.identifier)
    case Some(at) =>
      if ws == [] {
        PutOne(h, VerifyCred(c, at));
      } else {
        PutVerify(h, c, at);
        assert Of(PutAll(h, ws).creds, c)[at].verified;
      }
    case None =>
      var cred := Cred(r.kind, r.identifier, r.validFrom, r.validTo, r.facts, false);
      PutCred(h, c, cred);
      if verify {
        assert ws == [RecordCred(c, cred)] + [VerifyCred(c, |was|)];
        PutAllAppend(h, [RecordCred(c, cred)], [VerifyCred(c, |was|)]);
        PutVerify(PutAll(h, [RecordCred(c, cred)]), c, |was|);
        assert Of(PutAll(h, ws).creds, c)[|was|].verified;
      } else {
        assert ws == [RecordCred(c, cred)];
      }
  }

  // ---- customers ----

  lemma {:induction false} DeedsAppend(a: seq<Write>, b: seq<Write>)
    ensures Deeds(a + b) == Deeds(a) + Deeds(b)
  {
  }

  lemma {:induction false} NodeWriteDeeds(ws: seq<Write>, org: nat)
    requires OnlyNodes(ws, org)
    ensures Deeds(ws) == NodeDeeds(NodesOf(ws))
  {
    forall i | 0 <= i < |ws| ensures Deeds(ws)[i] == NodeDeeds(NodesOf(ws))[i] {
      assert ws[i] in ws;
    }
  }

  /** A customer row makes its site in its last write, or comes to one that was there, or is refused. */
  lemma {:induction false} TreeMakesSite(org: nat, was: seq<Node>, r: Row)
    requires r.CustomerRow?
    ensures var s := TreeSteps(org, was, r);
      && (s.end.Done? ==> s.end.site.Some? && s.end.site.value.0 == org)
      && (s.end.Done? ==> (MakesSite(s) <==> s.end.site.value.1 >= |was|))
  {
    hide First;
    var reg := Place(org, was, IsRegion(r.region), RegionNode(r));
    var n := Node(LocationTier, r.location, Some(reg.at), r.region, None, true);
    var loc := Place(org, reg.nodes, IsLocation(reg.at, r.location.key), n);
    var p := IsSite(r.siteRef, loc.at, r.site.key);
    assert forall x :: p(x) ==> x.tier == SiteTier;
    assert forall i :: |was| <= i < |loc.nodes| ==> loc.nodes[i].tier != SiteTier;
    var last := SiteSteps(org, loc.nodes, loc.at, r);
    assert TreeSteps(org, was, r) == Then(reg.writes, Then(loc.writes, last));
    if First(p, loc.nodes).None? {
      assert TreeSteps(org, was, r).writes == (reg.writes + loc.writes) + last.writes;
    } else {
      assert TreeSteps(org, was, r).writes == reg.writes + loc.writes;
      assert forall w :: w in reg.writes + loc.writes ==> w in reg.writes || w in loc.writes;
      assert forall w :: w in reg.writes + loc.writes ==> !(w.CreateNode? && w.address.Some?);
    }
  }

  lemma {:induction false} AddressWrites(g: Gate, s: Steps, r: Row)
    requires r.CustomerRow?
    requires s.end.Done? && s.end.site.Some? ==> (MakesSite(s) <==> s.end.site.value.1 >= |Of(g.held.nodes, s.end.site.value.0)|)
    ensures var ws := AddressWrite(g.addresses, s, r);
      && Deeds(ws) == (if Readdresses(g, r, s.end) then [Readdressed] else [])
      && (ws != [] ==> ws[0].SetAddress?) && |ws| <= 1
  {
    hide MakesSite;
    DeedsOf(AddressWrite(g.addresses, s, r));
    if s.end.Done? && s.end.site.Some? {
      var had := AddressOf(g.addresses, s.end.site.value);
      assert forall f :: f in r.address ==>
          (FieldAt(g.addresses, s.end.site.value, f) != Some(r.address[f]) <==> !(f in had && had[f] == r.address[f]));
    }
  }

  lemma {:induction false} KnownCompanyDid(verify: bool, g: Gate, r: Row, o: nat)
    requires r.CustomerRow? && r.segment == Commercial && OrgIs(g.held, r.ref, o)
    requires StepsOf(verify, g.held, r) == TreeSteps(o, Of(g.held.nodes, o), r)
    ensures var s := StepsOf(verify, g.held, r);
      CustomerDid(g, r, o, s.end, PutAll(g.held, s.writes), Deeds(Plan(verify, g, r)))
  {
    hide StepsOf, TreeSteps, AddressWrite, MakesSite, OrgIs, OnlyNodes, PutAll, TreeMeans, ComesTo, Readdresses, Deeds, NodesOf, NodeDeeds;
    var was, s := Of(g.held.nodes, o), StepsOf(verify, g.held, r);
    TreeMakesSite(o, was, r);
    AddressWrites(g, s, r);
    var reg, loc, site := TreeIsMeant(o, was, r);
    PutNodes(g.held, o, s.writes);
    NodeWriteDeeds(s.writes, o);
    DeedsAppend(s.writes, AddressWrite(g.addresses, s, r));
    assert (was + NodesOf(s.writes))[|was|..] == NodesOf(s.writes);
    assert forall d: seq<Deed> :: [] + d == d;
  }

  lemma {:induction false} NewCompanyDid(verify: bool, g: Gate, r: Row)
    requires r.CustomerRow? && r.segment == Commercial && WellHeld(g.held)
    requires StepsOf(verify, g.held, r)
          == Then([CreateOrg(Org(Some(r.ref), r.name, Some(r.segment)), RegionNode(r))], TreeSteps(|g.held.orgs|, [RegionNode(r)], r))
    ensures var s := StepsOf(verify, g.held, r);
      CustomerDid(g, r, |g.held.orgs|, s.end, PutAll(g.held, s.writes), Deeds(Plan(verify, g, r)))
  {
    hide StepsOf, TreeSteps, AddressWrite, OnlyNodes, PutAll, TreeMeans, ComesTo, Readdresses, Deeds, NodesOf, NodeDeeds;
    var h, o := g.held, |g.held.orgs|;
    var w := CreateOrg(Org(Some(r.ref), r.name, Some(r.segment)), RegionNode(r));
    var s, tree := StepsOf(verify, h, r), TreeSteps(o, [RegionNode(r)], r);
    TreeMakesSite(o, [RegionNode(r)], r);
    var reg, loc, site := TreeIsMeant(o, [RegionNode(r)], r);
    SiteIsNew(r, reg, loc, site, o, tree.end, [RegionNode(r)] + NodesOf(tree.writes));
    assert Of(h.nodes, o) == [];
    LastWriteIsTheTrees([w], tree);
    AddressWrites(g, s, r);
    PutAllAppend(h, [w], tree.writes);
    PutOne(h, w);
    PutNodes(Put(h, w), o, tree.writes);
    NodeWriteDeeds(tree.writes, o);
    DeedsOf([w]);
    DeedsAppend([w], tree.writes);
    DeedsAppend(s.writes, AddressWrite(g.addresses, s, r));
    var now := Of(PutAll(h, s.writes).nodes, o);
    assert now == [RegionNode(r)] + NodesOf(tree.writes);
    assert now[1..] == NodesOf(tree.writes);
  }

  lemma {:induction false} LastWriteIsTheTrees(ws: seq<Write>, tree: Steps)
    requires forall w :: w in ws ==> !w.CreateNode?
    ensures MakesSite(Then(ws, tree)) <==> MakesSite(tree)
  {
    if tree.writes == [] {
      assert ws + tree.writes == ws;
      assert ws != [] ==> ws[|ws| - 1] in ws;
    }
  }

  lemma {:induction false} SiteIsNew(r: Row, reg: nat, loc: nat, site: nat, o: nat, e: End, now: seq<Node>)
    requires r.CustomerRow? && TreeMeans([RegionNode(r)], r, reg, loc, site, now) && ComesTo(now, o, loc, site, e)
    ensures site >= 1 && (e.Done? ==> e.site == Some((o, site)))
  {
    hide RegionIs, LocationIs;
    assert now[0] == RegionNode(r);
  }

  lemma {:induction false} NoAddress(verify: bool, g: Gate, r: Row)
    ensures var s := StepsOf(verify, g.held, r);
      s.end.Refused? || s.end.site.None? ==> Plan(verify, g, r) == s.writes
  {
    hide StepsOf;
  }

  lemma {:induction false} CustomerDeeds(verify: bool, g: Gate, r: Row)
    requires r.CustomerRow? && WellKept(g)
    ensures var s := CustomerSteps(g.held, r);
      var h', deeds := PutAll(g.held, s.writes), Deeds(Plan(verify, g, r));
      && (s.end in {Refused(RegionNotServed), Refused(SegmentDiffers)} ==> deeds == [])
      && (s.end.Done? || s.end == Refused(SiteElsewhere) ==> exists o :: CustomerDid(g, r, o, s.end, h', deeds))
  {
    hide First, Last, TreeSteps, PutAll, Deeds, OrgAt, OrgIs, NoOrg, CustomerDid, WellHeld;
    OrgFound(g.held, r.ref);
    DeedsOf([]);
    NoAddress(verify, g, r);
    var at := OrgAt(g.held.orgs, r.ref);
    if Serves(g.held, r.region) {
      if at.Some? && (g.held.orgs[at.value].segment.None? || g.held.orgs[at.value].segment == Some(r.segment)) {
        if r.segment == Commercial {
          KnownCompanyDid(verify, g, r, at.value);
          TreeEnds(at.value, Of(g.held.nodes, at.value), r);
        } else {
          KnownHouseholdDid(g, r, at.value);
          PutOne(g.held, CreateHousehold(Org(Some(r.ref), r.name, Some(r.segment))));
        }
      } else if at.None? {
        if r.segment == Commercial {
          NewCompanyDid(verify, g, r);
          TreeEnds(|g.held.orgs|, [RegionNode(r)], r);
        } else {
          NewHouseholdDid(g, r);
          PutOne(g.held, CreateHousehold(Org(Some(r.ref), r.name, Some(r.segment))));
          DeedsOf([CreateHousehold(Org(Some(r.ref), r.name, Some(r.segment)))]);
        }
      }
    }
  }

  lemma {:induction false} KnownHouseholdDid(g: Gate, r: Row, o: nat)
    requires r.CustomerRow? && r.segment == Residential && OrgIs(g.held, r.ref, o)
    ensures CustomerDid(g, r, o, Done(None), g.held, [])
  {
    hide OrgIs;
    assert Of(g.held.nodes, o)[|Of(g.held.nodes, o)|..] == [];
  }

  lemma {:induction false} NewHouseholdDid(g: Gate, r: Row)
    requires r.CustomerRow? && r.segment == Residential
    ensures CustomerDid(g, r, |g.held.orgs|, Done(None), Put(g.held, CreateHousehold(Org(Some(r.ref), r.name, Some(r.segment)))), [Made(r.name)])
  {
    var o := |g.held.orgs|;
    assert Of(g.held.nodes, o)[|Of(g.held.nodes, o)|..] == [];
  }

  lemma {:induction false} LastDeed(ws: seq<Write>)
    ensures Deeds(ws) == [] <==> ws == []
    ensures ws != [] ==> (Deeds(ws)[|ws| - 1] == Readdressed <==> ws[|ws| - 1].SetAddress?)
  {
  }

  lemma {:induction false} CustomerQuotes(verify: bool, g: Gate, r: Row)
    requires r.CustomerRow? && RowOk(r) && WellKept(g)
    ensures var s, plan, q := CustomerSteps(g.held, r), Plan(verify, g, r), CustomerQuote(verify, g, r);
      var h' := PutAll(g.held, s.writes);
      if s.end == Refused(SegmentDiffers) then
        var at := OrgAt(g.held.orgs, r.ref); q == if at.Some? then SegmentQuoted(g.held.orgs[at.value].segment) else Unquoted
      else if s.end.Done? && s.end.site.Some? && (plan == [] || plan[|plan| - 1].SetAddress?) then
        && s.end.site.value.1 < |Of(h'.nodes, s.end.site.value.0)|
        && q == SiteQuoted(Of(h'.nodes, s.end.site.value.0)[s.end.site.value.1].name)
      else q == Unquoted
  {
    hide CustomerSteps, PutAll, OrgAt, WellHeld, Plan, After;
    var s := CustomerSteps(g.held, r);
    RowEffect(verify, g, r);
    if s.end.Done? && s.end.site.Some? {
      RowSettles(verify, g.held, r);
      SettledSiteIsThere(verify, PutAll(g.held, s.writes), r);
    }
  }

  lemma {:induction false} OtherSegmentOf(h: Held, r: Row)
    requires r.CustomerRow? && CustomerSteps(h, r).end == Refused(SegmentDiffers)
    ensures OrgAt(h.orgs, r.ref).Some?
  {
    hide Last, TreeSteps;
    if OrgAt(h.orgs, r.ref).None? {
      TreeEnds(|h.orgs|, [RegionNode(r)], r);
    }
  }

  lemma {:induction false} CustomerTells(verify: bool, g: Gate, r: Row)
    requires r.CustomerRow? && RowOk(r) && WellKept(g)
    ensures CustomerTold(g, r, CustomerSteps(g.held, r).end, PutAll(g.held, CustomerSteps(g.held, r).writes), ReportOf(verify, g, r))
  {
    hide CustomerSteps, PutAll, Deeds, OrgAt, OrgIs, CustomerDid, WellKept, Plan, CustomerQuote;
    CustomerDeeds(verify, g, r);
    LastDeed(Plan(verify, g, r));
    CustomerQuotes(verify, g, r);
    OrgFound(g.held, r.ref);
    if CustomerSteps(g.held, r).end == Refused(SegmentDiffers) {
      OtherSegmentOf(g.held, r);
    }
  }

  // ---- agreements ----

  lemma {:induction false} TermWriteDeeds(ws: seq<Write>, org: nat)
    requires OnlyTerms(ws, org)
    ensures Deeds(ws) == TermDeeds(TermsOf(ws))
  {
    forall i | 0 <= i < |ws| ensures Deeds(ws)[i] == TermDeeds(TermsOf(ws))[i] {
      assert ws[i] in ws;
    }
  }

  lemma {:induction false} KnownAgreementDid(h: Held, r: Row, o: nat, region: Id, c: nat)
    requires r.AgreementRow? && RowOk(r) && MsaIs(Of(h.contracts, o), r.effectiveFrom, c)
    requires OnAgreement(o, Of(h.contracts, o), Of(h.overrides, o), region, r).end.Done?
    ensures var s := OnAgreement(o, Of(h.contracts, o), Of(h.overrides, o), region, r);
      AgreementDid(h, o, PutAll(h, s.writes), Deeds(s.writes))
  {
    hide First, PutAll, TermSteps, MsaIs, NoMsa, Conflicts, Deeds, TermDeeds, TermsOf;
    var was, on := Of(h.contracts, o), Of(h.overrides, o);
    MsaFound(was, r.effectiveFrom);
    var s, ws := OnAgreement(o, was, on, region, r), TermSteps(o, c, on, r.terms);
    PutTerms(h, o, ws);
    TermWriteDeeds(ws, o);
    var h1 := PutAll(h, ws);
    var last := if r.activate && was[c].state == Draft then [ActivateContract(o, c)] else [];
    assert s.writes == ws + last;
    PutAllAppend(h, ws, last);
    DeedsAppend(ws, last);
    DeedsOf(last);
    PutOne(h1, ActivateContract(o, c));
    if last != [] {
      PutActivation(h1, o, c);
      assert Of(PutAll(h, s.writes).contracts, o)[c].state == Live;
    }
    assert (on + TermsOf(ws))[|on|..] == TermsOf(ws);
    assert [] + TermDeeds(TermsOf(ws)) == TermDeeds(TermsOf(ws));
  }

  lemma {:induction false} NewAgreementDeeds(o: nat, k: Contract, ws: seq<Write>, last: seq<Write>)
    requires OnlyTerms(ws, o) && |last| <= 1
    ensures Deeds([CreateContract(o, k)] + ws + last)
         == [Drafted] + TermDeeds(TermsOf(ws)) + if last == [] then [] else [DeedOf(last[0])]
  {
    hide Deeds, TermDeeds, TermsOf;
    TermWriteDeeds(ws, o);
    DeedsAppend([CreateContract(o, k)] + ws, last);
    DeedsAppend([CreateContract(o, k)], ws);
    DeedsOf([CreateContract(o, k)]);
    DeedsOf(last);
  }

  lemma {:induction false} NewAgreementDid(h: Held, r: Row, o: nat, region: Id)
    requires r.AgreementRow? && RowOk(r) && NoMsa(Of(h.contracts, o), r.effectiveFrom)
    ensures var s := OnAgreement(o, Of(h.contracts, o), Of(h.overrides, o), region, r);
      AgreementDid(h, o, PutAll(h, s.writes), Deeds(s.writes))
  {
    hide First, PutAll, TermSteps, MsaIs, NoMsa, Conflicts, Deeds, TermDeeds, TermsOf, Put;
    var was, on := Of(h.contracts, o), Of(h.overrides, o);
    MsaFound(was, r.effectiveFrom);
    var c, k := |was|, Contract(true, r.effectiveFrom, r.effectiveTo, r.signedAt, r.billing, region, Draft);
    var s, ws := OnAgreement(o, was, on, region, r), TermSteps(o, c, on, r.terms);
    var last := if r.activate then [ActivateContract(o, c)] else [];
    assert s.writes == [CreateContract(o, k)] + ws + last;
    NewAgreementDeeds(o, k, ws, last);
    NewAgreementPut(h, o, k, ws);
    var h2, h' := PutAll(h, [CreateContract(o, k)] + ws), PutAll(h, s.writes);
    PutAllAppend(h, [CreateContract(o, k)] + ws, last);
    PutOne(h2, ActivateContract(o, c));
    if r.activate {
      PutActivation(h2, o, c);
      assert Of(h'.contracts, o)[c].state == Live;
    }
    assert (on + TermsOf(ws))[|on|..] == TermsOf(ws);
  }

  lemma {:induction false} NewAgreementPut(h: Held, o: nat, k: Contract, ws: seq<Write>)
    requires OnlyTerms(ws, o)
    ensures var h' := PutAll(h, [CreateContract(o, k)] + ws);
      Of(h'.contracts, o) == Of(h.contracts, o) + [k] && Of(h'.overrides, o) == Of(h.overrides, o) + TermsOf(ws)
  {
    hide PutAll, TermsOf;
    PutContract(h, o, k);
    PutTerms(PutAll(h, [CreateContract(o, k)]), o, ws);
    PutAllAppend(h, [CreateContract(o, k)], ws);
  }

  lemma {:induction false} ConflictFound(on: seq<Override>, c: nat, terms: seq<Term>)
    ensures Conflicts(on, c, terms) <==> First(IsConflict(on, c), terms).Some?
  {
    hide First, OnFile;
    var p := IsConflict(on, c);
    var at := First(p, terms);
    if at.Some? {
      assert p(terms[at.value]) && terms[at.value] in terms;
    } else {
      forall t | t in terms ensures !p(t) {
        var i :| 0 <= i < |terms| && terms[i] == t;
        assert !p(terms[i]);
      }
    }
  }

  lemma {:induction false} FirstConflict(on: seq<Override>, c: nat, terms: seq<Term>)
    requires SaysOtherwise(on, c, terms)
    ensures var i := First(IsConflict(on, c), terms);
      && i.Some? && OnFile(on, c, terms[i.value].key).Some?
      && FirstOtherwise(on, c, terms, terms[i.value].key, on[OnFile(on, c, terms[i.value].key).value].value)
  {
    hide First, ImportMeaning.Says, OnFile;
    ConflictsAre(on, c, terms);
    ConflictFound(on, c, terms);
    var p := IsConflict(on, c);
    var i := First(p, terms).value;
    assert p(terms[i]);
    TermFound(on, c, terms[i].key);
    forall t | t in terms[..i] ensures !p(t) {
      var j :| 0 <= j < i && terms[j] == t;
    }
    ConflictsAre(on, c, terms[..i]);
  }

  lemma {:induction false} PapersTell(h: Held, r: Row, o: nat, region: Id, name: Name)
    requires r.AgreementRow? && RowOk(r) && o < |h.orgs| && h.orgs[o].name == name
    ensures var s := OnAgreement(o, Of(h.contracts, o), Of(h.overrides, o), region, r);
      && (s.end.Refused? ==> s.writes == [] && s.end.why in {SignedDiffers, TermDiffers})
      && (s.end.Done? ==> AgreementDid(h, o, PutAll(h, s.writes), Deeds(s.writes)))
      && QuotesCustomer(h, r, o, s.end, ContractQuote(name, Of(h.contracts, o), Of(h.overrides, o), r))
  {
    hide First, PutAll, TermSteps, Conflicts, Deeds, MsaIs, NoMsa, AgreementDid, SaysOtherwise, FirstOtherwise, IsConflict;
    var was, on := Of(h.contracts, o), Of(h.overrides, o);
    MsaFound(was, r.effectiveFrom);
    var s, at := OnAgreement(o, was, on, region, r), First(IsMsa(r.effectiveFrom), was);
    if at.Some? {
      ConflictsAre(on, at.value, r.terms);
      ConflictFound(on, at.value, r.terms);
      if s.end.Done? {
        KnownAgreementDid(h, r, o, region, at.value);
      } else if s.end == Refused(TermDiffers) {
        FirstConflict(on, at.value, r.terms);
      }
    } else {
      NewAgreementDid(h, r, o, region);
    }
  }

  lemma {:induction false} AgreementTells(verify: bool, g: Gate, r: Row)
    requires r.AgreementRow? && RowOk(r)
    ensures AgreementTold(g.held, r, AgreementSteps(g.held, r).end, PutAll(g.held, AgreementSteps(g.held, r).writes), ReportOf(verify, g, r))
  {
    hide First, Last, PutAll, Deeds, OrgAt, OrgIs, ServedFrom, OnAgreement, AgreementDid, QuotesCustomer, ContractQuote;
    var h, at := g.held, OrgAt(g.held.orgs, r.customer);
    PlainPlan(verify, g, r);
    OrgFound(h, r.customer);
    GivenRegion(h, if at.Some? then at.value else 0, r);
    DeedsOf([]);
    if at.Some? {
      var o := at.value;
      var from := ServedFrom(h, o, r);
      if h.orgs[o].segment == Some(Residential) {
        HouseholdQuoted(h, r, o);
      } else if from.Some? && Served(h, from.value) {
        PapersTell(h, r, o, from.value, h.orgs[o].name);
      }
    }
  }

  lemma {:induction false} HouseholdQuoted(h: Held, r: Row, o: nat)
    requires r.AgreementRow? && o < |h.orgs|
    ensures QuotesCustomer(h, r, o, Refused(IsHousehold), CustomerQuoted(h.orgs[o].name))
  {
  }

  // ---- any row ----

  ghost predicate Told(verify: bool, g: Gate, r: Row, e: End, h': Held, rep: Report) {
    match r
    case FirmRow(_, _, _, _, _) => FirmTold(g.held, r, h', rep)
    case CrewRow(_, _, _, _) => CrewTold(g.held, r, h', rep)
    case TechRow(_, _, _, _, _) => TechTold(g.held, r, e, h', rep)
    case CredRow(_, _, _, _, _, _, _, _) => CredTold(g.held, r, e, h', rep)
    case CustomerRow(_, _, _, _, _, _, _, _, _) => CustomerTold(g, r, e, h', rep)
    case AgreementRow(_, _, _, _, _, _, _, _) => AgreementTold(g.held, r, e, h', rep)
    case Unreadable(_) => rep.deeds == [] && rep.quote == Unquoted
  }

  /** Some table but the terms' has more in it. */
  ghost predicate Grew(h: Held, h': Held) {
    exists s: S.Spot :: S.In(h', s) && !S.In(h, s) && !s.TermSpot?
  }

  /** Rejected exactly if refused, and then with the reason; skipped exactly if nothing at all changed; created exactly
      if a table grew, updated otherwise. */
  ghost predicate OutcomeMeans(g: Gate, e: End, g': Gate, rep: Report) {
    && rep.why == (if e.Refused? then Some(e.why) else None)
    && match rep.outcome
       case Rejected => e.Refused?
       case Skipped => e.Done? && g' == g
       case Created => e.Done? && Grew(g.held, g'.held)
       case Updated => e.Done? && g' != g && !Grew(g.held, g'.held)
  }

  lemma {:induction false} RowTells(verify: bool, g: Gate, r: Row)
    requires RowOk(r) && WellKept(g)
    ensures Told(verify, g, r, StepsOf(verify, g.held, r).end, After(verify, g, r).held, ReportOf(verify, g, r))
  {
    hide FirmSteps, CrewSteps, TechSteps, CredSteps, CustomerSteps, AgreementSteps, PutAll, After, WellHeld, Plan, Deeds;
    hide FirmTold, CrewTold, TechTold, CredTold, CustomerTold, AgreementTold;
    RowEffect(verify, g, r);
    match r
    case FirmRow(_, _, _, _, _) => FirmTells(verify, g, r);
    case CrewRow(_, _, _, _) => CrewTells(verify, g, r);
    case TechRow(_, _, _, _, _) => TechTells(verify, g, r);
    case CredRow(_, _, _, _, _, _, _, _) => CredTells(verify, g, r);
    case CustomerRow(_, _, _, _, _, _, _, _, _) => CustomerTells(verify, g, r);
    case AgreementRow(_, _, _, _, _, _, _, _) => AgreementTells(verify, g, r);
    case Unreadable(_) =>
      NoAddress(verify, g, r);
      DeedsOf([]);
  }

  predicate Making(d: Deed) {
    d.Made? || d.MadeNode? || d.Recorded? || d.Drafted?
  }

  /** The first deed tells: nothing grew unless it made something, and something changed if there is one. */
  ghost predicate FirstDeedTells(g: Gate, g': Gate, deeds: seq<Deed>) {
    && (deeds != [] && Making(deeds[0]) ==> Grew(g.held, g'.held))
    && (deeds != [] && !Making(deeds[0]) ==> !Grew(g.held, g'.held) && g' != g)
  }

  lemma {:induction false} FirmDeedTells(verify: bool, g: Gate, r: Row, e: End, g': Gate, rep: Report)
    requires r.FirmRow? && FirmMeans(g.held, r, e, g'.held) && FirmTold(g.held, r, g'.held, rep)
    ensures FirstDeedTells(g, g', rep.deeds)
  {
    hide FirmIs, NoFirm;
    if |g'.held.firms| > |g.held.firms| {
      assert S.In(g'.held, S.FirmSpot(|g.held.firms|));
    }
  }

  lemma {:induction false} CrewDeedTells(verify: bool, g: Gate, r: Row, e: End, g': Gate, rep: Report)
    requires r.CrewRow? && CrewTold(g.held, r, g'.held, rep)
    ensures FirstDeedTells(g, g', rep.deeds)
  {
    if |g'.held.crews| > |g.held.crews| {
      assert S.In(g'.held, S.CrewSpot(|g.held.crews|));
    }
  }

  lemma {:induction false} TechDeedTells(verify: bool, g: Gate, r: Row, e: End, g': Gate, rep: Report)
    requires r.TechRow? && TechTold(g.held, r, e, g'.held, rep)
    ensures FirstDeedTells(g, g', rep.deeds)
  {
    if |g'.held.techs| > |g.held.techs| {
      assert S.In(g'.held, S.TechSpot(|g.held.techs|));
    }
  }

  lemma {:induction false} OneCrewFor(h: Held, r: Row, f: Option<nat>, c: nat, f': Option<nat>, c': nat)
    requires r.CredRow? && FirmFor(h, r.firm, f) && FirmFor(h, r.firm, f')
    requires CrewIs(h, r.holder, r.region, f, c) && CrewIs(h, r.holder, r.region, f', c')
    ensures c == c'
  {
    OneFirm(h, r.firm, f, f');
  }

  lemma {:induction false} CredDeedTells(verify: bool, g: Gate, r: Row, e: End, g': Gate, rep: Report)
    requires r.CredRow? && CredMeans(verify, g.held, r, e, g'.held) && CredTold(g.held, r, e, g'.held, rep)
    ensures FirstDeedTells(g, g', rep.deeds)
  {
    hide FirmFor, CrewIs, OtherDates, NoCred, QuotesCrew, QuotesFirm, FirmMissing, NoCrew;
    if e.Done? {
      var h, h' := g.held, g'.held;
      var f, c: nat :| FirmFor(h, r.firm, f) && CrewIs(h, r.holder, r.region, f, c) && CredLands(verify, h, r, c, h');
      var f1, c1: nat :| FirmFor(h, r.firm, f1) && CrewIs(h, r.holder, r.region, f1, c1)
        && rep.deeds == CredDeeds(Of(h.creds, c1), Of(h'.creds, c1));
      OneCrewFor(h, r, f, c, f1, c1);
      if |Of(h'.creds, c)| > |Of(h.creds, c)| {
        assert S.In(h', S.CredSpot(c, |Of(h.creds, c)|));
      }
    }
  }

  lemma {:induction false} CustomerDeedTells(verify: bool, g: Gate, r: Row, e: End, g': Gate, rep: Report)
    requires r.CustomerRow? && CustomerMeans(g.held, r, e, g'.held) && CustomerTold(g, r, e, g'.held, rep) && WellHeld(g.held)
    requires Addressed(g.addresses, r, e, g'.addresses)
    ensures FirstDeedTells(g, g', rep.deeds)
  {
    hide OtherSegment, CustomerMet, CustomerMade, Readdresses, OrgIs, Addressed, CustomerDid, WellHeld, Grew, Serves;
    var h, h' := g.held, g'.held;
    if rep.deeds != [] {
      var o :| CustomerDid(g, r, o, e, h', rep.deeds);
      CustomerDidTells(g, r, o, e, h', rep.deeds);
      if |h'.orgs| <= |h.orgs| && |Of(h'.nodes, o)| <= |Of(h.nodes, o)| {
        CustomerDidOrg(g, r, o, e, h', rep.deeds);
        NothingGrew(h, r, e, o, h');
        Readdressing(g, r, e, g'.addresses);
      }
    }
  }

  lemma {:induction false} CustomerDidOrg(g: Gate, r: Row, o: nat, e: End, h': Held, deeds: seq<Deed>)
    requires r.CustomerRow? && CustomerDid(g, r, o, e, h', deeds) && |h'.orgs| <= |g.held.orgs|
    ensures OrgIs(g.held, r.ref, o)
  {
  }

  lemma {:induction false} CustomerDidTells(g: Gate, r: Row, o: nat, e: End, h': Held, deeds: seq<Deed>)
    requires r.CustomerRow? && CustomerDid(g, r, o, e, h', deeds) && deeds != []
    ensures |h'.orgs| > |g.held.orgs| ==> Making(deeds[0]) && Grew(g.held, h')
    ensures |h'.orgs| <= |g.held.orgs| && |Of(h'.nodes, o)| > |Of(g.held.nodes, o)| ==> Making(deeds[0]) && Grew(g.held, h')
    ensures |h'.orgs| <= |g.held.orgs| && |Of(h'.nodes, o)| <= |Of(g.held.nodes, o)| ==>
              Readdresses(g, r, e) && !Making(deeds[0])
  {
    hide OrgIs, Readdresses;
    var h := g.held;
    if |h'.orgs| > |h.orgs| {
      assert S.In(h', S.OrgSpot(|h.orgs|));
    } else if |Of(h'.nodes, o)| > |Of(h.nodes, o)| {
      assert S.In(h', S.NodeSpot(o, |Of(h.nodes, o)|));
    }
  }

  lemma {:induction false} Readdressing(g: Gate, r: Row, e: End, a': map<Site, Address>)
    requires r.CustomerRow? && Readdresses(g, r, e) && Addressed(g.addresses, r, e, a')
    ensures a' != g.addresses
  {
    var f :| f in r.address && FieldAt(g.addresses, e.site.value, f) != Some(r.address[f]);
    assert FieldAt(a', e.site.value, f) == Some(r.address[f]);
  }

  lemma {:induction false} NothingGrew(h: Held, r: Row, e: End, o: nat, h': Held)
    requires r.CustomerRow? && CustomerMeans(h, r, e, h') && (e.Done? || e.why == SiteElsewhere)
    requires OrgIs(h, r.ref, o) && |Of(h'.nodes, o)| <= |Of(h.nodes, o)|
    ensures !Grew(h, h')
  {
    hide OtherSegment, TreeMeans, ComesTo;
  }

  /** The same of the tables alone. */
  ghost predicate DeedTells(h: Held, h': Held, deeds: seq<Deed>) {
    && (deeds != [] && Making(deeds[0]) ==> Grew(h, h'))
    && (deeds != [] && !Making(deeds[0]) ==> !Grew(h, h') && h' != h)
  }

  lemma {:induction false} PapersTellDeeds(h: Held, o: nat, h': Held, deeds: seq<Deed>)
    requires OnlyPapersOf(h, o, h') && AgreementDid(h, o, h', deeds)
    ensures DeedTells(h, h', deeds)
  {
    if |Of(h'.contracts, o)| > |Of(h.contracts, o)| {
      assert S.In(h', S.ContractSpot(o, |Of(h.contracts, o)|));
    } else {
      PapersGrewNothing(h, o, h');
    }
  }

  lemma {:induction false} PapersGrewNothing(h: Held, o: nat, h': Held)
    requires OnlyPapersOf(h, o, h') && |Of(h'.contracts, o)| <= |Of(h.contracts, o)|
    ensures !Grew(h, h')
  {
  }

  lemma {:induction false} AgreementDeedTells(verify: bool, g: Gate, r: Row, e: End, g': Gate, rep: Report)
    requires r.AgreementRow? && AgreementMeans(g.held, r, e, g'.held) && AgreementTold(g.held, r, e, g'.held, rep)
    ensures FirstDeedTells(g, g', rep.deeds)
  {
    hide NoOrg, OrgIs, ServedAs, SignedOtherwise, TermsOtherwise, ContractLands, Missing, QuotesCustomer, AgreementDid, OnlyPapersOf;
    hide Grew;
    if e.Done? {
      var h, h' := g.held, g'.held;
      var o: nat, region: Id :| Party(h, r, o, region) && AgreementLands(h, r, o, region, h');
      var o1: nat :| OrgIs(h, r.customer, o1) && AgreementDid(h, o1, h', rep.deeds);
      OneOrg(h, r.customer, o, o1);
      PapersTellDeeds(h, o, h', rep.deeds);
    }
  }

  lemma {:induction false} OneOrg(h: Held, ref: Id, o: nat, o': nat)
    requires OrgIs(h, ref, o) && OrgIs(h, ref, o')
    ensures o == o'
  {
  }

  lemma {:induction false} RowOutcome(verify: bool, g: Gate, r: Row)
    requires RowOk(r) && WellKept(g)
    ensures OutcomeMeans(g, StepsOf(verify, g.held, r).end, After(verify, g, r), ReportOf(verify, g, r))
  {
    hide StepsOf, WellHeld, FirstDeedTells, FirmMeans, CrewMeans, TechMeans, CredMeans, CustomerMeans, AgreementMeans;
    hide FirmTold, CrewTold, TechTold, CredTold, CustomerTold, AgreementTold, Plan, QuoteOf, Addressed;
    RowTells(verify, g, r);
    RowIsMeant(verify, g, r);
    var e, g', rep := StepsOf(verify, g.held, r).end, After(verify, g, r), ReportOf(verify, g, r);
    match r {
      case FirmRow(_, _, _, _, _) => FirmDeedTells(verify, g, r, e, g', rep);
      case CrewRow(_, _, _, _) => CrewDeedTells(verify, g, r, e, g', rep);
      case TechRow(_, _, _, _, _) => TechDeedTells(verify, g, r, e, g', rep);
      case CredRow(_, _, _, _, _, _, _, _) => CredDeedTells(verify, g, r, e, g', rep);
      case CustomerRow(_, _, _, _, _, _, _, _, _) => CustomerDeedTells(verify, g, r, e, g', rep);
      case AgreementRow(_, _, _, _, _, _, _, _) => AgreementDeedTells(verify, g, r, e, g', rep);
      case Unreadable(_) => NothingDone(g, g', rep.deeds);
    }
    FirstDeed(g, g', Plan(verify, g, r));
  }

  lemma {:induction false} NothingDone(g: Gate, g': Gate, deeds: seq<Deed>)
    requires deeds == []
    ensures FirstDeedTells(g, g', deeds)
  {
  }

  lemma {:induction false} FirstDeed(g: Gate, g': Gate, ws: seq<Write>)
    requires FirstDeedTells(g, g', Deeds(ws)) && g' == ApplyAll(g, ws)
    ensures ws == [] ==> g' == g
    ensures ws != [] ==> if Makes(ws[0]) then Grew(g.held, g'.held) else !Grew(g.held, g'.held) && g' != g
  {
    hide Apply, Grew;
  }

  /** What a row reports is what it did. */
  lemma {:induction false} RowReports(verify: bool, g: Gate, r: Row)
    requires RowOk(r) && WellKept(g)
    ensures var e, g', rep := StepsOf(verify, g.held, r).end, After(verify, g, r), ReportOf(verify, g, r);
      Told(verify, g, r, e, g'.held, rep) && OutcomeMeans(g, e, g', rep)
  {
    hide *;
    RowTells(verify, g, r);
    RowOutcome(verify, g, r);
  }

  lemma {:induction false} ReportAt(verify: bool, g: Gate, rs: seq<Row>, t: nat)
    requires t < |rs|
    ensures |Reports(verify, g, rs)| == |rs|
    ensures Reports(verify, g, rs)[t] == ReportOf(verify, Import(verify, g, rs[..t]), rs[t])
    ensures Import(verify, g, rs[..t + 1]) == After(verify, Import(verify, g, rs[..t]), rs[t])
    decreases rs
  {
    hide ReportOf, After;
    ReportsCount(verify, g, rs);
    if t == 0 {
      assert rs[..0] == [] && rs[..1][1..] == [] && rs[..1][0] == rs[0];
    } else {
      ReportAt(verify, After(verify, g, rs[0]), rs[1..], t - 1);
      assert rs[..t][1..] == rs[1..][..t - 1] && rs[..t + 1][1..] == rs[1..][..t];
    }
  }

  /** An import's reports are its rows', in order, each on what the rows before it left. */
  lemma {:induction false} EveryRowReports(verify: bool, g: Gate, rs: seq<Row>, t: nat)
    requires RowsOk(rs) && WellKept(g) && t < |rs|
    ensures |Reports(verify, g, rs)| == |rs|
    ensures var before, after := Import(verify, g, rs[..t]), Import(verify, g, rs[..t + 1]);
      var e, rep := Ends(verify, g.held, rs)[t], Reports(verify, g, rs)[t];
      Told(verify, before, rs[t], e, after.held, rep) && OutcomeMeans(before, e, after, rep)
  {
    hide StepsOf, Told, OutcomeMeans, WellKept, Import, Ran, Reports, ReportOf, After;
    ReportAt(verify, g, rs, t);
    ImportEffect(verify, g, rs[..t]);
    EndsAt(verify, g.held, rs, t);
    RowReports(verify, Import(verify, g, rs[..t]), rs[t]);
  }

  lemma {:induction false} ReportsCount(verify: bool, g: Gate, rs: seq<Row>)
    ensures |Reports(verify, g, rs)| == |rs|
    decreases rs
  {
    hide ReportOf, After;
    if rs != [] {
      ReportsCount(verify, After(verify, g, rs[0]), rs[1..]);
    }
  }
}
