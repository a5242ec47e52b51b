/** A row with nothing left to write keeps nothing to write, whatever the files from its own on write after it. */
module ImportStays {
  import opened Common
  import opened ImportModel
  import opened ImportSteps

  /** A new organization carries a reference no other has. */
  ghost predicate Admissible(h: Held, w: Write) {
    match w
    case CreateOrg(org, _) => org.ref.Some? && OrgAt(h.orgs, org.ref.value).None?
    case CreateHousehold(org) => org.ref.Some? && OrgAt(h.orgs, org.ref.value).None?
    case _ => true
  }

  ghost predicate Settled(verify: bool, h: Held, r: Row) {
    StepsOf(verify, h, r).writes == []
  }

  lemma {:induction false} FirmStays(h: Held, r: Row, w: Write)
    requires r.FirmRow? && FirmSteps(h, r).writes == []
    ensures FirmSteps(Put(h, w), r) == FirmSteps(h, r)
  {
    hide First, Last;
    match w
    case CreateFirm(f) => FirstAppend(IsFirm(r.name.key), h.firms, f);
    case ActivateFirm(at, msa) => FirstUpdate(IsFirm(r.name.key), h.firms, at, Activated(msa));
    case _ =>
  }

  lemma {:induction false} CrewStays(h: Held, r: Row, w: Write)
    requires r.CrewRow? && CrewSteps(h, r).writes == [] && RankOf(w) >= 1
    ensures CrewSteps(Put(h, w), r) == CrewSteps(h, r)
  {
    hide First, Last;
    match w
    case CreateCrew(c) => FirstAppend(IsCrew(r.title.key, r.region, FirmNamed(h, r.firm)), h.crews, c);
    case _ =>
  }

  lemma {:induction false} TechStays(h: Held, r: Row, w: Write)
    requires r.TechRow? && TechSteps(h, r).writes == [] && RankOf(w) >= 2
    ensures TechSteps(Put(h, w), r) == TechSteps(h, r)
  {
    hide First, Last;
    match w
    case CreateTech(t) => FirstAppend(IsTech(r.name.key, FirmNamed(h, r.firm)), h.techs, t);
    case _ =>
  }

  lemma {:induction false} SameFirms(h: Held, h': Held, name: Option<Name>)
    requires h'.firms == h.firms
    ensures FirmNamed(h', name) == FirmNamed(h, name) && FirmKnown(h', name) == FirmKnown(h, name)
  {
  }

  lemma {:induction false} CredStays(verify: bool, h: Held, r: Row, w: Write)
    requires r.CredRow? && CredSteps(verify, h, r).writes == [] && RankOf(w) >= 3
    ensures CredSteps(verify, Put(h, w), r) == CredSteps(verify, h, r)
  {
    hide First, Last, FirmNamed, FirmKnown;
    var h', p := Put(h, w), IsCred(r.kind, r.identifier);
    assert h'.crews == h.crews && h'.firms == h.firms && h'.regions == h.regions;
    SameFirms(h, h', r.firm);
    match w
    case RecordCred(crew, c) => FirstAppend(p, Of(h.creds, crew), c);
    case VerifyCred(crew, at) => FirstUpdate(p, Of(h.creds, crew), at, Verified());
    case _ =>
  }

  lemma {:induction false} PlaceStays(org: nat, nodes: seq<Node>, p: Node -> bool, n: Node, extra: Node)
    requires Place(org, nodes, p, n).writes == []
    ensures Place(org, nodes + [extra], p, n) == Placed(Place(org, nodes, p, n).at, nodes + [extra], [])
  {
    FirstAppend(p, nodes, extra);
  }

  lemma {:induction false} TreeStays(org: nat, nodes: seq<Node>, r: Row, extra: Node)
    requires r.CustomerRow? && TreeSteps(org, nodes, r).writes == []
    ensures TreeSteps(org, nodes + [extra], r) == TreeSteps(org, nodes, r)
  {
    hide First;
    var p := IsRegion(r.region);
    var reg := Place(org, nodes, p, RegionNode(r));
    PlaceStays(org, nodes, p, RegionNode(r), extra);
    var q, n := IsLocation(reg.at, r.location.key), Node(LocationTier, r.location, Some(reg.at), r.region, None, true);
    PlaceStays(org, nodes, q, n, extra);
    var loc := Place(org, nodes, q, n);
    FirstAppend(IsSite(r.siteRef, loc.at, r.site.key), nodes, extra);
  }

  lemma {:induction false} OrgStays(orgs: seq<Org>, ref: Id, org: Org)
    requires OrgAt(orgs, ref).Some? && org.ref.Some? && OrgAt(orgs, org.ref.value).None?
    ensures OrgAt(orgs + [org], ref) == OrgAt(orgs, ref)
  {
    LastAppend(IsOrg(ref), orgs, org);
  }

  lemma {:induction false} CustomerStays(h: Held, r: Row, w: Write)
    requires r.CustomerRow? && CustomerSteps(h, r).writes == [] && RankOf(w) >= 4 && Admissible(h, w)
    ensures CustomerSteps(Put(h, w), r) == CustomerSteps(h, r)
  {
    hide First, Last, TreeSteps;
    var h' := Put(h, w);
    if Served(h, r.region) {
      assert OrgAt(h.orgs, r.ref).Some?;
      var org := OrgAt(h.orgs, r.ref).value;
      match w
      case CreateOrg(o, _) => OrgStays(h.orgs, r.ref, o);
      case CreateHousehold(o) => OrgStays(h.orgs, r.ref, o);
      case CreateNode(k, n, _) =>
        if k == org && r.segment == Commercial && CustomerSteps(h, r) == TreeSteps(org, Of(h.nodes, org), r) {
          TreeStays(org, Of(h.nodes, org), r, n);
        }
      case _ =>
    }
  }

  lemma {:induction false} OnFileStays(overrides: seq<Override>, contract: nat, key: Id, extra: Override)
    requires OnFile(overrides, contract, key).Some?
    ensures OnFile(overrides + [extra], contract, key) == OnFile(overrides, contract, key)
  {
    FirstAppend(IsTerm(contract, key), overrides, extra);
  }

  lemma {:induction false} TermsStay(org: nat, contract: nat, overrides: seq<Override>, terms: seq<Term>, extra: Override)
    requires TermSteps(org, contract, overrides, terms) == []
    ensures TermSteps(org, contract, overrides + [extra], terms) == []
    ensures forall t :: t in terms ==> OnFile(overrides, contract, t.key).Some?
    decreases terms
  {
    hide First;
    if terms != [] {
      OnFileStays(overrides, contract, terms[0].key, extra);
      TermsStay(org, contract, overrides, terms[1..], extra);
      assert terms == [terms[0]] + terms[1..];
    }
  }

  /** A conflict on file stays; and where every term is on file no new one can arise. */
  lemma {:induction false} ConflictStays(contract: nat, overrides: seq<Override>, terms: seq<Term>, extra: Override)
    ensures Conflicts(overrides, contract, terms) ==> Conflicts(overrides + [extra], contract, terms)
    ensures (forall t :: t in terms ==> OnFile(overrides, contract, t.key).Some?) ==>
              !Conflicts(overrides, contract, terms) ==> !Conflicts(overrides + [extra], contract, terms)
  {
    hide First;
    forall t | t in terms && OnFile(overrides, contract, t.key).Some?
      ensures OnFile(overrides + [extra], contract, t.key) == OnFile(overrides, contract, t.key)
      ensures (overrides + [extra])[OnFile(overrides, contract, t.key).value] == overrides[OnFile(overrides, contract, t.key).value]
    {
      OnFileStays(overrides, contract, t.key, extra);
    }
  }

  lemma {:induction false} AuthoredStays(org: nat, contracts: seq<Contract>, overrides: seq<Override>, region: Id, r: Row,
                                         extra: Override)
    requires r.AgreementRow? && OnAgreement(org, contracts, overrides, region, r).writes == []
    ensures OnAgreement(org, contracts, overrides + [extra], region, r) == OnAgreement(org, contracts, overrides, region, r)
  {
    hide First, Conflicts, TermSteps;
    var at := First(IsMsa(r.effectiveFrom), contracts).value;
    ConflictStays(at, overrides, r.terms, extra);
    if TermSteps(org, at, overrides, r.terms) == [] {
      TermsStay(org, at, overrides, r.terms, extra);
    }
  }

  lemma {:induction false} AgreementStays(h: Held, r: Row, w: Write)
    requires r.AgreementRow? && AgreementSteps(h, r).writes == [] && RankOf(w) >= 5
    ensures AgreementSteps(Put(h, w), r) == AgreementSteps(h, r)
  {
    hide First, Last, Conflicts, TermSteps, OrgAt, ServedFrom;
    var h' := Put(h, w);
    AdministeredAlike(h, h', r);
    if OrgAt(h.orgs, r.customer).Some? {
      var org := OrgAt(h.orgs, r.customer).value;
      var p := IsMsa(r.effectiveFrom);
      match w
      case CreateContract(k, c) => FirstAppend(p, Of(h.contracts, k), c);
      case ActivateContract(k, at) => FirstUpdate(p, Of(h.contracts, k), at, Enlivened());
      case AuthorTerm(k, t) =>
        var region, held, on := ServedFrom(h, org, r), Of(h.contracts, org), Of(h.overrides, org);
        if k == org && region.Some? && AgreementSteps(h, r) == OnAgreement(org, held, on, region.value, r) {
          AuthoredStays(org, held, on, region.value, r, t);
        }
      case _ =>
    }
  }

  lemma {:induction false} Stays(verify: bool, h: Held, r: Row, w: Write)
    requires Settled(verify, h, r) && RankOf(w) >= Rank(r) && Admissible(h, w)
    ensures StepsOf(verify, Put(h, w), r) == StepsOf(verify, h, r)
  {
    hide FirmSteps, CrewSteps, TechSteps, CredSteps, CustomerSteps, AgreementSteps, Put;
    match r
    case FirmRow(_, _, _, _, _) => FirmStays(h, r, w);
    case CrewRow(_, _, _, _) => CrewStays(h, r, w);
    case TechRow(_, _, _, _, _) => TechStays(h, r, w);
    case CredRow(_, _, _, _, _, _, _, _) => CredStays(verify, h, r, w);
    case CustomerRow(_, _, _, _, _, _, _, _, _) => CustomerStays(h, r, w);
    case AgreementRow(_, _, _, _, _, _, _, _) => AgreementStays(h, r, w);
    case Unreadable(_) =>
  }
}
