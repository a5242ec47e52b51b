/** A row taken up again in the middle goes on from where it stopped; a row that is done stays done. */
module ImportSteps {
  import opened Common
  import opened ImportModel

  // ---- lists that only grow ----

  lemma {:induction false} FirstAppend<T(!new)>(p: T -> bool, xs: seq<T>, x: T)
    ensures First(p, xs + [x]) == if First(p, xs).Some? then First(p, xs) else if p(x) then Some(|xs|) else None
  {
    assert (xs + [x])[..|xs|] == xs;
  }

  lemma {:induction false} LastAppend<T(!new)>(p: T -> bool, xs: seq<T>, x: T)
    ensures Last(p, xs + [x]) == if p(x) then Some(|xs|) else Last(p, xs)
  {
    assert (xs + [x])[..|xs|] == xs;
  }

  /** A change that no match looks at. */
  lemma {:induction false} FirstUpdate<T(!new)>(p: T -> bool, xs: seq<T>, at: nat, f: T -> T)
    requires forall x :: p(f(x)) <==> p(x)
    ensures First(p, Update(xs, at, f)) == First(p, xs)
    decreases |xs|
  {
    if xs != [] {
      var n := |xs| - 1;
      FirstUpdate(p, xs[..n], at, f);
      assert Update(xs, at, f)[..n] == Update(xs[..n], at, f);
    }
  }

  // ---- what is held is in order ----

  /** Terms name contracts that are there, and only organizations that are there have nodes. */
  ghost predicate WellHeld(h: Held) {
    && (forall o :: o in h.overrides ==> forall t :: t in h.overrides[o] ==> t.contract < |Of(h.contracts, o)|)
    && (forall o :: o in h.nodes ==> o < |h.orgs|)
  }

  function Rest(s: Steps): Steps
    requires s.writes != []
  {
    Steps(s.writes[1..], s.end)
  }

  // ---- one write on, file by file ----

  lemma {:induction false} FirmOneOn(h: Held, r: Row)
    requires r.FirmRow? && FirmSteps(h, r).writes != []
    ensures FirmSteps(Put(h, FirmSteps(h, r).writes[0]), r) == Rest(FirmSteps(h, r))
  {
    hide First, Last;
    var p, w := IsFirm(r.name.key), FirmSteps(h, r).writes[0];
    match w
    case CreateFirm(f) => FirstAppend(p, h.firms, f);
    case ActivateFirm(at, msa) => FirstUpdate(p, h.firms, at, Activated(msa));
  }

  lemma {:induction false} CrewOneOn(h: Held, r: Row)
    requires r.CrewRow? && CrewSteps(h, r).writes != []
    ensures CrewSteps(Put(h, CrewSteps(h, r).writes[0]), r) == Rest(CrewSteps(h, r))
  {
    hide First, Last;
    var firm := FirmNamed(h, r.firm);
    FirstAppend(IsCrew(r.title.key, r.region, firm), h.crews, Crew(r.title, r.region, firm, r.facts));
  }

  lemma {:induction false} TechOneOn(h: Held, r: Row)
    requires r.TechRow? && TechSteps(h, r).writes != []
    ensures TechSteps(Put(h, TechSteps(h, r).writes[0]), r) == Rest(TechSteps(h, r))
  {
    hide First, Last;
    var firm, t := FirmNamed(h, r.firm), TechSteps(h, r).writes[0].tech;
    FirstAppend(IsTech(r.name.key, firm), h.techs, t);
  }

  lemma {:induction false} CredOneOn(verify: bool, h: Held, r: Row)
    requires r.CredRow? && CredSteps(verify, h, r).writes != []
    ensures CredSteps(verify, Put(h, CredSteps(verify, h, r).writes[0]), r) == Rest(CredSteps(verify, h, r))
  {
    hide First, Last;
    var p := IsCred(r.kind, r.identifier);
    var w := CredSteps(verify, h, r).writes[0];
    var crew := w.crewAt;
    assert CrewAt(h, r.holder, r.region, FirmNamed(h, r.firm)) == Some(crew);
    match w
    case RecordCred(_, c) => FirstAppend(p, Of(h.creds, crew), c);
    case VerifyCred(_, at) => FirstUpdate(p, Of(h.creds, crew), at, Verified());
  }

  // ---- the tree of a customer ----

  lemma {:induction false} SiteOneOn(org: nat, nodes: seq<Node>, loc: nat, r: Row)
    requires r.CustomerRow? && SiteSteps(org, nodes, loc, r).writes != []
    ensures SiteSteps(org, nodes + [SiteSteps(org, nodes, loc, r).writes[0].node], loc, r) == Rest(SiteSteps(org, nodes, loc, r))
  {
    hide First, Last;
    FirstAppend(IsSite(r.siteRef, loc, r.site.key), nodes, SiteSteps(org, nodes, loc, r).writes[0].node);
  }

  lemma {:induction false} LocationOneOn(org: nat, nodes: seq<Node>, reg: nat, r: Row)
    requires r.CustomerRow? && LocationSteps(org, nodes, reg, r).writes != []
    ensures LocationSteps(org, nodes + [LocationSteps(org, nodes, reg, r).writes[0].node], reg, r)
         == Rest(LocationSteps(org, nodes, reg, r))
  {
    hide First, Last;
    var p := IsLocation(reg, r.location.key);
    var n := LocationSteps(org, nodes, reg, r).writes[0].node;
    FirstAppend(p, nodes, n);
    if First(p, nodes).Some? {
      SiteOneOn(org, nodes, First(p, nodes).value, r);
    }
  }

  lemma {:induction false} TreeOneOn(org: nat, nodes: seq<Node>, r: Row)
    requires r.CustomerRow? && TreeSteps(org, nodes, r).writes != []
    ensures TreeSteps(org, nodes, r).writes[0].CreateNode? && TreeSteps(org, nodes, r).writes[0].orgAt == org
    ensures TreeSteps(org, nodes + [TreeSteps(org, nodes, r).writes[0].node], r) == Rest(TreeSteps(org, nodes, r))
  {
    hide First, Last;
    var p := IsRegion(r.region);
    var n := TreeSteps(org, nodes, r).writes[0].node;
    FirstAppend(p, nodes, n);
    if First(p, nodes).Some? {
      LocationOneOn(org, nodes, First(p, nodes).value, r);
    }
  }

  lemma {:induction false} NewCustomerOneOn(h: Held, r: Row)
    requires r.CustomerRow? && CustomerSteps(h, r).writes != [] && OrgAt(h.orgs, r.ref).None?
    ensures CustomerSteps(Put(h, CustomerSteps(h, r).writes[0]), r) == Rest(CustomerSteps(h, r))
  {
    hide First, Last, TreeSteps, LocationSteps, SiteSteps;
    var s := CustomerSteps(h, r);
    LastAppend(IsOrg(r.ref), h.orgs, s.writes[0].org);
    if r.segment == Commercial {
      var tree := TreeSteps(|h.orgs|, [RegionNode(r)], r);
      assert s.writes == [s.writes[0]] + tree.writes;
      assert Rest(s) == tree;
    }
  }

  lemma {:induction false} KnownCustomerOneOn(h: Held, r: Row, org: nat)
    requires r.CustomerRow? && CustomerSteps(h, r).writes != [] && OrgAt(h.orgs, r.ref) == Some(org)
    ensures CustomerSteps(Put(h, CustomerSteps(h, r).writes[0]), r) == Rest(CustomerSteps(h, r))
  {
    hide First, Last, TreeSteps, LocationSteps, SiteSteps;
    var nodes := Of(h.nodes, org);
    var tree := TreeSteps(org, nodes, r);
    assert CustomerSteps(h, r) == tree;
    TreeOneOn(org, nodes, r);
    var h' := Put(h, tree.writes[0]);
    assert Of(h'.nodes, org) == nodes + [tree.writes[0].node];
    assert CustomerSteps(h', r) == TreeSteps(org, Of(h'.nodes, org), r);
  }

  lemma {:induction false} CustomerOneOn(h: Held, r: Row)
    requires r.CustomerRow? && CustomerSteps(h, r).writes != []
    ensures CustomerSteps(Put(h, CustomerSteps(h, r).writes[0]), r) == Rest(CustomerSteps(h, r))
  {
    hide *;
    match OrgAt(h.orgs, r.ref)
    case Some(org) => KnownCustomerOneOn(h, r, org);
    case None => NewCustomerOneOn(h, r);
  }

  // ---- the terms of an agreement ----

  lemma {:induction false} OnFileAppend(overrides: seq<Override>, contract: nat, key: Id, o: Override)
    requires o.contract == contract && o.parentScope
    ensures OnFile(overrides + [o], contract, key)
         == if OnFile(overrides, contract, key).Some? then OnFile(overrides, contract, key)
            else if o.key == key then Some(|overrides|) else None
  {
    FirstAppend(IsTerm(contract, key), overrides, o);
  }

  /** Terms taken up again after the first missing one was written go on with the rest. */
  lemma {:induction false} TermsOneOn(org: nat, contract: nat, overrides: seq<Override>, terms: seq<Term>)
    requires TermSteps(org, contract, overrides, terms) != []
    ensures var w := TermSteps(org, contract, overrides, terms)[0];
      && w.AuthorTerm? && w.orgAt == org && w.term.contract == contract && w.term.parentScope
      && OnFile(overrides, contract, w.term.key).None?
      && TermSteps(org, contract, overrides + [w.term], terms) == TermSteps(org, contract, overrides, terms)[1..]
    decreases terms
  {
    hide First;
    var key := terms[0].key;
    if OnFile(overrides, contract, key).Some? {
      TermsOneOn(org, contract, overrides, terms[1..]);
      OnFileAppend(overrides, contract, key, TermSteps(org, contract, overrides, terms)[0].term);
    } else {
      OnFileAppend(overrides, contract, key, Override(contract, true, key, terms[0].value));
    }
  }

  ghost predicate DistinctKeys(terms: seq<Term>) {
    forall i, j :: 0 <= i < j < |terms| ==> terms[i].key != terms[j].key
  }

  /** The first missing term is one of the row's own, at the row's value. */
  lemma {:induction false} FirstMissingIsOurs(org: nat, contract: nat, overrides: seq<Override>, terms: seq<Term>)
    requires TermSteps(org, contract, overrides, terms) != []
    ensures var o := TermSteps(org, contract, overrides, terms)[0].term; Term(o.key, o.value) in terms
    decreases terms
  {
    if OnFile(overrides, contract, terms[0].key).Some? {
      FirstMissingIsOurs(org, contract, overrides, terms[1..]);
    }
  }

  /** Adding one of the row's own terms brings no conflict. */
  lemma {:induction false} NoNewConflict(org: nat, contract: nat, overrides: seq<Override>, terms: seq<Term>)
    requires DistinctKeys(terms) && TermSteps(org, contract, overrides, terms) != []
    ensures var o := TermSteps(org, contract, overrides, terms)[0].term;
      Conflicts(overrides + [o], contract, terms) <==> Conflicts(overrides, contract, terms)
  {
    hide First, TermSteps;
    var o := TermSteps(org, contract, overrides, terms)[0].term;
    TermsOneOn(org, contract, overrides, terms);
    FirstMissingIsOurs(org, contract, overrides, terms);
    forall t | t in terms
      ensures OnFile(overrides + [o], contract, t.key).Some?
              && (overrides + [o])[OnFile(overrides + [o], contract, t.key).value].value != t.value
         <==> OnFile(overrides, contract, t.key).Some? && overrides[OnFile(overrides, contract, t.key).value].value != t.value
    {
      OnFileAppend(overrides, contract, t.key, o);
      if t.key == o.key {
        assert t == Term(o.key, o.value);
      }
    }
  }

  // ---- agreements ----

  lemma {:induction false} NotOnFile(overrides: seq<Override>, contract: nat, key: Id)
    requires forall t :: t in overrides ==> t.contract != contract
    ensures OnFile(overrides, contract, key).None?
  {
    forall i | 0 <= i < |overrides| ensures !IsTerm(contract, key)(overrides[i]) {
      assert overrides[i] in overrides;
    }
  }

  lemma {:induction false} AdministeredAlike(h: Held, h': Held, r: Row)
    requires r.AgreementRow? && h'.nodes == h.nodes
    ensures forall org :: ServedFrom(h', org, r) == ServedFrom(h, org, r)
  {
  }

  lemma {:induction false} NewAgreementOneOn(h: Held, r: Row, org: nat)
    requires r.AgreementRow? && RowOk(r) && WellHeld(h) && OrgAt(h.orgs, r.customer) == Some(org)
    requires AgreementSteps(h, r).writes != [] && First(IsMsa(r.effectiveFrom), Of(h.contracts, org)).None?
    ensures AgreementSteps(Put(h, AgreementSteps(h, r).writes[0]), r) == Rest(AgreementSteps(h, r))
  {
    hide First, TermSteps, OrgAt, ServedFrom;
    AdministeredAlike(h, Put(h, AgreementSteps(h, r).writes[0]), r);
    var contracts, overrides := Of(h.contracts, org), Of(h.overrides, org);
    var c := AgreementSteps(h, r).writes[0].contract;
    FirstAppend(IsMsa(r.effectiveFrom), contracts, c);
    forall t | t in r.terms ensures OnFile(overrides, |contracts|, t.key).None? {
      NotOnFile(overrides, |contracts|, t.key);
    }
  }

  lemma {:induction false} TermOneOn(h: Held, r: Row, org: nat, at: nat)
    requires r.AgreementRow? && RowOk(r) && OrgAt(h.orgs, r.customer) == Some(org)
    requires First(IsMsa(r.effectiveFrom), Of(h.contracts, org)) == Some(at)
    requires TermSteps(org, at, Of(h.overrides, org), r.terms) != [] && AgreementSteps(h, r).writes != []
    ensures AgreementSteps(Put(h, AgreementSteps(h, r).writes[0]), r) == Rest(AgreementSteps(h, r))
  {
    hide First, TermSteps, OrgAt, ServedFrom;
    var overrides := Of(h.overrides, org);
    TermsOneOn(org, at, overrides, r.terms);
    assert AgreementSteps(h, r).writes[0] == TermSteps(org, at, overrides, r.terms)[0];
    AdministeredAlike(h, Put(h, AgreementSteps(h, r).writes[0]), r);
    NoNewConflict(org, at, overrides, r.terms);
  }

  lemma {:induction false} ActivationOneOn(h: Held, r: Row, org: nat, at: nat)
    requires r.AgreementRow? && OrgAt(h.orgs, r.customer) == Some(org)
    requires First(IsMsa(r.effectiveFrom), Of(h.contracts, org)) == Some(at)
    requires TermSteps(org, at, Of(h.overrides, org), r.terms) == [] && AgreementSteps(h, r).writes != []
    ensures AgreementSteps(Put(h, AgreementSteps(h, r).writes[0]), r) == Rest(AgreementSteps(h, r))
  {
    hide First, TermSteps, OrgAt, ServedFrom;
    AdministeredAlike(h, Put(h, AgreementSteps(h, r).writes[0]), r);
    FirstUpdate(IsMsa(r.effectiveFrom), Of(h.contracts, org), at, Enlivened());
  }

  lemma {:induction false} AgreementOneOn(h: Held, r: Row)
    requires r.AgreementRow? && RowOk(r) && WellHeld(h) && AgreementSteps(h, r).writes != []
    ensures AgreementSteps(Put(h, AgreementSteps(h, r).writes[0]), r) == Rest(AgreementSteps(h, r))
  {
    hide First, Last, TermSteps;
    var org := OrgAt(h.orgs, r.customer).value;
    match First(IsMsa(r.effectiveFrom), Of(h.contracts, org))
    case None => NewAgreementOneOn(h, r, org);
    case Some(at) =>
      if TermSteps(org, at, Of(h.overrides, org), r.terms) != [] {
        TermOneOn(h, r, org, at);
      } else {
        ActivationOneOn(h, r, org, at);
      }
  }

  /** After its first write, a row's remaining steps are exactly the rest of what they were. */
  lemma {:induction false} OneOn(verify: bool, h: Held, r: Row)
    requires RowOk(r) && WellHeld(h) && StepsOf(verify, h, r).writes != []
    ensures StepsOf(verify, Put(h, StepsOf(verify, h, r).writes[0]), r) == Rest(StepsOf(verify, h, r))
  {
    hide FirmSteps, CrewSteps, TechSteps, CredSteps, CustomerSteps, AgreementSteps, Put;
    match r
    case FirmRow(_, _, _, _, _) => FirmOneOn(h, r);
    case CrewRow(_, _, _, _) => CrewOneOn(h, r);
    case TechRow(_, _, _, _, _) => TechOneOn(h, r);
    case CredRow(_, _, _, _, _, _, _, _) => CredOneOn(verify, h, r);
    case CustomerRow(_, _, _, _, _, _, _, _, _) => CustomerOneOn(h, r);
    case AgreementRow(_, _, _, _, _, _, _, _) => AgreementOneOn(h, r);
    case Unreadable(_) =>
  }
}
