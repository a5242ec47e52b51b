/** The import itself: an index kept current as rows land, and writes sent one at a time unless the run is dry. */
module Importer {
  import opened Common
  import opened ImportModel
  import opened ImportSteps
  import opened ImportStays
  import opened ImportRuns
  import opened ImportTheorems
  import opened ImportIndex
  import opened ImportCourse
  import opened ImportPrefixes

  /** A gateway that admits everything, and stops answering after `answers` more writes: the write that gets no answer
      may be made all the same. */
  class Gateway {
    const lands: bool
    var state: Gate
    var answers: nat

    constructor (state: Gate, answers: nat, lands: bool)
      ensures this.state == state && this.answers == answers && this.lands == lands
    {
      this.state, this.answers, this.lands := state, answers, lands;
    }

    method Write(w: Write) returns (ok: bool)
      modifies this
      ensures ok == (old(answers) > 0)
      ensures state == if ok || lands then Apply(old(state), w) else old(state)
      ensures answers == if ok then old(answers) - 1 else 0
    {
      ok := answers > 0;
      if ok || lands {
        state := Apply(state, w);
      }
      if ok {
        answers := answers - 1;
      }
    }
  }

  class Importer {
    const gateway: Gateway
    const dry: bool
    const verify: bool

    var regions: map<Id, bool>
    var firms: seq<Firm>
    var crews: seq<Crew>
    var techs: seq<Tech>
    var orgs: map<Id, OrgEntry>
    var made: nat
    var accounts: map<nat, seq<Node>>
    var addresses: map<Site, Address>
    var contracts: map<nat, seq<Contract>>
    var overrides: map<nat, seq<Override>>
    var creds: map<nat, seq<Cred>>

    // How many organizations and crews were there at the start: later places are this run's own.
    var orgsThere: nat
    var crewsThere: nat

    ghost function Cached(): Index
      reads this
    {
      Index(regions, firms, crews, techs, orgs, made, accounts, addresses, contracts, overrides, creds)
    }

    ghost function Shown(): Source
      reads this, gateway
    {
      Source(dry, orgsThere, crewsThere, gateway.state)
    }

    /** The index shows `v`, and `v` is in order. */
    ghost predicate Ready(v: Gate)
      reads this, gateway
    {
      Mirrors(Cached(), Shown(), v) && WellKept(v)
    }

    /** Reads what the gateway holds, once. */
    constructor (gateway: Gateway, dry: bool, verify: bool)
      requires WellKept(gateway.state) && NoOrphans(gateway.state)
      ensures this.gateway == gateway && this.dry == dry && this.verify == verify
      ensures Ready(gateway.state)
    {
      this.gateway, this.dry, this.verify := gateway, dry, verify;
      var held := gateway.state.held;
      regions, firms, crews, techs := held.regions, held.firms, held.crews, held.techs;
      orgs, made, orgsThere, crewsThere := map[], |held.orgs|, |held.orgs|, |held.crews|;
      accounts, addresses, contracts, overrides, creds := map[], map[], map[], map[], map[];
      new;
      var i := 0;
      while i < |held.orgs|
        invariant i <= |held.orgs|
        invariant OrgsAgree(orgs, held.orgs[..i])
        invariant this.gateway.state == old(gateway.state)
        invariant Cached() == Index(held.regions, held.firms, held.crews, held.techs, orgs, |held.orgs|, map[], map[], map[],
                                    map[], map[])
        invariant orgsThere == |held.orgs| && crewsThere == |held.crews|
      {
        var o := held.orgs[i];
        OrgsAgreeOneMore(orgs, held.orgs[..i], o);
        assert held.orgs[..i] + [o] == held.orgs[..i + 1];
        if o.ref.Some? {
          orgs := orgs[o.ref.value := OrgEntry(i, o.name, o.segment)];
        }
        i := i + 1;
      }
      assert held.orgs[..i] == held.orgs;
      AtLoad(Cached(), Shown());
    }

    /** One gateway write; none in a dry run. */
    method Send(w: Write) returns (ok: bool)
      modifies gateway
      ensures dry ==> ok && gateway.state == old(gateway.state) && gateway.answers == old(gateway.answers)
      ensures !dry ==> ok == (old(gateway.answers) > 0)
      ensures !dry && ok ==> gateway.state == Apply(old(gateway.state), w) && gateway.answers == old(gateway.answers) - 1
      ensures !dry && !ok ==> gateway.answers == 0 && gateway.state in {old(gateway.state), Apply(old(gateway.state), w)}
    {
      ok := true;
      if !dry {
        ok := gateway.Write(w);
      }
    }

    /** A row is under way and the index shows where it stands. */
    ghost predicate InHand(c: Course)
      reads this, gateway
    {
      Mirrors(Cached(), Shown(), c.v) && Under(dry, verify, c, gateway.answers)
    }

    /** The index told of a write that has gone through. */
    method Note(w: Write)
      requires ReadFor(Cached(), w)
      modifies this
      ensures Cached() == Noted(old(Cached()), w) && orgsThere == old(orgsThere) && crewsThere == old(crewsThere)
    {
      match w
      case CreateFirm(f) => firms := firms + [f];
      case ActivateFirm(at, _) => firms := Update(firms, at, (f: Firm) => f.(status := InService));
      case CreateCrew(c) => crews := crews + [c];
      case CreateTech(t) => techs := techs + [t];
      case RecordCred(k, c) => creds := creds[k := creds[k] + [c]];
      case VerifyCred(k, at) => creds := creds[k := Update(creds[k], at, Verified())];
      case CreateOrg(org, node) =>
        AddOrg(org);
        accounts := accounts[made - 1 := [node]];
      case CreateHousehold(org) => AddOrg(org);
      case CreateNode(o, n, a) =>
        if a.Some? {
          addresses := addresses[(o, |accounts[o]|) := a.value];
        }
        accounts := accounts[o := accounts[o] + [n]];
      case SetAddress(o, at, a) => addresses := addresses[(o, at) := a];
      case CreateContract(o, c) => contracts := contracts[o := contracts[o] + [c]];
      case AuthorTerm(o, t) => overrides := overrides[o := overrides[o] + [t]];
      case ActivateContract(o, at) => contracts := contracts[o := Update(contracts[o], at, Enlivened())];
    }

    method AddOrg(org: Org)
      modifies this
      ensures Cached() == WithOrg(old(Cached()), org) && unchanged(`orgsThere, `crewsThere)
    {
      if org.ref.Some? {
        orgs := orgs[org.ref.value := OrgEntry(made, org.name, org.segment)];
      }
      made := made + 1;
    }

    /** A write, and the index told of it. */
    method Make(w: Write, ghost c: Course) returns (ok: bool)
      requires InHand(c) && Left(verify, c) != [] && Left(verify, c)[0] == w && ReadFor(Cached(), w)
      modifies this, gateway
      ensures ok ==> InHand(Step(c, w)) && Left(verify, Step(c, w)) == Left(verify, c)[1..] && Cached() == Noted(old(Cached()), w)
      ensures ok ==> crewsThere == old(crewsThere) && orgsThere == old(orgsThere)
      ensures !ok ==> Loaded(dry, verify, c.v0, c.r, c.had, None, gateway.answers, gateway.state)
      ensures dry ==> ok && gateway.state == old(gateway.state)
    {
      hide Under, Left, Loaded, Apply, Mirrors, Noted, ReadFor, DeedOf;
      Agreed(Cached(), Shown(), c.v);
      ok := Send(w);
      if !ok {
        Stopped(verify, c, gateway.state);
        return;
      }
      Onward(old(Cached()), old(Shown()), dry, verify, c, old(gateway.answers));
      Note(w);
    }

    /** The last write a row has to make, and its report. */
    method MakeLast(w: Write, outcome: Outcome, done: seq<Deed>, quote: Quote, ghost c: Course) returns (report: Option<Report>)
      requires InHand(c) && Left(verify, c) == [w] && ReadFor(Cached(), w)
      requires done == c.done && StepsOf(verify, c.v0.held, c.r).end.Done? && quote == QuoteOf(verify, c.v0, c.r)
      requires outcome == OutcomeOf(Plan(verify, c.v0, c.r), StepsOf(verify, c.v0.held, c.r).end)
      modifies this, gateway
      ensures Loaded(dry, verify, c.v0, c.r, c.had, report, gateway.answers, gateway.state)
      ensures report.Some? ==> Ready(After(verify, c.v0, c.r))
      ensures dry ==> gateway.state == old(gateway.state)
    {
      hide Under, Left, Loaded, Apply, Mirrors, Noted, ReadFor, DeedOf, StepsOf, Plan, After, WellKept, OutcomeOf, QuoteOf;
      var ok := Make(w, c);
      if !ok {
        return None;
      }
      Finished(dry, verify, Step(c, w), gateway.answers, gateway.state);
      return Loading(outcome, done + [DeedOf(w)], quote);
    }

    // ---- the six files ----

    method LoadFirm(r: Row, ghost v: Gate) returns (report: Option<Report>)
      requires Ready(v) && r.FirmRow?
      modifies this, gateway
      ensures Loaded(dry, verify, v, r, old(gateway.answers), report, gateway.answers, gateway.state)
      ensures report.Some? ==> Ready(After(verify, v, r))
      ensures dry ==> gateway.state == old(gateway.state)
    {
      hide Apply, Plan, Loaded, Under, WellKept, Mirrors, OrgsAgree, After, Noted, ReportOf;
      hide CrewSteps, TechSteps, CredSteps, CustomerSteps, AgreementSteps;
      hide CrewQuote, TechQuote, CredQuote, CustomerQuote, AgreementQuote;
      ghost var c, had := Course(v, r, gateway.answers, 0, v, []), gateway.answers;
      Begins(dry, verify, v, r, had);
      PlanIsSteps(verify, v, r);
      Agreed(Cached(), Shown(), v);
      FirmsFound(firms, v.held.firms, r.name.key);
      if !(r.region in regions && regions[r.region]) {
        Rejects(dry, verify, v, r, RegionNotServed, Unquoted, had, gateway.state);
        return Refusal(RegionNotServed, [], Unquoted);
      }
      if r.activate && r.msa.None? {
        Rejects(dry, verify, v, r, NeedsMsa, Unquoted, had, gateway.state);
        return Refusal(NeedsMsa, [], Unquoted);
      }
      var have := First(IsFirm(r.name.key), firms);
      if have.Some? {
        var at := have.value;
        if r.activate && firms[at].status == Onboarding {
          report := MakeLast(ActivateFirm(at, if firms[at].msa.Some? then None else r.msa), Updated, [], Unquoted, c);
          return;
        }
        Skips(dry, verify, v, r, Unquoted, had, gateway.state);
        return Loading(Skipped, [], Unquoted);
      }
      var w, at := CreateFirm(Firm(r.name, Onboarding, r.msa, r.facts)), |firms|;
      assert Left(verify, c) == [w] + if r.activate then [ActivateFirm(at, None)] else [];
      if !r.activate {
        report := MakeLast(w, Created, [], Unquoted, c);
        return;
      }
      var ok := Make(w, c);
      if !ok {
        return None;
      }
      report := MakeLast(ActivateFirm(at, None), Created, [] + [Made(r.name)], Unquoted, Step(c, w));
    }

    /** The firm a row names; none named is ours. */
    method FirmOf(name: Option<Name>, ghost v: Gate) returns (known: bool, firm: Option<nat>)
      requires FirmsAgree(firms, v.held.firms)
      ensures known == FirmKnown(v.held, name) && firm == FirmNamed(v.held, name) && TitleOf(firm) == FirmTitle(v.held, firm)
    {
      if name.None? {
        return true, None;
      }
      FirmsFound(firms, v.held.firms, name.value.key);
      firm := First(IsFirm(name.value.key), firms);
      return firm.Some?, firm;
    }

    function TitleOf(firm: Option<nat>): Option<Name>
      reads this
    {
      if firm.Some? && firm.value < |firms| then Some(firms[firm.value].name) else None
    }

    method LoadCrew(r: Row, ghost v: Gate) returns (report: Option<Report>)
      requires Ready(v) && r.CrewRow?
      modifies this, gateway
      ensures Loaded(dry, verify, v, r, old(gateway.answers), report, gateway.answers, gateway.state)
      ensures report.Some? ==> Ready(After(verify, v, r))
      ensures dry ==> gateway.state == old(gateway.state)
    {
      hide Apply, Plan, Loaded, Under, WellKept, Mirrors, OrgsAgree, FirmsAgree, FirmKnown, FirmNamed, After, Noted, ReportOf;
      hide FirmSteps, TechSteps, CredSteps, CustomerSteps, AgreementSteps;
      hide TechQuote, CredQuote, CustomerQuote, AgreementQuote;
      ghost var c, had := Course(v, r, gateway.answers, 0, v, []), gateway.answers;
      Begins(dry, verify, v, r, had);
      PlanIsSteps(verify, v, r);
      Agreed(Cached(), Shown(), v);
      if !(r.region in regions && regions[r.region]) {
        Rejects(dry, verify, v, r, RegionNotServed, Unquoted, had, gateway.state);
        return Refusal(RegionNotServed, [], Unquoted);
      }
      var known, firm := FirmOf(r.firm, v);
      if !known {
        Rejects(dry, verify, v, r, NoSuchFirm, Unquoted, had, gateway.state);
        return Refusal(NoSuchFirm, [], Unquoted);
      }
      var have := First(IsCrew(r.title.key, r.region, firm), crews);
      if have.Some? {
        Skips(dry, verify, v, r, Unquoted, had, gateway.state);
        return Loading(Skipped, [], Unquoted);
      }
      report := MakeLast(CreateCrew(Crew(r.title, r.region, firm, r.facts)), Created, [], FirmQuoted(TitleOf(firm)), c);
    }

    method LoadTechnician(r: Row, ghost v: Gate) returns (report: Option<Report>)
      requires Ready(v) && r.TechRow?
      modifies this, gateway
      ensures Loaded(dry, verify, v, r, old(gateway.answers), report, gateway.answers, gateway.state)
      ensures report.Some? ==> Ready(After(verify, v, r))
      ensures dry ==> gateway.state == old(gateway.state)
    {
      hide Apply, Plan, Loaded, Under, WellKept, Mirrors, OrgsAgree, FirmsAgree, FirmKnown, FirmNamed, After, Noted, ReportOf;
      hide FirmSteps, CrewSteps, CredSteps, CustomerSteps, AgreementSteps;
      hide CrewQuote, CredQuote, CustomerQuote, AgreementQuote;
      ghost var c, had := Course(v, r, gateway.answers, 0, v, []), gateway.answers;
      Begins(dry, verify, v, r, had);
      PlanIsSteps(verify, v, r);
      Agreed(Cached(), Shown(), v);
      if !(r.region in regions && regions[r.region]) {
        Rejects(dry, verify, v, r, RegionNotServed, Unquoted, had, gateway.state);
        return Refusal(RegionNotServed, [], Unquoted);
      }
      var known, firm := FirmOf(r.firm, v);
      if !known {
        Rejects(dry, verify, v, r, NoSuchFirm, Unquoted, had, gateway.state);
        return Refusal(NoSuchFirm, [], Unquoted);
      }
      var crew: Option<nat> := None;
      if r.crew.Some? {
        crew := First(IsCrew(r.crew.value.key, r.region, firm), crews);
        if crew.None? {
          Rejects(dry, verify, v, r, NoSuchCrew, FirmQuoted(TitleOf(firm)), had, gateway.state);
          return Refusal(NoSuchCrew, [], FirmQuoted(TitleOf(firm)));
        }
      }
      var have := First(IsTech(r.name.key, firm), techs);
      if have.Some? {
        Skips(dry, verify, v, r, Unquoted, had, gateway.state);
        return Loading(Skipped, [], Unquoted);
      }
      report := MakeLast(CreateTech(Tech(r.name, firm, crew, r.facts)), Created, [], Unquoted, c);
    }

    method LoadCredential(r: Row, ghost v: Gate) returns (report: Option<Report>)
      requires Ready(v) && r.CredRow?
      modifies this, gateway
      ensures Loaded(dry, verify, v, r, old(gateway.answers), report, gateway.answers, gateway.state)
      ensures report.Some? ==> Ready(After(verify, v, r))
      ensures dry ==> gateway.state == old(gateway.state)
    {
      hide Apply, Plan, Loaded, Under, WellKept, Mirrors, OrgsAgree, FirmsAgree, FirmKnown, FirmNamed, After, Noted, ReportOf;
      hide FirmSteps, CrewSteps, TechSteps, CustomerSteps, AgreementSteps;
      hide CrewQuote, TechQuote, CustomerQuote, AgreementQuote;
      ghost var c, had := Course(v, r, gateway.answers, 0, v, []), gateway.answers;
      Begins(dry, verify, v, r, had);
      PlanIsSteps(verify, v, r);
      Agreed(Cached(), Shown(), v);
      if !(r.region in regions && regions[r.region]) {
        Rejects(dry, verify, v, r, RegionNotServed, Unquoted, had, gateway.state);
        return Refusal(RegionNotServed, [], Unquoted);
      }
      var known, firm := FirmOf(r.firm, v);
      if !known {
        Rejects(dry, verify, v, r, NoSuchFirm, Unquoted, had, gateway.state);
        return Refusal(NoSuchFirm, [], Unquoted);
      }
      var crew := First(IsCrew(r.holder.key, r.region, firm), crews);
      if crew.None? {
        Rejects(dry, verify, v, r, NoSuchCrew, FirmQuoted(TitleOf(firm)), had, gateway.state);
        return Refusal(NoSuchCrew, [], FirmQuoted(TitleOf(firm)));
      }
      var title := crews[crew.value].title;
      var held := CredsOf(crew.value, v);
      var have := First(IsCred(r.kind, r.identifier), held);
      if have.Some? {
        var at := have.value;
        if held[at].validFrom != r.validFrom || held[at].validTo != r.validTo {
          Rejects(dry, verify, v, r, DatesDiffer, DatesQuoted(title, held[at].validFrom, held[at].validTo), had, gateway.state);
          return Refusal(DatesDiffer, [], DatesQuoted(title, held[at].validFrom, held[at].validTo));
        }
        if verify && !held[at].verified {
          report := MakeLast(VerifyCred(crew.value, at), Updated, [], CrewQuoted(title), c);
          return;
        }
        Skips(dry, verify, v, r, CrewQuoted(title), had, gateway.state);
        return Loading(Skipped, [], CrewQuoted(title));
      }
      report := NewCredential(r, crew.value, |held|, title, c);
    }

    method NewCredential(r: Row, crew: nat, at: nat, title: Name, ghost c: Course) returns (report: Option<Report>)
      requires r.CredRow? && c.r == r && c.k == 0 && c.done == [] && InHand(c) && crew in creds
      requires Left(verify, c) == [RecordCred(crew, Cred(r.kind, r.identifier, r.validFrom, r.validTo, r.facts, false))]
                                  + if verify then [VerifyCred(crew, at)] else []
      requires Plan(verify, c.v0, r) == Left(verify, c) && StepsOf(verify, c.v0.held, r).end.Done?
      requires QuoteOf(verify, c.v0, r) == CrewQuoted(title)
      modifies this, gateway
      ensures Loaded(dry, verify, c.v0, r, c.had, report, gateway.answers, gateway.state)
      ensures report.Some? ==> Ready(After(verify, c.v0, r))
      ensures dry ==> gateway.state == old(gateway.state)
    {
      hide Apply, Plan, Loaded, Under, WellKept, Mirrors, After, Noted, ReportOf, StepsOf, QuoteOf, Left;
      var w := RecordCred(crew, Cred(r.kind, r.identifier, r.validFrom, r.validTo, r.facts, false));
      if !verify {
        report := MakeLast(w, Created, [], CrewQuoted(title), c);
        return;
      }
      ghost var before := Cached();
      var ok := Make(w, c);
      if !ok {
        return None;
      }
      StaysRead(before, w);
      report := MakeLast(VerifyCred(crew, at), Created, [] + [Recorded], CrewQuoted(title), Step(c, w));
    }

    /** A crew's credentials, read on first use. */
    method CredsOf(crew: nat, ghost v: Gate) returns (held: seq<Cred>)
      requires Ready(v)
      modifies this
      ensures Ready(v) && crew in creds && held == Of(v.held.creds, crew) && Cached() == old(Cached()).(creds := creds)
    {
      hide Mirrors, WellKept;
      ReadCreds(Cached(), Shown(), v, crew);
      creds := Fetched(creds, dry && crew >= crewsThere, gateway.state.held.creds, crew);
      held := creds[crew];
    }

    /** An organization's nodes, read on first use with their addresses. */
    method ReadAccounts(org: nat, ghost v: Gate)
      requires Ready(v) && org < made
      modifies this
      ensures Ready(v) && org in accounts && accounts[org] == Of(v.held.nodes, org)
      ensures Cached() == old(Cached()).(accounts := accounts, addresses := addresses)
    {
      hide Mirrors, WellKept, Fetched, AddressesUnder;
      FetchedKeys(accounts, dry && org >= orgsThere, gateway.state.held.nodes, org);
      ReadNodes(Cached(), Shown(), v, org);
      var ours := dry && org >= orgsThere;
      if org !in accounts && !ours {
        addresses := addresses + AddressesUnder(gateway.state.addresses, org);
      }
      accounts := Fetched(accounts, ours, gateway.state.held.nodes, org);
    }

    /** The node looked for, or else one made. */
    method FindOrMake(org: nat, p: Node -> bool, n: Node, done: seq<Deed>, ghost c: Course, ghost rest: seq<Write>)
        returns (at: Option<nat>, done': seq<Deed>, ghost c': Course)
      requires InHand(c) && org in accounts && done == c.done && Creating(verify, c)
      requires Left(verify, c) == Place(org, accounts[org], p, n).writes + rest
      modifies this, gateway
      ensures at.Some? ==>
        var found := Place(org, old(accounts)[org], p, n);
        && InHand(c') && org in accounts && accounts[org] == found.nodes && at.value == found.at
        && done' == c'.done && Creating(verify, c') && Left(verify, c') == rest
        && c'.v0 == c.v0 && c'.r == c.r && c'.had == c.had
      ensures at.None? ==> Loaded(dry, verify, c.v0, c.r, c.had, None, gateway.answers, gateway.state)
      ensures dry ==> at.Some? && gateway.state == old(gateway.state)
    {
      hide Under, Left, Loaded, Apply, Mirrors, Noted, Creating;
      var nodes := accounts[org];
      at, done', c' := First(p, nodes), done, c;
      if at.Some? {
        return;
      }
      var w := CreateNode(org, n, None);
      StillCreating(dry, verify, c, gateway.answers);
      NewNodeCached(Cached(), org, n, None);
      var ok := Make(w, c);
      if ok {
        at, done', c' := Some(|nodes|), done + [MadeNode(n.tier, n.name)], Step(c, w);
      }
    }

    /** A customer's region, location and site, and then the site's address. */
    method LoadTree(r: Row, org: nat, done: seq<Deed>, ghost c: Course, ghost address: seq<Write>)
        returns (report: Option<Report>)
      requires r.CustomerRow? && c.r == r && InHand(c) && org in accounts && done == c.done && Creating(verify, c)
      requires Left(verify, c) == TreeSteps(org, accounts[org], r).writes + address
      requires StepsOf(verify, c.v0.held, r).end == TreeSteps(org, accounts[org], r).end
      requires forall w :: w in address ==> w.SetAddress?
      requires StepsOf(verify, c.v0.held, r).end.Refused? ==> address == []
      modifies this, gateway
      ensures Loaded(dry, verify, c.v0, r, c.had, report, gateway.answers, gateway.state)
      ensures report.Some? ==> Ready(After(verify, c.v0, r))
      ensures dry ==> gateway.state == old(gateway.state)
    {
      hide Under, Left, Loaded, Apply, Mirrors, Noted, Creating, StepsOf, Plan, After, WellKept, First, SiteSteps;
      ghost var nodes := accounts[org];
      ghost var inRegion := LocationSteps(org, Place(org, nodes, IsRegion(r.region), RegionNode(r)).nodes,
                                          Place(org, nodes, IsRegion(r.region), RegionNode(r)).at, r);
      AppendAssociates(Place(org, nodes, IsRegion(r.region), RegionNode(r)).writes, inRegion.writes, address);
      var reg, done1; ghost var c1;
      reg, done1, c1 := FindOrMake(org, IsRegion(r.region), RegionNode(r), done, c, inRegion.writes + address);
      if reg.None? {
        return None;
      }
      var p, n := IsLocation(reg.value, r.location.key), Node(LocationTier, r.location, Some(reg.value), r.region, None, true);
      ghost var there := Place(org, accounts[org], p, n);
      ghost var inLocation := SiteSteps(org, there.nodes, there.at, r);
      AppendAssociates(there.writes, inLocation.writes, address);
      var loc, done2; ghost var c2;
      loc, done2, c2 := FindOrMake(org, p, n, done1, c1, inLocation.writes + address);
      if loc.None? {
        return None;
      }
      report := LoadSite(r, org, loc.value, done2, c2, address);
    }

    method LoadSite(r: Row, org: nat, loc: nat, done: seq<Deed>, ghost c: Course, ghost address: seq<Write>)
        returns (report: Option<Report>)
      requires r.CustomerRow? && c.r == r && InHand(c) && org in accounts && done == c.done && Creating(verify, c)
      requires Left(verify, c) == SiteSteps(org, accounts[org], loc, r).writes + address
      requires StepsOf(verify, c.v0.held, r).end == SiteSteps(org, accounts[org], loc, r).end
      requires forall w :: w in address ==> w.SetAddress?
      requires StepsOf(verify, c.v0.held, r).end.Refused? ==> address == []
      modifies this, gateway
      ensures Loaded(dry, verify, c.v0, r, c.had, report, gateway.answers, gateway.state)
      ensures report.Some? ==> Ready(After(verify, c.v0, r))
      ensures dry ==> gateway.state == old(gateway.state)
    {
      hide Under, Left, Loaded, Apply, Mirrors, Noted, StepsOf, Plan, After, WellKept, QuoteOf, Creating, OutcomeOf;
      var nodes := accounts[org];
      var have := First(IsSite(r.siteRef, loc, r.site.key), nodes);
      if have.None? {
        var w := CreateNode(org, Node(SiteTier, r.site, Some(loc), r.region, r.siteRef, true), Some(r.address));
        assert Left(verify, c)[0] == w;
        SiteIsLast(dry, verify, c, gateway.answers);
        BuiltFirst(dry, verify, c, gateway.answers);
        MadeUnquoted(dry, verify, c, gateway.answers);
        report := MakeLast(w, Created, done, Unquoted, c);
        return;
      }
      if nodes[have.value].parent != Some(loc) {
        SitelessQuote(verify, c.v0, r);
        Finished(dry, verify, c, gateway.answers, gateway.state);
        RefusedOutcome(Plan(verify, c.v0, r), StepsOf(verify, c.v0.held, r).end);
        return Refusal(SiteElsewhere, done, Unquoted);
      }
      report := LoadAddress(r, org, have.value, done, c);
    }

    /** The row's address over the one on file, if a field of it differs. */
    method LoadAddress(r: Row, org: nat, at: nat, done: seq<Deed>, ghost c: Course) returns (report: Option<Report>)
      requires r.CustomerRow? && c.r == r && InHand(c) && org in accounts && at < |accounts[org]| && done == c.done
      requires Creating(verify, c) && StepsOf(verify, c.v0.held, r).end == Done(Some((org, at)))
      requires forall w :: w in Left(verify, c) ==> w.SetAddress?
      modifies this, gateway
      ensures Loaded(dry, verify, c.v0, r, c.had, report, gateway.answers, gateway.state)
      ensures report.Some? ==> Ready(After(verify, c.v0, r))
      ensures dry ==> gateway.state == old(gateway.state)
    {
      hide Under, Left, Loaded, Apply, Mirrors, Noted, StepsOf, Plan, After, WellKept, QuoteOf, Creating, OutcomeOf;
      var site, name := (org, at), accounts[org][at].name;
      DoneIsMade(dry, verify, c, gateway.answers);
      CachedNodes(Cached(), Shown(), c.v, org);
      BuiltFirst(dry, verify, c, gateway.answers);
      AtSite(dry, verify, c, gateway.answers, site);
      CachedAddress(Cached(), Shown(), c.v, site);
      FoundQuoted(dry, verify, c, gateway.answers, site);
      var had := AddressOf(addresses, site);
      if forall f | f in r.address :: f in had && had[f] == r.address[f] {
        Finished(dry, verify, c, gateway.answers, gateway.state);
        return Loading(if done == [] then Skipped else Created, done, if done == [] then SiteQuoted(name) else Unquoted);
      }
      report := MakeLast(SetAddress(org, at, had + r.address), if done == [] then Updated else Created, done, SiteQuoted(name), c);
    }

    method LoadCustomer(r: Row, ghost v: Gate) returns (report: Option<Report>)
      requires Ready(v) && r.CustomerRow? && RowOk(r)
      modifies this, gateway
      ensures Loaded(dry, verify, v, r, old(gateway.answers), report, gateway.answers, gateway.state)
      ensures report.Some? ==> Ready(After(verify, v, r))
      ensures dry ==> gateway.state == old(gateway.state)
    {
      hide Apply, Plan, Loaded, Under, WellKept, Mirrors, FirmsAgree, After, Noted, ReportOf, TreeSteps, OrgAt;
      hide FirmSteps, CrewSteps, TechSteps, CredSteps, AgreementSteps;
      hide QuoteOf;
      ghost var c, had := Course(v, r, gateway.answers, 0, v, []), gateway.answers;
      Begins(dry, verify, v, r, had);
      Agreed(Cached(), Shown(), v);
      ghost var address := TreeThenAddress(verify, v, r);
      SitelessQuote(verify, v, r);
      if !(r.region in regions && regions[r.region]) {
        Rejects(dry, verify, v, r, RegionNotServed, Unquoted, had, gateway.state);
        return Refusal(RegionNotServed, [], Unquoted);
      }
      if r.ref in orgs && orgs[r.ref].segment.Some? && orgs[r.ref].segment != Some(r.segment) {
        Rejects(dry, verify, v, r, SegmentDiffers, SegmentQuoted(orgs[r.ref].segment), had, gateway.state);
        return Refusal(SegmentDiffers, [], SegmentQuoted(orgs[r.ref].segment));
      }
      var org := Org(Some(r.ref), r.name, Some(r.segment));
      if r.segment == Residential {
        if r.ref in orgs {
          Skips(dry, verify, v, r, Unquoted, had, gateway.state);
          return Loading(Skipped, [], Unquoted);
        }
        report := MakeLast(CreateHousehold(org), Created, [], Unquoted, c);
        return;
      }
      if r.ref in orgs {
        var at := orgs[r.ref].at;
        ReadAccounts(at, v);
        report := LoadTree(r, at, [], c, address);
        return;
      }
      report := NewCustomer(r, org, c, address);
    }

    /** A new organization, with its first region, and then the rest of its tree. */
    method NewCustomer(r: Row, org: Org, ghost c: Course, ghost address: seq<Write>) returns (report: Option<Report>)
      requires r.CustomerRow? && c.r == r && c.k == 0 && c.done == [] && InHand(c) && org.name == r.name
      requires Left(verify, c) == [CreateOrg(org, RegionNode(r))] + TreeSteps(made, [RegionNode(r)], r).writes + address
      requires StepsOf(verify, c.v0.held, r).end == TreeSteps(made, [RegionNode(r)], r).end
      requires forall w :: w in address ==> w.SetAddress?
      requires StepsOf(verify, c.v0.held, r).end.Refused? ==> address == []
      modifies this, gateway
      ensures Loaded(dry, verify, c.v0, r, c.had, report, gateway.answers, gateway.state)
      ensures report.Some? ==> Ready(After(verify, c.v0, r))
      ensures dry ==> gateway.state == old(gateway.state)
    {
      hide Apply, Plan, Loaded, Under, WellKept, Mirrors, After, Noted, ReportOf, StepsOf, TreeSteps, Left;
      var at, w := made, CreateOrg(org, RegionNode(r));
      StillCreating(dry, verify, c, gateway.answers);
      NewOrgCached(Cached(), org, RegionNode(r));
      var ok := Make(w, c);
      if !ok {
        return None;
      }
      report := LoadTree(r, at, [] + [Made(r.name)], Step(c, w), address);
    }

    method ContractsOf(org: nat, ghost v: Gate) returns (held: seq<Contract>)
      requires Ready(v) && org < made
      modifies this
      ensures Ready(v) && org in contracts && held == Of(v.held.contracts, org)
      ensures Cached() == old(Cached()).(contracts := contracts) && crewsThere == old(crewsThere) && orgsThere == old(orgsThere)
    {
      hide Mirrors, WellKept;
      ReadContracts(Cached(), Shown(), v, org);
      contracts := Fetched(contracts, dry && org >= orgsThere, gateway.state.held.contracts, org);
      held := contracts[org];
    }

    method OverridesOf(org: nat, ghost v: Gate) returns (held: seq<Override>)
      requires Ready(v) && org < made
      modifies this
      ensures Ready(v) && org in overrides && overrides[org] == held == Of(v.held.overrides, org)
      ensures Cached() == old(Cached()).(overrides := overrides)
    {
      hide Mirrors, WellKept;
      ReadOverrides(Cached(), Shown(), v, org);
      overrides := Fetched(overrides, dry && org >= orgsThere, gateway.state.held.overrides, org);
      held := overrides[org];
    }

    /** Every term is checked before any is written: the first that is on file otherwise. */
    static method FirstConflict(held: seq<Override>, contract: nat, terms: seq<Term>) returns (found: Option<nat>)
      ensures found.Some? <==> Conflicts(held, contract, terms)
      ensures found == First(IsConflict(held, contract), terms)
    {
      for i := 0 to |terms|
        invariant forall j :: 0 <= j < i ==> !IsConflict(held, contract)(terms[j])
      {
        var on := OnFile(held, contract, terms[i].key);
        if on.Some? && held[on.value].value != terms[i].value {
          assert terms[i] in terms && IsConflict(held, contract)(terms[i]);
          return Some(i);
        }
      }
      return None;
    }

    /** The terms not on file, written one by one. */
    method WriteTerms(r: Row, org: nat, at: nat, soFar: seq<Deed>, ghost start: Course, ghost rest: seq<Write>)
        returns (ok: bool, done: seq<Deed>, ghost c: Course)
      requires r.AgreementRow? && start.r == r && InHand(start) && org in overrides && org in contracts
      requires soFar == start.done && Telling(verify, start)
      requires Left(verify, start) == TermSteps(org, at, overrides[org], r.terms) + rest
      modifies this, gateway
      ensures ok ==> InHand(c) && org in contracts && done == c.done && Telling(verify, c) && Left(verify, c) == rest
      ensures c.v0 == start.v0 && c.r == r && c.had == start.had
      ensures !ok ==> Loaded(dry, verify, start.v0, r, start.had, None, gateway.answers, gateway.state)
      ensures dry ==> ok && gateway.state == old(gateway.state)
    {
      hide Under, Left, Loaded, Apply, Mirrors, Noted, StepsOf, Plan, After, WellKept, OnFile, Telling;
      ok, done, c := true, soFar, start;
      assert r.terms[0..] == r.terms;
      for i := 0 to |r.terms|
        invariant ok && InHand(c) && org in overrides && org in contracts && done == c.done && Telling(verify, c)
        invariant c.v0 == start.v0 && c.r == r && c.had == start.had
        invariant Left(verify, c) == TermSteps(org, at, overrides[org], r.terms[i..]) + rest
        invariant dry ==> gateway.state == old(gateway.state)
      {
        var t := r.terms[i];
        NextTerm(org, at, overrides[org], r.terms, i, rest);
        if OnFile(overrides[org], at, t.key).None? {
          var w := AuthorTerm(org, Override(at, true, t.key, t.value));
          StillTelling(dry, verify, c, gateway.answers);
          NewTermCached(Cached(), org, w.term);
          ok := Make(w, c);
          if !ok {
            return;
          }
          c, done := Step(c, w), done + [TermAdded(t.key)];
        }
      }
      assert r.terms[|r.terms|..] == [];
    }

    method LoadTerms(r: Row, org: nat, at: nat, draft: bool, soFar: seq<Deed>, quote: Quote, ghost start: Course)
        returns (report: Option<Report>)
      requires r.AgreementRow? && start.r == r && InHand(start) && org in overrides && org in contracts
      requires quote == QuoteOf(verify, start.v0, r)
      requires soFar == start.done && Telling(verify, start) && StepsOf(verify, start.v0.held, r).end.Done?
      requires Left(verify, start) == TermSteps(org, at, overrides[org], r.terms)
                                      + if r.activate && draft then [ActivateContract(org, at)] else []
      modifies this, gateway
      ensures Loaded(dry, verify, start.v0, r, start.had, report, gateway.answers, gateway.state)
      ensures report.Some? ==> Ready(After(verify, start.v0, r))
      ensures dry ==> gateway.state == old(gateway.state)
    {
      hide Under, Left, Loaded, Apply, Mirrors, Noted, StepsOf, Plan, After, WellKept, TermSteps, QuoteOf;
      ghost var rest := if r.activate && draft then [ActivateContract(org, at)] else [];
      var ok, done; ghost var c;
      ok, done, c := WriteTerms(r, org, at, soFar, start, rest);
      if !ok {
        return None;
      }
      DoneIsMade(dry, verify, c, gateway.answers);
      var outcome := if done != [] && done[0] == Drafted then Created else Updated;
      if r.activate && draft {
        report := MakeLast(ActivateContract(org, at), outcome, done, quote, c);
        return;
      }
      Finished(dry, verify, c, gateway.answers, gateway.state);
      return Loading(if done == [] then Skipped else outcome, done, quote);
    }

    /** The region an agreement row is administered from, if it is served. */
    method RegionFor(r: Row, org: nat, ghost v: Gate) returns (region: Option<Id>)
      requires r.AgreementRow? && org in accounts && accounts[org] == Of(v.held.nodes, org) && regions == v.held.regions
      ensures region == var from := ServedFrom(v.held, org, r);
        if from.Some? && Served(v.held, from.value) then from else None
    {
      var first := First(IsLiveRegion(), accounts[org]);
      region := if r.servedFrom.Some? then r.servedFrom
                else if first.Some? then Some(accounts[org][first.value].region) else None;
      if region.Some? && !(region.value in regions && regions[region.value]) {
        region := None;
      }
    }

    method LoadAgreement(r: Row, ghost v: Gate) returns (report: Option<Report>)
      requires Ready(v) && r.AgreementRow? && RowOk(r)
      modifies this, gateway
      ensures Loaded(dry, verify, v, r, old(gateway.answers), report, gateway.answers, gateway.state)
      ensures report.Some? ==> Ready(After(verify, v, r))
      ensures dry ==> gateway.state == old(gateway.state)
    {
      hide Apply, Plan, Loaded, Under, WellKept, Mirrors, FirmsAgree, After, Noted, ReportOf, OrgAt, ServedFrom;
      hide FirmSteps, CrewSteps, TechSteps, CredSteps, CustomerSteps, OnAgreement;
      hide CrewQuote, TechQuote, CredQuote, CustomerQuote, ContractQuote;
      ghost var had := gateway.answers;
      PlanIsSteps(verify, v, r);
      Agreed(Cached(), Shown(), v);
      if r.customer !in orgs {
        Rejects(dry, verify, v, r, NoSuchCustomer, Unquoted, had, gateway.state);
        return Refusal(NoSuchCustomer, [], Unquoted);
      }
      var org := orgs[r.customer];
      if org.segment == Some(Residential) {
        Rejects(dry, verify, v, r, IsHousehold, CustomerQuoted(org.name), had, gateway.state);
        return Refusal(IsHousehold, [], CustomerQuoted(org.name));
      }
      ReadAccounts(org.at, v);
      var region := RegionFor(r, org.at, v);
      if r.servedFrom.Some? {
        ServedFromGiven(v.held, org.at, r);
      }
      if region.None? {
        var why := if r.servedFrom.Some? then RegionNotServed else NoRegion;
        Rejects(dry, verify, v, r, why, Unquoted, had, gateway.state);
        return Refusal(why, [], Unquoted);
      }
      report := LoadContract(r, org.at, region.value, org.name, v);
    }

    method LoadContract(r: Row, org: nat, region: Id, name: Name, ghost v: Gate) returns (report: Option<Report>)
      requires Ready(v) && r.AgreementRow? && RowOk(r) && org < made
      requires StepsOf(verify, v.held, r) == OnAgreement(org, Of(v.held.contracts, org), Of(v.held.overrides, org), region, r)
      requires QuoteOf(verify, v, r) == ContractQuote(name, Of(v.held.contracts, org), Of(v.held.overrides, org), r)
      modifies this, gateway
      ensures Loaded(dry, verify, v, r, old(gateway.answers), report, gateway.answers, gateway.state)
      ensures report.Some? ==> Ready(After(verify, v, r))
      ensures dry ==> gateway.state == old(gateway.state)
    {
      hide Apply, Plan, Loaded, Under, WellKept, Mirrors, After, Noted, ReportOf, StepsOf, TermSteps, Conflicts, Fetched;
      ghost var c, had := Course(v, r, gateway.answers, 0, v, []), gateway.answers;
      Begins(dry, verify, v, r, had);
      PlanIsSteps(verify, v, r);
      var held := ContractsOf(org, v);
      var have := First(IsMsa(r.effectiveFrom), held);
      var terms := OverridesOf(org, v);
      if have.Some? {
        var at := have.value;
        if held[at].signedAt != r.signedAt || held[at].billing != r.billing {
          Rejects(dry, verify, v, r, SignedDiffers, SigningQuoted(name, held[at].signedAt, held[at].billing), had, gateway.state);
          return Refusal(SignedDiffers, [], SigningQuoted(name, held[at].signedAt, held[at].billing));
        }
        var differs := FirstConflict(terms, at, r.terms);
        if differs.Some? {
          var key := r.terms[differs.value].key;
          var quote := TermQuoted(name, key, terms[OnFile(terms, at, key).value].value);
          Rejects(dry, verify, v, r, TermDiffers, quote, had, gateway.state);
          return Refusal(TermDiffers, [], quote);
        }
        report := LoadTerms(r, org, at, held[at].state == Draft, [], CustomerQuoted(name), c);
        return;
      }
      report := NewContract(r, org, |held|, Contract(true, r.effectiveFrom, r.effectiveTo, r.signedAt, r.billing, region, Draft), CustomerQuoted(name), c);
    }

    method NewContract(r: Row, org: nat, at: nat, contract: Contract, quote: Quote, ghost c: Course) returns (report: Option<Report>)
      requires r.AgreementRow? && c.r == r && c.k == 0 && c.done == [] && InHand(c) && org in overrides && org in contracts
      requires Left(verify, c) == [CreateContract(org, contract)] + TermSteps(org, at, overrides[org], r.terms)
                                  + if r.activate then [ActivateContract(org, at)] else []
      requires StepsOf(verify, c.v0.held, r).end.Done?
      requires quote == QuoteOf(verify, c.v0, r)
      modifies this, gateway
      ensures Loaded(dry, verify, c.v0, r, c.had, report, gateway.answers, gateway.state)
      ensures report.Some? ==> Ready(After(verify, c.v0, r))
      ensures dry ==> gateway.state == old(gateway.state)
    {
      hide Apply, Plan, Loaded, Under, WellKept, Mirrors, After, Noted, ReportOf, StepsOf, TermSteps, Left, QuoteOf;
      var w := CreateContract(org, contract);
      StillTelling(dry, verify, c, gateway.answers);
      NewContractCached(Cached(), org, contract);
      var ok := Make(w, c);
      if !ok {
        return None;
      }
      report := LoadTerms(r, org, at, true, [] + [Drafted], quote, Step(c, w));
    }

    method LoadRow(r: Row, ghost v: Gate) returns (report: Option<Report>)
      requires Ready(v) && RowOk(r)
      modifies this, gateway
      ensures Loaded(dry, verify, v, r, old(gateway.answers), report, gateway.answers, gateway.state)
      ensures report.Some? ==> Ready(After(verify, v, r))
      ensures dry ==> gateway.state == old(gateway.state)
    {
      hide Loaded, Plan, After, WellKept, Mirrors, ReportOf;
      match r
      case FirmRow(_, _, _, _, _) => report := LoadFirm(r, v);
      case CrewRow(_, _, _, _) => report := LoadCrew(r, v);
      case TechRow(_, _, _, _, _) => report := LoadTechnician(r, v);
      case CredRow(_, _, _, _, _, _, _, _) => report := LoadCredential(r, v);
      case CustomerRow(_, _, _, _, _, _, _, _, _) => report := LoadCustomer(r, v);
      case AgreementRow(_, _, _, _, _, _, _, _) => report := LoadAgreement(r, v);
      case Unreadable(_) =>
        Rejects(dry, verify, v, r, BadRow, Unquoted, gateway.answers, gateway.state);
        report := Refusal(BadRow, [], Unquoted);
    }

    /** Every row of the files, in order; `stopped` when the gateway stopped answering. */
    method Run(rs: seq<Row>, ghost v: Gate) returns (reports: seq<Report>, stopped: bool)
      requires Ready(v) && RowsOk(rs)
      modifies this, gateway
      ensures Came(dry, verify, v, rs, old(gateway.answers), reports, stopped, gateway.answers, gateway.state)
      ensures dry ==> gateway.state == old(gateway.state)
    {
      hide Loaded, Plan, After, WellKept, Mirrors, ReportOf, Import, Reports, RunWrites, RowOk;
      reports, stopped := [], false;
      ghost var g := v;
      assert rs[..0] == [];
      RunOfNothing(verify, v);
      for i := 0 to |rs|
        invariant !stopped && Ready(g) && g == Import(verify, v, rs[..i]) && reports == Reports(verify, v, rs[..i])
        invariant if dry then gateway.answers == old(gateway.answers)
                  else gateway.answers + |RunWrites(verify, v, rs[..i])| == old(gateway.answers)
        invariant dry ==> gateway.state == old(gateway.state)
      {
        assert rs[i] in rs;
        var had := gateway.answers;
        RunOneOn(verify, v, rs, i);
        var report := LoadRow(rs[i], g);
        if report.None? {
          RunStops(dry, verify, v, rs, i, had, old(gateway.answers), gateway.answers, gateway.state);
          stopped := true;
          return;
        }
        RowLoaded(dry, verify, g, rs[i], had, report.value, gateway.answers, gateway.state);
        reports, g := reports + [report.value], After(verify, g, rs[i]);
      }
      assert rs[..|rs|] == rs;
      Agreed(Cached(), Shown(), g);
    }
  }

  /** A whole import of the files' rows, in the files' order. */
  method RunImport(gateway: Gateway, rs: seq<Row>, dry: bool, verify: bool) returns (reports: seq<Report>, stopped: bool)
    requires WellKept(gateway.state) && NoOrphans(gateway.state) && RowsOk(rs)
    modifies gateway
    ensures Came(dry, verify, old(gateway.state), rs, old(gateway.answers), reports, stopped, gateway.answers, gateway.state)
    ensures dry ==> gateway.state == old(gateway.state)
  {
    var importer := new Importer(gateway, dry, verify);
    reports, stopped := importer.Run(rs, gateway.state);
  }
}
