/** The importer's cached index, and what it means for it to show what the gateway holds. */
module ImportIndex {
  import opened Common
  import opened ImportModel
  import opened ImportSteps
  import opened ImportStays
  import opened ImportRuns
  import opened ImportTheorems

  /** What is kept of an organization: its place, its name and its segment. */
  datatype OrgEntry = OrgEntry(at: nat, name: Name, segment: Option<Segment>)

  /** The index. Firms, crews, technicians and organizations are read at the start; nodes (with their addresses),
      contracts, terms and credentials when first asked for. `made` counts organizations, this run's own included. */
  datatype Index = Index(regions: map<Id, bool>, firms: seq<Firm>, crews: seq<Crew>, techs: seq<Tech>,
                         orgs: map<Id, OrgEntry>, made: nat, accounts: map<nat, seq<Node>>, addresses: map<Site, Address>,
                         contracts: map<nat, seq<Contract>>, overrides: map<nat, seq<Override>>, creds: map<nat, seq<Cred>>)

  /** What a read of the gateway would show: its state, and in a dry run which rows are only this run's own. */
  datatype Source = Source(dry: bool, orgs: nat, crews: nat, gate: Gate)

  function Seen<T>(cache: map<nat, seq<T>>, ours: bool, table: map<nat, seq<T>>, k: nat): seq<T> {
    if k in cache then cache[k] else if ours then [] else Of(table, k)
  }

  function SeenAddress(ix: Index, s: Source, site: Site): Address {
    if site.0 in ix.accounts then AddressOf(ix.addresses, site)
    else if s.dry && site.0 >= s.orgs then map[] else AddressOf(s.gate.addresses, site)
  }

  /** Names and statuses agree, and while a firm is onboarding so does its signing date: an activation here leaves
      the index's date as it was. */
  ghost predicate FirmsAgree(fs: seq<Firm>, gs: seq<Firm>) {
    && |fs| == |gs|
    && forall i :: 0 <= i < |fs| ==>
         && fs[i].name == gs[i].name && fs[i].status == gs[i].status
         && (fs[i].status == Onboarding ==> fs[i].msa == gs[i].msa)
  }

  ghost predicate OrgsAgree(m: map<Id, OrgEntry>, orgs: seq<Org>) {
    forall ref: Id ::
      && (ref in m <==> OrgAt(orgs, ref).Some?)
      && (ref in m ==> m[ref].at == OrgAt(orgs, ref).value && m[ref].name == orgs[m[ref].at].name
                       && m[ref].segment == orgs[m[ref].at].segment)
  }

  /** What the cache holds, read through to the gateway where it holds nothing, is what is there. */
  ghost predicate Shows<T(!new)>(cache: map<nat, seq<T>>, dry: bool, since: nat, table: map<nat, seq<T>>, all: map<nat, seq<T>>) {
    forall k: nat :: Seen(cache, dry && k >= since, table, k) == Of(all, k)
  }

  ghost predicate TablesAgree(ix: Index, s: Source, v: Gate) {
    && Shows(ix.accounts, s.dry, s.orgs, s.gate.held.nodes, v.held.nodes)
    && Shows(ix.contracts, s.dry, s.orgs, s.gate.held.contracts, v.held.contracts)
    && Shows(ix.overrides, s.dry, s.orgs, s.gate.held.overrides, v.held.overrides)
    && Shows(ix.creds, s.dry, s.crews, s.gate.held.creds, v.held.creds)
    && forall t: Site :: SeenAddress(ix, s, t) == AddressOf(v.addresses, t)
  }

  /** The index shows `v`: the gateway's state, or in a dry run the state it would have. */
  ghost predicate Mirrors(ix: Index, s: Source, v: Gate) {
    && ix.regions == v.held.regions
    && FirmsAgree(ix.firms, v.held.firms) && ix.crews == v.held.crews && ix.techs == v.held.techs
    && OrgsAgree(ix.orgs, v.held.orgs) && ix.made == |v.held.orgs|
    && TablesAgree(ix, s, v)
    && (!s.dry ==> s.gate == v)
    && s.orgs <= |v.held.orgs| && s.crews <= |v.held.crews|
    && (forall o :: o in ix.accounts || o in ix.contracts || o in ix.overrides ==> o < ix.made)
    && (forall t: Site :: t in ix.addresses ==> t.0 in ix.accounts)
  }

  function Afterwards(s: Source, v: Gate): Source {
    if s.dry then s else s.(gate := v)
  }

  /** What the importer does to its index when a write has gone through. */
  function Noted(ix: Index, w: Write): Index {
    match w
    case CreateFirm(f) => ix.(firms := ix.firms + [f])
    case ActivateFirm(at, _) => ix.(firms := Update(ix.firms, at, (f: Firm) => f.(status := InService)))
    case CreateCrew(c) => ix.(crews := ix.crews + [c])
    case CreateTech(t) => ix.(techs := ix.techs + [t])
    case RecordCred(k, c) => ix.(creds := ix.creds[k := Of(ix.creds, k) + [c]])
    case VerifyCred(k, at) => ix.(creds := ix.creds[k := Update(Of(ix.creds, k), at, Verified())])
    case CreateOrg(org, node) => WithOrg(ix, org).(accounts := ix.accounts[ix.made := [node]])
    case CreateHousehold(org) => WithOrg(ix, org)
    case CreateNode(o, n, a) =>
      ix.(accounts := ix.accounts[o := Of(ix.accounts, o) + [n]],
          addresses := if a.Some? then ix.addresses[(o, |Of(ix.accounts, o)|) := a.value] else ix.addresses)
    case SetAddress(o, at, a) => ix.(addresses := ix.addresses[(o, at) := a])
    case CreateContract(o, c) => ix.(contracts := ix.contracts[o := Of(ix.contracts, o) + [c]])
    case AuthorTerm(o, t) => ix.(overrides := ix.overrides[o := Of(ix.overrides, o) + [t]])
    case ActivateContract(o, at) => ix.(contracts := ix.contracts[o := Update(Of(ix.contracts, o), at, Enlivened())])
  }

  function WithOrg(ix: Index, org: Org): Index {
    ix.(orgs := if org.ref.Some? then ix.orgs[org.ref.value := OrgEntry(ix.made, org.name, org.segment)] else ix.orgs,
        made := ix.made + 1)
  }

  /** The list a write changes has been read. */
  ghost predicate ReadFor(ix: Index, w: Write) {
    match w
    case RecordCred(k, _) => k in ix.creds
    case VerifyCred(k, _) => k in ix.creds
    case CreateNode(o, _, _) => o in ix.accounts
    case SetAddress(o, _, _) => o in ix.accounts
    case CreateContract(o, _) => o in ix.contracts
    case ActivateContract(o, _) => o in ix.contracts
    case AuthorTerm(o, _) => o in ix.overrides
    case _ => true
  }

  lemma {:induction false} StaysRead(ix: Index, w: Write)
    ensures var ix' := Noted(ix, w);
      && ix.creds.Keys <= ix'.creds.Keys && ix.accounts.Keys <= ix'.accounts.Keys
      && ix.contracts.Keys <= ix'.contracts.Keys && ix.overrides.Keys <= ix'.overrides.Keys
  {
  }

  // ---- the index stays a mirror ----

  lemma {:induction false} OrgsAgreeAppend(m: map<Id, OrgEntry>, orgs: seq<Org>, org: Org)
    requires OrgsAgree(m, orgs) && org.ref.Some?
    ensures OrgsAgree(m[org.ref.value := OrgEntry(|orgs|, org.name, org.segment)], orgs + [org])
  {
    hide Last;
    forall ref: Id ensures OrgAt(orgs + [org], ref) == if org.ref == Some(ref) then Some(|orgs|) else OrgAt(orgs, ref) {
      LastAppend(IsOrg(ref), orgs, org);
    }
  }

  lemma {:induction false} NotedOrg(ix: Index, s: Source, v: Gate, w: Write)
    requires Mirrors(ix, s, v) && WellKept(v) && Admissible(v.held, w) && (w.CreateOrg? || w.CreateHousehold?)
    ensures Mirrors(Noted(ix, w), Afterwards(s, Apply(v, w)), Apply(v, w))
  {
    hide OrgAt, OrgsAgree, FirmsAgree, Shows, SeenAddress, AddressOf;
    OrgsAgreeAppend(ix.orgs, v.held.orgs, w.org);
    NewOrgNodes(ix, s, v, w);
    NewOrgAddresses(ix, s, v, w);
  }

  lemma {:induction false} NewOrgNodes(ix: Index, s: Source, v: Gate, w: Write)
    requires Mirrors(ix, s, v) && (w.CreateOrg? || w.CreateHousehold?)
    ensures var v', ix' := Apply(v, w), Noted(ix, w);
      var s' := Afterwards(s, v');
      Shows(ix'.accounts, s'.dry, s'.orgs, s'.gate.held.nodes, v'.held.nodes)
  {
    hide OrgAt, OrgsAgree, FirmsAgree, SeenAddress, AddressOf;
    var v', ix', s' := Apply(v, w), Noted(ix, w), Afterwards(s, Apply(v, w));
    forall k: nat ensures Seen(ix'.accounts, s'.dry && k >= s'.orgs, s'.gate.held.nodes, k) == Of(v'.held.nodes, k) {
      assert Seen(ix.accounts, s.dry && k >= s.orgs, s.gate.held.nodes, k) == Of(v.held.nodes, k);
    }
  }

  lemma {:induction false} NewOrgAddresses(ix: Index, s: Source, v: Gate, w: Write)
    requires Mirrors(ix, s, v) && WellKept(v) && (w.CreateOrg? || w.CreateHousehold?)
    ensures var v', ix' := Apply(v, w), Noted(ix, w);
      forall t: Site :: SeenAddress(ix', Afterwards(s, v'), t) == AddressOf(v'.addresses, t)
  {
    hide OrgAt, OrgsAgree, FirmsAgree, Shows;
    var v', ix' := Apply(v, w), Noted(ix, w);
    forall t: Site ensures SeenAddress(ix', Afterwards(s, v'), t) == AddressOf(v'.addresses, t) {
      assert SeenAddress(ix, s, t) == AddressOf(v.addresses, t);
    }
  }

  lemma {:induction false} Changed<T(!new)>(cache: map<nat, seq<T>>, dry: bool, since: nat, table: map<nat, seq<T>>,
                                            all: map<nat, seq<T>>, k: nat, xs: seq<T>)
    requires Shows(cache, dry, since, table, all) && k in cache
    ensures Of(cache, k) == Of(all, k)
    ensures Shows(cache[k := xs], dry, since, table, all[k := xs])
    ensures Shows(cache[k := xs], dry, since, table[k := xs], all[k := xs])
  {
    assert Seen(cache, dry && k >= since, table, k) == Of(all, k);
    var cache', table', all' := cache[k := xs], table[k := xs], all[k := xs];
    forall j: nat ensures Seen(cache', dry && j >= since, table, j) == Of(all', j) {
      assert Seen(cache, dry && j >= since, table, j) == Of(all, j);
    }
    forall j: nat ensures Seen(cache', dry && j >= since, table', j) == Of(all', j) {
      assert Seen(cache, dry && j >= since, table, j) == Of(all, j);
    }
  }

  /** Every write but a new organization. */
  lemma {:induction false} NotedOther(ix: Index, s: Source, v: Gate, w: Write)
    requires Mirrors(ix, s, v) && ReadFor(ix, w) && !w.CreateOrg? && !w.CreateHousehold?
    ensures Mirrors(Noted(ix, w), Afterwards(s, Apply(v, w)), Apply(v, w))
  {
    hide OrgAt, Shows;
    match w
    case CreateNode(o, n, a) => NotedNode(ix, s, v, o, n, a);
    case SetAddress(o, at, a) => NotedAddress(ix, s, v, o, at, a);
    case CreateFirm(_) => NotedRoster(ix, s, v, w);
    case ActivateFirm(_, _) => NotedRoster(ix, s, v, w);
    case CreateCrew(_) => NotedRoster(ix, s, v, w);
    case CreateTech(_) => NotedRoster(ix, s, v, w);
    case _ => NotedList(ix, s, v, w);
  }

  lemma {:induction false} NotedRoster(ix: Index, s: Source, v: Gate, w: Write)
    requires Mirrors(ix, s, v) && (w.CreateFirm? || w.ActivateFirm? || w.CreateCrew? || w.CreateTech?)
    ensures Mirrors(Noted(ix, w), Afterwards(s, Apply(v, w)), Apply(v, w))
  {
    hide OrgAt, Shows, Of, OrgsAgree;
    var v', ix', s' := Apply(v, w), Noted(ix, w), Afterwards(s, Apply(v, w));
    SameAddresses(ix, s, v, ix', s', v');
  }

  lemma {:induction false} SameAddresses(ix: Index, s: Source, v: Gate, ix': Index, s': Source, v': Gate)
    requires forall t: Site :: SeenAddress(ix, s, t) == AddressOf(v.addresses, t)
    requires ix'.accounts == ix.accounts && ix'.addresses == ix.addresses && v'.addresses == v.addresses
    requires s'.dry == s.dry && s'.orgs == s.orgs && (s'.gate.addresses == s.gate.addresses)
    ensures forall t: Site :: SeenAddress(ix', s', t) == AddressOf(v'.addresses, t)
  {
    forall t: Site ensures SeenAddress(ix', s', t) == AddressOf(v'.addresses, t) {
      assert SeenAddress(ix, s, t) == AddressOf(v.addresses, t);
    }
  }

  lemma {:induction false} NotedList(ix: Index, s: Source, v: Gate, w: Write)
    requires Mirrors(ix, s, v) && ReadFor(ix, w)
    requires w.RecordCred? || w.VerifyCred? || w.CreateContract? || w.ActivateContract? || w.AuthorTerm?
    ensures Mirrors(Noted(ix, w), Afterwards(s, Apply(v, w)), Apply(v, w))
  {
    hide OrgAt, Shows, OrgsAgree, FirmsAgree;
    var v', ix', s' := Apply(v, w), Noted(ix, w), Afterwards(s, Apply(v, w));
    SameAddresses(ix, s, v, ix', s', v');
    match w
    case RecordCred(k, _) => Changed(ix.creds, s.dry, s.crews, s.gate.held.creds, v.held.creds, k, Of(v'.held.creds, k));
    case VerifyCred(k, _) => Changed(ix.creds, s.dry, s.crews, s.gate.held.creds, v.held.creds, k, Of(v'.held.creds, k));
    case CreateContract(o, _) =>
      Changed(ix.contracts, s.dry, s.orgs, s.gate.held.contracts, v.held.contracts, o, Of(v'.held.contracts, o));
    case ActivateContract(o, _) =>
      Changed(ix.contracts, s.dry, s.orgs, s.gate.held.contracts, v.held.contracts, o, Of(v'.held.contracts, o));
    case AuthorTerm(o, _) =>
      Changed(ix.overrides, s.dry, s.orgs, s.gate.held.overrides, v.held.overrides, o, Of(v'.held.overrides, o));
  }

  lemma {:induction false} NotedNode(ix: Index, s: Source, v: Gate, o: nat, n: Node, a: Option<Address>)
    requires Mirrors(ix, s, v) && o in ix.accounts
    ensures var w := CreateNode(o, n, a); Mirrors(Noted(ix, w), Afterwards(s, Apply(v, w)), Apply(v, w))
  {
    hide OrgsAgree, FirmsAgree;
    hide OrgAt, Shows;
    var w := CreateNode(o, n, a);
    var v', ix', s' := Apply(v, w), Noted(ix, w), Afterwards(s, Apply(v, w));
    Changed(ix.accounts, s.dry, s.orgs, s.gate.held.nodes, v.held.nodes, o, Of(v'.held.nodes, o));
    forall t: Site ensures SeenAddress(ix', s', t) == AddressOf(v'.addresses, t) {
      assert SeenAddress(ix, s, t) == AddressOf(v.addresses, t);
    }
  }

  lemma {:induction false} NotedAddress(ix: Index, s: Source, v: Gate, o: nat, at: nat, a: Address)
    requires Mirrors(ix, s, v) && o in ix.accounts
    ensures var w := SetAddress(o, at, a); Mirrors(Noted(ix, w), Afterwards(s, Apply(v, w)), Apply(v, w))
  {
    hide OrgAt, Shows;
    var w := SetAddress(o, at, a);
    var v', ix', s' := Apply(v, w), Noted(ix, w), Afterwards(s, Apply(v, w));
    forall t: Site ensures SeenAddress(ix', s', t) == AddressOf(v'.addresses, t) {
      assert SeenAddress(ix, s, t) == AddressOf(v.addresses, t);
    }
  }

  // ---- at the start ----

  /** Only organizations and crews that are there have contracts, terms and credentials. */
  ghost predicate NoOrphans(g: Gate) {
    && (forall o :: o in g.held.contracts || o in g.held.overrides ==> o < |g.held.orgs|)
    && forall k :: k in g.held.creds ==> k < |g.held.crews|
  }

  lemma {:induction false} OrgsAgreeOneMore(m: map<Id, OrgEntry>, orgs: seq<Org>, org: Org)
    requires OrgsAgree(m, orgs)
    ensures OrgsAgree(if org.ref.Some? then m[org.ref.value := OrgEntry(|orgs|, org.name, org.segment)] else m, orgs + [org])
  {
    hide Last;
    if org.ref.Some? {
      OrgsAgreeAppend(m, orgs, org);
    } else {
      forall ref: Id ensures OrgAt(orgs + [org], ref) == OrgAt(orgs, ref) {
        LastAppend(IsOrg(ref), orgs, org);
      }
    }
  }

  lemma {:induction false} AtLoad(ix: Index, s: Source)
    requires var g := s.gate;
      && WellKept(g) && NoOrphans(g)
      && ix == Index(g.held.regions, g.held.firms, g.held.crews, g.held.techs, ix.orgs, |g.held.orgs|, map[], map[], map[],
                     map[], map[])
      && OrgsAgree(ix.orgs, g.held.orgs) && s.orgs == |g.held.orgs| && s.crews == |g.held.crews|
    ensures Mirrors(ix, s, s.gate)
  {
    hide OrgsAgree;
    forall t: Site ensures SeenAddress(ix, s, t) == AddressOf(s.gate.addresses, t) {
    }
  }

  // ---- reads ----

  /** What a first read of a list caches. */
  function Fetched<T>(cache: map<nat, seq<T>>, ours: bool, table: map<nat, seq<T>>, k: nat): map<nat, seq<T>> {
    if k in cache then cache else cache[k := if ours then [] else Of(table, k)]
  }

  function WithNodes(ix: Index, s: Source, o: nat): Index {
    ix.(accounts := Fetched(ix.accounts, s.dry && o >= s.orgs, s.gate.held.nodes, o),
        addresses := if o in ix.accounts || (s.dry && o >= s.orgs) then ix.addresses
                     else ix.addresses + AddressesUnder(s.gate.addresses, o))
  }

  function AddressesUnder(addresses: map<Site, Address>, o: nat): map<Site, Address> {
    map t | t in addresses && t.0 == o :: addresses[t]
  }

  lemma {:induction false} FetchedShows<T(!new)>(cache: map<nat, seq<T>>, dry: bool, since: nat, table: map<nat, seq<T>>,
                                                 all: map<nat, seq<T>>, k: nat)
    requires Shows(cache, dry, since, table, all)
    ensures var cache' := Fetched(cache, dry && k >= since, table, k);
      Shows(cache', dry, since, table, all) && k in cache' && cache'[k] == Of(all, k)
  {
    var cache' := Fetched(cache, dry && k >= since, table, k);
    assert Seen(cache, dry && k >= since, table, k) == Of(all, k);
    forall j: nat ensures Seen(cache', dry && j >= since, table, j) == Of(all, j) {
      assert Seen(cache, dry && j >= since, table, j) == Of(all, j);
    }
  }

  lemma {:induction false} FetchedAddress(ix: Index, s: Source, o: nat, t: Site)
    requires forall u: Site :: u in ix.addresses ==> u.0 in ix.accounts
    ensures SeenAddress(WithNodes(ix, s, o), s, t) == SeenAddress(ix, s, t)
    ensures t in WithNodes(ix, s, o).addresses ==> t.0 in WithNodes(ix, s, o).accounts
  {
    hide Of;
  }

  lemma {:induction false} ReadNodes(ix: Index, s: Source, v: Gate, o: nat)
    requires Mirrors(ix, s, v) && o < ix.made
    ensures var ix' := WithNodes(ix, s, o); Mirrors(ix', s, v) && o in ix'.accounts && ix'.accounts[o] == Of(v.held.nodes, o)
  {
    hide OrgAt, Shows, Fetched, OrgsAgree, FirmsAgree, AddressesUnder, SeenAddress, AddressOf;
    var ix' := WithNodes(ix, s, o);
    FetchedShows(ix.accounts, s.dry, s.orgs, s.gate.held.nodes, v.held.nodes, o);
    FetchedKeys(ix.accounts, s.dry && o >= s.orgs, s.gate.held.nodes, o);
    forall t: Site ensures SeenAddress(ix', s, t) == AddressOf(v.addresses, t) && (t in ix'.addresses ==> t.0 in ix'.accounts) {
      FetchedAddress(ix, s, o, t);
    }
  }

  lemma {:induction false} FetchedKeys<T>(cache: map<nat, seq<T>>, ours: bool, table: map<nat, seq<T>>, k: nat)
    ensures Fetched(cache, ours, table, k).Keys == cache.Keys + {k}
  {
  }

  lemma {:induction false} ReadContracts(ix: Index, s: Source, v: Gate, o: nat)
    requires Mirrors(ix, s, v) && o < ix.made
    ensures var ix' := ix.(contracts := Fetched(ix.contracts, s.dry && o >= s.orgs, s.gate.held.contracts, o));
      Mirrors(ix', s, v) && o in ix'.contracts && ix'.contracts[o] == Of(v.held.contracts, o)
  {
    hide OrgAt, Shows, Fetched, OrgsAgree;
    FetchedShows(ix.contracts, s.dry, s.orgs, s.gate.held.contracts, v.held.contracts, o);
    FetchedKeys(ix.contracts, s.dry && o >= s.orgs, s.gate.held.contracts, o);
    var ix' := ix.(contracts := Fetched(ix.contracts, s.dry && o >= s.orgs, s.gate.held.contracts, o));
    forall t: Site ensures SeenAddress(ix', s, t) == AddressOf(v.addresses, t) {
      assert SeenAddress(ix, s, t) == AddressOf(v.addresses, t);
    }
  }

  lemma {:induction false} ReadOverrides(ix: Index, s: Source, v: Gate, o: nat)
    requires Mirrors(ix, s, v) && o < ix.made
    ensures var ix' := ix.(overrides := Fetched(ix.overrides, s.dry && o >= s.orgs, s.gate.held.overrides, o));
      Mirrors(ix', s, v) && o in ix'.overrides && ix'.overrides[o] == Of(v.held.overrides, o)
  {
    hide OrgAt, Shows, Fetched, OrgsAgree;
    FetchedShows(ix.overrides, s.dry, s.orgs, s.gate.held.overrides, v.held.overrides, o);
    FetchedKeys(ix.overrides, s.dry && o >= s.orgs, s.gate.held.overrides, o);
    var ix' := ix.(overrides := Fetched(ix.overrides, s.dry && o >= s.orgs, s.gate.held.overrides, o));
    forall t: Site ensures SeenAddress(ix', s, t) == AddressOf(v.addresses, t) {
      assert SeenAddress(ix, s, t) == AddressOf(v.addresses, t);
    }
  }

  lemma {:induction false} ReadCreds(ix: Index, s: Source, v: Gate, k: nat)
    requires Mirrors(ix, s, v)
    ensures var ix' := ix.(creds := Fetched(ix.creds, s.dry && k >= s.crews, s.gate.held.creds, k));
      Mirrors(ix', s, v) && k in ix'.creds && ix'.creds[k] == Of(v.held.creds, k)
  {
    hide OrgAt, Shows, Fetched, OrgsAgree;
    FetchedShows(ix.creds, s.dry, s.crews, s.gate.held.creds, v.held.creds, k);
    var ix' := ix.(creds := Fetched(ix.creds, s.dry && k >= s.crews, s.gate.held.creds, k));
    forall t: Site ensures SeenAddress(ix', s, t) == AddressOf(v.addresses, t) {
      assert SeenAddress(ix, s, t) == AddressOf(v.addresses, t);
    }
  }

  /** Firms are found by name, and the names agree. */
  lemma {:induction false} FirmsFound(fs: seq<Firm>, gs: seq<Firm>, key: nat)
    requires FirmsAgree(fs, gs)
    ensures First(IsFirm(key), fs) == First(IsFirm(key), gs)
  {
    if fs != [] {
      FirmsFound(fs[..|fs| - 1], gs[..|gs| - 1], key);
    }
  }

  /** A site whose organization's nodes have been read has its address with them. */
  lemma {:induction false} CachedNodes(ix: Index, s: Source, v: Gate, o: nat)
    requires Mirrors(ix, s, v) && o in ix.accounts
    ensures ix.accounts[o] == Of(v.held.nodes, o)
  {
    hide OrgsAgree, FirmsAgree, SeenAddress;
    assert Seen(ix.accounts, s.dry && o >= s.orgs, s.gate.held.nodes, o) == Of(v.held.nodes, o);
  }

  lemma {:induction false} CachedAddress(ix: Index, s: Source, v: Gate, site: Site)
    requires Mirrors(ix, s, v) && site.0 in ix.accounts
    ensures AddressOf(ix.addresses, site) == AddressOf(v.addresses, site)
  {
    assert SeenAddress(ix, s, site) == AddressOf(v.addresses, site);
  }
}
