/** One row under way: its plan shrinks from the front by exactly the writes made, and what it reports when it is done. */
module ImportCourse {
  import opened Common
  import opened ImportModel
  import opened ImportSteps
  import opened ImportStays
  import opened ImportRuns
  import opened ImportTheorems
  import opened ImportIndex

  lemma {:induction false} WellKeptAfter(verify: bool, g: Gate, r: Row)
    requires RowOk(r) && WellKept(g) && Plan(verify, g, r) != []
    ensures WellKept(Apply(g, Plan(verify, g, r)[0])) && Admissible(g.held, Plan(verify, g, r)[0])
  {
    hide StepsOf, WellHeld;
    var s, w := StepsOf(verify, g.held, r), Plan(verify, g, r)[0];
    if s.writes != [] {
      FirstWriteIsOurs(verify, g.held, r);
      SiteWriteIsLast(verify, g.held, r);
      OneNodeMore(g.held, w);
    } else {
      SettledSiteIsThere(verify, g.held, r);
    }
  }

  /** After its first write the row's plan is exactly the rest, and the row ends the same. */
  lemma {:induction false} PlanOneOn(verify: bool, g: Gate, r: Row)
    requires RowOk(r) && WellKept(g) && Plan(verify, g, r) != []
    ensures var g' := Apply(g, Plan(verify, g, r)[0]);
      && Plan(verify, g', r) == Plan(verify, g, r)[1..]
      && StepsOf(verify, g'.held, r).end == StepsOf(verify, g.held, r).end
  {
    hide StepsOf, WellHeld, Put;
    var s, w := StepsOf(verify, g.held, r), Plan(verify, g, r)[0];
    if s.writes != [] {
      OneOn(verify, g.held, r);
      SiteWriteIsLast(verify, g.held, r);
      assert s.writes[0] == w;
    } else {
      SetPut(g.held, w);
    }
  }

  lemma {:induction false} SetPut(h: Held, w: Write)
    ensures w.SetAddress? ==> Put(h, w) == h
  {
  }

  /** `v` is where a row that began at `v0` stands after `k` of its writes. */
  ghost predicate At(verify: bool, v0: Gate, r: Row, k: nat, v: Gate) {
    && WellKept(v) && k <= |Plan(verify, v0, r)|
    && v == ApplyAll(v0, Plan(verify, v0, r)[..k])
    && Plan(verify, v, r) == Plan(verify, v0, r)[k..]
    && StepsOf(verify, v.held, r).end == StepsOf(verify, v0.held, r).end
  }

  lemma {:induction false} AtStart(verify: bool, v0: Gate, r: Row)
    requires WellKept(v0)
    ensures At(verify, v0, r, 0, v0)
  {
    hide Plan, StepsOf, WellKept;
    assert Plan(verify, v0, r)[..0] == [] && Plan(verify, v0, r)[0..] == Plan(verify, v0, r);
  }

  lemma {:induction false} AtNext(verify: bool, v0: Gate, r: Row, k: nat, v: Gate)
    requires RowOk(r) && At(verify, v0, r, k, v) && Plan(verify, v, r) != []
    ensures At(verify, v0, r, k + 1, Apply(v, Plan(verify, v, r)[0]))
    ensures Admissible(v.held, Plan(verify, v, r)[0])
  {
    hide Plan, StepsOf, WellKept, Apply, ApplyAll, Admissible;
    var plan := Plan(verify, v0, r);
    WellKeptAfter(verify, v, r);
    PlanOneOn(verify, v, r);
    assert plan[k..][1..] == plan[k + 1..];
    assert plan[..k] + [plan[k]] == plan[..k + 1];
    ApplyAllAppend(v0, plan[..k], [plan[k]]);
    OneApplied(v, plan[k]);
  }

  lemma {:induction false} OneApplied(v: Gate, w: Write)
    ensures ApplyAll(v, [w]) == Apply(v, w)
  {
    assert [w][1..] == [];
  }

  /** A row with nothing left has done all it came to do. */
  lemma {:induction false} AtEnd(verify: bool, v0: Gate, r: Row, k: nat, v: Gate)
    requires At(verify, v0, r, k, v) && Plan(verify, v, r) == []
    ensures v == After(verify, v0, r) && k == |Plan(verify, v0, r)|
  {
    hide Plan, StepsOf, WellKept, ApplyAll;
    assert Plan(verify, v0, r)[..k] == Plan(verify, v0, r);
  }

  lemma {:induction false} Agreed(ix: Index, s: Source, v: Gate)
    requires Mirrors(ix, s, v)
    ensures ix.regions == v.held.regions && ix.crews == v.held.crews && ix.techs == v.held.techs
    ensures FirmsAgree(ix.firms, v.held.firms) && OrgsAgree(ix.orgs, v.held.orgs) && ix.made == |v.held.orgs|
    ensures forall ref :: ref in ix.orgs ==> ix.orgs[ref].at < ix.made
    ensures !s.dry ==> s.gate == v
  {
    hide TablesAgree, FirmsAgree, Last;
  }

  /** What loading one row comes to. Dry, the report of the real run and nothing written; real, the row's whole plan
      if the gateway answers that often, and otherwise as much of it as it answered, with or without the write it did not
      answer, and no report. */
  ghost predicate Loaded(dry: bool, verify: bool, v: Gate, r: Row, had: nat, report: Option<Report>, left: nat, state: Gate) {
    var plan := Plan(verify, v, r);
    if dry then report == Some(ReportOf(verify, v, r)) && left == had
    else if |plan| <= had then report == Some(ReportOf(verify, v, r)) && left == had - |plan|
    else report == None && left == 0 && (state == ApplyAll(v, plan[..had]) || state == ApplyAll(v, plan[..had + 1]))
  }

  function Refusal(why: Reason, done: seq<Deed>, quote: Quote): Option<Report> {
    Some(Report(Rejected, done, Some(why), quote))
  }

  function Loading(outcome: Outcome, done: seq<Deed>, quote: Quote): Option<Report> {
    Some(Report(outcome, done, None, quote))
  }

  /** A row under way: it began at `v0` with `had` answers to come, has made `k` writes, as `done` says, and stands
      at `v`. */
  datatype Course = Course(v0: Gate, r: Row, had: nat, k: nat, v: Gate, done: seq<Deed>)

  ghost predicate Under(dry: bool, verify: bool, c: Course, left: nat) {
    && RowOk(c.r) && At(verify, c.v0, c.r, c.k, c.v) && c.done == Deeds(Plan(verify, c.v0, c.r)[..c.k])
    && (if dry then left == c.had else left + c.k == c.had)
  }

  /** What a row under way has still to write. */
  ghost function Left(verify: bool, c: Course): seq<Write> {
    Plan(verify, c.v, c.r)
  }

  ghost function Step(c: Course, w: Write): Course {
    c.(k := c.k + 1, v := Apply(c.v, w), done := c.done + [DeedOf(w)])
  }

  lemma {:induction false} Begins(dry: bool, verify: bool, v: Gate, r: Row, had: nat)
    requires WellKept(v) && RowOk(r)
    ensures Under(dry, verify, Course(v, r, had, 0, v, []), had)
  {
    hide Plan, WellKept, At;
    AtStart(verify, v, r);
  }

  /** One write on: the index noted it, and the row has one write fewer to make. */
  lemma {:induction false} Onward(ix: Index, s: Source, dry: bool, verify: bool, c: Course, left: nat)
    requires Mirrors(ix, s, c.v) && Under(dry, verify, c, left) && Left(verify, c) != []
    requires ReadFor(ix, Left(verify, c)[0]) && (dry || left > 0)
    ensures var w := Left(verify, c)[0];
      && Mirrors(Noted(ix, w), Afterwards(s, Apply(c.v, w)), Apply(c.v, w))
      && Under(dry, verify, Step(c, w), if dry then left else left - 1)
      && Left(verify, Step(c, w)) == Left(verify, c)[1..]
  {
    hide Plan, StepsOf, WellKept, Apply, ApplyAll, Admissible, Mirrors, Noted, ReadFor, DeedOf;
    var w := Left(verify, c)[0];
    AtNext(verify, c.v0, c.r, c.k, c.v);
    var plan := Plan(verify, c.v0, c.r);
    assert plan[c.k..][0] == w && plan[c.k..][1..] == plan[c.k + 1..];
    assert plan[..c.k + 1] == plan[..c.k] + [w];
    if w.CreateOrg? || w.CreateHousehold? {
      NotedOrg(ix, s, c.v, w);
    } else {
      NotedOther(ix, s, c.v, w);
    }
  }

  /** The gateway stopped answering with writes left to make. */
  lemma {:induction false} Stopped(verify: bool, c: Course, state: Gate)
    requires Under(false, verify, c, 0) && Left(verify, c) != [] && state in {c.v, Apply(c.v, Left(verify, c)[0])}
    ensures Loaded(false, verify, c.v0, c.r, c.had, None, 0, state)
  {
    hide Plan, StepsOf, WellKept, ApplyAll, Apply;
    var plan := Plan(verify, c.v0, c.r);
    var w := plan[c.k..][0];
    assert plan[..c.k + 1] == plan[..c.k] + [w];
    ApplyAllAppend(c.v0, plan[..c.k], [w]);
    OneApplied(c.v, w);
  }

  lemma {:induction false} Finished(dry: bool, verify: bool, c: Course, left: nat, state: Gate)
    requires Under(dry, verify, c, left) && Left(verify, c) == []
    ensures c.v == After(verify, c.v0, c.r) && WellKept(c.v)
    ensures var end := StepsOf(verify, c.v0.held, c.r).end;
      Loaded(dry, verify, c.v0, c.r, c.had,
             Some(Report(OutcomeOf(Plan(verify, c.v0, c.r), end), c.done, if end.Refused? then Some(end.why) else None,
                         QuoteOf(verify, c.v0, c.r))), left, state)
  {
    hide Plan, StepsOf, WellKept, ApplyAll, After, QuoteOf;
    AtEnd(verify, c.v0, c.r, c.k, c.v);
    assert Plan(verify, c.v0, c.r)[..c.k] == Plan(verify, c.v0, c.r);
  }

  lemma {:induction false} Rejects(dry: bool, verify: bool, v: Gate, r: Row, why: Reason, quote: Quote, had: nat, state: Gate)
    requires WellKept(v) && RowOk(r) && StepsOf(verify, v.held, r) == No(why) && QuoteOf(verify, v, r) == quote
    ensures After(verify, v, r) == v && Loaded(dry, verify, v, r, had, Refusal(why, [], quote), had, state)
  {
    hide StepsOf, WellKept, QuoteOf;
    Begins(dry, verify, v, r, had);
    Finished(dry, verify, Course(v, r, had, 0, v, []), had, state);
  }

  lemma {:induction false} Skips(dry: bool, verify: bool, v: Gate, r: Row, quote: Quote, had: nat, state: Gate)
    requires WellKept(v) && RowOk(r) && Plan(verify, v, r) == [] && StepsOf(verify, v.held, r).end.Done?
    requires QuoteOf(verify, v, r) == quote
    ensures After(verify, v, r) == v && Loaded(dry, verify, v, r, had, Loading(Skipped, [], quote), had, state)
  {
    hide StepsOf, WellKept, Plan, QuoteOf;
    Begins(dry, verify, v, r, had);
    Finished(dry, verify, Course(v, r, had, 0, v, []), had, state);
  }

  lemma {:induction false} PlanIsSteps(verify: bool, v: Gate, r: Row)
    requires !r.CustomerRow?
    ensures Plan(verify, v, r) == StepsOf(verify, v.held, r).writes
  {
    hide StepsOf;
  }

  // ---- customer rows ----

  lemma {:induction false} NewOrgCached(ix: Index, org: Org, node: Node)
    ensures Noted(ix, CreateOrg(org, node)).accounts == ix.accounts[ix.made := [node]]
  {
  }

  lemma {:induction false} NewNodeCached(ix: Index, o: nat, node: Node, address: Option<Address>)
    requires o in ix.accounts
    ensures Noted(ix, CreateNode(o, node, address)).accounts == ix.accounts[o := ix.accounts[o] + [node]]
  {
  }

  /** Part of a customer's tree above the site. */
  predicate Builds(w: Write) {
    w.CreateOrg? || (w.CreateNode? && w.address.None?)
  }

  /** So far the row has only built up to its site. */
  ghost predicate Creating(verify: bool, c: Course) {
    c.k <= |Plan(verify, c.v0, c.r)| && forall i :: 0 <= i < c.k ==> Builds(Plan(verify, c.v0, c.r)[i])
  }

  lemma {:induction false} StillCreating(dry: bool, verify: bool, c: Course, left: nat)
    requires Under(dry, verify, c, left) && Creating(verify, c) && Left(verify, c) != [] && Builds(Left(verify, c)[0])
    ensures Creating(verify, Step(c, Left(verify, c)[0]))
  {
    hide Plan, WellKept, ApplyAll, StepsOf;
  }

  lemma {:induction false} DoneIsMade(dry: bool, verify: bool, c: Course, left: nat)
    requires Under(dry, verify, c, left)
    ensures |c.done| == c.k && Left(verify, c) == Plan(verify, c.v0, c.r)[c.k..]
  {
    hide Plan, WellKept, ApplyAll, StepsOf;
  }

  /** A row's plan is its customer's tree and then, perhaps, one address. */
  lemma {:induction false} TreeThenAddress(verify: bool, v: Gate, r: Row) returns (address: seq<Write>)
    requires r.CustomerRow?
    ensures Plan(verify, v, r) == StepsOf(verify, v.held, r).writes + address
    ensures forall w :: w in address ==> w.SetAddress?
    ensures StepsOf(verify, v.held, r).end.Refused? || StepsOf(verify, v.held, r).end.site.None? ==> address == []
  {
    hide CustomerSteps;
    address := AddressWrite(v.addresses, StepsOf(verify, v.held, r), r);
  }

  lemma {:induction false} SiteIsLast(dry: bool, verify: bool, c: Course, left: nat)
    requires Under(dry, verify, c, left) && c.r.CustomerRow? && Left(verify, c) != []
    requires Left(verify, c)[0].CreateNode? && Left(verify, c)[0].address.Some?
    ensures |Left(verify, c)| == 1
  {
    hide StepsOf, WellKept, ApplyAll;
    var s := StepsOf(verify, c.v.held, c.r);
    if s.writes != [] {
      SiteWriteIsLast(verify, c.v.held, c.r);
    }
  }

  /** With its tree in place, what a row has left is its address if that differs. */
  lemma {:induction false} AtSite(dry: bool, verify: bool, c: Course, left: nat, site: Site)
    requires Under(dry, verify, c, left) && c.r.CustomerRow? && StepsOf(verify, c.v0.held, c.r).end == Done(Some(site))
    requires forall w :: w in Left(verify, c) ==> w.SetAddress?
    ensures Left(verify, c) == AddressWrite(c.v.addresses, Steps([], Done(Some(site))), c.r)
  {
    hide StepsOf, WellKept, ApplyAll;
    var s := StepsOf(verify, c.v.held, c.r);
    assert s.writes != [] ==> s.writes[0] in Left(verify, c);
    if s.writes != [] {
      SiteWriteIsLast(verify, c.v.held, c.r);
    }
  }

  lemma {:induction false} BuiltFirst(dry: bool, verify: bool, c: Course, left: nat)
    requires Under(dry, verify, c, left) && Creating(verify, c) && StepsOf(verify, c.v0.held, c.r).end.Done?
    ensures OutcomeOf(Plan(verify, c.v0, c.r), StepsOf(verify, c.v0.held, c.r).end)
         == if c.done != [] then Created else if Left(verify, c) == [] then Skipped
            else if Makes(Left(verify, c)[0]) then Created else Updated
  {
    hide Plan, WellKept, ApplyAll, StepsOf;
    var plan := Plan(verify, c.v0, c.r);
    assert c.k > 0 ==> Builds(plan[0]);
    assert c.k == 0 && plan != [] ==> Left(verify, c)[0] == plan[0];
  }

  lemma {:induction false} RefusedOutcome(ws: seq<Write>, end: End)
    requires end.Refused?
    ensures OutcomeOf(ws, end) == Rejected
  {
  }

  /** A row refused, or with no site to come to, names at most the segment on file. */
  lemma {:induction false} SitelessQuote(verify: bool, v: Gate, r: Row)
    requires r.CustomerRow?
    ensures var end, org := StepsOf(verify, v.held, r).end, OrgAt(v.held.orgs, r.ref);
      && (end == Done(None) || (end.Refused? && end.why != SegmentDiffers) ==> QuoteOf(verify, v, r) == Unquoted)
      && (end == Refused(SegmentDiffers) && org.Some? ==>
            QuoteOf(verify, v, r) == SegmentQuoted(v.held.orgs[org.value].segment))
  {
    hide StepsOf, Plan, After, OrgAt;
  }

  /** A row that makes its site names nothing on file. */
  lemma {:induction false} MadeUnquoted(dry: bool, verify: bool, c: Course, left: nat)
    requires Under(dry, verify, c, left) && c.r.CustomerRow? && Left(verify, c) != [] && StepsOf(verify, c.v0.held, c.r).end.Done?
    requires !Left(verify, c)[|Left(verify, c)| - 1].SetAddress?
    ensures QuoteOf(verify, c.v0, c.r) == Unquoted
  {
    hide StepsOf, WellKept, ApplyAll, Plan, OrgAt, After;
    var plan := Plan(verify, c.v0, c.r);
    assert Left(verify, c)[|Left(verify, c)| - 1] == plan[|plan| - 1];
  }

  /** A row at its site names it if it has built nothing or goes on to write the address. */
  lemma {:induction false} FoundQuoted(dry: bool, verify: bool, c: Course, left: nat, site: Site)
    requires Under(dry, verify, c, left) && Creating(verify, c) && c.r.CustomerRow?
    requires StepsOf(verify, c.v0.held, c.r).end == Done(Some(site))
    requires Left(verify, c) == [] || (|Left(verify, c)| == 1 && Left(verify, c)[0].SetAddress?)
    ensures QuoteOf(verify, c.v0, c.r) == if Left(verify, c) == [] && c.k > 0 then Unquoted else SiteQuote(c.v.held, site)
  {
    hide StepsOf, WellKept, ApplyAll, Plan, OrgAt, SiteQuote, Put;
    var plan := Plan(verify, c.v0, c.r);
    assert plan == plan[..c.k] + Left(verify, c);
    if Left(verify, c) == [] {
      AtEnd(verify, c.v0, c.r, c.k, c.v);
      assert c.k > 0 ==> plan[|plan| - 1] == plan[c.k - 1] && Builds(plan[c.k - 1]);
    } else {
      var w := Left(verify, c)[0];
      assert plan[|plan| - 1] == w && plan == plan[..c.k] + [w];
      ApplyAllAppend(c.v0, plan[..c.k], [w]);
      OneApplied(c.v, w);
      AddressLeavesHeld(c.v, w);
    }
  }

  lemma {:induction false} AddressLeavesHeld(v: Gate, w: Write)
    requires w.SetAddress?
    ensures Apply(v, w).held == v.held
  {
  }

  // ---- agreement rows ----

  lemma {:induction false} ServedFromGiven(h: Held, org: nat, r: Row)
    requires r.AgreementRow? && r.servedFrom.Some?
    ensures ServedFrom(h, org, r) == r.servedFrom
  {
  }

  lemma {:induction false} NewTermCached(ix: Index, o: nat, t: Override)
    requires o in ix.overrides
    ensures Noted(ix, AuthorTerm(o, t)).overrides == ix.overrides[o := ix.overrides[o] + [t]]
    ensures Noted(ix, AuthorTerm(o, t)).contracts == ix.contracts
  {
  }

  lemma {:induction false} NewContractCached(ix: Index, o: nat, c: Contract)
    ensures Noted(ix, CreateContract(o, c)).overrides == ix.overrides
    ensures o in Noted(ix, CreateContract(o, c)).contracts
  {
  }

  /** The first thing done tells whether the agreement is new. */
  ghost predicate Telling(verify: bool, c: Course) {
    c.k > 0 ==> c.done != [] && Plan(verify, c.v0, c.r) != [] && (c.done[0] == Drafted <==> Makes(Plan(verify, c.v0, c.r)[0]))
  }

  lemma {:induction false} StillTelling(dry: bool, verify: bool, c: Course, left: nat)
    requires Under(dry, verify, c, left) && Telling(verify, c) && Left(verify, c) != []
    requires Left(verify, c)[0].CreateContract? || Left(verify, c)[0].AuthorTerm?
    ensures Telling(verify, Step(c, Left(verify, c)[0]))
  {
    hide Plan, WellKept, ApplyAll, StepsOf;
  }

  lemma {:induction false} NextTerm(org: nat, contract: nat, overrides: seq<Override>, terms: seq<Term>, i: nat, rest: seq<Write>)
    requires i < |terms|
    ensures var on, o := OnFile(overrides, contract, terms[i].key), Override(contract, true, terms[i].key, terms[i].value);
      TermSteps(org, contract, overrides, terms[i..]) + rest
      == if on.Some? then TermSteps(org, contract, overrides, terms[i + 1..]) + rest
         else [AuthorTerm(org, o)] + (TermSteps(org, contract, overrides + [o], terms[i + 1..]) + rest)
  {
    hide OnFile;
    assert terms[i..][1..] == terms[i + 1..];
  }
}
