/** Creating and moving nodes, and what a customer's login sees. */
module AccountTrees {
  import opened Common
  import opened Accounts

  datatype Why = EmptyName | UnknownRegion | UnknownParent | RegionDerives | TierEdge | UnknownNode | CrossOrgMove | Cycle

  datatype Reply = Ok(id: Id, region: Id) | Refused(why: Why)

  datatype Op =
    | Create(named: bool, org: Id, tier: Tier, parent: Option<Id>, region: Option<Id>)
    | Move(account: Id, to: Id)

  /** `minted` counts the ids given out. */
  datatype Book = Book(accounts: seq<Account>, minted: nat)

  ghost predicate BookOk(b: Book) {
    Forest(b.accounts) && forall a: Account :: a in b.accounts ==> a.id < b.minted
  }

  function FindIn(accounts: seq<Account>, id: Id, org: Id): Option<nat> {
    var at := Find(accounts, id);
    if at.Some? && accounts[at.value].org == org then at else None
  }

  function ParentFor(accounts: seq<Account>, op: Op): Option<nat>
    requires op.Create?
  {
    if op.parent.None? then None else FindIn(accounts, op.parent.value, op.org)
  }

  function ReplyTo(regions: set<Id>, b: Book, op: Op): Reply
    requires Tree(b.accounts)
  {
    match op
    case Create(named, org, tier, _, region) =>
      if !named then Refused(EmptyName)
      else if tier == Region then
        if region.Some? && region.value in regions then Ok(b.minted, region.value) else Refused(UnknownRegion)
      else (
        match ParentFor(b.accounts, op)
        case None => Refused(UnknownParent)
        case Some(p) =>
          if region.Some? then Refused(RegionDerives)
          else if Legal(tier) != Some(b.accounts[p].tier) then Refused(TierEdge)
          else Ok(b.minted, b.accounts[p].region))
    case Move(account, to) =>
      var node, p := Find(b.accounts, account), Find(b.accounts, to);
      if node.None? || p.None? then Refused(UnknownNode)
      else if b.accounts[p.value].org != b.accounts[node.value].org then Refused(CrossOrgMove)
      else if Below(b.accounts, account, p.value) then Refused(Cycle)
      else if Legal(b.accounts[node.value].tier) != Some(b.accounts[p.value].tier) then Refused(TierEdge)
      else Ok(account, b.accounts[p.value].region)
  }

  /** A node under its new parent, and it and everything below it in the parent's region. */
  function Moved(accounts: seq<Account>, at: nat, p: nat): (r: seq<Account>)
    requires Tree(accounts) && at < |accounts| && p < |accounts|
    ensures |r| == |accounts|
  {
    seq(|accounts|, i requires 0 <= i < |accounts| =>
      var a := if i == at then accounts[i].(parent := Some(accounts[p].id)) else accounts[i];
      if Below(accounts, accounts[at].id, i) then a.(region := accounts[p].region) else a)
  }

  function Step(regions: set<Id>, b: Book, op: Op): Book
    requires Tree(b.accounts)
  {
    var reply := ReplyTo(regions, b, op);
    if reply.Refused? then b
    else match op
      case Create(_, org, tier, parent, _) =>
        Book(b.accounts + [Account(b.minted, org, tier, if tier == Region then None else parent, reply.region)], b.minted + 1)
      case Move(account, to) => b.(accounts := Moved(b.accounts, Find(b.accounts, account).value, Find(b.accounts, to).value))
  }

  // ---- creating ----

  lemma {:induction false} FindAppend(accounts: seq<Account>, a: Account, id: Id)
    ensures Find(accounts + [a], id)
         == if Find(accounts, id).Some? then Find(accounts, id) else if a.id == id then Some(|accounts|) else None
  {
    assert (accounts + [a])[..|accounts|] == accounts;
  }

  lemma {:induction false} CreateKeeps(regions: set<Id>, b: Book, op: Op)
    requires BookOk(b) && op.Create?
    ensures BookOk(Step(regions, b, op))
  {
    hide Find;
    var b' := Step(regions, b, op);
    if ReplyTo(regions, b, op).Ok? {
      var a := b'.accounts[|b.accounts|];
      forall id: Id
        ensures Find(b'.accounts, id)
             == if Find(b.accounts, id).Some? then Find(b.accounts, id) else if a.id == id then Some(|b.accounts|) else None
      {
        FindAppend(b.accounts, a, id);
      }
      assert forall i :: 0 <= i < |b.accounts| ==> b.accounts[i] in b.accounts;
      assert EdgeOk(b'.accounts, a);
      forall x: Account | x in b'.accounts ensures EdgeOk(b'.accounts, x) {
        assert x == a || EdgeOk(b.accounts, x);
      }
    }
  }

  // ---- moving ----

  lemma {:induction false} FindSame(xs: seq<Account>, ys: seq<Account>, id: Id)
    requires |xs| == |ys| && forall i :: 0 <= i < |xs| ==> xs[i].id == ys[i].id
    ensures Find(xs, id) == Find(ys, id)
  {
    if xs != [] {
      FindSame(xs[..|xs| - 1], ys[..|ys| - 1], id);
    }
  }

  /** The same nodes, but for where they hang and which region they are in. */
  ghost predicate SameNodes(xs: seq<Account>, ys: seq<Account>) {
    |xs| == |ys| && forall i :: 0 <= i < |xs| ==> xs[i].id == ys[i].id && xs[i].tier == ys[i].tier && xs[i].org == ys[i].org
  }

  /** Hanging `at` under `p` leaves a tree. */
  lemma {:induction false} RehungIsTree(xs: seq<Account>, ys: seq<Account>, at: nat, p: nat)
    requires Tree(xs) && SameNodes(xs, ys) && at < |xs| && p < |xs|
    requires xs[p].org == xs[at].org && Legal(xs[at].tier) == Some(xs[p].tier)
    requires forall i :: 0 <= i < |xs| ==> ys[i].parent == if i == at then Some(xs[p].id) else xs[i].parent
    ensures Tree(ys)
  {
    hide Find;
    forall a: Account | a in ys ensures EdgeOk(ys, a) {
      var i :| 0 <= i < |ys| && ys[i] == a;
      assert EdgeOk(xs, xs[i]) by { assert xs[i] in xs; }
      if a.parent.Some? {
        FindSame(xs, ys, a.parent.value);
        if i == at {
          FindsItself(xs, p);
        }
      }
    }
  }

  /** What is at or below a node does not depend on where that node hangs. */
  lemma {:induction false} SameBelow(xs: seq<Account>, ys: seq<Account>, at: nat, i: nat)
    requires Tree(xs) && Tree(ys) && SameNodes(xs, ys) && at < |xs| && i < |xs|
    requires forall j :: 0 <= j < |xs| && j != at ==> ys[j].parent == xs[j].parent
    ensures Below(ys, xs[at].id, i) <==> Below(xs, xs[at].id, i)
    decreases Height(xs[i].tier)
  {
    hide Find;
    assert EdgeOk(xs, xs[i]) && EdgeOk(ys, ys[i]) by { assert xs[i] in xs && ys[i] in ys; }
    if i != at && xs[i].parent.Some? {
      FindSame(xs, ys, xs[i].parent.value);
      SameBelow(xs, ys, at, Find(xs, xs[i].parent.value).value);
    }
  }

  /** Legal tiers alone rule out a cycle: nothing at or below a node has the tier of its parent. */
  lemma {:induction false} BelowIsNoHigher(accounts: seq<Account>, at: nat, i: nat)
    requires Tree(accounts) && at < |accounts| && i < |accounts| && Below(accounts, accounts[at].id, i)
    ensures Height(accounts[at].tier) <= Height(accounts[i].tier)
    ensures Height(accounts[at].tier) == Height(accounts[i].tier) ==> i == at
    decreases Height(accounts[i].tier)
  {
    hide Find;
    assert EdgeOk(accounts, accounts[i]) by { assert accounts[i] in accounts; }
    if accounts[i].id != accounts[at].id {
      BelowIsNoHigher(accounts, at, Find(accounts, accounts[i].parent.value).value);
    }
  }

  /** A move the cycle check refuses is one the tier check would refuse. */
  lemma {:induction false} TiersRuleOutCycles(accounts: seq<Account>, at: nat, p: nat)
    requires Tree(accounts) && at < |accounts| && p < |accounts| && Below(accounts, accounts[at].id, p)
    ensures Legal(accounts[at].tier) != Some(accounts[p].tier)
  {
    BelowIsNoHigher(accounts, at, p);
  }

  /** A child hangs below what its parent hangs below, and itself. */
  lemma {:induction false} BelowThroughParent(accounts: seq<Account>, x: Id, i: nat)
    requires Tree(accounts) && i < |accounts| && accounts[i].parent.Some?
    ensures Find(accounts, accounts[i].parent.value).Some?
    ensures Below(accounts, x, i) <==> accounts[i].id == x || Below(accounts, x, Find(accounts, accounts[i].parent.value).value)
  {
    hide Find;
    assert EdgeOk(accounts, accounts[i]) by { assert accounts[i] in accounts; }
  }

  /** A legal move leaves a forest, with each node in its parent's region. */
  lemma {:induction false} MovedIsForest(accounts: seq<Account>, at: nat, p: nat)
    requires Forest(accounts) && at < |accounts| && p < |accounts|
    requires accounts[p].org == accounts[at].org && Legal(accounts[at].tier) == Some(accounts[p].tier)
    ensures Forest(Moved(accounts, at, p))
  {
    hide Find, Below, Tree;
    var ys, x := Moved(accounts, at, p), accounts[at].id;
    RehungIsTree(accounts, ys, at, p);
    forall a: Account | a in ys && a.parent.Some?
      ensures Find(ys, a.parent.value).Some? && ys[Find(ys, a.parent.value).value].region == a.region
    {
      var i :| 0 <= i < |ys| && ys[i] == a;
      FindSame(accounts, ys, a.parent.value);
      if i == at {
        AtItself(accounts, at, p);
        if Below(accounts, x, p) {
          TiersRuleOutCycles(accounts, at, p);
        }
      } else {
        assert accounts[i] in accounts;
        BelowThroughParent(accounts, x, i);
        OnlyOne(accounts, i, at);
      }
    }
  }

  lemma {:induction false} AtItself(accounts: seq<Account>, at: nat, p: nat)
    requires Tree(accounts) && at < |accounts| && p < |accounts|
    ensures Below(accounts, accounts[at].id, at) && Find(accounts, accounts[p].id) == Some(p)
  {
    FindsItself(accounts, p);
  }

  lemma {:induction false} OnlyOne(accounts: seq<Account>, i: nat, j: nat)
    requires Tree(accounts) && i < |accounts| && j < |accounts| && i != j
    ensures accounts[i].id != accounts[j].id
  {
  }

  /** After a move the node's line goes up through its new parent, and every other node outside it keeps its own line. */
  lemma {:induction false} MovedHangsUnder(accounts: seq<Account>, at: nat, p: nat, i: nat)
    requires Forest(accounts) && at < |accounts| && p < |accounts| && i < |accounts|
    requires accounts[p].org == accounts[at].org && Legal(accounts[at].tier) == Some(accounts[p].tier)
    requires Tree(Moved(accounts, at, p))
    ensures i == at ==> Above(Moved(accounts, at, p), at) == {accounts[at].id} + Above(accounts, p)
    ensures !Below(accounts, accounts[at].id, i) ==> Above(Moved(accounts, at, p), i) == Above(accounts, i)
    decreases Height(accounts[i].tier)
  {
    hide Find;
    var ys, x := Moved(accounts, at, p), accounts[at].id;
    assert EdgeOk(accounts, accounts[i]) && EdgeOk(ys, ys[i]) by { assert accounts[i] in accounts && ys[i] in ys; }
    if i == at {
      FindSame(accounts, ys, accounts[p].id);
      FindsItself(accounts, p);
      if Below(accounts, x, p) {
        TiersRuleOutCycles(accounts, at, p);
      }
      MovedHangsUnder(accounts, at, p, p);
    } else if accounts[i].parent.Some? && !Below(accounts, x, i) {
      FindSame(accounts, ys, accounts[i].parent.value);
      MovedHangsUnder(accounts, at, p, Find(accounts, accounts[i].parent.value).value);
    }
  }

  lemma {:induction false} MoveKeeps(regions: set<Id>, b: Book, op: Op)
    requires BookOk(b) && op.Move?
    ensures BookOk(Step(regions, b, op))
  {
    hide Tree, Below;
    if ReplyTo(regions, b, op).Ok? {
      var at, p := Find(b.accounts, op.account).value, Find(b.accounts, op.to).value;
      MovedIsForest(b.accounts, at, p);
      assert forall i :: 0 <= i < |b.accounts| ==> b.accounts[i] in b.accounts;
    }
  }

  // ---- every run ----

  ghost function Run(regions: set<Id>, b: Book, ops: seq<Op>): Book
    requires BookOk(b)
    decreases ops
  {
    if ops == [] then b
    else
      StepKeeps(regions, b, ops[0]);
      Run(regions, Step(regions, b, ops[0]), ops[1..])
  }

  lemma {:induction false} StepKeeps(regions: set<Id>, b: Book, op: Op)
    requires BookOk(b)
    ensures BookOk(Step(regions, b, op))
  {
    hide BookOk, Step;
    match op
    case Create(_, _, _, _, _) => CreateKeeps(regions, b, op);
    case Move(_, _) => MoveKeeps(regions, b, op);
  }

  /** Every run of creates and moves keeps a forest: region over location over site, inside one organization, each node in
      its parent's region. */
  lemma {:induction false} EveryRunKeepsAForest(regions: set<Id>, b: Book, ops: seq<Op>)
    requires BookOk(b)
    ensures BookOk(Run(regions, b, ops))
    decreases ops
  {
    hide Step, Tree;
    if ops != [] {
      StepKeeps(regions, b, ops[0]);
      EveryRunKeepsAForest(regions, Step(regions, b, ops[0]), ops[1..]);
    }
  }

  // ---- what a customer sees ----

  /** A login for the whole organization sees all of it; one for a node sees the node's own line, up and down. */
  predicate Seen(accounts: seq<Account>, org: Id, scope: Option<Id>, i: nat)
    requires Tree(accounts) && i < |accounts|
  {
    accounts[i].org == org
    && (scope.Some? ==> Below(accounts, scope.value, i) || accounts[i].id in AncestorsOf(accounts, scope.value))
  }

  /** Who sees a node sees its parent. */
  lemma {:induction false} SeenUpToTheTop(accounts: seq<Account>, org: Id, scope: Option<Id>, i: nat)
    requires Tree(accounts) && i < |accounts| && Seen(accounts, org, scope, i) && accounts[i].parent.Some?
    ensures Find(accounts, accounts[i].parent.value).Some?
    ensures Seen(accounts, org, scope, Find(accounts, accounts[i].parent.value).value)
  {
    hide Find;
    assert EdgeOk(accounts, accounts[i]) by { assert accounts[i] in accounts; }
    var up := Find(accounts, accounts[i].parent.value).value;
    if scope.Some? {
      BelowThroughParent(accounts, scope.value, i);
      var at := Find(accounts, scope.value);
      if at.Some? && accounts[i].id in Above(accounts, at.value) {
        ParentIsAboveToo(accounts, i, at.value);
      }
    }
  }

  lemma {:induction false} ParentIsAboveToo(accounts: seq<Account>, i: nat, j: nat)
    requires Tree(accounts) && i < |accounts| && j < |accounts| && accounts[i].id in Above(accounts, j)
    requires accounts[i].parent.Some?
    ensures accounts[i].parent.value in Above(accounts, j)
    decreases Height(accounts[j].tier)
  {
    hide Find;
    assert EdgeOk(accounts, accounts[j]) by { assert accounts[j] in accounts; }
    if i == j {
      assert Find(accounts, accounts[i].parent.value).Some?;
    } else {
      OnlyOne(accounts, i, j);
      ParentIsAboveToo(accounts, i, Find(accounts, accounts[j].parent.value).value);
    }
  }
}
