/** A customer's account tree: what is above and below a node, and what every run of creates and moves keeps. */
module Accounts {
  import opened Common

  datatype Tier = Region | Location | Site

  datatype Account = Account(id: Id, org: Id, tier: Tier, parent: Option<Id>, region: Id)

  function Height(t: Tier): nat {
    match t
    case Region => 0
    case Location => 1
    case Site => 2
  }

  /** The tier a node of each tier sits under. */
  function Legal(t: Tier): Option<Tier> {
    match t
    case Region => None
    case Location => Some(Region)
    case Site => Some(Location)
  }

  function Find(accounts: seq<Account>, id: Id): (r: Option<nat>)
    ensures r.Some? ==> r.value < |accounts| && accounts[r.value].id == id && forall i :: 0 <= i < r.value ==> accounts[i].id != id
    ensures r.None? ==> forall i :: 0 <= i < |accounts| ==> accounts[i].id != id
  {
    if accounts == [] then None
    else
      var n := |accounts| - 1;
      var before := Find(accounts[..n], id);
      if before.Some? then before else if accounts[n].id == id then Some(n) else None
  }

  predicate DistinctIds(accounts: seq<Account>) {
    forall i, j :: 0 <= i < j < |accounts| ==> accounts[i].id != accounts[j].id
  }

  predicate EdgeOk(accounts: seq<Account>, a: Account) {
    match a.parent
    case None => a.tier == Region
    case Some(p) =>
      var at := Find(accounts, p);
      at.Some? && Legal(a.tier) == Some(accounts[at.value].tier) && accounts[at.value].org == a.org
  }

  /** Region over location over site, inside one organization. */
  predicate Tree(accounts: seq<Account>) {
    DistinctIds(accounts) && forall a: Account :: a in accounts ==> EdgeOk(accounts, a)
  }

  /** Each node in its parent's region. */
  predicate RegionsAgree(accounts: seq<Account>) {
    forall a: Account :: a in accounts && a.parent.Some? ==>
      var at := Find(accounts, a.parent.value); at.Some? && accounts[at.value].region == a.region
  }

  predicate Forest(accounts: seq<Account>) {
    Tree(accounts) && RegionsAgree(accounts)
  }

  lemma {:induction false} FindsItself(accounts: seq<Account>, i: nat)
    requires DistinctIds(accounts) && i < |accounts|
    ensures Find(accounts, accounts[i].id) == Some(i)
  {
  }

  // ---- above and below ----

  function Above(accounts: seq<Account>, i: nat): set<Id>
    requires Tree(accounts) && i < |accounts|
    decreases Height(accounts[i].tier)
  {
    var a := accounts[i];
    assert EdgeOk(accounts, a) by { assert a in accounts; }
    {a.id} + if a.parent.Some? then Above(accounts, Find(accounts, a.parent.value).value) else {}
  }

  /** A node and everything over it; nothing if there is no such node. */
  function AncestorsOf(accounts: seq<Account>, id: Id): set<Id>
    requires Tree(accounts)
  {
    if Find(accounts, id).Some? then Above(accounts, Find(accounts, id).value) else {}
  }

  predicate Below(accounts: seq<Account>, x: Id, i: nat)
    requires Tree(accounts) && i < |accounts|
  {
    x in Above(accounts, i)
  }

  /** The walk up from a node. */
  method WalkUp(accounts: seq<Account>, id: Id) returns (out: set<Id>)
    requires Tree(accounts)
    ensures out == AncestorsOf(accounts, id)
  {
    out := {};
    var cur: Option<nat> := Find(accounts, id);
    while cur.Some?
      invariant cur.Some? ==> cur.value < |accounts|
      invariant AncestorsOf(accounts, id) == out + if cur.Some? then Above(accounts, cur.value) else {}
      decreases if cur.Some? then 1 + Height(accounts[cur.value].tier) else 0
    {
      var a := accounts[cur.value];
      assert EdgeOk(accounts, a) by { assert a in accounts; }
      out := out + {a.id};
      cur := if a.parent.Some? then Find(accounts, a.parent.value) else None;
    }
  }

  ghost predicate Closed(accounts: seq<Account>, out: set<Id>) {
    forall i :: 0 <= i < |accounts| && accounts[i].parent.Some? && accounts[i].parent.value in out ==> accounts[i].id in out
  }

  /** A closed set with `x` in it has everything below `x`. */
  lemma {:induction false} ClosedReaches(accounts: seq<Account>, out: set<Id>, x: Id, i: nat)
    requires Tree(accounts) && i < |accounts| && Closed(accounts, out) && x in out && Below(accounts, x, i)
    ensures accounts[i].id in out
    decreases Height(accounts[i].tier)
  {
    var a := accounts[i];
    assert EdgeOk(accounts, a) by { assert a in accounts; }
    if a.id != x {
      ClosedReaches(accounts, out, x, Find(accounts, a.parent.value).value);
    }
  }

  /** Nothing in the set but nodes at or below `x`. */
  ghost predicate OnlyBelow(accounts: seq<Account>, x: Id, out: set<Id>)
    requires Tree(accounts)
  {
    forall i :: 0 <= i < |accounts| && accounts[i].id in out ==> Below(accounts, x, i)
  }

  lemma {:induction false} ChildIsBelow(accounts: seq<Account>, x: Id, out: set<Id>, k: nat)
    requires Tree(accounts) && k < |accounts| && OnlyBelow(accounts, x, out)
    requires accounts[k].parent.Some? && accounts[k].parent.value in out
    ensures OnlyBelow(accounts, x, out + {accounts[k].id})
  {
    var a := accounts[k];
    assert EdgeOk(accounts, a) by { assert a in accounts; }
    assert Below(accounts, x, Find(accounts, a.parent.value).value);
  }

  function IdsOf(accounts: seq<Account>): (ids: set<Id>)
    ensures forall i :: 0 <= i < |accounts| ==> accounts[i].id in ids
    ensures forall id :: id in ids ==> Find(accounts, id).Some?
  {
    set i | 0 <= i < |accounts| :: accounts[i].id
  }

  /** One pass: the children of what is in are added. */
  method Pass(accounts: seq<Account>, x: Id, before: set<Id>, ghost ids: set<Id>) returns (out: set<Id>, grew: bool)
    requires Tree(accounts) && OnlyBelow(accounts, x, before) && before <= ids && IdsOf(accounts) <= ids
    ensures before <= out <= ids && OnlyBelow(accounts, x, out) && (grew <==> before != out)
    ensures !grew ==> Closed(accounts, out)
  {
    hide Tree, OnlyBelow, Find, Below;
    out, grew := before, false;
    for k := 0 to |accounts|
      invariant before <= out <= ids && (grew <==> before != out) && OnlyBelow(accounts, x, out)
      invariant !grew ==> Closed(accounts[..k], out)
    {
      var a := accounts[k];
      if a.parent.Some? && a.parent.value in out && a.id !in out {
        ChildIsBelow(accounts, x, out, k);
        out := out + {a.id};
        grew := true;
      }
    }
    assert accounts[..|accounts|] == accounts;
  }

  /** Passes over the accounts, adding every child of what is in already, until one adds nothing: it ends, and a node is in
      exactly when `x` is at or above it. */
  method Descendants(accounts: seq<Account>, x: Id) returns (out: set<Id>)
    requires Tree(accounts)
    ensures forall y :: Find(accounts, y).Some? ==> (y in out <==> x in AncestorsOf(accounts, y))
    ensures forall y :: y in out ==> y == x || Find(accounts, y).Some?
  {
    hide Tree;
    out := {x};
    var grew := true;
    ghost var ids := {x} + IdsOf(accounts);
    OnlyItself(accounts, x);
    while grew
      invariant x in out && out <= ids && OnlyBelow(accounts, x, out)
      invariant !grew ==> Closed(accounts, out)
      decreases |ids - out|, grew
    {
      ghost var before := out;
      out, grew := Pass(accounts, x, out, ids);
      if grew {
        Shrinks(ids - out, ids - before);
      }
    }
    forall y | Find(accounts, y).Some? && x in AncestorsOf(accounts, y) ensures y in out {
      ClosedReaches(accounts, out, x, Find(accounts, y).value);
    }
  }

  lemma {:induction false} OnlyItself(accounts: seq<Account>, x: Id)
    requires Tree(accounts)
    ensures OnlyBelow(accounts, x, {x})
  {
  }

  lemma {:induction false} Shrinks(a: set<Id>, b: set<Id>)
    requires a < b
    ensures |a| < |b|
  {
    var x :| x in b && x !in a;
    assert a <= b - {x};
    Smaller(a, b - {x});
  }

  lemma {:induction false} Smaller(a: set<Id>, b: set<Id>)
    requires a <= b
    ensures |a| <= |b|
    decreases |a|
  {
    if a != {} {
      var x :| x in a;
      Smaller(a - {x}, b - {x});
    }
  }
}
