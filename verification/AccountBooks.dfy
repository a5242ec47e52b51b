/** The handlers that write the account tree in place, and the list a customer's login is given. */
module AccountBooks {
  import opened Common
  import opened Accounts
  import opened AccountTrees

  class AccountBook {
    var accounts: seq<Account>
    var minted: nat

    function Contents(): Book
      reads this
    {
      Book(accounts, minted)
    }

    constructor ()
      ensures Contents() == Book([], 0) && BookOk(Contents())
    {
      accounts, minted := [], 0;
    }

    method Create(regions: set<Id>, named: bool, org: Id, tier: Tier, parent: Option<Id>, region: Option<Id>)
        returns (reply: Reply)
      requires BookOk(Contents())
      modifies this
      ensures var op := Op.Create(named, org, tier, parent, region);
        reply == ReplyTo(regions, old(Contents()), op) && Contents() == Step(regions, old(Contents()), op)
      ensures BookOk(Contents())
    {
      StepKeeps(regions, Contents(), Op.Create(named, org, tier, parent, region));
      if !named {
        return Refused(EmptyName);
      }
      var within: Id;
      if tier == Region {
        if region.None? || region.value !in regions {
          return Refused(UnknownRegion);
        }
        within := region.value;
      } else {
        var p: Option<nat> := if parent.None? then None else FindIn(accounts, parent.value, org);
        if p.None? {
          return Refused(UnknownParent);
        }
        if region.Some? {
          return Refused(RegionDerives);
        }
        if Legal(tier) != Some(accounts[p.value].tier) {
          return Refused(TierEdge);
        }
        within := accounts[p.value].region;
      }
      reply := Ok(minted, within);
      accounts := accounts + [Account(minted, org, tier, if tier == Region then None else parent, within)];
      minted := minted + 1;
    }

    /** The node is hung under its new parent first; then it and everything below it take the parent's region, one by one. */
    method Move(regions: set<Id>, account: Id, to: Id) returns (reply: Reply)
      requires BookOk(Contents())
      modifies this
      ensures var op := Op.Move(account, to);
        reply == ReplyTo(regions, old(Contents()), op) && Contents() == Step(regions, old(Contents()), op)
      ensures BookOk(Contents())
    {
      hide Moved, Tree, RegionsAgree, Find, Below;
      StepKeeps(regions, Contents(), Op.Move(account, to));
      var node, p := Find(accounts, account), Find(accounts, to);
      if node.None? || p.None? {
        return Refused(UnknownNode);
      }
      var at, parent := node.value, accounts[p.value];
      if parent.org != accounts[at].org {
        return Refused(CrossOrgMove);
      }
      var below := Descendants(accounts, account);
      BelowIs(accounts, account, p.value);
      if parent.id in below {
        return Refused(Cycle);
      }
      if Legal(accounts[at].tier) != Some(parent.tier) {
        return Refused(TierEdge);
      }
      reply := Ok(account, parent.region);
      ghost var before := accounts;
      accounts := accounts[at := accounts[at].(parent := Some(parent.id))];
      RehungIsTree(before, accounts, at, p.value);
      ghost var rehung := accounts;
      var moved := Descendants(accounts, account);
      forall i | 0 <= i < |before| ensures rehung[i].id in moved <==> Below(before, account, i) {
        BelowIs(rehung, account, i);
        SameBelow(before, rehung, at, i);
      }
      TakeRegion(moved, parent.region);
      MovedIs(before, accounts, at, p.value);
    }

    method TakeRegion(moved: set<Id>, region: Id)
      modifies this`accounts
      ensures |accounts| == old(|accounts|)
      ensures forall i :: 0 <= i < |accounts| ==>
        accounts[i] == if old(accounts)[i].id in moved then old(accounts)[i].(region := region) else old(accounts)[i]
    {
      for i := 0 to |accounts|
        invariant |accounts| == |old(accounts)|
        invariant forall j :: 0 <= j < |accounts| ==>
          accounts[j] == if j < i && old(accounts)[j].id in moved then old(accounts)[j].(region := region) else old(accounts)[j]
      {
        if accounts[i].id in moved {
          accounts := accounts[i := accounts[i].(region := region)];
        }
      }
    }

    static lemma {:induction false} BelowIs(accounts: seq<Account>, x: Id, i: nat)
      requires Tree(accounts) && i < |accounts|
      ensures Find(accounts, accounts[i].id) == Some(i) && (Below(accounts, x, i) <==> x in AncestorsOf(accounts, accounts[i].id))
    {
      FindsItself(accounts, i);
    }

    static lemma {:induction false} MovedIs(before: seq<Account>, after: seq<Account>, at: nat, p: nat)
      requires Tree(before) && at < |before| == |after| && p < |before|
      requires forall i :: 0 <= i < |before| ==>
        var hung := if i == at then before[i].(parent := Some(before[p].id)) else before[i];
        after[i] == if Below(before, before[at].id, i) then hung.(region := before[p].region) else hung
      ensures after == Moved(before, at, p)
    {
      hide Tree, Below;
    }

    /** The nodes a customer's login is listed. */
    method VisibleTo(org: Id, scope: Option<Id>) returns (ids: set<Id>)
      requires Tree(accounts)
      ensures forall i :: 0 <= i < |accounts| ==> (accounts[i].id in ids <==> Seen(accounts, org, scope, i))
      ensures scope.None? ==> forall i :: 0 <= i < |accounts| ==> (accounts[i].id in ids <==> accounts[i].org == org)
      ensures scope.Some? ==> forall i :: 0 <= i < |accounts| ==>
        (accounts[i].id in ids <==>
          accounts[i].org == org && (scope.value in AncestorsOf(accounts, accounts[i].id) || accounts[i].id in AncestorsOf(accounts, scope.value)))
      ensures forall id :: id in ids ==> Find(accounts, id).Some?
    {
      hide Tree, Find, Below;
      forall i | 0 <= i < |accounts| ensures Find(accounts, accounts[i].id) == Some(i) {
        BelowIs(accounts, org, i);
      }
      if scope.None? {
        return set i | 0 <= i < |accounts| && accounts[i].org == org :: accounts[i].id;
      }
      var down := Descendants(accounts, scope.value);
      var up := WalkUp(accounts, scope.value);
      forall i | 0 <= i < |accounts| ensures accounts[i].id in down <==> Below(accounts, scope.value, i) {
        BelowIs(accounts, scope.value, i);
      }
      ids := set i | 0 <= i < |accounts| && accounts[i].org == org && (accounts[i].id in down || accounts[i].id in up)
        :: accounts[i].id;
    }
  }
}
