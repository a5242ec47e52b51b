/** What creating and moving a node answer and do, in terms of the nodes alone. */
module AccountWrites {
  import opened Common
  import opened Accounts
  import opened AccountTrees

  ghost predicate HasNode(accounts: seq<Account>, id: Id) {
    exists a :: a in accounts && a.id == id
  }

  /** A node of the organization by that id. */
  ghost predicate IsParent(accounts: seq<Account>, op: Op, p: Account)
    requires op.Create?
  {
    p in accounts && op.parent == Some(p.id) && p.org == op.org
  }

  /** A location hangs under a region, a site under a location. */
  predicate HangsUnder(tier: Tier, above: Tier) {
    (tier == Location && above == Region) || (tier == Site && above == Location)
  }

  ghost predicate HasParent(accounts: seq<Account>, op: Op)
    requires op.Create?
  {
    exists p :: IsParent(accounts, op, p)
  }

  ghost predicate FitsParent(accounts: seq<Account>, op: Op)
    requires op.Create?
  {
    exists p :: IsParent(accounts, op, p) && HangsUnder(op.tier, p.tier)
  }

  lemma {:induction false} FindsTheOne(accounts: seq<Account>, id: Id)
    requires DistinctIds(accounts)
    ensures Find(accounts, id).Some? <==> HasNode(accounts, id)
    ensures forall a :: a in accounts && a.id == id ==> Find(accounts, id).Some? && accounts[Find(accounts, id).value] == a
  {
    forall a | a in accounts && a.id == id ensures Find(accounts, id).Some? && accounts[Find(accounts, id).value] == a {
      var i :| 0 <= i < |accounts| && accounts[i] == a;
      FindsItself(accounts, i);
    }
  }

  lemma {:induction false} FindsParent(accounts: seq<Account>, op: Op)
    requires DistinctIds(accounts) && op.Create?
    ensures ParentFor(accounts, op).Some? <==> exists p :: IsParent(accounts, op, p)
    ensures forall p :: IsParent(accounts, op, p) ==> ParentFor(accounts, op).Some? && accounts[ParentFor(accounts, op).value] == p
  {
    if op.parent.Some? {
      FindsTheOne(accounts, op.parent.value);
      var at := Find(accounts, op.parent.value);
      assert at.Some? && accounts[at.value].org == op.org ==> IsParent(accounts, op, accounts[at.value]);
    }
  }

  /** When a create is refused, and why; otherwise it answers with a new id and the region: the one asked for, or its
      parent's below a region. */
  lemma {:induction false} CreateReplies(regions: set<Id>, b: Book, op: Op)
    requires BookOk(b) && op.Create?
    ensures var reply, below := ReplyTo(regions, b, op), op.tier != Region;
      && (reply == Refused(EmptyName) <==> !op.named)
      && (reply == Refused(UnknownRegion) <==> op.named && !below && !(op.region.Some? && op.region.value in regions))
      && (reply == Refused(UnknownParent) <==> op.named && below && !HasParent(b.accounts, op))
      && (reply == Refused(RegionDerives) <==> op.named && below && HasParent(b.accounts, op) && op.region.Some?)
      && (reply == Refused(TierEdge) <==>
            op.named && below && HasParent(b.accounts, op) && op.region.None? && !FitsParent(b.accounts, op))
      && (reply.Ok? <==>
            op.named && if !below then op.region.Some? && op.region.value in regions
                        else op.region.None? && FitsParent(b.accounts, op))
      && (reply.Ok? ==> !HasNode(b.accounts, reply.id))
      && (reply.Ok? && !below ==> op.region == Some(reply.region))
      && (reply.Ok? && below ==> forall p :: IsParent(b.accounts, op, p) ==> p.region == reply.region)
  {
    FindsParent(b.accounts, op);
    var at := ParentFor(b.accounts, op);
    if at.Some? {
      assert IsParent(b.accounts, op, b.accounts[at.value]);
    }
  }

  /** A create that is answered leaves the nodes there were as they were, and one more: the one asked for. */
  lemma {:induction false} CreateAdds(regions: set<Id>, b: Book, op: Op)
    requires BookOk(b) && op.Create?
    ensures var reply, b' := ReplyTo(regions, b, op), Step(regions, b, op);
      && (reply.Refused? ==> b' == b)
      && (reply.Ok? ==>
            && |b'.accounts| == |b.accounts| + 1 && b.accounts <= b'.accounts
            && b'.accounts[|b.accounts|]
               == Account(reply.id, op.org, op.tier, if op.tier == Region then None else op.parent, reply.region)
            && Find(b'.accounts, reply.id) == Some(|b.accounts|))
  {
    if ReplyTo(regions, b, op).Ok? {
      var a := Step(regions, b, op).accounts[|b.accounts|];
      FindAppend(b.accounts, a, a.id);
    }
  }

  /** When a move is refused, and why; otherwise it answers with the node and its new parent's region. */
  lemma {:induction false} MoveReplies(regions: set<Id>, b: Book, op: Op)
    requires BookOk(b) && op.Move?
    ensures var reply := ReplyTo(regions, b, op);
      && (reply == Refused(UnknownNode) <==> !HasNode(b.accounts, op.account) || !HasNode(b.accounts, op.to))
      && forall a, p :: a in b.accounts && p in b.accounts && a.id == op.account && p.id == op.to ==>
           && (reply == Refused(CrossOrgMove) <==> p.org != a.org)
           && (reply.Ok? <==> p.org == a.org && HangsUnder(a.tier, p.tier))
           && (reply == Refused(Cycle) <==> p.org == a.org && op.account in AncestorsOf(b.accounts, op.to))
           && (reply == Refused(TierEdge) <==>
                 p.org == a.org && op.account !in AncestorsOf(b.accounts, op.to) && !HangsUnder(a.tier, p.tier))
           && (reply.Ok? ==> reply == Ok(op.account, p.region))
  {
    FindsTheOne(b.accounts, op.account);
    FindsTheOne(b.accounts, op.to);
    var at, p := Find(b.accounts, op.account), Find(b.accounts, op.to);
    if at.Some? && p.Some? && Below(b.accounts, op.account, p.value) {
      TiersRuleOutCycles(b.accounts, at.value, p.value);
    }
  }

  /** A move that is answered hangs the node under its new parent and puts it, and everything that was at or below it, in
      the parent's region; nothing else of any node changes. */
  lemma {:induction false} MoveMoves(regions: set<Id>, b: Book, op: Op, i: nat)
    requires BookOk(b) && op.Move? && i < |b.accounts|
    ensures var reply, b' := ReplyTo(regions, b, op), Step(regions, b, op);
      && (reply.Refused? ==> b' == b)
      && (reply.Ok? ==>
            var a, a' := b.accounts[i], b'.accounts[i];
            && |b'.accounts| == |b.accounts| && b'.minted == b.minted
            && a'.id == a.id && a'.org == a.org && a'.tier == a.tier
            && a'.parent == (if a.id == op.account then Some(op.to) else a.parent)
            && a'.region == if op.account in AncestorsOf(b.accounts, a.id) then reply.region else a.region)
  {
    if ReplyTo(regions, b, op).Ok? {
      FindsItself(b.accounts, i);
      FindsItself(b.accounts, Find(b.accounts, op.account).value);
    }
  }
}
