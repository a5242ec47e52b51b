/** What each write of the order books answers and does, in terms of the rows alone. */
module OrderWrites {
  import opened Common
  import opened Orders
  import opened OrderRuns

  // ---- the order asked for ----

  /** The order by that id, if the viewer sees it: the office every one, a vendor its own once issued. */
  predicate IsAsked(po: Po, viewer: Viewer, id: Id) {
    po.id == id && (viewer.Some? ==> viewer.value == po.vendor && po.state != Draft)
  }

  ghost predicate NoneAsked(b: Books, viewer: Viewer, id: Id) {
    forall po: Po :: po in b.pos ==> !IsAsked(po, viewer, id)
  }

  lemma {:induction false} FindsTheOne(b: Books, viewer: Viewer, id: Id)
    requires IdsOk(b)
    ensures FindPo(b.pos, viewer, id).None? <==> NoneAsked(b, viewer, id)
    ensures forall i :: 0 <= i < |b.pos| && IsAsked(b.pos[i], viewer, id) ==> FindPo(b.pos, viewer, id) == Some(i)
    ensures FindPo(b.pos, viewer, id).Some? ==> IsAsked(b.pos[FindPo(b.pos, viewer, id).value], viewer, id)
  {
    hide FindPo;
    var at := FindPo(b.pos, viewer, id);
    assert forall po: Po :: IsAsked(po, viewer, id) <==> po.id == id && Sees(viewer, po);
    assert at.Some? ==> b.pos[at.value] in b.pos;
    forall i | 0 <= i < |b.pos| && IsAsked(b.pos[i], viewer, id) ensures at == Some(i) {
      assert b.pos[i] in b.pos;
      assert i < at.value ==> Apart(b.pos[i], b.pos[at.value]);
      assert at.value < i ==> Apart(b.pos[at.value], b.pos[i]);
    }
  }

  // ---- sums ----

  /** A line's parts, shipments, receipts and returns not denied add up, each row once. */
  lemma {:induction false} SumsAddUp(line: Id, po: Id, p: Part, s: Shipment, r: Receipt, m: Rma,
                                     ps: seq<Part>, ss: seq<Shipment>, rs: seq<Receipt>, ms: seq<Rma>)
    ensures PartsOf([], line) == 0 && PartsOf(ps + [p], line) == PartsOf(ps, line) + if p.line == line then p.quantity else 0
    ensures ShippedOf([], po, line) == 0
    ensures ShippedOf(ss + [s], po, line) == ShippedOf(ss, po, line) + if s.po == po then PartsOf(s.parts, line) else 0
    ensures ReceivedOf([], line) == 0 && ReceivedOf(rs + [r], line) == ReceivedOf(rs, line) + if r.line == line then r.quantity else 0
    ensures ReturnedOf([], line) == 0
    ensures ReturnedOf([m] + ms, line) == ReturnedOf(ms, line) + if m.line == line && m.state != Denied then m.quantity else 0
  {
    assert (ps + [p])[..|ps|] == ps && (ss + [s])[..|ss|] == ss && (rs + [r])[..|rs|] == rs && ([m] + ms)[1..] == ms;
  }

  // ---- parts ----

  /** A part names a line of the order and, with what was taken of it before, no more than was ordered. */
  ghost predicate Fits(p: Part, lines: seq<Line>, taken: Id -> nat) {
    p.quantity > 0 && exists l: Line :: l in lines && l.id == p.line && taken(l.id) + p.quantity <= l.quantity
  }

  ghost predicate OnNoLine(p: Part, lines: seq<Line>) {
    forall l: Line :: l in lines ==> l.id != p.line
  }

  /** The first part that does not fit, and what is wrong with it. */
  ghost predicate FirstMisfit(parts: seq<Part>, lines: seq<Line>, taken: Id -> nat, tooMuch: Why, why: Why) {
    exists k :: 0 <= k < |parts| && !Fits(parts[k], lines, taken) && (forall i :: 0 <= i < k ==> Fits(parts[i], lines, taken))
      && why == if OnNoLine(parts[k], lines) then UnknownLine else if parts[k].quantity == 0 then NotPositive else tooMuch
  }

  lemma {:induction false} LineFound(lines: seq<Line>, id: Id)
    requires LineIdsOk(lines)
    ensures forall l: Line :: l in lines && l.id == id ==> FindLine(lines, id) == Some(l)
  {
    hide FindLine;
    forall l: Line | l in lines && l.id == id ensures FindLine(lines, id) == Some(l) {
      var found := FindLine(lines, id).value;
      var i :| 0 <= i < |lines| && lines[i] == l;
      var j :| 0 <= j < |lines| && lines[j] == found;
    }
  }

  lemma {:induction false} PartFitsIs(p: Part, lines: seq<Line>, taken: Id -> nat)
    requires LineIdsOk(lines)
    ensures PartFits(p, lines, taken) <==> Fits(p, lines, taken)
    ensures FindLine(lines, p.line).None? <==> OnNoLine(p, lines)
  {
    hide FindLine;
    LineFound(lines, p.line);
  }

  lemma {:induction false} MisfitStays(parts: seq<Part>, lines: seq<Line>, taken: Id -> nat, tooMuch: Why, why: Why)
    requires parts != [] && FirstMisfit(parts[..|parts| - 1], lines, taken, tooMuch, why)
    ensures FirstMisfit(parts, lines, taken, tooMuch, why)
  {
    hide Fits, OnNoLine;
    var init := parts[..|parts| - 1];
    assert forall i :: 0 <= i < |init| ==> parts[i] == init[i];
  }

  lemma {:induction false} MisfitFound(parts: seq<Part>, lines: seq<Line>, taken: Id -> nat, tooMuch: Why)
    requires LineIdsOk(lines)
    ensures var fault := PartsFault(parts, lines, taken, tooMuch);
      if fault.None? then forall i :: 0 <= i < |parts| ==> Fits(parts[i], lines, taken)
      else FirstMisfit(parts, lines, taken, tooMuch, fault.value)
  {
    hide FindLine, Fits, OnNoLine, LineIdsOk, FirstMisfit;
    if parts != [] {
      var n := |parts| - 1;
      var init := parts[..n];
      MisfitFound(init, lines, taken, tooMuch);
      PartFitsIs(parts[n], lines, taken);
      assert forall i :: 0 <= i < n ==> parts[i] == init[i];
      if PartsFault(init, lines, taken, tooMuch).Some? {
        MisfitStays(parts, lines, taken, tooMuch, PartsFault(init, lines, taken, tooMuch).value);
      } else {
        LastMisfit(parts, lines, taken, tooMuch);
      }
    }
  }

  lemma {:induction false} LastMisfit(parts: seq<Part>, lines: seq<Line>, taken: Id -> nat, tooMuch: Why)
    requires parts != []
    ensures var p := parts[|parts| - 1];
      !Fits(p, lines, taken) && (forall i :: 0 <= i < |parts| - 1 ==> Fits(parts[i], lines, taken)) ==>
        FirstMisfit(parts, lines, taken, tooMuch, if OnNoLine(p, lines) then UnknownLine else if p.quantity == 0 then NotPositive else tooMuch)
  {
    hide Fits, OnNoLine;
  }

  // ---- what a write on an order answers ----

  ghost predicate AnyShipment(b: Books, id: Id) {
    exists s: Shipment :: s in b.shipments && s.po == id
  }

  ghost predicate AllFit(parts: seq<Part>, lines: seq<Line>, taken: Id -> nat) {
    forall i :: 0 <= i < |parts| ==> Fits(parts[i], lines, taken)
  }

  /** How a write on an order the viewer sees is answered. */
  ghost predicate Answers(b: Books, op: Op, po: Po, r: Reply)
    requires OnPo(op)
  {
    match op
    case Issue(_, _) => r == if po.state == Draft then Ok else Refused(NotDraft)
    case Cancel(_, _) =>
      r == if po.state == Received || po.state == Cancelled then Refused(NotCancellable)
           else if AnyShipment(b, po.id) then Refused(AlreadyShipped) else Ok
    case Acknowledge(_, _, promised, today) =>
      r == if po.state != Issued then Refused(NotIssued) else if promised < today then Refused(ShipDatePassed) else Ok
    case Ship(_, _, carrier, parts) =>
      if po.state != Acknowledged then r == Refused(NotAcknowledged)
      else if !carrier then r == Refused(EmptyCarrier)
      else if AllFit(parts, po.lines, Shipped(b, po.id)) then r == Ok
      else r.Refused? && FirstMisfit(parts, po.lines, Shipped(b, po.id), ShipsTooMuch, r.why)
    case Receive(_, _, parts) =>
      if po.state != Acknowledged then r == Refused(NotAcknowledged)
      else if AllFit(parts, po.lines, Arrived(b)) then r == Ok
      else r.Refused? && FirstMisfit(parts, po.lines, Arrived(b), ReceivesTooMuch, r.why)
    case RequestReturn(_, _, reason, part) =>
      r == if OnNoLine(part, po.lines) then Refused(UnknownLine)
           else if !reason then Refused(EmptyReason)
           else if part.quantity == 0 then Refused(NotPositive)
           else if ReturnedOf(b.rmas, part.line) + part.quantity > ReceivedOf(b.receipts, part.line) then Refused(ReturnsTooMuch)
           else Ok
  }

  lemma {:induction false} PoReplyAnswers(b: Books, op: Op, po: Po)
    requires OnPo(op) && LineIdsOk(po.lines)
    ensures Answers(b, op, po, PoReply(b, op, po))
  {
    hide PartsFault, FindLine, Fits, LineIdsOk, ShippedOf, ReceivedOf, ReturnedOf;
    match op
    case Ship(_, _, _, parts) => MisfitFound(parts, po.lines, Shipped(b, po.id), ShipsTooMuch);
    case Receive(_, _, parts) => MisfitFound(parts, po.lines, Arrived(b), ReceivesTooMuch);
    case RequestReturn(_, _, _, part) => PartFitsIs(part, po.lines, Arrived(b));
    case _ =>
  }

  /** Every write on an order is answered by what the viewer sees of it. */
  lemma {:induction false} EveryWriteAnswers(b: Books, op: Op)
    requires IdsOk(b) && OnPo(op)
    ensures NoneAsked(b, op.viewer, op.po) ==> ReplyTo(b, op) == Refused(UnknownPo)
    ensures forall po: Po :: po in b.pos && IsAsked(po, op.viewer, op.po) ==> Answers(b, op, po, ReplyTo(b, op))
  {
    hide Answers, FindPo, NoneAsked;
    FindsTheOne(b, op.viewer, op.po);
    forall po: Po | po in b.pos && IsAsked(po, op.viewer, op.po) ensures Answers(b, op, po, ReplyTo(b, op)) {
      var i :| 0 <= i < |b.pos| && b.pos[i] == po;
      PoReplyAnswers(b, op, po);
    }
  }

  // ---- what a write on an order does ----

  /** Of the orders, only the one by that id changes, and of it only the state. */
  ghost predicate OnlyStateOf(b: Books, id: Id, state: PoState, pos: seq<Po>) {
    && |pos| == |b.pos|
    && forall i :: 0 <= i < |pos| ==> pos[i] == if b.pos[i].id == id then b.pos[i].(state := state) else b.pos[i]
  }

  /** One receipt a part, in order. */
  ghost predicate ReceiptsOf(po: Id, parts: seq<Part>, rs: seq<Receipt>) {
    |rs| == |parts| && forall i :: 0 <= i < |rs| ==> rs[i] == Receipt(po, parts[i].line, parts[i].quantity)
  }

  ghost predicate FullyIn(receipts: seq<Receipt>, lines: seq<Line>) {
    forall l: Line :: l in lines ==> ReceivedOf(receipts, l.id) >= l.quantity
  }

  /** What an accepted write on an order leaves. */
  ghost predicate Does(b: Books, op: Op, po: Po, b': Books)
    requires OnPo(op)
  {
    match op
    case Issue(_, _) => OnlyStateOf(b, po.id, Issued, b'.pos) && b' == b.(pos := b'.pos)
    case Cancel(_, _) => OnlyStateOf(b, po.id, Cancelled, b'.pos) && b' == b.(pos := b'.pos)
    case Acknowledge(_, _, _, _) => OnlyStateOf(b, po.id, Acknowledged, b'.pos) && b' == b.(pos := b'.pos)
    case Ship(_, _, _, parts) => b' == b.(shipments := b.shipments + [Shipment(po.id, parts)], minted := b.minted + 1)
    case Receive(_, _, parts) =>
      exists rs :: ReceiptsOf(po.id, parts, rs)
        && b' == b.(receipts := b.receipts + rs, minted := b.minted + |parts|, pos := b'.pos)
        && if FullyIn(b'.receipts, po.lines) then OnlyStateOf(b, po.id, Received, b'.pos) else b'.pos == b.pos
    case RequestReturn(_, _, _, part) =>
      b' == b.(rmas := [Rma(b.minted, po.id, part.line, po.vendor, part.quantity, Requested)] + b.rmas, minted := b.minted + 1)
  }

  lemma {:induction false} OnlyOneById(b: Books, at: nat, state: PoState)
    requires IdsOk(b) && at < |b.pos|
    ensures OnlyStateOf(b, b.pos[at].id, state, b.pos[at := b.pos[at].(state := state)])
  {
    forall i | 0 <= i < |b.pos| && i != at ensures b.pos[i].id != b.pos[at].id {
      assert if i < at then Apart(b.pos[i], b.pos[at]) else Apart(b.pos[at], b.pos[i]);
    }
  }

  lemma {:induction false} PoStepDoes(b: Books, op: Op, at: nat)
    requires IdsOk(b) && OnPo(op) && at < |b.pos|
    ensures Does(b, op, b.pos[at], PoStep(b, op, at))
  {
    hide IdsOk, OnlyStateOf, ReceivedOf;
    var po := b.pos[at];
    match op
    case Issue(_, _) => OnlyOneById(b, at, Issued);
    case Cancel(_, _) => OnlyOneById(b, at, Cancelled);
    case Acknowledge(_, _, _, _) => OnlyOneById(b, at, Acknowledged);
    case Receive(_, _, parts) =>
      OnlyOneById(b, at, Received);
      ReceiptsAreOf(po.id, parts);
    case _ =>
  }

  lemma {:induction false} ReceiptsAreOf(po: Id, parts: seq<Part>)
    ensures ReceiptsOf(po, parts, Receipts(po, parts))
  {
  }

  /** An accepted write does what it says to the order asked for, and nothing else; a refused one does nothing. */
  lemma {:induction false} EveryWriteDoes(b: Books, op: Op)
    requires IdsOk(b) && OnPo(op)
    ensures ReplyTo(b, op).Refused? ==> Step(b, op) == b
    ensures forall po: Po :: po in b.pos && IsAsked(po, op.viewer, op.po) && ReplyTo(b, op).Ok? ==> Does(b, op, po, Step(b, op))
  {
    hide Does, FindPo, NoneAsked, PoReply;
    FindsTheOne(b, op.viewer, op.po);
    forall po: Po | po in b.pos && IsAsked(po, op.viewer, op.po) && ReplyTo(b, op).Ok? ensures Does(b, op, po, Step(b, op)) {
      var i :| 0 <= i < |b.pos| && b.pos[i] == po;
      PoStepDoes(b, op, i);
    }
  }

  // ---- new orders ----

  /** The item is the vendor's, it has an accepted price, and some of it is wanted. */
  predicate Orderable(w: Want, vendor: Id, catalogue: Catalogue) {
    w.item in catalogue && catalogue[w.item].vendor == vendor && catalogue[w.item].price.Some? && w.quantity > 0
  }

  ghost predicate WhyNot(w: Want, vendor: Id, catalogue: Catalogue, why: Why) {
    && (why == ItemNotVendors <==> w.item !in catalogue || catalogue[w.item].vendor != vendor)
    && (why == NoAcceptedPrice <==> w.item in catalogue && catalogue[w.item].vendor == vendor && catalogue[w.item].price.None?)
    && why in {ItemNotVendors, NoAcceptedPrice, NotPositive}
  }

  /** The first line that cannot be ordered, and why. */
  ghost predicate FirstUnorderable(wants: seq<Want>, vendor: Id, catalogue: Catalogue, why: Why) {
    exists k :: 0 <= k < |wants| && !Orderable(wants[k], vendor, catalogue) && WhyNot(wants[k], vendor, catalogue, why)
      && forall i :: 0 <= i < k ==> Orderable(wants[i], vendor, catalogue)
  }

  lemma {:induction false} WhyNotIs(w: Want, vendor: Id, catalogue: Catalogue)
    ensures WantFault(w, vendor, catalogue).None? <==> Orderable(w, vendor, catalogue)
    ensures WantFault(w, vendor, catalogue).Some? ==> WhyNot(w, vendor, catalogue, WantFault(w, vendor, catalogue).value)
  {
  }

  lemma {:induction false} UnorderableFound(wants: seq<Want>, vendor: Id, catalogue: Catalogue)
    ensures var fault := WantsFault(wants, vendor, catalogue);
      if fault.None? then forall w :: w in wants ==> Orderable(w, vendor, catalogue)
      else FirstUnorderable(wants, vendor, catalogue, fault.value)
  {
    hide WantFault, Orderable, WhyNot;
    if wants != [] {
      var n := |wants| - 1;
      var init := wants[..n];
      UnorderableFound(init, vendor, catalogue);
      WhyNotIs(wants[n], vendor, catalogue);
      assert wants == init + [wants[n]];
      assert forall i :: 0 <= i < n ==> wants[i] == init[i] && init[i] in init;
    }
  }

  /** An order is refused for the first thing wrong with it; or a draft is added last, with ids not given out before, each
      line at its item's accepted price, and the total of its lines. */
  lemma {:induction false} NewOrders(b: Books, op: Op)
    requires op.CreateOrder?
    ensures var r := ReplyTo(b, op);
      && (r == Refused(UnknownVendor) <==> !op.known)
      && (r == Refused(NoLines) <==> op.known && op.wants == [])
      && (r.Ok? <==> op.known && op.wants != [] && forall w :: w in op.wants ==> Orderable(w, op.vendor, op.catalogue))
      && (r.Refused? && op.known && op.wants != [] ==> FirstUnorderable(op.wants, op.vendor, op.catalogue, r.why))
      && (r.Refused? ==> Step(b, op) == b)
    ensures ReplyTo(b, op).Ok? ==>
      var b', n := Step(b, op), |b.pos|;
      && |b'.pos| == n + 1 && b' == b.(pos := b.pos + [b'.pos[n]], minted := b.minted + |op.wants| + 1)
      && var po := b'.pos[n];
         && po.id == b.minted + |op.wants| && po.vendor == op.vendor && po.state == Draft && po.total == OrderTotal(po.lines)
         && |po.lines| == |op.wants|
         && forall i :: 0 <= i < |op.wants| ==>
              && op.wants[i].item in op.catalogue
              && po.lines[i].id == b.minted + i && po.lines[i].quantity == op.wants[i].quantity
              && op.catalogue[op.wants[i].item].price == Some(po.lines[i].price)
  {
    hide WantsFault, OrderTotal, WantFault, FirstUnorderable;
    UnorderableFound(op.wants, op.vendor, op.catalogue);
    FirstIsAWhy(op.wants, op.vendor, op.catalogue);
    if ReplyTo(b, op).Ok? {
      assert forall i :: 0 <= i < |op.wants| ==> op.wants[i] in op.wants;
    }
  }

  lemma {:induction false} FirstIsAWhy(wants: seq<Want>, vendor: Id, catalogue: Catalogue)
    ensures forall why: Why :: FirstUnorderable(wants, vendor, catalogue, why) ==>
        why != UnknownVendor && why != NoLines && exists w :: w in wants && !Orderable(w, vendor, catalogue)
  {
    forall why: Why | FirstUnorderable(wants, vendor, catalogue, why)
      ensures why != UnknownVendor && why != NoLines && exists w :: w in wants && !Orderable(w, vendor, catalogue)
    {
      var k :| 0 <= k < |wants| && !Orderable(wants[k], vendor, catalogue);
      assert wants[k] in wants;
    }
  }

  // ---- answers to returns ----

  /** The vendor's return by that id. */
  ghost predicate RmaIs(rmas: seq<Rma>, id: Id, vendor: Viewer, at: nat) {
    && at < |rmas| && rmas[at].id == id && vendor == Some(rmas[at].vendor)
    && forall i :: 0 <= i < at ==> !(rmas[i].id == id && vendor == Some(rmas[i].vendor))
  }

  lemma {:induction false} RmaFound(rmas: seq<Rma>, id: Id, vendor: Viewer)
    ensures var at := FindRma(rmas, id, vendor);
      if at.Some? then RmaIs(rmas, id, vendor, at.value) else forall i: nat :: !RmaIs(rmas, id, vendor, i)
  {
    if rmas != [] {
      RmaFound(rmas[..|rmas| - 1], id, vendor);
    }
  }

  /** A vendor answers its own request, once and completely; the answer is all that changes. */
  lemma {:induction false} AnswersToReturns(b: Books, op: Op)
    requires op.Answer?
    ensures var r, b' := ReplyTo(b, op), Step(b, op);
      && (r == Refused(UnknownRma) <==> forall at: nat :: !RmaIs(b.rmas, op.rma, op.viewer, at))
      && (r.Refused? ==> r.why in {UnknownRma, AlreadyAnswered, AnswerIncomplete} && b' == b)
      && forall at: nat :: RmaIs(b.rmas, op.rma, op.viewer, at) ==>
           && (r == Refused(AlreadyAnswered) <==> b.rmas[at].state != Requested)
           && (r == Refused(AnswerIncomplete) <==> b.rmas[at].state == Requested && !op.complete)
           && (r.Ok? ==> b' == b.(rmas := b.rmas[at := b.rmas[at].(state := if op.authorized then Authorized else Denied)]))
  {
    RmaFound(b.rmas, op.rma, op.viewer);
    OneRma(b.rmas, op.rma, op.viewer);
  }

  lemma {:induction false} OneRma(rmas: seq<Rma>, id: Id, vendor: Viewer)
    ensures forall i: nat, j: nat :: RmaIs(rmas, id, vendor, i) && RmaIs(rmas, id, vendor, j) ==> i == j
  {
  }
}
