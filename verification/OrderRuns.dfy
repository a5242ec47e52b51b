/** Every run of writes keeps the order books; and exactly when it keeps the quantities in bounds. */
module OrderRuns {
  import opened Common
  import opened Orders

  // ---- sums ----

  lemma {:induction false} ReceivedMore(receipts: seq<Receipt>, po: Id, parts: seq<Part>, line: Id)
    ensures ReceivedOf(receipts + Receipts(po, parts), line) == ReceivedOf(receipts, line) + PartsOf(parts, line)
    decreases |parts|
  {
    if parts == [] {
      assert receipts + Receipts(po, parts) == receipts;
    } else {
      var n := |parts| - 1;
      ReceivedMore(receipts, po, parts[..n], line);
      var all := receipts + Receipts(po, parts);
      assert all[..|all| - 1] == receipts + Receipts(po, parts[..n]);
    }
  }

  lemma {:induction false} ShippedMore(shipments: seq<Shipment>, s: Shipment, po: Id, line: Id)
    ensures ShippedOf(shipments + [s], po, line) == ShippedOf(shipments, po, line) + if s.po == po then PartsOf(s.parts, line) else 0
  {
    assert (shipments + [s])[..|shipments|] == shipments;
  }

  lemma {:induction false} NothingShipped(shipments: seq<Shipment>, po: Id, line: Id)
    requires NeverShipped(shipments, po)
    ensures ShippedOf(shipments, po, line) == 0
  {
    if shipments != [] {
      assert shipments[|shipments| - 1] in shipments;
      NothingShipped(shipments[..|shipments| - 1], po, line);
    }
  }

  lemma {:induction false} NothingReceived(receipts: seq<Receipt>, line: Id)
    requires forall r: Receipt :: r in receipts ==> r.line != line
    ensures ReceivedOf(receipts, line) == 0
  {
    if receipts != [] {
      assert receipts[|receipts| - 1] in receipts;
      NothingReceived(receipts[..|receipts| - 1], line);
    }
  }

  lemma {:induction false} NothingReturned(rmas: seq<Rma>, line: Id)
    requires forall r: Rma :: r in rmas ==> r.line != line
    ensures ReturnedOf(rmas, line) == 0
  {
    if rmas != [] {
      assert rmas[0] in rmas;
      NothingReturned(rmas[1..], line);
    }
  }

  lemma {:induction false} NoParts(parts: seq<Part>, line: Id)
    requires forall p: Part :: p in parts ==> p.line != line
    ensures PartsOf(parts, line) == 0
  {
    if parts != [] {
      assert parts[|parts| - 1] in parts;
      NoParts(parts[..|parts| - 1], line);
    }
  }

  /** An answer never adds to what a line's returns come to. */
  lemma {:induction false} AnswerReturns(rmas: seq<Rma>, at: nat, state: RmaState, line: Id)
    requires at < |rmas| && rmas[at].state == Requested
    ensures ReturnedOf(rmas[at := rmas[at].(state := state)], line)
         == ReturnedOf(rmas, line) - if state == Denied && rmas[at].line == line then rmas[at].quantity else 0
  {
    var rmas' := rmas[at := rmas[at].(state := state)];
    if at == 0 {
      assert rmas'[1..] == rmas[1..];
    } else {
      AnswerReturns(rmas[1..], at - 1, state, line);
      assert rmas'[1..] == rmas[1..][at - 1 := rmas[at].(state := state)];
    }
  }

  predicate PartFits(p: Part, lines: seq<Line>, taken: Id -> nat) {
    && FindLine(lines, p.line).Some? && p.quantity > 0
    && taken(p.line) + p.quantity <= FindLine(lines, p.line).value.quantity
  }

  /** The check passes a request exactly when each part by itself fits. */
  lemma {:induction false} NoFault(parts: seq<Part>, lines: seq<Line>, taken: Id -> nat, tooMuch: Why)
    ensures PartsFault(parts, lines, taken, tooMuch).None? <==> forall p: Part :: p in parts ==> PartFits(p, lines, taken)
  {
    if parts != [] {
      var n := |parts| - 1;
      NoFault(parts[..n], lines, taken, tooMuch);
      assert parts == parts[..n] + [parts[n]];
      LastPart(parts, lines, taken, tooMuch);
      if PartsFault(parts[..n], lines, taken, tooMuch).None? && PartFits(parts[n], lines, taken) {
        assert forall p: Part :: p in parts ==> p in parts[..n] || p == parts[n];
      } else {
        assert parts[n] in parts && forall p: Part :: p in parts[..n] ==> p in parts;
      }
    }
  }

  lemma {:induction false} LastPart(parts: seq<Part>, lines: seq<Line>, taken: Id -> nat, tooMuch: Why)
    requires parts != []
    ensures var n := |parts| - 1;
      PartsFault(parts, lines, taken, tooMuch).None?
      <==> PartsFault(parts[..n], lines, taken, tooMuch).None? && PartFits(parts[n], lines, taken)
  {
  }

  // ---- every write keeps the books ----

  /** No line of another order is named. */
  lemma {:induction false} OtherOrdersParts(b: Books, at: nat, parts: seq<Part>, i: nat, l: Line)
    requires IdsOk(b) && at < |b.pos| && i < |b.pos| && i != at && l in b.pos[i].lines
    requires forall p: Part :: p in parts ==> FindLine(b.pos[at].lines, p.line).Some?
    ensures PartsOf(parts, l.id) == 0 && b.pos[i].id != b.pos[at].id
  {
    assert if i < at then Apart(b.pos[i], b.pos[at]) else Apart(b.pos[at], b.pos[i]);
    forall p: Part | p in parts ensures p.line != l.id {
      assert FindLine(b.pos[at].lines, p.line).value in b.pos[at].lines;
    }
    NoParts(parts, l.id);
  }

  lemma {:induction false} NewOrderIds(pos: seq<Po>, po: Po, minted: nat, minted': nat)
    requires PosIdsOk(pos, minted) && LineIdsOk(po.lines) && minted <= po.id < minted'
    requires forall l: Line :: l in po.lines ==> minted <= l.id < po.id
    ensures PosIdsOk(pos + [po], minted')
  {
    var pos' := pos + [po];
    forall i, j | 0 <= i < j < |pos'| ensures Apart(pos'[i], pos'[j]) {
      assert pos'[i] in pos;
    }
  }

  lemma {:induction false} NewLines(b: Books, wants: seq<Want>, vendor: Id, catalogue: Catalogue)
    requires WantsFault(wants, vendor, catalogue).None?
    ensures var ls := LinesOf(wants, catalogue, b.minted);
      && LineIdsOk(ls)
      && forall l: Line :: l in ls ==> l.quantity > 0 && b.minted <= l.id < b.minted + |wants|
  {
    hide WantsFault;
    assert forall w :: w in wants ==> WantFault(w, vendor, catalogue).None?;
    assert forall i :: 0 <= i < |wants| ==> wants[i] in wants;
  }

  lemma {:induction false} NothingYet(b: Books, po: Id, l: Line)
    requires IdsOk(b) && po >= b.minted && l.id >= b.minted
    ensures ShippedOf(b.shipments, po, l.id) == 0 && ReceivedOf(b.receipts, l.id) == 0 && ReturnedOf(b.rmas, l.id) == 0
  {
    NothingShipped(b.shipments, po, l.id);
    NothingReceived(b.receipts, l.id);
    NothingReturned(b.rmas, l.id);
  }

  lemma {:induction false} NewOrder(b: Books, op: Op)
    requires IdsOk(b) && op.CreateOrder? && ReplyTo(b, op).Ok?
    ensures var b', n := Step(b, op), |b.pos|;
      && b'.pos == b.pos + [b'.pos[n]] && b'.shipments == b.shipments && b'.receipts == b.receipts && b'.rmas == b.rmas
      && PoOk(b', b'.pos[n]) && PoInBounds(b', b'.pos[n]) && PosIdsOk(b'.pos, b'.minted) && b.minted <= b'.minted
      && b'.pos[n].state == Draft
  {
    hide PosIdsOk, OrderTotal, PartsOf, LinesOf, WantsFault, ShippedOf, ReceivedOf, ReturnedOf, LineIdsOk;
    var b', n := Step(b, op), |b.pos|;
    var po := b'.pos[n];
    NewLines(b, op.wants, op.vendor, op.catalogue);
    forall l: Line | l in po.lines
      ensures ShippedOf(b.shipments, po.id, l.id) == 0 && ReceivedOf(b.receipts, l.id) == 0 && ReturnedOf(b.rmas, l.id) == 0
    {
      NothingYet(b, po.id, l);
    }
    NewOrderIds(b.pos, po, b.minted, b'.minted);
  }

  lemma {:induction false} CreateKeeps(b: Books, op: Op)
    requires Kept(b) && op.CreateOrder? && ReplyTo(b, op).Ok?
    ensures Kept(Step(b, op)) && (Bounded(b) ==> Bounded(Step(b, op)))
  {
    hide PosIdsOk, OrderTotal, PartsOf, Step, ReplyTo;
    NewOrder(b, op);
  }

  lemma {:induction false} StateIds(pos: seq<Po>, at: nat, state: PoState, minted: nat, minted': nat)
    requires PosIdsOk(pos, minted) && at < |pos| && minted <= minted'
    ensures PosIdsOk(pos[at := pos[at].(state := state)], minted') && PosIdsOk(pos, minted')
  {
    var pos' := pos[at := pos[at].(state := state)];
    forall i, j | 0 <= i < j < |pos'| ensures Apart(pos'[i], pos'[j]) {
      assert Apart(pos[i], pos[j]);
    }
    forall po: Po | po in pos'
      ensures LineIdsOk(po.lines) && po.id < minted && forall l: Line :: l in po.lines ==> l.id < minted
    {
      assert po in pos || (po == pos'[at] && pos[at] in pos);
    }
  }

  lemma {:induction false} MarkKeeps(b: Books, op: Op, at: nat)
    requires Kept(b) && (op.Issue? || op.Cancel? || op.Acknowledge?) && at < |b.pos| && PoReply(b, op, b.pos[at]).Ok?
    ensures Kept(PoStep(b, op, at)) && (Bounded(PoStep(b, op, at)) <==> Bounded(b))
  {
    hide PosIdsOk, OrderTotal, ShippedOf, ReceivedOf, ReturnedOf, AllReceived;
    var b', po := PoStep(b, op, at), b.pos[at];
    StateIds(b.pos, at, b'.pos[at].state, b.minted, b.minted);
    assert po in b.pos && po.lines[0] in po.lines;
    NotAllReceived(b.receipts, po.lines);
    assert PoOk(b', b'.pos[at]);
    forall p: Po | p in b'.pos ensures PoOk(b', p) {
      assert p == b'.pos[at] || p in b.pos;
    }
    SameOrders(b, at, b'.pos[at].state);
  }

  lemma {:induction false} NotAllReceived(receipts: seq<Receipt>, lines: seq<Line>)
    requires lines != [] && lines[0].quantity > 0
    ensures ReceivedOf(receipts, lines[0].id) == 0 ==> !AllReceived(receipts, lines)
  {
    assert lines[0] in lines;
  }

  /** Only an order's state differs: the bounds are the same. */
  lemma {:induction false} SameOrders(b: Books, at: nat, state: PoState)
    requires at < |b.pos|
    ensures Bounded(WithState(b, at, state)) <==> Bounded(b)
  {
    hide PoInBounds;
    var b' := WithState(b, at, state);
    forall i | 0 <= i < |b.pos| ensures PoInBounds(b', b'.pos[i]) <==> PoInBounds(b, b.pos[i]) {
      SameBounds(b, b', b.pos[i], b'.pos[i]);
    }
    BoundedByPlace(b);
    BoundedByPlace(b');
  }

  lemma {:induction false} BoundedByPlace(b: Books)
    ensures Bounded(b) <==> forall i :: 0 <= i < |b.pos| ==> PoInBounds(b, b.pos[i])
  {
    hide PoInBounds;
    assert forall i :: 0 <= i < |b.pos| ==> b.pos[i] in b.pos;
  }

  lemma {:induction false} SameBounds(b: Books, b': Books, p: Po, p': Po)
    requires b'.shipments == b.shipments && b'.receipts == b.receipts && b'.rmas == b.rmas
    requires p'.id == p.id && p'.lines == p.lines
    ensures PoInBounds(b', p') <==> PoInBounds(b, p)
  {
    hide ShippedOf, ReceivedOf, ReturnedOf;
    forall l: Line ensures InBounds(b', p'.id, l) <==> InBounds(b, p.id, l) {
    }
  }

  // ---- shipping, receiving, returning ----

  /** What an accepted request takes of each line it names fits in what is left of it. */
  predicate FitsLines(parts: seq<Part>, lines: seq<Line>, taken: Id -> nat) {
    forall l: Line :: l in lines ==> taken(l.id) + PartsOf(parts, l.id) <= l.quantity
  }

  predicate Fits(b: Books, op: Op) {
    (ReplyTo(b, op).Ok? && (op.Ship? || op.Receive?)) ==>
      var po := b.pos[FindPo(b.pos, op.viewer, op.po).value];
      FitsLines(op.parts, po.lines, if op.Ship? then Shipped(b, po.id) else Arrived(b))
  }

  lemma {:induction false} ShipKeeps(b: Books, op: Op, at: nat)
    requires Kept(b) && op.Ship? && at < |b.pos| && PoReply(b, op, b.pos[at]).Ok?
    ensures Kept(PoStep(b, op, at))
    ensures Bounded(b) ==> (Bounded(PoStep(b, op, at)) <==> FitsLines(op.parts, b.pos[at].lines, Shipped(b, b.pos[at].id)))
  {
    hide PosIdsOk, OrderTotal, ReceivedOf, ReturnedOf, AllReceived, PartsFault, ShippedOf, PartsOf;
    var b', po := PoStep(b, op, at), b.pos[at];
    var s := Shipment(po.id, op.parts);
    assert po in b.pos;
    StateIds(b.pos, at, po.state, b.minted, b'.minted);
    assert Kept(b') by {
      forall p: Po | p in b.pos ensures PoOk(b', p) {
        if p.id == po.id {
          SameId(b.pos, b.minted, p, po);
        }
      }
    }
    if Bounded(b) {
      forall p: Po, l: Line | p in b.pos && l in p.lines
        ensures InBounds(b', p.id, l) <==> (p == po ==> ShippedOf(b.shipments, po.id, l.id) + PartsOf(op.parts, l.id) <= l.quantity)
      {
        assert PoInBounds(b, p);
        ShippedMore(b.shipments, s, p.id, l.id);
        if p.id == po.id {
          SameId(b.pos, b.minted, p, po);
        }
      }
      assert forall p: Po :: p in b.pos && p != po ==> PoInBounds(b', p);
    }
  }

  lemma {:induction false} SameId(pos: seq<Po>, minted: nat, p: Po, q: Po)
    requires PosIdsOk(pos, minted) && p in pos && q in pos && p.id == q.id
    ensures p == q
  {
    forall i, j | 0 <= i < j < |pos| ensures pos[i].id != pos[j].id {
      assert Apart(pos[i], pos[j]);
    }
  }

  /** Goods received count for the lines they name and for no other order's. */
  lemma {:induction false} ReceivedAfter(b: Books, at: nat, parts: seq<Part>, p: Po, l: Line)
    requires IdsOk(b) && at < |b.pos| && p in b.pos && l in p.lines
    requires forall q: Part :: q in parts ==> FindLine(b.pos[at].lines, q.line).Some?
    ensures ReceivedOf(b.receipts + Receipts(b.pos[at].id, parts), l.id)
         == ReceivedOf(b.receipts, l.id) + if p == b.pos[at] then PartsOf(parts, l.id) else 0
  {
    hide PosIdsOk, ReceivedOf, PartsOf, FindLine;
    ReceivedMore(b.receipts, b.pos[at].id, parts, l.id);
    var i :| 0 <= i < |b.pos| && b.pos[i] == p;
    if i != at {
      OtherOrdersParts(b, at, parts, i, l);
    }
  }

  lemma {:induction false} NewReceipts(b: Books, at: nat, parts: seq<Part>, minted: nat)
    requires IdsOk(b) && at < |b.pos| && b.minted <= minted
    requires forall q: Part :: q in parts ==> FindLine(b.pos[at].lines, q.line).Some?
    ensures forall r: Receipt :: r in b.receipts + Receipts(b.pos[at].id, parts) ==> r.line < minted
  {
    hide FindLine;
    assert b.pos[at] in b.pos;
    forall r: Receipt | r in Receipts(b.pos[at].id, parts) ensures r.line < b.minted {
      var i :| 0 <= i < |parts| && r == Receipt(b.pos[at].id, parts[i].line, parts[i].quantity);
      assert parts[i] in parts;
    }
  }

  lemma {:induction false} ReceiveKeeps(b: Books, op: Op, at: nat)
    requires Kept(b) && op.Receive? && at < |b.pos| && PoReply(b, op, b.pos[at]).Ok?
    ensures Kept(PoStep(b, op, at))
    ensures Bounded(b) ==> (Bounded(PoStep(b, op, at)) <==> FitsLines(op.parts, b.pos[at].lines, Arrived(b)))
  {
    hide PosIdsOk, OrderTotal, ReceivedOf, ReturnedOf, PartsFault, ShippedOf, PartsOf, FindLine;
    var po := b.pos[at];
    NoFault(op.parts, po.lines, Arrived(b), ReceivesTooMuch);
    var b1 := b.(receipts := b.receipts + Receipts(po.id, op.parts), minted := b.minted + |op.parts|);
    NewReceipts(b, at, op.parts, b1.minted);
    StateIds(b.pos, at, Received, b.minted, b1.minted);
    forall p: Po, l: Line | p in b.pos && l in p.lines
      ensures ReceivedOf(b1.receipts, l.id) == ReceivedOf(b.receipts, l.id) + if p == po then PartsOf(op.parts, l.id) else 0
    {
      ReceivedAfter(b, at, op.parts, p, l);
    }
    assert po in b.pos;
    assert forall p: Po :: p in b.pos && p != po ==> PoOk(b1, p);
    ReceiveBounds(b, b1, po, op.parts);
    SameOrders(b1, at, Received);
    if AllReceived(b1.receipts, po.lines) {
      OnlyOneLike(b1, at);
      var b' := WithState(b1, at, Received);
      forall p: Po | p in b'.pos ensures PoOk(b', p) {
        assert p == po.(state := Received) || PoOk(b1, p);
      }
    }
  }

  /** No other place holds the same order. */
  lemma {:induction false} OnlyOneLike(b: Books, at: nat)
    requires IdsOk(b) && at < |b.pos|
    ensures forall state: PoState, p: Po :: p in WithState(b, at, state).pos ==>
      p == b.pos[at].(state := state) || (p in b.pos && p != b.pos[at])
  {
    forall i | 0 <= i < |b.pos| && i != at ensures b.pos[i] != b.pos[at] {
      assert if i < at then Apart(b.pos[i], b.pos[at]) else Apart(b.pos[at], b.pos[i]);
    }
  }

  lemma {:induction false} ReceiveBounds(b: Books, b1: Books, po: Po, parts: seq<Part>)
    requires b1.pos == b.pos && b1.shipments == b.shipments && b1.rmas == b.rmas && po in b.pos
    requires forall p: Po, l: Line :: p in b.pos && l in p.lines ==>
      ReceivedOf(b1.receipts, l.id) == ReceivedOf(b.receipts, l.id) + if p == po then PartsOf(parts, l.id) else 0
    ensures Bounded(b) ==> (Bounded(b1) <==> FitsLines(parts, po.lines, Arrived(b)))
  {
    hide ReceivedOf, ReturnedOf, ShippedOf, PartsOf;
    if Bounded(b) {
      forall p: Po, l: Line | p in b.pos && l in p.lines
        ensures InBounds(b1, p.id, l) <==> (p == po ==> ReceivedOf(b.receipts, l.id) + PartsOf(parts, l.id) <= l.quantity)
      {
        assert PoInBounds(b, p);
      }
      assert forall p: Po :: p in b.pos && p != po ==> PoInBounds(b1, p);
    }
  }

  lemma {:induction false} ReturnKeeps(b: Books, op: Op, at: nat)
    requires Kept(b) && op.RequestReturn? && at < |b.pos| && PoReply(b, op, b.pos[at]).Ok?
    ensures Kept(PoStep(b, op, at)) && (Bounded(b) ==> Bounded(PoStep(b, op, at)))
  {
    hide PosIdsOk, OrderTotal, ReceivedOf, ShippedOf, FindLine;
    var b', po := PoStep(b, op, at), b.pos[at];
    assert po in b.pos;
    StateIds(b.pos, at, po.state, b.minted, b'.minted);
    NamedLineIsThere(b, po, op.part.line);
    assert b'.rmas[1..] == b.rmas;
    forall p: Po, l: Line | p in b.pos && l in p.lines && InBounds(b, p.id, l) ensures InBounds(b', p.id, l) {
      if l.id == op.part.line {
        assert ReturnedOf(b.rmas, l.id) + op.part.quantity <= ReceivedOf(b.receipts, l.id);
      }
    }
  }

  lemma {:induction false} NamedLineIsThere(b: Books, po: Po, line: Id)
    requires IdsOk(b) && po in b.pos && FindLine(po.lines, line).Some?
    ensures line < b.minted
  {
  }

  lemma {:induction false} AnswerKeeps(b: Books, op: Op)
    requires Kept(b) && op.Answer? && ReplyTo(b, op).Ok?
    ensures Kept(Step(b, op)) && (Bounded(b) ==> Bounded(Step(b, op)))
  {
    hide PosIdsOk, OrderTotal, ReceivedOf, ShippedOf, ReturnedOf, FindRma;
    var at := FindRma(b.rmas, op.rma, op.viewer).value;
    var b', state := Step(b, op), if op.authorized then Authorized else Denied;
    assert b.rmas[at] in b.rmas;
    forall p: Po, l: Line | p in b.pos && l in p.lines && InBounds(b, p.id, l) ensures InBounds(b', p.id, l) {
      AnswerReturns(b.rmas, at, state, l.id);
    }
  }

  // ---- the promises ----

  /** Every write keeps the books, whatever it names; and from books in bounds it leaves books in bounds exactly when what
      a request takes of each line, added up over the request, fits in what is left of that line. */
  lemma {:induction false} StepKeeps(b: Books, op: Op)
    requires Kept(b)
    ensures Kept(Step(b, op))
    ensures Bounded(b) ==> (Bounded(Step(b, op)) <==> Fits(b, op))
  {
    hide Kept, Bounded, PoStep, PoReply, FitsLines;
    if ReplyTo(b, op).Ok? {
      match op
      case CreateOrder(_, _, _, _) => CreateKeeps(b, op);
      case Answer(_, _, _, _) => AnswerKeeps(b, op);
      case _ =>
        var at := FindPo(b.pos, op.viewer, op.po).value;
        match op
        case Ship(_, _, _, _) => ShipKeeps(b, op, at);
        case Receive(_, _, _) => ReceiveKeeps(b, op, at);
        case RequestReturn(_, _, _, _) => ReturnKeeps(b, op, at);
        case _ => MarkKeeps(b, op, at);
    }
  }

  /** No line named twice. */
  predicate NamesOnce(parts: seq<Part>) {
    forall i, j :: 0 <= i < j < |parts| ==> parts[i].line != parts[j].line
  }

  lemma {:induction false} NamedOnceFits(parts: seq<Part>, lines: seq<Line>, taken: Id -> nat, tooMuch: Why, l: Line)
    requires NamesOnce(parts) && l in lines && LineIdsOk(lines) && taken(l.id) <= l.quantity
    requires PartsFault(parts, lines, taken, tooMuch).None?
    ensures taken(l.id) + PartsOf(parts, l.id) <= l.quantity
  {
    NoFault(parts, lines, taken, tooMuch);
    if exists i :: 0 <= i < |parts| && parts[i].line == l.id {
      var i :| 0 <= i < |parts| && parts[i].line == l.id;
      OnePart(parts, i);
      assert parts[i] in parts && PartFits(parts[i], lines, taken) && FindLine(lines, l.id).value == l;
    } else {
      NoParts(parts, l.id);
    }
  }

  lemma {:induction false} OnePart(parts: seq<Part>, i: nat)
    requires NamesOnce(parts) && i < |parts|
    ensures PartsOf(parts, parts[i].line) == parts[i].quantity
    decreases |parts|
  {
    var n := |parts| - 1;
    if i == n {
      NoParts(parts[..n], parts[n].line);
    } else {
      OnePart(parts[..n], i);
    }
  }

  predicate Plain(op: Op) {
    op.Ship? || op.Receive? ==> NamesOnce(op.parts)
  }

  lemma {:induction false} PlainFits(b: Books, op: Op)
    requires Kept(b) && Bounded(b) && Plain(op)
    ensures Fits(b, op)
  {
    hide PartsFault, ShippedOf, ReceivedOf, ReturnedOf, PartsOf;
    if ReplyTo(b, op).Ok? && (op.Ship? || op.Receive?) {
      var po := b.pos[FindPo(b.pos, op.viewer, op.po).value];
      assert po in b.pos && PoInBounds(b, po);
      forall l: Line | l in po.lines
        ensures (if op.Ship? then Shipped(b, po.id) else Arrived(b))(l.id) + PartsOf(op.parts, l.id) <= l.quantity
      {
        assert InBounds(b, po.id, l);
        if op.Ship? {
          NamedOnceFits(op.parts, po.lines, Shipped(b, po.id), ShipsTooMuch, l);
        } else {
          NamedOnceFits(op.parts, po.lines, Arrived(b), ReceivesTooMuch, l);
        }
      }
    }
  }

  /** Over every run of writes whose requests name each line at most once: nothing is shipped or received beyond what was
      ordered or returned beyond what was received; an acknowledged order has a line still to come, a received one none,
      and nothing was ever shipped against a cancelled one. */
  lemma {:induction false} EveryRunKeeps(b: Books, ops: seq<Op>)
    requires Kept(b) && Bounded(b) && forall op :: op in ops ==> Plain(op)
    ensures Kept(Run(b, ops)) && Bounded(Run(b, ops))
    decreases ops
  {
    hide Kept, Bounded, Step, Fits, Plain;
    if ops != [] {
      PlainFits(b, ops[0]);
      StepKeeps(b, ops[0]);
      EveryRunKeeps(Step(b, ops[0]), ops[1..]);
    }
  }

  const EMPTY := Books([], [], [], [], 0)

  lemma {:induction false} EmptyIsKept()
    ensures Kept(EMPTY) && Bounded(EMPTY)
  {
  }

  // ---- what a write leaves alone ----

  predicate Moves(from: PoState, to: PoState) {
    || from == to || (from == Draft && to == Issued) || (from == Issued && to == Acknowledged)
    || (from == Acknowledged && to == Received) || (from in {Draft, Issued, Acknowledged} && to == Cancelled)
  }

  /** No write drops an order, reorders them or changes what was ordered, and states only move forward. */
  lemma {:induction false} OrdersOnlyMoveForward(b: Books, op: Op)
    ensures var b' := Step(b, op); |b.pos| <= |b'.pos| && forall i :: 0 <= i < |b.pos| ==>
      && Moves(b.pos[i].state, b'.pos[i].state)
      && b'.pos[i] == b.pos[i].(state := b'.pos[i].state)
  {
    hide PartsFault, AllReceived, LinesOf, WantsFault, FindRma, FindLine, ReturnedOf, ReceivedOf;
  }

  /** What was shipped, what was received, and who is owed a return only ever grow by what is asked. */
  lemma {:induction false} NothingIsUnrecorded(b: Books, op: Op)
    ensures b.shipments <= Step(b, op).shipments && b.receipts <= Step(b, op).receipts && |b.rmas| <= |Step(b, op).rmas|
  {
    hide PartsFault, AllReceived, LinesOf, WantsFault, FindRma, FindLine, ReturnedOf, ReceivedOf, FindPo;
  }

  // ---- totals ----

  function ExactTotal(lines: seq<Line>): nat {
    if lines == [] then 0
    else ExactTotal(lines[..|lines| - 1]) + lines[|lines| - 1].quantity * lines[|lines| - 1].price
  }

  lemma {:induction false} AmountRounds(quantity: nat, price: nat)
    ensures -500 < 1000 * Amount(quantity, price) - quantity * price <= 500
  {
  }

  /** A total in minor units is within half a unit a line of the exact sum. */
  lemma {:induction false} TotalIsWithinHalfAUnitALine(lines: seq<Line>)
    ensures var off := 1000 * OrderTotal(lines) - ExactTotal(lines); -500 * |lines| <= off <= 500 * |lines|
    decreases |lines|
  {
    if lines != [] {
      var last := lines[|lines| - 1];
      AmountRounds(last.quantity, last.price);
      TotalIsWithinHalfAUnitALine(lines[..|lines| - 1]);
    }
  }
}
