/** When a cancelled order holds goods, and an order brought about step by step. */
module OrderGoods {
  import opened Common
  import opened Orders
  import opened OrderRuns

  predicate NothingIn(receipts: seq<Receipt>, lines: seq<Line>) {
    forall l: Line :: l in lines ==> ReceivedOf(receipts, l.id) == 0
  }

  /** No cancelled order has goods on the books. */
  predicate CancelledEmpty(b: Books) {
    forall po: Po :: po in b.pos && po.state == Cancelled ==> NothingIn(b.receipts, po.lines)
  }

  /** A cancel that goes through is of an order nothing has come in for. */
  predicate CancelsEmpty(b: Books, op: Op) {
    op.Cancel? && ReplyTo(b, op).Ok? ==> NothingIn(b.receipts, b.pos[FindPo(b.pos, op.viewer, op.po).value].lines)
  }

  lemma {:induction false} MarkGoods(b: Books, op: Op, at: nat)
    requires Kept(b) && CancelledEmpty(b) && (op.Issue? || op.Cancel? || op.Acknowledge?) && at < |b.pos|
    requires PoReply(b, op, b.pos[at]).Ok?
    ensures CancelledEmpty(PoStep(b, op, at)) <==> (op.Cancel? ==> NothingIn(b.receipts, b.pos[at].lines))
  {
    hide NothingIn, PosIdsOk, PoOk;
    var b', po := PoStep(b, op, at), b.pos[at];
    OnlyOneLike(b, at);
    assert b'.pos[at] in b'.pos && b'.pos[at].lines == po.lines;
    assert forall p: Po :: p in b'.pos ==> p == b'.pos[at] || (p in b.pos && p != po);
  }

  lemma {:induction false} ReceiveGoods(b: Books, op: Op, at: nat)
    requires Kept(b) && CancelledEmpty(b) && op.Receive? && at < |b.pos| && PoReply(b, op, b.pos[at]).Ok?
    ensures CancelledEmpty(PoStep(b, op, at))
  {
    hide PosIdsOk, PoOk, PartsFault, ReceivedOf, PartsOf, FindLine;
    var b', po := PoStep(b, op, at), b.pos[at];
    NoFault(op.parts, po.lines, Arrived(b), ReceivesTooMuch);
    OnlyOneLike(b, at);
    forall p: Po, l: Line | p in b'.pos && p.state == Cancelled && l in p.lines ensures ReceivedOf(b'.receipts, l.id) == 0 {
      assert p in b.pos && p != po;
      ReceivedAfter(b, at, op.parts, p, l);
    }
  }

  lemma {:induction false} CreateGoods(b: Books, op: Op)
    requires IdsOk(b) && CancelledEmpty(b) && op.CreateOrder? && ReplyTo(b, op).Ok?
    ensures CancelledEmpty(Step(b, op))
  {
    hide NothingIn, PosIdsOk, LinesOf, WantsFault;
    var b' := Step(b, op);
    assert forall p: Po :: p in b'.pos ==> p in b.pos || p.state == Draft;
  }

  /** A write leaves a cancelled order with goods exactly when it cancels an order some goods have come in for. */
  lemma {:induction false} StepLeavesCancelledEmptyIff(b: Books, op: Op)
    requires Kept(b) && CancelledEmpty(b)
    ensures CancelledEmpty(Step(b, op)) <==> CancelsEmpty(b, op)
  {
    hide NothingIn, PosIdsOk, PoOk, PoReply, PoStep;
    if ReplyTo(b, op).Ok? {
      match op
      case CreateOrder(_, _, _, _) => CreateGoods(b, op);
      case Answer(_, _, _, _) =>
      case _ =>
        var at := FindPo(b.pos, op.viewer, op.po).value;
        match op
        case Receive(_, _, _) => ReceiveGoods(b, op, at);
        case Ship(_, _, _, _) => OtherGoods(b, op, at);
        case RequestReturn(_, _, _, _) => OtherGoods(b, op, at);
        case _ => MarkGoods(b, op, at);
    }
  }

  lemma {:induction false} OtherGoods(b: Books, op: Op, at: nat)
    requires CancelledEmpty(b) && (op.Ship? || op.RequestReturn?) && at < |b.pos|
    ensures CancelledEmpty(PoStep(b, op, at))
  {
    hide NothingIn;
  }

  // ---- when goods follow shipments ----

  predicate LineWithin(b: Books, po: Id, l: Line) {
    ReceivedOf(b.receipts, l.id) <= ShippedOf(b.shipments, po, l.id)
  }

  /** No line has had more come in than was shipped. */
  predicate WithinShipped(b: Books) {
    forall po: Po, l: Line :: po in b.pos && l in po.lines ==> LineWithin(b, po.id, l)
  }

  /** What a receipt takes in, added up by line, was shipped. */
  predicate ReceivesShipped(b: Books, op: Op) {
    op.Receive? && ReplyTo(b, op).Ok? ==>
      var po := b.pos[FindPo(b.pos, op.viewer, op.po).value];
      forall l: Line :: l in po.lines ==>
        ReceivedOf(b.receipts, l.id) + PartsOf(op.parts, l.id) <= ShippedOf(b.shipments, po.id, l.id)
  }

  predicate RunReceivesShipped(b: Books, ops: seq<Op>)
    decreases ops
  {
    ops == [] || (ReceivesShipped(b, ops[0]) && RunReceivesShipped(Step(b, ops[0]), ops[1..]))
  }

  lemma {:induction false} NeverShippedIsEmpty(b: Books, op: Op)
    requires WithinShipped(b)
    ensures CancelsEmpty(b, op)
  {
    if op.Cancel? && ReplyTo(b, op).Ok? {
      var po := b.pos[FindPo(b.pos, op.viewer, op.po).value];
      assert po in b.pos && NeverShipped(b.shipments, po.id);
      forall l: Line | l in po.lines ensures ReceivedOf(b.receipts, l.id) == 0 {
        assert LineWithin(b, po.id, l);
        NothingShipped(b.shipments, po.id, l.id);
      }
    }
  }

  lemma {:induction false} CreateWithin(b: Books, op: Op)
    requires Kept(b) && WithinShipped(b) && op.CreateOrder? && ReplyTo(b, op).Ok?
    ensures WithinShipped(Step(b, op))
  {
    hide PosIdsOk, OrderTotal, Step, ReplyTo, ShippedOf, ReceivedOf;
    NewOrder(b, op);
    var b', n := Step(b, op), |b.pos|;
    forall po: Po, l: Line | po in b'.pos && l in po.lines ensures LineWithin(b', po.id, l) {
      if po in b.pos {
        assert LineWithin(b, po.id, l);
      } else {
        assert po == b'.pos[n];
        assert ReceivedOf(b'.receipts, l.id) == 0;
      }
    }
  }

  lemma {:induction false} ReceiveWithin(b: Books, op: Op, at: nat)
    requires Kept(b) && WithinShipped(b) && op.Receive? && at < |b.pos| && PoReply(b, op, b.pos[at]).Ok?
    requires forall l: Line :: l in b.pos[at].lines ==>
      ReceivedOf(b.receipts, l.id) + PartsOf(op.parts, l.id) <= ShippedOf(b.shipments, b.pos[at].id, l.id)
    ensures WithinShipped(PoStep(b, op, at))
  {
    hide PosIdsOk, PoOk, PartsFault, ReceivedOf, ShippedOf, PartsOf, FindLine;
    var b', po := PoStep(b, op, at), b.pos[at];
    NoFault(op.parts, po.lines, Arrived(b), ReceivesTooMuch);
    OnlyOneLike(b, at);
    forall p: Po, l: Line | p in b'.pos && l in p.lines ensures LineWithin(b', p.id, l) {
      var q := if p in b.pos then p else po;
      assert q in b.pos && q.id == p.id && q.lines == p.lines;
      assert LineWithin(b, q.id, l);
      ReceivedAfter(b, at, op.parts, q, l);
    }
  }

  lemma {:induction false} ShipWithin(b: Books, op: Op, at: nat)
    requires WithinShipped(b) && op.Ship? && at < |b.pos|
    ensures WithinShipped(PoStep(b, op, at))
  {
    hide ReceivedOf, ShippedOf, PartsOf;
    var b' := PoStep(b, op, at);
    forall p: Po, l: Line | p in b'.pos && l in p.lines ensures LineWithin(b', p.id, l) {
      assert LineWithin(b, p.id, l);
      ShippedMore(b.shipments, Shipment(b.pos[at].id, op.parts), p.id, l.id);
    }
  }

  lemma {:induction false} MarkWithin(b: Books, op: Op, at: nat)
    requires WithinShipped(b) && (op.Issue? || op.Cancel? || op.Acknowledge? || op.RequestReturn?) && at < |b.pos|
    ensures WithinShipped(PoStep(b, op, at))
  {
    hide ReceivedOf, ShippedOf;
    var b' := PoStep(b, op, at);
    forall p: Po, l: Line | p in b'.pos && l in p.lines ensures LineWithin(b', p.id, l) {
      var q := if p in b.pos then p else b.pos[at];
      assert q in b.pos && q.id == p.id && q.lines == p.lines;
      assert LineWithin(b, q.id, l);
    }
  }

  lemma {:induction false} StepWithin(b: Books, op: Op)
    requires Kept(b) && WithinShipped(b) && ReceivesShipped(b, op)
    ensures WithinShipped(Step(b, op))
  {
    hide Kept, WithinShipped, PoReply, PoStep;
    if ReplyTo(b, op).Ok? {
      match op
      case CreateOrder(_, _, _, _) => CreateWithin(b, op);
      case Answer(_, _, _, _) => AnswerWithin(b, op);
      case _ =>
        var at := FindPo(b.pos, op.viewer, op.po).value;
        match op
        case Receive(_, _, _) => ReceiveWithin(b, op, at);
        case Ship(_, _, _, _) => ShipWithin(b, op, at);
        case _ => MarkWithin(b, op, at);
    }
  }

  lemma {:induction false} AnswerWithin(b: Books, op: Op)
    requires WithinShipped(b) && op.Answer?
    ensures WithinShipped(Step(b, op))
  {
    hide ReceivedOf, ShippedOf;
    var b' := Step(b, op);
    forall p: Po, l: Line | p in b'.pos && l in p.lines ensures LineWithin(b', p.id, l) {
      assert LineWithin(b, p.id, l);
    }
  }

  /** Over every run whose receipts take in only what was shipped, no cancelled order ever has goods. */
  lemma {:induction false} EveryRunLeavesCancelledEmpty(b: Books, ops: seq<Op>)
    requires Kept(b) && CancelledEmpty(b) && WithinShipped(b) && RunReceivesShipped(b, ops)
    ensures CancelledEmpty(Run(b, ops)) && WithinShipped(Run(b, ops))
    decreases ops
  {
    hide Kept, CancelledEmpty, WithinShipped, Step, CancelsEmpty, ReceivesShipped;
    if ops != [] {
      NeverShippedIsEmpty(b, ops[0]);
      StepLeavesCancelledEmptyIff(b, ops[0]);
      StepWithin(b, ops[0]);
      StepKeeps(b, ops[0]);
      EveryRunLeavesCancelledEmpty(Step(b, ops[0]), ops[1..]);
    }
  }

  /** From empty books, over every run that names each line at most once a request: every bound holds; and where receipts
      take in only what was shipped, no cancelled order has goods. */
  lemma {:induction false} EveryRunFromNothing(ops: seq<Op>)
    requires forall op :: op in ops ==> Plain(op)
    ensures Kept(Run(EMPTY, ops)) && Bounded(Run(EMPTY, ops))
    ensures RunReceivesShipped(EMPTY, ops) ==> CancelledEmpty(Run(EMPTY, ops)) && WithinShipped(Run(EMPTY, ops))
  {
    EmptyIsKept();
    EveryRunKeeps(EMPTY, ops);
    if RunReceivesShipped(EMPTY, ops) {
      EveryRunLeavesCancelledEmpty(EMPTY, ops);
    }
  }

  // ---- one order, from nothing ----

  const LINE := Line(0, 10000, 100)

  function OneOrder(state: PoState): Books {
    Books([Po(1, 7, state, 1000, [LINE])], [], [], [], 2)
  }

  const PLACED: seq<Op> := [CreateOrder(true, 7, [Want(5, 10000)], map[5 := Item(7, Some(100))]), Issue(None, 1), Acknowledge(None, 1, 9, 9)]

  lemma {:induction false} Placing()
    ensures Run(EMPTY, PLACED) == OneOrder(Acknowledged)
    ensures forall op :: op in PLACED ==> Plain(op)
  {
    var b1 := Step(EMPTY, PLACED[0]);
    Creating();
    assert FindPo(b1.pos[..0], None, 1).None?;
    var b2 := Step(b1, PLACED[1]);
    assert b2 == OneOrder(Issued);
    assert FindPo(b2.pos[..0], None, 1).None?;
    var b3 := Step(b2, PLACED[2]);
    assert b3 == OneOrder(Acknowledged);
    assert PLACED[1..][1..][1..] == [] && PLACED[1..][1..][0] == PLACED[2] && PLACED[1..][0] == PLACED[1];
    assert Run(b3, []) == b3;
    assert Run(b2, PLACED[1..][1..]) == Run(b3, PLACED[1..][1..][1..]);
    assert Run(b1, PLACED[1..]) == Run(b2, PLACED[1..][1..]);
  }

  lemma {:induction false} Creating()
    ensures Step(EMPTY, PLACED[0]) == OneOrder(Draft)
  {
    var wants, catalogue := [Want(5, 10000)], map[5 := Item(7, Some(100))];
    assert WantsFault(wants[..0], 7, catalogue).None? && WantsFault(wants, 7, catalogue).None?;
    assert LinesOf(wants, catalogue, 0) == [LINE];
    assert [LINE][..0] == [] && OrderTotal([LINE]) == 1000;
  }

  lemma {:induction false} OneOrderIsKept()
    ensures Kept(OneOrder(Acknowledged)) && Bounded(OneOrder(Acknowledged)) && OrderTotal([LINE]) == 1000
  {
    var b := OneOrder(Acknowledged);
    assert [LINE][..0] == [];
    assert b.pos[0].lines[0] in b.pos[0].lines && ReceivedOf([], 0) == 0 && !AllReceived([], [LINE]);
    assert PoOk(b, b.pos[0]);
  }

  lemma {:induction false} FoundHere(state: PoState)
    ensures FindPo(OneOrder(state).pos, None, 1) == Some(0)
  {
    var pos := OneOrder(state).pos;
    assert pos[..0] == [] && FindPo([], None, 1).None? && |pos| == 1;
  }

  /** The order takes any request whose parts each fit in its line. */
  lemma {:induction false} ReceiveTaken(op: Op)
    requires op.Receive? && op.viewer == None && op.po == 1
    requires forall p: Part :: p in op.parts ==> p.line == 0 && 0 < p.quantity <= 10000
    ensures ReplyTo(OneOrder(Acknowledged), op).Ok?
    ensures Step(OneOrder(Acknowledged), op) == PoStep(OneOrder(Acknowledged), op, 0)
  {
    hide PartsFault, PoStep;
    var b := OneOrder(Acknowledged);
    FoundHere(Acknowledged);
    NoFault(op.parts, b.pos[0].lines, Arrived(b), ReceivesTooMuch);
    assert forall p: Part :: p in op.parts ==> FindLine([LINE], p.line) == Some(LINE);
  }

  /** A run from nothing in which a request naming a line twice receives 12000 of 10000 ordered. */
  lemma {:induction false} NamingALineTwiceOverReceives() returns (op: Op)
    ensures op.Receive? && ReplyTo(Run(EMPTY, PLACED), op).Ok? && !Bounded(Step(Run(EMPTY, PLACED), op))
  {
    hide Run, Step, ReplyTo, Kept, Bounded;
    Placing();
    OneOrderIsKept();
    var b := OneOrder(Acknowledged);
    op := Receive(None, 1, [Part(0, 6000), Part(0, 6000)]);
    ReceiveTaken(op);
    FoundHere(Acknowledged);
    StepKeeps(b, op);
    Twice();
    assert LINE in b.pos[0].lines && Arrived(b)(LINE.id) + PartsOf(op.parts, LINE.id) > LINE.quantity;
  }

  lemma {:induction false} Twice()
    ensures PartsOf([Part(0, 6000), Part(0, 6000)], 0) == 12000
  {
    var parts := [Part(0, 6000), Part(0, 6000)];
    assert parts[..1] == [Part(0, 6000)] && parts[..1][..0] == [];
    assert PartsOf(parts[..1], 0) == 6000;
  }

  /** A run from nothing that ends with an order cancelled and 4000 of its goods in. */
  lemma {:induction false} ACancelledOrderMayHaveGoods() returns (receive: Op, cancel: Op)
    ensures receive.Receive? && cancel.Cancel? && ReplyTo(Step(Run(EMPTY, PLACED), receive), cancel).Ok?
    ensures !CancelledEmpty(Step(Step(Run(EMPTY, PLACED), receive), cancel))
  {
    hide Run, Step, ReplyTo, Kept, Bounded, CancelledEmpty, PoStep;
    Placing();
    OneOrderIsKept();
    var b := OneOrder(Acknowledged);
    receive, cancel := Receive(None, 1, [Part(0, 4000)]), Cancel(None, 1);
    ReceiveTaken(receive);
    StepKeeps(b, receive);
    FourIn(receive, cancel);
    StepLeavesCancelledEmptyIff(Step(b, receive), cancel);
  }

  /** The order still waits for 6000, and is cancelled with 4000 in. */
  lemma {:induction false} FourIn(receive: Op, cancel: Op)
    requires receive == Receive(None, 1, [Part(0, 4000)]) && cancel == Cancel(None, 1)
    ensures var b1 := PoStep(OneOrder(Acknowledged), receive, 0);
      ReplyTo(b1, cancel).Ok? && CancelledEmpty(b1) && !CancelsEmpty(b1, cancel)
  {
    hide ReceivedOf, PartsOf, FindPo;
    var b := OneOrder(Acknowledged);
    var b1 := PoStep(b, receive, 0);
    FoundHere(Acknowledged);
    ReceivedMore([], 1, receive.parts, 0);
    FourParts();
    assert [] + Receipts(1, receive.parts) == Receipts(1, receive.parts);
    assert b.pos[0].lines == [LINE] && LINE in [LINE];
    assert ReceivedOf(b1.receipts, LINE.id) == 4000;
    assert b1.pos == b.pos;
  }

  lemma {:induction false} FourParts()
    ensures PartsOf([Part(0, 4000)], 0) == 4000 && ReceivedOf([], 0) == 0
  {
    assert [Part(0, 4000)][..0] == [];
  }
}
