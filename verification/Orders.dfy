/** Purchase orders: what the books hold after any run of writes, and when a write keeps them in bounds. */
module Orders {
  import opened Common

  datatype PoState = Draft | Issued | Acknowledged | Received | Cancelled

  /** Quantities are in thousandths, prices in minor units. */
  datatype Line = Line(id: Id, quantity: nat, price: nat)

  datatype Po = Po(id: Id, vendor: Id, state: PoState, total: nat, lines: seq<Line>)

  datatype Part = Part(line: Id, quantity: nat)

  datatype Shipment = Shipment(po: Id, parts: seq<Part>)

  datatype Receipt = Receipt(po: Id, line: Id, quantity: nat)

  datatype RmaState = Requested | Authorized | Denied

  datatype Rma = Rma(id: Id, po: Id, line: Id, vendor: Id, quantity: nat, state: RmaState)

  /** `minted` counts the ids given out. */
  datatype Books = Books(pos: seq<Po>, shipments: seq<Shipment>, receipts: seq<Receipt>, rmas: seq<Rma>, minted: nat)

  /** Who asks: the office, or a vendor. */
  type Viewer = Option<Id>

  datatype Want = Want(item: Id, quantity: nat)

  /** An item on the catalogue: whose it is, and its accepted price today if it has one. */
  datatype Item = Item(vendor: Id, price: Option<nat>)

  type Catalogue = map<Id, Item>

  datatype Why =
    | UnknownPo | UnknownVendor | NoLines | ItemNotVendors | NoAcceptedPrice | NotPositive | NotDraft | NotCancellable
    | AlreadyShipped | NotIssued | ShipDatePassed | NotAcknowledged | EmptyCarrier | UnknownLine | ShipsTooMuch
    | ReceivesTooMuch | EmptyReason | ReturnsTooMuch | UnknownRma | AlreadyAnswered | AnswerIncomplete

  datatype Reply = Ok | Refused(why: Why)

  // ---- sums ----

  function Amount(quantity: nat, price: nat): nat {
    (quantity * price + 500) / 1000
  }

  function OrderTotal(lines: seq<Line>): nat {
    if lines == [] then 0
    else OrderTotal(lines[..|lines| - 1]) + Amount(lines[|lines| - 1].quantity, lines[|lines| - 1].price)
  }

  function PartsOf(parts: seq<Part>, line: Id): nat {
    if parts == [] then 0
    else
      var last := parts[|parts| - 1];
      PartsOf(parts[..|parts| - 1], line) + if last.line == line then last.quantity else 0
  }

  function ShippedOf(shipments: seq<Shipment>, po: Id, line: Id): nat {
    if shipments == [] then 0
    else
      var last := shipments[|shipments| - 1];
      ShippedOf(shipments[..|shipments| - 1], po, line) + if last.po == po then PartsOf(last.parts, line) else 0
  }

  function ReceivedOf(receipts: seq<Receipt>, line: Id): nat {
    if receipts == [] then 0
    else
      var last := receipts[|receipts| - 1];
      ReceivedOf(receipts[..|receipts| - 1], line) + if last.line == line then last.quantity else 0
  }

  function ReturnedOf(rmas: seq<Rma>, line: Id): nat {
    if rmas == [] then 0
    else (if rmas[0].line == line && rmas[0].state != Denied then rmas[0].quantity else 0) + ReturnedOf(rmas[1..], line)
  }

  // ---- looking up ----

  predicate Sees(viewer: Viewer, po: Po) {
    viewer.None? || (viewer == Some(po.vendor) && po.state != Draft)
  }

  /** The order asked for, if the viewer sees it. */
  function FindPo(pos: seq<Po>, viewer: Viewer, id: Id): (r: Option<nat>)
    ensures r.Some? ==> r.value < |pos| && pos[r.value].id == id && Sees(viewer, pos[r.value])
    ensures r.None? ==> forall po :: po in pos ==> !(po.id == id && Sees(viewer, po))
  {
    if pos == [] then None
    else
      var n := |pos| - 1;
      var before := FindPo(pos[..n], viewer, id);
      if before.Some? then before else if pos[n].id == id && Sees(viewer, pos[n]) then Some(n) else None
  }

  function FindLine(lines: seq<Line>, id: Id): (r: Option<Line>)
    ensures r.Some? ==> r.value in lines && r.value.id == id
    ensures r.None? ==> forall l: Line :: l in lines ==> l.id != id
  {
    if lines == [] then None else if lines[0].id == id then Some(lines[0]) else FindLine(lines[1..], id)
  }

  // ---- the writes ----

  datatype Op =
    | CreateOrder(known: bool, vendor: Id, wants: seq<Want>, catalogue: Catalogue)
    | Issue(viewer: Viewer, po: Id)
    | Cancel(viewer: Viewer, po: Id)
    | Acknowledge(viewer: Viewer, po: Id, promised: int, today: int)
    | Ship(viewer: Viewer, po: Id, carrier: bool, parts: seq<Part>)
    | Receive(viewer: Viewer, po: Id, parts: seq<Part>)
    | RequestReturn(viewer: Viewer, po: Id, reason: bool, part: Part)
    | Answer(viewer: Viewer, rma: Id, authorized: bool, complete: bool)

  function WantFault(w: Want, vendor: Id, catalogue: Catalogue): Option<Why> {
    if !(w.item in catalogue && catalogue[w.item].vendor == vendor) then Some(ItemNotVendors)
    else if catalogue[w.item].price.None? then Some(NoAcceptedPrice)
    else if w.quantity == 0 then Some(NotPositive)
    else None
  }

  function WantsFault(wants: seq<Want>, vendor: Id, catalogue: Catalogue): (r: Option<Why>)
    ensures r.None? <==> forall w :: w in wants ==> WantFault(w, vendor, catalogue).None?
  {
    if wants == [] then None
    else
      var n := |wants| - 1;
      var before := WantsFault(wants[..n], vendor, catalogue);
      assert wants == wants[..n] + [wants[n]];
      if before.Some? then before else WantFault(wants[n], vendor, catalogue)
  }

  /** The item's accepted price today. */
  function PriceOf(catalogue: Catalogue, item: Id): nat {
    if item in catalogue && catalogue[item].price.Some? then catalogue[item].price.value else 0
  }

  /** The new order's lines, in order, each with its item's accepted price. */
  function LinesOf(wants: seq<Want>, catalogue: Catalogue, minted: nat): (ls: seq<Line>)
    ensures |ls| == |wants|
    ensures forall i :: 0 <= i < |ls| ==> ls[i] == Line(minted + i, wants[i].quantity, PriceOf(catalogue, wants[i].item))
  {
    seq(|wants|, i requires 0 <= i < |wants| => Line(minted + i, wants[i].quantity, PriceOf(catalogue, wants[i].item)))
  }

  /** The first part that cannot be taken, `taken` of each line gone before. */
  function PartsFault(parts: seq<Part>, lines: seq<Line>, taken: Id -> nat, tooMuch: Why): Option<Why>
  {
    if parts == [] then None
    else
      var p := parts[|parts| - 1];
      var before := PartsFault(parts[..|parts| - 1], lines, taken, tooMuch);
      if before.Some? then before
      else match FindLine(lines, p.line)
        case None => Some(UnknownLine)
        case Some(l) =>
          if p.quantity == 0 then Some(NotPositive) else if taken(l.id) + p.quantity > l.quantity then Some(tooMuch) else None
  }

  function Shipped(b: Books, po: Id): Id -> nat {
    (line: Id) => ShippedOf(b.shipments, po, line)
  }

  function Arrived(b: Books): Id -> nat {
    (line: Id) => ReceivedOf(b.receipts, line)
  }

  function Receipts(po: Id, parts: seq<Part>): (rs: seq<Receipt>)
    ensures |rs| == |parts|
  {
    seq(|parts|, i requires 0 <= i < |parts| => Receipt(po, parts[i].line, parts[i].quantity))
  }

  predicate AllReceived(receipts: seq<Receipt>, lines: seq<Line>) {
    forall l: Line :: l in lines ==> ReceivedOf(receipts, l.id) >= l.quantity
  }

  function WithState(b: Books, at: nat, state: PoState): Books
    requires at < |b.pos|
  {
    b.(pos := b.pos[at := b.pos[at].(state := state)])
  }

  function FindRma(rmas: seq<Rma>, id: Id, vendor: Viewer): (r: Option<nat>)
    ensures r.Some? ==> r.value < |rmas| && rmas[r.value].id == id && Some(rmas[r.value].vendor) == vendor
    ensures r.None? ==> forall x :: x in rmas ==> !(x.id == id && Some(x.vendor) == vendor)
  {
    if rmas == [] then None
    else
      var n := |rmas| - 1;
      var before := FindRma(rmas[..n], id, vendor);
      if before.Some? then before else if rmas[n].id == id && Some(rmas[n].vendor) == vendor then Some(n) else None
  }

  /** Whether a write goes through, and if not why. */
  function ReplyTo(b: Books, op: Op): Reply {
    match op
    case CreateOrder(known, vendor, wants, catalogue) =>
      if !known then Refused(UnknownVendor)
      else if wants == [] then Refused(NoLines)
      else if WantsFault(wants, vendor, catalogue).Some? then Refused(WantsFault(wants, vendor, catalogue).value)
      else Ok
    case Answer(viewer, rma, authorized, complete) =>
      (match FindRma(b.rmas, rma, viewer)
       case None => Refused(UnknownRma)
       case Some(at) =>
         if b.rmas[at].state != Requested then Refused(AlreadyAnswered) else if !complete then Refused(AnswerIncomplete) else Ok)
    case _ =>
      match FindPo(b.pos, op.viewer, op.po)
      case None => Refused(UnknownPo)
      case Some(at) => PoReply(b, op, b.pos[at])
  }

  predicate OnPo(op: Op) {
    !op.CreateOrder? && !op.Answer?
  }

  function PoReply(b: Books, op: Op, po: Po): Reply
    requires OnPo(op)
  {
    match op
    case Issue(_, _) => if po.state != Draft then Refused(NotDraft) else Ok
    case Cancel(_, _) =>
      if po.state !in {Draft, Issued, Acknowledged} then Refused(NotCancellable)
      else if exists s :: s in b.shipments && s.po == po.id then Refused(AlreadyShipped)
      else Ok
    case Acknowledge(_, _, promised, today) =>
      if po.state != Issued then Refused(NotIssued) else if promised < today then Refused(ShipDatePassed) else Ok
    case Ship(_, _, carrier, parts) =>
      if po.state != Acknowledged then Refused(NotAcknowledged)
      else if !carrier then Refused(EmptyCarrier)
      else
        var fault := PartsFault(parts, po.lines, Shipped(b, po.id), ShipsTooMuch);
        if fault.Some? then Refused(fault.value) else Ok
    case Receive(_, _, parts) =>
      if po.state != Acknowledged then Refused(NotAcknowledged)
      else
        var fault := PartsFault(parts, po.lines, Arrived(b), ReceivesTooMuch);
        if fault.Some? then Refused(fault.value) else Ok
    case RequestReturn(_, _, reason, part) =>
      match FindLine(po.lines, part.line)
      case None => Refused(UnknownLine)
      case Some(l) =>
        if !reason then Refused(EmptyReason)
        else if part.quantity == 0 then Refused(NotPositive)
        else if ReturnedOf(b.rmas, l.id) + part.quantity > ReceivedOf(b.receipts, l.id) then Refused(ReturnsTooMuch)
        else Ok
  }

  /** The books after a write: as they were if it is refused. */
  function Step(b: Books, op: Op): Books {
    if ReplyTo(b, op).Refused? then b
    else match op
      case CreateOrder(_, vendor, wants, catalogue) =>
        var lines := LinesOf(wants, catalogue, b.minted);
        b.(pos := b.pos + [Po(b.minted + |wants|, vendor, Draft, OrderTotal(lines), lines)], minted := b.minted + |wants| + 1)
      case Answer(viewer, rma, authorized, _) =>
        var at := FindRma(b.rmas, rma, viewer).value;
        b.(rmas := b.rmas[at := b.rmas[at].(state := if authorized then Authorized else Denied)])
      case _ => PoStep(b, op, FindPo(b.pos, op.viewer, op.po).value)
  }

  function PoStep(b: Books, op: Op, at: nat): Books
    requires OnPo(op) && at < |b.pos|
  {
    var po := b.pos[at];
    match op
    case Issue(_, _) => WithState(b, at, Issued)
    case Cancel(_, _) => WithState(b, at, Cancelled)
    case Acknowledge(_, _, _, _) => WithState(b, at, Acknowledged)
    case Ship(_, _, _, parts) => b.(shipments := b.shipments + [Shipment(po.id, parts)], minted := b.minted + 1)
    case Receive(_, _, parts) =>
      var b' := b.(receipts := b.receipts + Receipts(po.id, parts), minted := b.minted + |parts|);
      if AllReceived(b'.receipts, po.lines) then WithState(b', at, Received) else b'
    case RequestReturn(_, _, _, part) =>
      b.(rmas := [Rma(b.minted, po.id, part.line, po.vendor, part.quantity, Requested)] + b.rmas, minted := b.minted + 1)
  }

  function Run(b: Books, ops: seq<Op>): Books
    decreases ops
  {
    if ops == [] then b else Run(Step(b, ops[0]), ops[1..])
  }

  // ---- what holds of the books ----

  predicate InBounds(b: Books, po: Id, l: Line) {
    && ShippedOf(b.shipments, po, l.id) <= l.quantity
    && ReceivedOf(b.receipts, l.id) <= l.quantity
    && ReturnedOf(b.rmas, l.id) <= ReceivedOf(b.receipts, l.id)
  }

  predicate NeverShipped(shipments: seq<Shipment>, po: Id) {
    forall s: Shipment :: s in shipments ==> s.po != po
  }

  /** Every line of every order in bounds; and what each state says. */
  predicate StateOk(b: Books, po: Po) {
    match po.state
    case Draft => NeverShipped(b.shipments, po.id) && forall l: Line :: l in po.lines ==> ReceivedOf(b.receipts, l.id) == 0
    case Issued => NeverShipped(b.shipments, po.id) && forall l: Line :: l in po.lines ==> ReceivedOf(b.receipts, l.id) == 0
    case Acknowledged => !AllReceived(b.receipts, po.lines)
    case Received => AllReceived(b.receipts, po.lines)
    case Cancelled => NeverShipped(b.shipments, po.id)
  }

  predicate PoOk(b: Books, po: Po) {
    && po.lines != [] && po.total == OrderTotal(po.lines)
    && (forall l: Line :: l in po.lines ==> l.quantity > 0)
    && StateOk(b, po)
  }

  predicate PoInBounds(b: Books, po: Po) {
    forall l: Line :: l in po.lines ==> InBounds(b, po.id, l)
  }

  predicate LineIdsOk(lines: seq<Line>) {
    forall x, y :: 0 <= x < y < |lines| ==> lines[x].id != lines[y].id
  }

  predicate Apart(p: Po, q: Po) {
    p.id != q.id && forall l: Line, m: Line :: l in p.lines && m in q.lines ==> l.id != m.id
  }

  predicate PosIdsOk(pos: seq<Po>, minted: nat) {
    && (forall i, j :: 0 <= i < j < |pos| ==> Apart(pos[i], pos[j]))
    && forall po: Po :: po in pos ==>
         LineIdsOk(po.lines) && po.id < minted && forall l: Line :: l in po.lines ==> l.id < minted
  }

  /** Ids are given out once, and every row names one given out. */
  predicate IdsOk(b: Books) {
    && PosIdsOk(b.pos, b.minted)
    && (forall s: Shipment :: s in b.shipments ==> s.po < b.minted)
    && (forall r: Receipt :: r in b.receipts ==> r.line < b.minted)
    && (forall r: Rma :: r in b.rmas ==> r.line < b.minted)
  }

  predicate Kept(b: Books) {
    IdsOk(b) && forall po: Po :: po in b.pos ==> PoOk(b, po)
  }

  predicate Bounded(b: Books) {
    forall po: Po :: po in b.pos ==> PoInBounds(b, po)
  }
}
