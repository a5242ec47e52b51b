/** The handlers that write the order books, row by row. */
module OrderBooks {
  import opened Common
  import opened Orders

  class OrderBook {
    var pos: seq<Po>
    var shipments: seq<Shipment>
    var receipts: seq<Receipt>
    var rmas: seq<Rma>
    var minted: nat

    function Books(): Books
      reads this
    {
      Orders.Books.Books(pos, shipments, receipts, rmas, minted)
    }

    constructor ()
      ensures Books() == Orders.Books.Books([], [], [], [], 0)
    {
      pos, shipments, receipts, rmas, minted := [], [], [], [], 0;
    }

    method CreateOrder(known: bool, vendor: Id, wants: seq<Want>, catalogue: Catalogue) returns (reply: Reply)
      modifies this
      ensures var op := Op.CreateOrder(known, vendor, wants, catalogue);
        reply == ReplyTo(old(Books()), op) && Books() == Step(old(Books()), op)
    {
      if !known {
        return Refused(UnknownVendor);
      }
      if wants == [] {
        return Refused(NoLines);
      }
      var fault, lines, total := PriceLines(vendor, wants, catalogue, minted);
      if fault.Some? {
        return Refused(fault.value);
      }
      pos := pos + [Po(minted + |wants|, vendor, Draft, total, lines)];
      minted := minted + |wants| + 1;
      return Ok;
    }

    /** The order's lines, each at its item's accepted price, and their total. */
    static method PriceLines(vendor: Id, wants: seq<Want>, catalogue: Catalogue, first: nat)
        returns (fault: Option<Why>, lines: seq<Line>, total: nat)
      ensures fault == WantsFault(wants, vendor, catalogue)
      ensures fault.None? ==> lines == LinesOf(wants, catalogue, first) && total == OrderTotal(lines)
    {
      lines, total := [], 0;
      for i := 0 to |wants|
        invariant WantsFault(wants[..i], vendor, catalogue).None?
        invariant lines == LinesOf(wants, catalogue, first)[..i] && total == OrderTotal(lines)
      {
        var w := wants[i];
        fault := WantFault(w, vendor, catalogue);
        if fault.Some? {
          FirstFaultStands(wants, vendor, catalogue, i);
          return;
        }
        assert wants[..i + 1][..i] == wants[..i];
        var line := Line(first + i, w.quantity, PriceOf(catalogue, w.item));
        assert (lines + [line])[..i] == lines;
        lines, total := lines + [line], total + Amount(line.quantity, line.price);
      }
      assert wants[..|wants|] == wants;
      fault := None;
    }

    static lemma {:induction false} FirstFaultStands(wants: seq<Want>, vendor: Id, catalogue: Catalogue, i: nat)
      requires i < |wants| && WantsFault(wants[..i], vendor, catalogue).None?
      requires WantFault(wants[i], vendor, catalogue).Some?
      ensures WantsFault(wants, vendor, catalogue) == WantFault(wants[i], vendor, catalogue)
    {
      var n := |wants| - 1;
      if i < n {
        assert wants[..n][..i] == wants[..i];
        FirstFaultStands(wants[..n], vendor, catalogue, i);
      }
    }

    method Issue(viewer: Viewer, po: Id) returns (reply: Reply)
      modifies this
      ensures var op := Op.Issue(viewer, po); reply == ReplyTo(old(Books()), op) && Books() == Step(old(Books()), op)
    {
      var at := FindPo(pos, viewer, po);
      if at.None? {
        return Refused(UnknownPo);
      }
      if pos[at.value].state != Draft {
        return Refused(NotDraft);
      }
      pos := pos[at.value := pos[at.value].(state := Issued)];
      return Ok;
    }

    method Cancel(viewer: Viewer, po: Id) returns (reply: Reply)
      modifies this
      ensures var op := Op.Cancel(viewer, po); reply == ReplyTo(old(Books()), op) && Books() == Step(old(Books()), op)
    {
      var at := FindPo(pos, viewer, po);
      if at.None? {
        return Refused(UnknownPo);
      }
      if pos[at.value].state !in {Draft, Issued, Acknowledged} {
        return Refused(NotCancellable);
      }
      if exists s :: s in shipments && s.po == pos[at.value].id {
        return Refused(AlreadyShipped);
      }
      pos := pos[at.value := pos[at.value].(state := Cancelled)];
      return Ok;
    }

    method Acknowledge(viewer: Viewer, po: Id, promised: int, today: int) returns (reply: Reply)
      modifies this
      ensures var op := Op.Acknowledge(viewer, po, promised, today);
        reply == ReplyTo(old(Books()), op) && Books() == Step(old(Books()), op)
    {
      var at := FindPo(pos, viewer, po);
      if at.None? {
        return Refused(UnknownPo);
      }
      if pos[at.value].state != Issued {
        return Refused(NotIssued);
      }
      if promised < today {
        return Refused(ShipDatePassed);
      }
      pos := pos[at.value := pos[at.value].(state := Acknowledged)];
      return Ok;
    }

    /** Each part checked, in order, against what was taken before the request. */
    static method CheckParts(parts: seq<Part>, lines: seq<Line>, taken: Id -> nat, tooMuch: Why) returns (fault: Option<Why>)
      ensures fault == PartsFault(parts, lines, taken, tooMuch)
    {
      for i := 0 to |parts|
        invariant PartsFault(parts[..i], lines, taken, tooMuch).None?
      {
        var p := parts[i];
        assert parts[..i + 1][..i] == parts[..i];
        var line := FindLine(lines, p.line);
        fault := match line
          case None => Some(UnknownLine)
          case Some(l) =>
            if p.quantity == 0 then Some(NotPositive) else if taken(l.id) + p.quantity > l.quantity then Some(tooMuch) else None;
        if fault.Some? {
          FirstPartFaultStands(parts, lines, taken, tooMuch, i);
          return;
        }
      }
      assert parts[..|parts|] == parts;
      fault := None;
    }

    static lemma {:induction false} FirstPartFaultStands(parts: seq<Part>, lines: seq<Line>, taken: Id -> nat, tooMuch: Why, i: nat)
      requires i < |parts| && PartsFault(parts[..i + 1], lines, taken, tooMuch).Some?
      ensures PartsFault(parts, lines, taken, tooMuch) == PartsFault(parts[..i + 1], lines, taken, tooMuch)
      decreases |parts|
    {
      var n := |parts| - 1;
      if i == n {
        assert parts[..i + 1] == parts;
      } else {
        assert parts[..n][..i + 1] == parts[..i + 1];
        FirstPartFaultStands(parts[..n], lines, taken, tooMuch, i);
      }
    }

    method Ship(viewer: Viewer, po: Id, carrier: bool, parts: seq<Part>) returns (reply: Reply)
      modifies this
      ensures var op := Op.Ship(viewer, po, carrier, parts);
        reply == ReplyTo(old(Books()), op) && Books() == Step(old(Books()), op)
    {
      var at := FindPo(pos, viewer, po);
      if at.None? {
        return Refused(UnknownPo);
      }
      var order := pos[at.value];
      if order.state != Acknowledged {
        return Refused(NotAcknowledged);
      }
      if !carrier {
        return Refused(EmptyCarrier);
      }
      var fault := CheckParts(parts, order.lines, Shipped(Books(), order.id), ShipsTooMuch);
      if fault.Some? {
        return Refused(fault.value);
      }
      shipments, minted := shipments + [Shipment(order.id, parts)], minted + 1;
      return Ok;
    }

    method Receive(viewer: Viewer, po: Id, parts: seq<Part>) returns (reply: Reply)
      modifies this
      ensures var op := Op.Receive(viewer, po, parts);
        reply == ReplyTo(old(Books()), op) && Books() == Step(old(Books()), op)
    {
      var at := FindPo(pos, viewer, po);
      if at.None? {
        return Refused(UnknownPo);
      }
      var order := pos[at.value];
      if order.state != Acknowledged {
        return Refused(NotAcknowledged);
      }
      var fault := CheckParts(parts, order.lines, Arrived(Books()), ReceivesTooMuch);
      if fault.Some? {
        return Refused(fault.value);
      }
      for i := 0 to |parts|
        invariant pos == old(pos) && shipments == old(shipments) && rmas == old(rmas) && minted == old(minted) + i
        invariant receipts == old(receipts) + Receipts(order.id, parts)[..i]
      {
        receipts, minted := receipts + [Receipt(order.id, parts[i].line, parts[i].quantity)], minted + 1;
      }
      assert Receipts(order.id, parts)[..|parts|] == Receipts(order.id, parts);
      if AllReceived(receipts, order.lines) {
        pos := pos[at.value := order.(state := Received)];
      }
      return Ok;
    }

    method RequestReturn(viewer: Viewer, po: Id, reason: bool, part: Part) returns (reply: Reply)
      modifies this
      ensures var op := Op.RequestReturn(viewer, po, reason, part);
        reply == ReplyTo(old(Books()), op) && Books() == Step(old(Books()), op)
    {
      var at := FindPo(pos, viewer, po);
      if at.None? {
        return Refused(UnknownPo);
      }
      var order := pos[at.value];
      var line := FindLine(order.lines, part.line);
      if line.None? {
        return Refused(UnknownLine);
      }
      if !reason {
        return Refused(EmptyReason);
      }
      if part.quantity == 0 {
        return Refused(NotPositive);
      }
      if ReturnedOf(rmas, part.line) + part.quantity > ReceivedOf(receipts, part.line) {
        return Refused(ReturnsTooMuch);
      }
      rmas, minted := [Rma(minted, order.id, part.line, order.vendor, part.quantity, Requested)] + rmas, minted + 1;
      return Ok;
    }

    method Answer(viewer: Viewer, rma: Id, authorized: bool, complete: bool) returns (reply: Reply)
      modifies this
      ensures var op := Op.Answer(viewer, rma, authorized, complete);
        reply == ReplyTo(old(Books()), op) && Books() == Step(old(Books()), op)
    {
      var at := FindRma(rmas, rma, viewer);
      if at.None? {
        return Refused(UnknownRma);
      }
      if rmas[at.value].state != Requested {
        return Refused(AlreadyAnswered);
      }
      if !complete {
        return Refused(AnswerIncomplete);
      }
      rmas := rmas[at.value := rmas[at.value].(state := if authorized then Authorized else Denied)];
      return Ok;
    }
  }
}
