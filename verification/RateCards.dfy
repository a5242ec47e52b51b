/** A firm's rate cards: one price a service and day, over every run of changes. Days are numbers; a card holds from its
    first day to the day before its last. */
module RateCards {
  import opened Common

  /** `multiplier` is the emergency multiplier in basis points, and `emergency` the rate it comes to. */
  datatype Card = Card(id: Id, firm: Id, code: Id, rate: nat, currency: Id, from: int, until: Option<int>, multiplier: nat,
                       emergency: nat)

  datatype Why = BadMoney | UnknownService | UnknownFirm | Overlaps(since: int) | BadMultiplier

  datatype Reply = Ok(id: Id, closed: Option<Id>) | Refused(why: Why)

  /** A change asked for. A rate or a multiplier that does not parse is none. */
  datatype Change = Change(firm: Id, code: Id, rate: Option<nat>, currency: Id, from: int, until: Option<int>,
                           multiplier: Option<nat>)

  /** The firms and services there are. */
  datatype Known = Known(firms: set<Id>, services: set<Id>)

  predicate Covers(c: Card, day: int) {
    c.from <= day && (c.until.None? || c.until.value > day)
  }

  predicate Same(c: Card, firm: Id, code: Id) {
    c.firm == firm && c.code == code
  }

  predicate IsFor(c: Card, firm: Id, code: Id, day: int) {
    Same(c, firm, code) && Covers(c, day)
  }

  /** The first place of a card that passes. */
  function FirstCard(cards: seq<Card>, p: Card -> bool): (r: Option<nat>)
    ensures r.Some? ==> r.value < |cards| && p(cards[r.value]) && forall i :: 0 <= i < r.value ==> !p(cards[i])
    ensures r.None? ==> forall i :: 0 <= i < |cards| ==> !p(cards[i])
  {
    if cards == [] then None
    else
      var n := |cards| - 1;
      var before := FirstCard(cards[..n], p);
      if before.Some? then before else if p(cards[n]) then Some(n) else None
  }

  function Open(cards: seq<Card>, ch: Change): Option<nat> {
    FirstCard(cards, (c: Card) => IsFor(c, ch.firm, ch.code, ch.from))
  }

  function Later(cards: seq<Card>, ch: Change): Option<nat> {
    FirstCard(cards, (c: Card) => Same(c, ch.firm, ch.code) && c.from > ch.from)
  }

  /** The price on a day, if there is one. */
  function RateOn(cards: seq<Card>, firm: Id, code: Id, day: int): Option<nat> {
    var at := FirstCard(cards, (c: Card) => IsFor(c, firm, code, day));
    if at.Some? then Some(cards[at.value].rate) else None
  }

  /** The change's own interval. */
  predicate Within(ch: Change, day: int) {
    ch.from <= day && (ch.until.None? || ch.until.value > day)
  }

  /** The invariant: no two cards for one firm, service and day. */
  ghost predicate OneADay(cards: seq<Card>) {
    forall i, j, day :: 0 <= i < j < |cards| && Same(cards[j], cards[i].firm, cards[i].code) ==> !(Covers(cards[i], day) && Covers(cards[j], day))
  }

  datatype Book = Book(cards: seq<Card>, minted: nat)

  function ReplyTo(known: Known, b: Book, ch: Change): Reply {
    var open, later := Open(b.cards, ch), Later(b.cards, ch);
    if ch.rate.None? then Refused(BadMoney)
    else if ch.code !in known.services then Refused(UnknownService)
    else if ch.firm !in known.firms then Refused(UnknownFirm)
    else if later.Some? then Refused(Overlaps(b.cards[later.value].from))
    else if open.Some? && b.cards[open.value].from == ch.from then Refused(Overlaps(b.cards[open.value].from))
    else if ch.multiplier.None? then Refused(BadMultiplier)
    else Ok(b.minted, if open.Some? then Some(b.cards[open.value].id) else None)
  }

  /** A unit at the rate and the multiplier, to the nearest minor unit: one division, so it is rounded once. */
  function Rated(quantity: nat, rate: nat, multiplier: nat): nat {
    (quantity * rate * multiplier + 5_000_000) / 10_000_000
  }

  function NewCard(id: Id, ch: Change): Card
    requires ch.rate.Some? && ch.multiplier.Some?
  {
    Card(id, ch.firm, ch.code, ch.rate.value, ch.currency, ch.from, ch.until, ch.multiplier.value,
         Rated(1000, ch.rate.value, ch.multiplier.value))
  }

  /** The card in force on the change's first day, ended there. */
  function Closed(cards: seq<Card>, ch: Change): (r: seq<Card>)
    ensures |r| == |cards|
  {
    var open := Open(cards, ch);
    if open.Some? then cards[open.value := cards[open.value].(until := Some(ch.from))] else cards
  }

  /** The card in force is closed before the multiplier is read. */
  function Step(known: Known, b: Book, ch: Change): Book {
    var reply := ReplyTo(known, b, ch);
    if reply.Ok? then
      Book(Closed(b.cards, ch) + [NewCard(b.minted, ch)], b.minted + 1)
    else if reply == Refused(BadMultiplier) then b.(cards := Closed(b.cards, ch), minted := b.minted + 1)
    else b
  }

  function Run(known: Known, b: Book, chs: seq<Change>): Book
    decreases chs
  {
    if chs == [] then b else Run(known, Step(known, b, chs[0]), chs[1..])
  }

  // ---- the invariant ----

  /** Once the card in force is closed, no card of the firm and service covers the change's first day or any later one. */
  lemma {:induction false} NothingAfter(cards: seq<Card>, ch: Change, i: nat, day: int)
    requires OneADay(cards) && Later(cards, ch).None? && i < |cards| && Same(cards[i], ch.firm, ch.code) && day >= ch.from
    ensures !Covers(Closed(cards, ch)[i], day)
  {
    var open := Open(cards, ch);
    assert !(Same(cards[i], ch.firm, ch.code) && cards[i].from > ch.from);
    assert forall j :: 0 <= j < |cards| && j != i && Same(cards[j], ch.firm, ch.code) ==>
        !(Covers(cards[i], ch.from) && Covers(cards[j], ch.from));
    if Covers(cards[i], day) {
      assert IsFor(cards[i], ch.firm, ch.code, ch.from);
    }
  }

  lemma {:induction false} ClosedCovers(cards: seq<Card>, ch: Change, i: nat, day: int)
    requires i < |cards|
    ensures Covers(Closed(cards, ch)[i], day) ==> Covers(cards[i], day)
    ensures day < ch.from || !Same(cards[i], ch.firm, ch.code) ==> (Covers(Closed(cards, ch)[i], day) <==> Covers(cards[i], day))
    ensures var c := Closed(cards, ch)[i]; Same(c, cards[i].firm, cards[i].code) && c.rate == cards[i].rate
  {
  }

  lemma {:induction false} ClosedIsOneADay(cards: seq<Card>, ch: Change)
    requires OneADay(cards)
    ensures OneADay(Closed(cards, ch))
  {
    var r := Closed(cards, ch);
    forall i, j, day | 0 <= i < j < |r| && Same(r[j], r[i].firm, r[i].code) ensures !(Covers(r[i], day) && Covers(r[j], day)) {
      ClosedCovers(cards, ch, i, day);
      ClosedCovers(cards, ch, j, day);
      assert !(Covers(cards[i], day) && Covers(cards[j], day));
    }
  }

  /** At most one card for a firm, service and day is kept by every change, accepted or refused. */
  lemma {:induction false} StepKeepsOneADay(known: Known, b: Book, ch: Change)
    requires OneADay(b.cards)
    ensures OneADay(Step(known, b, ch).cards)
  {
    hide Open, Later;
    ClosedIsOneADay(b.cards, ch);
    if ReplyTo(known, b, ch).Ok? {
      var r := Closed(b.cards, ch);
      var cards' := Step(known, b, ch).cards;
      forall i, j, day | 0 <= i < j < |cards'| && Same(cards'[j], cards'[i].firm, cards'[i].code)
        ensures !(Covers(cards'[i], day) && Covers(cards'[j], day))
      {
        if j < |r| {
          assert !(Covers(r[i], day) && Covers(r[j], day));
        } else if day >= ch.from {
          ClosedCovers(b.cards, ch, i, day);
          NothingAfter(b.cards, ch, i, day);
        }
      }
    }
  }

  lemma {:induction false} EveryRunKeepsOneADay(known: Known, b: Book, chs: seq<Change>)
    requires OneADay(b.cards)
    ensures OneADay(Run(known, b, chs).cards)
    decreases chs
  {
    hide Step, OneADay;
    if chs != [] {
      StepKeepsOneADay(known, b, chs[0]);
      EveryRunKeepsOneADay(known, Step(known, b, chs[0]), chs[1..]);
    }
  }

  // ---- prices ----

  /** The price is the first covering card's: two lists whose cards cover the day alike and charge alike agree. */
  lemma {:induction false} SamePrice(xs: seq<Card>, ys: seq<Card>, firm: Id, code: Id, day: int)
    requires |xs| == |ys|
    requires forall i :: 0 <= i < |xs| ==> (IsFor(xs[i], firm, code, day) <==> IsFor(ys[i], firm, code, day)) && xs[i].rate == ys[i].rate
    ensures RateOn(xs, firm, code, day) == RateOn(ys, firm, code, day)
  {
  }

  lemma {:induction false} PriceAppend(xs: seq<Card>, c: Card, firm: Id, code: Id, day: int)
    ensures RateOn(xs + [c], firm, code, day)
         == if RateOn(xs, firm, code, day).Some? then RateOn(xs, firm, code, day)
            else if IsFor(c, firm, code, day) then Some(c.rate) else None
  {
  }

  /** What closing the card in force does to prices: none from the change's first day on, all else as it was. */
  lemma {:induction false} ClosedPrices(cards: seq<Card>, ch: Change, firm: Id, code: Id, day: int)
    requires OneADay(cards) && Later(cards, ch).None?
    ensures RateOn(Closed(cards, ch), firm, code, day)
         == if (firm, code) == (ch.firm, ch.code) && day >= ch.from then None else RateOn(cards, firm, code, day)
  {
    hide Open, Later;
    var r := Closed(cards, ch);
    forall i | 0 <= i < |cards|
      ensures Same(r[i], cards[i].firm, cards[i].code) && r[i].rate == cards[i].rate
      ensures (firm, code) != (ch.firm, ch.code) || day < ch.from ==> (IsFor(r[i], firm, code, day) <==> IsFor(cards[i], firm, code, day))
      ensures (firm, code) == (ch.firm, ch.code) && day >= ch.from ==> !IsFor(r[i], firm, code, day)
    {
      ClosedCovers(cards, ch, i, day);
      if Same(cards[i], ch.firm, ch.code) && day >= ch.from {
        NothingAfter(cards, ch, i, day);
      }
    }
    if (firm, code) != (ch.firm, ch.code) || day < ch.from {
      SamePrice(r, cards, firm, code, day);
    }
  }

  /** An accepted change sets its firm and service's price on exactly its own days and clears the later ones; every earlier
      day's price, and every other firm's or service's, is as it was. */
  lemma {:induction false} AcceptedPrices(known: Known, b: Book, ch: Change, firm: Id, code: Id, day: int)
    requires OneADay(b.cards) && ReplyTo(known, b, ch).Ok?
    ensures RateOn(Step(known, b, ch).cards, firm, code, day)
         == if (firm, code) != (ch.firm, ch.code) || day < ch.from then RateOn(b.cards, firm, code, day)
            else if Within(ch, day) then ch.rate else None
  {
    hide Open, Later;
    ClosedPrices(b.cards, ch, firm, code, day);
    var c := NewCard(b.minted, ch);
    PriceAppend(Closed(b.cards, ch), c, firm, code, day);
  }

  /** What is asked of a change before its multiplier is read: a rate, a known service and firm, no later card, and none
      that starts the same day. */
  predicate PassesButForMultiplier(known: Known, cards: seq<Card>, ch: Change) {
    && ch.rate.Some? && ch.code in known.services && ch.firm in known.firms
    && (forall c :: c in cards && Same(c, ch.firm, ch.code) ==> c.from <= ch.from)
    && (forall c :: c in cards && IsFor(c, ch.firm, ch.code, ch.from) ==> c.from < ch.from)
  }

  predicate InForce(cards: seq<Card>, ch: Change) {
    exists c :: c in cards && IsFor(c, ch.firm, ch.code, ch.from)
  }

  lemma {:induction false} OpenIsInForce(cards: seq<Card>, ch: Change)
    ensures Open(cards, ch).Some? <==> InForce(cards, ch)
    ensures Later(cards, ch).None? <==> forall c :: c in cards && Same(c, ch.firm, ch.code) ==> c.from <= ch.from
  {
    var open, later := Open(cards, ch), Later(cards, ch);
    assert open.Some? ==> cards[open.value] in cards;
    assert later.Some? ==> cards[later.value] in cards;
  }

  lemma {:induction false} OnlyOneInForce(cards: seq<Card>, ch: Change)
    requires OneADay(cards) && Open(cards, ch).Some?
    ensures forall c :: c in cards && IsFor(c, ch.firm, ch.code, ch.from) ==> c == cards[Open(cards, ch).value]
  {
    var at := Open(cards, ch).value;
    assert forall i :: 0 <= i < |cards| && i != at && Same(cards[i], ch.firm, ch.code) ==>
        !(Covers(cards[i], ch.from) && Covers(cards[at], ch.from));
  }

  /** A refused change alters the cards exactly when its multiplier does not read, nothing else is wrong with it, and a
      card is in force on its first day. */
  lemma {:induction false} RefusedAltersCardsIff(known: Known, b: Book, ch: Change)
    requires OneADay(b.cards) && ReplyTo(known, b, ch).Refused?
    ensures Step(known, b, ch).cards != b.cards
        <==> ch.multiplier.None? && PassesButForMultiplier(known, b.cards, ch) && InForce(b.cards, ch)
  {
    hide Later;
    var open := Open(b.cards, ch);
    OpenIsInForce(b.cards, ch);
    if open.Some? {
      OnlyOneInForce(b.cards, ch);
      assert b.cards[open.value] in b.cards && IsFor(b.cards[open.value], ch.firm, ch.code, ch.from);
    }
  }

  /** And then exactly the prices of its firm and service from its first day on are gone; every other is as it was. */
  lemma {:induction false} RefusedPrices(known: Known, b: Book, ch: Change, firm: Id, code: Id, day: int)
    requires OneADay(b.cards) && ReplyTo(known, b, ch).Refused?
    ensures RateOn(Step(known, b, ch).cards, firm, code, day)
         == if ch.multiplier.None? && PassesButForMultiplier(known, b.cards, ch) && InForce(b.cards, ch)
               && (firm, code) == (ch.firm, ch.code) && day >= ch.from
            then None else RateOn(b.cards, firm, code, day)
  {
    hide Open, Later, PassesButForMultiplier, InForce, RateOn;
    RefusedAltersCardsIff(known, b, ch);
    if Step(known, b, ch).cards != b.cards {
      ClosedPrices(b.cards, ch, firm, code, day);
    }
  }

  /** One such refusal: a price of 18500 from day 10 on, and after it none from day 20. */
  lemma {:induction false} ARefusalThatTakesThePriceAway() returns (known: Known, b: Book, ch: Change)
    ensures OneADay(b.cards) && ReplyTo(known, b, ch).Refused?
    ensures RateOn(b.cards, ch.firm, ch.code, ch.from) == Some(18500)
    ensures forall day :: day >= ch.from ==> RateOn(Step(known, b, ch).cards, ch.firm, ch.code, day) == None
  {
    known := Known({1}, {2});
    b := Book([Card(0, 1, 2, 18500, 3, 10, None, 15000, 27750)], 1);
    ch := Change(1, 2, Some(19500), 3, 20, None, None);
    assert b.cards[..0] == [];
    assert IsFor(b.cards[0], 1, 2, 20);
    assert Open(b.cards, ch) == Some(0) && Later(b.cards, ch).None?;
    forall day | day >= ch.from ensures RateOn(Step(known, b, ch).cards, 1, 2, day) == None {
      ClosedPrices(b.cards, ch, 1, 2, day);
    }
  }

  /** The emergency rate is within half a minor unit of the rate times the multiplier, and at a multiplier of one it is
      the rate. */
  lemma {:induction false} EmergencyRounds(rate: nat, multiplier: nat)
    ensures -5000 < 10_000 * Rated(1000, rate, multiplier) - rate * multiplier <= 5000
    ensures Rated(1000, rate, 10_000) == rate
  {
    var x := rate * multiplier;
    assert 1000 * rate * multiplier == 1000 * x;
    assert 1000 * rate * 10_000 == 10_000_000 * rate;
  }

  // ---- what a change answers and does, card by card ----

  /** A card of the change's firm and service that holds on its first day. */
  predicate Holds(c: Card, ch: Change) {
    c.firm == ch.firm && c.code == ch.code && c.from <= ch.from && (c.until.Some? ==> ch.from < c.until.value)
  }

  ghost predicate StartsLater(cards: seq<Card>, ch: Change) {
    exists c :: c in cards && c.firm == ch.firm && c.code == ch.code && c.from > ch.from
  }

  ghost predicate StartsSameDay(cards: seq<Card>, ch: Change) {
    exists c :: c in cards && Holds(c, ch) && c.from == ch.from
  }

  ghost predicate KnownChange(known: Known, ch: Change) {
    ch.rate.Some? && ch.code in known.services && ch.firm in known.firms
  }

  /** Each refusal exactly when it is due, in the order they are looked for; otherwise the new card's id, and the id of the
      card closed for it. */
  lemma {:induction false} SetReplies(known: Known, b: Book, ch: Change)
    requires OneADay(b.cards)
    ensures var r := ReplyTo(known, b, ch);
      && (r == Refused(BadMoney) <==> ch.rate.None?)
      && (r == Refused(UnknownService) <==> ch.rate.Some? && ch.code !in known.services)
      && (r == Refused(UnknownFirm) <==> ch.rate.Some? && ch.code in known.services && ch.firm !in known.firms)
      && (r.Refused? && r.why.Overlaps? <==> KnownChange(known, ch) && (StartsLater(b.cards, ch) || StartsSameDay(b.cards, ch)))
      && (r == Refused(BadMultiplier) <==>
            KnownChange(known, ch) && !StartsLater(b.cards, ch) && !StartsSameDay(b.cards, ch) && ch.multiplier.None?)
      && (r.Ok? <==>
            KnownChange(known, ch) && !StartsLater(b.cards, ch) && !StartsSameDay(b.cards, ch) && ch.multiplier.Some?)
      && (r.Ok? ==> r.id == b.minted
                    && (r.closed.None? <==> forall c :: c in b.cards ==> !Holds(c, ch))
                    && forall c :: c in b.cards && Holds(c, ch) ==> r.closed == Some(c.id))
  {
    hide Open, Later, OneADay;
    HoldsIsFor(ch);
    OpenIsInForce(b.cards, ch);
    if Open(b.cards, ch).Some? {
      OnlyOneInForce(b.cards, ch);
    }
    OpenHolds(b.cards, ch);
  }

  lemma {:induction false} HoldsIsFor(ch: Change)
    ensures forall c :: Holds(c, ch) <==> IsFor(c, ch.firm, ch.code, ch.from)
  {
  }

  lemma {:induction false} OpenHolds(cards: seq<Card>, ch: Change)
    ensures Open(cards, ch).Some? ==> cards[Open(cards, ch).value] in cards && Holds(cards[Open(cards, ch).value], ch)
    ensures Later(cards, ch).Some? <==> StartsLater(cards, ch)
    ensures Later(cards, ch).Some? ==> Later(cards, ch).value < |cards|
  {
    var later := Later(cards, ch);
    assert later.Some? ==> cards[later.value] in cards;
  }

  /** The day an overlap is refused for is the first later card's in the list, or else the change's own. */
  lemma {:induction false} OverlapNames(known: Known, b: Book, ch: Change)
    requires var r := ReplyTo(known, b, ch); r.Refused? && r.why.Overlaps?
    ensures var day := ReplyTo(known, b, ch).why.since;
      if StartsLater(b.cards, ch) then
        exists i :: 0 <= i < |b.cards| && b.cards[i].firm == ch.firm && b.cards[i].code == ch.code && b.cards[i].from == day > ch.from
          && !StartsLater(b.cards[..i], ch)
      else day == ch.from
  {
    hide Open;
    OpenHolds(b.cards, ch);
    var later := Later(b.cards, ch);
    if later.Some? {
      assert !StartsLater(b.cards[..later.value], ch);
    }
  }

  /** An accepted change ends the card in force on its first day, leaves every other, and adds one with all it asks for,
      whose emergency rate is its rate times its multiplier to within half a minor unit. */
  lemma {:induction false} AcceptedChange(known: Known, b: Book, ch: Change)
    requires OneADay(b.cards) && ReplyTo(known, b, ch).Ok?
    ensures var b' := Step(known, b, ch);
      && |b'.cards| == |b.cards| + 1 && b'.minted == b.minted + 1
      && (forall i :: 0 <= i < |b.cards| ==>
            b'.cards[i] == if Holds(b.cards[i], ch) then b.cards[i].(until := Some(ch.from)) else b.cards[i])
      && var c := b'.cards[|b.cards|];
         && c.id == b.minted && c.firm == ch.firm && c.code == ch.code && ch.rate == Some(c.rate) && c.currency == ch.currency
         && c.from == ch.from && c.until == ch.until && ch.multiplier == Some(c.multiplier)
         && -5000 < 10_000 * c.emergency - c.rate * c.multiplier <= 5000
  {
    hide Open, Later, OneADay, Rated;
    HoldsIsFor(ch);
    OpenHolds(b.cards, ch);
    EmergencyRounds(ch.rate.value, ch.multiplier.value);
    OnlyOpenHolds(b.cards, ch);
  }

  lemma {:induction false} OnlyOpenHolds(cards: seq<Card>, ch: Change)
    requires OneADay(cards)
    ensures forall i :: 0 <= i < |cards| ==> (Holds(cards[i], ch) <==> Open(cards, ch) == Some(i))
  {
    var open := Open(cards, ch);
    forall i | 0 <= i < |cards| ensures Holds(cards[i], ch) <==> open == Some(i) {
      assert Holds(cards[i], ch) <==> IsFor(cards[i], ch.firm, ch.code, ch.from);
    }
  }

  /** A refusal adds no card and changes none, but for the card in force when only the multiplier does not read. */
  lemma {:induction false} RefusedChange(known: Known, b: Book, ch: Change)
    requires OneADay(b.cards) && ReplyTo(known, b, ch).Refused?
    ensures var b', why := Step(known, b, ch), ReplyTo(known, b, ch).why;
      && |b'.cards| == |b.cards| && b'.minted == (if why == BadMultiplier then b.minted + 1 else b.minted)
      && forall i :: 0 <= i < |b.cards| ==>
           b'.cards[i] == if why == BadMultiplier && Holds(b.cards[i], ch) then b.cards[i].(until := Some(ch.from)) else b.cards[i]
  {
    hide Open, Later, OneADay;
    OpenHolds(b.cards, ch);
    OnlyOpenHolds(b.cards, ch);
  }

  // ---- the handler ----

  class RateBook {
    var cards: seq<Card>
    var minted: nat

    function Contents(): Book
      reads this
    {
      Book(cards, minted)
    }

    constructor ()
      ensures Contents() == Book([], 0)
    {
      cards, minted := [], 0;
    }

    method Set(known: Known, ch: Change) returns (reply: Reply)
      modifies this
      ensures reply == ReplyTo(known, old(Contents()), ch) && Contents() == Step(known, old(Contents()), ch)
    {
      if ch.rate.None? {
        return Refused(BadMoney);
      }
      if ch.code !in known.services {
        return Refused(UnknownService);
      }
      if ch.firm !in known.firms {
        return Refused(UnknownFirm);
      }
      var open, later := Open(cards, ch), Later(cards, ch);
      if later.Some? {
        return Refused(Overlaps(cards[later.value].from));
      }
      if open.Some? && cards[open.value].from == ch.from {
        return Refused(Overlaps(ch.from));
      }
      var closed := None;
      if open.Some? {
        closed := Some(cards[open.value].id);
        cards := cards[open.value := cards[open.value].(until := Some(ch.from))];
      }
      var id := minted;
      minted := minted + 1;
      if ch.multiplier.None? {
        return Refused(BadMultiplier);
      }
      cards := cards + [NewCard(id, ch)];
      return Ok(id, closed);
    }
  }
}
