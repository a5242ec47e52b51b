/** A wrap-up goes out only after everything done before it was submitted is with the office. */
module FlushOrder {
  import opened Common
  import opened Tick
  import opened Flushes
  import Q = OfflineQueue
  import U = WrapUps
  import S = SyncProtocol
  import W = WrapUpProtocol
  import Server = Replay
  import Wire = SyncWire

  // ---- whose entries a flush and the outbox hold ----

  function FlightIds(flight: Option<W.Flight>): set<Id> {
    if flight.None? then {} else {flight.value.entry.wrapUpId} + W.WrapUpIds(flight.value.rest)
  }

  function Held(w: W.World): set<Id> {
    W.WrapUpIds(w.page.outbox) + W.WrapUpIds(w.page.keptOutbox)
  }

  ghost predicate CallsGrow(w: W.World, w': W.World) {
    || w'.calls == w.calls
    || (w'.flight.Some? && exists c: W.Call :: w'.calls == w.calls + [c] && (c.Report? ==> c.entry.wrapUpId in FlightIds(w'.flight)))
  }

  /** A flush goes on over entries it already had. */
  ghost predicate GoesOn(w: W.World, ids: set<Id>, w': W.World) {
    CallsGrow(w, w') && FlightIds(w'.flight) <= ids && Held(w') <= Held(w) && w'.minted == w.minted
  }

  lemma {:induction false} NextShotGoesOn(w: W.World, rest: seq<U.Entry>, e: U.Entry, todo: seq<Id>)
    ensures GoesOn(w, {e.wrapUpId} + W.WrapUpIds(rest), W.NextShot(w, rest, e, todo))
    ensures W.NextShot(w, rest, e, todo).flight.Some?
  {
    var w' := W.NextShot(w, rest, e, todo);
    if todo == [] {
      assert w'.calls == w.calls + [W.Report(e)];
    }
  }

  lemma {:induction false} NextEntryGoesOn(w: W.World, rest: seq<U.Entry>)
    ensures GoesOn(w, W.WrapUpIds(rest), W.NextEntry(w, rest))
    ensures rest != [] ==> W.NextEntry(w, rest).flight.Some?
  {
    if rest != [] {
      NextShotGoesOn(w, rest[1..], rest[0], W.Unsent(U.Shots(rest[0])));
      assert rest[0] in rest && forall e :: e in rest[1..] ==> e in rest;
    }
  }

  lemma {:induction false} SwapHolds(p: U.Page, x: Id, to: Option<U.Entry>)
    requires to.Some? ==> to.value.wrapUpId == x
    ensures var p' := U.Replaced(p, x, to);
      W.WrapUpIds(p'.outbox) <= W.WrapUpIds(p.outbox) && p'.keptOutbox == p'.outbox
  {
    var p' := U.Replaced(p, x, to);
    forall e | e in p'.outbox ensures e.wrapUpId in W.WrapUpIds(p.outbox) {
      var i :| 0 <= i < |p'.outbox| && p'.outbox[i] == e;
      if to.Some? {
        assert p.outbox[i] in p.outbox;
      }
    }
  }

  lemma {:induction false} RefusedGoesOn(w: W.World, why: U.Refusal)
    requires w.flight.Some?
    ensures GoesOn(w, FlightIds(w.flight), W.Refused(w, why))
  {
    var f := w.flight.value;
    var to := f.entry.(refused := Some(why));
    SwapHolds(w.page, f.entry.wrapUpId, Some(to));
    NextEntryGoesOn(w.(page := U.Replaced(w.page, f.entry.wrapUpId, Some(to))), f.rest);
  }

  lemma {:induction false} AnsweredGoesOn(w: W.World, v: W.Verdict)
    requires w.flight.Some? && W.CallAwaited(w.flight.value.at).Some?
    ensures GoesOn(w, FlightIds(w.flight), W.AfterAnswer(w, v))
  {
    var f := w.flight.value;
    if v != W.Taken {
      RefusedGoesOn(w, U.OfficeRefused);
    } else if f.at.Attaching? {
      var next := U.Marked(f.entry, f.at.id);
      SwapHolds(w.page, f.entry.wrapUpId, Some(next));
      NextShotGoesOn(w.(page := U.Replaced(w.page, f.entry.wrapUpId, Some(next))), f.rest, next, f.todo);
    } else {
      SwapHolds(w.page, f.entry.wrapUpId, None);
    }
  }

  lemma {:induction false} ReadGoesOn(w: W.World)
    requires w.flight.Some? && w.flight.value.at.Reading?
    ensures GoesOn(w, FlightIds(w.flight), W.ReadBytes(w))
  {
    var f := w.flight.value;
    if f.at.id !in w.page.media {
      RefusedGoesOn(w, U.LostShot);
    } else {
      assert W.ReadBytes(w).calls == w.calls + [W.Attach(f.at.id)];
    }
  }

  lemma {:induction false} CleanedGoesOn(w: W.World)
    requires w.flight.Some? && w.flight.value.at.Cleaning?
    ensures GoesOn(w, FlightIds(w.flight), W.Cleaned(w))
  {
    var f := w.flight.value;
    if |f.at.left| <= 1 {
      NextEntryGoesOn(if f.at.left == [] then w else w.(page := U.Forgotten(w.page, f.at.left[0])), f.rest);
    }
  }

  /** The screens make no call, and the only new entry is the one submitted. */
  lemma {:induction false} ScreensStay(w: W.World, s: W.Step)
    requires W.Can(w, s) && !s.StartFlush? && !s.BytesRead? && !s.Answered? && !s.Deleted?
    ensures var w' := W.Next(w, s);
      && w'.calls == w.calls && FlightIds(w'.flight) <= FlightIds(w.flight) && (w'.flight.Some? ==> w.flight.Some?)
      && w.minted <= w'.minted
      && Held(w') <= Held(w) + (if s.Submit? && s.wrapUpId in w'.minted then {s.wrapUpId} else {})
  {
    hide U.DraftFor, Held, W.AfterSubmit, W.AfterReopen, W.MayJudge, W.WrapUpIds;
    var w' := W.Next(w, s);
    match s
    case Submit(job, x, at) => SubmitHolds(w, job, x, at);
    case Reopen(job) => ReopenHolds(w, job);
    case Reload => assert Held(w') <= Held(w) by { OutboxHolds(w, w'); }
    case _ => OutboxHolds(w, w');
  }

  lemma {:induction false} OutboxHolds(w: W.World, w': W.World)
    requires w'.page.outbox in {w.page.outbox, w.page.keptOutbox} && w'.page.keptOutbox in {w.page.outbox, w.page.keptOutbox}
    ensures Held(w') <= Held(w)
  {
  }

  lemma {:induction false} SubmitHolds(w: W.World, job: Id, x: Id, at: int)
    ensures var w' := W.AfterSubmit(w, job, x, at);
      && w'.calls == w.calls && w'.flight == w.flight && w.minted <= w'.minted
      && Held(w') <= Held(w) + (if x in w'.minted then {x} else {})
  {
    hide U.DraftFor, U.Ready, W.Given;
  }

  lemma {:induction false} ReopenHolds(w: W.World, job: Id)
    ensures var w' := W.AfterReopen(w, job);
      w'.calls == w.calls && w'.flight == w.flight && w.minted == w'.minted && Held(w') <= Held(w)
  {
    hide U.DraftFor, U.DraftOf, W.TakenBack;
  }

  /** What an await that is over does to the entries held. */
  lemma {:induction false} AwaitGoesOn(w: W.World, turn: W.Step)
    requires OfAwaits(turn) && W.Can(w, turn)
    ensures var w' := W.Next(w, turn); GoesOn(w, FlightIds(w.flight), w') && (w'.flight.Some? ==> w.flight.Some?)
  {
    hide GoesOn, FlightIds, W.ReadBytes, W.AfterAnswer, W.Cleaned;
    match turn
    case BytesRead => ReadGoesOn(w);
    case Answered(v) => AnsweredGoesOn(w, v);
    case Deleted => CleanedGoesOn(w);
    case _ => EditGoesOn(w, turn);
  }

  lemma {:induction false} EditGoesOn(w: W.World, turn: W.Step)
    requires (turn.OpDone? || turn.NoAnswer? || turn.MediaFailed?) && W.Can(w, turn)
    ensures var w' := W.Next(w, turn); GoesOn(w, FlightIds(w.flight), w') && (w'.flight.Some? ==> w.flight.Some?)
  {
    hide U.DraftFor, Held, W.WrapUpIds;
    OutboxHolds(w, W.Next(w, turn));
  }

  // ---- nothing enqueued is out of sight ----

  /** With the office, pending on the page, or lost. */
  ghost predicate Safe(w: S.World, lost: set<Id>, e: Q.Entry) {
    e.mutation.mutationId in w.srv.replayed || e in w.dev.pending || e.mutation.mutationId in lost
  }

  ghost predicate AnswersRecorded(w: S.World) {
    forall p, q :: p in w.responses && q in p.answers ==> q.mutationId in w.srv.replayed
  }

  ghost predicate InSight(w: S.World, lost: set<Id>) {
    && (forall e :: e in w.log ==> Safe(w, lost, e))
    && AnswersRecorded(w)
    && (w.dev.flight.Some? ==> w.dev.flight.value <= w.dev.pending)
  }

  lemma {:induction false} UnansweredHas(batch: seq<Q.Entry>, byId: map<Id, Wire.Outcome>, e: Q.Entry)
    requires e in batch && e.mutation.mutationId !in byId
    ensures e in Q.Unanswered(batch, byId)
  {
    var n := |batch| - 1;
    assert batch == batch[..n] + [batch[n]];
    if e in batch[..n] {
      UnansweredHas(batch[..n], byId, e);
    }
  }

  lemma {:induction false} ReceiveInSight(w: S.World, lost: set<Id>, n: nat)
    requires InSight(w, lost) && S.Can(w, S.Receive(n))
    ensures InSight(S.Received(w, n), lost)
  {
    hide Q.Unanswered, Q.Flagged, S.Told;
    var batch, answers, w' := w.dev.flight.value, w.responses[n].answers, S.Received(w, n);
    forall e | e in w.log ensures Safe(w', lost, e) {
      assert Safe(w, lost, e);
      if e in w.dev.pending && e.mutation.mutationId !in w.srv.replayed {
        assert w.dev.pending == batch + w.dev.pending[|batch|..];
        if e in batch {
          UnansweredHas(batch, Q.ById(answers), e);
        }
      }
    }
  }

  lemma {:induction false} DeliverInSight(policy: Server.Policy, w: S.World, lost: set<Id>, n: nat)
    requires InSight(w, lost) && n < |w.requests|
    ensures InSight(S.Delivered(policy, w, n), lost)
  {
    hide S.NewDecisions;
    var ms := Server.SortBySeq(Q.Mutations(w.requests[n].batch));
    var w', answers := S.Delivered(policy, w, n), Server.Answers(policy, w.srv, ms);
    Server.RecordedIds(policy, w.srv, ms);
    forall q | q in answers ensures q.mutationId in w'.srv.replayed {
      var i :| 0 <= i < |answers| && answers[i] == q;
      assert ms[i] in ms;
    }
    assert forall e :: Safe(w, lost, e) ==> Safe(w', lost, e);
  }

  lemma {:induction false} OthersInSight(policy: Server.Policy, w: S.World, lost: set<Id>, s: S.Step)
    requires InSight(w, lost) && S.Can(w, s) && !s.Deliver? && !s.Receive? && !s.Reload?
    ensures InSight(S.Next(policy, w, s), lost)
  {
    hide AnswersRecorded;
    var w' := S.Next(policy, w, s);
    if s.OtherDevice? {
      Server.RecordedIds(policy, w.srv, Server.SortBySeq(s.ms));
    }
    AnswersStay(w, w');
    assert forall e :: Safe(w, lost, e) ==> Safe(w', lost, e);
    assert forall e :: e in w'.log ==> e in w.log || e in w'.dev.pending;
  }

  lemma {:induction false} AnswersStay(w: S.World, w': S.World)
    requires AnswersRecorded(w) && w'.responses == w.responses && w.srv.replayed <= w'.srv.replayed
    ensures AnswersRecorded(w')
  {
  }

  /** What is not stored is lost to a page that opens, unless it is with the office. */
  lemma {:induction false} OpenInSight(policy: Server.Policy, w: S.World, lost: set<Id>)
    requires InSight(w, lost)
    ensures InSight(S.Next(policy, w, S.Reload), lost + Dropped(w))
  {
    var w' := S.Next(policy, w, S.Reload);
    forall e | e in w.log ensures Safe(w', lost + Dropped(w), e) {
      assert Safe(w, lost, e);
    }
  }

  lemma {:induction false} MoveInSight(policy: Server.Policy, w: S.World, lost: set<Id>, s: S.Step)
    requires InSight(w, lost) && S.Can(w, s) && !s.Reload?
    ensures InSight(S.Next(policy, w, s), lost)
    ensures w.log <= S.Next(policy, w, s).log && w.srv.replayed <= S.Next(policy, w, s).srv.replayed
  {
    hide InSight;
    match s
    case Deliver(n) => DeliverInSight(policy, w, lost, n); Grows(policy, w, s);
    case Receive(n) => ReceiveInSight(w, lost, n);
    case _ => OthersInSight(policy, w, lost, s); Grows(policy, w, s);
  }

  lemma {:induction false} Grows(policy: Server.Policy, w: S.World, s: S.Step)
    requires S.Can(w, s)
    ensures w.log <= S.Next(policy, w, s).log && w.srv.replayed <= S.Next(policy, w, s).srv.replayed
  {
    match s
    case Deliver(n) => Server.RecordedIds(policy, w.srv, Server.SortBySeq(Q.Mutations(w.requests[n].batch)));
    case OtherDevice(ms) => Server.RecordedIds(policy, w.srv, Server.SortBySeq(ms));
    case _ =>
  }

  // ---- the invariant ----

  /** The first `n` intents are with the office or lost. */
  ghost predicate Covered(a: App, n: nat) {
    && n <= |a.sync.log|
    && forall j :: 0 <= j < n ==> a.sync.log[j].mutation.mutationId in a.sync.srv.replayed
                                  || a.sync.log[j].mutation.mutationId in a.lost
  }

  ghost predicate MarkedBy(a: App, ids: set<Id>, n: nat) {
    forall x :: x in ids ==> x in a.marks && a.marks[x] <= n
  }

  ghost predicate CallOk(a: App, c: W.Call, stamp: nat) {
    Covered(a, stamp) && (c.Report? ==> MarkedBy(a, {c.entry.wrapUpId}, stamp))
  }

  ghost predicate CallsOk(a: App) {
    && |a.stamps| == |a.wraps.calls|
    && forall i :: 0 <= i < |a.stamps| ==> CallOk(a, a.wraps.calls[i], a.stamps[i])
  }

  ghost predicate MarksOk(a: App) {
    Held(a.wraps) <= a.marks.Keys <= a.wraps.minted
  }

  ghost predicate FlushOk(a: App, flight: Option<W.Flight>, since: nat) {
    && (flight.Some? ==> Covered(a, since))
    && MarkedBy(a, FlightIds(flight), since)
  }

  ghost predicate FormerOk(a: App, f: FormerWraps) {
    W.WrapUpIds(f.outbox) <= a.marks.Keys && FlushOk(a, f.flight, f.since)
  }

  ghost predicate Ordered(a: App) {
    && InSight(a.sync, a.lost) && CallsOk(a) && MarksOk(a) && FlushOk(a, a.wraps.flight, a.since)
    && (forall x :: x in a.marks ==> a.marks[x] <= |a.sync.log|)
    && forall f :: f in a.formerWraps ==> FormerOk(a, f)
  }

  /** What the invariant looks at only grows. */
  ghost predicate GrowsTo(a: App, b: App) {
    && a.sync.log <= b.sync.log && a.sync.srv.replayed <= b.sync.srv.replayed && a.lost <= b.lost
    && forall x :: x in a.marks ==> x in b.marks && b.marks[x] == a.marks[x]
  }

  lemma {:induction false} CoveredStays(a: App, b: App)
    requires GrowsTo(a, b)
    ensures forall n: nat :: Covered(a, n) ==> Covered(b, n)
    ensures forall ids, n: nat :: MarkedBy(a, ids, n) ==> MarkedBy(b, ids, n)
    ensures a.marks.Keys <= b.marks.Keys
  {
  }

  lemma {:induction false} FlushesStay(a: App, b: App)
    requires GrowsTo(a, b)
    ensures forall c, n: nat :: CallOk(a, c, n) ==> CallOk(b, c, n)
    ensures forall flight, n: nat :: FlushOk(a, flight, n) ==> FlushOk(b, flight, n)
    ensures forall f :: FormerOk(a, f) ==> FormerOk(b, f)
  {
    hide Covered, MarkedBy, FlightIds, GrowsTo;
    CoveredStays(a, b);
  }

  // ---- each step ----

  /** A step that leaves the wrap-ups alone. */
  lemma {:induction false} SyncKeeps(a: App, b: App)
    requires Ordered(a) && GrowsTo(a, b) && InSight(b.sync, b.lost)
    requires b.wraps == a.wraps && b.stamps == a.stamps && b.marks == a.marks && b.since == a.since
    requires forall f :: f in b.formerWraps ==> f in a.formerWraps
    ensures Ordered(b)
  {
    hide InSight, GrowsTo, CallOk, FlushOk, FormerOk, Held;
    assert |a.sync.log| <= |b.sync.log| by { assert GrowsTo(a, b); LogGrows(a, b); }
    FlushesStay(a, b);
  }

  lemma {:induction false} LogGrows(a: App, b: App)
    requires GrowsTo(a, b)
    ensures |a.sync.log| <= |b.sync.log|
  {
  }

  lemma {:induction false} QueueKeeps(policy: Server.Policy, a: App, move: S.Step, b: App)
    requires Ordered(a) && S.Can(a.sync, move) && !move.Reload? && b.sync == S.Next(policy, a.sync, move)
    requires b.wraps == a.wraps && b.stamps == a.stamps && b.marks == a.marks && b.since == a.since && b.lost == a.lost
    requires b.formerWraps == a.formerWraps
    ensures Ordered(b)
  {
    hide InSight, S.Next, S.Can, CallsOk, MarksOk, FlushOk, FormerOk;
    MoveInSight(policy, a.sync, a.lost, move);
    SyncKeeps(a, b);
  }

  lemma {:induction false} SameKeeps(a: App, b: App)
    requires Ordered(a) && b.sync == a.sync && b.wraps == a.wraps && b.stamps == a.stamps && b.marks == a.marks
    requires b.since == a.since && b.lost == a.lost && b.formerWraps == a.formerWraps
    ensures Ordered(b)
  {
    hide InSight, CallsOk, MarksOk, FlushOk, FormerOk;
    assert InSight(b.sync, b.lost);
    SyncKeeps(a, b);
  }

  lemma {:induction false} OneCallMore(a: App, w: W.World, since: nat)
    requires CallsOk(a) && CallsGrow(a.wraps, w) && MarkedBy(a, FlightIds(w.flight), since)
    requires w.flight.Some? ==> Covered(a, since)
    ensures var stamps := Stamped(a.stamps, a.wraps.calls, w.calls, since);
      |stamps| == |w.calls| && forall i :: 0 <= i < |stamps| ==> CallOk(a, w.calls[i], stamps[i])
  {
    hide Covered, FlightIds;
    if w.calls != a.wraps.calls {
      var c :| w.calls == a.wraps.calls + [c] && (c.Report? ==> c.entry.wrapUpId in FlightIds(w.flight));
      assert CallOk(a, c, since);
    }
  }

  /** A flush goes on, or begins: what it sends was submitted before it began. */
  lemma {:induction false} FlushKeeps(a: App, w: W.World)
    requires InSight(a.sync, a.lost) && CallsOk(a) && MarksOk(a) && (forall x :: x in a.marks ==> a.marks[x] <= |a.sync.log|)
    requires forall f :: f in a.formerWraps ==> FormerOk(a, f)
    requires CallsGrow(a.wraps, w) && Held(w) <= Held(a.wraps) && w.minted == a.wraps.minted
    requires MarkedBy(a, FlightIds(w.flight), a.since) && (w.flight.Some? ==> Covered(a, a.since))
    ensures Ordered(WrapsTo(a, w))
  {
    hide InSight, Covered, MarkedBy, FlightIds, Held, CallsGrow, W.WrapUpIds;
    OneCallMore(a, w, a.since);
    var b := WrapsTo(a, w);
    assert GrowsTo(a, b);
    FlushesStay(a, b);
    CoveredStays(a, b);
  }

  lemma {:induction false} TickWrapsKeeps(a: App)
    requires Ordered(a)
    ensures Ordered(TickWraps(a)) && TickWraps(a).sync == a.sync && TickWraps(a).formers == a.formers
  {
    hide CallsOk, MarksOk, InSight, FormerOk, FlushOk;
    if WrapsDue(a.sync.dev, a.wraps.page, a.wrapsPace, a.clock) && a.wraps.flight.None? {
      var rest, b := U.Waiting(a.wraps.page.outbox), a.(since := |a.sync.log|, reached := false);
      NextEntryGoesOn(a.wraps, rest);
      EmptyIsCovered(a);
      OutboxIsMarked(a, rest);
      SinceMoves(a, b);
      FlushKeeps(b, W.NextEntry(a.wraps, rest));
    } else {
      SameKeeps(a, TickWraps(a));
    }
  }

  lemma {:induction false} EmptyIsCovered(a: App)
    requires InSight(a.sync, a.lost) && a.sync.dev.pending == []
    ensures Covered(a, |a.sync.log|)
  {
    assert forall j :: 0 <= j < |a.sync.log| ==> a.sync.log[j] in a.sync.log && Safe(a.sync, a.lost, a.sync.log[j]);
  }

  lemma {:induction false} OutboxIsMarked(a: App, rest: seq<U.Entry>)
    requires MarksOk(a) && (forall x :: x in a.marks ==> a.marks[x] <= |a.sync.log|)
    requires forall e :: e in rest ==> e in a.wraps.page.outbox
    ensures MarkedBy(a, W.WrapUpIds(rest), |a.sync.log|)
  {
  }

  lemma {:induction false} SinceMoves(a: App, b: App)
    requires b == a.(since := b.since, reached := b.reached)
    ensures CallsOk(a) ==> CallsOk(b)
    ensures MarksOk(a) ==> MarksOk(b)
    ensures forall f :: FormerOk(a, f) ==> FormerOk(b, f)
    ensures forall n: nat :: Covered(a, n) ==> Covered(b, n)
    ensures forall ids, n: nat :: MarkedBy(a, ids, n) ==> MarkedBy(b, ids, n)
    ensures forall flight, n: nat :: FlushOk(a, flight, n) ==> FlushOk(b, flight, n)
  {
    hide Held, FlightIds;
    assert GrowsTo(a, b);
    FlushesStay(a, b);
    CoveredStays(a, b);
  }

  lemma {:induction false} WrapsTurnKeeps(a: App, turn: W.Step)
    requires Ordered(a) && Can(a, Wraps(turn))
    ensures Ordered(WrapsTurn(a, turn)) && WrapsTurn(a, turn).sync == a.sync
  {
    hide InSight, CallsOk, MarksOk, FormerOk, Held, FlightIds, W.Next, W.Can, Covered, MarkedBy;
    var w, b := W.Next(a.wraps, turn), a.(reached := a.reached || turn.Answered?);
    SinceMoves(a, b);
    if OfAwaits(turn) {
      AwaitGoesOn(a.wraps, turn);
      FewerMarked(b, FlightIds(a.wraps.flight), FlightIds(w.flight));
      FlushKeeps(b, w);
    } else {
      ScreensStay(a.wraps, turn);
      ScreensKeep(a, turn, w);
    }
  }

  lemma {:induction false} FewerMarked(a: App, ids: set<Id>, ids': set<Id>)
    requires ids' <= ids
    ensures forall n: nat :: MarkedBy(a, ids, n) ==> MarkedBy(a, ids', n)
  {
  }

  lemma {:induction false} ScreensKeep(a: App, turn: W.Step, w: W.World)
    requires Ordered(a) && W.Can(a.wraps, turn) && w == W.Next(a.wraps, turn)
    requires w.calls == a.wraps.calls && FlightIds(w.flight) <= FlightIds(a.wraps.flight) && a.wraps.minted <= w.minted
    requires Held(w) <= Held(a.wraps) + (if turn.Submit? && turn.wrapUpId in w.minted then {turn.wrapUpId} else {})
    requires w.flight.Some? ==> a.wraps.flight.Some?
    ensures Ordered(WrapsTurn(a, turn))
  {
    hide InSight, Held, FlightIds, W.Next, CallOk, FormerOk, Covered;
    var b := WrapsTurn(a, turn);
    FewerMarked(a, FlightIds(a.wraps.flight), FlightIds(w.flight));
    assert turn.Submit? ==> turn.wrapUpId !in a.marks;
    assert GrowsTo(a, b);
    FlushesStay(a, b);
    CoveredStays(a, b);
  }

  lemma {:induction false} LateTurnKeeps(a: App, k: nat, turn: W.Step)
    requires Ordered(a) && Can(a, LateWraps(k, turn))
    ensures Ordered(LateTurn(a, k, turn)) && LateTurn(a, k, turn).sync == a.sync
  {
    hide InSight, FlightIds, W.Next, W.Can, Covered, CallOk;
    var f, b := a.formerWraps[k], LateTurn(a, k, turn);
    var former := WorldOf(a, f);
    var w := W.Next(former, turn);
    AwaitGoesOn(former, turn);
    assert f in a.formerWraps && FormerOk(a, f);
    FewerMarked(a, FlightIds(f.flight), FlightIds(w.flight));
    OneCallMore(a, w, f.since);
    assert GrowsTo(a, b);
    FlushesStay(a, b);
    CoveredStays(a, b);
    assert FormerOk(b, b.formerWraps[k]);
    assert forall g :: g in b.formerWraps ==> g == b.formerWraps[k] || g in a.formerWraps;
  }

  lemma {:induction false} OpenedKeeps(policy: Server.Policy, a: App)
    requires Ordered(a)
    ensures Ordered(Opened(policy, a))
  {
    hide InSight, S.Next, W.Next, Ordered, Dropped;
    var b := a.(lost := a.lost + Dropped(a.sync), sync := S.Next(policy, a.sync, S.Reload));
    StorageKeeps(policy, a, b);
    WrapsOpen(b);
    assert Opened(policy, a) == b.(wraps := W.Next(a.wraps, W.Reload));
  }

  lemma {:induction false} StorageKeeps(policy: Server.Policy, a: App, b: App)
    requires Ordered(a) && b == a.(lost := a.lost + Dropped(a.sync), sync := S.Next(policy, a.sync, S.Reload))
    ensures Ordered(b)
  {
    hide InSight, Dropped, CallsOk, MarksOk, FlushOk, FormerOk;
    OpenInSight(policy, a.sync, a.lost);
    SyncKeeps(a, b);
  }

  lemma {:induction false} WrapsOpen(a: App)
    requires Ordered(a)
    ensures Ordered(a.(wraps := W.Next(a.wraps, W.Reload)))
  {
    hide InSight, CallOk, FormerOk, Covered;
    var b := a.(wraps := W.Next(a.wraps, W.Reload));
    assert GrowsTo(a, b);
    FlushesStay(a, b);
  }

  lemma {:induction false} SignedInKeeps(policy: Server.Policy, a: App)
    requires Ordered(a)
    ensures Ordered(SignedIn(policy, a))
  {
    hide InSight, CallsOk, Covered, S.Next, W.Next, Dropped;
    OpenedKeeps(policy, a);
    var b, c := Opened(policy, a), SignedIn(policy, a);
    assert FormerOk(a, LeftBehind(a));
    assert GrowsTo(a, c) by { OpenGrows(policy, a); }
    FlushesStay(a, c);
    assert GrowsTo(b, c);
    FlushesStay(b, c);
    SameCalls(b, c);
  }

  lemma {:induction false} SameCalls(b: App, c: App)
    requires CallsOk(b) && GrowsTo(b, c) && c.stamps == b.stamps && c.wraps == b.wraps
    ensures CallsOk(c)
  {
    hide CallOk, GrowsTo;
    FlushesStay(b, c);
  }

  lemma {:induction false} OpenGrows(policy: Server.Policy, a: App)
    ensures GrowsTo(a, SignedIn(policy, a))
  {
    hide Dropped;
  }

  lemma {:induction false} LateReplyKeeps(a: App, k: nat, b: App)
    requires Ordered(a) && b.sync == a.sync.(dev := b.sync.dev) && b.sync.dev.pending == a.sync.dev.pending
    requires b.sync.dev.flight == a.sync.dev.flight
    requires b.wraps == a.wraps && b.stamps == a.stamps && b.marks == a.marks && b.since == a.since && b.lost == a.lost
    requires b.formerWraps == a.formerWraps
    ensures Ordered(b)
  {
    hide CallsOk, MarksOk, FlushOk, FormerOk;
    assert forall e :: Safe(a.sync, a.lost, e) ==> Safe(b.sync, b.lost, e);
    SyncKeeps(a, b);
  }

  lemma {:induction false} SentKeeps(policy: Server.Policy, a: App, b: App)
    requires Ordered(a) && (b.sync == a.sync || b.sync == S.Sent(a.sync))
    requires b.wraps == a.wraps && b.stamps == a.stamps && b.marks == a.marks && b.since == a.since && b.lost == a.lost
    requires b.formerWraps == a.formerWraps
    ensures Ordered(b)
  {
    hide Ordered, S.Sent;
    if b.sync == a.sync {
      SameKeeps(a, b);
    } else {
      QueueKeeps(policy, a, S.Send, b);
    }
  }

  lemma {:induction false} NextKeeps(policy: Server.Policy, a: App, s: Step)
    requires Ordered(a) && Can(a, s)
    ensures Ordered(Next(policy, a, s))
  {
    hide Ordered, TickWraps, WrapsTurn, Opened, LateTurn, SignedIn;
    var b := Next(policy, a, s);
    match s
    case Tick =>
      if a.signedIn {
        TickWrapsKeeps(a);
        SentKeeps(policy, TickWraps(a), b);
      }
    case Tap => SentKeeps(policy, a, b);
    case Queue(move) => QueueKeeps(policy, a, move, b);
    case Answered(n) => QueueKeeps(policy, a, S.Receive(n), b);
    case Unanswered => QueueKeeps(policy, a, S.GiveUp, b);
    case TokenOver => QueueKeeps(policy, a, S.GiveUp, b);
    case Wraps(turn) => WrapsTurnKeeps(a, turn);
    case SignIn => SignedInKeeps(policy, a);
    case Reload => OpenedKeeps(policy, a); FormersGo(Opened(policy, a), b);
    case LateWraps(k, turn) => LateTurnKeeps(a, k, turn);
    case LateAnswered(k, _) => LateReplyKeeps(a, k, b);
    case _ => SameKeeps(a, b);
  }

  lemma {:induction false} FormersGo(a: App, b: App)
    requires Ordered(a) && b.sync == a.sync && b.wraps == a.wraps && b.stamps == a.stamps && b.marks == a.marks
    requires b.since == a.since && b.lost == a.lost && b.formerWraps == []
    ensures Ordered(b)
  {
    hide InSight, CallsOk, MarksOk, FlushOk, FormerOk;
    assert InSight(b.sync, b.lost);
    SyncKeeps(a, b);
  }

  /** Over every run, sign-ins at any moment and late answers included. */
  lemma {:induction false} EveryRunKeeps(policy: Server.Policy, a: App, steps: seq<Step>, a': App)
    requires Ordered(a) && Run(policy, a, steps, a')
    ensures Ordered(a')
    decreases steps
  {
    hide Ordered, Next;
    if steps != [] {
      NextKeeps(policy, a, steps[0]);
      EveryRunKeeps(policy, Next(policy, a, steps[0]), steps[1..], a');
    }
  }

  lemma {:induction false} StartsOrdered(a: App)
    requires Start(a)
    ensures Ordered(a)
  {
  }

  /** In every run, when the wrap-ups' flush sends anything, each intent enqueued before that flush began is recorded at the
      office or was lost when a page opened; and a report is sent only by a flush begun after the wrap-up was submitted, so
      that holds of everything done before the submit. */
  lemma {:induction false} WrapUpsFollowTheQueue(policy: Server.Policy, a0: App, steps: seq<Step>, a: App)
    requires Start(a0) && Run(policy, a0, steps, a)
    ensures |a.stamps| == |a.wraps.calls|
    ensures forall i :: 0 <= i < |a.stamps| ==> Covered(a, a.stamps[i])
    ensures forall i :: 0 <= i < |a.stamps| && a.wraps.calls[i].Report? ==>
              MarkedBy(a, {a.wraps.calls[i].entry.wrapUpId}, a.stamps[i])
    ensures a.wraps.flight.Some? ==> Covered(a, a.since)
  {
    hide Run, InSight, Covered, MarkedBy;
    StartsOrdered(a0);
    EveryRunKeeps(policy, a0, steps, a);
    forall i: nat | i < |a.stamps|
      ensures Covered(a, a.stamps[i])
      ensures a.wraps.calls[i].Report? ==> MarkedBy(a, {a.wraps.calls[i].entry.wrapUpId}, a.stamps[i])
    {
      assert CallOk(a, a.wraps.calls[i], a.stamps[i]);
    }
  }
}
