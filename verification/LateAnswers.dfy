/** One run in which a late answer loses an intent, and a wrap-up goes out without it; and one in which a late save loses a
    wrap-up. */
module LateAnswers {
  import opened Common
  import opened Tick
  import opened Flushes
  import Order = FlushOrder
  import Former = WrapUpSessions
  import Q = OfflineQueue
  import U = WrapUps
  import S = SyncProtocol
  import SR = SyncRuns
  import W = WrapUpProtocol
  import Server = Replay
  import Wire = SyncWire
  import States = JobStates

  lemma {:induction false} RunsChain(policy: Server.Policy, a: App, ss: seq<Step>, a': App, ts: seq<Step>, a'': App)
    requires Run(policy, a, ss, a') && Run(policy, a', ts, a'')
    ensures Run(policy, a, ss + ts, a'')
    decreases ss
  {
    hide Can, Next;
    if ss == [] {
      assert ss + ts == ts;
    } else {
      RunsChain(policy, Next(policy, a, ss[0]), ss[1..], a', ts, a'');
      assert (ss + ts)[1..] == ss[1..] + ts;
    }
  }

  lemma {:induction false} OneStep(policy: Server.Policy, a: App, s: Step)
    requires Can(a, s)
    ensures Run(policy, a, [s], Next(policy, a, s))
  {
    hide Can, Next;
    assert [s][1..] == [] && Run(policy, Next(policy, a, s), [], Next(policy, a, s));
  }

  // ---- a wrap-up waiting ----

  predicate OnScreen(turn: W.Step) {
    turn.AddShot? || turn.OpDone? || turn.EditText? || turn.Submit?
  }

  lemma {:induction false} WrapsRun(policy: Server.Policy, a: App, turns: seq<W.Step>, w: W.World) returns (steps: seq<Step>, a': App)
    requires W.Run(a.wraps, turns, w) && (forall t :: t in turns ==> OnScreen(t))
    ensures Run(policy, a, steps, a') && a' == a.(wraps := w, marks := a'.marks)
    decreases turns
  {
    hide S.Next;
    if turns == [] {
      steps, a' := [], a;
    } else {
      var b := TurnOn(policy, a, turns[0]);
      var rest;
      rest, a' := WrapsRun(policy, b, turns[1..], w);
      OneStep(policy, a, Wraps(turns[0]));
      steps := [Wraps(turns[0])] + rest;
      RunsChain(policy, a, [Wraps(turns[0])], b, rest, a');
    }
  }

  lemma {:induction false} TurnOn(policy: Server.Policy, a: App, turn: W.Step) returns (b: App)
    requires W.Can(a.wraps, turn) && OnScreen(turn)
    ensures Can(a, Wraps(turn)) && b == Next(policy, a, Wraps(turn))
    ensures b == a.(wraps := W.Next(a.wraps, turn), marks := b.marks)
  {
    hide S.Next, U.DraftFor, U.Ready, W.Given;
    b := Next(policy, a, Wraps(turn));
  }

  const TYPED: W.Step := W.EditText(0, U.Completed, "", U.UNMEASURED, true, "gone")

  const TURNS: seq<W.Step> := [W.AddShot(0, U.Photo, 1, 0, 0), W.OpDone(0), W.AddShot(0, U.Photo, 2, 0, 0), W.OpDone(0),
                               TYPED, W.Submit(0, 3, 0)]

  /** What a photo taken leaves alone. */
  ghost predicate Same(w: W.World, w': W.World) {
    && w'.page.outbox == w.page.outbox && w'.office == w.office && w'.submitted == w.submitted
    && w'.superseded == w.superseded && w'.reopened == w.reopened
  }

  lemma {:induction false} Photographed(w: W.World, id: Id) returns (w1: W.World, w2: W.World)
    requires w.ops == [] && w.flight.None? && id !in w.minted
    ensures w1 == W.Next(w, W.AddShot(0, U.Photo, id, 0, 0)) && W.Can(w1, W.OpDone(0)) && w2 == W.Next(w1, W.OpDone(0))
    ensures w2.ops == [] && w2.flight.None? && w2.minted == w.minted + {id}
    ensures U.DraftFor(w2.page, 0) == U.WithPhoto(U.DraftFor(w.page, 0), U.Shot(id, 0)) && Same(w, w2)
  {
    w1 := W.Next(w, W.AddShot(0, U.Photo, id, 0, 0));
    w2 := W.Next(w1, W.OpDone(0));
    assert W.WithoutOp(w1.ops, 0) == [];
  }

  lemma {:induction false} TypedAndSubmitted(w: W.World) returns (w1: W.World, w2: W.World)
    requires w.ops == [] && w.flight.None? && 3 !in w.minted && |U.DraftFor(w.page, 0).photos| == 2
    ensures w1 == W.Next(w, TYPED) && W.Can(w1, W.Submit(0, 3, 0)) && w2 == W.Next(w1, W.Submit(0, 3, 0))
    ensures w2.ops == [] && w2.flight.None? && U.Waiting(w2.page.keptOutbox) != []
    ensures w.page.outbox == [] ==> OnlyThree(w, w2)
  {
    w1 := W.Next(w, TYPED);
    Reason();
    var d := U.DraftFor(w1.page, 0);
    assert d.photos == U.DraftFor(w.page, 0).photos && d.absentReason == "gone" && d.absent && U.Ready(d);
    w2 := W.Next(w1, W.Submit(0, 3, 0));
    var e := U.EntryOf(d, 0, 3, 0);
    assert w2.page.keptOutbox == U.NotOfJob(w1.page.outbox, 0) + [e];
    assert e in w2.page.keptOutbox && e in U.Waiting(w2.page.keptOutbox);
  }

  /** Wrap-up 3 is submitted, and is all there is in the outbox. */
  ghost predicate OnlyThree(w: W.World, w': W.World) {
    && w'.submitted == w.submitted + {3} && W.WrapUpIds(w'.page.outbox) == {3}
    && w'.office == w.office && w'.superseded == w.superseded && w'.reopened == w.reopened
  }

  /** Two photos, a reason for no signature, and submit. */
  lemma {:induction false} SubmitsOne(w0: W.World) returns (w: W.World)
    requires w0.ops == [] && w0.flight.None? && {1, 2, 3} !! w0.minted && U.DraftFor(w0.page, 0).photos == []
    ensures W.Run(w0, TURNS, w) && w.flight.None? && w.ops == [] && U.Waiting(w.page.keptOutbox) != []
    ensures w0.page.outbox == [] ==> OnlyThree(w0, w)
  {
    hide W.Next;
    var w1, w2 := Photographed(w0, 1);
    var w3, w4 := Photographed(w2, 2);
    var w5, w6 := TypedAndSubmitted(w4);
    w := w6;
    SixTurns(w0, w1, w2, w3, w4, w5, w);
  }

  lemma {:induction false} Reason()
    ensures Trim("gone") == "gone" && |Trim("gone")| == 4
  {
  }

  lemma {:induction false} SixTurns(w0: W.World, w1: W.World, w2: W.World, w3: W.World, w4: W.World, w5: W.World, w: W.World)
    requires W.Can(w0, TURNS[0]) && w1 == W.Next(w0, TURNS[0]) && W.Can(w1, TURNS[1]) && w2 == W.Next(w1, TURNS[1])
    requires W.Can(w2, TURNS[2]) && w3 == W.Next(w2, TURNS[2]) && W.Can(w3, TURNS[3]) && w4 == W.Next(w3, TURNS[3])
    requires W.Can(w4, TURNS[4]) && w5 == W.Next(w4, TURNS[4]) && W.Can(w5, TURNS[5]) && w == W.Next(w5, TURNS[5])
    ensures W.Run(w0, TURNS, w)
  {
    hide W.Can, W.Next;
    assert W.Run(w, TURNS[6..], w);
    assert TURNS[5..][1..] == TURNS[6..] && W.Run(w5, TURNS[5..], w);
    assert TURNS[4..][1..] == TURNS[5..] && W.Run(w4, TURNS[4..], w);
    assert TURNS[3..][1..] == TURNS[4..] && W.Run(w3, TURNS[3..], w);
    assert TURNS[2..][1..] == TURNS[3..] && W.Run(w2, TURNS[2..], w);
    assert TURNS[1..][1..] == TURNS[2..] && W.Run(w1, TURNS[1..], w);
    assert TURNS[0] == TURNS[..][0] && TURNS[..][1..] == TURNS[1..];
  }

  // ---- an answer too late ----

  const MOVE := Q.Intent(Wire.Jobs, 7, Wire.Transition, Wire.Payload(Some(States.EnRoute), None, None, None, map[]), None)

  /** Nothing of the wrap-ups under way, and one waiting in storage. */
  ghost predicate Stored(w: W.World) {
    w.flight.None? && w.ops == [] && U.Waiting(w.page.keptOutbox) != []
  }

  /** Signed out, nothing enqueued or sent yet. */
  ghost predicate Prepared(a: App) {
    && S.Start(a.sync) && a.sync.srv.replayed == {} && !a.signedIn && a.queuePace == AT_ONCE && a.wrapsPace == AT_ONCE
    && a.formers == [] && a.lost == {} && Stored(a.wraps)
  }

  lemma {:induction false} StoredOpens(w: W.World)
    requires Stored(w)
    ensures W.Can(w, W.Reload) && Stored(W.Next(w, W.Reload))
    ensures W.Next(w, W.Reload).page.outbox == w.page.keptOutbox
  {
  }

  /** What is pending is stored, and the page has lost nothing. */
  ghost predicate AllStored(a: App) {
    && a.sync.dev.keptPending == a.sync.dev.pending && a.lost == {} && Stored(a.wraps)
    && forall e :: e in a.sync.dev.pending ==> e.mutation.deviceId == a.sync.dev.deviceId
  }

  /** Signing in on what is all stored brings it all back. */
  lemma {:induction false} SignsIn(policy: Server.Policy, a: App) returns (b: App)
    requires AllStored(a) && !a.signedIn
    ensures Can(a, SignIn) && b == Next(policy, a, SignIn) && AllStored(b) && b.signedIn
    ensures b.sync == a.sync.(dev := b.sync.dev) && b.sync.dev.deviceId == a.sync.dev.deviceId
    ensures b.sync.dev.pending == a.sync.dev.pending && b.sync.dev.flight.None?
    ensures b.formers == a.formers + if a.sync.dev.flight.Some? then [Former(a.sync.dev, a.sync.awaiting, a.byTick, |a.sync.log|)] else []
    ensures b.queuePace == a.queuePace && b.wrapsPace == a.wrapsPace
  {
    hide W.Next, Stored;
    StoredOpens(a.wraps);
    b := Next(policy, a, SignIn);
    assert Dropped(a.sync) == {};
  }

  lemma {:induction false} Enqueues(policy: Server.Policy, a: App, id: Id) returns (b: App)
    requires AllStored(a) && id !in S.Ids(a.sync.log) && id !in a.sync.srv.replayed
    ensures Can(a, Queue(S.Enqueue(id, MOVE, 0))) && b == Next(policy, a, Queue(S.Enqueue(id, MOVE, 0))) && AllStored(b)
    ensures b == a.(sync := a.sync.(dev := b.sync.dev, log := b.sync.log)) && b.sync.dev.flight == a.sync.dev.flight
    ensures b.sync.dev.deviceId == a.sync.dev.deviceId && |b.sync.log| == |a.sync.log| + 1
    ensures var e := b.sync.log[|a.sync.log|];
      && b.sync.log == a.sync.log + [e] && e.mutation.mutationId == id && e.mutation.deviceId == a.sync.dev.deviceId
      && b.sync.dev.pending == a.sync.dev.pending + [e]
  {
    hide Stored;
    b := Next(policy, a, Queue(S.Enqueue(id, MOVE, 0)));
  }

  lemma {:induction false} TickSends(policy: Server.Policy, a: App) returns (b: App)
    requires AllStored(a) && a.signedIn && Q.CanFlush(a.sync.dev) && a.queuePace == AT_ONCE
    ensures Can(a, Tick) && b == Next(policy, a, Tick) && AllStored(b) && b.byTick
    ensures b == a.(sync := S.Sent(a.sync), byTick := true)
  {
    hide Stored, W.NextEntry;
    b := Next(policy, a, Tick);
  }

  /** The first session makes an intent, and its tick sends it; the second makes another before the answer comes. */
  lemma {:induction false} TwoSessions(policy: Server.Policy, a: App) returns (steps: seq<Step>, b: App)
    requires Prepared(a)
    ensures Run(policy, a, steps, b) && AllStored(b) && b.signedIn && |b.sync.log| == 2 && b.sync.srv.replayed == {}
    ensures b.sync.log[0].mutation.mutationId == 1 && b.sync.log[1].mutation.mutationId == 2 && b.sync.dev.flight.None?
    ensures b.sync.dev.pending == b.sync.log && b.sync.requests == [S.Request([b.sync.log[0]], 0)] && b.sync.responses == []
    ensures |b.formers| == 1 && b.formers[0].dev.pending == [b.sync.log[0]] && b.formers[0].dev.flight == Some([b.sync.log[0]])
    ensures b.formers[0].awaiting == 0 && b.formers[0].byTick && b.sync.decisions == []
  {
    hide Next, Can, Run, Stored;
    var b1 := SignsIn(policy, a);
    var b2 := Enqueues(policy, b1, 1);
    var b3 := TickSends(policy, b2);
    assert Can(b3, SignOut) && Next(policy, b3, SignOut) == b3.(signedIn := false) by { SignsOut(policy, b3); }
    var b4 := Next(policy, b3, SignOut);
    var b5 := SignsIn(policy, b4);
    b := Enqueues(policy, b5, 2);
    assert b2.sync.log == [b.sync.log[0]] && b3.sync.requests == [] + [S.Request(b2.sync.log, 0)];
    steps := Chain(policy, [a, b1, b2, b3, b4, b5, b],
                   [SignIn, Queue(S.Enqueue(1, MOVE, 0)), Tick, SignOut, SignIn, Queue(S.Enqueue(2, MOVE, 0))]);
  }

  lemma {:induction false} SignsOut(policy: Server.Policy, a: App)
    requires a.signedIn
    ensures Can(a, SignOut) && Next(policy, a, SignOut) == a.(signedIn := false)
  {
  }

  /** States each one step on from the one before. */
  lemma {:induction false} Chain(policy: Server.Policy, states: seq<App>, steps: seq<Step>) returns (same: seq<Step>)
    requires |states| == |steps| + 1
    requires forall i :: 0 <= i < |steps| ==> Can(states[i], steps[i]) && states[i + 1] == Next(policy, states[i], steps[i])
    ensures same == steps && Run(policy, states[0], steps, states[|steps|])
    decreases steps
  {
    hide Can, Next;
    same := steps;
    if steps != [] {
      var _ := Chain(policy, states[1..], steps[1..]);
    }
  }

  lemma {:induction false} Delivers(policy: Server.Policy, a: App) returns (b: App)
    requires |a.sync.log| == 2 && a.sync.requests == [S.Request([a.sync.log[0]], 0)] && a.sync.responses == []
    requires a.sync.srv.replayed == {} && a.sync.log[0].mutation.mutationId == 1
    ensures Can(a, Queue(S.Deliver(0))) && b == Next(policy, a, Queue(S.Deliver(0)))
    ensures b.sync.srv.replayed == {1} && b == a.(sync := b.sync) && b.sync.log == a.sync.log && b.sync.dev == a.sync.dev
    ensures |b.sync.responses| == 1 && b.sync.responses[0].request == 0 && 1 in Q.ById(b.sync.responses[0].answers)
  {
    b := Next(policy, a, Queue(S.Deliver(0)));
    var ms := Q.Mutations([a.sync.log[0]]);
    assert ms == [a.sync.log[0].mutation] && ms[1..] == [] && Server.SortBySeq(ms) == ms;
    Server.RecordedIds(policy, a.sync.srv, ms);
    assert ms[0].mutationId == 1;
    var answers := Server.Answers(policy, a.sync.srv, ms);
    assert answers[0] in answers && answers[0].mutationId == 1;
  }

  /** The answer reaches the first session's queue: what it writes over storage does not have the second intent. */
  lemma {:induction false} WritesLate(policy: Server.Policy, a: App) returns (b: App)
    requires |a.sync.log| == 2 && |a.sync.responses| == 1 && a.sync.responses[0].request == 0
    requires a.sync.log[0].mutation.mutationId == 1 && 1 in Q.ById(a.sync.responses[0].answers)
    requires |a.formers| == 1 && a.formers[0].awaiting == 0
    requires a.formers[0].dev.pending == [a.sync.log[0]] && a.formers[0].dev.flight == Some([a.sync.log[0]])
    ensures Can(a, LateAnswered(0, 0)) && b == Next(policy, a, LateAnswered(0, 0))
    ensures b.sync == a.sync.(dev := b.sync.dev) && b.sync.dev.keptPending == []
    ensures b.sync.dev.pending == a.sync.dev.pending && b.sync.dev.deviceId == a.sync.dev.deviceId
    ensures b.lost == a.lost && b.wraps == a.wraps
  {
    hide Q.ById, Q.Flagged;
    var e, byId := a.sync.log[0], Q.ById(a.sync.responses[0].answers);
    assert [e][..0] == [] && [e][1..] == [] && Q.Unanswered([], byId) == [];
    assert Q.Unanswered([e], byId) == [];
    b := Next(policy, a, LateAnswered(0, 0));
  }

  /** The page opens again on what is stored, and finds nothing to send. */
  lemma {:induction false} OpensOnLess(policy: Server.Policy, a: App) returns (b: App)
    requires a.sync.dev.keptPending == [] && a.sync.dev.pending == a.sync.log && |a.sync.log| == 2 && Stored(a.wraps)
    requires a.sync.log[1].mutation.mutationId == 2 && 2 !in a.sync.srv.replayed
    ensures Can(a, Reload) && b == Next(policy, a, Reload)
    ensures b.sync == a.sync.(dev := b.sync.dev) && b.sync.dev.pending == b.sync.dev.keptPending == []
    ensures 2 in b.lost && !b.signedIn && b.wrapsPace == AT_ONCE && Stored(b.wraps)
  {
    hide W.Next, Stored;
    StoredOpens(a.wraps);
    b := Next(policy, a, Reload);
    assert a.sync.log[1] in a.sync.dev.pending && 2 in Dropped(a.sync);
  }

  lemma {:induction false} SignsInOnLess(policy: Server.Policy, a: App) returns (b: App)
    requires a.sync.dev.pending == a.sync.dev.keptPending == [] && !a.signedIn && Stored(a.wraps)
    ensures Can(a, SignIn) && b == Next(policy, a, SignIn)
    ensures b.sync == a.sync.(dev := b.sync.dev) && b.sync.dev.pending == b.sync.dev.keptPending == []
    ensures a.lost <= b.lost && b.signedIn && b.wrapsPace == a.wrapsPace && Stored(b.wraps)
    ensures b.wraps.page.outbox == a.wraps.page.keptOutbox == b.wraps.page.keptOutbox
  {
    hide W.Next, Stored, Dropped;
    StoredOpens(a.wraps);
    KeptOpens(a.wraps);
    b := Next(policy, a, SignIn);
  }

  lemma {:induction false} KeptOpens(w: W.World)
    ensures W.Can(w, W.Reload) && W.Next(w, W.Reload).page.keptOutbox == w.page.keptOutbox
  {
  }

  lemma {:induction false} TickSendsWraps(policy: Server.Policy, a: App) returns (b: App)
    requires a.signedIn && a.sync.dev.pending == [] && a.wrapsPace == AT_ONCE && Stored(a.wraps)
    requires a.wraps.page.outbox == a.wraps.page.keptOutbox
    ensures Can(a, Tick) && b == Next(policy, a, Tick) && b.wraps.flight.Some? && b.since == |a.sync.log| && b.sync == a.sync && b.lost == a.lost
  {
    Order.NextEntryGoesOn(a.wraps, U.Waiting(a.wraps.page.outbox));
    hide W.NextEntry;
    b := Next(policy, a, Tick);
  }

  /** A run that ends with a wrap-up on its way, nothing pending, and an intent made before that flush began with no one:
      not at the office, not on the page and not in storage. */
  lemma {:induction false} AnIntentIsLost(policy: Server.Policy, a0: App) returns (steps: seq<Step>, a: App)
    requires Start(a0) && a0.sync.srv.replayed == {} && a0.wraps.minted == {}
    ensures Run(policy, a0, steps, a)
    ensures a.wraps.flight.Some? && a.since == |a.sync.log| == 2 && a.sync.log[1].mutation.mutationId == 2
    ensures 2 !in a.sync.srv.replayed && 2 in a.lost && a.sync.dev.pending == a.sync.dev.keptPending == []
  {
    hide Next, Can, Run, W.Run, AllStored, Stored;
    var w := SubmitsOne(a0.wraps);
    var waiting, b0 := WrapsRun(policy, a0, TURNS, w);
    assert Prepared(b0) by { IsPrepared(a0, b0); }
    var begun, b1 := TwoSessions(policy, b0);
    assert Stored(b1.wraps) by { StoresWraps(b1); }
    var b2 := Delivers(policy, b1);
    var b3 := WritesLate(policy, b2);
    var b4 := OpensOnLess(policy, b3);
    var b5 := SignsInOnLess(policy, b4);
    a := TickSendsWraps(policy, b5);
    var ended := Chain(policy, [b1, b2, b3, b4, b5, a], [Queue(S.Deliver(0)), LateAnswered(0, 0), Reload, SignIn, Tick]);
    RunsChain(policy, b0, begun, b1, ended, a);
    RunsChain(policy, a0, waiting, b0, begun + ended, a);
    steps := waiting + (begun + ended);
  }

  lemma {:induction false} StoresWraps(a: App)
    requires AllStored(a)
    ensures Stored(a.wraps)
  {
  }

  lemma {:induction false} IsPrepared(a0: App, a: App)
    requires Start(a0) && a0.sync.srv.replayed == {} && a == a0.(wraps := a.wraps, marks := a.marks) && Stored(a.wraps)
    ensures Prepared(a)
  {
  }

  // ---- a save too late ----

  const PHOTO: W.Step := W.AddShot(9, U.Photo, 9, 0, 0)

  /** Drafts and outbox empty, nothing submitted. */
  ghost predicate Bare(w: W.World) {
    && w.page.drafts == w.page.keptDrafts == map[] && w.page.outbox == w.page.keptOutbox == []
    && w.flight.None? && w.submitted == w.superseded == w.reopened == {}
  }

  lemma {:induction false} BareOpens(w: W.World)
    requires Bare(w)
    ensures W.Can(w, W.Reload) && W.Next(w, W.Reload) == w.(ops := [])
  {
  }

  lemma {:induction false} SignsInBare(policy: Server.Policy, a: App) returns (b: App)
    requires Bare(a.wraps) && !a.signedIn
    ensures Can(a, SignIn) && b == Next(policy, a, SignIn) && b.wraps == a.wraps.(ops := []) && b.signedIn
    ensures b.formerWraps == a.formerWraps + if a.wraps.ops != [] then [LeftBehind(a)] else []
  {
    hide S.Next, W.Next, Dropped;
    BareOpens(a.wraps);
    b := Next(policy, a, SignIn);
  }

  lemma {:induction false} TakesPhoto(w: W.World)
    requires Bare(w) && w.ops == [] && w.minted == {}
    ensures W.Can(w, PHOTO) && Bare(W.Next(w, PHOTO)) && W.Next(w, PHOTO).minted == {9}
    ensures W.Next(w, PHOTO).ops == [W.Putting(9, U.Photo, U.Shot(9, 0), 0)] && W.Next(w, PHOTO).office == w.office
  {
  }

  /** The first session's photo is still on its way into the media store when the second begins. */
  lemma {:induction false} PhotoUnderWay(policy: Server.Policy, a0: App) returns (steps: seq<Step>, a: App)
    requires Start(a0) && a0.wraps.minted == {}
    ensures Run(policy, a0, steps, a) && Bare(a.wraps) && a.wraps.ops == [] && a.wraps.minted == {9}
    ensures a.wraps.office == a0.wraps.office && |a.formerWraps| == 1
    ensures var f := a.formerWraps[0];
      f.drafts == map[] && f.outbox == [] && f.ops == [W.Putting(9, U.Photo, U.Shot(9, 0), 0)]
  {
    hide Next, Can, Run, W.Can, W.Next;
    assert Bare(a0.wraps);
    var a1 := SignsInBare(policy, a0);
    TakesPhoto(a1.wraps);
    var a2 := TurnOn(policy, a1, PHOTO);
    SignsOut(policy, a2);
    var a3 := Next(policy, a2, SignOut);
    a := SignsInBare(policy, a3);
    steps := Chain(policy, [a0, a1, a2, a3, a], [SignIn, Wraps(PHOTO), SignOut, SignIn]);
  }

  /** And is in only once a wrap-up has been submitted there: what it saves does not have that wrap-up. */
  lemma {:induction false} PhotoSaved(policy: Server.Policy, a: App) returns (b: App)
    requires |a.formerWraps| == 1 && a.formerWraps[0].drafts == map[] && a.formerWraps[0].outbox == []
    requires a.formerWraps[0].ops == [W.Putting(9, U.Photo, U.Shot(9, 0), 0)]
    ensures Can(a, LateWraps(0, W.OpDone(0))) && b == Next(policy, a, LateWraps(0, W.OpDone(0)))
    ensures b.wraps.page.keptOutbox == [] && b.wraps.page.outbox == a.wraps.page.outbox && b.wraps.submitted == a.wraps.submitted
    ensures b.wraps.office == a.wraps.office && b.wraps.superseded == a.wraps.superseded && b.wraps.reopened == a.wraps.reopened
  {
    hide S.Next;
    b := Next(policy, a, LateWraps(0, W.OpDone(0)));
  }

  /** A run that ends with a wrap-up submitted, neither recorded nor replaced nor reopened, and no longer stored. */
  lemma {:induction false} AWrapUpIsLost(policy: Server.Policy, a0: App) returns (steps: seq<Step>, a: App)
    requires Start(a0) && a0.wraps.minted == {} && a0.wraps.office.wrapUps == {}
    ensures Run(policy, a0, steps, a)
    ensures 3 in a.wraps.submitted && !Former.Accounted(a.wraps, 3) && a.wraps.page.keptOutbox == []
  {
    hide Next, Can, Run, W.Run;
    var begun, b := PhotoUnderWay(policy, a0);
    var w := SubmitsOne(b.wraps);
    var more, c := WrapsRun(policy, b, TURNS, w);
    a := PhotoSaved(policy, c);
    assert Can(c, LateWraps(0, W.OpDone(0)));
    OneStep(policy, c, LateWraps(0, W.OpDone(0)));
    RunsChain(policy, b, more, c, [LateWraps(0, W.OpDone(0))], a);
    RunsChain(policy, a0, begun, b, more + [LateWraps(0, W.OpDone(0))], a);
    steps := begun + (more + [LateWraps(0, W.OpDone(0))]);
  }
}
