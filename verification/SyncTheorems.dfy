/** What holds after every run of queue, link and server, for every resolver that knows a duplicate when it sees one. */
module SyncTheorems {
  import opened Common
  import opened JobStates
  import opened SyncWire
  import opened Replay
  import opened OfflineQueue
  import opened SyncProtocol
  import opened SyncRuns

  lemma {:induction false} RunKeepsStart(policy: Policy, w: World, steps: seq<Step>, w': World)
    requires Run(policy, w, steps, w')
    ensures w'.jobs0 == w.jobs0 && w'.dev.deviceId == w.dev.deviceId
    decreases steps
  {
    if steps != [] {
      RunKeepsStart(policy, Next(policy, w, steps[0]), steps[1..], w');
    }
  }

  lemma {:induction false} Reached(policy: Policy, w0: World, steps: seq<Step>, w: World)
    requires KnowsDuplicates(policy) && Start(w0) && Run(policy, w0, steps, w)
    ensures Inv(w)
  {
    StartsOk(w0);
    EveryRunKeeps(policy, w0, steps, w);
  }

  /** Each mutation id changes job rows at most once: the rows are the first ones with the events replayed over
      them, no id is behind two events, and an id behind one is recorded. */
  lemma {:induction false} EachIntentLandsAtMostOnce(policy: Policy, w0: World, steps: seq<Step>, w: World)
    requires KnowsDuplicates(policy) && Start(w0) && Run(policy, w0, steps, w)
    ensures w.srv.jobs == Replaying(w0.srv.jobs, w.events)
    ensures forall i, j :: 0 <= i < j < |w.events| && w.events[i].ByMutation? && w.events[j].ByMutation?
              ==> w.events[i].write.mutationId != w.events[j].write.mutationId
    ensures forall i :: 0 <= i < |w.events| && w.events[i].ByMutation? ==> w.events[i].write.mutationId in w.srv.replayed
  {
    Reached(policy, w0, steps, w);
    RunKeepsStart(policy, w0, steps, w);
  }

  lemma {:induction false} PendingIsTheTail(w: World, i: nat)
    requires LogOk(w) && QueueOk(w) && i < |w.log|
    ensures w.log[i] in w.dev.pending <==> i >= |w.heard|
  {
    var h := |w.heard|;
    if i >= h {
      assert w.dev.pending[i - h] == w.log[i];
    } else {
      forall j | 0 <= j < |w.dev.pending| ensures w.dev.pending[j] != w.log[i] {
        assert w.dev.pending[j] == w.log[h + j];
      }
    }
  }

  /** The server has recorded exactly a prefix of what was ever enqueued, and what left the queue is within it. */
  lemma {:induction false} RecordedIsAPrefix(policy: Policy, w0: World, steps: seq<Step>, w: World)
    requires KnowsDuplicates(policy) && Start(w0) && Run(policy, w0, steps, w)
    ensures |w.decisions| <= |w.log|
    ensures forall i :: 0 <= i < |w.log| ==> (w.log[i].mutation.mutationId in w.srv.replayed <==> i < |w.decisions|)
    ensures forall e :: e in w.log && e !in w.dev.pending ==> e.mutation.mutationId in w.srv.replayed
    ensures w.dev.pending == [] ==> forall e :: e in w.log ==> e.mutation.mutationId in w.srv.replayed
  {
    Reached(policy, w0, steps, w);
    forall e | e in w.log && e !in w.dev.pending ensures e.mutation.mutationId in w.srv.replayed {
      var i :| 0 <= i < |w.log| && w.log[i] == e;
      PendingIsTheTail(w, i);
    }
  }

  /** The queue is in strict device order under distinct ids, is what storage holds, has the batch under way as its
      front, and everything sent so far reaches the server in the order it was made. */
  lemma {:induction false} QueueStaysInOrder(policy: Policy, w0: World, steps: seq<Step>, w: World)
    requires KnowsDuplicates(policy) && Start(w0) && Run(policy, w0, steps, w)
    ensures forall i, j :: 0 <= i < j < |w.dev.pending| ==>
              && w.dev.pending[i].mutation.deviceSeq < w.dev.pending[j].mutation.deviceSeq
              && w.dev.pending[i].mutation.mutationId != w.dev.pending[j].mutation.mutationId
    ensures w.dev.keptPending == w.dev.pending && w.dev.keptAttention == w.dev.attention
    ensures w.dev.flight.Some? ==> w.dev.flight.value <= w.dev.pending
    ensures forall r :: r in w.requests ==> SortBySeq(Mutations(r.batch)) == Mutations(r.batch)
  {
    Reached(policy, w0, steps, w);
    forall i, j | 0 <= i < j < |w.dev.pending|
      ensures w.dev.pending[i].mutation.mutationId != w.dev.pending[j].mutation.mutationId
    {
      assert w.dev.pending[i] == w.log[|w.heard| + i] && w.dev.pending[j] == w.log[|w.heard| + j];
    }
    forall r | r in w.requests ensures SortBySeq(Mutations(r.batch)) == Mutations(r.batch) {
      SentInOrder(w, r);
    }
  }

  // ---- where an intent can be ----

  lemma {:induction false} SurfacedHas(es: seq<Entry>, hs: seq<Outcome>, gone: set<Id>, i: nat)
    requires |es| == |hs| && i < |es| && hs[i].Declined? && es[i].mutation.mutationId !in gone
    ensures Flag(es[i], hs[i].kind, hs[i].note) in Surfaced(es, hs, gone)
  {
    var n := |es| - 1;
    if i < n {
      SurfacedHas(es[..n], hs[..n], gone, i);
    }
  }

  lemma {:induction false} SurfacedOnly(es: seq<Entry>, hs: seq<Outcome>, gone: set<Id>, a: Attention)
    requires |es| == |hs| && a in Surfaced(es, hs, gone)
    ensures exists i :: 0 <= i < |es| && hs[i].Declined? && a == Flag(es[i], hs[i].kind, hs[i].note)
                        && es[i].mutation.mutationId !in gone
  {
    var n := |es| - 1;
    if a in Surfaced(es[..n], hs[..n], gone) {
      SurfacedOnly(es[..n], hs[..n], gone, a);
      var i :| 0 <= i < n && hs[..n][i].Declined? && a == Flag(es[..n][i], hs[..n][i].kind, hs[..n][i].note)
               && es[..n][i].mutation.mutationId !in gone;
      assert es[i] == es[..n][i] && hs[i] == hs[..n][i];
    } else {
      assert a == Flag(es[n], hs[n].kind, hs[n].note);
    }
  }

  ghost predicate Noted(w: World, id: Id) {
    exists a :: a in w.dev.attention && a.mutationId == id
  }

  /** Nothing enqueued is ever lost: intent `i` is pending and unnoted; or answered applied or duplicate and
      unnoted; or answered otherwise, and then it is shown until it is dismissed. Exactly one of these. */
  lemma {:induction false} EveryIntentIsAccountedFor(policy: Policy, w0: World, steps: seq<Step>, w: World, i: nat)
    requires KnowsDuplicates(policy) && Start(w0) && Run(policy, w0, steps, w) && i < |w.log|
    ensures w.log[i] in w.dev.pending <==> i >= |w.heard|
    ensures i >= |w.heard| ==> !Noted(w, w.log[i].mutation.mutationId)
    ensures i < |w.heard| && !w.heard[i].Declined? ==> !Noted(w, w.log[i].mutation.mutationId)
    ensures i < |w.heard| && w.heard[i].Declined? ==>
              (w.log[i].mutation.mutationId !in w.dismissed <==> Noted(w, w.log[i].mutation.mutationId))
    ensures i < |w.heard| && w.heard[i].Declined? && w.log[i].mutation.mutationId !in w.dismissed ==>
              Flag(w.log[i], w.heard[i].kind, w.heard[i].note) in w.dev.attention
  {
    Reached(policy, w0, steps, w);
    var h, id := |w.heard|, w.log[i].mutation.mutationId;
    PendingIsTheTail(w, i);
    NotesNameDeclined(w, id);
    if i < h && w.heard[i].Declined? && id !in w.dismissed {
      SurfacedHas(w.log[..h], w.heard, w.dismissed, i);
    }
  }

  lemma {:induction false} NotesNameDeclined(w: World, id: Id)
    requires LogOk(w) && NotesOk(w)
    ensures Noted(w, id) ==>
              && id !in w.dismissed
              && forall i :: 0 <= i < |w.log| && w.log[i].mutation.mutationId == id ==> i < |w.heard| && w.heard[i].Declined?
  {
    if Noted(w, id) {
      var a :| a in w.dev.attention && a.mutationId == id;
      SurfacedOnly(w.log[..|w.heard|], w.heard, w.dismissed, a);
      var i :| 0 <= i < |w.heard| && w.heard[i].Declined? && w.log[..|w.heard|][i].mutation.mutationId == id
               && id !in w.dismissed;
      assert w.log[i].mutation.mutationId == id;
    }
  }

  /** A mutation the server declined is shown, undismissed, exactly when the answer the device took for it is the
      one that decided it and not a later "duplicate" - and then it is shown in the server's own terms. */
  lemma {:induction false} DeclinedIsShownIffItsAnswerArrived(policy: Policy, w0: World, steps: seq<Step>, w: World, i: nat)
    requires KnowsDuplicates(policy) && Start(w0) && Run(policy, w0, steps, w)
    requires i < |w.heard| && i < |w.decisions| && i < |w.log| && w.decisions[i].Declined?
    requires w.log[i].mutation.mutationId !in w.dismissed
    ensures Noted(w, w.log[i].mutation.mutationId) <==> w.heard[i] != Duplicate
    ensures w.heard[i] != Duplicate ==> Flag(w.log[i], w.decisions[i].kind, w.decisions[i].note) in w.dev.attention
  {
    Reached(policy, w0, steps, w);
    EveryIntentIsAccountedFor(policy, w0, steps, w, i);
  }

  // ---- the answer that never came ----

  /** Sending the whole queue and having it delivered leaves every intent ever made decided. */
  lemma {:induction false} SentThenDelivered(policy: Policy, w: World)
    requires KnowsDuplicates(policy) && Inv(w) && CanFlush(w.dev)
    ensures var w' := Delivered(policy, Sent(w), |w.requests|);
      && Inv(w') && w'.log == w.log && w'.dismissed == w.dismissed
      && w'.dev == w.dev.(flight := Some(w.dev.pending))
      && w.decisions <= w'.decisions && |w'.decisions| == |w.log|
      && w'.awaiting == |w.requests| && |w'.requests| == |w.requests| + 1
      && w'.responses == w.responses + [Response(|w.requests|, Answers(policy, w.srv, Mutations(w.dev.pending)))]
  {
    var w1, n := Sent(w), |w.requests|;
    SendKeeps(w);
    DeliverKeeps(policy, w1, n);
    assert w1.requests[n] in w1.requests;
    SentInOrder(w1, w1.requests[n]);
    var w' := Delivered(policy, w1, n);
    assert ResponseOk(w', w'.responses[|w.responses|]);
  }

  lemma {:induction false} ReceivedAll(w: World, n: nat)
    requires Inv(w) && Can(w, Receive(n)) && w.dev.flight == Some(w.dev.pending)
    ensures |w.responses[n].answers| == |w.dev.pending|
    ensures var w' := Received(w, n);
      && w'.log == w.log && w'.decisions == w.decisions && w'.dev.pending == []
      && w'.dev.attention == w.dev.attention + Surfaced(w.dev.pending, Outcomes(w.responses[n].answers), w.dismissed)
      && forall e :: e in w'.log ==> e.mutation.mutationId in w'.srv.replayed
  {
    ReceiveSettles(w, n);
    AnswerIsToFlight(w, n);
    assert w.dev.pending[|w.dev.pending|..] == [];
  }

  lemma {:induction false} RunOfThree(policy: Policy, w: World, a: Step, b: Step, c: Step)
    requires Can(w, a) && Can(Next(policy, w, a), b) && Can(Next(policy, Next(policy, w, a), b), c)
    ensures Run(policy, w, [a, b, c], Next(policy, Next(policy, Next(policy, w, a), b), c))
  {
    var w1 := Next(policy, w, a);
    var w2 := Next(policy, w1, b);
    assert [a, b, c][1..] == [b, c] && [b, c][1..] == [c] && [c][1..] == [];
    assert Run(policy, w2, [c], Next(policy, w2, c));
    assert Run(policy, w1, [b, c], Next(policy, w2, c));
  }

  /** One exchange in which nothing is lost empties the queue, from any state any run can reach. */
  lemma {:induction false} OneCleanExchangeDrains(policy: Policy, w0: World, steps: seq<Step>, w: World) returns (w': World)
    requires KnowsDuplicates(policy) && Start(w0) && Run(policy, w0, steps, w) && CanFlush(w.dev)
    ensures Run(policy, w, [Send, Deliver(|w.requests|), Receive(|w.responses|)], w')
    ensures w'.log == w.log && w'.dev.pending == []
    ensures forall e :: e in w'.log ==> e.mutation.mutationId in w'.srv.replayed
  {
    Reached(policy, w0, steps, w);
    SentThenDelivered(policy, w);
    var w2 := Delivered(policy, Sent(w), |w.requests|);
    ReceivedAll(w2, |w.responses|);
    RunOfThree(policy, w, Send, Deliver(|w.requests|), Receive(|w.responses|));
    w' := Received(w2, |w.responses|);
  }

  lemma {:induction false} NothingSurfaces(es: seq<Entry>, hs: seq<Outcome>, gone: set<Id>)
    requires |es| == |hs| && forall i :: 0 <= i < |hs| ==> hs[i] == Duplicate
    ensures Surfaced(es, hs, gone) == []
  {
    if es != [] {
      NothingSurfaces(es[..|es| - 1], hs[..|hs| - 1], gone);
    }
  }

  /** Everything pending sent and decided, the answer lost, the page still holding it all. */
  ghost function AnswerLost(policy: Policy, w: World): World
    requires CanFlush(w.dev)
  {
    var w' := Delivered(policy, Sent(w), |w.requests|);
    w'.(dev := Unreached(w'.dev))
  }

  lemma {:induction false} GivenUp(w: World, d: Device)
    requires Inv(w) && d.flight.None? && w.dev == d.(flight := Some(d.pending))
    ensures Inv(w.(dev := Unreached(w.dev))) && Unreached(w.dev) == d
  {
    WireGrows(w, w.(dev := Unreached(w.dev)));
  }

  lemma {:induction false} AnswerLostKeeps(policy: Policy, w: World)
    requires KnowsDuplicates(policy) && Inv(w) && CanFlush(w.dev)
    ensures Inv(AnswerLost(policy, w))
    ensures var w' := AnswerLost(policy, w);
      && w'.dev == w.dev && w'.log == w.log && |w'.decisions| == |w.log|
      && |w'.requests| == |w.requests| + 1 && |w'.responses| == |w.responses| + 1
  {
    SentThenDelivered(policy, w);
    GivenUp(Delivered(policy, Sent(w), |w.requests|), w.dev);
  }

  lemma {:induction false} RetryIsAllDuplicates(policy: Policy, w: World, answers: seq<Answer>)
    requires KnowsDuplicates(policy) && LogOk(w) && QueueOk(w) && |w.decisions| == |w.log|
    requires answers == Answers(policy, w.srv, Mutations(w.dev.pending))
    ensures |answers| == |w.dev.pending| && forall i :: 0 <= i < |answers| ==> Outcomes(answers)[i] == Duplicate
  {
    ReplaySlice(policy, w.srv, w.log, |w.log|, |w.heard|, |w.log|);
    assert w.log[|w.heard|..] == w.log[|w.heard|..|w.log|];
  }

  /** A batch the server had already decided is answered with duplicates alone. */
  lemma {:induction false} RetrySurfacesNothing(policy: Policy, w: World)
    requires KnowsDuplicates(policy) && Inv(w) && CanFlush(w.dev) && |w.decisions| == |w.log|
    ensures var w2 := Delivered(policy, Sent(w), |w.requests|);
      && Inv(w2) && Can(w2, Receive(|w.responses|))
      && var w3 := Received(w2, |w.responses|);
         w3.dev.pending == [] && w3.dev.attention == w.dev.attention && w3.log == w.log && w.decisions <= w3.decisions
  {
    SentThenDelivered(policy, w);
    var answers := Answers(policy, w.srv, Mutations(w.dev.pending));
    RetryIsAllDuplicates(policy, w, answers);
    NothingSurfaces(w.dev.pending, Outcomes(answers), w.dismissed);
    ReceivedAll(Delivered(policy, Sent(w), |w.requests|), |w.responses|);
  }

  lemma {:induction false} RunsChain(policy: Policy, w: World, ss: seq<Step>, w': World, ts: seq<Step>, w'': World)
    requires Run(policy, w, ss, w') && Run(policy, w', ts, w'')
    ensures Run(policy, w, ss + ts, w'')
    decreases ss
  {
    if ss == [] {
      assert ss + ts == ts;
    } else {
      RunsChain(policy, Next(policy, w, ss[0]), ss[1..], w', ts, w'');
      assert (ss + ts)[1..] == ss[1..] + ts;
    }
  }

  /** The queue's promise that everything not applied is read by a person fails when an answer is lost: the retry
      empties the queue and surfaces none of what the server declined the first time. */
  lemma {:induction false} LostAnswerHidesDecisions(policy: Policy, w: World) returns (steps: seq<Step>, w': World)
    requires KnowsDuplicates(policy) && Inv(w) && CanFlush(w.dev)
    ensures Run(policy, w, steps, w')
    ensures w'.dev.pending == [] && w'.dev.attention == w.dev.attention && w'.log == w.log
    ensures AnswerLost(policy, w).decisions <= w'.decisions
  {
    var n, p := |w.requests|, |w.responses|;
    AnswerLostKeeps(policy, w);
    SentThenDelivered(policy, w);
    RunOfThree(policy, w, Send, Deliver(n), GiveUp);
    var lost := AnswerLost(policy, w);
    RetrySurfacesNothing(policy, lost);
    RunOfThree(policy, lost, Send, Deliver(n + 1), Receive(p + 1));
    w' := Received(Delivered(policy, Sent(lost), n + 1), p + 1);
    steps := [Send, Deliver(n), GiveUp] + [Send, Deliver(n + 1), Receive(p + 1)];
    RunsChain(policy, w, [Send, Deliver(n), GiveUp], lost, [Send, Deliver(n + 1), Receive(p + 1)], w');
  }

  /** One such run: a move for a job this crew was never sent to, rejected, and no one is told. */
  lemma {:induction false} ARejectionNoOneSees(policy: Policy, w0: World) returns (steps: seq<Step>, w: World)
    requires KnowsDuplicates(policy) && Start(w0) && w0.srv == Server({}, map[])
    ensures Run(policy, w0, steps, w)
    ensures |w.log| == 1 && w.dev.pending == [] && w.dev.attention == []
    ensures |w.decisions| >= 1 && w.decisions[0] == Declined(Rejected, NotThisCrewsJob)
  {
    StartsOk(w0);
    var move := Intent(Jobs, 7, Transition, Payload(Some(EnRoute), None, None, None, map[]), Some(1));
    var first := Enqueue(1, move, 0);
    EnqueueKeeps(policy, w0, first);
    var w1 := Next(policy, w0, first);
    assert [first][1..] == [];
    assert Run(policy, w1, [], w1);
    var m := w1.log[0].mutation;
    assert w1.dev.pending == [w1.log[0]] && Mutations(w1.dev.pending) == [m];
    assert SortBySeq([m]) == [m] by { assert [m][1..] == []; }
    assert AnswerLost(policy, w1).decisions[0] == Decide(policy, w1.srv, m);
    steps, w := LostAnswerHidesDecisions(policy, w1);
    RunsChain(policy, w0, [first], w1, steps, w);
    steps := [first] + steps;
  }
}
