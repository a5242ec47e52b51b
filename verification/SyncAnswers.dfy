/** Which delivery's answer tells the technician: the first one to reach the server, and no other. */
module SyncAnswers {
  import opened Common
  import opened SyncWire
  import opened Replay
  import opened OfflineQueue
  import opened SyncProtocol
  import opened SyncRuns
  import opened SyncTheorems

  /** Delivery `k`, in the order they reached the server, was of a request with intent `i` in it. */
  ghost predicate Covers(w: World, k: nat, i: nat) {
    && k < |w.responses| && w.responses[k].request < |w.requests|
    && var r := w.requests[w.responses[k].request];
       r.from <= i < r.from + |r.batch|
  }

  ghost predicate CoveredBefore(w: World, n: nat, i: nat) {
    exists k: nat :: k < n && Covers(w, k, i)
  }

  /** What delivery `k` answered of intent `i`. */
  ghost function Said(w: World, k: nat, i: nat): Outcome
    requires Covers(w, k, i) && |w.responses[k].answers| == |w.requests[w.responses[k].request].batch|
  {
    w.responses[k].answers[i - w.requests[w.responses[k].request].from].outcome
  }

  ghost predicate AnswerTells(w: World, k: nat, i: nat)
    requires Covers(w, k, i)
  {
    && |w.responses[k].answers| == |w.requests[w.responses[k].request].batch|
    && i < |w.decisions| && Said(w, k, i) == if CoveredBefore(w, k, i) then Duplicate else w.decisions[i]
  }

  /** An intent is decided by the first delivery it is in; every later one answers it a duplicate. */
  ghost predicate Tells(w: World) {
    && (forall i: nat :: i < |w.decisions| <==> CoveredBefore(w, |w.responses|, i))
    && forall k: nat, i: nat :: Covers(w, k, i) ==> AnswerTells(w, k, i)
  }

  lemma {:induction false} CoversStays(w: World, w': World)
    requires w'.responses == w.responses && w.requests <= w'.requests
    requires forall p :: p in w.responses ==> p.request < |w.requests|
    ensures forall k: nat, i: nat :: Covers(w', k, i) <==> Covers(w, k, i)
    ensures forall n: nat, i: nat :: CoveredBefore(w', n, i) <==> CoveredBefore(w, n, i)
  {
    forall k: nat, i: nat ensures Covers(w', k, i) <==> Covers(w, k, i) {
      assert k < |w.responses| ==> w.responses[k] in w.responses;
    }
  }

  lemma {:induction false} TellsStays(w: World, w': World)
    requires Tells(w) && w'.responses == w.responses && w.requests <= w'.requests && w'.decisions == w.decisions
    requires forall p :: p in w.responses ==> p.request < |w.requests|
    ensures Tells(w')
  {
    CoversStays(w, w');
    forall k: nat, i: nat | Covers(w', k, i) ensures AnswerTells(w', k, i) {
      assert Covers(w, k, i) && AnswerTells(w, k, i);
    }
  }

  /** One more delivery: what was decided is repeated, and what was not is decided now. */
  lemma {:induction false} TellsOneMore(w: World, w': World, r: Request, p: Response)
    requires Tells(w) && w'.requests == w.requests && w'.responses == w.responses + [p]
    requires p.request < |w.requests| && w.requests[p.request] == r && |p.answers| == |r.batch| && r.from <= |w.decisions|
    requires forall q :: q in w.responses ==> q.request < |w.requests|
    requires w.decisions <= w'.decisions
    requires |w'.decisions| == if r.from + |r.batch| <= |w.decisions| then |w.decisions| else r.from + |r.batch|
    requires forall i: nat :: r.from <= i < r.from + |r.batch| ==>
      p.answers[i - r.from].outcome == if i < |w.decisions| then Duplicate else w'.decisions[i]
    ensures Tells(w')
  {
    var n := |w.responses|;
    forall k: nat, i: nat ensures Covers(w', k, i) <==> if k == n then r.from <= i < r.from + |r.batch| else Covers(w, k, i) {
      if k < n { assert w'.responses[k] == w.responses[k] && w.responses[k] in w.responses; }
    }
    forall m: nat, i: nat | m <= n ensures CoveredBefore(w', m, i) <==> CoveredBefore(w, m, i) {
    }
    var all := |w'.responses|;
    forall i: nat ensures i < |w'.decisions| <==> CoveredBefore(w', all, i) {
      assert i < |w.decisions| <==> CoveredBefore(w, n, i);
      if r.from <= i < r.from + |r.batch| {
        assert Covers(w', n, i);
      } else {
        assert CoveredBefore(w', all, i) <==> CoveredBefore(w', n, i);
      }
    }
    forall k: nat, i: nat | Covers(w', k, i) ensures AnswerTells(w', k, i) {
      assert i < |w.decisions| <==> CoveredBefore(w, n, i);
      if k < n {
        assert Covers(w, k, i) && AnswerTells(w, k, i);
      }
    }
  }

  lemma {:induction false} DeliverTells(policy: Policy, w: World, n: nat)
    requires KnowsDuplicates(policy) && LogOk(w) && WireOk(w) && Tells(w) && n < |w.requests|
    ensures Tells(Delivered(policy, w, n))
  {
    hide Tells, KnowsDuplicates, LogOk, NewDecisions;
    DeliveredIs(policy, w, n);
    var r, w' := w.requests[n], Delivered(policy, w, n);
    var answers := Answers(policy, w.srv, Mutations(r.batch));
    DeliverEffect(policy, w, r);
    NewDecisionsFit(w, r, answers);
    DecidedByThese(w, r, answers);
    assert forall q :: q in w.responses ==> ResponseOk(w, q);
    TellsOneMore(w, w', r, Response(n, answers));
  }

  lemma {:induction false} DecidedByThese(w: World, r: Request, answers: seq<Answer>)
    requires r.from <= |w.decisions| && |answers| == |r.batch|
    ensures var known := w.decisions + NewDecisions(w, r, answers);
      forall i :: |w.decisions| <= i < r.from + |r.batch| ==> i < |known| && known[i] == answers[i - r.from].outcome
  {
    var k := |w.decisions| - r.from;
    if k <= |answers| {
      assert NewDecisions(w, r, answers) == Outcomes(answers)[k..];
    }
  }

  lemma {:induction false} NextTells(policy: Policy, w: World, s: Step)
    requires KnowsDuplicates(policy) && LogOk(w) && WireOk(w) && Tells(w) && Can(w, s)
    ensures Tells(Next(policy, w, s))
  {
    hide Tells, KnowsDuplicates, LogOk, RequestOk;
    if s.Deliver? {
      DeliverTells(policy, w, s.request);
    } else {
      assert forall q :: q in w.responses ==> ResponseOk(w, q);
      TellsStays(w, Next(policy, w, s));
    }
  }

  lemma {:induction false} EveryRunTells(policy: Policy, w: World, steps: seq<Step>, w': World)
    requires KnowsDuplicates(policy) && Inv(w) && Tells(w) && Run(policy, w, steps, w')
    ensures Inv(w') && Tells(w')
    decreases steps
  {
    hide Tells, Next, Can, QueueOk, FlightOk, HeardOk, NotesOk, TraceOk, LogOk, WireOk;
    if steps != [] {
      NextTells(policy, w, steps[0]);
      NextKeeps(policy, w, steps[0]);
      EveryRunTells(policy, Next(policy, w, steps[0]), steps[1..], w');
    }
  }

  lemma {:induction false} StartsTelling(w: World)
    requires Start(w)
    ensures Tells(w)
  {
  }

  /** Over every run each delivery decides exactly the intents no earlier delivery had in it, and answers the rest as
      duplicates. */
  lemma {:induction false} FirstDeliveryDecides(policy: Policy, w0: World, steps: seq<Step>, w: World, k: nat, i: nat)
    requires KnowsDuplicates(policy) && Start(w0) && Run(policy, w0, steps, w) && Covers(w, k, i)
    ensures AnswerTells(w, k, i)
  {
    hide Inv, AnswerTells, Run;
    StartsOk(w0);
    StartsTelling(w0);
    EveryRunTells(policy, w0, steps, w);
  }

  lemma {:induction false} FlightIsCovered(w: World, n: nat, i: nat)
    requires Inv(w) && Can(w, Receive(n)) && |w.heard| <= i < |w.heard| + |w.dev.flight.value|
    ensures Covers(w, n, i) && i < |w.log| && i < |w.decisions| && |w.responses[n].answers| == |w.dev.flight.value|
    ensures w.log[i].mutation.mutationId !in w.dismissed
    ensures var w' := Received(w, n);
      i < |w'.heard| && w'.heard[i] == w.responses[n].answers[i - |w.heard|].outcome && w'.dismissed == w.dismissed
      && w'.log == w.log && w'.decisions == w.decisions && |w'.heard| == |w.heard| + |w.dev.flight.value|
  {
    hide LogOk, QueueOk, NotesOk, HeardOk, TraceOk, RequestOk;
    AnswerIsToFlight(w, n);
    ReceiveSettles(w, n);
    NotDismissed(w, i);
  }

  lemma {:induction false} NotDismissed(w: World, i: nat)
    requires LogOk(w) && NotesOk(w) && |w.heard| <= i < |w.log|
    ensures w.log[i].mutation.mutationId !in w.dismissed
  {
    NotAmongEarlier(w.log, |w.heard|, i);
  }

  /** When an answer arrives, a mutation the server declined is shown by it exactly when it is the answer to the first
      delivery that mutation was in; so if the batch reached the server before, and that answer never came back, no one is
      told. */
  lemma {:induction false} ShownIffFirstAnswerCameBack(policy: Policy, w0: World, steps: seq<Step>, w: World, n: nat, i: nat)
    requires KnowsDuplicates(policy) && Start(w0) && Run(policy, w0, steps, w) && Can(w, Receive(n))
    requires |w.heard| <= i < |w.heard| + |w.dev.flight.value|
    ensures Covers(w, n, i) && i < |w.decisions| && i < |w.log|
    ensures w.decisions[i].Declined? ==>
      (Noted(Received(w, n), w.log[i].mutation.mutationId) <==> !CoveredBefore(w, n, i))
  {
    hide Inv, Noted, Received, CoveredBefore, Start;
    Reached(policy, w0, steps, w);
    FlightIsCovered(w, n, i);
    FirstDeliveryDecides(policy, w0, steps, w, n, i);
    if w.decisions[i].Declined? {
      OneReceived(policy, w0, steps, w, n);
      assert w.responses[n].answers[i - |w.heard|].outcome == Said(w, n, i) by { FlightBegins(w, n); }
      DeclinedIsShownIffItsAnswerArrived(policy, w0, steps + [Receive(n)], Received(w, n), i);
    }
  }

  lemma {:induction false} FlightBegins(w: World, n: nat)
    requires Inv(w) && Can(w, Receive(n))
    ensures w.responses[n].request < |w.requests| && w.requests[w.responses[n].request].from == |w.heard|
  {
    hide LogOk, QueueOk, NotesOk, HeardOk, TraceOk, WireOk;
  }

  lemma {:induction false} OneReceived(policy: Policy, w0: World, steps: seq<Step>, w: World, n: nat)
    requires Run(policy, w0, steps, w) && Can(w, Receive(n))
    ensures Run(policy, w0, steps + [Receive(n)], Received(w, n))
  {
    assert [Receive(n)][1..] == [] && Run(policy, Received(w, n), [], Received(w, n));
    RunsChain(policy, w0, steps, w, [Receive(n)], Received(w, n));
  }
}
