/** Every step of the sync protocol keeps its invariant, and what that makes true of every run. */
module SyncRuns {
  import opened Common
  import opened SyncWire
  import opened Replay
  import opened OfflineQueue
  import opened SyncProtocol

  // ---- a slice of the log, replayed ----

  /** The server takes any stretch of the log that starts no later than its frontier: it repeats itself up to
      the frontier and moves the frontier to the end of the stretch. */
  lemma {:induction false} ReplaySlice(policy: Policy, s: Server, log: seq<Entry>, k: nat, a: nat, b: nat)
    requires KnowsDuplicates(policy) && DistinctEntries(log)
    requires a <= k <= |log| && a <= b <= |log|
    requires forall i :: 0 <= i < |log| ==> (log[i].mutation.mutationId in s.replayed <==> i < k)
    ensures forall i :: 0 <= i < |log| ==>
              (log[i].mutation.mutationId in After(policy, s, Mutations(log[a..b])).replayed <==> i < k || i < b)
    ensures forall i :: 0 <= i < k - a && i < b - a ==> Answers(policy, s, Mutations(log[a..b]))[i].outcome == Duplicate
    decreases b - a
  {
    if a < b {
      var ms := Mutations(log[a..b]);
      var m := log[a].mutation;
      assert ms[0] == m && ms[1..] == Mutations(log[a + 1..b]);
      var s' := Record(policy, s, m);
      ReplaySlice(policy, s', log, if k == a then a + 1 else k, a + 1, b);
      assert a < k ==> Decide(policy, s, m) == Duplicate;
      assert Answers(policy, s, ms) == [Answer(m.mutationId, Decide(policy, s, m))] + Answers(policy, s', ms[1..]);
    }
  }

  // ---- the device's reading of an answer ----

  lemma {:induction false} ByIdOf(answers: seq<Answer>, k: nat)
    requires k < |answers|
    requires forall i, j :: 0 <= i < j < |answers| ==> answers[i].mutationId != answers[j].mutationId
    ensures answers[k].mutationId in ById(answers) && ById(answers)[answers[k].mutationId] == answers[k].outcome
  {
    var n := |answers| - 1;
    if k < n {
      ByIdOf(answers[..n], k);
    }
  }

  /** An answer for every entry: nothing stays, every outcome is taken, and the notes are those the outcomes call for. */
  lemma {:induction false} AllAnswered(batch: seq<Entry>, byId: map<Id, Outcome>, outcomes: seq<Outcome>, dismissed: set<Id>)
    requires |batch| == |outcomes|
    requires forall i :: 0 <= i < |batch| ==>
               && batch[i].mutation.mutationId in byId
               && byId[batch[i].mutation.mutationId] == outcomes[i]
               && batch[i].mutation.mutationId !in dismissed
    ensures Unanswered(batch, byId) == []
    ensures Told(batch, byId) == outcomes
    ensures Flagged(batch, byId) == Surfaced(batch, outcomes, dismissed)
  {
    if batch != [] {
      var n := |batch| - 1;
      AllAnswered(batch[..n], byId, outcomes[..n], dismissed);
      assert outcomes == outcomes[..n] + [outcomes[n]];
    }
  }

  lemma {:induction false} SurfacedAppend(es: seq<Entry>, hs: seq<Outcome>, es': seq<Entry>, hs': seq<Outcome>, gone: set<Id>)
    requires |es| == |hs| && |es'| == |hs'|
    ensures Surfaced(es + es', hs + hs', gone) == Surfaced(es, hs, gone) + Surfaced(es', hs', gone)
  {
    if es' == [] {
      assert es + es' == es && hs + hs' == hs;
    } else {
      var n := |es'| - 1;
      SurfacedAppend(es, hs, es'[..n], hs'[..n], gone);
      assert (es + es')[..|es + es'| - 1] == es + es'[..n];
      assert (hs + hs')[..|hs + hs'| - 1] == hs + hs'[..n];
    }
  }

  lemma {:induction false} WithoutAppend(a: seq<Attention>, b: seq<Attention>, id: Id)
    ensures Without(a + b, id) == Without(a, id) + Without(b, id)
  {
    if a == [] {
      assert a + b == b;
    } else {
      WithoutAppend(a[1..], b, id);
      assert (a + b)[1..] == a[1..] + b && (a + b)[0] == a[0];
      AppendAssociates(if a[0].mutationId != id then [a[0]] else [], Without(a[1..], id), Without(b, id));
    }
  }

  lemma {:induction false} SurfacedWithout(es: seq<Entry>, hs: seq<Outcome>, gone: set<Id>, id: Id)
    requires |es| == |hs|
    ensures Without(Surfaced(es, hs, gone), id) == Surfaced(es, hs, gone + {id})
  {
    if es != [] {
      var n := |es| - 1;
      SurfacedWithout(es[..n], hs[..n], gone, id);
      var last := if hs[n].Declined? && es[n].mutation.mutationId !in gone
                  then [Flag(es[n], hs[n].kind, hs[n].note)] else [];
      WithoutAppend(Surfaced(es[..n], hs[..n], gone), last, id);
    }
  }

  lemma {:induction false} SurfacedIds(es: seq<Entry>, hs: seq<Outcome>, gone: set<Id>)
    requires |es| == |hs|
    ensures forall a :: a in Surfaced(es, hs, gone) ==> a.mutationId in Ids(es) && a.mutationId !in gone
  {
    if es != [] {
      var n := |es| - 1;
      SurfacedIds(es[..n], hs[..n], gone);
      assert es[n] in es && forall e :: e in es[..n] ==> e in es;
    }
  }

  // ---- the job rows ----

  lemma {:induction false} ReplayingAppend(jobs: map<Id, Job>, es: seq<Event>, ws: seq<Write>)
    ensures Replaying(jobs, es + AsEvents(ws)) == PerformAll(Replaying(jobs, es), ws)
    decreases ws
  {
    if ws == [] {
      assert es + AsEvents(ws) == es;
    } else {
      var es' := es + [ByMutation(ws[0])];
      ReplayingAppend(jobs, es', ws[1..]);
      assert es'[..|es'| - 1] == es;
      assert es + AsEvents(ws) == es' + AsEvents(ws[1..]);
    }
  }

  lemma {:induction false} WritesAreRecorded(policy: Policy, s: Server, ms: seq<Mutation>)
    ensures forall w :: w in Writes(policy, s, ms) ==> w.mutationId in After(policy, s, ms).replayed
    decreases ms
  {
    if ms != [] {
      var s' := Record(policy, s, ms[0]);
      WritesAreRecorded(policy, s', ms[1..]);
      RecordedIds(policy, s', ms[1..]);
    }
  }

  lemma {:induction false} ReplayKeepsTrace(policy: Policy, w: World, ms: seq<Mutation>)
    requires KnowsDuplicates(policy) && TraceOk(w)
    ensures TraceOk(Replayed(policy, w, ms))
  {
    hide Replaying, PerformAll, Writes, After;
    var ws := Writes(policy, w.srv, ms);
    EachIdWritesAtMostOnce(policy, w.srv, ms);
    WritesAreNew(policy, w.srv, ms);
    WritesAreRecorded(policy, w.srv, ms);
    RecordedIds(policy, w.srv, ms);
    ReplayingAppend(w.jobs0, w.events, ws);
    var w' := Replayed(policy, w, ms);
    forall i | 0 <= i < |w'.events| && w'.events[i].ByMutation?
      ensures w'.events[i].write.mutationId in w'.srv.replayed
    {
      if i >= |w.events| { assert ws[i - |w.events|] in ws; }
    }
    forall i, j | 0 <= i < j < |w'.events| && w'.events[i].ByMutation? && w'.events[j].ByMutation?
      ensures w'.events[i].write.mutationId != w'.events[j].write.mutationId
    {
      if j >= |w.events| { assert ws[j - |w.events|] in ws; }
    }
  }

  // ---- each step ----

  /** What was in order on the wire stays in order while the history only grows. */
  lemma {:induction false} WireGrows(w: World, w': World)
    requires WireOk(w)
    requires w.log <= w'.log && w.decisions <= w'.decisions && w.requests <= w'.requests
    ensures forall r :: r in w.requests ==> RequestOk(w', r)
    ensures forall p :: p in w.responses ==> ResponseOk(w', p)
  {
    forall r | r in w.requests ensures RequestOk(w', r) {
      assert RequestOk(w, r);
      assert w'.log[r.from..r.from + |r.batch|] == w.log[r.from..r.from + |r.batch|];
    }
    forall p | p in w.responses ensures ResponseOk(w', p) {
      assert ResponseOk(w, p);
    }
  }

  // Each part of the invariant reads only some of the world: where those are as they were, so is it.

  lemma {:induction false} LogStays(w: World, w': World)
    requires LogOk(w) && w'.log == w.log && w'.dev.deviceId == w.dev.deviceId && w.decisions <= w'.decisions
    requires |w'.heard| <= |w'.decisions| <= |w'.log|
    requires forall i :: 0 <= i < |w.log| ==> (w.log[i].mutation.mutationId in w'.srv.replayed <==> i < |w'.decisions|)
    ensures LogOk(w')
  {
  }

  lemma {:induction false} QueueStays(w: World, w': World)
    requires QueueOk(w) && w'.log == w.log && w'.heard == w.heard && w'.dev == w.dev
    ensures QueueOk(w')
  {
  }

  lemma {:induction false} FlightStays(w: World, w': World)
    requires FlightOk(w) && w'.dev == w.dev && w'.requests == w.requests && w'.awaiting == w.awaiting && w'.heard == w.heard
    ensures FlightOk(w')
  {
  }

  lemma {:induction false} WireStays(w: World, w': World)
    requires WireOk(w) && w'.requests == w.requests && w'.responses == w.responses
    requires w.log <= w'.log && w.decisions <= w'.decisions
    ensures WireOk(w')
  {
    hide RequestOk, ResponseOk;
    WireGrows(w, w');
  }

  lemma {:induction false} HeardStays(w: World, w': World)
    requires HeardOk(w) && w'.heard == w.heard && w.decisions <= w'.decisions
    ensures HeardOk(w')
  {
  }

  lemma {:induction false} NotesStay(w: World, w': World)
    requires NotesOk(w) && w'.log == w.log && w'.heard == w.heard && w'.dismissed == w.dismissed
    requires w'.dev.attention == w.dev.attention
    ensures NotesOk(w')
  {
  }

  lemma {:induction false} TraceStays(w: World, w': World)
    requires TraceOk(w) && w'.srv == w.srv && w'.jobs0 == w.jobs0 && w'.events == w.events
    ensures TraceOk(w')
  {
  }

  lemma {:induction false} NotAmongEarlier(log: seq<Entry>, h: nat, i: nat)
    requires h <= i < |log| && DistinctEntries(log)
    ensures log[i].mutation.mutationId !in Ids(log[..h])
  {
    forall e | e in log[..h] ensures e.mutation.mutationId != log[i].mutation.mutationId {
    }
  }

  lemma {:induction false} EnqueueKeeps(policy: Policy, w: World, s: Step)
    requires Inv(w) && s.Enqueue? && Can(w, s)
    ensures Inv(Next(policy, w, s))
  {
    hide Surfaced, Replaying;
    var w' := Next(policy, w, s);
    assert LogOk(w') by {
      forall i | 0 <= i < |w.log| ensures w.log[i].mutation.mutationId != s.id {
        assert w.log[i] in w.log;
      }
    }
    assert w'.log[|w.heard|..] == w.log[|w.heard|..] + [Minted(w.dev, s.id, s.intent, s.now)];
    assert NotesOk(w') by {
      assert w'.log[..|w.heard|] == w.log[..|w.heard|];
    }
    WireGrows(w, w');
  }

  lemma {:induction false} DismissKeeps(policy: Policy, w: World, s: Step)
    requires Inv(w) && s.Dismiss? && Can(w, s)
    ensures Inv(Next(policy, w, s))
  {
    var w' := Next(policy, w, s);
    var es := w.log[..|w.heard|];
    SurfacedWithout(es, w.heard, w.dismissed, s.id);
    SurfacedIds(es, w.heard, w.dismissed);
    WireGrows(w, w');
  }

  lemma {:induction false} SendKeeps(w: World)
    requires Inv(w)
    ensures Inv(Sent(w))
  {
    var w' := Sent(w);
    WireGrows(w, w');
    if CanFlush(w.dev) {
      assert w.log[|w.heard|..] == w.log[|w.heard|..|w.heard| + |w.dev.pending|];
      assert RequestOk(w', w'.requests[|w.requests|]);
    }
  }

  lemma {:induction false} GiveUpKeeps(policy: Policy, w: World)
    requires Inv(w) && w.dev.flight.Some?
    ensures Inv(Next(policy, w, GiveUp))
  {
    WireGrows(w, Next(policy, w, GiveUp));
  }

  /** A reload at any moment loses no intent and no note, and numbering goes on after the last pending one. */
  lemma {:induction false} ReloadKeeps(policy: Policy, w: World)
    requires Inv(w)
    ensures Inv(Next(policy, w, Reload))
    ensures Next(policy, w, Reload).dev.pending == w.dev.pending
    ensures Next(policy, w, Reload).dev.attention == w.dev.attention
    ensures Next(policy, w, Reload).dev.lastSeq <= w.dev.lastSeq
  {
    var w' := Next(policy, w, Reload);
    assert w'.dev.pending == w.dev.pending by {
      assert forall e :: e in w.dev.pending ==> e in w.log;
    }
    WireGrows(w, w');
  }

  lemma {:induction false} OfficeKeeps(policy: Policy, w: World, s: Step)
    requires Inv(w) && s.Office?
    ensures Inv(Next(policy, w, s))
  {
    hide LogOk, QueueOk, FlightOk, WireOk, HeardOk, NotesOk, TraceOk;
    var w' := Next(policy, w, s);
    LogSettled(w);
    LogStays(w, w');
    QueueStays(w, w');
    FlightStays(w, w');
    WireStays(w, w');
    HeardStays(w, w');
    NotesStay(w, w');
    OfficeTrace(w, s.entityId, s.job);
  }

  lemma {:induction false} LogSettled(w: World)
    requires LogOk(w)
    ensures |w.heard| <= |w.decisions| <= |w.log|
    ensures forall i :: 0 <= i < |w.log| ==> (w.log[i].mutation.mutationId in w.srv.replayed <==> i < |w.decisions|)
  {
  }

  lemma {:induction false} OfficeTrace(w: World, entityId: Id, job: Job)
    requires TraceOk(w)
    ensures TraceOk(w.(srv := w.srv.(jobs := w.srv.jobs[entityId := job]), events := w.events + [ByOffice(entityId, job)]))
  {
    var es := w.events + [ByOffice(entityId, job)];
    assert es[..|es| - 1] == w.events;
  }

  lemma {:induction false} OtherIdsStayOut(policy: Policy, s: Server, ms: seq<Mutation>, id: Id)
    requires forall m :: m in ms ==> m.mutationId != id
    ensures id in After(policy, s, SortBySeq(ms)).replayed <==> id in s.replayed
  {
    var sorted := SortBySeq(ms);
    SortSorts(ms);
    RecordedIds(policy, s, sorted);
    forall m | m in sorted ensures m.mutationId != id {
      assert m in multiset(sorted);
    }
  }

  lemma {:induction false} OtherDeviceKeeps(policy: Policy, w: World, s: Step)
    requires KnowsDuplicates(policy) && Inv(w) && s.OtherDevice? && Can(w, s)
    ensures Inv(Next(policy, w, s))
  {
    var w' := Next(policy, w, s);
    assert LogOk(w') by {
      forall i | 0 <= i < |w.log|
        ensures w.log[i].mutation.mutationId in w'.srv.replayed <==> w.log[i].mutation.mutationId in w.srv.replayed
      {
        assert w.log[i] in w.log;
        OtherIdsStayOut(policy, w.srv, s.ms, w.log[i].mutation.mutationId);
      }
    }
    ReplayKeepsTrace(policy, w, SortBySeq(s.ms));
    WireGrows(w, w');
  }

  /** Nothing the queue ever sends is reordered by the server. */
  lemma {:induction false} SentInOrder(w: World, r: Request)
    requires WireOk(w) && r in w.requests
    ensures SortBySeq(Mutations(r.batch)) == Mutations(r.batch)
  {
    assert RequestOk(w, r);
    SortIsIdentity(Mutations(r.batch));
  }

  /** The server takes a request exactly as the log has it, whenever and however often it arrives. */
  lemma {:induction false} DeliverEffect(policy: Policy, w: World, r: Request)
    requires KnowsDuplicates(policy) && LogOk(w) && RequestOk(w, r)
    ensures forall i :: 0 <= i < |w.log| ==>
              (w.log[i].mutation.mutationId in After(policy, w.srv, Mutations(r.batch)).replayed
               <==> i < |w.decisions| || i < r.from + |r.batch|)
    ensures forall i :: 0 <= i < |w.decisions| - r.from && i < |r.batch| ==>
              Answers(policy, w.srv, Mutations(r.batch))[i].outcome == Duplicate
  {
    ReplaySlice(policy, w.srv, w.log, |w.decisions|, r.from, r.from + |r.batch|);
  }

  /** The decisions grow by exactly the answers past the frontier, so an answer that is not a duplicate is a decision. */
  lemma {:induction false} NewDecisionsFit(w: World, r: Request, answers: seq<Answer>)
    requires r.from <= |w.decisions| && |answers| == |r.batch|
    requires forall i :: 0 <= i < |w.decisions| - r.from && i < |answers| ==> answers[i].outcome == Duplicate
    ensures var known := w.decisions + NewDecisions(w, r, answers);
      && |known| == (if r.from + |r.batch| <= |w.decisions| then |w.decisions| else r.from + |r.batch|)
      && forall i :: 0 <= i < |answers| ==> answers[i].outcome == Duplicate || answers[i].outcome == known[r.from + i]
  {
    var k := |w.decisions| - r.from;
    if k <= |answers| {
      var known := w.decisions + NewDecisions(w, r, answers);
      forall i | k <= i < |answers| ensures answers[i].outcome == known[r.from + i] {
        assert known[r.from + i] == Outcomes(answers)[k..][i - k];
      }
    }
  }

  lemma {:induction false} DeliverKeeps(policy: Policy, w: World, n: nat)
    requires KnowsDuplicates(policy) && Inv(w) && n < |w.requests|
    ensures Inv(Delivered(policy, w, n))
  {
    hide LogOk, QueueOk, FlightOk, WireOk, HeardOk, NotesOk, TraceOk, NewDecisions, DistinctEntries, Replayed;
    var w' := Delivered(policy, w, n);
    var r := w.requests[n];
    var ms := Mutations(r.batch);
    var answers := Answers(policy, w.srv, ms);
    DeliveredIs(policy, w, n);
    DeliverEffect(policy, w, r);
    NewDecisionsFit(w, r, answers);
    LogSettled(w);
    LogStays(w, w');
    QueueStays(w, w');
    FlightStays(w, w');
    HeardStays(w, w');
    NotesStay(w, w');
    ReplayKeepsTrace(policy, w, ms);
    TraceStays(Replayed(policy, w, ms), w');
    AnsweredWire(w, w', r, Response(n, answers));
  }

  lemma {:induction false} DeliveredIs(policy: Policy, w: World, n: nat)
    requires WireOk(w) && n < |w.requests|
    ensures RequestOk(w, w.requests[n])
    ensures var r := w.requests[n];
      var answers := Answers(policy, w.srv, Mutations(r.batch));
      Delivered(policy, w, n)
      == Replayed(policy, w, Mutations(r.batch)).(responses := w.responses + [Response(n, answers)],
                                                  decisions := w.decisions + NewDecisions(w, r, answers))
    ensures Replayed(policy, w, Mutations(w.requests[n].batch))
         == w.(srv := After(policy, w.srv, Mutations(w.requests[n].batch)),
               events := Replayed(policy, w, Mutations(w.requests[n].batch)).events)
  {
    hide RequestOk, ResponseOk;
    assert w.requests[n] in w.requests;
    SentInOrder(w, w.requests[n]);
  }

  lemma {:induction false} AnsweredWire(w: World, w': World, r: Request, p: Response)
    requires WireOk(w) && w'.log == w.log && w.decisions <= w'.decisions && w'.requests == w.requests
    requires w'.responses == w.responses + [p] && p.request < |w.requests| && w.requests[p.request] == r && RequestOk(w, r)
    requires |p.answers| == |r.batch| && r.from + |r.batch| <= |w'.decisions|
    requires forall i :: 0 <= i < |r.batch| ==>
      && p.answers[i].mutationId == r.batch[i].mutation.mutationId
      && (p.answers[i].outcome == Duplicate || p.answers[i].outcome == w'.decisions[r.from + i])
    ensures WireOk(w')
  {
    hide RequestOk;
    WireGrows(w, w');
    assert ResponseOk(w', p);
  }

  /** The flight under way is the stretch of the log after everything already answered, and the answer is to it. */
  lemma {:induction false} AnswerIsToFlight(w: World, n: nat)
    requires FlightOk(w) && WireOk(w) && Can(w, Receive(n))
    ensures var batch, answers, h := w.dev.flight.value, w.responses[n].answers, |w.heard|;
      && |answers| == |batch|
      && h + |batch| <= |w.decisions| && h + |batch| <= |w.log|
      && batch == w.log[h..h + |batch|]
      && forall i :: 0 <= i < |batch| ==>
           && answers[i].mutationId == batch[i].mutation.mutationId
           && (answers[i].outcome == Duplicate || answers[i].outcome == w.decisions[h + i])
  {
    assert ResponseOk(w, w.responses[n]);
    assert RequestOk(w, w.requests[w.awaiting]);
  }

  lemma {:induction false} AnswersById(log: seq<Entry>, h: nat, batch: seq<Entry>, answers: seq<Answer>)
    requires DistinctEntries(log) && h + |batch| <= |log| && batch == log[h..h + |batch|] && |answers| == |batch|
    requires forall i :: 0 <= i < |batch| ==> answers[i].mutationId == batch[i].mutation.mutationId
    ensures forall i :: 0 <= i < |batch| ==>
              && batch[i].mutation.mutationId in ById(answers)
              && ById(answers)[batch[i].mutation.mutationId] == Outcomes(answers)[i]
              && batch[i].mutation.mutationId !in Ids(log[..h])
  {
    forall i, j | 0 <= i < j < |answers| ensures answers[i].mutationId != answers[j].mutationId {
      assert batch[i] == log[h + i] && batch[j] == log[h + j];
    }
    forall i | 0 <= i < |batch|
      ensures batch[i].mutation.mutationId in ById(answers)
      ensures ById(answers)[batch[i].mutation.mutationId] == answers[i].outcome
      ensures batch[i].mutation.mutationId !in Ids(log[..h])
    {
      ByIdOf(answers, i);
      NotAmongEarlier(log, h, h + i);
    }
  }

  /** What an answer does: it takes the flight, and only the flight, out of the queue, and surfaces what was declined. */
  ghost function Settled(w: World, batch: seq<Entry>, outcomes: seq<Outcome>): World
    requires |batch| == |outcomes| && |batch| <= |w.dev.pending|
  {
    var rest, notes := w.dev.pending[|batch|..], w.dev.attention + Surfaced(batch, outcomes, w.dismissed);
    w.(heard := w.heard + outcomes,
       dev := w.dev.(pending := rest, keptPending := rest, attention := notes, keptAttention := notes, flight := None))
  }

  lemma {:induction false} AnsweredEffect(d: Device, batch: seq<Entry>, answers: seq<Answer>, gone: set<Id>)
    requires d.flight == Some(batch) && |answers| == |batch| <= |d.pending| && d.keptAttention == d.attention
    requires Unanswered(batch, ById(answers)) == []
    requires Flagged(batch, ById(answers)) == Surfaced(batch, Outcomes(answers), gone)
    ensures var rest, notes := d.pending[|batch|..], d.attention + Surfaced(batch, Outcomes(answers), gone);
      Answered(d, answers)
      == d.(pending := rest, keptPending := rest, attention := notes, keptAttention := notes, flight := None)
  {
    assert [] + d.pending[|batch|..] == d.pending[|batch|..];
    var flagged := Flagged(batch, ById(answers));
    if flagged == [] {
      assert d.attention + flagged == d.attention;
    }
  }

  lemma {:induction false} ReceiveEffect(w: World, n: nat, batch: seq<Entry>, answers: seq<Answer>)
    requires w.dev.flight == Some(batch) && n < |w.responses| && answers == w.responses[n].answers
    requires |answers| == |batch| <= |w.dev.pending|
    requires w.dev.keptAttention == w.dev.attention
    requires forall i :: 0 <= i < |batch| ==>
               && batch[i].mutation.mutationId in ById(answers)
               && ById(answers)[batch[i].mutation.mutationId] == Outcomes(answers)[i]
               && batch[i].mutation.mutationId !in w.dismissed
    ensures Received(w, n) == Settled(w, batch, Outcomes(answers))
  {
    AllAnswered(batch, ById(answers), Outcomes(answers), w.dismissed);
    AnsweredEffect(w.dev, batch, answers, w.dismissed);
  }

  lemma {:induction false} SurfacedGrows(log: seq<Entry>, h: nat, batch: seq<Entry>, hs: seq<Outcome>, hs': seq<Outcome>, gone: set<Id>)
    requires h + |batch| <= |log| && batch == log[h..h + |batch|] && |hs| == h && |hs'| == |batch|
    ensures Surfaced(log[..h + |batch|], hs + hs', gone) == Surfaced(log[..h], hs, gone) + Surfaced(batch, hs', gone)
    ensures Ids(log[..h]) <= Ids(log[..h + |batch|])
  {
    SurfacedAppend(log[..h], hs, batch, hs', gone);
    assert log[..h + |batch|] == log[..h] + batch;
  }

  lemma {:induction false} SettledKeeps(w: World, batch: seq<Entry>, outcomes: seq<Outcome>)
    requires Inv(w)
    requires |batch| == |outcomes| && |w.heard| + |batch| <= |w.decisions|
    requires batch == w.log[|w.heard|..|w.heard| + |batch|]
    requires forall i :: 0 <= i < |batch| ==> outcomes[i] == Duplicate || outcomes[i] == w.decisions[|w.heard| + i]
    ensures Inv(Settled(w, batch, outcomes))
  {
    assert |batch| <= |w.dev.pending|;
    hide LogOk, QueueOk, FlightOk, WireOk, HeardOk, NotesOk, TraceOk, Surfaced, Ids;
    var w', h := Settled(w, batch, outcomes), |w.heard|;
    LogSettled(w);
    LogStays(w, w');
    WireStays(w, w');
    TraceStays(w, w');
    SettledQueue(w, batch, outcomes);
    SettledNotes(w, batch, outcomes);
  }

  lemma {:induction false} SettledQueue(w: World, batch: seq<Entry>, outcomes: seq<Outcome>)
    requires QueueOk(w) && HeardOk(w) && |batch| == |outcomes| && |w.heard| + |batch| <= |w.decisions| <= |w.log|
    requires batch == w.log[|w.heard|..|w.heard| + |batch|]
    requires forall i :: 0 <= i < |batch| ==> outcomes[i] == Duplicate || outcomes[i] == w.decisions[|w.heard| + i]
    ensures |batch| <= |w.dev.pending|
    ensures var w' := Settled(w, batch, outcomes); QueueOk(w') && HeardOk(w') && FlightOk(w')
  {
    hide Surfaced;
    var w', h := Settled(w, batch, outcomes), |w.heard|;
    assert w'.dev.pending == w.log[h + |batch|..];
  }

  lemma {:induction false} SettledNotes(w: World, batch: seq<Entry>, outcomes: seq<Outcome>)
    requires NotesOk(w) && |batch| == |outcomes| && |w.heard| + |batch| <= |w.log| && |batch| <= |w.dev.pending|
    requires batch == w.log[|w.heard|..|w.heard| + |batch|]
    ensures NotesOk(Settled(w, batch, outcomes))
  {
    hide Surfaced, Ids;
    SurfacedGrows(w.log, |w.heard|, batch, w.heard, outcomes, w.dismissed);
  }

  lemma {:induction false} ReceiveSettles(w: World, n: nat)
    requires LogOk(w) && QueueOk(w) && FlightOk(w) && WireOk(w) && NotesOk(w) && Can(w, Receive(n))
    ensures |w.responses[n].answers| == |w.dev.flight.value|
    ensures Received(w, n) == Settled(w, w.dev.flight.value, Outcomes(w.responses[n].answers))
  {
    var batch, answers := w.dev.flight.value, w.responses[n].answers;
    AnswerIsToFlight(w, n);
    AnswersById(w.log, |w.heard|, batch, answers);
    ReceiveEffect(w, n, batch, answers);
  }

  lemma {:induction false} ReceiveKeeps(w: World, n: nat)
    requires Inv(w) && Can(w, Receive(n))
    ensures Inv(Received(w, n))
  {
    var batch, outcomes := w.dev.flight.value, Outcomes(w.responses[n].answers);
    AnswerIsToFlight(w, n);
    assert Received(w, n) == Settled(w, batch, outcomes) by { ReceiveSettles(w, n); }
    assert Inv(Settled(w, batch, outcomes)) by { SettledKeeps(w, batch, outcomes); }
  }

  lemma {:induction false} NextKeeps(policy: Policy, w: World, s: Step)
    requires KnowsDuplicates(policy) && Inv(w) && Can(w, s)
    ensures Inv(Next(policy, w, s))
  {
    match s
    case Enqueue(_, _, _) => EnqueueKeeps(policy, w, s);
    case Dismiss(_) => DismissKeeps(policy, w, s);
    case Send => SendKeeps(w);
    case GiveUp => GiveUpKeeps(policy, w);
    case Deliver(n) => DeliverKeeps(policy, w, n);
    case Receive(n) => ReceiveKeeps(w, n);
    case Reload => ReloadKeeps(policy, w);
    case OtherDevice(_) => OtherDeviceKeeps(policy, w, s);
    case Office(_, _) => OfficeKeeps(policy, w, s);
  }

  /** The invariant holds after every run. */
  lemma {:induction false} EveryRunKeeps(policy: Policy, w: World, steps: seq<Step>, w': World)
    requires KnowsDuplicates(policy) && Inv(w) && Run(policy, w, steps, w')
    ensures Inv(w')
    decreases steps
  {
    if steps != [] {
      NextKeeps(policy, w, steps[0]);
      EveryRunKeeps(policy, Next(policy, w, steps[0]), steps[1..], w');
    }
  }

  lemma {:induction false} StartsOk(w: World)
    requires Start(w)
    ensures Inv(w)
  {
  }
}
