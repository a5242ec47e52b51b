/** Sign-ins that come while an earlier session still awaits an answer: what they can lose, and when they lose nothing. */
module Sessions {
  import opened Common
  import opened Tick
  import opened Flushes
  import opened FlushOrder
  import Q = OfflineQueue
  import S = SyncProtocol
  import SR = SyncRuns
  import W = WrapUpProtocol
  import Server = Replay

  // ---- runs in which no queue left behind is answered ----

  /** A queue left behind holds the stretch of the log it was left with. */
  ghost predicate Holds(w: S.World, f: Former) {
    && f.awaiting < |w.requests|
    && var r := w.requests[f.awaiting];
       && f.dev.flight == Some(r.batch) && r.from + |r.batch| <= f.made <= |w.log|
       && f.dev.pending == w.log[r.from..f.made]
  }

  ghost predicate Whole(a: App) {
    && S.Inv(a.sync) && a.lost == {}
    && forall f :: f in a.formers ==> Holds(a.sync, f)
  }

  lemma {:induction false} HoldsStays(w: S.World, w': S.World, f: Former)
    requires Holds(w, f) && w.requests <= w'.requests && w.log <= w'.log
    ensures Holds(w', f)
  {
    assert w'.log[w.requests[f.awaiting].from..f.made] == w.log[w.requests[f.awaiting].from..f.made];
  }

  lemma {:induction false} LeftHolds(a: App)
    requires S.Inv(a.sync) && a.sync.dev.flight.Some?
    ensures Holds(a.sync, Former(a.sync.dev, a.sync.awaiting, a.byTick, |a.sync.log|))
  {
    hide S.LogOk, S.WireOk, S.HeardOk, S.NotesOk, S.TraceOk;
    assert a.sync.log[|a.sync.heard|..] == a.sync.log[|a.sync.heard|..|a.sync.log|];
  }

  lemma {:induction false} WireGrows(policy: Server.Policy, w: S.World, s: S.Step)
    requires S.Can(w, s)
    ensures w.requests <= S.Next(policy, w, s).requests && w.log <= S.Next(policy, w, s).log
  {
  }

  lemma {:induction false} NothingDropped(w: S.World)
    requires S.Inv(w)
    ensures Dropped(w) == {}
  {
    hide S.FlightOk, S.WireOk, S.HeardOk, S.NotesOk, S.TraceOk;
    assert forall e :: e in w.dev.pending ==> e in w.log;
  }

  lemma {:induction false} MoveWhole(policy: Server.Policy, a: App, move: S.Step, b: App)
    requires Server.KnowsDuplicates(policy) && Whole(a) && S.Can(a.sync, move) && b.sync == S.Next(policy, a.sync, move)
    requires b.lost == {} && forall f :: f in b.formers ==> Holds(a.sync, f)
    ensures Whole(b)
  {
    hide S.Inv, S.Next, S.Can, Holds;
    SR.NextKeeps(policy, a.sync, move);
    WireGrows(policy, a.sync, move);
    forall f | f in b.formers ensures Holds(b.sync, f) {
      HoldsStays(a.sync, b.sync, f);
    }
  }

  lemma {:induction false} SentWhole(policy: Server.Policy, a: App, b: App)
    requires Server.KnowsDuplicates(policy) && Whole(a) && (b.sync == a.sync || b.sync == S.Sent(a.sync))
    requires b.lost == {} && b.formers == a.formers
    ensures Whole(b)
  {
    hide S.Inv, S.Sent, Holds;
    if b.sync != a.sync {
      MoveWhole(policy, a, S.Send, b);
    }
  }

  lemma {:induction false} SignedInWhole(policy: Server.Policy, a: App)
    requires Server.KnowsDuplicates(policy) && Whole(a)
    ensures Whole(SignedIn(policy, a)) && Whole(Opened(policy, a))
  {
    hide S.Inv, S.Next, W.Next, Holds, Dropped;
    NothingDropped(a.sync);
    MoveWhole(policy, a, S.Reload, Opened(policy, a));
    if a.sync.dev.flight.Some? {
      LeftHolds(a);
    }
    MoveWhole(policy, a, S.Reload, SignedIn(policy, a));
  }

  lemma {:induction false} TickWrapsLeaves(a: App)
    ensures TickWraps(a).sync == a.sync && TickWraps(a).lost == a.lost && TickWraps(a).formers == a.formers
  {
    hide W.NextEntry;
  }

  lemma {:induction false} NextWhole(policy: Server.Policy, a: App, s: Step)
    requires Server.KnowsDuplicates(policy) && Whole(a) && Can(a, s) && !s.LateAnswered?
    ensures Whole(Next(policy, a, s))
  {
    hide S.Inv, S.Next, W.Next, W.Can, Holds, Opened, SignedIn, TickWraps, WrapsDue;
    var b := Next(policy, a, s);
    match s
    case Tick => TickWrapsLeaves(a); SentWhole(policy, a, b);
    case Tap => SentWhole(policy, a, b);
    case Queue(move) => MoveWhole(policy, a, move, b);
    case Answered(n) => MoveWhole(policy, a, S.Receive(n), b);
    case Unanswered => MoveWhole(policy, a, S.GiveUp, b);
    case TokenOver => MoveWhole(policy, a, S.GiveUp, b);
    case SignIn => SignedInWhole(policy, a);
    case Reload => SignedInWhole(policy, a);
    case _ =>
  }

  lemma {:induction false} EveryRunWhole(policy: Server.Policy, a: App, steps: seq<Step>, a': App)
    requires Server.KnowsDuplicates(policy) && Whole(a) && Run(policy, a, steps, a') && forall s :: s in steps ==> !s.LateAnswered?
    ensures Whole(a')
    decreases steps
  {
    hide Whole, Next, Can;
    if steps != [] {
      NextWhole(policy, a, steps[0]);
      EveryRunWhole(policy, Next(policy, a, steps[0]), steps[1..], a');
    }
  }

  ghost predicate Recorded(w: S.World, n: nat) {
    n <= |w.log| && forall j :: 0 <= j < n ==> w.log[j].mutation.mutationId in w.srv.replayed
  }

  /** Over every run in which no queue left behind is answered, nothing is lost: whatever the wrap-ups' flush sends,
      everything enqueued before that flush began is recorded at the office. */
  lemma {:induction false} UnlessAnsweredLate(policy: Server.Policy, a0: App, steps: seq<Step>, a: App)
    requires Server.KnowsDuplicates(policy) && Start(a0) && Run(policy, a0, steps, a)
    requires forall s :: s in steps ==> !s.LateAnswered?
    ensures a.lost == {} && S.Inv(a.sync) && |a.stamps| == |a.wraps.calls|
    ensures forall i :: 0 <= i < |a.stamps| ==> Recorded(a.sync, a.stamps[i])
    ensures a.wraps.flight.Some? ==> Recorded(a.sync, a.since)
  {
    hide Run, S.Inv;
    SR.StartsOk(a0.sync);
    EveryRunWhole(policy, a0, steps, a);
    WrapUpsFollowTheQueue(policy, a0, steps, a);
    assert forall n: nat :: Covered(a, n) ==> Recorded(a.sync, n);
  }

  // ---- sign-ins that wait ----

  /** Every sign-in comes with no replay under way. */
  ghost predicate QueueRests(policy: Server.Policy, a: App, steps: seq<Step>)
    decreases steps
  {
    steps != [] ==>
      && Can(a, steps[0]) && (steps[0].SignIn? ==> a.sync.dev.flight.None?)
      && QueueRests(policy, Next(policy, a, steps[0]), steps[1..])
  }

  lemma {:induction false} NoneLeft(policy: Server.Policy, a: App, steps: seq<Step>)
    requires a.formers == [] && QueueRests(policy, a, steps)
    ensures forall s :: s in steps ==> !s.LateAnswered?
    decreases steps
  {
    if steps != [] {
      StillNoneLeft(policy, a, steps[0]);
      NoneLeft(policy, Next(policy, a, steps[0]), steps[1..]);
    }
  }

  lemma {:induction false} StillNoneLeft(policy: Server.Policy, a: App, s: Step)
    requires a.formers == [] && Can(a, s) && (s.SignIn? ==> a.sync.dev.flight.None?)
    ensures Next(policy, a, s).formers == []
  {
    hide S.Next, S.Can, W.Next, W.Can, W.NextEntry, Dropped;
  }

  /** So it is over every run whose sign-ins come with no replay under way. */
  lemma {:induction false} UnlessSignedInEarly(policy: Server.Policy, a0: App, steps: seq<Step>, a: App)
    requires Server.KnowsDuplicates(policy) && Start(a0) && Run(policy, a0, steps, a) && QueueRests(policy, a0, steps)
    ensures a.lost == {} && |a.stamps| == |a.wraps.calls|
    ensures forall i :: 0 <= i < |a.stamps| ==> Recorded(a.sync, a.stamps[i])
    ensures a.wraps.flight.Some? ==> Recorded(a.sync, a.since)
  {
    hide Run, QueueRests, S.Inv, Recorded;
    NoneLeft(policy, a0, steps);
    UnlessAnsweredLate(policy, a0, steps, a);
  }

  // ---- the first late answer ----

  lemma {:induction false} AnsweredInFull(w: S.World, f: Former, n: nat)
    requires S.LogOk(w) && S.WireOk(w) && Holds(w, f) && n < |w.responses| && w.responses[n].request == f.awaiting
    ensures var r := w.requests[f.awaiting];
      && Q.Unanswered(r.batch, Q.ById(w.responses[n].answers)) == [] && r.from + |r.batch| <= |w.decisions|
      && r.batch == f.dev.pending[..|r.batch|]
  {
    var r, p := w.requests[f.awaiting], w.responses[n];
    assert S.RequestOk(w, r) && S.ResponseOk(w, p);
    SR.AnswersById(w.log, r.from, r.batch, p.answers);
    SR.AllAnswered(r.batch, Q.ById(p.answers), S.Outcomes(p.answers), {});
    assert r.batch == f.dev.pending[..|r.batch|];
  }

  /** What a late answer leaves in storage: what its queue had still to send when it was left. */
  lemma {:induction false} LateWrites(a: App, k: nat, n: nat)
    requires Whole(a) && Can(a, LateAnswered(k, n))
    ensures k < |a.formers| && CanHear(a, a.formers[k], n) && Holds(a.sync, a.formers[k])
    ensures var f := a.formers[k];
      var r := a.sync.requests[f.awaiting];
      && r.from + |r.batch| <= f.made <= |a.sync.log| && r.from + |r.batch| <= |a.sync.decisions|
      && LateHeard(a, k, n).sync == a.sync.(dev := LateHeard(a, k, n).sync.dev)
      && LateHeard(a, k, n).sync.dev.pending == a.sync.dev.pending
      && LateHeard(a, k, n).sync.dev.deviceId == a.sync.dev.deviceId
      && LateHeard(a, k, n).sync.dev.keptPending == a.sync.log[r.from + |r.batch|..f.made]
  {
    hide S.FlightOk, S.HeardOk, S.NotesOk, S.TraceOk, S.WireOk, S.LogOk, S.QueueOk, Q.Unanswered, Q.Flagged;
    assert a.formers[k] in a.formers;
    AnsweredInFull(a.sync, a.formers[k], n);
  }

  /** Up to its first late answer any run has lost nothing. A page that opens right after that answer misses
      something exactly if something was enqueued since the sign-in that left the queue behind, and not all of it is with
      the office. */
  lemma {:induction false} LateAnswerLosesIff(policy: Server.Policy, a0: App, steps: seq<Step>, a: App, k: nat, n: nat)
    requires Server.KnowsDuplicates(policy) && Start(a0) && Run(policy, a0, steps, a)
    requires (forall s :: s in steps ==> !s.LateAnswered?) && Can(a, LateAnswered(k, n))
    ensures |a.sync.decisions| <= |a.sync.log| && a.formers[k].made <= |a.sync.log|
    ensures Dropped(LateHeard(a, k, n).sync) == {}
        <==> a.formers[k].made == |a.sync.log| || |a.sync.decisions| == |a.sync.log|
  {
    hide Run, S.Inv, S.QueueOk, LateHeard, Can, Dropped, Start;
    StartsWhole(a0);
    EveryRunWhole(policy, a0, steps, a);
    LateWrites(a, k, n);
    var f, r := a.formers[k], a.sync.requests[a.formers[k].awaiting];
    UndecidedPending(a.sync);
    DroppedAre(a.sync, LateHeard(a, k, n).sync, r.from + |r.batch|, f.made);
  }

  lemma {:induction false} StartsWhole(a: App)
    requires Start(a)
    ensures Whole(a)
  {
    hide S.Inv;
    SR.StartsOk(a.sync);
  }

  lemma {:induction false} UndecidedPending(w: S.World)
    requires S.Inv(w)
    ensures |w.heard| <= |w.decisions| <= |w.log| && w.dev.pending == w.log[|w.heard|..] && S.DistinctEntries(w.log)
    ensures forall e :: e in w.log ==> e.mutation.deviceId == w.dev.deviceId
    ensures forall i :: 0 <= i < |w.log| ==> (w.log[i].mutation.mutationId in w.srv.replayed <==> i < |w.decisions|)
  {
    hide S.FlightOk, S.WireOk, S.HeardOk, S.NotesOk, S.TraceOk, S.DistinctEntries;
  }

  /** With a stretch of the log in storage, what is dropped is what is undecided past its end. */
  lemma {:induction false} DroppedAre(w: S.World, w': S.World, from: nat, to: nat)
    requires |w.heard| <= |w.decisions| <= |w.log| && w.dev.pending == w.log[|w.heard|..] && S.DistinctEntries(w.log)
    requires forall e :: e in w.log ==> e.mutation.deviceId == w.dev.deviceId
    requires forall i :: 0 <= i < |w.log| ==> (w.log[i].mutation.mutationId in w.srv.replayed <==> i < |w.decisions|)
    requires from <= to <= |w.log| && from <= |w.decisions|
    requires w' == w.(dev := w'.dev) && w'.dev.pending == w.dev.pending && w'.dev.deviceId == w.dev.deviceId
    requires w'.dev.keptPending == w.log[from..to]
    ensures Dropped(w') == {} <==> to == |w.log| || |w.decisions| == |w.log|
  {
    var kept := w.log[from..to];
    assert Q.Own(w.dev.deviceId, kept) == kept;
    if to < |w.log| && |w.decisions| < |w.log| {
      LastIsDropped(w, from, to);
      assert w.log[|w.log| - 1].mutation.mutationId in Dropped(w');
    } else {
      forall e | e in w.dev.pending && e.mutation.mutationId !in w.srv.replayed ensures e in kept {
        var i :| 0 <= i < |w.dev.pending| && w.dev.pending[i] == e;
        assert w.log[|w.heard| + i] == e;
        assert kept[|w.heard| + i - from] == e;
      }
    }
  }

  lemma {:induction false} LastIsDropped(w: S.World, from: nat, to: nat)
    requires |w.heard| <= |w.decisions| < |w.log| && w.dev.pending == w.log[|w.heard|..] && S.DistinctEntries(w.log)
    requires from <= to < |w.log|
    ensures w.log[|w.log| - 1] in w.dev.pending && w.log[|w.log| - 1] !in w.log[from..to]
  {
    var kept, last := w.log[from..to], w.log[|w.log| - 1];
    assert w.dev.pending[|w.dev.pending| - 1] == last;
    forall j | 0 <= j < |kept| ensures kept[j] != last {
      assert kept[j] == w.log[from + j];
    }
  }
}
