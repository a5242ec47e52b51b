/** The forecast over whole runs: through losses, retries and reloads, a job nobody else touches ends as its screen said. */
module ForecastRuns {
  import opened Common
  import opened JobStates
  import opened SyncWire
  import opened Resolution
  import opened Replay
  import opened OfflineQueue
  import opened SyncProtocol
  import opened SyncRuns
  import opened SyncTheorems
  import opened Projection

  // ---- the runs spoken of ----

  /** Where the job stands once everything enqueued so far has landed. */
  function Foreseen(id: Id, job0: Job, log: seq<Entry>): Job {
    Forecast(id, job0, Mutations(log))
  }

  ghost predicate NamesJob(id: Id, m: Mutation) {
    m.entityTable == Jobs && m.entityId == id
  }

  predicate IsMoveIntent(id: Id, intent: Intent) {
    intent.entityTable == Jobs && intent.entityId == id && intent.op == Transition
  }

  /** Neither the office nor another device touches the job, and a move of it names a state. */
  ghost predicate Leaves(id: Id, s: Step) {
    match s
    case Office(entityId, _) => entityId != id
    case OtherDevice(ms) => forall m :: m in ms ==> !NamesJob(id, m)
    case Enqueue(_, intent, _) => IsMoveIntent(id, intent) ==> intent.payload.state.Some?
    case _ => true
  }

  ghost predicate RunLeaving(policy: Policy, id: Id, w: World, steps: seq<Step>, w': World) {
    Run(policy, w, steps, w') && forall s :: s in steps ==> Leaves(id, s)
  }

  /** A copy of the job with the first `read` intents in it foretells right: it is no older than the last answer taken, or
      a move of the job is pending, or the moves it misses left the state where it was. */
  ghost predicate Current(id: Id, job0: Job, log: seq<Entry>, heard: nat, read: nat)
    requires heard <= |log| && read <= |log|
  {
    || read >= heard
    || Moves(id, Mutations(log[heard..])) != []
    || Foreseen(id, job0, log[..read]).state == Foreseen(id, job0, log[..heard]).state
  }

  /** What a screen shows over a copy with the first `read` intents in it. */
  function Shown(id: Id, job0: Job, log: seq<Entry>, heard: nat, read: nat): Job
    requires heard <= |log| && read <= |log|
  {
    Forecast(id, Foreseen(id, job0, log[..read]), Mutations(log[heard..]))
  }

  /** A move is one a screen offered, over a copy that foretells right. */
  ghost predicate Offers(id: Id, job0: Job, w: World, s: Step) {
    |w.heard| <= |w.log| && s.Enqueue? && IsMoveIntent(id, s.intent) ==>
      && s.intent.payload.state.Some?
      && exists read: nat :: read <= |w.log| && Current(id, job0, w.log, |w.heard|, read)
           && s.intent.payload.state.value in NextDeviceStates(Shown(id, job0, w.log, |w.heard|, read).state)
  }

  ghost predicate RunOffering(policy: Policy, id: Id, job0: Job, w: World, steps: seq<Step>)
    decreases steps
  {
    steps != [] ==>
      Can(w, steps[0]) && Offers(id, job0, w, steps[0]) && RunOffering(policy, id, job0, Next(policy, w, steps[0]), steps[1..])
  }

  ghost predicate AllApplied(id: Id, log: seq<Entry>, decisions: seq<Outcome>)
    requires |decisions| <= |log|
  {
    forall i :: 0 <= i < |decisions| && MovesJob(id, log[i].mutation) ==> decisions[i].Applied?
  }

  ghost predicate NamesStates(id: Id, ms: seq<Mutation>) {
    forall k :: 0 <= k < |ms| && MovesJob(id, ms[k]) ==> ms[k].payload.state.Some?
  }

  /** The moves decided were all applied exactly when each was on offer, and then the row is their forecast. */
  ghost predicate AsForeseen(id: Id, job0: Job, w: World) {
    && |w.decisions| <= |w.log| && NamesStates(id, Mutations(w.log)) && id in w.srv.jobs
    && (AllApplied(id, w.log, w.decisions) <==> Offered(id, job0, Mutations(w.log[..|w.decisions|])))
    && (AllApplied(id, w.log, w.decisions) ==> w.srv.jobs[id] == Foreseen(id, job0, w.log[..|w.decisions|]))
  }

  // ---- forecasts end to end ----

  lemma {:induction false} ForecastOn(id: Id, job: Job, a: seq<Mutation>, b: seq<Mutation>)
    ensures Forecast(id, Forecast(id, job, a), b) == Forecast(id, job, a + b)
  {
    MovesAppend(id, a, b);
  }

  lemma {:induction false} OfferedTail(id: Id, job: Job, a: seq<Mutation>, b: seq<Mutation>)
    requires Offered(id, job, a + b)
    ensures Offered(id, Forecast(id, job, a), b)
  {
    hide Forecast;
    forall k | 0 <= k < |b| && MovesJob(id, b[k])
      ensures var at := Forecast(id, Forecast(id, job, a), b[..k]);
        b[k].payload.state.Some? && b[k].payload.state.value in NextDeviceStates(at.state)
    {
      ForecastOn(id, job, a, b[..k]);
      assert (a + b)[|a| + k] == b[k] && (a + b)[..|a| + k] == a + b[..k];
    }
  }

  lemma {:induction false} OfferedFront(id: Id, job: Job, a: seq<Mutation>, b: seq<Mutation>)
    requires Offered(id, job, a + b)
    ensures Offered(id, job, a)
  {
    hide Forecast;
    forall k | 0 <= k < |a| && MovesJob(id, a[k])
      ensures a[k].payload.state.Some? && a[k].payload.state.value in NextDeviceStates(Forecast(id, job, a[..k]).state)
    {
      assert (a + b)[k] == a[k] && (a + b)[..k] == a[..k];
    }
  }

  lemma {:induction false} OfferedJoin(id: Id, job: Job, a: seq<Mutation>, b: seq<Mutation>)
    requires Offered(id, job, a) && Offered(id, Forecast(id, job, a), b)
    ensures Offered(id, job, a + b)
  {
    hide Forecast;
    var ms := a + b;
    forall k | 0 <= k < |ms| && MovesJob(id, ms[k])
      ensures ms[k].payload.state.Some? && ms[k].payload.state.value in NextDeviceStates(Forecast(id, job, ms[..k]).state)
    {
      if k < |a| {
        assert ms[..k] == a[..k];
      } else {
        assert ms[..k] == a + b[..k - |a|] && ms[k] == b[k - |a|];
        ForecastOn(id, job, a, b[..k - |a|]);
      }
    }
  }

  lemma {:induction false} OfferedOneMore(id: Id, job: Job, ms: seq<Mutation>, m: Mutation)
    requires Offered(id, job, ms)
    requires MovesJob(id, m) ==> m.payload.state.Some? && m.payload.state.value in NextDeviceStates(Forecast(id, job, ms).state)
    ensures Offered(id, job, ms + [m])
  {
    hide Forecast;
    var ns := ms + [m];
    forall k | 0 <= k < |ns| && MovesJob(id, ns[k])
      ensures ns[k].payload.state.Some? && ns[k].payload.state.value in NextDeviceStates(Forecast(id, job, ns[..k]).state)
    {
      if k < |ms| {
        assert ns[..k] == ms[..k];
      } else {
        assert ns[..k] == ms;
      }
    }
  }

  lemma {:induction false} MutationsAppend(a: seq<Entry>, b: seq<Entry>)
    ensures Mutations(a + b) == Mutations(a) + Mutations(b)
  {
  }

  /** What a screen shows is the state everything enqueued will come to exactly when its copy foretells right. */
  lemma {:induction false} ScreenForeseesIff(id: Id, job0: Job, log: seq<Entry>, heard: nat, read: nat)
    requires heard <= |log| && read <= |log|
    ensures Shown(id, job0, log, heard, read).state == Foreseen(id, job0, log).state <==> Current(id, job0, log, heard, read)
  {
    if read >= heard {
      ReadSinceForesees(id, job0, log, heard, read);
    } else {
      assert log[..heard] + log[heard..] == log;
      MutationsAppend(log[..heard], log[heard..]);
      ForecastOn(id, job0, Mutations(log[..heard]), Mutations(log[heard..]));
    }
  }

  lemma {:induction false} ReadSinceForesees(id: Id, job0: Job, log: seq<Entry>, heard: nat, read: nat)
    requires heard <= read <= |log|
    ensures Shown(id, job0, log, heard, read).state == Foreseen(id, job0, log).state
  {
    var a, b, c := Mutations(log[..heard]), Mutations(log[heard..read]), Mutations(log[read..]);
    assert log[..heard] + log[heard..read] == log[..read] && log[heard..read] + log[read..] == log[heard..];
    assert log[..read] + log[read..] == log;
    MutationsAppend(log[..heard], log[heard..read]);
    MutationsAppend(log[heard..read], log[read..]);
    MutationsAppend(log[..read], log[read..]);
    ForecastOn(id, job0, a, b);
    ForecastExactIffNothingLandedIsPending(id, Forecast(id, job0, a), b + c, |b|);
    assert (b + c)[..|b|] == b;
    ForecastOn(id, job0, a, b + c);
    AppendAssociates(a, b, c);
  }

  // ---- what the server does with a stretch of the log ----

  lemma {:induction false} TakenOn(policy: Policy, s: Server, a: seq<Mutation>, b: seq<Mutation>)
    ensures After(policy, s, a + b) == After(policy, After(policy, s, a), b)
    decreases a
  {
    hide Record;
    if a == [] {
      assert a + b == b;
    } else {
      TakenOn(policy, Record(policy, s, a[0]), a[1..], b);
      assert (a + b)[1..] == a[1..] + b && (a + b)[0] == a[0];
    }
  }

  lemma {:induction false} TakenFirst(policy: Policy, s: Server, ms: seq<Mutation>)
    ensures if ms == [] then After(policy, s, ms) == s && Answers(policy, s, ms) == []
            else var s' := Record(policy, s, ms[0]);
              && After(policy, s, ms) == After(policy, s', ms[1..])
              && Answers(policy, s, ms) == [Answer(ms[0].mutationId, Decide(policy, s, ms[0]))] + Answers(policy, s', ms[1..])
  {
  }

  lemma {:induction false} TakenInTwo(policy: Policy, s: Server, a: seq<Mutation>, b: seq<Mutation>)
    ensures After(policy, s, a + b) == After(policy, After(policy, s, a), b)
    ensures Answers(policy, s, a + b) == Answers(policy, s, a) + Answers(policy, After(policy, s, a), b)
    decreases a
  {
    hide Record, Decide, After, Answers;
    TakenOn(policy, s, a, b);
    TakenFirst(policy, s, a);
    TakenFirst(policy, s, a + b);
    if a == [] {
      assert a + b == b;
    } else {
      var s' := Record(policy, s, a[0]);
      var first := Answer(a[0].mutationId, Decide(policy, s, a[0]));
      TakenInTwo(policy, s', a[1..], b);
      assert (a + b)[1..] == a[1..] + b && (a + b)[0] == a[0];
      AppendAssociates([first], Answers(policy, s', a[1..]), Answers(policy, After(policy, s, a), b));
    }
  }

  lemma {:induction false} OtherLeavesJob(policy: Policy, s: Server, id: Id, m: Mutation)
    requires id in s.jobs && !NamesJob(id, m)
    ensures id in Record(policy, s, m).jobs && Record(policy, s, m).jobs[id] == s.jobs[id]
  {
    hide Decide;
  }

  lemma {:induction false} OthersLeaveJob(policy: Policy, s: Server, id: Id, ms: seq<Mutation>)
    requires id in s.jobs && forall m :: m in ms ==> !NamesJob(id, m)
    ensures id in After(policy, s, ms).jobs && After(policy, s, ms).jobs[id] == s.jobs[id]
    decreases ms
  {
    hide Record, NamesJob;
    if ms != [] {
      OtherLeavesJob(policy, s, id, ms[0]);
      OthersLeaveJob(policy, Record(policy, s, ms[0]), id, ms[1..]);
    }
  }

  lemma {:induction false} StretchIsFresh(w: World, to: nat)
    requires LogOk(w) && |w.decisions| <= to <= |w.log|
    ensures Fresh(w.srv, Mutations(w.log[|w.decisions|..to]))
  {
  }

  /** The log up to `to` was on offer exactly when it was up to `k` and from there on. */
  lemma {:induction false} OfferedInTwo(id: Id, job0: Job, log: seq<Entry>, k: nat, to: nat)
    requires k <= to <= |log|
    ensures Offered(id, job0, Mutations(log[..to]))
        <==> Offered(id, job0, Mutations(log[..k])) && Offered(id, Foreseen(id, job0, log[..k]), Mutations(log[k..to]))
    ensures Forecast(id, Foreseen(id, job0, log[..k]), Mutations(log[k..to])) == Foreseen(id, job0, log[..to])
  {
    hide Offered, Forecast;
    var a, b := Mutations(log[..k]), Mutations(log[k..to]);
    assert log[..k] + log[k..to] == log[..to];
    MutationsAppend(log[..k], log[k..to]);
    ForecastOn(id, job0, a, b);
    if Offered(id, job0, a + b) {
      OfferedFront(id, job0, a, b);
      OfferedTail(id, job0, a, b);
    }
    if Offered(id, job0, a) && Offered(id, Forecast(id, job0, a), b) {
      OfferedJoin(id, job0, a, b);
    }
  }

  /** Taken whole, the queue's moves are all applied only if each was on offer. */
  lemma {:induction false} AppliedOnlyIfOffered(policy: Policy, s: Server, id: Id, ms: seq<Mutation>)
    requires AppliesOffered(policy) && AppliesOnlyOffered(policy) && id in s.jobs && Fresh(s, ms) && NamesStates(id, ms)
    requires forall k :: 0 <= k < |ms| && MovesJob(id, ms[k]) ==> Answers(policy, s, ms)[k].outcome.Applied?
    ensures Offered(id, s.jobs[id], ms)
    decreases |ms|
  {
    hide Forecast, AppliesOffered, AppliesOnlyOffered, After, Answers, NextDeviceStates;
    if ms != [] {
      var n := |ms| - 1;
      var front, m := ms[..n], ms[n];
      assert ms == front + [m];
      OneMoreLands(policy, s, front, m);
      AppliedOnlyIfOffered(policy, s, id, front);
      QueueLandsAsForecast(policy, s, id, front);
      StillUnrecorded(policy, s, ms);
      if MovesJob(id, m) {
        OnlyOffered(policy, After(policy, s, front), id, m);
      }
      OfferedOneMore(id, s.jobs[id], front, m);
    }
  }

  lemma {:induction false} OnlyOffered(policy: Policy, s: Server, id: Id, m: Mutation)
    requires AppliesOnlyOffered(policy) && id in s.jobs && m.mutationId !in s.replayed && MovesJob(id, m)
    requires m.payload.state.Some? && Decide(policy, s, m).Applied?
    ensures m.payload.state.value in NextDeviceStates(s.jobs[id].state)
  {
    hide NextDeviceStates;
    assert WithState(m) == m && JobOf(s, m) == Some(s.jobs[id]);
  }

  lemma {:induction false} RepeatsDoNothing(policy: Policy, w: World, from: nat, to: nat)
    requires KnowsDuplicates(policy) && LogOk(w) && from <= to <= |w.decisions|
    ensures After(policy, w.srv, Mutations(w.log[from..to])) == w.srv
  {
    hide DistinctEntries;
    var ms := Mutations(w.log[from..to]);
    forall m | m in ms ensures m.mutationId in w.srv.replayed {
      var i :| 0 <= i < |ms| && ms[i] == m;
      assert ms[i] == w.log[from + i].mutation;
    }
    ReplayAgainIsNoOp(policy, w.srv, ms);
  }

  lemma {:induction false} RepeatsThenNews(policy: Policy, w: World, from: nat, to: nat)
    requires KnowsDuplicates(policy) && LogOk(w) && from <= |w.decisions| <= to <= |w.log|
    ensures var all, newer := Mutations(w.log[from..to]), Mutations(w.log[|w.decisions|..to]);
      && After(policy, w.srv, all) == After(policy, w.srv, newer)
      && Answers(policy, w.srv, all)
         == Answers(policy, w.srv, Mutations(w.log[from..|w.decisions|])) + Answers(policy, w.srv, newer)
  {
    hide LogOk, KnowsDuplicates, After, Answers;
    var k := |w.decisions|;
    assert w.log[from..k] + w.log[k..to] == w.log[from..to];
    MutationsAppend(w.log[from..k], w.log[k..to]);
    TakenInTwo(policy, w.srv, Mutations(w.log[from..k]), Mutations(w.log[k..to]));
    RepeatsDoNothing(policy, w, from, k);
  }

  ghost predicate Lands(id: Id, ms: seq<Mutation>, answers: seq<Answer>)
    requires |answers| == |ms|
  {
    forall k :: 0 <= k < |ms| && MovesJob(id, ms[k]) ==> answers[k].outcome.Applied?
  }

  /** What is past the frontier is all applied exactly when it was all on offer, and then lands as foreseen. */
  lemma {:induction false} StretchLands(policy: Policy, id: Id, w: World, to: nat)
    requires AppliesOffered(policy) && AppliesOnlyOffered(policy) && LogOk(w)
    requires |w.decisions| <= to <= |w.log| && id in w.srv.jobs && NamesStates(id, Mutations(w.log))
    ensures var s', newer := After(policy, w.srv, Mutations(w.log[|w.decisions|..to])), Mutations(w.log[|w.decisions|..to]);
      && id in s'.jobs
      && (Offered(id, w.srv.jobs[id], newer) <==> Lands(id, newer, Answers(policy, w.srv, newer)))
      && (Offered(id, w.srv.jobs[id], newer) ==> s'.jobs[id] == Forecast(id, w.srv.jobs[id], newer))
  {
    hide Offered, Forecast, LogOk, AppliesOffered, AppliesOnlyOffered, Fresh, After, Answers, MovesJob, NamesStates;
    var newer := Mutations(w.log[|w.decisions|..to]);
    StretchIsFresh(w, to);
    JobsStay(policy, w.srv, newer);
    if Offered(id, w.srv.jobs[id], newer) {
      QueueLandsAsForecast(policy, w.srv, id, newer);
    }
    if Lands(id, newer, Answers(policy, w.srv, newer)) {
      StatesOfStretch(id, w.log, |w.decisions|, to);
      AppliedOnlyIfOffered(policy, w.srv, id, newer);
    }
  }

  lemma {:induction false} StatesOfStretch(id: Id, log: seq<Entry>, k: nat, to: nat)
    requires NamesStates(id, Mutations(log)) && k <= to <= |log|
    ensures NamesStates(id, Mutations(log[k..to]))
  {
    var ms := Mutations(log[k..to]);
    forall j | 0 <= j < |ms| && MovesJob(id, ms[j]) ensures ms[j].payload.state.Some? {
      assert ms[j] == Mutations(log)[k + j];
    }
  }

  lemma {:induction false} JobsStay(policy: Policy, s: Server, ms: seq<Mutation>)
    ensures s.jobs.Keys <= After(policy, s, ms).jobs.Keys
    decreases ms
  {
    hide Decide;
    if ms != [] {
      JobsStay(policy, Record(policy, s, ms[0]), ms[1..]);
    }
  }

  // ---- each step ----

  lemma {:induction false} DeliverForesees(policy: Policy, id: Id, job0: Job, w: World, n: nat)
    requires KnowsDuplicates(policy) && AppliesOffered(policy) && AppliesOnlyOffered(policy)
    requires LogOk(w) && WireOk(w) && n < |w.requests| && AsForeseen(id, job0, w)
    ensures AsForeseen(id, job0, Delivered(policy, w, n))
  {
    hide Offered, Foreseen, Replayed, KnowsDuplicates, AppliesOffered, AppliesOnlyOffered, LogOk, WireOk, NewDecisions, After,
      Answers, MovesJob;
    DeliveredIs(policy, w, n);
    var r, k := w.requests[n], |w.decisions|;
    var to := r.from + |r.batch|;
    var ms := Mutations(r.batch);
    DeliverEffect(policy, w, r);
    NewDecisionsFit(w, r, Answers(policy, w.srv, ms));
    if to <= k {
      RepeatsDoNothing(policy, w, r.from, to);
      assert Delivered(policy, w, n).decisions == w.decisions;
    } else {
      RepeatsThenNews(policy, w, r.from, to);
      NewsDecided(w, r, Answers(policy, w.srv, Mutations(w.log[r.from..k])), Answers(policy, w.srv, Mutations(w.log[k..to])));
      NewsForesee(policy, id, job0, w, Delivered(policy, w, n), to);
    }
  }

  lemma {:induction false} NewsForesee(policy: Policy, id: Id, job0: Job, w: World, w': World, to: nat)
    requires AppliesOffered(policy) && AppliesOnlyOffered(policy) && LogOk(w) && AsForeseen(id, job0, w)
    requires |w.decisions| <= to <= |w.log| && w'.log == w.log
    requires var newer := Mutations(w.log[|w.decisions|..to]);
      w'.srv == After(policy, w.srv, newer) && w'.decisions == w.decisions + Outcomes(Answers(policy, w.srv, newer))
    ensures AsForeseen(id, job0, w')
  {
    hide Offered, Foreseen, AppliesOffered, AppliesOnlyOffered, LogOk, After, Answers, MovesJob, NamesStates, AllApplied, Lands;
    StretchLands(policy, id, w, to);
    OfferedInTwo(id, job0, w.log, |w.decisions|, to);
    AppliedInTwo(id, w.log, w.decisions, Answers(policy, w.srv, Mutations(w.log[|w.decisions|..to])));
  }

  /** The new decisions are the answers to what is past the frontier. */
  lemma {:induction false} NewsDecided(w: World, r: Request, before: seq<Answer>, after: seq<Answer>)
    requires r.from <= |w.decisions| < r.from + |r.batch| && |before| == |w.decisions| - r.from
    ensures NewDecisions(w, r, before + after) == Outcomes(after)
  {
    assert Outcomes(before + after)[|before|..] == Outcomes(after);
  }

  lemma {:induction false} AppliedInTwo(id: Id, log: seq<Entry>, decisions: seq<Outcome>, after: seq<Answer>)
    requires |decisions| + |after| <= |log|
    ensures var newer := Mutations(log[|decisions|..|decisions| + |after|]);
      AllApplied(id, log, decisions + Outcomes(after)) <==> (AllApplied(id, log, decisions) && Lands(id, newer, after))
  {
    hide MovesJob;
    var k, all, newer := |decisions|, decisions + Outcomes(after), Mutations(log[|decisions|..|decisions| + |after|]);
    assert forall i: int :: 0 <= i < k ==> all[i] == decisions[i];
    assert forall j: int :: 0 <= j < |after| ==> newer[j] == log[k + j].mutation && all[k + j] == after[j].outcome;
    if AllApplied(id, log, all) {
      forall j | 0 <= j < |newer| && MovesJob(id, newer[j]) ensures after[j].outcome.Applied? {
        assert newer[j] == log[k + j].mutation;
      }
    }
    if AllApplied(id, log, decisions) && Lands(id, newer, after) {
      forall i | 0 <= i < |all| && MovesJob(id, log[i].mutation) ensures all[i].Applied? {
        if i >= k {
          assert newer[i - k] == log[i].mutation;
        }
      }
    }
  }

  lemma {:induction false} OtherDeviceForesees(policy: Policy, id: Id, job0: Job, w: World, s: Step)
    requires AsForeseen(id, job0, w) && s.OtherDevice? && Leaves(id, s)
    ensures AsForeseen(id, job0, Replayed(policy, w, SortBySeq(s.ms)))
  {
    hide Offered, Foreseen;
    SortSorts(s.ms);
    forall m | m in SortBySeq(s.ms) ensures !NamesJob(id, m) {
      assert m in multiset(SortBySeq(s.ms));
    }
    OthersLeaveJob(policy, w.srv, id, SortBySeq(s.ms));
  }

  lemma {:induction false} EnqueueForesees(policy: Policy, id: Id, job0: Job, w: World, s: Step)
    requires AsForeseen(id, job0, w) && s.Enqueue? && Can(w, s) && Leaves(id, s)
    ensures AsForeseen(id, job0, Next(policy, w, s))
  {
    hide Offered, Forecast;
    var e := Minted(w.dev, s.id, s.intent, s.now);
    MutationsAppend(w.log, [e]);
    assert Mutations([e]) == [e.mutation];
    assert (w.log + [e])[..|w.decisions|] == w.log[..|w.decisions|];
  }

  lemma {:induction false} NextForesees(policy: Policy, id: Id, job0: Job, w: World, s: Step)
    requires KnowsDuplicates(policy) && AppliesOffered(policy) && AppliesOnlyOffered(policy) && Inv(w)
    requires AsForeseen(id, job0, w) && Can(w, s) && Leaves(id, s)
    ensures AsForeseen(id, job0, Next(policy, w, s))
  {
    hide Offered, Foreseen, LogOk, QueueOk, FlightOk, WireOk, HeardOk, NotesOk, TraceOk;
    match s
    case Enqueue(_, _, _) => EnqueueForesees(policy, id, job0, w, s);
    case Deliver(n) => DeliverForesees(policy, id, job0, w, n);
    case OtherDevice(_) => OtherDeviceForesees(policy, id, job0, w, s);
    case _ =>
  }

  lemma {:induction false} RunForesees(policy: Policy, id: Id, job0: Job, w: World, steps: seq<Step>, w': World)
    requires KnowsDuplicates(policy) && AppliesOffered(policy) && AppliesOnlyOffered(policy) && Inv(w)
    requires AsForeseen(id, job0, w) && RunLeaving(policy, id, w, steps, w')
    ensures Inv(w') && AsForeseen(id, job0, w')
    decreases steps
  {
    hide Inv, AsForeseen, Leaves, Next;
    if steps != [] {
      NextKeeps(policy, w, steps[0]);
      NextForesees(policy, id, job0, w, steps[0]);
      RunForesees(policy, id, job0, Next(policy, w, steps[0]), steps[1..], w');
    }
  }

  /** Where neither the office nor another device touches a job, then through every loss, repeat, retry and reload, and
      whatever its screens offered, its moves decided were all applied exactly when each was on offer from where the ones
      before it left the job; and then the row is the forecast of what the server has decided. */
  lemma {:induction false} EveryMoveLandsIffOffered(policy: Policy, id: Id, w0: World, steps: seq<Step>, w: World)
    requires KnowsDuplicates(policy) && AppliesOffered(policy) && AppliesOnlyOffered(policy)
    requires Start(w0) && id in w0.srv.jobs && RunLeaving(policy, id, w0, steps, w)
    ensures |w.decisions| <= |w.log| && id in w.srv.jobs
    ensures var job0 := w0.srv.jobs[id];
      && (AllApplied(id, w.log, w.decisions) <==> Offered(id, job0, Mutations(w.log[..|w.decisions|])))
      && (AllApplied(id, w.log, w.decisions) ==> w.srv.jobs[id] == Foreseen(id, job0, w.log[..|w.decisions|]))
  {
    hide KnowsDuplicates, AppliesOffered, AppliesOnlyOffered, Inv, RunLeaving;
    RunForeseesFromStart(policy, id, w0, steps, w);
  }

  lemma {:induction false} StepOffers(policy: Policy, id: Id, job0: Job, w: World, s: Step)
    requires QueueOk(w) && Can(w, s) && Offers(id, job0, w, s) && Offered(id, job0, Mutations(w.log))
    ensures Offered(id, job0, Mutations(Next(policy, w, s).log))
  {
    hide Offered, Forecast, NextDeviceStates, Current, Shown;
    if s.Enqueue? {
      var e := Minted(w.dev, s.id, s.intent, s.now);
      MutationsAppend(w.log, [e]);
      assert Mutations([e]) == [e.mutation];
      if MovesJob(id, e.mutation) {
        var read: nat :| read <= |w.log| && Current(id, job0, w.log, |w.heard|, read)
          && s.intent.payload.state.value in NextDeviceStates(Shown(id, job0, w.log, |w.heard|, read).state);
        ScreenForeseesIff(id, job0, w.log, |w.heard|, read);
      }
      OfferedOneMore(id, job0, Mutations(w.log), e.mutation);
    }
  }

  lemma {:induction false} RunOffers(policy: Policy, id: Id, job0: Job, w: World, steps: seq<Step>, w': World)
    requires KnowsDuplicates(policy) && Inv(w) && RunLeaving(policy, id, w, steps, w') && RunOffering(policy, id, job0, w, steps)
    requires Offered(id, job0, Mutations(w.log))
    ensures Offered(id, job0, Mutations(w'.log))
    decreases steps
  {
    hide Inv, Next, Offers, Offered;
    if steps != [] {
      assert QueueOk(w) by { InvHasQueue(w); }
      StepOffers(policy, id, job0, w, steps[0]);
      NextKeeps(policy, w, steps[0]);
      RunOffers(policy, id, job0, Next(policy, w, steps[0]), steps[1..], w');
    }
  }

  lemma {:induction false} InvHasQueue(w: World)
    requires Inv(w)
    ensures QueueOk(w)
  {
  }

  /** If besides each move was offered over a copy that foretells right, each of them decided is applied, and once nothing
      is pending the job is where everything enqueued was forecast to bring it. */
  lemma {:induction false} EveryRunEndsAsForeseen(policy: Policy, id: Id, w0: World, steps: seq<Step>, w: World)
    requires KnowsDuplicates(policy) && AppliesOffered(policy) && AppliesOnlyOffered(policy) && Start(w0) && id in w0.srv.jobs
    requires RunLeaving(policy, id, w0, steps, w) && RunOffering(policy, id, w0.srv.jobs[id], w0, steps)
    ensures |w.decisions| <= |w.log| && id in w.srv.jobs && AllApplied(id, w.log, w.decisions)
    ensures w.srv.jobs[id] == Foreseen(id, w0.srv.jobs[id], w.log[..|w.decisions|])
    ensures w.dev.pending == [] ==> w.srv.jobs[id] == Foreseen(id, w0.srv.jobs[id], w.log)
  {
    hide KnowsDuplicates, AppliesOffered, AppliesOnlyOffered, Foreseen, Inv, RunLeaving, RunOffering, Offered, AllApplied;
    var job0 := w0.srv.jobs[id];
    StartsOk(w0);
    NothingOffered(id, job0, w0);
    RunOffers(policy, id, job0, w0, steps, w);
    RunForeseesFromStart(policy, id, w0, steps, w);
    OfferedInTwo(id, job0, w.log, |w.decisions|, |w.log|);
    assert w.log[..|w.log|] == w.log;
    NothingPending(w);
  }

  lemma {:induction false} NothingOffered(id: Id, job0: Job, w0: World)
    requires Start(w0)
    ensures Offered(id, job0, Mutations(w0.log))
  {
  }

  lemma {:induction false} RunForeseesFromStart(policy: Policy, id: Id, w0: World, steps: seq<Step>, w: World)
    requires KnowsDuplicates(policy) && AppliesOffered(policy) && AppliesOnlyOffered(policy) && Start(w0) && id in w0.srv.jobs
    requires RunLeaving(policy, id, w0, steps, w)
    ensures Inv(w) && AsForeseen(id, w0.srv.jobs[id], w)
  {
    hide KnowsDuplicates, AppliesOffered, AppliesOnlyOffered, Inv, RunLeaving, AsForeseen;
    StartsOk(w0);
    StartsForeseen(id, w0);
    RunForesees(policy, id, w0.srv.jobs[id], w0, steps, w);
  }

  lemma {:induction false} StartsForeseen(id: Id, w0: World)
    requires Start(w0) && id in w0.srv.jobs
    ensures AsForeseen(id, w0.srv.jobs[id], w0)
  {
    assert Mutations(w0.log[..0]) == [];
  }

  lemma {:induction false} NothingPending(w: World)
    requires Inv(w)
    ensures |w.decisions| <= |w.log|
    ensures w.dev.pending == [] ==> |w.decisions| == |w.log| && w.log[..|w.decisions|] == w.log
  {
    hide FlightOk, WireOk, HeardOk, NotesOk, TraceOk;
  }

  // ---- an old copy ----

  /** The job's screen moves it on. */
  function Go(to: JobState): Intent {
    Intent(Jobs, 7, Transition, Payload(Some(to), None, None, None, map[]), None)
  }

  /** Sent, delivered and answered, the whole queue is decided and leaves it. */
  lemma {:induction false} Exchanged(policy: Policy, w: World) returns (steps: seq<Step>, w': World)
    requires KnowsDuplicates(policy) && Inv(w) && CanFlush(w.dev)
    ensures steps == [Send, Deliver(|w.requests|), Receive(|w.responses|)] && Run(policy, w, steps, w') && Inv(w')
    ensures w'.log == w.log && w'.dev.pending == [] && |w'.heard| == |w'.decisions| == |w.log| && w.decisions <= w'.decisions && w'.dev.flight.None?
    ensures w'.srv == After(policy, w.srv, Mutations(w.dev.pending))
    ensures |w.heard| == |w.decisions| && |w.log| == |w.decisions| + 1 ==>
              w'.decisions[|w.decisions|] == Decide(policy, w.srv, w.log[|w.decisions|].mutation)
  {
    hide LogOk, FlightOk, WireOk, HeardOk, NotesOk, TraceOk, Delivered, KnowsDuplicates;
    var n, k := |w.requests|, |w.responses|;
    SentThenDelivered(policy, w);
    var w2 := Delivered(policy, Sent(w), n);
    ReceivedAll(w2, k);
    RunOfThree(policy, w, Send, Deliver(n), Receive(k));
    steps, w' := [Send, Deliver(n), Receive(k)], Received(w2, k);
    ReceiveKeeps(w2, k);
    AllHeard(w');
    SentIsTaken(policy, w);
    if |w.heard| == |w.decisions| && |w.log| == |w.decisions| + 1 {
      OneDecided(policy, w);
    }
  }

  lemma {:induction false} SentIsTaken(policy: Policy, w: World)
    requires Inv(w) && CanFlush(w.dev)
    ensures Delivered(policy, Sent(w), |w.requests|).srv == After(policy, w.srv, Mutations(w.dev.pending))
  {
    hide Inv;
    SendKeeps(w);
    InvHasWire(Sent(w));
    SentInOrder(Sent(w), Sent(w).requests[|w.requests|]);
  }

  lemma {:induction false} InvHasWire(w: World)
    requires Inv(w)
    ensures WireOk(w)
  {
  }

  lemma {:induction false} AllHeard(w: World)
    requires Inv(w) && w.dev.pending == []
    ensures |w.heard| == |w.decisions| == |w.log|
  {
    hide FlightOk, WireOk, NotesOk, TraceOk, HeardOk;
    assert |w.log[|w.heard|..]| == 0;
  }

  lemma {:induction false} OneDecided(policy: Policy, w: World)
    requires Inv(w) && CanFlush(w.dev) && |w.heard| == |w.decisions| && |w.log| == |w.decisions| + 1
    ensures var w' := Delivered(policy, Sent(w), |w.requests|);
      |w'.decisions| > |w.decisions| && w'.decisions[|w.decisions|] == Decide(policy, w.srv, w.log[|w.decisions|].mutation)
  {
    hide LogOk, FlightOk, WireOk, HeardOk, NotesOk, TraceOk, Decide;
    var m := w.log[|w.decisions|].mutation;
    assert w.dev.pending == [w.log[|w.decisions|]] && Mutations(w.dev.pending) == [m];
    assert [m][1..] == [] && SortBySeq([m]) == [m];
    TakenFirst(policy, w.srv, [m]);
  }

  ghost predicate Taps(e: Entry, mutationId: Id, to: JobState) {
    e.mutation.mutationId == mutationId && MovesJob(7, e.mutation) && e.mutation.payload == Go(to).payload
  }

  lemma {:induction false} TwoTaps(w0: World) returns (w: World)
    requires Start(w0) && w0.srv.replayed == {}
    ensures Run(Resolve, w0, [Enqueue(1, Go(EnRoute), 0), Enqueue(2, Go(InProgress), 0)], w) && Inv(w) && CanFlush(w.dev)
    ensures |w.log| == 2 && Taps(w.log[0], 1, EnRoute) && Taps(w.log[1], 2, InProgress)
    ensures w.dev.pending == w.log && w.srv == w0.srv
  {
    hide Inv, Resolve;
    var first, second := Enqueue(1, Go(EnRoute), 0), Enqueue(2, Go(InProgress), 0);
    StartsOk(w0);
    EnqueueKeeps(Resolve, w0, first);
    var w1 := Next(Resolve, w0, first);
    EnqueueKeeps(Resolve, w1, second);
    w := Next(Resolve, w1, second);
    assert [first, second][1..] == [second] && [second][1..] == [];
    assert Run(Resolve, w, [], w);
    assert Run(Resolve, w1, [second], w);
  }

  lemma {:induction false} TwoMoves(job0: Job, log: seq<Entry>)
    requires job0.state == Assigned && |log| == 2 && Taps(log[0], 1, EnRoute) && Taps(log[1], 2, InProgress)
    ensures Offered(7, job0, Mutations(log)) && Foreseen(7, job0, log).state == InProgress
    ensures EnRoute in NextDeviceStates(Assigned)
  {
    hide NextDeviceStates;
    var ms := Mutations(log);
    assert ms[..0] == [] && ms[..1] == [ms[0]] && ms[..1][..0] == [];
    assert Moves(7, ms[..1]) == [ms[0]] && Moves(7, ms) == [ms[0], ms[1]];
    FromAssigned();
  }

  lemma {:induction false} FromAssigned()
    ensures EnRoute in NextDeviceStates(Assigned) && InProgress in NextDeviceStates(EnRoute)
  {
  }

  lemma {:induction false} FirstCopy(job0: Job, log: seq<Entry>)
    requires |log| == 2 && Foreseen(7, job0, log).state != job0.state
    ensures Shown(7, job0, log, 2, 0) == job0 && !Current(7, job0, log, 2, 0)
  {
    assert log[2..] == [] && log[..0] == [] && log[..2] == log && Mutations(log[2..]) == [] && Mutations(log[..0]) == [];
  }

  lemma {:induction false} DeclinedNow(s: Server, m: Mutation)
    requires MovesJob(7, m) && m.payload == Go(EnRoute).payload && m.mutationId !in s.replayed
    requires 7 in s.jobs && s.jobs[7].state == InProgress
    ensures Decide(Resolve, s, m) == Declined(Superseded, NotLegalFromHere)
  {
  }

  /** Both moves land, and their answers arrive. */
  lemma {:induction false} BothLand(w0: World) returns (steps: seq<Step>, w: World)
    requires Start(w0) && w0.srv.replayed == {} && 7 in w0.srv.jobs && w0.srv.jobs[7].state == Assigned
    ensures RunLeaving(Resolve, 7, w0, steps, w) && Inv(w) && w.dev.pending == [] && |w.heard| == |w.decisions| == |w.log| == 2
    ensures Taps(w.log[0], 1, EnRoute) && Taps(w.log[1], 2, InProgress) && w.srv.replayed == {1, 2} && w.dev.flight.None?
    ensures 7 in w.srv.jobs && w.srv.jobs[7].state == InProgress
  {
    hide KnowsDuplicates, AppliesOffered, AppliesOnlyOffered, Resolve, Inv, Run, Next, AllApplied, Taps, Offered, Foreseen, Can;
    ResolveIsSuch();
    var first := [Enqueue(1, Go(EnRoute), 0), Enqueue(2, Go(InProgress), 0)];
    var taps := TwoTaps(w0);
    var more;
    more, w := Exchanged(Resolve, taps);
    RunsChain(Resolve, w0, first, taps, more, w);
    steps := first + more;
    EveryMoveLandsIffOffered(Resolve, 7, w0, steps, w);
    assert w.log[..2] == w.log;
    TwoMoves(w0.srv.jobs[7], w.log);
    TapsRecorded(taps);
  }

  lemma {:induction false} TapsRecorded(w: World)
    requires |w.log| == 2 && w.dev.pending == w.log && w.srv.replayed == {}
    requires Taps(w.log[0], 1, EnRoute) && Taps(w.log[1], 2, InProgress)
    ensures After(Resolve, w.srv, Mutations(w.dev.pending)).replayed == {1, 2}
  {
    hide After, Resolve;
    var ms := Mutations(w.dev.pending);
    RecordedIds(Resolve, w.srv, ms);
    assert ms[0].mutationId == 1 && ms[1].mutationId == 2 && |ms| == 2;
  }

  /** From there a third tap, on the first move again, is declined. */
  lemma {:induction false} ThenDeclined(w: World) returns (w': World)
    requires Inv(w) && w.dev.pending == [] && |w.heard| == |w.decisions| == |w.log| == 2 && w.srv.replayed == {1, 2}
    requires Taps(w.log[0], 1, EnRoute) && Taps(w.log[1], 2, InProgress) && w.dev.flight.None?
    requires 7 in w.srv.jobs && w.srv.jobs[7].state == InProgress
    ensures Can(w, Enqueue(3, Go(EnRoute), 0))
    ensures var w1 := Next(Resolve, w, Enqueue(3, Go(EnRoute), 0));
      && Run(Resolve, w1, [Send, Deliver(|w1.requests|), Receive(|w1.responses|)], w')
      && |w'.decisions| == 3 && w'.decisions[2] == Declined(Superseded, NotLegalFromHere)
  {
    hide KnowsDuplicates, AppliesOffered, AppliesOnlyOffered, Resolve, Inv, Run;
    ResolveIsSuch();
    var third := Enqueue(3, Go(EnRoute), 0);
    var w1 := Next(Resolve, w, third);
    EnqueueKeeps(Resolve, w, third);
    DeclinedNow(w.srv, w1.log[2].mutation);
    var steps, end := Exchanged(Resolve, w1);
    w' := end;
  }

  /** A job is taken from assigned to in progress, and the answers arrive, but the copy on the screen is still the first
      one: it offers the first move again, and the office declines it. */
  lemma {:induction false} AStaleCopyOffersWhatIsDeclined(w0: World) returns (steps: seq<Step>, w: World, w': World)
    requires Start(w0) && w0.srv.replayed == {} && 7 in w0.srv.jobs && w0.srv.jobs[7].state == Assigned
    ensures RunLeaving(Resolve, 7, w0, steps, w) && w.dev.pending == [] && |w.heard| == |w.log| == 2
    ensures EnRoute in NextDeviceStates(Shown(7, w0.srv.jobs[7], w.log, 2, 0).state)
    ensures !Current(7, w0.srv.jobs[7], w.log, 2, 0)
    ensures Can(w, Enqueue(3, Go(EnRoute), 0))
    ensures var w1 := Next(Resolve, w, Enqueue(3, Go(EnRoute), 0));
      && Run(Resolve, w1, [Send, Deliver(|w1.requests|), Receive(|w1.responses|)], w')
      && |w'.decisions| == 3 && w'.decisions[2] == Declined(Superseded, NotLegalFromHere)
  {
    hide Resolve, Inv, Run, Next, Can, Shown, Current, Taps, NextDeviceStates, RunLeaving, Start;
    steps, w := BothLand(w0);
    TwoMoves(w0.srv.jobs[7], w.log);
    FirstCopy(w0.srv.jobs[7], w.log);
    w' := ThenDeclined(w);
  }
}
