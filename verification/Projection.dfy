/** Where a job stands once the device's queued moves land, and when that forecast is the truth. */
module Projection {
  import opened Common
  import opened JobStates
  import opened SyncWire
  import opened Replay
  import opened OfflineQueue

  predicate MovesJob(id: Id, m: Mutation) {
    IsMove(m) && m.entityId == id
  }

  /** The move's target as text: a payload with no state reads "undefined". */
  function StateText(m: Mutation): JobState {
    if m.payload.state.Some? then m.payload.state.value else Named("undefined")
  }

  function Moves(id: Id, ms: seq<Mutation>): seq<Mutation> {
    if ms == [] then []
    else
      var m := ms[|ms| - 1];
      Moves(id, ms[..|ms| - 1]) + (if MovesJob(id, m) then [m] else [])
  }

  /** The last queued move's state, one version on for each of them. */
  function Forecast(id: Id, job: Job, ms: seq<Mutation>): Job {
    var moves := Moves(id, ms);
    Job(if moves == [] then job.state else StateText(moves[|moves| - 1]), job.version + |moves|)
  }

  /** A queued move of the job: a transition of its row, and of no other. */
  predicate IsMoveOf(id: Id, m: Mutation) {
    m.entityTable == Jobs && m.op == Transition && m.entityId == id
  }

  lemma {:induction false} MovesArePicked(id: Id, ms: seq<Mutation>, p: nat -> bool, at: seq<nat>)
    requires forall k: nat :: k < |ms| ==> (p(k) <==> IsMoveOf(id, ms[k]))
    requires Picks(|ms|, p, at)
    ensures KeptAt(Moves(id, ms), ms, at)
  {
    hide Picks, KeptAt;
    if ms == [] {
      PicksNone(p, at);
      NoneKept(ms, at);
    } else {
      var n := |ms| - 1;
      PicksLast(n, p, at);
      MovesArePicked(id, ms[..n], p, if p(n) then at[..|at| - 1] else at);
      KeptSnoc(Moves(id, ms[..n]), ms[..n], ms[n], p, at);
      assert ms == ms[..n] + [ms[n]];
      assert forall s: seq<Mutation> :: s + [] == s;
    }
  }

  /** What is shown is the state the last queued move of the job names, and one version on for each of them; with none
      queued, the job as it was read. */
  lemma {:induction false} ForecastIsTheLastMove(id: Id, job: Job, ms: seq<Mutation>) returns (at: seq<nat>)
    ensures (forall i, j :: 0 <= i < j < |at| ==> at[i] < at[j]) && forall i :: 0 <= i < |at| ==> at[i] < |ms|
    ensures forall k: nat :: k < |ms| ==> (k in at <==> IsMoveOf(id, ms[k]))
    ensures var shown := Forecast(id, job, ms);
      && shown.version == job.version + |at|
      && (at == [] ==> shown.state == job.state)
      && (at != [] ==> var to := ms[at[|at| - 1]].payload.state; shown.state == if to.Some? then to.value else Named("undefined"))
  {
    var p := (k: nat) => k < |ms| && IsMoveOf(id, ms[k]);
    at := PicksOf(|ms|, p);
    PickedAreBelow(|ms|, p, at);
    MovesArePicked(id, ms, p, at);
  }

  method ProjectedJob(id: Id, job: Job, pending: seq<Entry>) returns (state: JobState, version: int, queued: nat)
    ensures Job(state, version) == Forecast(id, job, Mutations(pending))
    ensures queued == |Moves(id, Mutations(pending))|
  {
    state, queued := job.state, 0;
    ghost var ms := Mutations(pending);
    for i := 0 to |pending|
      invariant queued == |Moves(id, ms[..i])|
      invariant state == Forecast(id, job, ms[..i]).state
    {
      var m := pending[i].mutation;
      assert ms[..i + 1][..i] == ms[..i];
      if m.entityTable != Jobs || m.op != Transition || m.entityId != id {
        continue;
      }
      state := StateText(m);
      queued := queued + 1;
    }
    assert ms[..|ms|] == ms;
    version := job.version + queued;
  }

  /** Every queued move of the job was one its screen offered at the forecast state when it was tapped. */
  ghost predicate Offered(id: Id, job: Job, ms: seq<Mutation>) {
    forall k :: 0 <= k < |ms| && MovesJob(id, ms[k]) ==>
      var at := Forecast(id, job, ms[..k]);
      && ms[k].payload.state.Some?
      && ms[k].payload.state.value in NextDeviceStates(at.state)
  }

  ghost predicate Fresh(s: Server, ms: seq<Mutation>) {
    && (forall i, j :: 0 <= i < j < |ms| ==> ms[i].mutationId != ms[j].mutationId)
    && (forall i :: 0 <= i < |ms| ==> ms[i].mutationId !in s.replayed)
  }

  lemma {:induction false} OneMoreLands(policy: Policy, s: Server, ms: seq<Mutation>, m: Mutation)
    ensures After(policy, s, ms + [m]) == Record(policy, After(policy, s, ms), m)
    ensures Answers(policy, s, ms + [m]) == Answers(policy, s, ms) + [Answer(m.mutationId, Decide(policy, After(policy, s, ms), m))]
    decreases ms
  {
    if ms == [] {
      assert [m][1..] == [];
    } else {
      OneMoreLands(policy, Record(policy, s, ms[0]), ms[1..], m);
      assert (ms + [m])[1..] == ms[1..] + [m] && (ms + [m])[0] == ms[0];
    }
  }

  lemma {:induction false} StillUnrecorded(policy: Policy, s: Server, ms: seq<Mutation>)
    requires ms != [] && Fresh(s, ms)
    ensures ms[|ms| - 1].mutationId !in After(policy, s, ms[..|ms| - 1]).replayed
  {
    RecordedIds(policy, s, ms[..|ms| - 1]);
  }

  /** One entry at the end of the queue: a move of this job is applied as forecast, anything else leaves the job be. */
  lemma {:induction false} LastOne(policy: Policy, s: Server, id: Id, m: Mutation)
    requires AppliesOffered(policy) && id in s.jobs && m.mutationId !in s.replayed
    requires MovesJob(id, m) ==> m.payload.state.Some? && m.payload.state.value in NextDeviceStates(s.jobs[id].state)
    ensures id in Record(policy, s, m).jobs
    ensures MovesJob(id, m) ==> Decide(policy, s, m) == Applied(s.jobs[id].version + 1)
    ensures Record(policy, s, m).jobs[id] == if MovesJob(id, m) then Job(StateText(m), s.jobs[id].version + 1) else s.jobs[id]
  {
    hide NextDeviceStates;
    if MovesJob(id, m) {
      MoveLands(policy, s, id, m);
    }
  }

  lemma {:induction false} MoveLands(policy: Policy, s: Server, id: Id, m: Mutation)
    requires AppliesOffered(policy) && id in s.jobs && m.mutationId !in s.replayed && MovesJob(id, m)
    requires m.payload.state.Some? && m.payload.state.value in NextDeviceStates(s.jobs[id].state)
    ensures Decide(policy, s, m) == Applied(s.jobs[id].version + 1)
  {
    hide NextDeviceStates;
    assert WithState(m) == m && JobOf(s, m) == Some(s.jobs[id]);
  }

  lemma {:induction false} FrontIsOffered(s: Server, id: Id, job: Job, ms: seq<Mutation>)
    requires ms != [] && Fresh(s, ms) && Offered(id, job, ms)
    ensures Fresh(s, ms[..|ms| - 1]) && Offered(id, job, ms[..|ms| - 1])
  {
    var front := ms[..|ms| - 1];
    forall k | 0 <= k < |front| && MovesJob(id, front[k])
      ensures var at := Forecast(id, job, front[..k]);
        && front[k].payload.state.Some?
        && front[k].payload.state.value in NextDeviceStates(at.state)
    {
      assert front[..k] == ms[..k] && front[k] == ms[k];
    }
  }

  /** If nobody else changes the job, the server takes the whole queue: every move of the job is applied, and the
      job ends in exactly the forecast state and version. */
  lemma {:induction false} QueueLandsAsForecast(policy: Policy, s: Server, id: Id, ms: seq<Mutation>)
    requires AppliesOffered(policy) && id in s.jobs
    requires Fresh(s, ms) && Offered(id, s.jobs[id], ms)
    ensures id in After(policy, s, ms).jobs && After(policy, s, ms).jobs[id] == Forecast(id, s.jobs[id], ms)
    ensures forall k :: 0 <= k < |ms| && MovesJob(id, ms[k]) ==> Answers(policy, s, ms)[k].outcome.Applied?
    decreases |ms|
  {
    if ms != [] {
      var n := |ms| - 1;
      var front, m := ms[..n], ms[n];
      FrontIsOffered(s, id, s.jobs[id], ms);
      QueueLandsAsForecast(policy, s, id, front);
      StillUnrecorded(policy, s, ms);
      LastOne(policy, After(policy, s, front), id, m);
      OneMoreLands(policy, s, front, m);
      assert ms == front + [m];
    }
  }

  // ---- a forecast over a copy that already has some of the queue in it ----

  lemma {:induction false} MovesAppend(id: Id, ms: seq<Mutation>, ns: seq<Mutation>)
    ensures Moves(id, ms + ns) == Moves(id, ms) + Moves(id, ns)
  {
    if ns == [] {
      assert ms + ns == ms;
    } else {
      var n := |ns| - 1;
      MovesAppend(id, ms, ns[..n]);
      assert (ms + ns)[..|ms + ns| - 1] == ms + ns[..n];
    }
  }

  /** After a lost answer the page may read the job again while the first `r` entries, already applied, are still
      pending. The forecast over that copy has the right state, and the right version exactly when none of those
      entries moves the job: it counts each such move twice. */
  lemma {:induction false} ForecastExactIffNothingLandedIsPending(id: Id, job: Job, ms: seq<Mutation>, r: nat)
    requires r <= |ms|
    ensures Forecast(id, Forecast(id, job, ms[..r]), ms).version == Forecast(id, job, ms).version + |Moves(id, ms[..r])|
    ensures Forecast(id, Forecast(id, job, ms[..r]), ms) == Forecast(id, job, ms) <==> Moves(id, ms[..r]) == []
    ensures Forecast(id, Forecast(id, job, ms[..r]), ms).state == Forecast(id, job, ms).state
  {
    MovesAppend(id, ms[..r], ms[r..]);
    assert ms[..r] + ms[r..] == ms;
  }
}
