/** Which job states follow which, as the device keeps them. */
module JobStates {
  /** The states of a job; `Named` is any other text a payload may carry. */
  datatype JobState =
    | Created | Assigned | Reassigned | EnRoute | OnSite | InProgress | AwaitingParts | Complete | Reopened
    | Invoiced | Cancelled | Aborted | QuoteRequested | QuoteSubmitted | AwaitingCustomer | NeedsPricing
    | AwaitingPo | AwaitingPictures | InvoiceTrouble | Named(text: string)

  function JobTransitions(state: JobState): seq<JobState> {
    match state
    case Created => [Assigned, Cancelled, QuoteRequested]
    case Assigned => [EnRoute, Reassigned, Cancelled]
    case Reassigned => [Assigned, Cancelled]
    case EnRoute => [InProgress, Cancelled]
    case OnSite => [InProgress, Aborted, AwaitingCustomer]
    case InProgress => [AwaitingParts, Complete, Aborted, AwaitingCustomer]
    case AwaitingParts => [InProgress, Aborted]
    case Complete => [Invoiced, Reopened, NeedsPricing, AwaitingPo, AwaitingPictures]
    case Reopened => [InProgress]
    case Invoiced => [InvoiceTrouble]
    case Cancelled => []
    case Aborted => [Reopened]
    case QuoteRequested => [QuoteSubmitted, Cancelled]
    case QuoteSubmitted => [Created, Cancelled]
    case AwaitingCustomer => [InProgress, Aborted]
    case NeedsPricing => [Complete]
    case AwaitingPo => [Complete]
    case AwaitingPictures => [Complete]
    case InvoiceTrouble => [Invoiced]
    case Named(_) => []
  }

  const DEVICE_TRANSITIONS: seq<JobState> := [EnRoute, InProgress, AwaitingParts, AwaitingCustomer, Complete, Aborted]

  function Filter<T(!new)>(keep: T -> bool, xs: seq<T>): (r: seq<T>)
    ensures forall x :: x in r <==> x in xs && keep(x)
  {
    if xs == [] then [] else (if keep(xs[0]) then [xs[0]] else []) + Filter(keep, xs[1..])
  }

  /** The moves a job's screen may offer. A job is completed by its report, never by a bare move. */
  function NextDeviceStates(state: JobState): (r: seq<JobState>)
    ensures forall s :: s in r <==> s in JobTransitions(state) && s in DEVICE_TRANSITIONS && s != Complete
  {
    Filter((s: JobState) => s in DEVICE_TRANSITIONS && s != Complete, JobTransitions(state))
  }
}

/** What a device and the office say to each other about offline work. */
module SyncWire {
  import opened Common
  import opened JobStates

  /** The tables a device may name; `Undeclared` is any the conflict policies say nothing of. */
  datatype Table =
    | JobMedia | TimeEntries | ShiftPunches | PartsUsed | ChecklistItems | Jobs | Assignments | ContractTermOverrides
    | RateCards | CrewCredentials | ComplianceClearances | WarrantyCases | Signatures | Undeclared(name: string)

  datatype Op = Insertion | Update | Transition

  datatype PunchKind = In | Out

  /** The members of a payload that this protocol reads; whatever else a payload carries is its `rest`. */
  datatype Payload = Payload(state: Option<JobState>, to: Option<JobState>, kind: Option<PunchKind>, at: Option<int>,
                             rest: map<string, string>)

  /** One intent of a device. */
  datatype Mutation = Mutation(mutationId: Id, deviceId: Id, deviceSeq: int, entityTable: Table, entityId: Id,
                               op: Op, payload: Payload, observed: Option<int>, deviceAt: int)

  /** A mutation's fate that is neither applied nor duplicate: someone must read it. */
  datatype Refusal = Rejected | Superseded | QueuedForHuman

  /** Why a mutation was declined; the wording is not modelled. */
  datatype Note =
    | NotThisCrewsJob | NoPolicy | ServerOwns | TransitionsOnly | NotADevicesMove | NeedsCompletionReport
    | OfficeMovedOn | NotLegalFromHere | LegalWeight

  datatype Outcome = Applied(newVersion: int) | Duplicate | Declined(kind: Refusal, note: Note)

  datatype Answer = Answer(mutationId: Id, outcome: Outcome)

  datatype Job = Job(state: JobState, version: int)

  predicate IsMove(m: Mutation) {
    m.entityTable == Jobs && m.op == Transition
  }
}

/** The domain's decision of one mutation: the table's policy, and for a job its state machine. */
module Resolution {
  import opened Common
  import opened JobStates
  import opened SyncWire

  datatype ConflictPolicy = AppendOnly | DeviceAuthoritative | ServerAuthoritative | StateMachine | ManualQueue

  function PolicyOf(t: Table): Option<ConflictPolicy> {
    match t
    case JobMedia | TimeEntries | ShiftPunches | PartsUsed => Some(AppendOnly)
    case ChecklistItems => Some(DeviceAuthoritative)
    case Jobs => Some(StateMachine)
    case Assignments | ContractTermOverrides | RateCards | CrewCredentials | ComplianceClearances => Some(ServerAuthoritative)
    case WarrantyCases | Signatures => Some(ManualQueue)
    case Undeclared(_) => None
  }

  /** The domain's own table of which job states follow which. */
  function LegalFrom(state: JobState): set<JobState> {
    match state
    case Created => {Assigned, Cancelled, QuoteRequested}
    case Assigned => {EnRoute, Reassigned, Cancelled}
    case Reassigned => {Assigned, Cancelled}
    case EnRoute => {InProgress, Cancelled}
    case OnSite => {InProgress, Aborted, AwaitingCustomer}
    case InProgress => {AwaitingParts, Complete, Aborted, AwaitingCustomer}
    case AwaitingParts => {InProgress, Aborted}
    case Complete => {Invoiced, Reopened, NeedsPricing, AwaitingPo, AwaitingPictures}
    case Reopened => {InProgress}
    case Invoiced => {InvoiceTrouble}
    case Cancelled => {}
    case Aborted => {Reopened}
    case QuoteRequested => {QuoteSubmitted, Cancelled}
    case QuoteSubmitted => {Created, Cancelled}
    case AwaitingCustomer => {InProgress, Aborted}
    case NeedsPricing => {Complete}
    case AwaitingPo => {Complete}
    case AwaitingPictures => {Complete}
    case InvoiceTrouble => {Invoiced}
    case Named(_) => {}
  }

  const DEVICE_MOVES: set<JobState> := {EnRoute, InProgress, AwaitingParts, AwaitingCustomer, Complete, Aborted}

  function Resolve(m: Mutation, server: Option<Job>, alreadySeen: set<Id>): Outcome {
    if m.mutationId in alreadySeen then Duplicate
    else
      var next := (if server.Some? then server.value.version else 0) + 1;
      match PolicyOf(m.entityTable)
      case None => Declined(Rejected, NoPolicy)
      case Some(AppendOnly) => Applied(next)
      case Some(DeviceAuthoritative) => Applied(next)
      case Some(ServerAuthoritative) => Declined(Rejected, ServerOwns)
      case Some(ManualQueue) => Declined(QueuedForHuman, LegalWeight)
      case Some(StateMachine) =>
        var from := if server.Some? then server.value.state else Created;
        var to := if m.payload.state.Some? then m.payload.state.value else Named("");
        if m.op != Transition then Declined(Rejected, TransitionsOnly)
        else if to !in DEVICE_MOVES then Declined(Rejected, NotADevicesMove)
        else if to in LegalFrom(from) then
          if to == Complete then Declined(Rejected, NeedsCompletionReport) else Applied(next)
        else if from == to then Duplicate
        else if from == Cancelled || from == Invoiced || from == Reassigned then Declined(QueuedForHuman, OfficeMovedOn)
        else Declined(Superseded, NotLegalFromHere)
  }

  /** What the device offers from a state and what the server applies there are the same moves, though each keeps a table
      of its own: a fresh one is applied, one version on, exactly when `nextDeviceStates` would have shown its button. */
  lemma {:induction false} AppliedIffOffered(m: Mutation, job: Job, seen: set<Id>)
    requires IsMove(m) && m.mutationId !in seen && m.payload.state.Some?
    ensures Resolve(m, Some(job), seen).Applied? <==> m.payload.state.value in NextDeviceStates(job.state)
    ensures Resolve(m, Some(job), seen).Applied? ==> Resolve(m, Some(job), seen) == Applied(job.version + 1)
  {
    hide JobTransitions, NextDeviceStates, LegalFrom;
    var to := m.payload.state.value;
    assert to in NextDeviceStates(job.state) <==> to in JobTransitions(job.state) && to in DEVICE_TRANSITIONS && to != Complete;
    SameTables(job.state, to);
  }

  lemma {:induction false} SameTables(from: JobState, to: JobState)
    ensures to in JobTransitions(from) <==> to in LegalFrom(from)
    ensures to in DEVICE_TRANSITIONS <==> to in DEVICE_MOVES
  {
  }

  /** A fresh mutation of anything but a job is decided by its table alone: the field's own records and the checklist are
      taken, one version on; what the office owns, or no one has spoken for, is rejected; what has legal weight waits for
      a person. A job takes moves only. */
  lemma {:induction false} FreshIsDecidedByTable(m: Mutation, server: Option<Job>, seen: set<Id>)
    requires m.mutationId !in seen
    ensures m.entityTable in {JobMedia, TimeEntries, ShiftPunches, PartsUsed, ChecklistItems} ==>
              Resolve(m, server, seen) == Applied(1 + if server.Some? then server.value.version else 0)
    ensures m.entityTable in {Assignments, ContractTermOverrides, RateCards, CrewCredentials, ComplianceClearances} ==>
              Resolve(m, server, seen) == Declined(Rejected, ServerOwns)
    ensures m.entityTable.Undeclared? ==> Resolve(m, server, seen) == Declined(Rejected, NoPolicy)
    ensures m.entityTable in {WarrantyCases, Signatures} ==> Resolve(m, server, seen) == Declined(QueuedForHuman, LegalWeight)
    ensures m.entityTable == Jobs && m.op != Transition ==> Resolve(m, server, seen) == Declined(Rejected, TransitionsOnly)
  {
  }

  /** A fresh move of a job that is not applied is rejected exactly when the device may not drive it or it would complete
      the job; a duplicate exactly when the job is already there; for a person exactly from where the office has moved the
      job on; and otherwise superseded. */
  lemma {:induction false} MoveIsDecided(m: Mutation, job: Job, seen: set<Id>)
    requires IsMove(m) && m.mutationId !in seen && m.payload.state.Some?
    ensures var to, reply := m.payload.state.value, Resolve(m, Some(job), seen);
      var drives := to in {EnRoute, InProgress, AwaitingParts, AwaitingCustomer, Complete, Aborted};
      var completes := to == Complete && job.state in {InProgress, NeedsPricing, AwaitingPo, AwaitingPictures};
      && (reply == Declined(Rejected, NotADevicesMove) <==> !drives)
      && (reply == Declined(Rejected, NeedsCompletionReport) <==> completes)
      && (reply == Duplicate <==> drives && to == job.state)
      && (reply == Declined(QueuedForHuman, OfficeMovedOn) <==> drives && job.state in {Cancelled, Invoiced, Reassigned})
      && (reply == Declined(Superseded, NotLegalFromHere) <==>
            drives && !completes && to != job.state && job.state !in {Cancelled, Invoiced, Reassigned}
            && to !in NextDeviceStates(job.state))
  {
    var to := m.payload.state.value;
    AppliedIffOffered(m, job, seen);
    FromTable(job.state, to);
    MoveReply(m, job, seen);
    hide NextDeviceStates, LegalFrom, Resolve;
    assert DEVICE_MOVES == {EnRoute, InProgress, AwaitingParts, AwaitingCustomer, Complete, Aborted};
    hide DEVICE_MOVES;
  }

  lemma {:induction false} MoveReply(m: Mutation, job: Job, seen: set<Id>)
    requires IsMove(m) && m.mutationId !in seen && m.payload.state.Some?
    ensures var from, to := job.state, m.payload.state.value;
      Resolve(m, Some(job), seen)
      == if to !in DEVICE_MOVES then Declined(Rejected, NotADevicesMove)
         else if to in LegalFrom(from) then
           if to == Complete then Declined(Rejected, NeedsCompletionReport) else Applied(job.version + 1)
         else if from == to then Duplicate
         else if from in {Cancelled, Invoiced, Reassigned} then Declined(QueuedForHuman, OfficeMovedOn)
         else Declined(Superseded, NotLegalFromHere)
  {
    hide LegalFrom;
  }

  /** What the table says of completing a job, of staying, and of the states only the office leaves. */
  lemma {:induction false} FromTable(from: JobState, to: JobState)
    ensures Complete in LegalFrom(from) <==> from in {InProgress, NeedsPricing, AwaitingPo, AwaitingPictures}
    ensures from !in LegalFrom(from)
    ensures from in {Cancelled, Invoiced, Reassigned} ==> to !in LegalFrom(from) || to !in DEVICE_MOVES
    ensures from in {Cancelled, Invoiced, Reassigned} ==> from !in DEVICE_MOVES
  {
  }
}

/** The server's half of the sync protocol: one batch replayed against what is already recorded. */
module Replay {
  import opened Common
  import opened SyncWire
  import opened JobStates
  import opened Resolution

  /** How one mutation is decided. The server passes Resolve; the protocol needs only what the two predicates say. */
  type Policy = (Mutation, Option<Job>, set<Id>) -> Outcome

  /** A recorded id is answered as a duplicate. */
  ghost predicate KnowsDuplicates(policy: Policy) {
    forall m: Mutation, job: Option<Job>, seen: set<Id> :: m.mutationId in seen ==> policy(m, job, seen) == Duplicate
  }

  /** A move the device may drive from where the job is is applied, one version on. */
  ghost predicate AppliesOffered(policy: Policy) {
    forall m: Mutation, job: Job, seen: set<Id> ::
      m.mutationId !in seen && IsMove(m)
      && m.payload.state.Some? && m.payload.state.value in NextDeviceStates(job.state)
      ==> policy(m, Some(job), seen) == Applied(job.version + 1)
  }

  /** And no other move is. */
  ghost predicate AppliesOnlyOffered(policy: Policy) {
    forall m: Mutation, job: Job, seen: set<Id> ::
      m.mutationId !in seen && IsMove(m) && m.payload.state.Some? && policy(m, Some(job), seen).Applied?
      ==> m.payload.state.value in NextDeviceStates(job.state)
  }

  /** The domain's resolver is such a policy. */
  lemma {:induction false} ResolveIsSuch()
    ensures KnowsDuplicates(Resolve) && AppliesOffered(Resolve) && AppliesOnlyOffered(Resolve)
  {
    forall m: Mutation, job: Job, seen: set<Id> |
      m.mutationId !in seen && IsMove(m) && m.payload.state.Some? && Resolve(m, Some(job), seen).Applied?
      ensures m.payload.state.value in NextDeviceStates(job.state)
    {
      AppliedIffOffered(m, job, seen);
    }
    forall m: Mutation, job: Job, seen: set<Id> |
      m.mutationId !in seen && IsMove(m)
      && m.payload.state.Some? && m.payload.state.value in NextDeviceStates(job.state)
      ensures Resolve(m, Some(job), seen) == Applied(job.version + 1)
    {
      AppliedIffOffered(m, job, seen);
    }
  }

  /** What the server keeps between requests. */
  datatype Server = Server(replayed: set<Id>, jobs: map<Id, Job>)

  /** One change of one job by one mutation. */
  datatype Write = Write(mutationId: Id, entityId: Id, job: Job)

  function WithState(m: Mutation): Mutation {
    if m.payload.state.None? && m.payload.to.Some?
    then m.(payload := m.payload.(state := m.payload.to))
    else m
  }

  function TargetState(m: Mutation): JobState {
    if WithState(m).payload.state.Some? then WithState(m).payload.state.value else Named("")
  }

  function JobOf(s: Server, m: Mutation): Option<Job> {
    if m.entityTable == Jobs && m.entityId in s.jobs then Some(s.jobs[m.entityId]) else None
  }

  function Decide(policy: Policy, s: Server, m: Mutation): Outcome {
    if m.mutationId !in s.replayed && m.entityTable == Jobs && JobOf(s, m).None?
    then Declined(Rejected, NotThisCrewsJob)
    else policy(WithState(m), JobOf(s, m), s.replayed)
  }

  /** The job change the decision makes, if it makes one. */
  function WriteOf(policy: Policy, s: Server, m: Mutation): Option<Write> {
    var outcome := Decide(policy, s, m);
    if outcome.Applied? && IsMove(m) && JobOf(s, m).Some?
    then Some(Write(m.mutationId, m.entityId, Job(TargetState(m), outcome.newVersion)))
    else None
  }

  function Perform(jobs: map<Id, Job>, w: Write): map<Id, Job> {
    jobs[w.entityId := w.job]
  }

  function Record(policy: Policy, s: Server, m: Mutation): Server {
    var w := WriteOf(policy, s, m);
    Server(s.replayed + {m.mutationId}, if w.Some? then Perform(s.jobs, w.value) else s.jobs)
  }

  /** The mutations taken in the order given, each decided against what the one before left. */
  function After(policy: Policy, s: Server, ms: seq<Mutation>): Server
    decreases ms
  {
    if ms == [] then s else After(policy, Record(policy, s, ms[0]), ms[1..])
  }

  function Answers(policy: Policy, s: Server, ms: seq<Mutation>): (r: seq<Answer>)
    ensures |r| == |ms| && forall i :: 0 <= i < |ms| ==> r[i].mutationId == ms[i].mutationId
    decreases ms
  {
    if ms == [] then []
    else [Answer(ms[0].mutationId, Decide(policy, s, ms[0]))] + Answers(policy, Record(policy, s, ms[0]), ms[1..])
  }

  function Writes(policy: Policy, s: Server, ms: seq<Mutation>): seq<Write>
    decreases ms
  {
    if ms == [] then []
    else
      var w := WriteOf(policy, s, ms[0]);
      (if w.Some? then [w.value] else []) + Writes(policy, Record(policy, s, ms[0]), ms[1..])
  }

  function PerformAll(jobs: map<Id, Job>, ws: seq<Write>): map<Id, Job>
    decreases ws
  {
    if ws == [] then jobs else PerformAll(Perform(jobs, ws[0]), ws[1..])
  }

  // ---- device order ----

  ghost predicate Ascending(ms: seq<Mutation>) {
    forall i, j :: 0 <= i < j < |ms| ==> ms[i].deviceSeq <= ms[j].deviceSeq
  }

  /** A stable insertion: before the first entry that does not come before `m`. */
  function Insert(m: Mutation, ms: seq<Mutation>): seq<Mutation> {
    if ms == [] then [m]
    else if m.deviceSeq <= ms[0].deviceSeq then [m] + ms
    else [ms[0]] + Insert(m, ms[1..])
  }

  /** The array sort by deviceSeq. */
  function SortBySeq(ms: seq<Mutation>): seq<Mutation> {
    if ms == [] then [] else Insert(ms[0], SortBySeq(ms[1..]))
  }

  lemma {:induction false} InsertKeepsAll(m: Mutation, ms: seq<Mutation>)
    ensures multiset(Insert(m, ms)) == multiset(ms) + multiset{m}
  {
    if ms != [] && m.deviceSeq > ms[0].deviceSeq {
      InsertKeepsAll(m, ms[1..]);
      assert ms == [ms[0]] + ms[1..];
    }
  }

  lemma {:induction false} InsertSorts(m: Mutation, ms: seq<Mutation>)
    requires Ascending(ms)
    ensures Ascending(Insert(m, ms))
  {
    if ms != [] && m.deviceSeq > ms[0].deviceSeq {
      var rest := Insert(m, ms[1..]);
      InsertSorts(m, ms[1..]);
      forall i | 0 <= i < |rest| ensures ms[0].deviceSeq <= rest[i].deviceSeq {
        InsertKeepsAll(m, ms[1..]);
        assert rest[i] in multiset(rest);
        assert rest[i] == m || rest[i] in ms[1..];
      }
    }
  }

  /** The sorted batch is in device order and is the same mutations. */
  lemma {:induction false} SortSorts(ms: seq<Mutation>)
    ensures Ascending(SortBySeq(ms)) && multiset(SortBySeq(ms)) == multiset(ms)
  {
    if ms != [] {
      SortSorts(ms[1..]);
      InsertSorts(ms[0], SortBySeq(ms[1..]));
      InsertKeepsAll(ms[0], SortBySeq(ms[1..]));
      assert ms == [ms[0]] + ms[1..];
    }
  }

  lemma {:induction false} WithSeqCons(m: Mutation, ms: seq<Mutation>, k: int)
    ensures WithSeq([m] + ms, k) == (if m.deviceSeq == k then [m] else []) + WithSeq(ms, k)
  {
    assert ([m] + ms)[1..] == ms;
  }

  lemma {:induction false} InsertKeepsTies(m: Mutation, ms: seq<Mutation>, k: int)
    ensures WithSeq(Insert(m, ms), k) == (if m.deviceSeq == k then [m] else []) + WithSeq(ms, k)
  {
    if ms == [] || m.deviceSeq <= ms[0].deviceSeq {
      WithSeqCons(m, ms, k);
    } else {
      var rest := Insert(m, ms[1..]);
      InsertKeepsTies(m, ms[1..], k);
      WithSeqCons(ms[0], rest, k);
      WithSeqCons(ms[0], ms[1..], k);
      assert ms == [ms[0]] + ms[1..];
      if m.deviceSeq == k {
        assert ms[0].deviceSeq != k;
      }
    }
  }

  function WithSeq(ms: seq<Mutation>, k: int): seq<Mutation> {
    if ms == [] then [] else (if ms[0].deviceSeq == k then [ms[0]] else []) + WithSeq(ms[1..], k)
  }

  /** The sort never reorders two mutations that carry the same number. */
  lemma {:induction false} SortIsStable(ms: seq<Mutation>, k: int)
    ensures WithSeq(SortBySeq(ms), k) == WithSeq(ms, k)
  {
    if ms != [] {
      SortIsStable(ms[1..], k);
      InsertKeepsTies(ms[0], SortBySeq(ms[1..]), k);
    }
  }

  /** A batch already in device order is replayed in exactly the order it was handed over. */
  lemma {:induction false} SortIsIdentity(ms: seq<Mutation>)
    requires Ascending(ms)
    ensures SortBySeq(ms) == ms
  {
    if ms != [] {
      SortIsIdentity(ms[1..]);
      assert ms == [ms[0]] + ms[1..];
      if |ms| > 1 { assert ms[0].deviceSeq <= ms[1].deviceSeq; }
    }
  }

  /** What the server reads a mutation as, before it is decided: a target under `to` counts where there is none under
      `state`; and a job no one here was sent to takes nothing. */
  lemma {:induction false} DecideReads(policy: Policy, s: Server, m: Mutation)
    ensures m.mutationId !in s.replayed && m.entityTable == Jobs && m.entityId !in s.jobs ==>
              Decide(policy, s, m) == Declined(Rejected, NotThisCrewsJob)
    ensures m.payload.state.Some? || m.payload.to.None? ==> WithState(m) == m
    ensures m.payload.state.None? && m.payload.to.Some? ==>
              WithState(m).payload.state == m.payload.to && WithState(m) == m.(payload := WithState(m).payload)
              && WithState(m).payload.(state := None) == m.payload
    ensures m.entityTable != Jobs ==> Decide(policy, s, m) == policy(WithState(m), None, s.replayed)
    ensures m.entityTable == Jobs && m.entityId in s.jobs ==>
              Decide(policy, s, m) == policy(WithState(m), Some(s.jobs[m.entityId]), s.replayed)
  {
  }

  /** A batch of the field's own records, fresh and distinct, is taken whole: every answer is applied, and no job changes. */
  lemma {:induction false} FieldRecordsAllApply(s: Server, ms: seq<Mutation>)
    requires forall m :: m in ms ==> m.entityTable in {JobMedia, TimeEntries, ShiftPunches, PartsUsed, ChecklistItems}
    requires forall m :: m in ms ==> m.mutationId !in s.replayed
    requires DistinctMutations(ms)
    ensures forall i :: 0 <= i < |ms| ==> Answers(Resolve, s, ms)[i] == Answer(ms[i].mutationId, Applied(1))
    ensures After(Resolve, s, ms).jobs == s.jobs
    decreases ms
  {
    hide Resolve, WithState;
    if ms != [] {
      var m, s' := ms[0], Record(Resolve, s, ms[0]);
      DecideReads(Resolve, s, m);
      assert WithState(m).mutationId == m.mutationId && WithState(m).entityTable == m.entityTable by { ReadsTheSame(m); }
      FreshIsDecidedByTable(WithState(m), None, s.replayed);
      FieldRecordsAllApply(s', ms[1..]);
      assert Answers(Resolve, s, ms) == [Answer(m.mutationId, Applied(1))] + Answers(Resolve, s', ms[1..]);
    }
  }

  lemma {:induction false} ReadsTheSame(m: Mutation)
    ensures WithState(m).mutationId == m.mutationId && WithState(m).entityTable == m.entityTable
  {
  }

  ghost predicate DistinctMutations(ms: seq<Mutation>) {
    forall i, j :: 0 <= i < j < |ms| ==> ms[i].mutationId != ms[j].mutationId
  }

  ghost predicate Away(m: Mutation, ms: seq<Mutation>) {
    forall x :: x in ms ==> x.mutationId != m.mutationId
  }

  lemma {:induction false} DistinctCons(m: Mutation, ms: seq<Mutation>)
    ensures DistinctMutations([m] + ms) <==> DistinctMutations(ms) && Away(m, ms)
  {
    var all := [m] + ms;
    if DistinctMutations(all) {
      forall i, j | 0 <= i < j < |ms| ensures ms[i].mutationId != ms[j].mutationId {
        assert all[i + 1] == ms[i] && all[j + 1] == ms[j];
      }
      forall x | x in ms ensures x.mutationId != m.mutationId {
        var j :| 0 <= j < |ms| && ms[j] == x;
        assert all[0] == m && all[j + 1] == x;
      }
    }
  }

  lemma {:induction false} InsertHas(m: Mutation, ms: seq<Mutation>)
    ensures forall x :: x in Insert(m, ms) <==> x == m || x in ms
  {
    InsertKeepsAll(m, ms);
    forall x ensures x in Insert(m, ms) <==> x == m || x in ms {
      assert x in multiset(Insert(m, ms)) <==> x in multiset([m] + ms);
    }
  }

  lemma {:induction false} InsertStaysDistinct(m: Mutation, ms: seq<Mutation>)
    requires DistinctMutations(ms) && Away(m, ms)
    ensures DistinctMutations(Insert(m, ms))
    decreases ms
  {
    hide DistinctMutations;
    DistinctCons(m, ms);
    if ms == [] {
      assert [m] + ms == [m];
    } else if m.deviceSeq > ms[0].deviceSeq {
      assert ms == [ms[0]] + ms[1..];
      DistinctCons(ms[0], ms[1..]);
      InsertStaysDistinct(m, ms[1..]);
      InsertHas(m, ms[1..]);
      DistinctCons(ms[0], Insert(m, ms[1..]));
    }
  }

  lemma {:induction false} SortStaysDistinct(ms: seq<Mutation>)
    ensures forall m :: m in SortBySeq(ms) <==> m in ms
    ensures DistinctMutations(ms) ==> DistinctMutations(SortBySeq(ms))
    decreases ms
  {
    hide DistinctMutations, Insert;
    if ms != [] {
      assert ms == [ms[0]] + ms[1..];
      DistinctCons(ms[0], ms[1..]);
      SortStaysDistinct(ms[1..]);
      InsertHas(ms[0], SortBySeq(ms[1..]));
      if DistinctMutations(ms) {
        InsertStaysDistinct(ms[0], SortBySeq(ms[1..]));
      }
    }
  }

  /** So a shift's clock-ins, time entries, photos, parts and ticks, sent together in whatever order, are never declined. */
  lemma {:induction false} FieldBatchIsTaken(s: Server, ms: seq<Mutation>)
    requires forall m :: m in ms ==> m.entityTable in {JobMedia, TimeEntries, ShiftPunches, PartsUsed, ChecklistItems}
    requires (forall m :: m in ms ==> m.mutationId !in s.replayed) && DistinctMutations(ms)
    ensures forall a :: a in Answers(Resolve, s, SortBySeq(ms)) ==> a.outcome == Applied(1)
    ensures After(Resolve, s, SortBySeq(ms)).jobs == s.jobs
  {
    SortStaysDistinct(ms);
    FieldRecordsAllApply(s, SortBySeq(ms));
  }

  // ---- the server object ----

  lemma {:induction false} Unroll(policy: Policy, s: Server, ms: seq<Mutation>, i: nat)
    requires i < |ms|
    ensures After(policy, s, ms[i..]) == After(policy, Record(policy, s, ms[i]), ms[i + 1..])
    ensures Answers(policy, s, ms[i..])
         == [Answer(ms[i].mutationId, Decide(policy, s, ms[i]))] + Answers(policy, Record(policy, s, ms[i]), ms[i + 1..])
  {
    assert ms[i..][1..] == ms[i + 1..];
  }

  /** The rows and the recorded ids, changed in place by each batch. */
  class ReplayServer {
    var replayed: set<Id>
    var jobs: map<Id, Job>

    function State(): Server
      reads this
    {
      Server(replayed, jobs)
    }

    constructor (jobs0: map<Id, Job>)
      ensures State() == Server({}, jobs0)
    {
      replayed, jobs := {}, jobs0;
    }

    /** One turn of the loop: decide against the recorded ids, record the id, then write the job if applied. */
    method Take(policy: Policy, raw: Mutation) returns (answer: Answer)
      modifies this
      ensures State() == Record(policy, old(State()), raw)
      ensures answer == Answer(raw.mutationId, Decide(policy, old(State()), raw))
    {
      var m := WithState(raw);
      var job := if m.entityTable == Jobs && m.entityId in jobs then Some(jobs[m.entityId]) else None;
      var outcome :=
        if m.mutationId in replayed then policy(m, job, replayed)
        else if m.entityTable == Jobs && job.None? then Declined(Rejected, NotThisCrewsJob)
        else policy(m, job, replayed);
      replayed := replayed + {m.mutationId};
      if outcome.Applied? && m.entityTable == Jobs && m.op == Transition && job.Some? {
        var to := if m.payload.state.Some? then m.payload.state.value else Named("");
        jobs := jobs[m.entityId := Job(to, outcome.newVersion)];
      }
      answer := Answer(m.mutationId, outcome);
    }

    /** Sorts the batch and takes it one mutation at a time. The source's `seen` always equals `replayed`. */
    method ReplaySync(policy: Policy, mutations: seq<Mutation>) returns (outcomes: seq<Answer>)
      modifies this
      ensures State() == After(policy, old(State()), SortBySeq(mutations))
      ensures outcomes == Answers(policy, old(State()), SortBySeq(mutations))
    {
      outcomes := [];
      var sorted := SortBySeq(mutations);
      ghost var all := Answers(policy, State(), sorted);
      var i := 0;
      assert sorted[0..] == sorted;
      while i < |sorted|
        invariant 0 <= i <= |sorted|
        invariant After(policy, old(State()), sorted) == After(policy, State(), sorted[i..])
        invariant all == outcomes + Answers(policy, State(), sorted[i..])
      {
        Unroll(policy, State(), sorted, i);
        var answer := Take(policy, sorted[i]);
        AppendAssociates(outcomes, [answer], Answers(policy, State(), sorted[i + 1..]));
        outcomes, i := outcomes + [answer], i + 1;
      }
      assert sorted[i..] == [];
    }
  }

  // ---- what any stream of batches does to the server ----

  lemma {:induction false} RecordedIds(policy: Policy, s: Server, ms: seq<Mutation>)
    decreases ms
    ensures After(policy, s, ms).replayed == s.replayed + set m | m in ms :: m.mutationId
  {
    if ms != [] {
      RecordedIds(policy, Record(policy, s, ms[0]), ms[1..]);
      assert ms == [ms[0]] + ms[1..];
      assert (set m | m in ms :: m.mutationId) == {ms[0].mutationId} + (set m | m in ms[1..] :: m.mutationId);
    }
  }

  ghost predicate DistinctIds(ws: seq<Write>) {
    forall i, j :: 0 <= i < j < |ws| ==> ws[i].mutationId != ws[j].mutationId
  }

  lemma {:induction false} WritesAreNew(policy: Policy, s: Server, ms: seq<Mutation>)
    decreases ms
    requires KnowsDuplicates(policy)
    ensures forall w :: w in Writes(policy, s, ms) ==> w.mutationId !in s.replayed
  {
    if ms != [] {
      WritesAreNew(policy, Record(policy, s, ms[0]), ms[1..]);
    }
  }

  /** However mutations are repeated, reordered or regrouped into requests, the rows end as the original ones
      with the listed writes performed, and no id is behind two of those writes. */
  lemma {:induction false} EachIdWritesAtMostOnce(policy: Policy, s: Server, ms: seq<Mutation>)
    decreases ms
    requires KnowsDuplicates(policy)
    ensures After(policy, s, ms).jobs == PerformAll(s.jobs, Writes(policy, s, ms))
    ensures DistinctIds(Writes(policy, s, ms))
  {
    if ms != [] {
      var s' := Record(policy, s, ms[0]);
      EachIdWritesAtMostOnce(policy, s', ms[1..]);
      WritesAreNew(policy, s', ms[1..]);
      var rest := Writes(policy, s', ms[1..]);
      match WriteOf(policy, s, ms[0])
      case Some(w) =>
        assert Writes(policy, s, ms) == [w] + rest;
        assert ([w] + rest)[1..] == rest;
        assert w.mutationId in s'.replayed;
      case None =>
        assert Writes(policy, s, ms) == rest;
    }
  }

  /** Sending again what is already recorded gets nothing but duplicates and changes nothing. */
  lemma {:induction false} ReplayAgainIsNoOp(policy: Policy, s: Server, ms: seq<Mutation>)
    decreases ms
    requires KnowsDuplicates(policy)
    requires forall m :: m in ms ==> m.mutationId in s.replayed
    ensures After(policy, s, ms) == s
    ensures forall a :: a in Answers(policy, s, ms) ==> a.outcome == Duplicate
  {
    if ms != [] {
      assert s.replayed + {ms[0].mutationId} == s.replayed;
      ReplayAgainIsNoOp(policy, s, ms[1..]);
    }
  }
}
