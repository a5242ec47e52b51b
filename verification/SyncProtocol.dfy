/** Queue, lossy link and replay server together: what holds over every run, whatever is lost, late or repeated. */
module SyncProtocol {
  import opened Common
  import opened SyncWire
  import opened Replay
  import opened OfflineQueue

  /** A batch put on the wire. `from` is the place in the log of its first entry. */
  datatype Request = Request(batch: seq<Entry>, from: nat)

  datatype Response = Response(request: nat, answers: seq<Answer>)

  /** What changes the job rows: a device's mutation, or the office. */
  datatype Event = ByMutation(write: Write) | ByOffice(entityId: Id, job: Job)

  /** The device, the server and everything ever sent between them, with the history the properties speak of:
      `log` is every intent in the order it was enqueued, `heard` the answers the device took, `decisions` what
      the server decided, both for the first entries of the log; `dismissed` the notes the technician put away. */
  datatype World = World(dev: Device, srv: Server, requests: seq<Request>, responses: seq<Response>, awaiting: nat,
                         log: seq<Entry>, heard: seq<Outcome>, decisions: seq<Outcome>, dismissed: set<Id>,
                         jobs0: map<Id, Job>, events: seq<Event>)

  datatype Step =
    | Enqueue(id: Id, intent: Intent, now: int)
    | Dismiss(id: Id)
    | Send                        // the page calls flush
    | GiveUp                      // the await throws: refused, timed out, unreachable
    | Deliver(request: nat)       // a request reaches the server: soon, late, never or twice
    | Receive(response: nat)      // an answer to the flush under way reaches the page
    | Reload                      // at any moment, a flush under way included
    | OtherDevice(ms: seq<Mutation>)
    | Office(entityId: Id, job: Job)

  function Ids(log: seq<Entry>): set<Id> {
    set e | e in log :: e.mutation.mutationId
  }

  ghost predicate Can(w: World, s: Step) {
    match s
    case Enqueue(id, _, _) => id !in Ids(w.log) && id !in w.srv.replayed
    case Dismiss(id) => exists a :: a in w.dev.attention && a.mutationId == id
    case Send => true
    case GiveUp => w.dev.flight.Some?
    case Deliver(n) => n < |w.requests|
    case Receive(n) => w.dev.flight.Some? && n < |w.responses| && w.responses[n].request == w.awaiting
                       && |w.dev.flight.value| <= |w.dev.pending|
    case Reload => true
    case OtherDevice(ms) => forall m :: m in ms ==> m.mutationId !in Ids(w.log)
    case Office(_, _) => true
  }

  function Outcomes(answers: seq<Answer>): (r: seq<Outcome>)
    ensures |r| == |answers| && forall i :: 0 <= i < |r| ==> r[i] == answers[i].outcome
  {
    seq(|answers|, i requires 0 <= i < |answers| => answers[i].outcome)
  }

  function Told(batch: seq<Entry>, byId: map<Id, Outcome>): seq<Outcome> {
    if batch == [] then []
    else
      var id := batch[|batch| - 1].mutation.mutationId;
      Told(batch[..|batch| - 1], byId) + (if id in byId then [byId[id]] else [])
  }

  function AsEvents(ws: seq<Write>): (r: seq<Event>)
    ensures |r| == |ws| && forall i :: 0 <= i < |r| ==> r[i] == ByMutation(ws[i])
  {
    seq(|ws|, i requires 0 <= i < |ws| => ByMutation(ws[i]))
  }

  function Replayed(policy: Policy, w: World, ms: seq<Mutation>): World {
    w.(srv := After(policy, w.srv, ms), events := w.events + AsEvents(Writes(policy, w.srv, ms)))
  }

  /** The decisions the server had not made before this request. */
  function NewDecisions(w: World, r: Request, answers: seq<Answer>): seq<Outcome> {
    var known := |w.decisions| - r.from;
    if 0 <= known <= |answers| then Outcomes(answers)[known..] else []
  }

  function Sent(w: World): World {
    if CanFlush(w.dev)
    then w.(dev := Flushing(w.dev), requests := w.requests + [Request(w.dev.pending, |w.heard|)], awaiting := |w.requests|)
    else w
  }

  function Delivered(policy: Policy, w: World, n: nat): World
    requires n < |w.requests|
  {
    var ms := SortBySeq(Mutations(w.requests[n].batch));
    var answers := Answers(policy, w.srv, ms);
    Replayed(policy, w, ms).(responses := w.responses + [Response(n, answers)],
                             decisions := w.decisions + NewDecisions(w, w.requests[n], answers))
  }

  function Received(w: World, n: nat): World
    requires w.dev.flight.Some? && n < |w.responses| && |w.dev.flight.value| <= |w.dev.pending|
  {
    var answers := w.responses[n].answers;
    w.(dev := Answered(w.dev, answers), heard := w.heard + Told(w.dev.flight.value, ById(answers)))
  }

  ghost function Next(policy: Policy, w: World, s: Step): World
    requires Can(w, s)
  {
    match s
    case Enqueue(id, intent, now) =>
      w.(dev := Enqueued(w.dev, id, intent, now), log := w.log + [Minted(w.dev, id, intent, now)])
    case Dismiss(id) => w.(dev := Dismissed(w.dev, id), dismissed := w.dismissed + {id})
    case Send => Sent(w)
    case GiveUp => w.(dev := Unreached(w.dev))
    case Deliver(n) => Delivered(policy, w, n)
    case Receive(n) => Received(w, n)
    case Reload => w.(dev := Reloaded(w.dev))
    case OtherDevice(ms) => Replayed(policy, w, SortBySeq(ms))
    case Office(entityId, job) =>
      w.(srv := w.srv.(jobs := w.srv.jobs[entityId := job]), events := w.events + [ByOffice(entityId, job)])
  }

  /** A first sign-in on this device, with the office's rows and recorded ids whatever they are. */
  ghost predicate Start(w: World) {
    && w.dev == Opened(w.dev.deviceId, [], [])
    && w.requests == [] && w.responses == [] && w.log == [] && w.heard == [] && w.decisions == []
    && w.dismissed == {} && w.events == [] && w.jobs0 == w.srv.jobs
  }

  ghost predicate Run(policy: Policy, w: World, steps: seq<Step>, w': World)
    decreases steps
  {
    if steps == [] then w' == w
    else Can(w, steps[0]) && Run(policy, Next(policy, w, steps[0]), steps[1..], w')
  }

  // ---- the invariant, in parts ----

  ghost predicate DistinctEntries(log: seq<Entry>) {
    forall i, j :: 0 <= i < j < |log| ==> log[i].mutation.mutationId != log[j].mutation.mutationId
  }

  ghost predicate Climbing(es: seq<Entry>) {
    forall i, j :: 0 <= i < j < |es| ==> es[i].mutation.deviceSeq < es[j].mutation.deviceSeq
  }

  ghost predicate LogOk(w: World) {
    && DistinctEntries(w.log)
    && (forall e :: e in w.log ==> e.mutation.deviceId == w.dev.deviceId)
    && |w.heard| <= |w.decisions| <= |w.log|
    && (forall i :: 0 <= i < |w.log| ==> (w.log[i].mutation.mutationId in w.srv.replayed <==> i < |w.decisions|))
  }

  ghost predicate QueueOk(w: World) {
    && |w.heard| <= |w.log|
    && w.dev.pending == w.log[|w.heard|..]
    && w.dev.keptPending == w.dev.pending
    && w.dev.keptAttention == w.dev.attention
    && Climbing(w.dev.pending)
    && (forall e :: e in w.dev.pending ==> 1 <= e.mutation.deviceSeq <= w.dev.lastSeq)
    && 0 <= w.dev.lastSeq
  }

  ghost predicate FlightOk(w: World) {
    w.dev.flight.Some? ==>
      && w.awaiting < |w.requests|
      && w.dev.flight.value == w.requests[w.awaiting].batch
      && w.requests[w.awaiting].from == |w.heard|
      && |w.dev.flight.value| <= |w.dev.pending|
      && w.dev.flight.value == w.dev.pending[..|w.dev.flight.value|]
  }

  ghost predicate RequestOk(w: World, r: Request) {
    && r.from <= |w.decisions|
    && r.from + |r.batch| <= |w.log|
    && r.batch == w.log[r.from..r.from + |r.batch|]
    && Climbing(r.batch)
  }

  ghost predicate ResponseOk(w: World, p: Response) {
    && p.request < |w.requests|
    && var r := w.requests[p.request];
       && |p.answers| == |r.batch|
       && r.from + |r.batch| <= |w.decisions|
       && forall i :: 0 <= i < |p.answers| ==>
            && p.answers[i].mutationId == r.batch[i].mutation.mutationId
            && (p.answers[i].outcome == Duplicate || p.answers[i].outcome == w.decisions[r.from + i])
  }

  ghost predicate WireOk(w: World) {
    && (forall r :: r in w.requests ==> RequestOk(w, r))
    && (forall p :: p in w.responses ==> ResponseOk(w, p))
  }

  ghost predicate HeardOk(w: World) {
    && |w.heard| <= |w.decisions|
    && forall i :: 0 <= i < |w.heard| ==> w.heard[i] == Duplicate || w.heard[i] == w.decisions[i]
  }

  /** The notes the answers call for, less the dismissed ones. */
  function Surfaced(es: seq<Entry>, outcomes: seq<Outcome>, dismissed: set<Id>): seq<Attention>
    requires |es| == |outcomes|
  {
    if es == [] then []
    else
      var n := |es| - 1;
      Surfaced(es[..n], outcomes[..n], dismissed)
      + (if outcomes[n].Declined? && es[n].mutation.mutationId !in dismissed
         then [Flag(es[n], outcomes[n].kind, outcomes[n].note)] else [])
  }

  ghost predicate NotesOk(w: World) {
    && |w.heard| <= |w.log|
    && w.dev.attention == Surfaced(w.log[..|w.heard|], w.heard, w.dismissed)
    && w.dismissed <= Ids(w.log[..|w.heard|])
  }

  function Replaying(jobs: map<Id, Job>, es: seq<Event>): map<Id, Job> {
    if es == [] then jobs
    else
      var before := Replaying(jobs, es[..|es| - 1]);
      match es[|es| - 1]
      case ByMutation(write) => Perform(before, write)
      case ByOffice(id, job) => before[id := job]
  }

  ghost predicate TraceOk(w: World) {
    && w.srv.jobs == Replaying(w.jobs0, w.events)
    && (forall i :: 0 <= i < |w.events| && w.events[i].ByMutation? ==> w.events[i].write.mutationId in w.srv.replayed)
    && (forall i, j :: 0 <= i < j < |w.events| && w.events[i].ByMutation? && w.events[j].ByMutation?
          ==> w.events[i].write.mutationId != w.events[j].write.mutationId)
  }

  ghost predicate Inv(w: World) {
    LogOk(w) && QueueOk(w) && FlightOk(w) && WireOk(w) && HeardOk(w) && NotesOk(w) && TraceOk(w)
  }
}
