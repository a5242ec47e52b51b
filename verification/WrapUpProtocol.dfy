/** The wrap-up outbox at work: the screens' edits, a flush suspended at its awaits, a lossy link and the office. */
module WrapUpProtocol {
  import opened Common
  import opened WrapUps

  /** What a flush sends. */
  datatype Call = Attach(shotId: Id) | Report(entry: Entry)

  datatype Verdict = Taken | MediaMissing | RefusedOtherwise

  datatype Office = Office(media: set<Id>, wrapUps: set<Id>)

  /** Where a flush waits: for a shot's bytes, for an upload's answer, for the report's, or for a delete. */
  datatype Point = Reading(id: Id) | Attaching(id: Id, call: nat) | Reporting(call: nat) | Cleaning(left: seq<Id>)

  /** A flush under way: the entries of its snapshot still to come, the one it is on, its shots still to send. */
  datatype Flight = Flight(rest: seq<Entry>, entry: Entry, todo: seq<Id>, at: Point)

  /** A draft edit suspended at an await. */
  datatype Op =
    | Putting(job: Id, kind: Kind, shot: Shot, bytes: Bytes)
    | Replacing(job: Id, shot: Shot, prior: Id)
    | Removing(job: Id, id: Id)
    | Clearing(job: Id, prior: Id)

  /** Where a shot belongs; `InHand` while it is being added. */
  datatype Owner = InHand | OfDraft(job: Id, kind: Kind) | OfEntry(wrapUpId: Id, kind: Kind)

  /** The page, the link and the office, with the history the properties speak of: every id minted, what became
      of each wrap-up submitted, and whose each shot is. */
  datatype World = World(page: Page, ops: seq<Op>, flight: Option<Flight>, office: Office, calls: seq<Call>,
                         answers: set<(nat, Verdict)>, minted: set<Id>, submitted: set<Id>, superseded: set<Id>,
                         reopened: set<Id>, owner: map<Id, Owner>)

  datatype Step =
    | EditText(job: Id, finish: Finish, notes: string, measurements: Measurements, absent: bool, reason: string)
    | AddShot(job: Id, kind: Kind, id: Id, at: int, bytes: Bytes)
    | RemovePhoto(job: Id, id: Id)
    | ClearSignature(job: Id)
    | OpDone(op: nat)                       // the await of a suspended edit is over
    | Submit(job: Id, wrapUpId: Id, at: int)
    | Reopen(job: Id)
    | StartFlush
    | BytesRead
    | Answered(verdict: Verdict)            // an answer to the call the flush waits for
    | NoAnswer                              // refused connection, time out, ended session
    | Deleted
    | MediaFailed                           // a read or a delete of the media store rejects
    | Deliver(call: nat, verdict: Verdict)  // the office takes a call: soon, late, never or twice
    | Reload

  function ShotIds(e: Entry): set<Id> {
    set s | s in Shots(e) :: s.id
  }

  function WrapUpIds(es: seq<Entry>): set<Id> {
    set e | e in es :: e.wrapUpId
  }

  /** The shots still to send, photos first and the signature last. */
  function Unsent(shots: seq<Sent>): (r: seq<Id>)
    ensures forall id :: id in r ==> exists s :: s in shots && s.id == id && !s.sent
    ensures forall s :: s in shots && !s.sent ==> s.id in r
  {
    if shots == [] then []
    else
      assert shots == [shots[0]] + shots[1..];
      (if shots[0].sent then [] else [shots[0].id]) + Unsent(shots[1..])
  }

  function IdsOf(shots: seq<Sent>): (r: seq<Id>)
    ensures |r| == |shots| && forall i :: 0 <= i < |r| ==> r[i] == shots[i].id
  {
    seq(|shots|, i requires 0 <= i < |shots| => shots[i].id)
  }

  /** On to the next shot of the entry, or to its report when every shot is sent. */
  function NextShot(w: World, rest: seq<Entry>, e: Entry, todo: seq<Id>): World {
    if todo == []
    then w.(calls := w.calls + [Report(e)], flight := Some(Flight(rest, e, [], Reporting(|w.calls|))))
    else w.(flight := Some(Flight(rest, e, todo[1..], Reading(todo[0]))))
  }

  /** On to the next entry of the snapshot, or to the end of the flush. */
  function NextEntry(w: World, rest: seq<Entry>): World {
    if rest == [] then w.(flight := None)
    else NextShot(w, rest[1..], rest[0], Unsent(Shots(rest[0])))
  }

  function Refused(w: World, why: Refusal): World
    requires w.flight.Some?
  {
    var f := w.flight.value;
    NextEntry(w.(page := Replaced(w.page, f.entry.wrapUpId, Some(f.entry.(refused := Some(why))))), f.rest)
  }

  function ReadBytes(w: World): World
    requires w.flight.Some? && w.flight.value.at.Reading?
  {
    var f := w.flight.value;
    if f.at.id !in w.page.media then Refused(w, LostShot)
    else w.(calls := w.calls + [Attach(f.at.id)], flight := Some(f.(at := Attaching(f.at.id, |w.calls|))))
  }

  function Attached(w: World): World
    requires w.flight.Some? && w.flight.value.at.Attaching?
  {
    var f := w.flight.value;
    var next := Marked(f.entry, f.at.id);
    NextShot(w.(page := Replaced(w.page, f.entry.wrapUpId, Some(next))), f.rest, next, f.todo)
  }

  function Reported(w: World): World
    requires w.flight.Some?
  {
    var f := w.flight.value;
    w.(page := Replaced(w.page, f.entry.wrapUpId, None), flight := Some(f.(at := Cleaning(IdsOf(Shots(f.entry))))))
  }

  function Cleaned(w: World): World
    requires w.flight.Some? && w.flight.value.at.Cleaning?
  {
    var f := w.flight.value;
    var w1 := if f.at.left == [] then w else w.(page := Forgotten(w.page, f.at.left[0]));
    if |f.at.left| <= 1 then NextEntry(w1, f.rest) else w1.(flight := Some(f.(at := Cleaning(f.at.left[1..]))))
  }

  function Judged(w: World, call: nat, v: Verdict): World
    requires call < |w.calls|
  {
    var office := if v != Taken then w.office
                  else match w.calls[call]
                    case Attach(id) => w.office.(media := w.office.media + {id})
                    case Report(e) => w.office.(wrapUps := w.office.wrapUps + {e.wrapUpId});
    w.(office := office, answers := w.answers + {(call, v)})
  }

  /** The office takes a report only over media it holds, and says so when some is missing. */
  predicate MayJudge(w: World, call: nat, v: Verdict) {
    && call < |w.calls|
    && match w.calls[call]
       case Attach(_) => v != MediaMissing
       case Report(e) => (v == Taken ==> ShotIds(e) <= w.office.media) && (v == MediaMissing ==> !(ShotIds(e) <= w.office.media))
  }

  function CallAwaited(at: Point): Option<nat> {
    match at
    case Attaching(_, call) => Some(call)
    case Reporting(call) => Some(call)
    case _ => None
  }

  function DraftShots(d: Draft): set<Id> {
    (set s | s in d.photos :: s.id) + (if d.signature.Some? then {d.signature.value.id} else {})
  }

  function Given(owner: map<Id, Owner>, e: Entry): map<Id, Owner> {
    owner + (map s | s in e.photos :: s.id := OfEntry(e.wrapUpId, Photo))
          + (if e.signature.Some? then map[e.signature.value.id := OfEntry(e.wrapUpId, Signature)] else map[])
  }

  function TakenBack(owner: map<Id, Owner>, e: Entry): map<Id, Owner> {
    owner + (map s | s in e.photos :: s.id := OfDraft(e.jobId, Photo))
          + (if e.signature.Some? then map[e.signature.value.id := OfDraft(e.jobId, Signature)] else map[])
  }

  function AfterSubmit(w: World, job: Id, wrapUpId: Id, at: int): World {
    var d := DraftFor(w.page, job);
    if !Ready(d) then w
    else
      var e := EntryOf(d, job, wrapUpId, at);
      w.(page := Submitted(w.page, job, wrapUpId, at), minted := w.minted + {wrapUpId},
         submitted := w.submitted + {wrapUpId},
         superseded := w.superseded + (set x | x in w.page.outbox && x.jobId == job :: x.wrapUpId),
         owner := Given(w.owner, e))
  }

  function AfterReopen(w: World, job: Id): World {
    match Find(w.page.outbox, job)
    case None => w
    case Some(e) =>
      w.(page := Reopened(w.page, job), reopened := w.reopened + {e.wrapUpId}, owner := TakenBack(w.owner, e))
  }

  function WithoutOp(ops: seq<Op>, k: nat): (r: seq<Op>)
    requires k < |ops|
    ensures forall o :: o in r ==> o in ops
  {
    ops[..k] + ops[k + 1..]
  }

  function AfterPut(w: World, op: Op): World
    requires op.Putting?
  {
    var prior := DraftFor(w.page, op.job).signature;
    var stored := w.(page := Stored(w.page, op.job, op.kind, op.shot, op.bytes));
    if op.kind == Signature && prior.Some?
    then stored.(ops := stored.ops + [Replacing(op.job, op.shot, prior.value.id)])
    else stored.(owner := w.owner[op.shot.id := OfDraft(op.job, op.kind)])
  }

  function AfterOp(w: World, op: Op): World {
    match op
    case Putting(_, _, _, _) => AfterPut(w, op)
    case Replacing(job, shot, _) =>
      w.(page := SignatureSet(w.page, job, shot), owner := w.owner[shot.id := OfDraft(job, Signature)])
    case Removing(job, id) => w.(page := PhotoDropped(w.page, job, id))
    case Clearing(job, _) => w.(page := SignatureDropped(w.page, job))
  }

  function AfterClear(w: World, job: Id): World {
    match DraftFor(w.page, job).signature
    case None => w.(page := SignatureDropped(w.page, job))
    case Some(s) => w.(page := Forgotten(w.page, s.id), ops := w.ops + [Clearing(job, s.id)])
  }

  function AfterAnswer(w: World, v: Verdict): World
    requires w.flight.Some? && CallAwaited(w.flight.value.at).Some?
  {
    if v != Taken then Refused(w, OfficeRefused)
    else if w.flight.value.at.Attaching? then Attached(w)
    else Reported(w)
  }

  /** The page opens again on what storage holds; suspended edits and the flush are gone. */
  function AfterReload(w: World): World {
    w.(page := Page(w.page.keptDrafts, w.page.keptOutbox, w.page.keptDrafts, w.page.keptOutbox, w.page.media),
       ops := [], flight := None)
  }

  ghost predicate Can(w: World, s: Step) {
    match s
    case AddShot(_, _, id, _, _) => id !in w.minted
    case OpDone(k) => k < |w.ops|
    case Submit(_, x, _) => x !in w.minted
    case StartFlush => w.flight.None?
    case BytesRead => w.flight.Some? && w.flight.value.at.Reading?
    case Answered(v) => w.flight.Some? && CallAwaited(w.flight.value.at).Some?
                        && (CallAwaited(w.flight.value.at).value, v) in w.answers
    case NoAnswer => w.flight.Some? && CallAwaited(w.flight.value.at).Some?
    case Deleted => w.flight.Some? && w.flight.value.at.Cleaning?
    case MediaFailed => w.flight.Some? && CallAwaited(w.flight.value.at).None?
    case Deliver(n, v) => MayJudge(w, n, v)
    case _ => true
  }

  ghost function Next(w: World, s: Step): World
    requires Can(w, s)
  {
    match s
    case EditText(job, finish, notes, measurements, absent, reason) =>
      var d := DraftFor(w.page, job);
      w.(page := Edited(w.page, job, Draft(finish, d.photos, notes, measurements, d.signature, absent, reason)))
    case AddShot(job, kind, id, at, bytes) =>
      w.(ops := w.ops + [Putting(job, kind, Shot(id, at), bytes)], minted := w.minted + {id}, owner := w.owner[id := InHand])
    case RemovePhoto(job, id) => w.(page := Forgotten(w.page, id), ops := w.ops + [Removing(job, id)])
    case ClearSignature(job) => AfterClear(w, job)
    case OpDone(k) => AfterOp(w.(ops := WithoutOp(w.ops, k)), w.ops[k])
    case Submit(job, x, at) => AfterSubmit(w, job, x, at)
    case Reopen(job) => AfterReopen(w, job)
    case StartFlush => NextEntry(w, Waiting(w.page.outbox))
    case BytesRead => ReadBytes(w)
    case Answered(v) => AfterAnswer(w, v)
    case NoAnswer => w.(flight := None)
    case MediaFailed => w.(flight := None)
    case Deleted => Cleaned(w)
    case Deliver(n, v) => Judged(w, n, v)
    case Reload => AfterReload(w)
  }

  /** A first sign-in on this device. */
  ghost predicate Start(w: World) {
    && w.page == Page(map[], [], map[], [], map[]) && w.ops == [] && w.flight == None
    && w.calls == [] && w.answers == {} && w.submitted == {} && w.superseded == {} && w.reopened == {} && w.owner == map[]
  }

  ghost predicate Run(w: World, steps: seq<Step>, w': World)
    decreases steps
  {
    if steps == [] then w' == w
    else Can(w, steps[0]) && Run(Next(w, steps[0]), steps[1..], w')
  }
}
