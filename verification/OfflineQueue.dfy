/** The device's half of the sync protocol: intents kept in order until the office has answered them. */
module OfflineQueue {
  import opened Common
  import opened SyncWire

  datatype Entry = Entry(mutation: Mutation, enqueuedAt: int)

  /** A mutation the office did not simply take, for the technician to read. */
  datatype Attention = Attention(mutationId: Id, entityTable: Table, entityId: Id, kind: Refusal, note: Note)

  /** What an intent is made of, before the queue numbers it. */
  datatype Intent = Intent(entityTable: Table, entityId: Id, op: Op, payload: Payload, observed: Option<int>)

  /** One queue: what the page holds, and what its storage holds under this device and technician.
      `flight` is the batch a flush is awaiting an answer to. */
  datatype Device = Device(deviceId: Id, pending: seq<Entry>, attention: seq<Attention>, lastSeq: int,
                           flight: Option<seq<Entry>>, keptPending: seq<Entry>, keptAttention: seq<Attention>)

  // ---- what each piece of the queue computes ----

  function MaxSeq(es: seq<Entry>): (r: int)
    ensures r >= 0 && forall e :: e in es ==> e.mutation.deviceSeq <= r
    ensures r == 0 || exists e :: e in es && e.mutation.deviceSeq == r
  {
    if es == [] then 0
    else
      var before := MaxSeq(es[..|es| - 1]);
      var last := es[|es| - 1];
      assert es == es[..|es| - 1] + [last];
      if last.mutation.deviceSeq > before then last.mutation.deviceSeq else before
  }

  /** The stored entries this device trusts: its own. */
  function Own(deviceId: Id, es: seq<Entry>): (r: seq<Entry>)
    ensures forall e :: e in r <==> e in es && e.mutation.deviceId == deviceId
    ensures (forall e :: e in es ==> e.mutation.deviceId == deviceId) ==> r == es
  {
    if es == [] then []
    else
      assert es == [es[0]] + es[1..];
      (if es[0].mutation.deviceId == deviceId then [es[0]] else []) + Own(deviceId, es[1..])
  }

  /** The answers by id; a later answer for the same id replaces an earlier one. */
  function ById(answers: seq<Answer>): (r: map<Id, Outcome>)
    ensures forall id :: id in r <==> exists a :: a in answers && a.mutationId == id
  {
    if answers == [] then map[]
    else
      var last := answers[|answers| - 1];
      assert answers == answers[..|answers| - 1] + [last];
      ById(answers[..|answers| - 1])[last.mutationId := last.outcome]
  }

  function Unanswered(batch: seq<Entry>, byId: map<Id, Outcome>): seq<Entry> {
    if batch == [] then []
    else
      var e := batch[|batch| - 1];
      Unanswered(batch[..|batch| - 1], byId) + (if e.mutation.mutationId in byId then [] else [e])
  }

  function Flag(e: Entry, kind: Refusal, note: Note): Attention {
    Attention(e.mutation.mutationId, e.mutation.entityTable, e.mutation.entityId, kind, note)
  }

  function Flagged(batch: seq<Entry>, byId: map<Id, Outcome>): seq<Attention> {
    if batch == [] then []
    else
      var e := batch[|batch| - 1];
      Flagged(batch[..|batch| - 1], byId)
      + (if e.mutation.mutationId in byId && byId[e.mutation.mutationId].Declined?
         then [Flag(e, byId[e.mutation.mutationId].kind, byId[e.mutation.mutationId].note)] else [])
  }

  function Without(notes: seq<Attention>, mutationId: Id): (r: seq<Attention>)
    ensures forall a :: a in r <==> a in notes && a.mutationId != mutationId
  {
    if notes == [] then []
    else
      assert notes == [notes[0]] + notes[1..];
      (if notes[0].mutationId != mutationId then [notes[0]] else []) + Without(notes[1..], mutationId)
  }

  // ---- the atomic steps: everything the code does between two awaits ----

  function Opened(deviceId: Id, keptPending: seq<Entry>, keptAttention: seq<Attention>): Device {
    var own := Own(deviceId, keptPending);
    Device(deviceId, own, keptAttention, MaxSeq(own), None, keptPending, keptAttention)
  }

  function Minted(d: Device, id: Id, i: Intent, now: int): Entry {
    Entry(Mutation(id, d.deviceId, d.lastSeq + 1, i.entityTable, i.entityId, i.op, i.payload, i.observed, now), now)
  }

  function Persisted(d: Device, next: seq<Entry>): Device {
    d.(pending := next, keptPending := next)
  }

  function Enqueued(d: Device, id: Id, i: Intent, now: int): Device {
    Persisted(d, d.pending + [Minted(d, id, i, now)]).(lastSeq := d.lastSeq + 1)
  }

  function Dismissed(d: Device, mutationId: Id): Device {
    d.(attention := Without(d.attention, mutationId), keptAttention := Without(d.attention, mutationId))
  }

  predicate CanFlush(d: Device) {
    d.flight.None? && d.pending != []
  }

  function Flushing(d: Device): Device {
    if CanFlush(d) then d.(flight := Some(d.pending)) else d
  }

  function Unreached(d: Device): Device {
    d.(flight := None)
  }

  /** The tail past the batch is whatever was enqueued while the answer was awaited. */
  function Answered(d: Device, answers: seq<Answer>): Device
    requires d.flight.Some? && |d.flight.value| <= |d.pending|
  {
    var batch, byId := d.flight.value, ById(answers);
    var notes := d.attention + Flagged(batch, byId);
    Persisted(d, Unanswered(batch, byId) + d.pending[|batch|..])
    .(attention := notes, keptAttention := if Flagged(batch, byId) == [] then d.keptAttention else notes, flight := None)
  }

  /** What a queue finds of its storage once another queue opened on it earlier has taken an answer: the other writes what it
      holds itself. */
  function LateWritten(d: Device, former: Device, answers: seq<Answer>): Device
    requires former.flight.Some? && |former.flight.value| <= |former.pending|
  {
    var after := Answered(former.(keptPending := d.keptPending, keptAttention := d.keptAttention), answers);
    d.(keptPending := after.keptPending, keptAttention := after.keptAttention)
  }

  function Reloaded(d: Device): Device {
    Opened(d.deviceId, d.keptPending, d.keptAttention)
  }

  // ---- the queue object ----

  /** The browser storage, shared by every technician's queue on the device; keyed by device and technician. */
  class Storage {
    var queues: map<(Id, Id), seq<Entry>>
    var attentions: map<(Id, Id), seq<Attention>>

    constructor ()
      ensures queues == map[] && attentions == map[]
    {
      queues, attentions := map[], map[];
    }

    function Queue(key: (Id, Id)): seq<Entry>
      reads this
    {
      if key in queues then queues[key] else []
    }

    function Attentions(key: (Id, Id)): seq<Attention>
      reads this
    {
      if key in attentions then attentions[key] else []
    }
  }

  class Queue {
    const deviceId: Id
    const subjectId: Id
    const store: Storage
    var pending: seq<Entry>
    var attention: seq<Attention>
    var seqNo: int
    var flight: Option<seq<Entry>>

    function Key(): (Id, Id) {
      (deviceId, subjectId)
    }

    function Value(): Device
      reads this, store
    {
      Device(deviceId, pending, attention, seqNo, flight, store.Queue(Key()), store.Attentions(Key()))
    }

    /** The page opens, or opens again after a reload: the stored queue is this page's. */
    constructor (deviceId: Id, subjectId: Id, store: Storage)
      ensures this.deviceId == deviceId && this.subjectId == subjectId && this.store == store
      ensures Value() == Opened(deviceId, store.Queue((deviceId, subjectId)), store.Attentions((deviceId, subjectId)))
    {
      this.deviceId, this.subjectId, this.store := deviceId, subjectId, store;
      var loaded := Own(deviceId, store.Queue((deviceId, subjectId)));
      pending, attention := loaded, store.Attentions((deviceId, subjectId));
      flight := None;
      seqNo := MaxSeq(loaded);
    }

    method Persist(next: seq<Entry>)
      modifies this`pending, store`queues
      ensures Value() == Persisted(old(Value()), next)
      ensures store.queues - {Key()} == old(store.queues) - {Key()}
    {
      pending := next;
      store.queues := store.queues[Key() := next];
    }

    method SetAttention(next: seq<Attention>)
      modifies this`attention, store`attentions
      ensures Value() == old(Value()).(attention := next, keptAttention := next)
      ensures store.attentions - {Key()} == old(store.attentions) - {Key()}
    {
      attention := next;
      store.attentions := store.attentions[Key() := next];
    }

    method Enqueue(id: Id, i: Intent, now: int) returns (m: Mutation)
      modifies this`pending, this`seqNo, store`queues
      ensures Value() == Enqueued(old(Value()), id, i, now)
      ensures m == Minted(old(Value()), id, i, now).mutation
      ensures store.queues - {Key()} == old(store.queues) - {Key()}
    {
      seqNo := seqNo + 1;
      m := Mutation(id, deviceId, seqNo, i.entityTable, i.entityId, i.op, i.payload, i.observed, now);
      Persist(pending + [Entry(m, now)]);
    }

    method DismissAttention(mutationId: Id)
      modifies this`attention, store`attentions
      ensures Value() == Dismissed(old(Value()), mutationId)
      ensures store.attentions - {Key()} == old(store.attentions) - {Key()}
    {
      SetAttention(Without(attention, mutationId));
    }

    /** `flush` up to its await: the batch to send, or nothing if one is under way or there is none. */
    method BeginFlush() returns (batch: Option<seq<Mutation>>)
      modifies this`flight
      ensures Value() == Flushing(old(Value()))
      ensures batch == if CanFlush(old(Value())) then Some(Mutations(old(pending))) else None
    {
      if flight.Some? || |pending| == 0 {
        return None;
      }
      flight := Some(pending);
      return Some(Mutations(pending));
    }

    /** `flush` after an await that threw: nothing is learned about any one mutation. */
    method FlushFailed()
      modifies this`flight
      ensures Value() == Unreached(old(Value()))
    {
      flight := None;
    }

    /** `flush` after an await that answered. */
    method FlushAnswered(outcomes: seq<Answer>)
      requires flight.Some? && |flight.value| <= |pending|
      modifies this, store
      ensures Value() == Answered(old(Value()), outcomes)
      ensures store.queues - {Key()} == old(store.queues) - {Key()}
      ensures store.attentions - {Key()} == old(store.attentions) - {Key()}
    {
      var batch, byId := flight.value, ById(outcomes);
      var flagged, unanswered := [], [];
      var i := 0;
      while i < |batch|
        invariant 0 <= i <= |batch|
        invariant flagged == Flagged(batch[..i], byId)
        invariant unanswered == Unanswered(batch[..i], byId)
      {
        var entry := batch[i];
        assert batch[..i + 1][..i] == batch[..i];
        if entry.mutation.mutationId !in byId {
          unanswered := unanswered + [entry];
        } else if byId[entry.mutation.mutationId].Declined? {
          var o := byId[entry.mutation.mutationId];
          flagged := flagged + [Flag(entry, o.kind, o.note)];
        }
        i := i + 1;
      }
      assert batch[..i] == batch;
      Persist(unanswered + pending[|batch|..]);
      if |flagged| > 0 {
        SetAttention(attention + flagged);
      }
      flight := None;
    }
  }

  /** Nothing ends a queue's flush when its technician signs out, so its answer may find another queue on its storage. */
  method AnswerLate(former: Queue, current: Queue, outcomes: seq<Answer>)
    requires former != current && former.store == current.store && former.Key() == current.Key()
    requires former.flight.Some? && |former.flight.value| <= |former.pending|
    modifies former, former.store
    ensures current.Value() == LateWritten(old(current.Value()), old(former.Value()), outcomes)
  {
    former.FlushAnswered(outcomes);
  }

  function Mutations(es: seq<Entry>): (r: seq<Mutation>)
    ensures |r| == |es| && forall i :: 0 <= i < |es| ==> r[i] == es[i].mutation
  {
    seq(|es|, i requires 0 <= i < |es| => es[i].mutation)
  }
}
