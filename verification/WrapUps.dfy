/** The wrap-up on the device: a draft per job, and an outbox of what was submitted. */
module WrapUps {
  import opened Common

  const WRAP_UP_MIN_PHOTOS := 2
  const QUOTE_MIN_PHOTOS := 10

  type Bytes = nat

  datatype Finish = Completed | QuoteNeeded

  datatype Kind = Photo | Signature

  datatype Shot = Shot(id: Id, at: int)

  datatype Sent = Sent(id: Id, at: int, sent: bool)

  /** The unit's measurements as far as they are filled in; voltage and fuel are off a list. */
  datatype Measurements = Measurements(tonnage: Option<real>, voltage: Option<nat>, fuel: Option<nat>,
                                       inches: seq<Option<int>>, oldModel: string, oldSerial: string)

  datatype Draft = Draft(finish: Finish, photos: seq<Shot>, notes: string, measurements: Measurements,
                         signature: Option<Shot>, absent: bool, absentReason: string)

  datatype Refusal = LostShot | OfficeRefused

  datatype Entry = Entry(wrapUpId: Id, jobId: Id, submittedAt: int, finish: Finish, notes: string,
                         measurements: Option<Measurements>, photos: seq<Sent>, signature: Option<Sent>,
                         absentReason: Option<string>, refused: Option<Refusal>)

  const UNMEASURED := Measurements(None, None, None, [None, None, None, None, None], "", "")
  const EMPTY_DRAFT := Draft(Completed, [], "", UNMEASURED, None, false, "")

  // ---- what stands between a draft and Submit ----

  datatype Missing = MorePhotos(n: nat) | MeasurementsFault | AbsentReason | SignatureOrAbsence

  predicate WholeHalves(t: real) {
    (t * 2.0).Floor as real == t * 2.0
  }

  predicate Named(s: string) {
    0 < |Trim(s)| && |s| <= 80
  }

  predicate Measured(m: Measurements) {
    && m.tonnage.Some? && 1.0 <= m.tonnage.value <= 150.0 && WholeHalves(m.tonnage.value)
    && m.voltage.Some? && m.fuel.Some?
    && (forall i :: i in m.inches ==> i.Some? && 1 <= i.value <= 600)
    && Named(m.oldModel) && Named(m.oldSerial)
  }

  function MinPhotos(f: Finish): nat {
    if f == QuoteNeeded then QUOTE_MIN_PHOTOS else WRAP_UP_MIN_PHOTOS
  }

  predicate Ready(d: Draft) {
    && |d.photos| >= MinPhotos(d.finish)
    && (d.finish == QuoteNeeded ==> Measured(d.measurements))
    && if d.absent then |Trim(d.absentReason)| >= 3 else d.signature.Some?
  }

  /** Nothing is missing exactly when the draft is ready; and each thing named is really missing. */
  method MissingFor(d: Draft) returns (out: seq<Missing>)
    ensures out == [] <==> Ready(d)
    ensures forall n :: MorePhotos(n) in out <==> n > 0 && |d.photos| + n == MinPhotos(d.finish)
    ensures MeasurementsFault in out <==> d.finish == QuoteNeeded && !Measured(d.measurements)
    ensures AbsentReason in out <==> d.absent && |Trim(d.absentReason)| < 3
    ensures SignatureOrAbsence in out <==> !d.absent && d.signature.None?
  {
    out := [];
    var min := if d.finish == QuoteNeeded then QUOTE_MIN_PHOTOS else WRAP_UP_MIN_PHOTOS;
    if |d.photos| < min {
      out := out + [MorePhotos(min - |d.photos|)];
    }
    if d.finish == QuoteNeeded {
      if !Measured(d.measurements) {
        out := out + [MeasurementsFault];
      }
    }
    if d.absent {
      if |Trim(d.absentReason)| < 3 {
        out := out + [AbsentReason];
      }
    } else if d.signature.None? {
      out := out + [SignatureOrAbsence];
    }
  }

  // ---- entries ----

  function Unmarked(shots: seq<Shot>): (r: seq<Sent>)
    ensures |r| == |shots| && forall i :: 0 <= i < |r| ==> r[i] == Sent(shots[i].id, shots[i].at, false)
  {
    seq(|shots|, i requires 0 <= i < |shots| => Sent(shots[i].id, shots[i].at, false))
  }

  function Shots(e: Entry): seq<Sent> {
    e.photos + (if e.signature.Some? then [e.signature.value] else [])
  }

  function Back(shots: seq<Sent>): (r: seq<Shot>)
    ensures |r| == |shots| && forall i :: 0 <= i < |r| ==> r[i] == Shot(shots[i].id, shots[i].at)
  {
    seq(|shots|, i requires 0 <= i < |shots| => Shot(shots[i].id, shots[i].at))
  }

  /** The entry a ready draft becomes: the signature or the reason there is none, never both. */
  function EntryOf(d: Draft, job: Id, wrapUpId: Id, at: int): Entry {
    Entry(wrapUpId, job, at, d.finish, Trim(d.notes), if d.finish == QuoteNeeded then Some(d.measurements) else None,
          Unmarked(d.photos),
          if d.absent || d.signature.None? then None
          else Some(Sent(d.signature.value.id, d.signature.value.at, false)),
          if d.absent then Some(Trim(d.absentReason)) else None, None)
  }

  function DraftOf(e: Entry): Draft {
    Draft(e.finish, Back(e.photos), e.notes, if e.measurements.Some? then e.measurements.value else UNMEASURED,
          if e.signature.Some? then Some(Shot(e.signature.value.id, e.signature.value.at)) else None,
          e.absentReason.Some?, if e.absentReason.Some? then e.absentReason.value else "")
  }

  function Mark(s: Sent, id: Id): Sent {
    if s.id == id then s.(sent := true) else s
  }

  function Marked(e: Entry, id: Id): Entry {
    e.(photos := seq(|e.photos|, i requires 0 <= i < |e.photos| => Mark(e.photos[i], id)),
       signature := if e.signature.Some? then Some(Mark(e.signature.value, id)) else None)
  }

  // ---- the page ----

  /** Drafts and outbox in memory, as stored, and the media store. */
  datatype Page = Page(drafts: map<Id, Draft>, outbox: seq<Entry>, keptDrafts: map<Id, Draft>, keptOutbox: seq<Entry>,
                       media: map<Id, Bytes>)

  function DraftFor(p: Page, job: Id): Draft {
    if job in p.drafts then p.drafts[job] else EMPTY_DRAFT
  }

  function Saved(p: Page, drafts: map<Id, Draft>, outbox: seq<Entry>): Page {
    p.(drafts := drafts, outbox := outbox, keptDrafts := drafts, keptOutbox := outbox)
  }

  function Edited(p: Page, job: Id, d: Draft): Page {
    Saved(p, p.drafts[job := d], p.outbox)
  }

  function NotOfJob(es: seq<Entry>, job: Id): (r: seq<Entry>)
    ensures forall e :: e in r <==> e in es && e.jobId != job
  {
    if es == [] then []
    else
      var rest := NotOfJob(es[1..], job);
      assert es == [es[0]] + es[1..];
      if es[0].jobId != job then [es[0]] + rest else rest
  }

  function WithoutId(es: seq<Entry>, x: Id): (r: seq<Entry>)
    ensures forall e :: e in r <==> e in es && e.wrapUpId != x
  {
    if es == [] then []
    else
      var rest := WithoutId(es[1..], x);
      assert es == [es[0]] + es[1..];
      if es[0].wrapUpId != x then [es[0]] + rest else rest
  }

  function Waiting(es: seq<Entry>): (r: seq<Entry>)
    ensures forall e :: e in r <==> e in es && e.refused.None?
  {
    if es == [] then []
    else
      var rest := Waiting(es[1..]);
      assert es == [es[0]] + es[1..];
      if es[0].refused.None? then [es[0]] + rest else rest
  }

  function Swapped(es: seq<Entry>, x: Id, to: Entry): (r: seq<Entry>)
    ensures |r| == |es| && forall i :: 0 <= i < |es| ==> r[i] == if es[i].wrapUpId == x then to else es[i]
  {
    seq(|es|, i requires 0 <= i < |es| => if es[i].wrapUpId == x then to else es[i])
  }

  function Replaced(p: Page, x: Id, to: Option<Entry>): Page {
    Saved(p, p.drafts, if to.Some? then Swapped(p.outbox, x, to.value) else WithoutId(p.outbox, x))
  }

  function Submitted(p: Page, job: Id, wrapUpId: Id, at: int): Page {
    var d := DraftFor(p, job);
    if Ready(d) then Saved(p, p.drafts - {job}, NotOfJob(p.outbox, job) + [EntryOf(d, job, wrapUpId, at)]) else p
  }

  /** The first outbox entry of a job. */
  function Find(es: seq<Entry>, job: Id): (r: Option<Entry>)
    ensures r.Some? ==> r.value in es && r.value.jobId == job
    ensures r.None? ==> forall e :: e in es ==> e.jobId != job
  {
    if es == [] then None
    else
      assert es == [es[0]] + es[1..];
      if es[0].jobId == job then Some(es[0]) else Find(es[1..], job)
  }

  function Without(es: seq<Entry>, x: Entry): (r: seq<Entry>)
    ensures forall e :: e in r <==> e in es && e != x
  {
    if es == [] then []
    else
      var rest := Without(es[1..], x);
      assert es == [es[0]] + es[1..];
      if es[0] != x then [es[0]] + rest else rest
  }

  function Reopened(p: Page, job: Id): Page {
    match Find(p.outbox, job)
    case None => p
    case Some(e) => Saved(p, p.drafts[job := DraftOf(e)], Without(p.outbox, e))
  }

  function WithPhoto(d: Draft, s: Shot): Draft {
    d.(photos := d.photos + [s])
  }

  function WithSignature(d: Draft, s: Shot): Draft {
    d.(signature := Some(s), absent := false)
  }

  function PhotosWithout(shots: seq<Shot>, id: Id): (r: seq<Shot>)
    ensures forall s :: s in r <==> s in shots && s.id != id
  {
    if shots == [] then []
    else
      var rest := PhotosWithout(shots[1..], id);
      assert shots == [shots[0]] + shots[1..];
      if shots[0].id != id then [shots[0]] + rest else rest
  }

  function Forgotten(p: Page, id: Id): Page {
    p.(media := p.media - {id})
  }

  /** A shot's bytes are in; a photo joins the draft at once, a signature first has the old one's bytes deleted. */
  function Stored(p: Page, job: Id, kind: Kind, s: Shot, bytes: Bytes): Page {
    var p1 := p.(media := p.media[s.id := bytes]);
    var d := DraftFor(p1, job);
    if kind == Photo then Edited(p1, job, WithPhoto(d, s))
    else if d.signature.Some? then Forgotten(p1, d.signature.value.id)
    else Edited(p1, job, WithSignature(d, s))
  }

  function SignatureSet(p: Page, job: Id, s: Shot): Page {
    Edited(p, job, WithSignature(DraftFor(p, job), s))
  }

  function PhotoDropped(p: Page, job: Id, id: Id): Page {
    Edited(p, job, DraftFor(p, job).(photos := PhotosWithout(DraftFor(p, job).photos, id)))
  }

  function SignatureDropped(p: Page, job: Id): Page {
    Edited(p, job, DraftFor(p, job).(signature := None))
  }

  /** The object the screens hold. Each method is the code between two awaits; a delete takes effect when it is called. */
  class WrapUpBook {
    var drafts: map<Id, Draft>
    var outbox: seq<Entry>
    var keptDrafts: map<Id, Draft>
    var keptOutbox: seq<Entry>
    var media: map<Id, Bytes>

    function Value(): Page
      reads this
    {
      Page(drafts, outbox, keptDrafts, keptOutbox, media)
    }

    /** Opens on what storage holds. */
    constructor (keptDrafts: map<Id, Draft>, keptOutbox: seq<Entry>, media: map<Id, Bytes>)
      ensures Value() == Page(keptDrafts, keptOutbox, keptDrafts, keptOutbox, media)
    {
      this.drafts, this.outbox, this.keptDrafts, this.keptOutbox, this.media :=
        keptDrafts, keptOutbox, keptDrafts, keptOutbox, media;
    }

    method Save()
      modifies this
      ensures Value() == Saved(old(Value()), old(drafts), old(outbox))
    {
      keptDrafts, keptOutbox := drafts, outbox;
    }

    method Edit(job: Id, d: Draft)
      modifies this
      ensures Value() == Edited(old(Value()), job, d)
    {
      drafts := drafts[job := d];
      Save();
    }

    method SetOutbox(next: seq<Entry>)
      modifies this
      ensures Value() == Saved(old(Value()), old(drafts), next)
    {
      outbox := next;
      Save();
    }

    /** Moves a ready draft to the outbox, over any earlier submit of the job; else says what is missing. */
    method Submit(job: Id, wrapUpId: Id, at: int) returns (missing: seq<Missing>)
      modifies this
      ensures Value() == Submitted(old(Value()), job, wrapUpId, at)
      ensures missing == [] <==> Ready(DraftFor(old(Value()), job))
    {
      var d := DraftFor(Value(), job);
      missing := MissingFor(d);
      if |missing| > 0 {
        return;
      }
      drafts := drafts - {job};
      SetOutbox(NotOfJob(outbox, job) + [EntryOf(d, job, wrapUpId, at)]);
    }

    method Reopen(job: Id)
      modifies this
      ensures Value() == Reopened(old(Value()), job)
    {
      var e := Find(outbox, job);
      if e.None? {
        return;
      }
      SetOutbox(Without(outbox, e.value));
      Edit(job, DraftOf(e.value));
    }

    /** After `media.put`; the answer is the old signature whose bytes are deleted before the new one is set. */
    method ShotStored(job: Id, kind: Kind, s: Shot, bytes: Bytes) returns (retired: Option<Id>)
      modifies this
      ensures Value() == Stored(old(Value()), job, kind, s, bytes)
      ensures retired == if kind == Signature && DraftFor(old(Value()), job).signature.Some?
                          then Some(DraftFor(old(Value()), job).signature.value.id) else None
    {
      media := media[s.id := bytes];
      var d := DraftFor(Value(), job);
      retired := None;
      if kind == Photo {
        Edit(job, WithPhoto(d, s));
      } else if d.signature.Some? {
        retired := Some(d.signature.value.id);
        media := media - {d.signature.value.id};
      } else {
        Edit(job, WithSignature(d, s));
      }
    }

    method SetSignature(job: Id, s: Shot)
      modifies this
      ensures Value() == SignatureSet(old(Value()), job, s)
    {
      Edit(job, WithSignature(DraftFor(Value(), job), s));
    }

    method DropPhoto(job: Id, id: Id)
      modifies this
      ensures Value() == PhotoDropped(old(Value()), job, id)
    {
      var d := DraftFor(Value(), job);
      Edit(job, d.(photos := PhotosWithout(d.photos, id)));
    }

    method DropSignature(job: Id)
      modifies this
      ensures Value() == SignatureDropped(old(Value()), job)
    {
      Edit(job, DraftFor(Value(), job).(signature := None));
    }

    method Forget(id: Id)
      modifies this
      ensures Value() == Forgotten(old(Value()), id)
    {
      media := media - {id};
    }

    /** `replace` of a flush: the entry as it now stands, or gone. */
    method Replace(x: Id, to: Option<Entry>)
      modifies this
      ensures Value() == Replaced(old(Value()), x, to)
    {
      if to.Some? {
        SetOutbox(Swapped(outbox, x, to.value));
      } else {
        SetOutbox(WithoutId(outbox, x));
      }
    }
  }
}
