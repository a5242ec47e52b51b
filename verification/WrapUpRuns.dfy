/** Over every run of the outbox: nothing is reported before its media, nothing leaves before it is recorded. */
module WrapUpRuns {
  import opened Common
  import opened WrapUps
  import opened WrapUpProtocol

  /** What a submit promises of an entry: enough photos, and the signature or a reason, not both. */
  ghost predicate Whole(e: Entry) {
    && |e.photos| >= MinPhotos(e.finish)
    && (e.finish == QuoteNeeded ==> e.measurements.Some? && Measured(e.measurements.value))
    && (e.signature.Some? <==> e.absentReason.None?)
    && (e.absentReason.Some? ==> |e.absentReason.value| >= 3)
  }

  ghost predicate MarksTrue(e: Entry, office: Office) {
    forall s :: s in Shots(e) && s.sent ==> s.id in office.media
  }

  ghost predicate EntryOk(e: Entry, office: Office) {
    Whole(e) && MarksTrue(e, office)
  }

  ghost predicate EntriesOk(es: seq<Entry>, office: Office) {
    forall e :: e in es ==> EntryOk(e, office)
  }

  ghost predicate PageOk(w: World) {
    && w.page.keptDrafts == w.page.drafts && w.page.keptOutbox == w.page.outbox
    && EntriesOk(w.page.outbox, w.office)
  }

  ghost predicate CallsOk(w: World) {
    forall c :: c in w.calls && c.Report? ==> Whole(c.entry) && ShotIds(c.entry) <= w.office.media
  }

  ghost predicate AnswersOk(w: World) {
    forall n, v :: (n, v) in w.answers ==>
      && n < |w.calls| && v != MediaMissing
      && (v == Taken ==> match w.calls[n]
                         case Attach(id) => id in w.office.media
                         case Report(e) => e.wrapUpId in w.office.wrapUps)
  }

  ghost predicate FateOk(w: World) {
    forall x :: x in w.submitted ==>
      x in WrapUpIds(w.page.outbox) || x in w.office.wrapUps || x in w.superseded || x in w.reopened
  }

  ghost predicate SettledOk(w: World) {
    PageOk(w) && CallsOk(w) && AnswersOk(w) && FateOk(w)
  }

  ghost predicate AllSentBut(e: Entry, ids: seq<Id>) {
    forall s :: s in Shots(e) ==> s.sent || s.id in ids
  }

  ghost predicate FlightOk(w: World) {
    w.flight.Some? ==>
      var f := w.flight.value;
      && EntriesOk(f.rest, w.office) && EntryOk(f.entry, w.office)
      && match f.at
         case Reading(id) => AllSentBut(f.entry, [id] + f.todo)
         case Attaching(id, call) => AllSentBut(f.entry, [id] + f.todo) && call < |w.calls| && w.calls[call] == Attach(id)
         case Reporting(call) => call < |w.calls| && w.calls[call] == Report(f.entry)
         case Cleaning(_) => f.entry.wrapUpId in w.office.wrapUps
  }

  ghost predicate Inv(w: World) {
    SettledOk(w) && FlightOk(w)
  }

  // ---- entries ----

  lemma {:induction false} MarkedShots(e: Entry, id: Id)
    ensures |Shots(Marked(e, id))| == |Shots(e)|
    ensures forall i :: 0 <= i < |Shots(e)| ==> Shots(Marked(e, id))[i] == Mark(Shots(e)[i], id)
  {
  }

  lemma {:induction false} MarkedOk(e: Entry, id: Id, office: Office, todo: seq<Id>)
    requires EntryOk(e, office) && id in office.media && AllSentBut(e, [id] + todo)
    ensures EntryOk(Marked(e, id), office) && AllSentBut(Marked(e, id), todo)
  {
    MarkedShots(e, id);
    forall s | s in Shots(Marked(e, id))
      ensures s.sent ==> s.id in office.media
      ensures s.sent || s.id in todo
    {
      var i :| 0 <= i < |Shots(e)| && Shots(Marked(e, id))[i] == s;
      assert Shots(e)[i] in Shots(e);
    }
  }

  lemma {:induction false} SubmittedEntryOk(d: Draft, job: Id, x: Id, at: int, office: Office)
    requires Ready(d)
    ensures EntryOk(EntryOf(d, job, x, at), office)
  {
    var e := EntryOf(d, job, x, at);
    forall s | s in Shots(e) ensures !s.sent {
      var i :| 0 <= i < |Shots(e)| && Shots(e)[i] == s;
    }
  }

  lemma {:induction false} SwappedIds(es: seq<Entry>, x: Id, to: Entry)
    requires to.wrapUpId == x
    ensures WrapUpIds(Swapped(es, x, to)) == WrapUpIds(es)
  {
    forall y | y in WrapUpIds(es) ensures y in WrapUpIds(Swapped(es, x, to)) {
      var i :| 0 <= i < |es| && es[i].wrapUpId == y;
      assert Swapped(es, x, to)[i] in Swapped(es, x, to);
    }
    forall y | y in WrapUpIds(Swapped(es, x, to)) ensures y in WrapUpIds(es) {
      var i :| 0 <= i < |es| && Swapped(es, x, to)[i].wrapUpId == y;
      assert es[i] in es;
    }
  }

  // ---- the flush ----

  lemma {:induction false} NextShotKeeps(w: World, rest: seq<Entry>, e: Entry, todo: seq<Id>)
    requires SettledOk(w) && EntriesOk(rest, w.office) && EntryOk(e, w.office) && AllSentBut(e, todo)
    ensures Inv(NextShot(w, rest, e, todo))
  {
    var w' := NextShot(w, rest, e, todo);
    if todo == [] {
      forall id | id in ShotIds(e) ensures id in w.office.media {
      }
      assert w'.calls[|w.calls|] == Report(e);
      assert forall n :: 0 <= n < |w.calls| ==> w'.calls[n] == w.calls[n];
    } else {
      assert [todo[0]] + todo[1..] == todo;
    }
  }

  lemma {:induction false} NextEntryKeeps(w: World, rest: seq<Entry>)
    requires SettledOk(w) && EntriesOk(rest, w.office)
    ensures Inv(NextEntry(w, rest))
  {
    if rest != [] {
      NextShotKeeps(w, rest[1..], rest[0], Unsent(Shots(rest[0])));
    }
  }

  lemma {:induction false} SwapKeeps(w: World, x: Id, to: Entry)
    requires SettledOk(w) && EntryOk(to, w.office) && to.wrapUpId == x
    ensures SettledOk(w.(page := Replaced(w.page, x, Some(to))))
  {
    SwappedIds(w.page.outbox, x, to);
  }

  lemma {:induction false} RefusedKeeps(w: World, why: Refusal)
    requires Inv(w) && w.flight.Some?
    ensures Inv(Refused(w, why))
  {
    var f := w.flight.value;
    var e := f.entry.(refused := Some(why));
    assert Shots(e) == Shots(f.entry);
    SwapKeeps(w, e.wrapUpId, e);
    NextEntryKeeps(w.(page := Replaced(w.page, e.wrapUpId, Some(e))), f.rest);
  }

  lemma {:induction false} BytesReadKeeps(w: World)
    requires Inv(w) && Can(w, BytesRead)
    ensures Inv(ReadBytes(w))
  {
    if w.flight.value.at.id !in w.page.media {
      RefusedKeeps(w, LostShot);
    } else {
      var w' := ReadBytes(w);
      assert forall n :: 0 <= n < |w.calls| ==> w'.calls[n] == w.calls[n];
      assert w'.calls[|w.calls|] == Attach(w.flight.value.at.id);
    }
  }

  lemma {:induction false} AnsweredKeeps(w: World, v: Verdict)
    requires Inv(w) && Can(w, Answered(v))
    ensures Inv(AfterAnswer(w, v))
  {
    var f := w.flight.value;
    if v != Taken {
      RefusedKeeps(w, OfficeRefused);
    } else if f.at.Attaching? {
      MarkedOk(f.entry, f.at.id, w.office, f.todo);
      var next := Marked(f.entry, f.at.id);
      SwapKeeps(w, f.entry.wrapUpId, next);
      NextShotKeeps(w.(page := Replaced(w.page, f.entry.wrapUpId, Some(next))), f.rest, next, f.todo);
    } else {
      ReportedKeeps(w);
    }
  }

  lemma {:induction false} ReportedKeeps(w: World)
    requires Inv(w) && w.flight.Some? && w.flight.value.entry.wrapUpId in w.office.wrapUps
    ensures Inv(Reported(w))
  {
    var x, w' := w.flight.value.entry.wrapUpId, Reported(w);
    forall y | y in WrapUpIds(w.page.outbox) && y != x ensures y in WrapUpIds(w'.page.outbox) {
      var e :| e in w.page.outbox && e.wrapUpId == y;
      assert e in w'.page.outbox;
    }
  }

  lemma {:induction false} DeletedKeeps(w: World)
    requires Inv(w) && Can(w, Deleted)
    ensures Inv(Cleaned(w))
  {
    var f := w.flight.value;
    var w1 := if f.at.left == [] then w else w.(page := Forgotten(w.page, f.at.left[0]));
    assert SettledOk(w1);
    if |f.at.left| <= 1 {
      NextEntryKeeps(w1, f.rest);
    }
  }

  lemma {:induction false} DeliverKeeps(w: World, n: nat, v: Verdict)
    requires Inv(w) && MayJudge(w, n, v)
    ensures Inv(Judged(w, n, v))
  {
    var w' := Judged(w, n, v);
    assert w.calls[n] in w.calls;
    assert w.office.media <= w'.office.media && w.office.wrapUps <= w'.office.wrapUps;
    assert forall e :: EntryOk(e, w.office) ==> EntryOk(e, w'.office);
    assert AnswersOk(w');
  }

  // ---- the screens ----

  lemma {:induction false} SubmitKeeps(w: World, job: Id, x: Id, at: int)
    requires Inv(w)
    ensures Inv(AfterSubmit(w, job, x, at))
  {
    var d := DraftFor(w.page, job);
    if Ready(d) {
      var w' := AfterSubmit(w, job, x, at);
      var e := EntryOf(d, job, x, at);
      SubmittedEntryOk(d, job, x, at, w.office);
      assert e in w'.page.outbox;
      assert forall o :: o in w.page.outbox && o.jobId == job ==> o.wrapUpId in w'.superseded;
      forall y | y in WrapUpIds(w.page.outbox) && y !in w'.superseded ensures y in WrapUpIds(w'.page.outbox) {
        var o :| o in w.page.outbox && o.wrapUpId == y;
        assert o in NotOfJob(w.page.outbox, job);
        assert o in w'.page.outbox;
      }
    }
  }

  lemma {:induction false} ReopenKeeps(w: World, job: Id)
    requires Inv(w)
    ensures Inv(AfterReopen(w, job))
  {
    var found := Find(w.page.outbox, job);
    if found.Some? {
      var w' := AfterReopen(w, job);
      forall y | y in WrapUpIds(w.page.outbox) && y !in w'.reopened ensures y in WrapUpIds(w'.page.outbox) {
        var o :| o in w.page.outbox && o.wrapUpId == y;
        assert o in w'.page.outbox;
      }
    }
  }

  /** A step that leaves outbox, link and office alone, and the flush alone or ended, keeps everything. */
  lemma {:induction false} DraftsOnly(w: World, w': World)
    requires Inv(w)
    requires w'.page.outbox == w.page.outbox && w'.page.keptOutbox == w'.page.outbox && w'.page.keptDrafts == w'.page.drafts
    requires w'.flight == w.flight || w'.flight.None?
    requires w'.office == w.office && w'.calls == w.calls && w'.answers == w.answers
    requires w'.submitted == w.submitted && w'.superseded == w.superseded && w'.reopened == w.reopened
    ensures Inv(w')
  {
  }

  lemma {:induction false} OpDoneKeeps(w: World, k: nat)
    requires Inv(w) && k < |w.ops|
    ensures Inv(AfterOp(w.(ops := WithoutOp(w.ops, k)), w.ops[k]))
  {
    hide CallsOk, AnswersOk, FateOk, FlightOk;
    DraftsOnly(w, AfterOp(w.(ops := WithoutOp(w.ops, k)), w.ops[k]));
  }

  lemma {:induction false} NextKeeps(w: World, s: Step)
    requires Inv(w) && Can(w, s)
    ensures Inv(Next(w, s))
  {
    match s
    case Submit(job, x, at) => SubmitKeeps(w, job, x, at);
    case Reopen(job) => ReopenKeeps(w, job);
    case StartFlush => NextEntryKeeps(w, Waiting(w.page.outbox));
    case BytesRead => BytesReadKeeps(w);
    case Answered(v) => AnsweredKeeps(w, v);
    case Deleted => DeletedKeeps(w);
    case Deliver(n, v) => DeliverKeeps(w, n, v);
    case OpDone(k) => OpDoneKeeps(w, k);
    case _ => DraftsOnly(w, Next(w, s));
  }

  lemma {:induction false} EveryRunKeeps(w: World, steps: seq<Step>, w': World)
    requires Inv(w) && Run(w, steps, w')
    ensures Inv(w')
    decreases steps
  {
    if steps != [] {
      NextKeeps(w, steps[0]);
      EveryRunKeeps(Next(w, steps[0]), steps[1..], w');
    }
  }

  // ---- what every run keeps ----

  /** A report is sent only over media the office has recorded, so it is never refused for missing any. */
  lemma {:induction false} MediaFirst(w0: World, steps: seq<Step>, w: World)
    requires Start(w0) && Run(w0, steps, w)
    ensures forall c :: c in w.calls && c.Report? ==> ShotIds(c.entry) <= w.office.media
    ensures forall n :: (n, MediaMissing) !in w.answers
  {
    EveryRunKeeps(w0, steps, w);
  }

  /** A submitted wrap-up leaves the outbox only when the office has recorded it, unless a newer submit for its job
      took its place or it was reopened. */
  lemma {:induction false} NothingSubmittedIsLost(w0: World, steps: seq<Step>, w: World)
    requires Start(w0) && Run(w0, steps, w)
    ensures forall x :: x in w.submitted && x !in WrapUpIds(w.page.outbox) && x !in w.superseded && x !in w.reopened
              ==> x in w.office.wrapUps
    ensures w.page.keptOutbox == w.page.outbox && w.page.keptDrafts == w.page.drafts
  {
    EveryRunKeeps(w0, steps, w);
  }

  /** Every entry waiting, and every one ever reported, has its photos and exactly one of signature and reason; and a
      shot marked sent is at the office. */
  lemma {:induction false} EntriesStayWhole(w0: World, steps: seq<Step>, w: World)
    requires Start(w0) && Run(w0, steps, w)
    ensures forall e :: e in w.page.outbox ==> Whole(e)
    ensures forall c :: c in w.calls && c.Report? ==> Whole(c.entry)
    ensures forall e, s :: e in w.page.outbox && s in Shots(e) && s.sent ==> s.id in w.office.media
  {
    EveryRunKeeps(w0, steps, w);
    forall e, s | e in w.page.outbox && s in Shots(e) && s.sent ensures s.id in w.office.media {
      assert EntryOk(e, w.office);
    }
  }
}
