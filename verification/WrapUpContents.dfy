/** What a wrap-up says: from the draft the technician submitted to the report the office gets, and back. */
module WrapUpContents {
  import opened Common
  import opened WrapUps
  import opened WrapUpProtocol

  // ---- an entry and its draft ----

  /** A shot in the outbox, or sent, and the shot that was taken. */
  predicate IsShot(s: Sent, taken: Shot) {
    s.id == taken.id && s.at == taken.at
  }

  /** An entry says what the draft said when it was submitted. */
  predicate Carries(e: Entry, job: Id, at: int, d: Draft) {
    && e.jobId == job && e.submittedAt == at && e.finish == d.finish && e.notes == Trim(d.notes)
    && (d.finish == QuoteNeeded ==> e.measurements == Some(d.measurements))
    && (d.finish == Completed ==> e.measurements == None)
    && |e.photos| == |d.photos| && (forall i :: 0 <= i < |e.photos| ==> IsShot(e.photos[i], d.photos[i]))
    && (d.absent ==> e.signature == None && e.absentReason == Some(Trim(d.absentReason)))
    && (!d.absent ==> e.absentReason == None && (e.signature.Some? <==> d.signature.Some?)
                      && (e.signature.Some? ==> IsShot(e.signature.value, d.signature.value)))
  }

  /** What was submitted under an id: the job, when, and the draft as it stood. */
  datatype Hand = Hand(job: Id, at: int, draft: Draft)

  /** Everything submitted over a run, by the id it was submitted under. */
  ghost function Handed(w: World, steps: seq<Step>, w': World, before: map<Id, Hand>): map<Id, Hand>
    requires Run(w, steps, w')
    decreases steps
  {
    if steps == [] then before else Handed(Next(w, steps[0]), steps[1..], w', Noted(w, steps[0], before))
  }

  function Noted(w: World, s: Step, before: map<Id, Hand>): map<Id, Hand> {
    if s.Submit? then before[s.wrapUpId := Hand(s.job, s.at, DraftFor(w.page, s.job))] else before
  }

  ghost predicate Says(hands: map<Id, Hand>, e: Entry) {
    e.wrapUpId in hands && Carries(e, hands[e.wrapUpId].job, hands[e.wrapUpId].at, hands[e.wrapUpId].draft)
  }

  ghost predicate Good(e: Entry, hands: map<Id, Hand>, minted: set<Id>) {
    e.wrapUpId in minted && Says(hands, e)
  }

  ghost predicate AllGood(es: seq<Entry>, hands: map<Id, Hand>, minted: set<Id>) {
    forall e :: e in es ==> Good(e, hands, minted)
  }

  ghost predicate FlightGood(w: World, hands: map<Id, Hand>) {
    w.flight.Some? ==> AllGood(w.flight.value.rest, hands, w.minted) && Good(w.flight.value.entry, hands, w.minted)
  }

  ghost predicate CallsGood(w: World, hands: map<Id, Hand>) {
    forall c :: c in w.calls && c.Report? ==> Good(c.entry, hands, w.minted)
  }

  ghost predicate Contents(w: World, hands: map<Id, Hand>) {
    && AllGood(w.page.outbox, hands, w.minted) && AllGood(w.page.keptOutbox, hands, w.minted)
    && FlightGood(w, hands) && CallsGood(w, hands)
  }

  // ---- each step ----

  lemma {:induction false} SubmittedCarries(d: Draft, job: Id, x: Id, at: int)
    requires Ready(d)
    ensures Carries(EntryOf(d, job, x, at), job, at, d) && EntryOf(d, job, x, at).wrapUpId == x
  {
  }

  /** Marking a shot sent, or the entry refused, changes nothing it says. */
  lemma {:induction false} MarkedCarries(e: Entry, id: Id, why: Option<Refusal>, job: Id, at: int, d: Draft)
    requires Carries(e, job, at, d)
    ensures Carries(Marked(e, id), job, at, d) && Carries(e.(refused := why), job, at, d)
  {
  }

  lemma {:induction false} SwappedGood(p: Page, x: Id, to: Option<Entry>, hands: map<Id, Hand>, minted: set<Id>)
    requires AllGood(p.outbox, hands, minted) && (to.Some? ==> Good(to.value, hands, minted))
    ensures AllGood(Replaced(p, x, to).outbox, hands, minted) && Replaced(p, x, to).keptOutbox == Replaced(p, x, to).outbox
  {
    hide Good;
  }

  lemma {:induction false} ShotOnGood(w: World, rest: seq<Entry>, e: Entry, todo: seq<Id>, hands: map<Id, Hand>)
    requires AllGood(w.page.outbox, hands, w.minted) && AllGood(w.page.keptOutbox, hands, w.minted) && CallsGood(w, hands)
    requires AllGood(rest, hands, w.minted) && Good(e, hands, w.minted)
    ensures Contents(NextShot(w, rest, e, todo), hands)
  {
    hide Good;
  }

  lemma {:induction false} EntryOnGood(w: World, rest: seq<Entry>, hands: map<Id, Hand>)
    requires AllGood(w.page.outbox, hands, w.minted) && AllGood(w.page.keptOutbox, hands, w.minted) && CallsGood(w, hands)
    requires AllGood(rest, hands, w.minted)
    ensures Contents(NextEntry(w, rest), hands)
  {
    hide Good;
    if rest != [] {
      ShotOnGood(w, rest[1..], rest[0], Unsent(Shots(rest[0])), hands);
    }
  }

  lemma {:induction false} RefusedGood(w: World, why: Refusal, hands: map<Id, Hand>)
    requires Contents(w, hands) && w.flight.Some?
    ensures Contents(Refused(w, why), hands)
  {
    hide AllGood, CallsGood, NextEntry;
    var f := w.flight.value;
    var to := f.entry.(refused := Some(why));
    var h := hands[f.entry.wrapUpId];
    MarkedCarries(f.entry, 0, Some(why), h.job, h.at, h.draft);
    SwappedGood(w.page, f.entry.wrapUpId, Some(to), hands, w.minted);
    var w1 := w.(page := Replaced(w.page, f.entry.wrapUpId, Some(to)));
    assert CallsGood(w1, hands) by { SameCalls(w, w1, hands); }
    EntryOnGood(w1, f.rest, hands);
  }

  lemma {:induction false} SameCalls(w: World, w': World, hands: map<Id, Hand>)
    requires CallsGood(w, hands) && w'.calls == w.calls && w.minted <= w'.minted
    ensures CallsGood(w', hands)
  {
  }

  lemma {:induction false} AnswerGood(w: World, v: Verdict, hands: map<Id, Hand>)
    requires Contents(w, hands) && w.flight.Some? && CallAwaited(w.flight.value.at).Some?
    ensures Contents(AfterAnswer(w, v), hands)
  {
    hide AllGood, CallsGood, NextShot, Refused;
    var f := w.flight.value;
    if v != Taken {
      RefusedGood(w, OfficeRefused, hands);
    } else if f.at.Attaching? {
      var next, h := Marked(f.entry, f.at.id), hands[f.entry.wrapUpId];
      MarkedCarries(f.entry, f.at.id, None, h.job, h.at, h.draft);
      SwappedGood(w.page, f.entry.wrapUpId, Some(next), hands, w.minted);
      var w1 := w.(page := Replaced(w.page, f.entry.wrapUpId, Some(next)));
      assert CallsGood(w1, hands) by { SameCalls(w, w1, hands); }
      ShotOnGood(w1, f.rest, next, f.todo, hands);
    } else {
      SwappedGood(w.page, f.entry.wrapUpId, None, hands, w.minted);
      SameCalls(w, Reported(w), hands);
    }
  }

  lemma {:induction false} ReadGood(w: World, hands: map<Id, Hand>)
    requires Contents(w, hands) && w.flight.Some? && w.flight.value.at.Reading?
    ensures Contents(ReadBytes(w), hands)
  {
    hide AllGood, Good, Refused;
    if w.flight.value.at.id !in w.page.media {
      RefusedGood(w, LostShot, hands);
    }
  }

  lemma {:induction false} CleanedGood(w: World, hands: map<Id, Hand>)
    requires Contents(w, hands) && w.flight.Some? && w.flight.value.at.Cleaning?
    ensures Contents(Cleaned(w), hands)
  {
    hide AllGood, Good, NextEntry, CallsGood;
    var f := w.flight.value;
    var w1 := if f.at.left == [] then w else w.(page := Forgotten(w.page, f.at.left[0]));
    SameCalls(w, w1, hands);
    if |f.at.left| <= 1 {
      EntryOnGood(w1, f.rest, hands);
    } else {
      SameCalls(w, Cleaned(w), hands);
    }
  }

  lemma {:induction false} MoreHands(es: seq<Entry>, hands: map<Id, Hand>, minted: set<Id>, x: Id, h: Hand)
    requires AllGood(es, hands, minted) && x !in minted
    ensures AllGood(es, hands[x := h], minted + {x}) && AllGood(es, hands[x := h], minted)
  {
    hide Carries;
  }

  lemma {:induction false} SubmitGood(w: World, s: Step, hands: map<Id, Hand>)
    requires Contents(w, hands) && s.Submit? && Can(w, s)
    ensures Contents(Next(w, s), Noted(w, s, hands))
  {
    hide Carries, Ready;
    var w', hands', d := Next(w, s), Noted(w, s, hands), DraftFor(w.page, s.job);
    MoreHands(w.page.outbox, hands, w.minted, s.wrapUpId, hands'[s.wrapUpId]);
    MoreHands(w.page.keptOutbox, hands, w.minted, s.wrapUpId, hands'[s.wrapUpId]);
    if w.flight.Some? {
      MoreHands(w.flight.value.rest, hands, w.minted, s.wrapUpId, hands'[s.wrapUpId]);
    }
    if Ready(d) {
      SubmittedCarries(d, s.job, s.wrapUpId, s.at);
    }
  }

  lemma {:induction false} OthersGood(w: World, w': World, hands: map<Id, Hand>)
    requires Contents(w, hands) && w.minted <= w'.minted && w'.calls == w.calls
    requires forall e :: e in w'.page.outbox || e in w'.page.keptOutbox ==> e in w.page.outbox || e in w.page.keptOutbox
    requires w'.flight == w.flight || w'.flight.None?
    ensures Contents(w', hands)
  {
    hide Carries;
  }

  lemma {:induction false} NextGood(w: World, s: Step, hands: map<Id, Hand>)
    requires Contents(w, hands) && Can(w, s)
    ensures Contents(Next(w, s), Noted(w, s, hands))
  {
    hide Contents, NextEntry, AfterAnswer, Cleaned, ReadBytes, DraftFor, DraftOf, TakenBack, MayJudge;
    match s
    case Submit(_, _, _) => SubmitGood(w, s, hands);
    case StartFlush => BeginGood(w, hands);
    case BytesRead => ReadGood(w, hands);
    case Answered(v) => AnswerGood(w, v, hands);
    case Deleted => CleanedGood(w, hands);
    case _ => OthersGood(w, Next(w, s), hands);
  }

  lemma {:induction false} BeginGood(w: World, hands: map<Id, Hand>)
    requires Contents(w, hands)
    ensures Contents(NextEntry(w, Waiting(w.page.outbox)), hands)
  {
    hide Good, NextEntry, CallsGood;
    EntryOnGood(w, Waiting(w.page.outbox), hands);
  }

  lemma {:induction false} EveryRunGood(w: World, steps: seq<Step>, w': World, hands: map<Id, Hand>)
    requires Contents(w, hands) && Run(w, steps, w')
    ensures Contents(w', Handed(w, steps, w', hands))
    decreases steps
  {
    hide Contents, Next, Can, Noted;
    if steps != [] {
      NextGood(w, steps[0], hands);
      EveryRunGood(Next(w, steps[0]), steps[1..], w', Noted(w, steps[0], hands));
    }
  }

  /** Over every run, each entry waiting, in storage too, and each report sent says what the draft said that was submitted
      under its id. */
  lemma {:induction false} ReportsSayWhatWasSubmitted(w0: World, steps: seq<Step>, w: World)
    requires Start(w0) && Run(w0, steps, w)
    ensures var hands := Handed(w0, steps, w, map[]);
      && (forall e :: e in w.page.outbox || e in w.page.keptOutbox ==> Says(hands, e))
      && (forall c :: c in w.calls && c.Report? ==> Says(hands, c.entry))
  {
    hide Carries, Run;
    EveryRunGood(w0, steps, w, map[]);
  }

  /** What a quote's measurements must be: one to a hundred and fifty tons in halves, a voltage and a fuel, each side one to
      six hundred inches, and the old unit's model and serial, neither blank nor over eighty characters. */
  lemma {:induction false} MeasuredAre(m: Measurements)
    ensures Measured(m) <==>
      && (exists n :: 2 <= n <= 300 && IsHalves(m.tonnage, n))
      && m.voltage != None && m.fuel != None
      && (forall i :: 0 <= i < |m.inches| ==> m.inches[i] != None && 1 <= m.inches[i].value && m.inches[i].value <= 600)
      && (forall t :: t in {m.oldModel, m.oldSerial} ==> Trim(t) != [] && |t| <= 80)
  {
    if m.tonnage.Some? && WholeHalves(m.tonnage.value) {
      assert IsHalves(m.tonnage, (m.tonnage.value * 2.0).Floor);
    }
    forall n: int | IsHalves(m.tonnage, n) ensures WholeHalves(m.tonnage.value) && (2 <= n <= 300 <==> 1.0 <= m.tonnage.value <= 150.0) {
      assert m.tonnage.value * 2.0 == n as real;
    }
    assert forall i :: 0 <= i < |m.inches| ==> m.inches[i] in m.inches;
  }

  predicate IsHalves(t: Option<real>, n: int) {
    t == Some(n as real / 2.0)
  }

  // ---- refusals ----

  /** A wrap-up refused - by the office, or because a shot's bytes are gone - stays in the outbox, marked with which of the
      two it was; every other entry, draft, shot and call stays as it was. */
  lemma {:induction false} RefusedStays(w: World, verdict: Verdict)
    requires w.flight.Some? && verdict != Taken
    requires CallAwaited(w.flight.value.at).Some? || w.flight.value.at.Reading?
    ensures var at, x := w.flight.value.at, w.flight.value.entry.wrapUpId;
      var lost := at.Reading? && at.id !in w.page.media;
      var w' := if at.Reading? then ReadBytes(w) else AfterAnswer(w, verdict);
      (lost || !at.Reading?) ==>
        && w'.page.drafts == w.page.drafts && w'.page.media == w.page.media && w'.office == w.office && w.calls <= w'.calls
        && |w'.page.outbox| == |w.page.outbox|
        && forall i :: 0 <= i < |w.page.outbox| ==>
             w'.page.outbox[i] == if w.page.outbox[i].wrapUpId != x then w.page.outbox[i]
                                  else w.flight.value.entry.(refused := Some(if lost then LostShot else OfficeRefused))
  {
  }

  // ---- back again ----

  lemma {:induction false} FindLast(es: seq<Entry>, e: Entry, job: Id)
    requires (forall x :: x in es ==> x.jobId != job) && e.jobId == job
    ensures Find(es + [e], job) == Some(e) && Without(es + [e], e) == es
    decreases es
  {
    if es == [] {
      assert [e][1..] == [] && es + [e] == [e];
    } else {
      FindLast(es[1..], e, job);
      assert (es + [e])[1..] == es[1..] + [e] && (es + [e])[0] == es[0];
    }
  }

  /** A submitted draft reopened is the draft it was, but for white space around its texts, measurements no one asked for,
      and a signature, or a reason, that was not the one it went by; and the other jobs' entries stay. */
  lemma {:induction false} SubmitThenReopen(p: Page, job: Id, x: Id, at: int)
    requires Ready(DraftFor(p, job))
    ensures var d, p' := DraftFor(p, job), Reopened(Submitted(p, job, x, at), job);
      var d' := DraftFor(p', job);
      && d'.finish == d.finish && d'.photos == d.photos && d'.notes == Trim(d.notes) && d'.absent == d.absent
      && d'.measurements == (if d.finish == QuoteNeeded then d.measurements else UNMEASURED)
      && d'.signature == (if d.absent then None else d.signature)
      && d'.absentReason == (if d.absent then Trim(d.absentReason) else "")
      && p'.outbox == NotOfJob(p.outbox, job)
      && forall j :: j != job ==> DraftFor(p', j) == DraftFor(p, j)
  {
    var d := DraftFor(p, job);
    var e := EntryOf(d, job, x, at);
    FindLast(NotOfJob(p.outbox, job), e, job);
    assert Back(e.photos) == d.photos;
  }

  // ---- what stays in a list, in its order ----

  lemma {:induction false} NotOfJobFirst(es: seq<Entry>, job: Id)
    requires es != []
    ensures NotOfJob(es, job) == if es[0].jobId != job then [es[0]] + NotOfJob(es[1..], job) else NotOfJob(es[1..], job)
  {
  }

  /** A new submission takes the place of its job's entries and of no other. */
  lemma {:induction false} NotOfJobArePicked(es: seq<Entry>, job: Id) returns (at: seq<nat>)
    ensures KeptAt(NotOfJob(es, job), es, at) && (forall i, j :: 0 <= i < j < |at| ==> at[i] < at[j])
    ensures forall k: nat :: k < |es| ==> (k in at <==> es[k].jobId != job)
  {
    hide KeptAt;
    if es == [] {
      at := [];
      NoneKept(es, at);
    } else {
      var later := NotOfJobArePicked(es[1..], job);
      at := FirstThenRest(NotOfJob(es[1..], job), es, es[0].jobId != job, later);
      NotOfJobFirst(es, job);
      hide NotOfJob;
      forall k: nat | k < |es| ensures k in at <==> es[k].jobId != job {
        if k > 0 {
          var j := k - 1;
          assert es[1..][j] == es[k] && (j + 1 in at <==> j in later);
        }
      }
    }
  }

  lemma {:induction false} WithoutIdFirst(es: seq<Entry>, x: Id)
    requires es != []
    ensures WithoutId(es, x) == if es[0].wrapUpId != x then [es[0]] + WithoutId(es[1..], x) else WithoutId(es[1..], x)
  {
  }

  /** An entry the office has recorded leaves, and no other. */
  lemma {:induction false} WithoutIdArePicked(es: seq<Entry>, x: Id) returns (at: seq<nat>)
    ensures KeptAt(WithoutId(es, x), es, at) && (forall i, j :: 0 <= i < j < |at| ==> at[i] < at[j])
    ensures forall k: nat :: k < |es| ==> (k in at <==> es[k].wrapUpId != x)
  {
    hide KeptAt;
    if es == [] {
      at := [];
      NoneKept(es, at);
    } else {
      var later := WithoutIdArePicked(es[1..], x);
      at := FirstThenRest(WithoutId(es[1..], x), es, es[0].wrapUpId != x, later);
      WithoutIdFirst(es, x);
      hide WithoutId;
      forall k: nat | k < |es| ensures k in at <==> es[k].wrapUpId != x {
        if k > 0 {
          var j := k - 1;
          assert es[1..][j] == es[k] && (j + 1 in at <==> j in later);
        }
      }
    }
  }

  lemma {:induction false} WaitingFirst(es: seq<Entry>)
    requires es != []
    ensures Waiting(es) == if es[0].refused.None? then [es[0]] + Waiting(es[1..]) else Waiting(es[1..])
  {
  }

  /** A flush goes over exactly the entries not refused. */
  lemma {:induction false} WaitingArePicked(es: seq<Entry>) returns (at: seq<nat>)
    ensures KeptAt(Waiting(es), es, at) && (forall i, j :: 0 <= i < j < |at| ==> at[i] < at[j])
    ensures forall k: nat :: k < |es| ==> (k in at <==> es[k].refused.None?)
  {
    hide KeptAt;
    if es == [] {
      at := [];
      NoneKept(es, at);
    } else {
      var later := WaitingArePicked(es[1..]);
      at := FirstThenRest(Waiting(es[1..]), es, es[0].refused.None?, later);
      WaitingFirst(es);
      hide Waiting;
      forall k: nat | k < |es| ensures k in at <==> es[k].refused.None? {
        if k > 0 {
          var j := k - 1;
          assert es[1..][j] == es[k] && (j + 1 in at <==> j in later);
        }
      }
    }
  }

  lemma {:induction false} WithoutFirst(es: seq<Entry>, e: Entry)
    requires es != []
    ensures Without(es, e) == if es[0] != e then [es[0]] + Without(es[1..], e) else Without(es[1..], e)
  {
  }

  /** A reopened entry leaves, and no other. */
  lemma {:induction false} OthersArePicked(es: seq<Entry>, e: Entry) returns (at: seq<nat>)
    ensures KeptAt(Without(es, e), es, at) && (forall i, j :: 0 <= i < j < |at| ==> at[i] < at[j])
    ensures forall k: nat :: k < |es| ==> (k in at <==> es[k] != e)
  {
    hide KeptAt;
    if es == [] {
      at := [];
      NoneKept(es, at);
    } else {
      var later := OthersArePicked(es[1..], e);
      at := FirstThenRest(Without(es[1..], e), es, es[0] != e, later);
      WithoutFirst(es, e);
      hide Without;
      forall k: nat | k < |es| ensures k in at <==> es[k] != e {
        if k > 0 {
          var j := k - 1;
          assert es[1..][j] == es[k] && (j + 1 in at <==> j in later);
        }
      }
    }
  }

  lemma {:induction false} PhotosWithoutFirst(shots: seq<Shot>, id: Id)
    requires shots != []
    ensures PhotosWithout(shots, id) == if shots[0].id != id then [shots[0]] + PhotosWithout(shots[1..], id) else PhotosWithout(shots[1..], id)
  {
  }

  /** A removed photo leaves, and no other. */
  lemma {:induction false} PhotosArePicked(shots: seq<Shot>, id: Id) returns (at: seq<nat>)
    ensures KeptAt(PhotosWithout(shots, id), shots, at) && (forall i, j :: 0 <= i < j < |at| ==> at[i] < at[j])
    ensures forall k: nat :: k < |shots| ==> (k in at <==> shots[k].id != id)
  {
    hide KeptAt;
    if shots == [] {
      at := [];
      NoneKept(shots, at);
    } else {
      var later := PhotosArePicked(shots[1..], id);
      at := FirstThenRest(PhotosWithout(shots[1..], id), shots, shots[0].id != id, later);
      PhotosWithoutFirst(shots, id);
      hide PhotosWithout;
      forall k: nat | k < |shots| ensures k in at <==> shots[k].id != id {
        if k > 0 {
          var j := k - 1;
          assert shots[1..][j] == shots[k] && (j + 1 in at <==> j in later);
        }
      }
    }
  }

  // ---- taking shots ----

  /** A photo whose bytes are in is the draft's last, and nothing else of the draft, or of another job's, is touched. */
  lemma {:induction false} PhotoJoins(w: World, op: Op)
    requires op.Putting? && op.kind == Photo
    ensures var w' := AfterOp(w, op);
      var d, d' := DraftFor(w.page, op.job), DraftFor(w'.page, op.job);
      && d' == d.(photos := d'.photos) && |d'.photos| == |d.photos| + 1 && d.photos <= d'.photos && d'.photos[|d.photos|] == op.shot
      && w'.page.media == w.page.media[op.shot.id := op.bytes] && w'.page.outbox == w.page.outbox
      && forall j :: j != op.job ==> DraftFor(w'.page, j) == DraftFor(w.page, j)
  {
  }

  /** A signature whose bytes are in is the draft's at once if it had none; otherwise the old one's bytes go first, and then
      it is. Either way the customer is no longer absent. */
  lemma {:induction false} SignatureTaken(w: World, op: Op)
    requires op.Putting? && op.kind == Signature
    ensures var w', d := AfterOp(w, op), DraftFor(w.page, op.job);
      var signed := d.(signature := Some(op.shot), absent := false);
      && (d.signature.None? ==> DraftFor(w'.page, op.job) == signed && w'.ops == w.ops)
      && (d.signature.Some? ==>
            var prior := d.signature.value.id;
            && DraftFor(w'.page, op.job) == d && w'.ops == w.ops + [Replacing(op.job, op.shot, prior)] && prior !in w'.page.media
            && DraftFor(AfterOp(w', Replacing(op.job, op.shot, prior)).page, op.job) == signed)
      && forall j :: j != op.job ==> DraftFor(w'.page, j) == DraftFor(w.page, j)
  {
  }

  /** A photo removed, and a signature cleared, is gone from its draft, and the rest of it stays. */
  lemma {:induction false} ShotsDropped(w: World, job: Id, id: Id)
    ensures var d, d' := DraftFor(w.page, job), DraftFor(AfterOp(w, Removing(job, id)).page, job);
      d' == d.(photos := d'.photos) && forall s :: s in d'.photos <==> s in d.photos && s.id != id
    ensures DraftFor(AfterOp(w, Clearing(job, id)).page, job) == DraftFor(w.page, job).(signature := None)
  {
  }
}
