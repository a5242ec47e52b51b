/** Whose each photo and signature is, and that its bytes are there when a flush comes for them. */
module WrapUpShots {
  import opened Common
  import opened WrapUps
  import opened WrapUpProtocol

  // ---- the runs spoken of ----

  predicate Deletes(o: Op) {
    o.Replacing? || o.Removing? || o.Clearing?
  }

  /** The shot whose bytes a suspended edit has deleted. */
  function DeletedId(o: Op): Id
    requires Deletes(o)
  {
    if o.Removing? then o.id else o.prior
  }

  /** No edit suspended after its delete has yet to drop what the job's draft still names. */
  ghost predicate ReloadSafe(w: World) {
    forall o :: o in w.ops && Deletes(o) && o.job in w.page.drafts ==> DeletedId(o) !in DraftShots(w.page.drafts[o.job])
  }

  /** The same of what a submit would send: an absent customer's signature is not sent. */
  ghost predicate SubmitSafe(w: World, job: Id) {
    forall o :: o in w.ops && Deletes(o) && o.job == job ==> DeletedId(o) !in SentShots(DraftFor(w.page, job))
  }

  function SentShots(d: Draft): set<Id> {
    (set s | s in d.photos :: s.id) + (if d.signature.Some? && !d.absent then {d.signature.value.id} else {})
  }

  /** Only refused entries are reopened, only a job's own photo is removed, and neither a submit nor a reload comes while
      an edit that has deleted bytes has yet to drop the shot they were of. */
  ghost predicate Tidy(w: World, s: Step) {
    match s
    case Reopen(job) => Find(w.page.outbox, job).Some? ==> Find(w.page.outbox, job).value.refused.Some?
    case RemovePhoto(job, id) => exists p :: p in DraftFor(w.page, job).photos && p.id == id
    case Submit(job, _, _) => Ready(DraftFor(w.page, job)) ==> SubmitSafe(w, job)
    case Reload => ReloadSafe(w)
    case _ => true
  }

  ghost predicate TidyRun(w: World, steps: seq<Step>, w': World)
    decreases steps
  {
    if steps == [] then w' == w
    else Can(w, steps[0]) && Tidy(w, steps[0]) && TidyRun(Next(w, steps[0]), steps[1..], w')
  }

  // ---- the invariant ----

  ghost predicate DraftOwned(d: Draft, job: Id, owner: map<Id, Owner>) {
    && (forall s :: s in d.photos ==> s.id in owner && owner[s.id] == OfDraft(job, Photo))
    && (d.signature.Some? ==> d.signature.value.id in owner && owner[d.signature.value.id] == OfDraft(job, Signature))
  }

  ghost predicate EntryOwned(e: Entry, owner: map<Id, Owner>) {
    && (forall s :: s in e.photos ==> s.id in owner && owner[s.id] == OfEntry(e.wrapUpId, Photo))
    && (e.signature.Some? ==> e.signature.value.id in owner && owner[e.signature.value.id] == OfEntry(e.wrapUpId, Signature))
  }

  ghost predicate BeingReplaced(ops: seq<Op>, job: Id, id: Id) {
    exists o :: o in ops && o.job == job && ((o.Replacing? && o.prior == id) || (o.Clearing? && o.prior == id))
  }

  ghost predicate DraftHeld(d: Draft, job: Id, ops: seq<Op>, media: map<Id, Bytes>) {
    && (forall s :: s in d.photos ==> s.id in media || Removing(job, s.id) in ops)
    && (d.signature.Some? ==> d.signature.value.id in media || BeingReplaced(ops, job, d.signature.value.id))
  }

  ghost predicate EntryHeld(e: Entry, media: map<Id, Bytes>) {
    && (forall s :: s in e.photos ==> s.id in media)
    && (e.signature.Some? ==> e.signature.value.id in media)
  }

  ghost predicate DraftsOk(w: World) {
    forall job :: job in w.page.drafts ==>
      DraftOwned(w.page.drafts[job], job, w.owner) && DraftHeld(w.page.drafts[job], job, w.ops, w.page.media)
  }

  ghost predicate EntriesOk(es: seq<Entry>, w: World) {
    forall e :: e in es ==> EntryOwned(e, w.owner) && EntryHeld(e, w.page.media) && e.wrapUpId in w.minted
  }

  ghost predicate Distinct(es: seq<Entry>) {
    forall i, j :: 0 <= i < j < |es| ==> es[i].wrapUpId != es[j].wrapUpId
  }

  function InHandShot(o: Op): Option<Id> {
    match o
    case Putting(_, _, s, _) => Some(s.id)
    case Replacing(_, s, _) => Some(s.id)
    case _ => None
  }

  ghost predicate OpsOk(w: World) {
    && (forall i, j :: 0 <= i < j < |w.ops| && InHandShot(w.ops[i]).Some? ==> InHandShot(w.ops[i]) != InHandShot(w.ops[j]))
    && (forall o :: o in w.ops && InHandShot(o).Some? ==>
          InHandShot(o).value in w.owner && w.owner[InHandShot(o).value] == InHand)
    && (forall o :: o in w.ops && o.Replacing? ==> o.shot.id in w.page.media)
  }

  ghost predicate OutboxOk(w: World) {
    && EntriesOk(w.page.outbox, w) && Distinct(w.page.outbox)
    && (forall e :: e in w.page.outbox ==> e.refused != Some(LostShot))
  }

  /** An entry a flush holds is not refused in the outbox, if it is still there. */
  ghost predicate Open(w: World, x: Id) {
    forall e :: e in w.page.outbox && e.wrapUpId == x ==> e.refused.None?
  }

  ghost predicate RestOk(w: World, rest: seq<Entry>) {
    && EntriesOk(rest, w) && Distinct(rest)
    && (forall e :: e in rest ==> Open(w, e.wrapUpId) && e.refused.None?)
  }

  ghost predicate CurrentOk(w: World, rest: seq<Entry>, e: Entry) {
    && EntryOwned(e, w.owner) && e.wrapUpId in w.minted && e.refused.None?
    && (forall r :: r in rest ==> r.wrapUpId != e.wrapUpId)
  }

  ghost predicate AtOk(w: World, f: Flight) {
    if f.at.Cleaning? then
      && f.entry.wrapUpId !in WrapUpIds(w.page.outbox)
      && forall id :: id in f.at.left ==> id in w.owner && w.owner[id].OfEntry? && w.owner[id].wrapUpId == f.entry.wrapUpId
    else
      && Open(w, f.entry.wrapUpId) && EntryHeld(f.entry, w.page.media)
      && (forall id :: id in f.todo ==> id in w.page.media && id in ShotIds(f.entry))
      && (f.at.Reading? ==> f.at.id in w.page.media && f.at.id in ShotIds(f.entry))
  }

  ghost predicate FlightOk(w: World) {
    w.flight.Some? ==>
      var f := w.flight.value;
      RestOk(w, f.rest) && CurrentOk(w, f.rest, f.entry) && AtOk(w, f)
  }

  ghost predicate SettledOk(w: World) {
    && w.page.keptDrafts == w.page.drafts && w.page.keptOutbox == w.page.outbox
    && w.owner.Keys <= w.minted
    && DraftsOk(w) && OpsOk(w) && OutboxOk(w)
  }

  ghost predicate Inv(w: World) {
    SettledOk(w) && FlightOk(w)
  }

  // ---- lists of entries ----

  lemma {:induction false} DistinctCons(e: Entry, es: seq<Entry>)
    requires Distinct(es) && forall o :: o in es ==> o.wrapUpId != e.wrapUpId
    ensures Distinct([e] + es)
  {
  }

  lemma {:induction false} HeadIsNew(es: seq<Entry>)
    requires es != [] && Distinct(es)
    ensures Distinct(es[1..]) && forall o :: o in es[1..] ==> o.wrapUpId != es[0].wrapUpId
  {
  }

  lemma {:induction false} NotOfJobDistinct(es: seq<Entry>, job: Id)
    requires Distinct(es)
    ensures Distinct(NotOfJob(es, job))
  {
    if es != [] {
      HeadIsNew(es);
      NotOfJobDistinct(es[1..], job);
      DistinctCons(es[0], NotOfJob(es[1..], job));
    }
  }

  lemma {:induction false} WithoutIdDistinct(es: seq<Entry>, x: Id)
    requires Distinct(es)
    ensures Distinct(WithoutId(es, x))
  {
    if es != [] {
      HeadIsNew(es);
      WithoutIdDistinct(es[1..], x);
      DistinctCons(es[0], WithoutId(es[1..], x));
    }
  }

  lemma {:induction false} WaitingDistinct(es: seq<Entry>)
    requires Distinct(es)
    ensures Distinct(Waiting(es))
  {
    if es != [] {
      HeadIsNew(es);
      WaitingDistinct(es[1..]);
      DistinctCons(es[0], Waiting(es[1..]));
    }
  }

  lemma {:induction false} WithoutDistinct(es: seq<Entry>, e: Entry)
    requires Distinct(es)
    ensures Distinct(Without(es, e))
  {
    if es != [] {
      HeadIsNew(es);
      WithoutDistinct(es[1..], e);
      DistinctCons(es[0], Without(es[1..], e));
    }
  }

  // ---- the flush ----

  lemma {:induction false} HeldShots(e: Entry, media: map<Id, Bytes>)
    requires EntryHeld(e, media)
    ensures forall id :: id in ShotIds(e) ==> id in media
    ensures forall id :: id in Unsent(Shots(e)) ==> id in ShotIds(e)
  {
  }

  lemma {:induction false} NextShotKeeps(w: World, rest: seq<Entry>, e: Entry, todo: seq<Id>)
    requires SettledOk(w) && RestOk(w, rest) && CurrentOk(w, rest, e) && Open(w, e.wrapUpId) && EntryHeld(e, w.page.media)
    requires forall id :: id in todo ==> id in ShotIds(e)
    ensures Inv(NextShot(w, rest, e, todo))
  {
    HeldShots(e, w.page.media);
  }

  lemma {:induction false} NextEntryKeeps(w: World, rest: seq<Entry>)
    requires SettledOk(w) && RestOk(w, rest)
    ensures Inv(NextEntry(w, rest))
  {
    if rest != [] {
      var e := rest[0];
      assert e in rest;
      assert forall r :: r in rest[1..] ==> r in rest && r.wrapUpId != e.wrapUpId;
      HeldShots(e, w.page.media);
      NextShotKeeps(w, rest[1..], e, Unsent(Shots(e)));
    }
  }

  lemma {:induction false} SwapKeeps(w: World, rest: seq<Entry>, x: Id, to: Entry)
    requires SettledOk(w) && RestOk(w, rest)
    requires to.wrapUpId == x && x in w.minted && EntryOwned(to, w.owner) && EntryHeld(to, w.page.media)
    requires to.refused != Some(LostShot) && forall r :: r in rest ==> r.wrapUpId != x
    ensures SettledOk(w.(page := Replaced(w.page, x, Some(to)))) && RestOk(w.(page := Replaced(w.page, x, Some(to))), rest)
  {
    var w' := w.(page := Replaced(w.page, x, Some(to)));
    forall e | e in w'.page.outbox ensures e == to || (e in w.page.outbox && e.wrapUpId != x) {
    }
    assert Distinct(w'.page.outbox);
    forall r | r in rest ensures Open(w', r.wrapUpId) {
      assert Open(w, r.wrapUpId);
    }
  }

  lemma {:induction false} RefusedKeeps(w: World)
    requires Inv(w) && w.flight.Some? && !w.flight.value.at.Cleaning?
    ensures Inv(Refused(w, OfficeRefused))
  {
    var f := w.flight.value;
    var e := f.entry.(refused := Some(OfficeRefused));
    SwapKeeps(w, f.rest, e.wrapUpId, e);
    NextEntryKeeps(w.(page := Replaced(w.page, e.wrapUpId, Some(e))), f.rest);
  }

  lemma {:induction false} MarkedKeeps(e: Entry, id: Id, w: World)
    requires EntryOwned(e, w.owner) && EntryHeld(e, w.page.media)
    ensures EntryOwned(Marked(e, id), w.owner) && EntryHeld(Marked(e, id), w.page.media)
    ensures ShotIds(Marked(e, id)) == ShotIds(e)
  {
    var m := Marked(e, id);
    forall s | s in m.photos ensures exists o :: o in e.photos && o.id == s.id {
      var i :| 0 <= i < |m.photos| && m.photos[i] == s;
      assert e.photos[i] in e.photos;
    }
    assert |Shots(m)| == |Shots(e)|;
    forall k | 0 <= k < |Shots(e)| ensures Shots(m)[k].id == Shots(e)[k].id {
    }
    forall x | x in ShotIds(e) ensures x in ShotIds(m) {
      var k :| 0 <= k < |Shots(e)| && Shots(e)[k].id == x;
      assert Shots(m)[k] in Shots(m);
    }
    forall x | x in ShotIds(m) ensures x in ShotIds(e) {
      var k :| 0 <= k < |Shots(m)| && Shots(m)[k].id == x;
      assert Shots(e)[k] in Shots(e);
    }
  }

  lemma {:induction false} AttachedKeeps(w: World)
    requires Inv(w) && w.flight.Some? && w.flight.value.at.Attaching?
    ensures Inv(Attached(w))
  {
    var f := w.flight.value;
    var next := Marked(f.entry, f.at.id);
    MarkedKeeps(f.entry, f.at.id, w);
    AttachedSwap(w, f, next);
  }

  lemma {:induction false} AttachedSwap(w: World, f: Flight, next: Entry)
    requires Inv(w) && w.flight == Some(f) && !f.at.Cleaning? && next.wrapUpId == f.entry.wrapUpId
    requires EntryOwned(next, w.owner) && EntryHeld(next, w.page.media) && ShotIds(next) == ShotIds(f.entry)
    requires next.refused.None?
    ensures Inv(NextShot(w.(page := Replaced(w.page, f.entry.wrapUpId, Some(next))), f.rest, next, f.todo))
  {
    var w' := w.(page := Replaced(w.page, f.entry.wrapUpId, Some(next)));
    SwapKeeps(w, f.rest, next.wrapUpId, next);
    NextShotKeeps(w', f.rest, next, f.todo);
  }

  /** Bytes of a shot no draft or hand holds may go without anyone missing them, its own entry apart. */
  lemma {:induction false} ForgetEntryShot(w: World, rest: seq<Entry>, id: Id, x: Id)
    requires SettledOk(w) && RestOk(w, rest)
    requires id in w.owner && w.owner[id].OfEntry? && w.owner[id].wrapUpId == x
    requires x !in WrapUpIds(w.page.outbox) && forall r :: r in rest ==> r.wrapUpId != x
    ensures SettledOk(w.(page := Forgotten(w.page, id))) && RestOk(w.(page := Forgotten(w.page, id)), rest)
  {
    var w' := w.(page := Forgotten(w.page, id));
    forall e | e in w.page.outbox ensures EntryHeld(e, w'.page.media) {
      assert e.wrapUpId in WrapUpIds(w.page.outbox);
    }
  }

  lemma {:induction false} DeletedKeeps(w: World)
    requires Inv(w) && w.flight.Some? && w.flight.value.at.Cleaning?
    ensures Inv(Cleaned(w))
  {
    var f := w.flight.value;
    if f.at.left == [] {
      NextEntryKeeps(w, f.rest);
    } else {
      var w1 := w.(page := Forgotten(w.page, f.at.left[0]));
      ForgetEntryShot(w, f.rest, f.at.left[0], f.entry.wrapUpId);
      if |f.at.left| == 1 {
        NextEntryKeeps(w1, f.rest);
      }
    }
  }

  lemma {:induction false} ReportedKeeps(w: World)
    requires Inv(w) && w.flight.Some? && !w.flight.value.at.Cleaning?
    ensures Inv(Reported(w))
  {
    var f, w' := w.flight.value, Reported(w);
    WithoutIdDistinct(w.page.outbox, f.entry.wrapUpId);
    forall r | r in f.rest ensures Open(w', r.wrapUpId) {
      assert Open(w, r.wrapUpId);
    }
    forall id | id in w'.flight.value.at.left
      ensures id in w.owner && w.owner[id].OfEntry? && w.owner[id].wrapUpId == f.entry.wrapUpId
    {
      var k :| 0 <= k < |Shots(f.entry)| && Shots(f.entry)[k].id == id;
      assert k < |f.entry.photos| ==> f.entry.photos[k] in f.entry.photos;
    }
  }

  lemma {:induction false} BytesReadKeeps(w: World)
    requires Inv(w) && w.flight.Some? && w.flight.value.at.Reading?
    ensures w.flight.value.at.id in w.page.media
    ensures Inv(ReadBytes(w))
  {
  }

  lemma {:induction false} StartFlushKeeps(w: World)
    requires Inv(w)
    ensures Inv(NextEntry(w, Waiting(w.page.outbox)))
  {
    var rest := Waiting(w.page.outbox);
    WaitingDistinct(w.page.outbox);
    forall r | r in rest ensures Open(w, r.wrapUpId) {
      forall e | e in w.page.outbox && e.wrapUpId == r.wrapUpId ensures e == r {
        var i :| 0 <= i < |w.page.outbox| && w.page.outbox[i] == e;
        var j :| 0 <= j < |w.page.outbox| && w.page.outbox[j] == r;
      }
    }
    NextEntryKeeps(w, rest);
  }

  // ---- the screens ----

  /** A draft changed, and nothing else that the rest depends on. */
  lemma {:induction false} DraftKeeps(w: World, w': World, job: Id)
    requires Inv(w)
    requires w'.page == w.page.(drafts := w'.page.drafts, keptDrafts := w'.page.drafts)
    requires w'.flight == w.flight && w'.minted == w.minted && w'.owner.Keys <= w'.minted
    requires forall id :: id in w.owner && (w.owner[id] != InHand) ==> id in w'.owner && w'.owner[id] == w.owner[id]
    requires OpsOk(w') && job in w'.page.drafts
    requires forall j :: j in w'.page.drafts && j != job ==> j in w.page.drafts && w'.page.drafts[j] == w.page.drafts[j]
    requires forall o :: o in w.ops && o.job != job ==> o in w'.ops
    requires DraftOwned(w'.page.drafts[job], job, w'.owner) && DraftHeld(w'.page.drafts[job], job, w'.ops, w'.page.media)
    ensures Inv(w')
  {
    hide DraftOwned, DraftHeld, EntryOwned, EntryHeld, EntriesOk;
    EntriesStay(w.page.outbox, w, w');
    if w.flight.Some? {
      EntriesStay(w.flight.value.rest, w, w');
      EntryStaysOwned(w.flight.value.entry, w.owner, w'.owner);
    }
    forall j | j in w'.page.drafts && j != job
      ensures DraftOwned(w'.page.drafts[j], j, w'.owner) && DraftHeld(w'.page.drafts[j], j, w'.ops, w'.page.media)
    {
      assert DraftOwned(w.page.drafts[j], j, w.owner) && DraftHeld(w.page.drafts[j], j, w.ops, w.page.media);
      OtherDraftStays(w.page.drafts[j], j, job, w, w');
    }
  }

  ghost predicate OwnersStay(owner: map<Id, Owner>, owner': map<Id, Owner>) {
    forall id :: id in owner && owner[id] != InHand ==> id in owner' && owner'[id] == owner[id]
  }

  lemma {:induction false} EntryStaysOwned(e: Entry, owner: map<Id, Owner>, owner': map<Id, Owner>)
    requires OwnersStay(owner, owner')
    ensures EntryOwned(e, owner) ==> EntryOwned(e, owner')
  {
  }

  lemma {:induction false} EntriesStay(es: seq<Entry>, w: World, w': World)
    requires EntriesOk(es, w) && OwnersStay(w.owner, w'.owner) && w'.page.media == w.page.media && w'.minted == w.minted
    ensures EntriesOk(es, w')
  {
    hide EntryOwned, EntryHeld;
    forall e | e in es ensures EntryOwned(e, w'.owner) {
      EntryStaysOwned(e, w.owner, w'.owner);
    }
  }

  lemma {:induction false} OtherDraftStays(d: Draft, j: Id, job: Id, w: World, w': World)
    requires DraftOwned(d, j, w.owner) && DraftHeld(d, j, w.ops, w.page.media) && j != job
    requires OwnersStay(w.owner, w'.owner) && w'.page.media == w.page.media
    requires forall o :: o in w.ops && o.job != job ==> o in w'.ops
    ensures DraftOwned(d, j, w'.owner) && DraftHeld(d, j, w'.ops, w'.page.media)
  {
  }

  ghost predicate HandsDistinct(ops: seq<Op>) {
    forall i, j :: 0 <= i < j < |ops| && InHandShot(ops[i]).Some? ==> InHandShot(ops[i]) != InHandShot(ops[j])
  }

  lemma {:induction false} WithoutOpOk(ops: seq<Op>, k: nat)
    requires k < |ops| && HandsDistinct(ops)
    ensures HandsDistinct(WithoutOp(ops, k))
    ensures forall o :: o in WithoutOp(ops, k) && InHandShot(ops[k]).Some? ==> InHandShot(o) != InHandShot(ops[k])
    ensures forall o :: o in ops && o != ops[k] ==> o in WithoutOp(ops, k)
  {
    var rest := WithoutOp(ops, k);
    forall i | 0 <= i < |rest| ensures rest[i] == ops[if i < k then i else i + 1] {
    }
    forall o | o in ops && o != ops[k] ensures o in rest {
      var i :| 0 <= i < |ops| && ops[i] == o;
      assert rest[if i < k then i else i - 1] == o;
    }
  }

  /** An op gone whose delete, if it had one, no draft still depends on. */
  lemma {:induction false} OpGone(w: World, k: nat)
    requires Inv(w) && k < |w.ops| && (w.ops[k].Putting? || w.ops[k].Replacing?)
    ensures OpsOk(w.(ops := WithoutOp(w.ops, k)))
    ensures forall o :: o in WithoutOp(w.ops, k) ==> InHandShot(o) != InHandShot(w.ops[k])
    ensures forall o :: o in w.ops && o != w.ops[k] ==> o in WithoutOp(w.ops, k)
  {
    WithoutOpOk(w.ops, k);
  }

  lemma {:induction false} MediaGrows(w: World, id: Id, bytes: Bytes)
    requires Inv(w)
    ensures Inv(w.(page := w.page.(media := w.page.media[id := bytes])))
  {
    var w' := w.(page := w.page.(media := w.page.media[id := bytes]));
    forall job | job in w.page.drafts
      ensures DraftOwned(w.page.drafts[job], job, w.owner) && DraftHeld(w.page.drafts[job], job, w.ops, w'.page.media)
    {
      assert DraftHeld(w.page.drafts[job], job, w.ops, w.page.media);
    }
  }

  lemma {:induction false} DraftForOk(w: World, job: Id)
    requires DraftsOk(w)
    ensures DraftOwned(DraftFor(w.page, job), job, w.owner) && DraftHeld(DraftFor(w.page, job), job, w.ops, w.page.media)
  {
  }

  /** A draft's shot loses its bytes and an op that is about to drop it is suspended. */
  lemma {:induction false} DeleteBegins(w: World, job: Id, id: Id, kind: Kind, op: Op)
    requires Inv(w) && id in w.owner && w.owner[id] == OfDraft(job, kind) && op.job == job
    requires match op
             case Putting(_, _, _, _) => false
             case Replacing(_, shot, prior) =>
               && prior == id && kind == Signature && shot.id in w.page.media && shot.id in w.owner && w.owner[shot.id] == InHand
               && forall o :: o in w.ops ==> InHandShot(o) != Some(shot.id)
             case Removing(_, x) => x == id && kind == Photo
             case Clearing(_, prior) => prior == id && kind == Signature
    ensures Inv(w.(page := Forgotten(w.page, id), ops := w.ops + [op]))
  {
    hide EntriesOk, RestOk, CurrentOk, AtOk, Distinct;
    var w' := w.(page := Forgotten(w.page, id), ops := w.ops + [op]);
    assert op in w'.ops && forall o :: o in w.ops ==> o in w'.ops;
    forall j | j in w.page.drafts
      ensures DraftOwned(w.page.drafts[j], j, w.owner) && DraftHeld(w.page.drafts[j], j, w'.ops, w'.page.media)
    {
      assert DraftOwned(w.page.drafts[j], j, w.owner) && DraftHeld(w.page.drafts[j], j, w.ops, w.page.media);
    }
    DeleteLeavesEntries(w, w', id);
  }

  /** Bytes of a draft's shot are no entry's. */
  lemma {:induction false} DeleteLeavesEntries(w: World, w': World, id: Id)
    requires OutboxOk(w) && FlightOk(w) && w' == w.(page := Forgotten(w.page, id), ops := w'.ops)
    requires id in w.owner && w.owner[id].OfDraft?
    ensures OutboxOk(w') && FlightOk(w')
  {
  }

  lemma {:induction false} PhotoJoins(w: World, k: nat)
    requires Inv(w) && k < |w.ops| && w.ops[k].Putting? && w.ops[k].shot.id in w.page.media
    ensures var op := w.ops[k];
      var owner := w.owner[op.shot.id := OfDraft(op.job, Photo)];
      var d := WithPhoto(DraftFor(w.page, op.job), op.shot);
      && OpsOk(w.(ops := WithoutOp(w.ops, k), owner := owner))
      && owner.Keys <= w.minted && op.shot.id in w.owner && w.owner[op.shot.id] == InHand
      && DraftOwned(d, op.job, owner) && DraftHeld(d, op.job, WithoutOp(w.ops, k), w.page.media)
      && forall o :: o in w.ops && o.job != op.job ==> o in WithoutOp(w.ops, k)
  {
    hide FlightOk, OutboxOk;
    assert w.ops[k] in w.ops;
    OpGone(w, k);
    DraftForOk(w, w.ops[k].job);
  }

  lemma {:induction false} PutPhotoKeeps(w: World, k: nat)
    requires Inv(w) && k < |w.ops| && w.ops[k].Putting? && w.ops[k].kind == Photo
    ensures Inv(AfterOp(w.(ops := WithoutOp(w.ops, k)), w.ops[k]))
  {
    hide FlightOk, DraftsOk, OutboxOk, OpsOk, DraftOwned, DraftHeld, WithoutOp;
    var op, w' := w.ops[k], AfterOp(w.(ops := WithoutOp(w.ops, k)), w.ops[k]);
    var w1 := w.(page := w.page.(media := w.page.media[op.shot.id := op.bytes]));
    MediaGrows(w, op.shot.id, op.bytes);
    PhotoJoins(w1, k);
    HandsStay(w1.(ops := w'.ops, owner := w'.owner), w');
    DraftKeeps(w1, w', op.job);
  }

  lemma {:induction false} HandsStay(w: World, w': World)
    requires OpsOk(w) && w'.ops == w.ops && w'.owner == w.owner && w'.page.media == w.page.media
    ensures OpsOk(w')
  {
  }

  lemma {:induction false} PutSignatureKeeps(w: World, k: nat)
    requires Inv(w) && k < |w.ops| && w.ops[k].Putting? && w.ops[k].kind == Signature
    requires DraftFor(w.page, w.ops[k].job).signature.None?
    ensures Inv(AfterOp(w.(ops := WithoutOp(w.ops, k)), w.ops[k]))
  {
    var op, w' := w.ops[k], AfterOp(w.(ops := WithoutOp(w.ops, k)), w.ops[k]);
    var w1 := w.(page := w.page.(media := w.page.media[op.shot.id := op.bytes]));
    assert op in w.ops;
    MediaGrows(w, op.shot.id, op.bytes);
    OpGone(w1, k);
    DraftForOk(w1, op.job);
    DraftKeeps(w1, w', op.job);
  }

  /** An op that never deleted anything may be forgotten. */
  lemma {:induction false} DropPut(w: World, k: nat)
    requires Inv(w) && k < |w.ops| && w.ops[k].Putting?
    ensures Inv(w.(ops := WithoutOp(w.ops, k)))
  {
    var w' := w.(ops := WithoutOp(w.ops, k));
    OpGone(w, k);
    forall j | j in w.page.drafts
      ensures DraftOwned(w.page.drafts[j], j, w.owner) && DraftHeld(w.page.drafts[j], j, w'.ops, w.page.media)
    {
      assert DraftHeld(w.page.drafts[j], j, w.ops, w.page.media);
    }
  }

  lemma {:induction false} PutOverSignatureKeeps(w: World, k: nat)
    requires Inv(w) && k < |w.ops| && w.ops[k].Putting? && w.ops[k].kind == Signature
    requires DraftFor(w.page, w.ops[k].job).signature.Some?
    ensures Inv(AfterOp(w.(ops := WithoutOp(w.ops, k)), w.ops[k]))
  {
    var op := w.ops[k];
    var prior := DraftFor(w.page, op.job).signature.value.id;
    var w1 := w.(page := w.page.(media := w.page.media[op.shot.id := op.bytes]));
    assert op in w.ops;
    MediaGrows(w, op.shot.id, op.bytes);
    OpGone(w1, k);
    DropPut(w1, k);
    DraftForOk(w, op.job);
    DeleteBegins(w1.(ops := WithoutOp(w.ops, k)), op.job, prior, Signature, Replacing(op.job, op.shot, prior));
  }

  lemma {:induction false} ReplacedKeeps(w: World, k: nat)
    requires Inv(w) && k < |w.ops| && w.ops[k].Replacing?
    ensures Inv(AfterOp(w.(ops := WithoutOp(w.ops, k)), w.ops[k]))
  {
    var op, w' := w.ops[k], AfterOp(w.(ops := WithoutOp(w.ops, k)), w.ops[k]);
    assert op in w.ops;
    OpGone(w, k);
    DraftForOk(w, op.job);
    DraftKeeps(w, w', op.job);
  }

  lemma {:induction false} DroppedKeeps(w: World, k: nat)
    requires Inv(w) && k < |w.ops| && (w.ops[k].Removing? || w.ops[k].Clearing?)
    ensures Inv(AfterOp(w.(ops := WithoutOp(w.ops, k)), w.ops[k]))
  {
    var op, w' := w.ops[k], AfterOp(w.(ops := WithoutOp(w.ops, k)), w.ops[k]);
    WithoutOpOk(w.ops, k);
    DraftForOk(w, op.job);
    DraftKeeps(w, w', op.job);
  }

  lemma {:induction false} OpDoneKeeps(w: World, k: nat)
    requires Inv(w) && k < |w.ops|
    ensures Inv(AfterOp(w.(ops := WithoutOp(w.ops, k)), w.ops[k]))
  {
    match w.ops[k]
    case Putting(job, kind, _, _) =>
      if kind == Photo {
        PutPhotoKeeps(w, k);
      } else if DraftFor(w.page, job).signature.None? {
        PutSignatureKeeps(w, k);
      } else {
        PutOverSignatureKeeps(w, k);
      }
    case Replacing(_, _, _) => ReplacedKeeps(w, k);
    case _ => DroppedKeeps(w, k);
  }

  lemma {:induction false} AddShotKeeps(w: World, s: Step)
    requires Inv(w) && s.AddShot? && Can(w, s)
    ensures Inv(Next(w, s))
  {
    var w' := Next(w, s);
    assert s.id !in w.owner;
    forall j | j in w.page.drafts
      ensures DraftOwned(w.page.drafts[j], j, w'.owner) && DraftHeld(w.page.drafts[j], j, w'.ops, w.page.media)
    {
      assert DraftOwned(w.page.drafts[j], j, w.owner) && DraftHeld(w.page.drafts[j], j, w.ops, w.page.media);
    }
  }

  lemma {:induction false} EditTextKeeps(w: World, s: Step)
    requires Inv(w) && s.EditText?
    ensures Inv(Next(w, s))
  {
    DraftForOk(w, s.job);
    DraftKeeps(w, Next(w, s), s.job);
  }

  lemma {:induction false} RemovePhotoKeeps(w: World, s: Step)
    requires Inv(w) && s.RemovePhoto? && Tidy(w, s)
    ensures Inv(Next(w, s))
  {
    DraftForOk(w, s.job);
    DeleteBegins(w, s.job, s.id, Photo, Removing(s.job, s.id));
  }

  lemma {:induction false} ClearSignatureKeeps(w: World, job: Id)
    requires Inv(w)
    ensures Inv(AfterClear(w, job))
  {
    DraftForOk(w, job);
    match DraftFor(w.page, job).signature
    case None => DraftKeeps(w, AfterClear(w, job), job);
    case Some(s) => DeleteBegins(w, job, s.id, Signature, Clearing(job, s.id));
  }

  // ---- handing shots over ----

  lemma {:induction false} SubmittedEntry(d: Draft, job: Id, x: Id, at: int, owner: map<Id, Owner>)
    requires DraftOwned(d, job, owner)
    ensures var e := EntryOf(d, job, x, at);
      && EntryOwned(e, Given(owner, e))
      && Given(owner, e).Keys == owner.Keys
      && forall id :: id in owner && !(owner[id].OfDraft? && owner[id].job == job) ==> Given(owner, e)[id] == owner[id]
  {
    var e := EntryOf(d, job, x, at);
    forall s | s in e.photos ensures s.id in owner && owner[s.id] == OfDraft(job, Photo) {
      var i :| 0 <= i < |e.photos| && e.photos[i] == s;
      assert d.photos[i] in d.photos;
    }
  }

  lemma {:induction false} SubmittedHeld(w: World, job: Id, x: Id, at: int)
    requires DraftsOk(w) && SubmitSafe(w, job)
    ensures EntryHeld(EntryOf(DraftFor(w.page, job), job, x, at), w.page.media)
  {
    var d := DraftFor(w.page, job);
    var e := EntryOf(d, job, x, at);
    DraftForOk(w, job);
    forall s | s in e.photos ensures s.id in w.page.media {
      var i :| 0 <= i < |e.photos| && e.photos[i] == s;
      assert d.photos[i] in d.photos;
      assert Removing(job, s.id) in w.ops ==> DeletedId(Removing(job, s.id)) !in SentShots(d);
    }
  }

  /** Owners changed for one draft's shots alone: hands, other drafts and standing entries keep theirs. */
  lemma {:induction false} OwnersKept(w: World, owner: map<Id, Owner>, job: Id)
    requires Inv(w)
    requires forall id :: id in w.owner && !(w.owner[id].OfDraft? && w.owner[id].job == job) ==> id in owner && owner[id] == w.owner[id]
    ensures OpsOk(w.(owner := owner))
    ensures forall e :: EntryOwned(e, w.owner) ==> EntryOwned(e, owner)
    ensures forall d, j :: j != job && DraftOwned(d, j, w.owner) ==> DraftOwned(d, j, owner)
  {
  }

  lemma {:induction false} SubmitSettles(w: World, job: Id, x: Id, at: int)
    requires Inv(w) && x !in w.minted && Tidy(w, Submit(job, x, at)) && Ready(DraftFor(w.page, job))
    ensures SettledOk(AfterSubmit(w, job, x, at))
    ensures forall e: Entry :: EntryOwned(e, w.owner) ==> EntryOwned(e, AfterSubmit(w, job, x, at).owner)
  {
    hide FlightOk, OutboxOk, OpsOk, EntryOwned, DraftHeld;
    var d, w' := DraftFor(w.page, job), AfterSubmit(w, job, x, at);
    DraftForOk(w, job);
    SubmittedEntry(d, job, x, at, w.owner);
    SubmittedHeld(w, job, x, at);
    OwnersKept(w, w'.owner, job);
    HandsStay(w.(owner := w'.owner), w');
    SubmittedOutbox(w, w', job, EntryOf(d, job, x, at));
  }

  lemma {:induction false} SubmittedOutbox(w: World, w': World, job: Id, e: Entry)
    requires OutboxOk(w) && e.wrapUpId !in w.minted && w'.minted == w.minted + {e.wrapUpId} && w'.page.media == w.page.media
    requires w'.page.outbox == NotOfJob(w.page.outbox, job) + [e] && e.refused.None?
    requires EntryOwned(e, w'.owner) && EntryHeld(e, w.page.media)
    requires forall e: Entry :: EntryOwned(e, w.owner) ==> EntryOwned(e, w'.owner)
    ensures OutboxOk(w')
  {
    hide EntryOwned, EntryHeld;
    NotOfJobDistinct(w.page.outbox, job);
  }

  lemma {:induction false} SubmitLeavesFlight(w: World, w': World, x: Id)
    requires FlightOk(w) && w'.flight == w.flight && x !in w.minted && w'.minted == w.minted + {x}
    requires w'.page.media == w.page.media
    requires forall e :: e in w'.page.outbox ==> e in w.page.outbox || e.wrapUpId == x
    requires forall e: Entry :: EntryOwned(e, w.owner) ==> EntryOwned(e, w'.owner)
    requires forall id :: id in w.owner && w.owner[id].OfEntry? ==> id in w'.owner && w'.owner[id] == w.owner[id]
    ensures FlightOk(w')
  {
    if w.flight.Some? {
      var f := w.flight.value;
      forall y | y in w.minted && Open(w, y) ensures Open(w', y) {
      }
      assert f.entry.wrapUpId in WrapUpIds(w'.page.outbox) ==> f.entry.wrapUpId in WrapUpIds(w.page.outbox);
      assert AtOk(w', f);
    }
  }

  lemma {:induction false} SubmitKeeps(w: World, job: Id, x: Id, at: int)
    requires Inv(w) && x !in w.minted && Tidy(w, Submit(job, x, at)) && Ready(DraftFor(w.page, job))
    ensures Inv(AfterSubmit(w, job, x, at))
  {
    SubmitSettles(w, job, x, at);
    DraftForOk(w, job);
    SubmittedEntry(DraftFor(w.page, job), job, x, at, w.owner);
    SubmitLeavesFlight(w, AfterSubmit(w, job, x, at), x);
  }

  lemma {:induction false} ReopenedDraft(e: Entry, owner: map<Id, Owner>, media: map<Id, Bytes>, ops: seq<Op>)
    requires EntryOwned(e, owner) && EntryHeld(e, media)
    ensures DraftOwned(DraftOf(e), e.jobId, TakenBack(owner, e)) && DraftHeld(DraftOf(e), e.jobId, ops, media)
    ensures TakenBack(owner, e).Keys == owner.Keys
    ensures forall id :: id in owner && !(owner[id].OfEntry? && owner[id].wrapUpId == e.wrapUpId) ==>
              TakenBack(owner, e)[id] == owner[id]
  {
    var d := DraftOf(e);
    forall s | s in d.photos ensures exists o :: o in e.photos && o.id == s.id {
      var i :| 0 <= i < |d.photos| && d.photos[i] == s;
      assert e.photos[i] in e.photos;
    }
  }

  lemma {:induction false} OthersDiffer(es: seq<Entry>, e: Entry)
    requires Distinct(es) && e in es
    ensures forall o :: o in Without(es, e) ==> o.wrapUpId != e.wrapUpId
  {
    forall o | o in Without(es, e) ensures o.wrapUpId != e.wrapUpId {
      var i :| 0 <= i < |es| && es[i] == o;
      var j :| 0 <= j < |es| && es[j] == e;
    }
  }

  /** Owners changed for one refused entry's shots alone. */
  lemma {:induction false} EntryOwnersKept(w: World, owner: map<Id, Owner>, x: Id)
    requires Inv(w)
    requires forall id :: id in w.owner && !(w.owner[id].OfEntry? && w.owner[id].wrapUpId == x) ==> id in owner && owner[id] == w.owner[id]
    ensures OpsOk(w.(owner := owner))
    ensures forall d, j :: DraftOwned(d, j, w.owner) ==> DraftOwned(d, j, owner)
    ensures forall e: Entry :: e.wrapUpId != x && EntryOwned(e, w.owner) ==> EntryOwned(e, owner)
  {
  }

  lemma {:induction false} ReopenKeeps(w: World, job: Id)
    requires Inv(w) && Tidy(w, Reopen(job))
    ensures Inv(AfterReopen(w, job))
  {
    match Find(w.page.outbox, job)
    case None =>
    case Some(e) =>
      var w' := AfterReopen(w, job);
      assert e in w.page.outbox;
      ReopenedDraft(e, w.owner, w.page.media, w.ops);
      EntryOwnersKept(w, w'.owner, e.wrapUpId);
      OthersDiffer(w.page.outbox, e);
      WithoutDistinct(w.page.outbox, e);
      assert OutboxOk(w');
      assert DraftsOk(w');
      if w.flight.Some? {
        ReopenLeavesFlight(w, w', e);
      }
  }

  lemma {:induction false} ReopenLeavesFlight(w: World, w': World, e: Entry)
    requires FlightOk(w) && w.flight.Some? && w'.flight == w.flight && w'.minted == w.minted
    requires e in w.page.outbox && e.refused.Some? && w'.page.outbox == Without(w.page.outbox, e) && w'.page.media == w.page.media
    requires forall o: Entry :: o.wrapUpId != e.wrapUpId && EntryOwned(o, w.owner) ==> EntryOwned(o, w'.owner)
    requires forall id :: id in w.owner && !(w.owner[id].OfEntry? && w.owner[id].wrapUpId == e.wrapUpId) ==>
               id in w'.owner && w'.owner[id] == w.owner[id]
    ensures FlightOk(w')
  {
    var f := w.flight.value;
    assert e.wrapUpId in WrapUpIds(w.page.outbox);
    forall r | r in f.rest ensures r.wrapUpId != e.wrapUpId && Open(w', r.wrapUpId) {
      assert Open(w, r.wrapUpId);
    }
    assert Open(w, f.entry.wrapUpId) ==> f.entry.wrapUpId != e.wrapUpId && Open(w', f.entry.wrapUpId);
    assert f.entry.wrapUpId != e.wrapUpId;
    assert AtOk(w', f);
  }

  lemma {:induction false} ReloadKeeps(w: World)
    requires Inv(w) && Tidy(w, Reload)
    ensures Inv(AfterReload(w))
  {
    var w' := AfterReload(w);
    forall j | j in w.page.drafts
      ensures DraftOwned(w.page.drafts[j], j, w.owner) && DraftHeld(w.page.drafts[j], j, [], w.page.media)
    {
      SafeDraftHeld(w, j);
    }
  }

  /** With nothing suspended that it still names, a draft has all its bytes. */
  lemma {:induction false} SafeDraftHeld(w: World, j: Id)
    requires DraftsOk(w) && ReloadSafe(w) && j in w.page.drafts
    ensures DraftHeld(w.page.drafts[j], j, [], w.page.media)
  {
    var d := w.page.drafts[j];
    assert DraftHeld(d, j, w.ops, w.page.media);
    forall s | s in d.photos ensures s.id in w.page.media {
      assert Removing(j, s.id) in w.ops ==> DeletedId(Removing(j, s.id)) !in DraftShots(d);
    }
  }

  lemma {:induction false} LinkKeeps(w: World, w': World)
    requires Inv(w) && w'.page == w.page && w'.ops == w.ops && w'.owner == w.owner && w'.minted == w.minted
    requires w'.flight == w.flight || w'.flight.None?
    ensures Inv(w')
  {
  }

  lemma {:induction false} NextKeeps(w: World, s: Step)
    requires Inv(w) && Can(w, s) && Tidy(w, s)
    ensures Inv(Next(w, s))
  {
    hide DraftsOk, OutboxOk, OpsOk, RestOk, CurrentOk, AtOk, AfterReopen, AfterOp, AfterClear;
    match s
    case EditText(_, _, _, _, _, _) => EditTextKeeps(w, s);
    case AddShot(_, _, _, _, _) => AddShotKeeps(w, s);
    case RemovePhoto(_, _) => RemovePhotoKeeps(w, s);
    case ClearSignature(job) => ClearSignatureKeeps(w, job);
    case OpDone(k) => OpDoneKeeps(w, k);
    case Submit(job, x, at) => if Ready(DraftFor(w.page, job)) { SubmitKeeps(w, job, x, at); }
    case Reopen(job) => ReopenKeeps(w, job);
    case StartFlush => StartFlushKeeps(w);
    case BytesRead => BytesReadKeeps(w);
    case Answered(v) =>
      if v != Taken {
        RefusedKeeps(w);
      } else if w.flight.value.at.Attaching? {
        AttachedKeeps(w);
      } else {
        ReportedKeeps(w);
      }
    case NoAnswer => LinkKeeps(w, Next(w, s));
    case MediaFailed => LinkKeeps(w, Next(w, s));
    case Deleted => DeletedKeeps(w);
    case Deliver(n, v) => LinkKeeps(w, Judged(w, n, v));
    case Reload => ReloadKeeps(w);
  }

  lemma {:induction false} EveryTidyRunKeeps(w: World, steps: seq<Step>, w': World)
    requires Inv(w) && TidyRun(w, steps, w')
    ensures Inv(w')
    decreases steps
  {
    if steps != [] {
      NextKeeps(w, steps[0]);
      EveryTidyRunKeeps(Next(w, steps[0]), steps[1..], w');
    }
  }

  // ---- what a suspended edit has deleted is gone ----

  ghost predicate GoneFor(o: Op, media: map<Id, Bytes>, owner: map<Id, Owner>) {
    Deletes(o) ==> DeletedId(o) !in media && DeletedId(o) in owner && owner[DeletedId(o)] != InHand
  }

  ghost predicate Gone(w: World) {
    forall o :: o in w.ops ==> GoneFor(o, w.page.media, w.owner)
  }

  /** Only shots in hand gain bytes, and no other comes to hand: what is gone stays gone. */
  lemma {:induction false} GoneStays(w: World, w': World)
    requires Gone(w)
    requires forall o :: o in w'.ops ==> o in w.ops || GoneFor(o, w'.page.media, w'.owner)
    requires forall id :: id in w'.page.media ==> id in w.page.media || (id in w.owner && w.owner[id] == InHand)
    requires forall id :: id in w.owner && w.owner[id] != InHand ==> id in w'.owner && w'.owner[id] != InHand
    ensures Gone(w')
  {
  }

  lemma {:induction false} OpDoneGone(w: World, k: nat)
    requires Inv(w) && Gone(w) && k < |w.ops|
    ensures Gone(AfterOp(w.(ops := WithoutOp(w.ops, k)), w.ops[k]))
  {
    var op, w' := w.ops[k], AfterOp(w.(ops := WithoutOp(w.ops, k)), w.ops[k]);
    assert op in w.ops;
    if op.Putting? {
      DraftForOk(w, op.job);
    }
    GoneStays(w, w');
  }

  lemma {:induction false} EditsGone(w: World, s: Step)
    requires Inv(w) && Gone(w) && Can(w, s) && Tidy(w, s)
    requires s.AddShot? || s.RemovePhoto? || s.ClearSignature? || s.EditText?
    ensures Gone(Next(w, s))
  {
    if s.RemovePhoto? || s.ClearSignature? {
      DraftForOk(w, s.job);
    }
    GoneStays(w, Next(w, s));
  }

  lemma {:induction false} SubmitGone(w: World, job: Id, x: Id, at: int)
    requires Inv(w) && Gone(w)
    ensures Gone(AfterSubmit(w, job, x, at))
  {
    DraftForOk(w, job);
    SubmittedEntry(DraftFor(w.page, job), job, x, at, w.owner);
    GoneStays(w, AfterSubmit(w, job, x, at));
  }

  lemma {:induction false} ReopenGone(w: World, job: Id)
    requires Inv(w) && Gone(w)
    ensures Gone(AfterReopen(w, job))
  {
    GoneStays(w, AfterReopen(w, job));
  }

  /** A flush, the link and the office neither suspend edits nor add bytes. */
  lemma {:induction false} FlushGone(w: World, s: Step)
    requires Gone(w) && Can(w, s)
    requires s.StartFlush? || s.BytesRead? || s.Answered? || s.NoAnswer? || s.MediaFailed? || s.Deleted? || s.Deliver? || s.Reload?
    ensures Gone(Next(w, s))
  {
    GoneStays(w, Next(w, s));
  }

  lemma {:induction false} NextGone(w: World, s: Step)
    requires Inv(w) && Gone(w) && Can(w, s) && Tidy(w, s)
    ensures Gone(Next(w, s))
  {
    hide Inv, Gone, Tidy;
    match s
    case Submit(job, x, at) => SubmitGone(w, job, x, at);
    case Reopen(job) => ReopenGone(w, job);
    case OpDone(k) => OpDoneGone(w, k);
    case EditText(_, _, _, _, _, _) => EditsGone(w, s);
    case AddShot(_, _, _, _, _) => EditsGone(w, s);
    case RemovePhoto(_, _) => EditsGone(w, s);
    case ClearSignature(_) => EditsGone(w, s);
    case _ => FlushGone(w, s);
  }

  lemma {:induction false} EveryTidyRunGone(w: World, steps: seq<Step>, w': World)
    requires Inv(w) && Gone(w) && TidyRun(w, steps, w')
    ensures Inv(w') && Gone(w')
    decreases steps
  {
    hide Inv, Gone, Tidy, Next;
    if steps != [] {
      NextKeeps(w, steps[0]);
      NextGone(w, steps[0]);
      EveryTidyRunGone(Next(w, steps[0]), steps[1..], w');
    }
  }

  /** After a reload every shot of every draft has its bytes exactly when no suspended edit had deleted the bytes of a shot
      its draft still named. */
  lemma {:induction false} ReloadKeepsShotsIff(w0: World, steps: seq<Step>, w: World)
    requires Start(w0) && TidyRun(w0, steps, w)
    ensures var w' := AfterReload(w);
      (forall j, id :: j in w'.page.drafts && id in DraftShots(w'.page.drafts[j]) ==> id in w'.page.media) <==> ReloadSafe(w)
  {
    EveryTidyRunGone(w0, steps, w);
    var w' := AfterReload(w);
    if ReloadSafe(w) {
      forall j, id | j in w'.page.drafts && id in DraftShots(w'.page.drafts[j]) ensures id in w'.page.media {
        SafeDraftHeld(w, j);
      }
    } else {
      var o :| o in w.ops && Deletes(o) && o.job in w.page.drafts && DeletedId(o) in DraftShots(w.page.drafts[o.job]);
      assert GoneFor(o, w.page.media, w.owner);
    }
  }

  /** A submit sends only shots whose bytes are there exactly when no suspended edit had deleted the bytes of one of them. */
  lemma {:induction false} SubmitKeepsShotsIff(w0: World, steps: seq<Step>, w: World, job: Id, x: Id, at: int)
    requires Start(w0) && TidyRun(w0, steps, w) && Ready(DraftFor(w.page, job))
    ensures ShotIds(EntryOf(DraftFor(w.page, job), job, x, at)) <= w.page.media.Keys <==> SubmitSafe(w, job)
  {
    EveryTidyRunGone(w0, steps, w);
    var e := EntryOf(DraftFor(w.page, job), job, x, at);
    SentAre(DraftFor(w.page, job), job, x, at);
    if SubmitSafe(w, job) {
      SubmittedHeld(w, job, x, at);
      HeldShots(e, w.page.media);
    } else {
      var o :| o in w.ops && Deletes(o) && o.job == job && DeletedId(o) in SentShots(DraftFor(w.page, job));
      assert GoneFor(o, w.page.media, w.owner);
    }
  }

  lemma {:induction false} SentAre(d: Draft, job: Id, x: Id, at: int)
    requires Ready(d)
    ensures ShotIds(EntryOf(d, job, x, at)) == SentShots(d)
  {
    var e := EntryOf(d, job, x, at);
    forall s | s in d.photos ensures s.id in ShotIds(e) {
      var i :| 0 <= i < |d.photos| && d.photos[i] == s;
      assert e.photos[i] in Shots(e);
    }
    forall s | s in Shots(e) ensures s.id in SentShots(d) {
      if s in e.photos {
        var i :| 0 <= i < |e.photos| && e.photos[i] == s;
        assert d.photos[i] in d.photos;
      }
    }
    if e.signature.Some? {
      assert e.signature.value in Shots(e);
    }
  }

  // ---- what tidy runs keep ----

  /** Every shot is named by at most one draft or one outbox entry. */
  lemma {:induction false} EveryShotHasOneOwner(w0: World, steps: seq<Step>, w: World)
    requires Start(w0) && TidyRun(w0, steps, w)
    ensures forall j, k :: j in w.page.drafts && k in w.page.drafts && j != k ==>
              DraftShots(w.page.drafts[j]) !! DraftShots(w.page.drafts[k])
    ensures forall j, e :: j in w.page.drafts && e in w.page.outbox ==> DraftShots(w.page.drafts[j]) !! ShotIds(e)
    ensures forall i, j :: 0 <= i < j < |w.page.outbox| ==> ShotIds(w.page.outbox[i]) !! ShotIds(w.page.outbox[j])
  {
    EveryTidyRunKeeps(w0, steps, w);
    forall j, id | j in w.page.drafts && id in DraftShots(w.page.drafts[j])
      ensures id in w.owner && w.owner[id].OfDraft? && w.owner[id].job == j
    {
      assert DraftOwned(w.page.drafts[j], j, w.owner);
    }
    forall e, id | e in w.page.outbox && id in ShotIds(e)
      ensures id in w.owner && w.owner[id].OfEntry? && w.owner[id].wrapUpId == e.wrapUpId
    {
      assert EntryOwned(e, w.owner);
    }
  }

  /** Every shot an entry names has its bytes on the device, and so has every shot of a draft that no edit under way
      is dropping; so a flush finds the bytes of each shot it comes to, and no entry is refused as lost. */
  ghost predicate ShotsHeld(w: World) {
    && (forall e, id :: e in w.page.outbox && id in ShotIds(e) ==> id in w.page.media)
    && (forall j, s :: j in w.page.drafts && s in w.page.drafts[j].photos ==> s.id in w.page.media || Removing(j, s.id) in w.ops)
    && (forall j :: j in w.page.drafts && w.page.drafts[j].signature.Some? ==>
          var id := w.page.drafts[j].signature.value.id; id in w.page.media || BeingReplaced(w.ops, j, id))
    && (w.flight.Some? && w.flight.value.at.Reading? ==> w.flight.value.at.id in w.page.media)
    && (forall e :: e in w.page.outbox ==> e.refused != Some(LostShot))
  }

  lemma {:induction false} InvHoldsShots(w: World)
    requires Inv(w)
    ensures ShotsHeld(w)
  {
    forall e, id | e in w.page.outbox && id in ShotIds(e) ensures id in w.page.media {
      HeldShots(e, w.page.media);
    }
    forall j, s | j in w.page.drafts && s in w.page.drafts[j].photos
      ensures s.id in w.page.media || Removing(j, s.id) in w.ops
    {
      assert DraftHeld(w.page.drafts[j], j, w.ops, w.page.media);
    }
    forall j | j in w.page.drafts && w.page.drafts[j].signature.Some?
      ensures var id := w.page.drafts[j].signature.value.id; id in w.page.media || BeingReplaced(w.ops, j, id)
    {
      assert DraftHeld(w.page.drafts[j], j, w.ops, w.page.media);
    }
  }

  lemma {:induction false} NoShotIsLost(w0: World, steps: seq<Step>, w: World)
    requires Start(w0) && TidyRun(w0, steps, w)
    ensures ShotsHeld(w)
  {
    EveryTidyRunKeeps(w0, steps, w);
    InvHoldsShots(w);
  }
}
