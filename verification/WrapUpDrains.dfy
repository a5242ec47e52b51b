/** One flush with nothing lost: what it sends, in which order, and what it leaves. */
module WrapUpDrains {
  import opened Common
  import opened WrapUps
  import opened WrapUpProtocol
  import opened WrapUpContents
  import Runs = WrapUpRuns
  import Held = WrapUpShots

  // ---- a clean exchange ----

  /** The flush's own steps, with the office taking every call and every call answered. */
  predicate IsClean(s: Step) {
    s.StartFlush? || s.BytesRead? || s.Deleted? || s == Answered(Taken) || (s.Deliver? && s.verdict == Taken)
  }

  ghost predicate Cleanly(w: World, steps: seq<Step>, w': World) {
    Run(w, steps, w') && forall s :: s in steps ==> IsClean(s)
  }

  ghost predicate CleanTo(w: World, w': World) {
    exists steps :: Cleanly(w, steps, w')
  }

  lemma {:induction false} RunOn(w: World, a: seq<Step>, m: World, b: seq<Step>, w': World)
    requires Run(w, a, m) && Run(m, b, w')
    ensures Run(w, a + b, w')
    decreases a
  {
    hide Can, Next;
    if a == [] {
      assert a + b == b;
    } else {
      RunOn(Next(w, a[0]), a[1..], m, b, w');
      assert (a + b)[1..] == a[1..] + b;
    }
  }

  lemma {:induction false} CleanOn(w: World, m: World, w': World)
    requires CleanTo(w, m) && CleanTo(m, w')
    ensures CleanTo(w, w')
  {
    hide Run;
    var a, b :| Cleanly(w, a, m) && Cleanly(m, b, w');
    RunOn(w, a, m, b, w');
    assert Cleanly(w, a + b, w');
  }

  lemma {:induction false} CleanStep(w: World, s: Step)
    requires Can(w, s) && IsClean(s)
    ensures CleanTo(w, Next(w, s))
  {
    hide Can, Next, IsClean;
    assert [s][1..] == [];
    assert Run(w, [s], Next(w, s));
    assert Cleanly(w, [s], Next(w, s));
  }

  lemma {:induction false} NoStep(w: World)
    ensures CleanTo(w, w)
  {
    assert Cleanly(w, [], w);
  }

  // ---- what it sends ----

  function AllSent(e: Entry): Entry {
    e.(photos := seq(|e.photos|, i requires 0 <= i < |e.photos| => e.photos[i].(sent := true)),
       signature := if e.signature.Some? then Some(e.signature.value.(sent := true)) else None)
  }

  /** A call for each photo not yet sent, in their order. */
  function PhotoCalls(photos: seq<Sent>): seq<Call> {
    if photos == [] then [] else (if photos[0].sent then [] else [Attach(photos[0].id)]) + PhotoCalls(photos[1..])
  }

  /** An entry's photos, then its signature, then its report. */
  function CallsFor(e: Entry): seq<Call> {
    PhotoCalls(e.photos)
    + (if e.signature.Some? && !e.signature.value.sent then [Attach(e.signature.value.id)] else [])
    + [Report(AllSent(e))]
  }

  function AllCalls(es: seq<Entry>): seq<Call> {
    if es == [] then [] else CallsFor(es[0]) + AllCalls(es[1..])
  }

  function Attaches(ids: seq<Id>): (r: seq<Call>)
    ensures |r| == |ids| && forall i :: 0 <= i < |ids| ==> r[i] == Attach(ids[i])
  {
    seq(|ids|, i requires 0 <= i < |ids| => Attach(ids[i]))
  }

  lemma {:induction false} UnsentFirst(shots: seq<Sent>)
    requires shots != []
    ensures Unsent(shots) == (if shots[0].sent then [] else [shots[0].id]) + Unsent(shots[1..])
  {
  }

  lemma {:induction false} UnsentAppend(a: seq<Sent>, b: seq<Sent>)
    ensures Unsent(a + b) == Unsent(a) + Unsent(b)
  {
    if a == [] {
      assert a + b == b && Unsent(a) == [];
    } else {
      hide Unsent;
      assert (a + b)[1..] == a[1..] + b && (a + b)[0] == a[0];
      UnsentAppend(a[1..], b);
      UnsentFirst(a);
      UnsentFirst(a + b);
      AppendAssociates(if a[0].sent then [] else [a[0].id], Unsent(a[1..]), Unsent(b));
    }
  }

  lemma {:induction false} PhotoCallsAre(photos: seq<Sent>)
    ensures PhotoCalls(photos) == Attaches(Unsent(photos))
  {
    if photos != [] {
      PhotoCallsAre(photos[1..]);
    }
  }

  lemma {:induction false} CallsAre(e: Entry)
    ensures CallsFor(e) == Attaches(Unsent(Shots(e))) + [Report(AllSent(e))]
  {
    PhotoCallsAre(e.photos);
    if e.signature.Some? {
      UnsentAppend(e.photos, [e.signature.value]);
      assert [e.signature.value][1..] == [];
    } else {
      assert Shots(e) == e.photos;
    }
  }

  // ---- one entry ----

  /** Each shot is at the office, or its bytes are here. */
  ghost predicate Sendable(e: Entry, media: map<Id, Bytes>, office: Office) {
    forall s :: s in Shots(e) ==> if s.sent then s.id in office.media else s.id in media
  }

  /** The shots still to send are `todo`, and their bytes are here; the others are at the office. */
  ghost predicate Still(e: Entry, todo: seq<Id>, media: map<Id, Bytes>, office: Office) {
    && (forall id :: id in todo ==> id in media)
    && (forall s :: s in Shots(e) ==> (s.sent || s.id in todo) && (s.sent ==> s.id in office.media))
  }

  /** What is left of the world by an exchange that sent these calls. */
  ghost predicate Sent(w: World, w': World, calls: seq<Call>) {
    && w'.calls == w.calls + calls && w'.page.drafts == w.page.drafts
    && w.office.media <= w'.office.media && w.office.wrapUps <= w'.office.wrapUps
  }

  lemma {:induction false} ShotDrains(w: World, rest: seq<Entry>, e: Entry, todo: seq<Id>) returns (w': World)
    requires todo != [] && todo[0] in w.page.media
    ensures CleanTo(NextShot(w, rest, e, todo), NextShot(w', rest, Marked(e, todo[0]), todo[1..]))
    ensures Sent(w, w', [Attach(todo[0])]) && w'.office.media == w.office.media + {todo[0]} && w'.office.wrapUps == w.office.wrapUps
    ensures w'.page == Replaced(w.page, e.wrapUpId, Some(Marked(e, todo[0])))
  {
    hide CleanTo, Marked, Swapped, Replaced;
    var id, w0 := todo[0], NextShot(w, rest, e, todo);
    var w1 := Next(w0, BytesRead);
    CleanStep(w0, BytesRead);
    var n := |w.calls|;
    assert w1.calls == w.calls + [Attach(id)] && w1.calls[n] == Attach(id);
    var w2 := Next(w1, Deliver(n, Taken));
    CleanStep(w1, Deliver(n, Taken));
    CleanStep(w2, Answered(Taken));
    CleanOn(w0, w1, w2);
    CleanOn(w0, w2, Next(w2, Answered(Taken)));
    w' := w2.(page := Replaced(w2.page, e.wrapUpId, Some(Marked(e, id))));
    DraftsAside(w2.page, e.wrapUpId, Some(Marked(e, id)));
  }

  lemma {:induction false} DraftsAside(p: Page, x: Id, to: Option<Entry>)
    ensures var p' := Replaced(p, x, to);
      p'.drafts == p.drafts && p'.keptDrafts == p.drafts && p'.media == p.media && p'.keptOutbox == p'.outbox
  {
  }

  // ---- marking ----

  lemma {:induction false} ShotAt(e: Entry, i: nat)
    requires i < |Shots(e)|
    ensures Shots(e)[i] in Shots(e)
    ensures if i < |e.photos| then Shots(e)[i] == e.photos[i] else e.signature.Some? && Shots(e)[i] == e.signature.value
  {
  }

  lemma {:induction false} MarkedAt(e: Entry, id: Id, i: nat)
    requires i < |Shots(e)|
    ensures |Shots(Marked(e, id))| == |Shots(e)| && Shots(Marked(e, id))[i] == Mark(Shots(e)[i], id)
    ensures Shots(e)[i] in Shots(e) && Shots(Marked(e, id))[i] in Shots(Marked(e, id))
  {
  }

  lemma {:induction false} MarkedFrom(e: Entry, id: Id, s: Sent) returns (i: nat)
    requires s in Shots(Marked(e, id))
    ensures i < |Shots(e)| && Shots(e)[i] in Shots(e) && s == Mark(Shots(e)[i], id)
  {
    i :| 0 <= i < |Shots(Marked(e, id))| && Shots(Marked(e, id))[i] == s;
    assert |Shots(Marked(e, id))| == |Shots(e)|;
    MarkedAt(e, id, i);
  }

  lemma {:induction false} MarkedIds(e: Entry, id: Id)
    ensures ShotIds(Marked(e, id)) == ShotIds(e)
  {
    hide Shots, Marked;
    var m := Marked(e, id);
    forall s | s in Shots(m) ensures s.id in ShotIds(e) {
      var i := MarkedFrom(e, id, s);
    }
    forall s | s in Shots(e) ensures s.id in ShotIds(m) {
      var i :| 0 <= i < |Shots(e)| && Shots(e)[i] == s;
      MarkedAt(e, id, i);
    }
  }

  lemma {:induction false} MarkedAlike(e: Entry, id: Id)
    ensures AllSent(Marked(e, id)) == AllSent(e) && Marked(e, id).wrapUpId == e.wrapUpId
  {
  }

  lemma {:induction false} MarkedStill(e: Entry, todo: seq<Id>, media: map<Id, Bytes>, office: Office)
    requires todo != [] && Still(e, todo, media, office)
    ensures Still(Marked(e, todo[0]), todo[1..], media, office.(media := office.media + {todo[0]}))
    ensures AllSent(Marked(e, todo[0])) == AllSent(e) && Marked(e, todo[0]).wrapUpId == e.wrapUpId
    ensures ShotIds(Marked(e, todo[0])) == ShotIds(e)
  {
    hide Shots, Marked, AllSent, ShotIds;
    MarkedAlike(e, todo[0]);
    MarkedIds(e, todo[0]);
    assert todo == [todo[0]] + todo[1..];
    forall s | s in Shots(Marked(e, todo[0]))
      ensures (s.sent || s.id in todo[1..]) && (s.sent ==> s.id in office.media + {todo[0]})
    {
      var i := MarkedFrom(e, todo[0], s);
    }
  }

  lemma {:induction false} AllMarked(e: Entry, media: map<Id, Bytes>, office: Office)
    requires Still(e, [], media, office)
    ensures e == AllSent(e) && ShotIds(e) <= office.media
  {
    forall i | 0 <= i < |Shots(e)| ensures Shots(e)[i].sent && Shots(e)[i] in Shots(e) {
      ShotAt(e, i);
    }
    forall i | 0 <= i < |e.photos| ensures e.photos[i].sent {
      assert Shots(e)[i] == e.photos[i];
    }
    if e.signature.Some? {
      assert Shots(e)[|e.photos|] == e.signature.value;
    }
    assert e.photos == AllSent(e).photos;
  }

  lemma {:induction false} SwappedAway(es: seq<Entry>, x: Id, to: Entry)
    requires to.wrapUpId == x
    ensures WithoutId(Swapped(es, x, to), x) == WithoutId(es, x)
  {
    if es != [] {
      SwappedAway(es[1..], x, to);
      assert Swapped(es, x, to)[1..] == Swapped(es[1..], x, to);
    }
  }

  lemma {:induction false} SentOn(a: World, b: World, c: World, first: seq<Call>, more: seq<Call>)
    requires Sent(a, b, first) && Sent(b, c, more)
    ensures Sent(a, c, first + more)
  {
    AppendAssociates(a.calls, first, more);
  }

  lemma {:induction false} NothingSent(w: World)
    ensures Sent(w, w, Attaches([]))
  {
    assert w.calls + Attaches([]) == w.calls;
  }

  lemma {:induction false} AttachesFirst(ids: seq<Id>)
    requires ids != []
    ensures Attaches(ids) == [Attach(ids[0])] + Attaches(ids[1..])
  {
  }

  /** All of an entry's shots, one after the other. */
  lemma {:induction false} ShotsDrain(w: World, rest: seq<Entry>, e: Entry, todo: seq<Id>) returns (w': World)
    requires Still(e, todo, w.page.media, w.office)
    ensures CleanTo(NextShot(w, rest, e, todo), NextShot(w', rest, AllSent(e), []))
    ensures Sent(w, w', Attaches(todo)) && w'.office.wrapUps == w.office.wrapUps && ShotIds(AllSent(e)) <= w'.office.media
    ensures w'.page.media == w.page.media && WithoutId(w'.page.outbox, e.wrapUpId) == WithoutId(w.page.outbox, e.wrapUpId)
    decreases |todo|
  {
    hide CleanTo, NextShot, Marked, AllSent, ShotIds, Still, WithoutId, Swapped, Sent, Attaches;
    if todo == [] {
      w' := w;
      AllMarked(e, w.page.media, w.office);
      NoStep(NextShot(w, rest, e, todo));
      NothingSent(w);
    } else {
      StillHere(e, todo, w.page.media, w.office);
      var w1 := ShotDrains(w, rest, e, todo);
      var m := Marked(e, todo[0]);
      MarkedStill(e, todo, w.page.media, w.office);
      SwappedAway(w.page.outbox, e.wrapUpId, m);
      DraftsAside(w.page, e.wrapUpId, Some(m));
      w' := ShotsDrain(w1, rest, m, todo[1..]);
      CleanOn(NextShot(w, rest, e, todo), NextShot(w1, rest, m, todo[1..]), NextShot(w', rest, AllSent(e), []));
      SentOn(w, w1, w', [Attach(todo[0])], Attaches(todo[1..]));
      AttachesFirst(todo);
    }
  }

  lemma {:induction false} StillHere(e: Entry, todo: seq<Id>, media: map<Id, Bytes>, office: Office)
    requires Still(e, todo, media, office)
    ensures todo != [] ==> todo[0] in media
  {
  }

  /** The report, once every shot is there. */
  lemma {:induction false} ReportDrains(w: World, rest: seq<Entry>, e: Entry) returns (w': World)
    requires ShotIds(e) <= w.office.media
    ensures CleanTo(NextShot(w, rest, e, []), w')
    ensures Sent(w, w', [Report(e)]) && w'.office.media == w.office.media && w'.office.wrapUps == w.office.wrapUps + {e.wrapUpId}
    ensures w'.page == Replaced(w.page, e.wrapUpId, None)
    ensures w'.flight == Some(Flight(rest, e, [], Cleaning(IdsOf(Shots(e)))))
  {
    hide CleanTo, ShotIds, Replaced;
    var w0, n := NextShot(w, rest, e, []), |w.calls|;
    assert w0.calls == w.calls + [Report(e)] && w0.calls[n] == Report(e);
    var w1 := Next(w0, Deliver(n, Taken));
    CleanStep(w0, Deliver(n, Taken));
    w' := Next(w1, Answered(Taken));
    CleanStep(w1, Answered(Taken));
    CleanOn(w0, w1, w');
    DraftsAside(w.page, e.wrapUpId, None);
  }

  /** The bytes of what is sent are deleted, one after the other. */
  lemma {:induction false} BytesDrain(w: World, f: Flight, left: seq<Id>) returns (w': World)
    requires w.flight == Some(f.(at := Cleaning(left)))
    ensures CleanTo(w, NextEntry(w', f.rest))
    ensures w' == w.(page := w.page.(media := w'.page.media), flight := w'.flight)
    ensures forall id :: id in w'.page.media <==> id in w.page.media && id !in left
    ensures forall id :: id in w'.page.media ==> w'.page.media[id] == w.page.media[id]
    decreases |left|
  {
    hide CleanTo;
    CleanStep(w, Deleted);
    if |left| <= 1 {
      w' := if left == [] then w else w.(page := Forgotten(w.page, left[0]));
    } else {
      var w1 := Next(w, Deleted);
      assert left == [left[0]] + left[1..];
      w' := BytesDrain(w1, f, left[1..]);
      CleanOn(w, w1, NextEntry(w', f.rest));
    }
  }

  // ---- one entry, and all of them ----

  /** What an entry's exchange leaves: it is with the office, it is gone from the outbox and so are its shots' bytes. */
  ghost predicate EntryGone(w: World, e: Entry, w': World) {
    && Sent(w, w', CallsFor(e)) && e.wrapUpId in w'.office.wrapUps
    && w'.page.outbox == WithoutId(w.page.outbox, e.wrapUpId)
    && (forall id :: id in w'.page.media <==> id in w.page.media && id !in ShotIds(e))
    && forall id :: id in w'.page.media ==> w'.page.media[id] == w.page.media[id]
  }

  lemma {:induction false} SendableStill(e: Entry, media: map<Id, Bytes>, office: Office)
    requires Sendable(e, media, office)
    ensures Still(e, Unsent(Shots(e)), media, office)
  {
    hide Shots;
  }

  lemma {:induction false} IdsAre(e: Entry)
    ensures forall id :: id in IdsOf(Shots(AllSent(e))) <==> id in ShotIds(e)
    ensures ShotIds(AllSent(e)) == ShotIds(e) && AllSent(e).wrapUpId == e.wrapUpId
  {
    var a := AllSent(e);
    assert |Shots(a)| == |Shots(e)| && forall i :: 0 <= i < |Shots(e)| ==> Shots(a)[i].id == Shots(e)[i].id;
    forall id ensures id in IdsOf(Shots(a)) <==> id in ShotIds(e) {
      if id in IdsOf(Shots(a)) {
        var i :| 0 <= i < |Shots(a)| && IdsOf(Shots(a))[i] == id;
        assert Shots(e)[i] in Shots(e);
      }
      if id in ShotIds(e) {
        var i :| 0 <= i < |Shots(e)| && Shots(e)[i].id == id;
        assert IdsOf(Shots(a))[i] == id;
      }
    }
    forall id ensures id in ShotIds(a) <==> id in ShotIds(e) {
      if id in ShotIds(a) {
        var i :| 0 <= i < |Shots(a)| && Shots(a)[i].id == id;
        assert Shots(e)[i] in Shots(e);
      }
      if id in ShotIds(e) {
        var i :| 0 <= i < |Shots(e)| && Shots(e)[i].id == id;
        assert Shots(a)[i] in Shots(a);
      }
    }
  }

  lemma {:induction false} EntryDrains(w: World, rest: seq<Entry>, e: Entry) returns (w': World)
    requires Sendable(e, w.page.media, w.office)
    ensures CleanTo(NextEntry(w, [e] + rest), NextEntry(w', rest)) && EntryGone(w, e, w')
  {
    hide CleanTo, NextShot, AllSent, ShotIds, Still, WithoutId, Swapped, Attaches, Unsent, Shots, IdsOf;
    var todo, a, x := Unsent(Shots(e)), AllSent(e), e.wrapUpId;
    SendableStill(e, w.page.media, w.office);
    var w1 := ShotsDrain(w, rest, e, todo);
    IdsAre(e);
    var w2 := ReportDrains(w1, rest, a);
    w' := BytesDrain(w2, w2.flight.value, IdsOf(Shots(a)));
    assert ([e] + rest)[1..] == rest && ([e] + rest)[0] == e;
    assert NextEntry(w, [e] + rest) == NextShot(w, rest, e, todo);
    CleanOn(NextShot(w, rest, e, todo), NextShot(w1, rest, a, []), w2);
    CleanOn(NextShot(w, rest, e, todo), w2, NextEntry(w', rest));
    CallsAre(e);
    SentOn(w, w1, w2, Attaches(todo), [Report(a)]);
    DraftsAside(w1.page, x, None);
  }

  /** Each is sendable, and no two share a shot. */
  ghost predicate AllSendable(es: seq<Entry>, media: map<Id, Bytes>, office: Office) {
    && (forall e :: e in es ==> Sendable(e, media, office))
    && forall i, j :: 0 <= i < j < |es| ==> ShotIds(es[i]) !! ShotIds(es[j])
  }

  lemma {:induction false} StillSendable(w: World, es: seq<Entry>, w': World)
    requires es != [] && AllSendable(es, w.page.media, w.office) && EntryGone(w, es[0], w')
    ensures AllSendable(es[1..], w'.page.media, w'.office)
  {
    hide CallsFor, WithoutId, Shots;
    forall e | e in es[1..] ensures Sendable(e, w'.page.media, w'.office) {
      var j :| 0 <= j < |es[1..]| && es[1..][j] == e;
      assert ShotIds(es[0]) !! ShotIds(es[j + 1]) && e in es;
      forall s | s in Shots(e) ensures if s.sent then s.id in w'.office.media else s.id in w'.page.media {
        assert s.id in ShotIds(e);
      }
    }
    forall i, j | 0 <= i < j < |es[1..]| ensures ShotIds(es[1..][i]) !! ShotIds(es[1..][j]) {
      assert es[1..][i] == es[i + 1] && es[1..][j] == es[j + 1];
    }
  }

  /** What the entries' exchanges leave. */
  ghost predicate AllGone(w: World, es: seq<Entry>, w': World) {
    && Sent(w, w', AllCalls(es))
    && (forall e :: e in es ==> e.wrapUpId in w'.office.wrapUps)
    && (forall e :: e in w'.page.outbox <==> e in w.page.outbox && e.wrapUpId !in WrapUpIds(es))
    && (forall id :: id in w'.page.media <==> id in w.page.media && forall e :: e in es ==> id !in ShotIds(e))
    && forall id :: id in w'.page.media ==> w'.page.media[id] == w.page.media[id]
  }

  lemma {:induction false} GoneOn(w: World, es: seq<Entry>, w1: World, w': World)
    requires es != [] && EntryGone(w, es[0], w1) && AllGone(w1, es[1..], w')
    ensures AllGone(w, es, w')
  {
    hide CallsFor, ShotIds, Sent;
    assert es == [es[0]] + es[1..];
    SentOn(w, w1, w', CallsFor(es[0]), AllCalls(es[1..]));
    OfficeGrows(w1, w', AllCalls(es[1..]));
    forall e ensures e in w'.page.outbox <==> e in w.page.outbox && e.wrapUpId !in WrapUpIds(es) {
      assert e.wrapUpId in WrapUpIds(es) <==> e.wrapUpId == es[0].wrapUpId || e.wrapUpId in WrapUpIds(es[1..]);
    }
  }

  lemma {:induction false} OfficeGrows(w: World, w': World, calls: seq<Call>)
    requires Sent(w, w', calls)
    ensures w.office.wrapUps <= w'.office.wrapUps
  {
  }

  lemma {:induction false} EntriesDrain(w: World, es: seq<Entry>) returns (w': World)
    requires AllSendable(es, w.page.media, w.office)
    ensures CleanTo(NextEntry(w, es), w') && w'.flight == None && AllGone(w, es, w')
    decreases |es|
  {
    hide CleanTo, AllSendable, EntryGone;
    if es == [] {
      w' := NextEntry(w, es);
      NoStep(w');
      NothingGone(w, w');
    } else {
      FirstSendable(es, w.page.media, w.office);
      var w1 := EntryDrains(w, es[1..], es[0]);
      StillSendable(w, es, w1);
      w' := EntriesDrain(w1, es[1..]);
      assert [es[0]] + es[1..] == es;
      CleanOn(NextEntry(w, es), NextEntry(w1, es[1..]), w');
      GoneOn(w, es, w1, w');
    }
  }

  lemma {:induction false} FirstSendable(es: seq<Entry>, media: map<Id, Bytes>, office: Office)
    requires es != [] && AllSendable(es, media, office)
    ensures Sendable(es[0], media, office)
  {
  }

  lemma {:induction false} NothingGone(w: World, w': World)
    requires w' == w.(flight := None)
    ensures AllGone(w, [], w')
  {
    assert w.calls + AllCalls([]) == w.calls;
  }

  /** From any state with no flush under way, one flush with nothing lost sends each entry not refused, in the outbox's order -
      its photos not yet sent in their order, its signature, its report - and leaves each with the office and out of the
      outbox, its shots' bytes deleted, and every other entry, draft and shot as it was. */
  lemma {:induction false} OneCleanFlushDrains(w: World) returns (w': World)
    requires w.flight.None? && AllSendable(Waiting(w.page.outbox), w.page.media, w.office)
    ensures CleanTo(w, w') && w'.flight.None? && AllGone(w, Waiting(w.page.outbox), w')
  {
    hide CleanTo, AllSendable, AllGone, IsClean;
    w' := EntriesDrain(w, Waiting(w.page.outbox));
    StartIsClean();
    CleanStep(w, StartFlush);
    CleanOn(w, Next(w, StartFlush), w');
  }

  lemma {:induction false} StartIsClean()
    ensures IsClean(StartFlush)
  {
  }

  // ---- from any state reached ----

  lemma {:induction false} TidyIsRun(w: World, steps: seq<Step>, w': World)
    requires Held.TidyRun(w, steps, w')
    ensures Run(w, steps, w')
    decreases steps
  {
    hide Held.Tidy, Can, Next;
    if steps != [] {
      TidyIsRun(Next(w, steps[0]), steps[1..], w');
    }
  }

  lemma {:induction false} WaitingSendable(es: seq<Entry>, media: map<Id, Bytes>, office: Office)
    requires forall e :: e in es && e.refused.None? ==> Sendable(e, media, office)
    requires forall i, j :: 0 <= i < j < |es| ==> ShotIds(es[i]) !! ShotIds(es[j])
    ensures AllSendable(Waiting(es), media, office)
  {
    hide Sendable, ShotIds;
    var at := WaitingArePicked(es);
    forall i, j | 0 <= i < j < |Waiting(es)| ensures ShotIds(Waiting(es)[i]) !! ShotIds(Waiting(es)[j]) {
      assert at[i] < at[j];
    }
  }

  /** From any state a tidy run reaches with no flush under way, one flush with nothing lost takes every wrap-up not refused
      to the office, and none is left waiting. */
  lemma {:induction false} EveryWrapUpGoes(w0: World, steps: seq<Step>, w: World) returns (w': World)
    requires Start(w0) && Held.TidyRun(w0, steps, w) && w.flight.None?
    ensures CleanTo(w, w') && w'.flight.None? && AllGone(w, Waiting(w.page.outbox), w') && Waiting(w'.page.outbox) == []
  {
    hide Held.TidyRun, CleanTo, AllSendable, AllGone, Run, Waiting;
    TidyIsRun(w0, steps, w);
    Runs.EveryRunKeeps(w0, steps, w);
    Held.NoShotIsLost(w0, steps, w);
    Held.EveryShotHasOneOwner(w0, steps, w);
    forall e | e in w.page.outbox && e.refused.None? ensures Sendable(e, w.page.media, w.office) {
      assert Runs.EntryOk(e, w.office) && Held.EntryHeld(e, w.page.media);
    }
    WaitingSendable(w.page.outbox, w.page.media, w.office);
    w' := OneCleanFlushDrains(w);
    NoneLeft(w, w');
  }

  lemma {:induction false} NoneLeft(w: World, w': World)
    requires AllGone(w, Waiting(w.page.outbox), w')
    ensures Waiting(w'.page.outbox) == []
  {
    hide Sent;
    var left := Waiting(w'.page.outbox);
    assert forall e :: e in left ==> e in Waiting(w.page.outbox) && e.wrapUpId in WrapUpIds(Waiting(w.page.outbox));
    FirstIsIn(left);
  }
}
