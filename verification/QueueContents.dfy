/** What the queue holds, field by field: what was enqueued, and what was decided of it. */
module QueueContents {
  import opened Common
  import opened SyncWire
  import opened Replay
  import opened OfflineQueue
  import opened SyncProtocol
  import opened SyncRuns
  import opened SyncTheorems

  // ---- over every run ----

  /** The entry is the intent as it was made: under its id, from this device, at its moment. */
  ghost predicate Carries(e: Entry, s: Step, deviceId: Id) {
    && s.Enqueue? && e.enqueuedAt == s.now
    && e.mutation.mutationId == s.id && e.mutation.deviceId == deviceId
    && e.mutation.entityTable == s.intent.entityTable && e.mutation.entityId == s.intent.entityId
    && e.mutation.op == s.intent.op && e.mutation.payload == s.intent.payload
    && e.mutation.observed == s.intent.observed && e.mutation.deviceAt == s.now
  }

  /** The places of the intents made among these steps, in order. */
  ghost predicate Enqueuing(steps: seq<Step>, at: seq<nat>) {
    && (forall i, j :: 0 <= i < j < |at| ==> at[i] < at[j])
    && (forall k: nat :: k < |steps| ==> (k in at <==> steps[k].Enqueue?))
  }

  ghost predicate AllCarry(log: seq<Entry>, steps: seq<Step>, at: seq<nat>, deviceId: Id) {
    |log| == |at| && forall i :: 0 <= i < |at| ==> at[i] < |steps| && Carries(log[i], steps[at[i]], deviceId)
  }

  /** The log is the intents made from a point on, in order, each as it was made. */
  ghost predicate LogIs(log: seq<Entry>, steps: seq<Step>, at: seq<nat>, deviceId: Id) {
    Enqueuing(steps, at) && AllCarry(log, steps, at, deviceId)
  }

  lemma {:induction false} OneStepLogs(policy: Policy, w: World, s: Step)
    requires Can(w, s)
    ensures var w' := Next(policy, w, s);
      && w'.dev.deviceId == w.dev.deviceId
      && if s.Enqueue? then |w'.log| == |w.log| + 1 && w'.log == w.log + [w'.log[|w.log|]] && Carries(w'.log[|w.log|], s, w.dev.deviceId)
         else w'.log == w.log
  {
  }

  lemma {:induction false} PlacesOn(steps: seq<Step>, at: seq<nat>)
    requires steps != [] && Enqueuing(steps[1..], at)
    ensures Enqueuing(steps, if steps[0].Enqueue? then [0] + Shifted(at) else Shifted(at))
  {
    forall k: nat | k < |steps|
      ensures k in Shifted(at) <==> k > 0 && steps[k].Enqueue?
      ensures k in [0] + Shifted(at) <==> k == 0 || steps[k].Enqueue?
    {
      FrontPicked(at, k);
      assert k > 0 ==> steps[1..][k - 1] == steps[k];
    }
  }

  lemma {:induction false} CarryOn(log: seq<Entry>, steps: seq<Step>, at: seq<nat>, deviceId: Id)
    requires steps != [] && AllCarry(log, steps[1..], at, deviceId)
    ensures AllCarry(log, steps, Shifted(at), deviceId)
  {
    hide Carries;
    forall i | 0 <= i < |at| ensures at[i] + 1 < |steps| && Carries(log[i], steps[at[i] + 1], deviceId) {
      assert steps[1..][at[i]] == steps[at[i] + 1];
    }
  }

  lemma {:induction false} CarryFirst(e: Entry, log: seq<Entry>, steps: seq<Step>, at: seq<nat>, deviceId: Id)
    requires steps != [] && Carries(e, steps[0], deviceId) && AllCarry(log, steps, at, deviceId)
    ensures AllCarry([e] + log, steps, [0] + at, deviceId)
  {
    hide Carries;
  }

  lemma {:induction false} LogShifts(log: seq<Entry>, steps: seq<Step>, at: seq<nat>, deviceId: Id)
    requires steps != [] && !steps[0].Enqueue? && LogIs(log, steps[1..], at, deviceId)
    ensures LogIs(log, steps, Shifted(at), deviceId)
  {
    hide Enqueuing, AllCarry, Shifted;
    PlacesOn(steps, at);
    CarryOn(log, steps, at, deviceId);
  }

  lemma {:induction false} LogTakes(e: Entry, log: seq<Entry>, steps: seq<Step>, at: seq<nat>, deviceId: Id)
    requires steps != [] && Carries(e, steps[0], deviceId) && LogIs(log, steps[1..], at, deviceId)
    ensures LogIs([e] + log, steps, [0] + Shifted(at), deviceId)
  {
    hide Enqueuing, AllCarry, Shifted;
    PlacesOn(steps, at);
    CarryOn(log, steps, at, deviceId);
    CarryFirst(e, log, steps, Shifted(at), deviceId);
  }

  lemma {:induction false} LogGrows(policy: Policy, w: World, steps: seq<Step>, w': World) returns (at: seq<nat>)
    requires Run(policy, w, steps, w')
    ensures w.log <= w'.log && LogIs(w'.log[|w.log|..], steps, at, w.dev.deviceId)
    decreases steps
  {
    hide Can, Next, LogIs, Carries, Shifted;
    if steps == [] {
      at := [];
      NothingLogged(w.dev.deviceId);
      assert w'.log[|w.log|..] == [];
    } else {
      var next := Next(policy, w, steps[0]);
      OneStepLogs(policy, w, steps[0]);
      var later := LogGrows(policy, next, steps[1..], w');
      var log := w'.log[|next.log|..];
      if steps[0].Enqueue? {
        var e := next.log[|w.log|];
        LogTakes(e, log, steps, later, w.dev.deviceId);
        assert w'.log[|w.log|] == e && w'.log[|w.log|..] == [e] + log;
        at := [0] + Shifted(later);
      } else {
        LogShifts(log, steps, later, w.dev.deviceId);
        at := Shifted(later);
      }
    }
  }

  lemma {:induction false} NothingLogged(deviceId: Id)
    ensures LogIs([], [], [], deviceId)
  {
  }

  /** Over every run, whatever is lost, late or repeated, what has been enqueued is exactly the intents made, in the order
      they were made, each as it was made; and what is pending is its end. */
  lemma {:induction false} LogIsWhatWasEnqueued(policy: Policy, w0: World, steps: seq<Step>, w: World) returns (at: seq<nat>)
    requires KnowsDuplicates(policy) && Start(w0) && Run(policy, w0, steps, w)
    ensures LogIs(w.log, steps, at, w0.dev.deviceId)
    ensures |w.dev.pending| <= |w.log| && w.dev.pending == w.log[|w.log| - |w.dev.pending|..]
  {
    hide LogIs;
    at := LogGrows(policy, w0, steps, w);
    assert w.log[0..] == w.log;
    Reached(policy, w0, steps, w);
  }

  /** The note is about this intent: its id, its table and record; and says what was decided of it. */
  predicate IsAbout(a: Attention, e: Entry, decided: Outcome) {
    && a.mutationId == e.mutation.mutationId && a.entityTable == e.mutation.entityTable && a.entityId == e.mutation.entityId
    && decided == Declined(a.kind, a.note)
  }

  /** Over every run, each note shown is about an intent that was enqueued, and says what the server decided of it. */
  lemma {:induction false} NotesSayWhatWasDecided(policy: Policy, w0: World, steps: seq<Step>, w: World)
    requires KnowsDuplicates(policy) && Start(w0) && Run(policy, w0, steps, w)
    ensures forall a :: a in w.dev.attention ==>
      exists i :: 0 <= i < |w.log| && i < |w.decisions| && IsAbout(a, w.log[i], w.decisions[i])
  {
    Reached(policy, w0, steps, w);
    var es := w.log[..|w.heard|];
    forall a | a in w.dev.attention ensures exists i :: 0 <= i < |w.log| && i < |w.decisions| && IsAbout(a, w.log[i], w.decisions[i]) {
      SurfacedOnly(es, w.heard, w.dismissed, a);
      var i :| 0 <= i < |es| && w.heard[i].Declined? && a == Flag(es[i], w.heard[i].kind, w.heard[i].note)
               && es[i].mutation.mutationId !in w.dismissed;
      assert IsAbout(a, w.log[i], w.decisions[i]);
    }
  }

  // ---- what one answer does ----

  /** What the answers say of a mutation: the last of them that names it. */
  ghost predicate SaidOf(answers: seq<Answer>, id: Id, o: Outcome) {
    exists i :: 0 <= i < |answers| && answers[i] == Answer(id, o) && forall j :: i < j < |answers| ==> answers[j].mutationId != id
  }

  ghost predicate NothingSaidOf(answers: seq<Answer>, id: Id) {
    forall a :: a in answers ==> a.mutationId != id
  }

  lemma {:induction false} OneSaid(answers: seq<Answer>, id: Id, o: Outcome, o': Outcome)
    requires SaidOf(answers, id, o) && SaidOf(answers, id, o')
    ensures o == o'
  {
  }

  lemma {:induction false} SaidLater(answers: seq<Answer>, last: Answer, id: Id, o: Outcome)
    requires last.mutationId != id && SaidOf(answers, id, o)
    ensures SaidOf(answers + [last], id, o)
  {
    var i :| 0 <= i < |answers| && answers[i] == Answer(id, o) && forall j :: i < j < |answers| ==> answers[j].mutationId != id;
    var all := answers + [last];
    assert all[i] == Answer(id, o) && forall j :: i < j < |all| ==> all[j].mutationId != id;
  }

  lemma {:induction false} ByIdIsSaid(answers: seq<Answer>, id: Id)
    requires id in ById(answers)
    ensures SaidOf(answers, id, ById(answers)[id])
  {
    hide SaidOf;
    var n := |answers| - 1;
    var last := answers[n];
    assert answers == answers[..n] + [last];
    if last.mutationId == id {
      LastIsSaid(answers);
    } else {
      ByIdIsSaid(answers[..n], id);
      SaidLater(answers[..n], last, id, ById(answers[..n])[id]);
    }
  }

  lemma {:induction false} LastIsSaid(answers: seq<Answer>)
    requires answers != []
    ensures var last := answers[|answers| - 1]; SaidOf(answers, last.mutationId, last.outcome)
  {
    var n := |answers| - 1;
    assert answers[n] == Answer(answers[n].mutationId, answers[n].outcome);
  }

  lemma {:induction false} SaidIsThere(answers: seq<Answer>, id: Id, o: Outcome)
    requires SaidOf(answers, id, o)
    ensures !NothingSaidOf(answers, id)
  {
    var i :| 0 <= i < |answers| && answers[i] == Answer(id, o);
    assert answers[i] in answers;
  }

  lemma {:induction false} ByIdSays(answers: seq<Answer>, id: Id)
    ensures id !in ById(answers) <==> NothingSaidOf(answers, id)
    ensures forall o :: SaidOf(answers, id, o) <==> id in ById(answers) && ById(answers)[id] == o
  {
    hide ById, SaidOf;
    var m := ById(answers);
    forall o ensures SaidOf(answers, id, o) <==> id in m && m[id] == o {
      if SaidOf(answers, id, o) {
        SaidIsThere(answers, id, o);
      }
      if id in m {
        ByIdIsSaid(answers, id);
        if SaidOf(answers, id, o) {
          OneSaid(answers, id, o, m[id]);
        }
      }
    }
  }

  ghost predicate SaidDeclined(answers: seq<Answer>, e: Entry) {
    exists kind, note :: SaidOf(answers, e.mutation.mutationId, Declined(kind, note))
  }

  /** A note about the entry, saying what the answers say of it. */
  ghost predicate NoteOf(a: Attention, e: Entry, answers: seq<Answer>) {
    && a.mutationId == e.mutation.mutationId && a.entityTable == e.mutation.entityTable && a.entityId == e.mutation.entityId
    && SaidOf(answers, e.mutation.mutationId, Declined(a.kind, a.note))
  }

  ghost predicate FlagsAre(notes: seq<Attention>, batch: seq<Entry>, answers: seq<Answer>, at: seq<nat>) {
    |notes| == |at| && forall i :: 0 <= i < |at| ==> at[i] < |batch| && NoteOf(notes[i], batch[at[i]], answers)
  }

  lemma {:induction false} UnansweredArePicked(batch: seq<Entry>, answers: seq<Answer>, p: nat -> bool, at: seq<nat>)
    requires forall k: nat :: k < |batch| ==> (p(k) <==> NothingSaidOf(answers, batch[k].mutation.mutationId))
    requires Picks(|batch|, p, at)
    ensures KeptAt(Unanswered(batch, ById(answers)), batch, at)
  {
    hide Picks, KeptAt, NothingSaidOf, ById;
    if batch == [] {
      PicksNone(p, at);
      NoneKept(batch, at);
    } else {
      var n := |batch| - 1;
      PicksLast(n, p, at);
      ByIdSays(answers, batch[n].mutation.mutationId);
      UnansweredArePicked(batch[..n], answers, p, if p(n) then at[..|at| - 1] else at);
      KeptSnoc(Unanswered(batch[..n], ById(answers)), batch[..n], batch[n], p, at);
      assert batch == batch[..n] + [batch[n]];
      assert forall s: seq<Entry> :: s + [] == s;
    }
  }

  lemma {:induction false} FlagsSnoc(notes: seq<Attention>, batch: seq<Entry>, e: Entry, a: Attention, answers: seq<Answer>, at: seq<nat>)
    requires FlagsAre(notes, batch, answers, at)
    ensures FlagsAre(notes, batch + [e], answers, at)
    ensures NoteOf(a, e, answers) ==> FlagsAre(notes + [a], batch + [e], answers, at + [|batch|])
  {
    hide SaidOf;
    assert forall i :: 0 <= i < |batch| ==> (batch + [e])[i] == batch[i];
  }

  lemma {:induction false} FlagsArePicked(batch: seq<Entry>, answers: seq<Answer>, p: nat -> bool, at: seq<nat>)
    requires forall k: nat :: k < |batch| ==> (p(k) <==> SaidDeclined(answers, batch[k]))
    requires Picks(|batch|, p, at)
    ensures FlagsAre(Flagged(batch, ById(answers)), batch, answers, at)
  {
    hide Picks, FlagsAre, ById, SaidOf;
    if batch == [] {
      PicksNone(p, at);
      NoFlags(answers, at);
    } else {
      var n := |batch| - 1;
      var init, e, byId := batch[..n], batch[n], ById(answers);
      var id := e.mutation.mutationId;
      PicksLast(n, p, at);
      ByIdSays(answers, id);
      assert batch == init + [e];
      assert p(n) <==> id in byId && byId[id].Declined?;
      if p(n) {
        var a := Flag(e, byId[id].kind, byId[id].note);
        FlagsArePicked(init, answers, p, at[..|at| - 1]);
        FlagsSnoc(Flagged(init, byId), init, e, a, answers, at[..|at| - 1]);
        assert at == at[..|at| - 1] + [n];
      } else {
        FlagsArePicked(init, answers, p, at);
        FlagsSnoc(Flagged(init, byId), init, e, Attention(0, Jobs, 0, Rejected, NoPolicy), answers, at);
        assert forall s: seq<Attention> :: s + [] == s;
      }
    }
  }

  lemma {:induction false} NoFlags(answers: seq<Answer>, at: seq<nat>)
    requires at == []
    ensures FlagsAre([], [], answers, at)
  {
  }

  /** An answer leaves in the queue, in order, the batch's entries no answer names and then what came after the batch; and
      adds, in order, a note about each entry the last answer naming it declines. */
  lemma {:induction false} AnswerTakes(d: Device, answers: seq<Answer>) returns (left: seq<nat>, flagged: seq<nat>)
    requires d.flight.Some? && |d.flight.value| <= |d.pending|
    ensures var d', batch := Answered(d, answers), d.flight.value;
      && d' == d.(pending := d'.pending, keptPending := d'.pending, attention := d'.attention, keptAttention := d'.keptAttention,
                  flight := None)
      && (exists stay :: KeptAt(stay, batch, left) && d'.pending == stay + d.pending[|batch|..])
      && (exists notes :: FlagsAre(notes, batch, answers, flagged) && d'.attention == d.attention + notes
            && d'.keptAttention == if notes == [] then d.keptAttention else d'.attention)
      && (forall i, j :: 0 <= i < j < |left| ==> left[i] < left[j]) && (forall i, j :: 0 <= i < j < |flagged| ==> flagged[i] < flagged[j])
      && forall k: nat :: k < |batch| ==>
           && (k in left <==> NothingSaidOf(answers, batch[k].mutation.mutationId))
           && (k in flagged <==> SaidDeclined(answers, batch[k]))
  {
    hide KeptAt, FlagsAre, NothingSaidOf, SaidDeclined, Unanswered, Flagged, ById;
    var batch := d.flight.value;
    var p := (k: nat) => k < |batch| && batch[k].mutation.mutationId !in ById(answers);
    forall k: nat | k < |batch| ensures p(k) <==> NothingSaidOf(answers, batch[k].mutation.mutationId) {
      ByIdSays(answers, batch[k].mutation.mutationId);
    }
    left := PicksOf(|batch|, p);
    UnansweredArePicked(batch, answers, p, left);
    var q := (k: nat) => k < |batch| && batch[k].mutation.mutationId in ById(answers) && ById(answers)[batch[k].mutation.mutationId].Declined?;
    forall k: nat | k < |batch| ensures q(k) <==> SaidDeclined(answers, batch[k]) {
      DeclinedIsSaid(answers, batch[k]);
    }
    flagged := PicksOf(|batch|, q);
    FlagsArePicked(batch, answers, q, flagged);
  }

  lemma {:induction false} DeclinedIsSaid(answers: seq<Answer>, e: Entry)
    ensures var id := e.mutation.mutationId;
      SaidDeclined(answers, e) <==> id in ById(answers) && ById(answers)[id].Declined?
  {
    hide ById, SaidOf;
    var id, byId := e.mutation.mutationId, ById(answers);
    ByIdSays(answers, id);
    if id in byId && byId[id].Declined? {
      assert SaidOf(answers, id, Declined(byId[id].kind, byId[id].note));
    }
  }

  // ---- what is trusted and what is put away ----

  lemma {:induction false} OwnFirst(deviceId: Id, es: seq<Entry>)
    requires es != []
    ensures Own(deviceId, es) == if es[0].mutation.deviceId == deviceId then [es[0]] + Own(deviceId, es[1..]) else Own(deviceId, es[1..])
  {
  }

  /** Of what is stored a page trusts, in order, exactly its own device's entries. */
  lemma {:induction false} OwnArePicked(deviceId: Id, es: seq<Entry>) returns (at: seq<nat>)
    ensures KeptAt(Own(deviceId, es), es, at) && (forall i, j :: 0 <= i < j < |at| ==> at[i] < at[j])
    ensures forall k: nat :: k < |es| ==> (k in at <==> es[k].mutation.deviceId == deviceId)
  {
    hide KeptAt;
    if es == [] {
      at := [];
      NoneKept(es, at);
    } else {
      var later := OwnArePicked(deviceId, es[1..]);
      at := FirstThenRest(Own(deviceId, es[1..]), es, es[0].mutation.deviceId == deviceId, later);
      OwnFirst(deviceId, es);
      hide Own;
      forall k: nat | k < |es| ensures k in at <==> es[k].mutation.deviceId == deviceId {
        if k > 0 {
          var j := k - 1;
          assert es[1..][j] == es[k] && (j + 1 in at <==> j in later);
        }
      }
    }
  }

  lemma {:induction false} WithoutFirst(notes: seq<Attention>, id: Id)
    requires notes != []
    ensures Without(notes, id) == if notes[0].mutationId != id then [notes[0]] + Without(notes[1..], id) else Without(notes[1..], id)
  {
  }

  /** What is put away is every note of that id, and only those; the others stay in order. */
  lemma {:induction false} WithoutArePicked(notes: seq<Attention>, id: Id) returns (at: seq<nat>)
    ensures KeptAt(Without(notes, id), notes, at) && (forall i, j :: 0 <= i < j < |at| ==> at[i] < at[j])
    ensures forall k: nat :: k < |notes| ==> (k in at <==> notes[k].mutationId != id)
  {
    hide KeptAt;
    if notes == [] {
      at := [];
      NoneKept(notes, at);
    } else {
      var later := WithoutArePicked(notes[1..], id);
      at := FirstThenRest(Without(notes[1..], id), notes, notes[0].mutationId != id, later);
      WithoutFirst(notes, id);
      hide Without;
      forall k: nat | k < |notes| ensures k in at <==> notes[k].mutationId != id {
        if k > 0 {
          var j := k - 1;
          assert notes[1..][j] == notes[k] && (j + 1 in at <==> j in later);
        }
      }
    }
  }
}
