/** The wrap-ups of one session after another on the same storage and media: what holds whatever is left behind, what an
    await that is over late can lose, and when nothing is lost. */
module WrapUpSessions {
  import opened Common
  import opened Tick
  import opened Flushes
  import Order = FlushOrder
  import U = WrapUps
  import S = SyncProtocol
  import W = WrapUpProtocol
  import WR = WrapUpRuns
  import WS = WrapUpShots
  import Server = Replay

  // ---- what an await that is over does to storage ----

  /** Whether the await's end saves drafts and outbox; it can be told before it is over. */
  predicate WritesOver(w: W.World, turn: W.Step) {
    match turn
    case OpDone(k) =>
      && k < |w.ops|
      && !(w.ops[k].Putting? && w.ops[k].kind == U.Signature && U.DraftFor(w.page, w.ops[k].job).signature.Some?)
    case BytesRead => w.flight.Some? && w.flight.value.at.Reading? && w.flight.value.at.id !in w.page.media
    case Answered(_) => true
    case _ => false
  }

  /** Drafts and outbox as they were, in storage too. */
  predicate Leaves(p: U.Page, p': U.Page) {
    && p'.keptDrafts == p.keptDrafts && p'.keptOutbox == p.keptOutbox && p'.drafts == p.drafts && p'.outbox == p.outbox
  }

  /** Storage as drafts and outbox now are. */
  predicate Stores(p: U.Page) {
    p.keptDrafts == p.drafts && p.keptOutbox == p.outbox
  }

  lemma {:induction false} FlushLeavesPage(w: W.World, rest: seq<U.Entry>)
    ensures W.NextEntry(w, rest).page == w.page
    ensures forall e, todo :: W.NextShot(w, rest, e, todo).page == w.page
  {
  }

  lemma {:induction false} RefusedStores(w: W.World, why: U.Refusal)
    requires w.flight.Some?
    ensures Stores(W.Refused(w, why).page)
  {
    hide W.NextEntry, U.Swapped;
    var f := w.flight.value;
    FlushLeavesPage(w.(page := U.Replaced(w.page, f.entry.wrapUpId, Some(f.entry.(refused := Some(why))))), f.rest);
  }

  lemma {:induction false} AnswerStores(w: W.World, v: W.Verdict)
    requires w.flight.Some? && W.CallAwaited(w.flight.value.at).Some?
    ensures Stores(W.AfterAnswer(w, v).page)
  {
    hide W.NextShot, W.Refused, U.Swapped, U.Marked;
    var f := w.flight.value;
    RefusedStores(w, U.OfficeRefused);
    if f.at.Attaching? {
      FlushLeavesPage(w.(page := U.Replaced(w.page, f.entry.wrapUpId, Some(U.Marked(f.entry, f.at.id)))), f.rest);
    }
  }

  lemma {:induction false} OpStores(w: W.World, k: nat)
    requires k < |w.ops|
    ensures var w' := W.AfterOp(w.(ops := W.WithoutOp(w.ops, k)), w.ops[k]);
      if WritesOver(w, W.OpDone(k)) then Stores(w'.page) else Leaves(w.page, w'.page)
  {
    hide U.PhotosWithout;
  }

  /** An await of the wrap-ups writes drafts and outbox over what is stored exactly as `WritesOver` tells; otherwise it
      leaves them, and storage, alone. */
  lemma {:induction false} AwaitWritesIff(w: W.World, turn: W.Step)
    requires OfAwaits(turn) && W.Can(w, turn)
    ensures var p' := W.Next(w, turn).page; if WritesOver(w, turn) then Stores(p') else Leaves(w.page, p')
  {
    hide W.NextEntry, W.AfterAnswer, W.Refused, W.AfterOp, U.DraftFor;
    match turn
    case OpDone(k) => OpStores(w, k);
    case Answered(v) => AnswerStores(w, v);
    case BytesRead => RefusedStores(w, U.LostShot);
    case Deleted =>
      var f := w.flight.value;
      FlushLeavesPage(w, f.rest);
      FlushLeavesPage(w.(page := U.Forgotten(w.page, if f.at.left == [] then 0 else f.at.left[0])), f.rest);
    case _ =>
  }

  /** So it is with what the screens do, and with a flush that begins. */
  lemma {:induction false} ScreensStore(w: W.World, s: W.Step)
    requires W.Can(w, s) && !OfAwaits(s) && !s.Reload?
    ensures Stores(W.Next(w, s).page) || Leaves(w.page, W.Next(w, s).page)
  {
    hide W.NextEntry, U.DraftFor, U.Ready, U.DraftOf, W.Given, W.TakenBack, U.NotOfJob, U.Without;
    if s.StartFlush? {
      FlushLeavesPage(w, U.Waiting(w.page.outbox));
    }
  }

  // ---- wrap-ups whatever is stored ----

  /** The wrap-ups as they would be with all of it stored, and nothing to answer for yet. */
  function Core(w: W.World): W.World {
    w.(page := w.page.(keptDrafts := w.page.drafts, keptOutbox := w.page.outbox), submitted := {})
  }

  lemma {:induction false} CoreFlush(w: W.World, rest: seq<U.Entry>)
    ensures Core(W.NextEntry(w, rest)) == W.NextEntry(Core(w), rest)
    ensures forall e, todo :: Core(W.NextShot(w, rest, e, todo)) == W.NextShot(Core(w), rest, e, todo)
  {
  }

  lemma {:induction false} CoreRefused(w: W.World, why: U.Refusal)
    requires w.flight.Some?
    ensures Core(W.Refused(w, why)) == W.Refused(Core(w), why)
  {
    hide W.NextEntry, U.Swapped;
    var f := w.flight.value;
    CoreFlush(w.(page := U.Replaced(w.page, f.entry.wrapUpId, Some(f.entry.(refused := Some(why))))), f.rest);
  }

  lemma {:induction false} CoreAnswered(w: W.World, v: W.Verdict)
    requires w.flight.Some? && W.CallAwaited(w.flight.value.at).Some?
    ensures Core(W.AfterAnswer(w, v)) == W.AfterAnswer(Core(w), v)
  {
    hide W.NextShot, W.Refused, U.Swapped, U.Marked, U.WithoutId;
    var f := w.flight.value;
    CoreRefused(w, U.OfficeRefused);
    if f.at.Attaching? {
      CoreFlush(w.(page := U.Replaced(w.page, f.entry.wrapUpId, Some(U.Marked(f.entry, f.at.id)))), f.rest);
    }
  }

  lemma {:induction false} CoreCleaned(w: W.World)
    requires w.flight.Some? && w.flight.value.at.Cleaning?
    ensures Core(W.Cleaned(w)) == W.Cleaned(Core(w))
  {
    hide W.NextEntry;
    var f := w.flight.value;
    CoreFlush(if f.at.left == [] then w else w.(page := U.Forgotten(w.page, f.at.left[0])), f.rest);
  }

  lemma {:induction false} CoreRead(w: W.World)
    requires w.flight.Some? && w.flight.value.at.Reading?
    ensures Core(W.ReadBytes(w)) == W.ReadBytes(Core(w))
  {
    hide W.Refused;
    CoreRefused(w, U.LostShot);
  }

  lemma {:induction false} CoreOp(w: W.World, k: nat)
    requires k < |w.ops|
    ensures var op, rest := w.ops[k], W.WithoutOp(w.ops, k);
      Core(W.AfterOp(Core(w).(ops := rest), op)) == Core(W.AfterOp(w.(ops := rest), op))
  {
    hide U.PhotosWithout, W.WithoutOp, W.AfterPut, U.DraftFor;
    var op, v := w.ops[k], w.(ops := W.WithoutOp(w.ops, k));
    SameDrafts(v);
    if op.Putting? {
      CorePut(v, op);
    }
  }

  lemma {:induction false} CorePut(w: W.World, op: W.Op)
    requires op.Putting?
    ensures Core(W.AfterPut(Core(w), op)) == Core(W.AfterPut(w, op))
  {
  }

  lemma {:induction false} CoreSubmit(w: W.World, job: Id, x: Id, at: int)
    ensures Core(W.AfterSubmit(Core(w), job, x, at)) == Core(W.AfterSubmit(w, job, x, at))
  {
    hide U.Ready, W.Given, U.NotOfJob, U.EntryOf;
  }

  lemma {:induction false} CoreScreens(w: W.World, s: W.Step)
    requires W.Can(w, s) && !s.Reload? && !s.StartFlush? && !s.BytesRead? && !s.Answered? && !s.Deleted?
    ensures W.Can(Core(w), s) && Core(W.Next(Core(w), s)) == Core(W.Next(w, s))
  {
    hide U.DraftFor, U.DraftOf, W.TakenBack, U.Without, W.MayJudge, W.AfterOp, W.AfterSubmit;
    SameDrafts(w);
    match s
    case OpDone(k) => CoreOp(w, k);
    case Submit(job, x, at) => CoreSubmit(w, job, x, at);
    case _ =>
  }

  lemma {:induction false} SameDrafts(w: W.World)
    ensures forall job: Id :: U.DraftFor(Core(w).page, job) == U.DraftFor(w.page, job)
    ensures forall n: nat, v :: W.MayJudge(Core(w), n, v) <==> W.MayJudge(w, n, v)
  {
  }

  /** What a step does but for storage does not hang on what is stored. */
  lemma {:induction false} CoreNext(w: W.World, s: W.Step)
    requires W.Can(w, s) && !s.Reload?
    ensures W.Can(Core(w), s) && Core(W.Next(Core(w), s)) == Core(W.Next(w, s))
  {
    hide W.NextEntry, W.AfterAnswer, W.Cleaned, W.ReadBytes, W.MayJudge;
    match s
    case StartFlush => CoreFlush(w, U.Waiting(w.page.outbox));
    case BytesRead => CoreRead(w);
    case Answered(v) => CoreAnswered(w, v);
    case Deleted => CoreCleaned(w);
    case _ => CoreScreens(w, s);
  }

  // ---- over every run, whatever is left behind ----

  /** What is promised of entries, calls and answers, whatever is stored. */
  ghost predicate Sound(w: W.World) {
    WR.Inv(Core(w))
  }

  lemma {:induction false} InvIsSound(w: W.World)
    requires WR.Inv(w)
    ensures Sound(w)
  {
    hide WR.EntriesOk, WR.CallsOk, WR.AnswersOk;
    var v := Core(w);
    assert WR.CallsOk(v) by { SameCalls(w, v); }
    assert WR.AnswersOk(v) by { SameCalls(w, v); }
  }

  lemma {:induction false} SameCalls(w: W.World, w': W.World)
    requires w'.calls == w.calls && w'.office == w.office && w'.answers == w.answers
    ensures WR.CallsOk(w) ==> WR.CallsOk(w')
    ensures WR.AnswersOk(w) ==> WR.AnswersOk(w')
  {
  }

  lemma {:induction false} SoundNext(w: W.World, s: W.Step)
    requires Sound(w) && W.Can(w, s) && !s.Reload?
    ensures Sound(W.Next(w, s))
  {
    hide WR.Inv, W.Can, W.Next, Core;
    CoreNext(w, s);
    WR.NextKeeps(Core(w), s);
    InvIsSound(W.Next(Core(w), s));
  }

  lemma {:induction false} OfficeGrows(w: W.World, s: W.Step)
    requires W.Can(w, s)
    ensures w.office.media <= W.Next(w, s).office.media && w.office.wrapUps <= W.Next(w, s).office.wrapUps
    ensures w.calls <= W.Next(w, s).calls
  {
    hide U.DraftFor, U.Ready;
  }

  /** A page of the wrap-ups stays sound while another one's steps go on: the office only takes more, and calls are only
      added. */
  lemma {:induction false} OthersStay(v: W.World, w: W.World, w': W.World, v': W.World)
    requires Sound(v) && Sound(w') && v.office == w.office && v.calls == w.calls
    requires w.office.media <= w'.office.media && w.office.wrapUps <= w'.office.wrapUps && w.calls <= w'.calls
    requires v'.page.outbox == v.page.outbox && v'.flight == v.flight
    requires v'.office == w'.office && v'.calls == w'.calls && v'.answers == w'.answers
    ensures Sound(v')
  {
    hide WR.CallsOk, WR.AnswersOk, WR.EntriesOk, WR.EntryOk, WR.AllSentBut;
    SameCalls(Core(w'), Core(v'));
    MoreMedia(v.office, v'.office);
  }

  lemma {:induction false} MoreMedia(office: W.Office, office': W.Office)
    requires office.media <= office'.media
    ensures forall e :: WR.EntryOk(e, office) ==> WR.EntryOk(e, office')
    ensures forall es :: WR.EntriesOk(es, office) ==> WR.EntriesOk(es, office')
  {
  }

  /** Sound on the page, in storage, and in whatever is left behind. */
  ghost predicate AllSound(a: App) {
    && Sound(a.wraps) && WR.EntriesOk(a.wraps.page.keptOutbox, a.wraps.office)
    && forall f :: f in a.formerWraps ==> Sound(WorldOf(a, f))
  }

  lemma {:induction false} SoundOutbox(w: W.World)
    requires Sound(w)
    ensures WR.EntriesOk(w.page.outbox, w.office)
  {
    hide WR.EntriesOk, WR.CallsOk, WR.AnswersOk, WR.FlightOk;
  }

  lemma {:induction false} StoredSound(w: W.World, w': W.World)
    requires WR.EntriesOk(w.page.keptOutbox, w.office) && w.office.media <= w'.office.media && Sound(w')
    requires Stores(w'.page) || w'.page.keptOutbox == w.page.keptOutbox
    ensures WR.EntriesOk(w'.page.keptOutbox, w'.office)
  {
    hide WR.EntriesOk;
    SoundOutbox(w');
    MoreMedia(w.office, w'.office);
  }

  /** A step of this session's wrap-ups. */
  lemma {:induction false} TurnSound(a: App, s: W.Step, b: App)
    requires AllSound(a) && W.Can(a.wraps, s) && !s.Reload? && b.wraps == W.Next(a.wraps, s) && b.formerWraps == a.formerWraps
    ensures AllSound(b)
  {
    hide Sound, W.Can, W.Next, WR.EntriesOk;
    SoundNext(a.wraps, s);
    OfficeGrows(a.wraps, s);
    if OfAwaits(s) {
      AwaitWritesIff(a.wraps, s);
    } else {
      ScreensStore(a.wraps, s);
    }
    StoredSound(a.wraps, b.wraps);
    forall f | f in b.formerWraps ensures Sound(WorldOf(b, f)) {
      OthersStay(WorldOf(a, f), a.wraps, b.wraps, WorldOf(b, f));
    }
  }

  /** A step of what is left behind. */
  lemma {:induction false} LateTurnSound(a: App, k: nat, turn: W.Step)
    requires AllSound(a) && Can(a, LateWraps(k, turn))
    ensures AllSound(LateTurn(a, k, turn))
  {
    hide Sound, W.Can, W.Next, WR.EntriesOk;
    var b, v := LateTurn(a, k, turn), WorldOf(a, a.formerWraps[k]);
    var v' := W.Next(v, turn);
    assert a.formerWraps[k] in a.formerWraps;
    SoundNext(v, turn);
    OfficeGrows(v, turn);
    AwaitWritesIff(v, turn);
    StoredSound(v, v');
    OthersStay(a.wraps, v, v', b.wraps);
    forall f | f in b.formerWraps ensures Sound(WorldOf(b, f)) {
      if f == b.formerWraps[k] {
        OthersStay(v', v', v', WorldOf(b, f));
      } else {
        assert f in a.formerWraps;
        OthersStay(WorldOf(a, f), v, v', WorldOf(b, f));
      }
    }
  }

  lemma {:induction false} OpensSound(w: W.World)
    requires Sound(w) && WR.EntriesOk(w.page.keptOutbox, w.office)
    ensures W.Can(w, W.Reload) && Sound(W.Next(w, W.Reload))
  {
    hide WR.EntriesOk;
    SameCalls(Core(w), Core(W.Next(w, W.Reload)));
  }

  lemma {:induction false} OpenedSound(policy: Server.Policy, a: App, b: App)
    requires AllSound(a) && b.wraps == W.Next(a.wraps, W.Reload)
    requires forall f :: f in b.formerWraps ==> f in a.formerWraps || f == LeftBehind(a)
    ensures AllSound(b)
  {
    hide Sound, WR.EntriesOk;
    OpensSound(a.wraps);
    forall f | f in b.formerWraps ensures Sound(WorldOf(b, f)) {
      if f == LeftBehind(a) {
        OthersStay(a.wraps, a.wraps, b.wraps, WorldOf(b, f));
      } else {
        OthersStay(WorldOf(a, f), a.wraps, b.wraps, WorldOf(b, f));
      }
    }
  }

  lemma {:induction false} TickMoves(a: App)
    ensures var w' := TickQueue(TickWraps(a)).wraps; w' == a.wraps || (W.Can(a.wraps, W.StartFlush) && w' == W.Next(a.wraps, W.StartFlush))
    ensures TickQueue(TickWraps(a)).formerWraps == a.formerWraps
  {
    hide W.NextEntry;
  }

  lemma {:induction false} SameSound(a: App, b: App)
    requires AllSound(a) && b.wraps == a.wraps && b.formerWraps == a.formerWraps
    ensures AllSound(b)
  {
    hide Sound, WR.EntriesOk;
    assert forall f :: WorldOf(b, f) == WorldOf(a, f);
  }

  lemma {:induction false} NextSound(policy: Server.Policy, a: App, s: Step)
    requires AllSound(a) && Can(a, s)
    ensures AllSound(Next(policy, a, s))
  {
    hide AllSound, S.Next, S.Can, W.Next, W.Can, Dropped, TickWraps, LateTurn;
    var b := Next(policy, a, s);
    match s
    case Tick =>
      TickMoves(a);
      if b.wraps == a.wraps { SameSound(a, b); } else { TurnSound(a, W.StartFlush, b); }
    case Wraps(turn) => TurnSound(a, turn, b);
    case SignIn => OpenedSound(policy, a, b);
    case Reload => OpenedSound(policy, a, b);
    case LateWraps(k, turn) => LateTurnSound(a, k, turn);
    case _ => SameSound(a, b);
  }

  lemma {:induction false} EveryRunSound(policy: Server.Policy, a: App, steps: seq<Step>, a': App)
    requires AllSound(a) && Run(policy, a, steps, a')
    ensures AllSound(a')
    decreases steps
  {
    hide AllSound, Next, Can;
    if steps != [] {
      NextSound(policy, a, steps[0]);
      EveryRunSound(policy, Next(policy, a, steps[0]), steps[1..], a');
    }
  }

  lemma {:induction false} StartsSound(a: App)
    requires Start(a)
    ensures AllSound(a)
  {
  }

  /** Over every run, whatever sign-ins leave behind: a report is sent only over media the office has recorded, so none is
      refused for missing any; and every report has its photos and exactly one of signature and reason. */
  lemma {:induction false} MediaFirst(policy: Server.Policy, a0: App, steps: seq<Step>, a: App)
    requires Start(a0) && Run(policy, a0, steps, a)
    ensures forall c :: c in a.wraps.calls && c.Report? ==> W.ShotIds(c.entry) <= a.wraps.office.media && WR.Whole(c.entry)
    ensures forall n :: (n, W.MediaMissing) !in a.wraps.answers
  {
    StartsSound(a0);
    EveryRunSound(policy, a0, steps, a);
  }

  // ---- up to the first await that is over late ----

  /** A step does nothing to this page's wrap-ups that they do not do by themselves. */
  lemma {:induction false} WrapsMove(policy: Server.Policy, a: App, s: Step)
    requires Can(a, s) && !s.LateWraps?
    ensures var w, w' := a.wraps, Next(policy, a, s).wraps;
      w' == w || exists turn :: W.Can(w, turn) && w' == W.Next(w, turn)
  {
    hide S.Next, S.Can, Dropped;
    var w, w' := a.wraps, Next(policy, a, s).wraps;
    match s
    case Tick => TickMoves(a);
    case Wraps(turn) => assert w' == W.Next(w, turn);
    case SignIn => assert W.Can(w, W.Reload) && w' == W.Next(w, W.Reload);
    case Reload => assert W.Can(w, W.Reload) && w' == W.Next(w, W.Reload);
    case _ =>
  }

  /** What this page holds and has stored was submitted. */
  ghost predicate Kept(w: W.World) {
    WR.Inv(w) && Order.Held(w) <= w.submitted
  }

  lemma {:induction false} HeldSubmitted(w: W.World, s: W.Step)
    requires W.Can(w, s) && Order.Held(w) <= w.submitted
    ensures Order.Held(W.Next(w, s)) <= W.Next(w, s).submitted
  {
    hide Order.Held, W.Next, W.Can;
    SubmittedGrows(w, s);
    if OfAwaits(s) {
      Order.AwaitGoesOn(w, s);
    } else if s.StartFlush? {
      Order.NextEntryGoesOn(w, U.Waiting(w.page.outbox));
      FlushBegins(w);
    } else {
      Order.ScreensStay(w, s);
    }
  }

  lemma {:induction false} FlushBegins(w: W.World)
    requires W.Can(w, W.StartFlush)
    ensures W.Next(w, W.StartFlush) == W.NextEntry(w, U.Waiting(w.page.outbox))
  {
  }

  lemma {:induction false} SubmittedGrows(w: W.World, s: W.Step)
    requires W.Can(w, s)
    ensures w.submitted <= W.Next(w, s).submitted
    ensures s.Submit? && s.wrapUpId in W.Next(w, s).minted ==> s.wrapUpId in W.Next(w, s).submitted
  {
    hide U.DraftFor, U.Ready, W.Given, U.EntryOf;
  }

  lemma {:induction false} EveryRunKeeps(policy: Server.Policy, a: App, steps: seq<Step>, a': App)
    requires Kept(a.wraps) && Run(policy, a, steps, a') && forall s :: s in steps ==> !s.LateWraps?
    ensures Kept(a'.wraps)
    decreases steps
  {
    hide WR.Inv, Order.Held, Next, Can, W.Next, W.Can;
    if steps != [] {
      WrapsMove(policy, a, steps[0]);
      var b := Next(policy, a, steps[0]);
      if b.wraps != a.wraps {
        var turn :| W.Can(a.wraps, turn) && b.wraps == W.Next(a.wraps, turn);
        WR.NextKeeps(a.wraps, turn);
        HeldSubmitted(a.wraps, turn);
      }
      EveryRunKeeps(policy, b, steps[1..], a');
    }
  }

  /** Recorded at the office, replaced by a newer submit, or reopened. */
  predicate Accounted(w: W.World, x: Id) {
    x in w.office.wrapUps || x in w.superseded || x in w.reopened
  }

  /** Each wrap-up submitted is in `outbox` or accounted for. */
  predicate NoneMissing(w: W.World, outbox: seq<U.Entry>) {
    forall x :: x in w.submitted ==> x in W.WrapUpIds(outbox) || Accounted(w, x)
  }

  lemma {:induction false} AwaitLeavesFate(w: W.World, turn: W.Step)
    requires OfAwaits(turn) && W.Can(w, turn)
    ensures var w' := W.Next(w, turn);
      w'.submitted == w.submitted && w'.superseded == w.superseded && w'.reopened == w.reopened && w'.office == w.office
  {
    hide U.DraftFor;
  }

  /** An await takes an entry out of the outbox only once the office has recorded it, and puts none in. */
  lemma {:induction false} AwaitKeepsEntries(w: W.World, turn: W.Step)
    requires Sound(w) && OfAwaits(turn) && W.Can(w, turn)
    ensures var w' := W.Next(w, turn);
      && W.WrapUpIds(w'.page.outbox) <= W.WrapUpIds(w.page.outbox)
      && forall x :: x in W.WrapUpIds(w.page.outbox) ==> x in W.WrapUpIds(w'.page.outbox) || Accounted(w', x)
  {
    hide W.Next, W.Can, WR.Inv, W.WrapUpIds;
    var v := Core(w).(submitted := W.WrapUpIds(w.page.outbox));
    assert Core(v) == Core(w);
    AllSubmitted(w, v);
    CoreNext(w, turn);
    assert W.Can(v, turn) by { CoreCan(v, turn); }
    CoreNext(v, turn);
    assert W.Next(v, turn).page.outbox == W.Next(w, turn).page.outbox;
    Order.AwaitGoesOn(v, turn);
    AwaitLeavesFate(v, turn);
    AwaitLeavesFate(w, turn);
    WR.NextKeeps(v, turn);
    assert WR.FateOk(W.Next(v, turn)) by { InvHasFate(W.Next(v, turn)); }
  }

  lemma {:induction false} CoreCan(v: W.World, turn: W.Step)
    requires OfAwaits(turn) && W.Can(Core(v), turn)
    ensures W.Can(v, turn)
  {
  }

  lemma {:induction false} InvHasFate(w: W.World)
    requires WR.Inv(w)
    ensures WR.FateOk(w)
  {
  }

  lemma {:induction false} AllSubmitted(w: W.World, v: W.World)
    requires Sound(w) && v == Core(w).(submitted := W.WrapUpIds(w.page.outbox))
    ensures WR.Inv(v)
  {
    hide WR.EntriesOk, WR.CallsOk, WR.AnswersOk;
    assert WR.CallsOk(v) by { SameCalls(Core(w), v); }
    assert WR.AnswersOk(v) by { SameCalls(Core(w), v); }
  }

  /** At the first await of any run that is over after a later sign-in: what storage then holds is missing some wrap-up
      submitted, neither recorded nor replaced nor reopened, exactly when the await writes, and some such wrap-up on this
      session's page is not in the outbox that was left behind. */
  lemma {:induction false} LateSaveLosesIff(policy: Server.Policy, a0: App, steps: seq<Step>, a: App, k: nat, turn: W.Step)
    requires Start(a0) && Run(policy, a0, steps, a) && (forall s :: s in steps ==> !s.LateWraps?) && Can(a, LateWraps(k, turn))
    ensures var f, b := a.formerWraps[k], LateTurn(a, k, turn);
      NoneMissing(b.wraps, b.wraps.page.keptOutbox)
      <==> (WritesOver(WorldOf(a, f), turn) ==>
              forall e :: e in a.wraps.page.outbox ==> e.wrapUpId in W.WrapUpIds(f.outbox) || Accounted(a.wraps, e.wrapUpId))
  {
    hide Run, Sound, W.Next, W.Can, WritesOver;
    StartsKept(a0);
    EveryRunKeeps(policy, a0, steps, a);
    StartsSound(a0);
    EveryRunSound(policy, a0, steps, a);
    var f, b := a.formerWraps[k], LateTurn(a, k, turn);
    var v := WorldOf(a, f);
    assert f in a.formerWraps;
    AwaitKeepsEntries(v, turn);
    AwaitWritesIff(v, turn);
    AwaitLeavesFate(v, turn);
    MissingIff(a.wraps, b.wraps, f.outbox, W.Next(v, turn).page.outbox);
  }

  lemma {:induction false} StartsKept(a: App)
    requires Start(a)
    ensures Kept(a.wraps)
  {
  }

  lemma {:induction false} MissingIff(w: W.World, w': W.World, was: seq<U.Entry>, now: seq<U.Entry>)
    requires Kept(w) && w'.submitted == w.submitted && w'.office == w.office
    requires w'.superseded == w.superseded && w'.reopened == w.reopened
    requires W.WrapUpIds(now) <= W.WrapUpIds(was)
    requires forall x :: x in W.WrapUpIds(was) ==> x in W.WrapUpIds(now) || Accounted(w', x)
    ensures NoneMissing(w', w.page.keptOutbox)
    ensures NoneMissing(w', now)
        <==> forall e :: e in w.page.outbox ==> e.wrapUpId in W.WrapUpIds(was) || Accounted(w, e.wrapUpId)
  {
    hide WR.EntriesOk, WR.CallsOk, WR.AnswersOk, WR.FlightOk, W.WrapUpIds;
    assert forall e :: e in w.page.outbox ==> e.wrapUpId in W.WrapUpIds(w.page.outbox) by { IdsHave(w.page.outbox); }
    assert forall x :: x in W.WrapUpIds(w.page.outbox) ==> exists e :: e in w.page.outbox && e.wrapUpId == x by {
      IdsHave(w.page.outbox);
    }
  }

  lemma {:induction false} IdsHave(es: seq<U.Entry>)
    ensures forall e :: e in es ==> e.wrapUpId in W.WrapUpIds(es)
    ensures forall x :: x in W.WrapUpIds(es) ==> exists e :: e in es && e.wrapUpId == x
  {
  }

  // ---- sign-ins that wait ----

  /** Every sign-in comes with no edit and no flush of the wrap-ups under way. */
  ghost predicate WrapsRest(policy: Server.Policy, a: App, steps: seq<Step>)
    decreases steps
  {
    steps != [] ==>
      && Can(a, steps[0]) && (steps[0].SignIn? ==> a.wraps.flight.None? && a.wraps.ops == [])
      && WrapsRest(policy, Next(policy, a, steps[0]), steps[1..])
  }

  lemma {:induction false} NoneLeft(policy: Server.Policy, a: App, steps: seq<Step>)
    requires a.formerWraps == [] && WrapsRest(policy, a, steps)
    ensures forall s :: s in steps ==> !s.LateWraps?
    decreases steps
  {
    hide Next;
    if steps != [] {
      StillNoneLeft(policy, a, steps[0]);
      NoneLeft(policy, Next(policy, a, steps[0]), steps[1..]);
    }
  }

  lemma {:induction false} StillNoneLeft(policy: Server.Policy, a: App, s: Step)
    requires a.formerWraps == [] && Can(a, s) && (s.SignIn? ==> a.wraps.flight.None? && a.wraps.ops == [])
    ensures !s.LateWraps? && Next(policy, a, s).formerWraps == []
  {
    hide S.Next, S.Can, W.Next, Dropped, TickWraps;
    if s.Tick? {
      TickMoves(a);
    }
  }

  /** Over every run whose sign-ins come with no edit and no flush of the wrap-ups under way, a submitted wrap-up neither
      replaced nor reopened leaves the outbox only once the office has recorded it, and what is on the page is stored. */
  lemma {:induction false} NothingSubmittedIsLost(policy: Server.Policy, a0: App, steps: seq<Step>, a: App)
    requires Start(a0) && Run(policy, a0, steps, a) && WrapsRest(policy, a0, steps)
    ensures NoneMissing(a.wraps, a.wraps.page.outbox) && Stores(a.wraps.page)
  {
    hide Run, WrapsRest;
    NoneLeft(policy, a0, steps);
    StartsKept(a0);
    EveryRunKeeps(policy, a0, steps, a);
  }

  /** And what the screens do, and each reload, is tidy. */
  ghost predicate StaysTidy(policy: Server.Policy, a: App, steps: seq<Step>)
    decreases steps
  {
    steps != [] ==>
      && Can(a, steps[0]) && (steps[0].Wraps? ==> WS.Tidy(a.wraps, steps[0].turn)) && (steps[0].Reload? ==> WS.ReloadSafe(a.wraps))
      && StaysTidy(policy, Next(policy, a, steps[0]), steps[1..])
  }

  lemma {:induction false} TidyMove(policy: Server.Policy, a: App, s: Step)
    requires Can(a, s) && !s.LateWraps? && (s.SignIn? ==> a.wraps.ops == [])
    requires (s.Wraps? ==> WS.Tidy(a.wraps, s.turn)) && (s.Reload? ==> WS.ReloadSafe(a.wraps))
    ensures var w, w' := a.wraps, Next(policy, a, s).wraps;
      w' == w || exists turn :: W.Can(w, turn) && WS.Tidy(w, turn) && w' == W.Next(w, turn)
  {
    hide S.Next, S.Can, Dropped, WS.SubmitSafe;
    var w, w' := a.wraps, Next(policy, a, s).wraps;
    match s
    case Tick => TickMoves(a); assert WS.Tidy(w, W.StartFlush);
    case Wraps(turn) => assert w' == W.Next(w, turn);
    case SignIn => assert W.Can(w, W.Reload) && WS.Tidy(w, W.Reload) && w' == W.Next(w, W.Reload);
    case Reload => assert W.Can(w, W.Reload) && WS.Tidy(w, W.Reload) && w' == W.Next(w, W.Reload);
    case _ =>
  }

  lemma {:induction false} TidyRunKeeps(policy: Server.Policy, a: App, steps: seq<Step>, a': App)
    requires WS.Inv(a.wraps) && a.formerWraps == [] && Run(policy, a, steps, a')
    requires WrapsRest(policy, a, steps) && StaysTidy(policy, a, steps)
    ensures WS.Inv(a'.wraps)
    decreases steps
  {
    hide WS.Inv, Next, Can, W.Next, W.Can, WS.Tidy, WS.ReloadSafe;
    if steps != [] {
      StillNoneLeft(policy, a, steps[0]);
      TidyMove(policy, a, steps[0]);
      var b := Next(policy, a, steps[0]);
      if b.wraps != a.wraps {
        var turn :| W.Can(a.wraps, turn) && WS.Tidy(a.wraps, turn) && b.wraps == W.Next(a.wraps, turn);
        WS.NextKeeps(a.wraps, turn);
      }
      TidyRunKeeps(policy, b, steps[1..], a');
    }
  }

  /** Over such runs, sessions come and go, every shot has its bytes, and no flush refuses an entry as lost. */
  lemma {:induction false} NoShotIsLost(policy: Server.Policy, a0: App, steps: seq<Step>, a: App)
    requires Start(a0) && Run(policy, a0, steps, a) && WrapsRest(policy, a0, steps) && StaysTidy(policy, a0, steps)
    ensures WS.ShotsHeld(a.wraps)
  {
    hide Run, WrapsRest, StaysTidy;
    TidyRunKeeps(policy, a0, steps, a);
    WS.InvHoldsShots(a.wraps);
  }
}
