/** The page as a whole: the queue and its link, the outbox and its flush, the tick and the taps that start both, and the
    sessions that come and go on one page. */
module Flushes {
  import opened Common
  import opened Tick
  import Q = OfflineQueue
  import U = WrapUps
  import S = SyncProtocol
  import W = WrapUpProtocol
  import Server = Replay

  /** A queue left behind by a sign-in while its replay was under way, as it stood; and how much was ever enqueued then. */
  datatype Former = Former(dev: Q.Device, awaiting: nat, byTick: bool, made: nat)

  /** Drafts and outbox left behind by a sign-in while an edit or a flush of theirs was under way. */
  datatype FormerWraps = FormerWraps(drafts: map<Id, U.Draft>, outbox: seq<U.Entry>, ops: seq<W.Op>,
                                     flight: Option<W.Flight>, since: nat, reached: bool)

  /** `byTick` says who sent the replay under way, `reached` whether the wrap-ups' flush under way got an answer yet.
      The rest is history: `since` is how much was ever enqueued when that flush began, `stamps` the same for each
      call ever sent, and `marks` for each wrap-up when it was submitted; `lost` is what no opening of the page found
      again. */
  datatype App = App(sync: S.World, wraps: W.World, queuePace: Pace, wrapsPace: Pace, clock: nat, signedIn: bool,
                     byTick: bool, reached: bool, formers: seq<Former>, formerWraps: seq<FormerWraps>,
                     since: nat, stamps: seq<nat>, marks: map<Id, nat>, lost: set<Id>)

  datatype Step =
    | Wait(to: nat)
    | Tick
    | Tap                     // a screen calls flush, with no regard to the pace
    | Queue(move: S.Step)     // what the queue, its link and the office do besides
    | Answered(response: nat)
    | Unanswered
    | TokenOver               // the replay under way is refused: sign in again
    | SignOut
    | SignIn
    | Wraps(turn: W.Step)     // what the screens, the outbox's flush and its link do
    | Reload
    | LateAnswered(former: nat, response: nat)  // the same three for a queue left behind
    | LateUnanswered(former: nat)
    | LateTokenOver(former: nat)
    | LateWraps(former: nat, turn: W.Step)      // an await of the wrap-ups left behind is over

  predicate OfQueue(s: S.Step) {
    s.Enqueue? || s.Dismiss? || s.Deliver? || s.OtherDevice? || s.Office?
  }

  /** What goes on of a page's wrap-ups when the screens are gone. */
  predicate OfAwaits(s: W.Step) {
    s.OpDone? || s.BytesRead? || s.Answered? || s.NoAnswer? || s.Deleted? || s.MediaFailed?
  }

  predicate CanHear(a: App, f: Former, n: nat) {
    && n < |a.sync.responses| && a.sync.responses[n].request == f.awaiting
    && f.dev.flight.Some? && |f.dev.flight.value| <= |f.dev.pending|
  }

  ghost predicate Can(a: App, s: Step) {
    match s
    case Wait(to) => to >= a.clock
    case Tap => a.signedIn
    case Queue(move) => OfQueue(move) && S.Can(a.sync, move)
    case Answered(n) => S.Can(a.sync, S.Receive(n))
    case Unanswered => a.sync.dev.flight.Some?
    case TokenOver => a.sync.dev.flight.Some?
    case SignOut => a.signedIn
    case SignIn => !a.signedIn
    case Wraps(turn) => !turn.StartFlush? && !turn.Reload? && W.Can(a.wraps, turn)
    case LateAnswered(k, n) => k < |a.formers| && CanHear(a, a.formers[k], n)
    case LateUnanswered(k) => k < |a.formers|
    case LateTokenOver(k) => k < |a.formers|
    case LateWraps(k, turn) => k < |a.formerWraps| && OfAwaits(turn) && W.Can(WorldOf(a, a.formerWraps[k]), turn)
    case _ => true
  }

  /** When a flush of wrap-ups ends, the tick that started it hears whether anything got through. */
  function WrapsPaced(p: Pace, was: Option<W.Flight>, flight: Option<W.Flight>, reached: bool, clock: nat): Pace {
    if was.None? || flight.Some? then p else if reached then AT_ONCE else Backoff(p, clock)
  }

  function Stamped(stamps: seq<nat>, calls: seq<W.Call>, calls': seq<W.Call>, since: nat): seq<nat> {
    if |calls'| > |calls| then stamps + [since] else stamps
  }

  function WrapsTo(a: App, w: W.World): App {
    a.(wraps := w, stamps := Stamped(a.stamps, a.wraps.calls, w.calls, a.since),
       wrapsPace := WrapsPaced(a.wrapsPace, a.wraps.flight, w.flight, a.reached, a.clock))
  }

  /** A flush called while one is under way answers at once that it reached nobody. */
  function TickWraps(a: App): App {
    if !WrapsDue(a.sync.dev, a.wraps.page, a.wrapsPace, a.clock) then a
    else if a.wraps.flight.Some? then a.(wrapsPace := Backoff(a.wrapsPace, a.clock))
    else WrapsTo(a.(since := |a.sync.log|, reached := false), W.NextEntry(a.wraps, U.Waiting(a.wraps.page.outbox)))
  }

  function TickQueue(a: App): App {
    if QueueDue(a.sync.dev, a.queuePace, a.clock) then a.(sync := S.Sent(a.sync), byTick := true) else a
  }

  /** What the tick makes of its replay's reply; a tap makes nothing of one. */
  function Heeded(a: App, byTick: bool, reply: Reply): App {
    a.(queuePace := if byTick then Repaced(a.queuePace, reply, a.clock) else a.queuePace,
       signedIn := a.signedIn && !(byTick && reply == Reply.TokenOver))
  }

  ghost function Replied(policy: Server.Policy, a: App, move: S.Step, reply: Reply): App
    requires S.Can(a.sync, move)
  {
    Heeded(a.(sync := S.Next(policy, a.sync, move)), a.byTick, reply)
  }

  ghost function WrapsTurn(a: App, turn: W.Step): App
    requires W.Can(a.wraps, turn)
  {
    var b := WrapsTo(a.(reached := a.reached || turn.Answered?), W.Next(a.wraps, turn));
    if turn.Submit? && turn.wrapUpId in b.wraps.minted then b.(marks := b.marks[turn.wrapUpId := |b.sync.log|]) else b
  }

  // ---- sessions ----

  /** What a page that opens now does not find: pending, not stored, and not with the office. */
  function Dropped(w: S.World): set<Id> {
    set e | e in w.dev.pending && e !in Q.Own(w.dev.deviceId, w.dev.keptPending)
            && e.mutation.mutationId !in w.srv.replayed :: e.mutation.mutationId
  }

  /** The page opens on what storage holds. */
  ghost function Opened(policy: Server.Policy, a: App): App {
    a.(lost := a.lost + Dropped(a.sync), sync := S.Next(policy, a.sync, S.Reload), wraps := W.Next(a.wraps, W.Reload))
  }

  /** A sign-in makes a queue and wrap-ups of its own; the ones before them go on with what they await. */
  ghost function SignedIn(policy: Server.Policy, a: App): App {
    Opened(policy, a).(signedIn := true,
      formers := a.formers + if a.sync.dev.flight.Some? then [Former(a.sync.dev, a.sync.awaiting, a.byTick, |a.sync.log|)] else [],
      formerWraps := a.formerWraps + if a.wraps.flight.Some? || a.wraps.ops != [] then [LeftBehind(a)] else [])
  }

  function LeftBehind(a: App): FormerWraps {
    FormerWraps(a.wraps.page.drafts, a.wraps.page.outbox, a.wraps.ops, a.wraps.flight, a.since, a.reached)
  }

  function Without<T>(xs: seq<T>, k: nat): seq<T>
    requires k < |xs|
  {
    xs[..k] + xs[k + 1..]
  }

  function LateReplied(a: App, k: nat, reply: Reply): App
    requires k < |a.formers|
  {
    Heeded(a, a.formers[k].byTick, reply).(formers := Without(a.formers, k))
  }

  /** A queue left behind writes what it holds over what storage held. */
  function LateHeard(a: App, k: nat, n: nat): App
    requires k < |a.formers| && CanHear(a, a.formers[k], n)
  {
    LateReplied(a, k, Heard).(sync := a.sync.(dev := Q.LateWritten(a.sync.dev, a.formers[k].dev, a.sync.responses[n].answers)))
  }

  /** The wrap-ups left behind: their own drafts and outbox, over the storage, media, link and office there are now. */
  function WorldOf(a: App, f: FormerWraps): W.World {
    a.wraps.(page := a.wraps.page.(drafts := f.drafts, outbox := f.outbox), ops := f.ops, flight := f.flight)
  }

  ghost function LateTurn(a: App, k: nat, turn: W.Step): App
    requires k < |a.formerWraps| && W.Can(WorldOf(a, a.formerWraps[k]), turn)
  {
    var f := a.formerWraps[k];
    var w, reached := W.Next(WorldOf(a, f), turn), f.reached || turn.Answered?;
    a.(wraps := w.(page := w.page.(drafts := a.wraps.page.drafts, outbox := a.wraps.page.outbox), ops := a.wraps.ops,
                   flight := a.wraps.flight),
       formerWraps := a.formerWraps[k := FormerWraps(w.page.drafts, w.page.outbox, w.ops, w.flight, f.since, reached)],
       stamps := Stamped(a.stamps, a.wraps.calls, w.calls, f.since),
       wrapsPace := WrapsPaced(a.wrapsPace, f.flight, w.flight, reached, a.clock))
  }

  ghost function Next(policy: Server.Policy, a: App, s: Step): App
    requires Can(a, s)
  {
    match s
    case Wait(to) => a.(clock := to)
    case Tick => if a.signedIn then TickQueue(TickWraps(a)) else a
    case Tap => if Q.CanFlush(a.sync.dev) then a.(sync := S.Sent(a.sync), byTick := false) else a
    case Queue(move) => a.(sync := S.Next(policy, a.sync, move))
    case Answered(n) => Replied(policy, a, S.Receive(n), Heard)
    case Unanswered => Replied(policy, a, S.GiveUp, Unheard)
    case TokenOver => Replied(policy, a, S.GiveUp, Reply.TokenOver)
    case SignOut => a.(signedIn := false)
    case SignIn => SignedIn(policy, a)
    case Wraps(turn) => WrapsTurn(a, turn)
    case Reload =>
      Opened(policy, a).(signedIn := false, queuePace := AT_ONCE, wrapsPace := AT_ONCE, formers := [], formerWraps := [])
    case LateAnswered(k, n) => LateHeard(a, k, n)
    case LateUnanswered(k) => LateReplied(a, k, Unheard)
    case LateTokenOver(k) => LateReplied(a, k, Reply.TokenOver)
    case LateWraps(k, turn) => LateTurn(a, k, turn)
  }

  ghost predicate Start(a: App) {
    && S.Start(a.sync) && W.Start(a.wraps) && !a.signedIn && a.queuePace == AT_ONCE && a.wrapsPace == AT_ONCE
    && a.formers == [] && a.formerWraps == []
    && a.since == 0 && a.stamps == [] && a.marks == map[] && a.lost == {}
  }

  ghost predicate Run(policy: Server.Policy, a: App, steps: seq<Step>, a': App)
    decreases steps
  {
    if steps == [] then a' == a else Can(a, steps[0]) && Run(policy, Next(policy, a, steps[0]), steps[1..], a')
  }
}
