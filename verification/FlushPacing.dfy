/** How often the page tries the office, over every run: what the tick's pace bounds, and what it does not. */
module FlushPacing {
  import opened Common
  import opened Tick
  import opened Flushes
  import Q = OfflineQueue
  import S = SyncProtocol
  import SR = SyncRuns
  import W = WrapUpProtocol
  import Server = Replay

  /** Whether this tick puts a batch on the wire. */
  predicate Tries(a: App, s: Step) {
    s.Tick? && a.signedIn && QueueDue(a.sync.dev, a.queuePace, a.clock)
  }

  /** The batches the ticks of a run put on the wire. */
  ghost function TickTries(policy: Server.Policy, a: App, steps: seq<Step>, a': App): nat
    requires Run(policy, a, steps, a')
    decreases steps
  {
    if steps == [] then 0
    else (if Tries(a, steps[0]) then 1 else 0) + TickTries(policy, Next(policy, a, steps[0]), steps[1..], a')
  }

  /** What a step may add to the tries a pace leaves room for: an answer or a reload starts the pace over, and a
      session that ends may have a try under way that is never paid for. */
  function Extra(s: Step): nat {
    match s
    case Answered(_) => 6
    case LateAnswered(_, _) => 6
    case Reload => 6
    case TokenOver => 1
    case LateTokenOver(_) => 1
    case SignOut => 1
    case _ => 0
  }

  function Extras(steps: seq<Step>): nat {
    if steps == [] then 0 else Extra(steps[0]) + Extras(steps[1..])
  }

  function Taps(steps: seq<Step>): nat {
    if steps == [] then 0 else (if steps[0].Tap? then 1 else 0) + Taps(steps[1..])
  }

  /** Whether a try of the tick's own is under way. */
  predicate Trying(a: App) {
    a.byTick && a.sync.dev.flight.Some?
  }

  ghost predicate PaceOk(a: App) {
    FIRST_WAIT <= a.queuePace.delay <= LONGEST_WAIT && a.queuePace.at <= a.clock + a.queuePace.delay
  }

  function Later(at: int, now: nat): int {
    if at > now then at else now
  }

  /** The tries a pace leaves room for by `end` if nothing is answered; one under way is not counted again. */
  function Room(p: Pace, trying: bool, now: nat, end: nat): nat
    requires p.delay > 0
  {
    if trying then Left(Doubled(p.delay), now + p.delay, end) else Left(p.delay, Later(p.at, now), end)
  }

  ghost function RoomAt(a: App, end: nat): nat
    requires PaceOk(a)
  {
    Room(a.queuePace, a.signedIn && Trying(a), a.clock, end)
  }

  /** Only a flush puts a request on the wire, and only its end or a reload takes it from the queue. */
  lemma {:induction false} OtherMoves(policy: Server.Policy, w: S.World, move: S.Step)
    requires S.Can(w, move) && !move.Send?
    ensures S.Next(policy, w, move).requests == w.requests
    ensures S.Next(policy, w, move).dev.flight == if OfQueue(move) then w.dev.flight else None
  {
  }

  /** A try of the tick's own is known to have failed: this session's, or one before it. */
  predicate Backs(a: App, s: Step) {
    (s.Unanswered? && a.byTick) || (s.LateUnanswered? && s.former < |a.formers| && a.formers[s.former].byTick)
  }

  lemma {:induction false} NextKeepsPace(policy: Server.Policy, a: App, s: Step)
    requires Can(a, s) && PaceOk(a)
    ensures PaceOk(Next(policy, a, s)) && Next(policy, a, s).clock >= a.clock
  {
    hide W.Next, W.Can, W.NextEntry, S.Next, S.Can, Q.LateWritten, Dropped;
    match s
    case Queue(move) => OtherMoves(policy, a.sync, move);
    case Answered(n) => OtherMoves(policy, a.sync, S.Receive(n));
    case Unanswered => OtherMoves(policy, a.sync, S.GiveUp);
    case TokenOver => OtherMoves(policy, a.sync, S.GiveUp);
    case Tick =>
    case Tap =>
    case _ => OtherMoves(policy, a.sync, S.Reload);
  }

  lemma {:induction false} RoomIsSixAndOneAMinute(p: Pace, trying: bool, now: nat, end: nat)
    requires FIRST_WAIT <= p.delay <= LONGEST_WAIT && p.at <= now + p.delay && now <= end
    ensures (end - now) / 60_000 <= Room(p, trying, now, end) <= 6 + (end - now) / 60_000
  {
    SixAndOneAMinute(now, end);
    LaterLeavesLess(FIRST_WAIT, now, p.delay, Later(p.at, now), end);
    LaterLeavesLess(FIRST_WAIT, now, Doubled(p.delay), now + p.delay, end);
    AtLeastOneAMinute(p.delay, Later(p.at, now), now, end);
    AtLeastOneAMinute(Doubled(p.delay), now + p.delay, now, end);
  }

  /** Time only takes room away. */
  lemma {:induction false} TimeTakesRoom(p: Pace, trying: bool, now: nat, now': nat, end: nat)
    requires p.delay > 0 && now <= now'
    ensures Room(p, trying, now', end) <= Room(p, trying, now, end)
  {
    LaterLeavesLess(p.delay, Later(p.at, now), p.delay, Later(p.at, now'), end);
    LaterLeavesLess(Doubled(p.delay), now + p.delay, Doubled(p.delay), now' + p.delay, end);
  }

  /** A try made is one less to make. */
  lemma {:induction false} ATryCostsOne(p: Pace, now: nat, end: nat)
    requires p.delay > 0 && p.at <= now <= end
    ensures Room(p, false, now, end) == 1 + Room(p, true, now, end)
  {
  }

  /** One known to have failed leaves no more room than there was, even if another is under way. */
  lemma {:induction false} BackingTakesRoom(p: Pace, trying: bool, trying': bool, now: nat, end: nat)
    requires FIRST_WAIT <= p.delay <= LONGEST_WAIT && p.at <= now + p.delay && (trying' ==> trying)
    ensures Room(Backoff(p, now), trying', now, end) <= Room(p, trying, now, end)
  {
    var d := Doubled(p.delay);
    LaterLeavesLess(p.delay, Later(p.at, now), d, now + p.delay, end);
    LaterLeavesLess(d, now + p.delay, Doubled(d), now + d, end);
    LaterLeavesLess(p.delay, Later(p.at, now), Doubled(d), now + d, end);
  }

  /** One that is never known to have failed may be made again. */
  lemma {:induction false} ForgottenCostsOne(p: Pace, trying: bool, now: nat, end: nat)
    requires p.delay > 0
    ensures Room(p, false, now, end) <= 1 + Room(p, trying, now, end)
  {
    LaterLeavesLess(Doubled(p.delay), now + p.delay, Doubled(p.delay), Later(p.at, now) + p.delay, end);
  }

  /** What a step leaves of what the pace looks at. */
  ghost predicate Paces(a: App, s: Step, a': App) {
    && (Tries(a, s) ==> !Trying(a) && Trying(a') && a'.signedIn)
    && (Extra(s) != 6 ==> a'.queuePace == if Backs(a, s) then Backoff(a.queuePace, a.clock) else a.queuePace)
    && (!s.Wait? ==> a'.clock == a.clock)
    && (!Tries(a, s) && !Backs(a, s) && Extra(s) == 0 ==> (a'.signedIn && Trying(a')) == (a.signedIn && Trying(a)))
    && (!Tries(a, s) && a'.signedIn && Trying(a') ==> a.signedIn && Trying(a))
  }

  lemma {:induction false} PaceAfter(policy: Server.Policy, a: App, s: Step)
    requires Can(a, s) && PaceOk(a)
    ensures Paces(a, s, Next(policy, a, s))
  {
    hide Next, Can, Paces;
    match s
    case LateAnswered(_, _) => PaceAfterLate(policy, a, s);
    case LateUnanswered(_) => PaceAfterLate(policy, a, s);
    case LateTokenOver(_) => PaceAfterLate(policy, a, s);
    case LateWraps(_, _) => PaceAfterLate(policy, a, s);
    case _ => PaceAfterOthers(policy, a, s);
  }

  lemma {:induction false} PaceAfterLate(policy: Server.Policy, a: App, s: Step)
    requires Can(a, s) && (s.LateAnswered? || s.LateUnanswered? || s.LateTokenOver? || s.LateWraps?)
    ensures Paces(a, s, Next(policy, a, s))
  {
    hide W.Next, W.Can, S.Next, S.Can, Q.Answered;
  }

  lemma {:induction false} PaceAfterOthers(policy: Server.Policy, a: App, s: Step)
    requires Can(a, s) && PaceOk(a) && !s.LateAnswered? && !s.LateUnanswered? && !s.LateTokenOver? && !s.LateWraps?
    ensures Paces(a, s, Next(policy, a, s))
  {
    hide W.Next, W.Can, W.NextEntry, S.Next, S.Can, Q.LateWritten, Dropped;
    match s
    case Queue(move) => OtherMoves(policy, a.sync, move);
    case Answered(n) => OtherMoves(policy, a.sync, S.Receive(n));
    case Unanswered => OtherMoves(policy, a.sync, S.GiveUp);
    case TokenOver => OtherMoves(policy, a.sync, S.GiveUp);
    case Tick =>
    case Tap =>
    case _ => OtherMoves(policy, a.sync, S.Reload);
  }

  /** A try, and whatever else a step does, is paid for out of the room there was. */
  lemma {:induction false} StepIsPaidFor(policy: Server.Policy, a: App, s: Step, end: nat)
    requires Can(a, s) && PaceOk(a) && Next(policy, a, s).clock <= end
    ensures PaceOk(Next(policy, a, s))
    ensures (if Tries(a, s) then 1 else 0) + RoomAt(Next(policy, a, s), end) <= RoomAt(a, end) + Extra(s)
  {
    NextKeepsPace(policy, a, s);
    PaceAfter(policy, a, s);
    var a', p := Next(policy, a, s), a.queuePace;
    var was, trying := a.signedIn && Trying(a), a'.signedIn && Trying(a');
    hide Next, Can, Left, Room, Trying;
    if Extra(s) == 6 {
      RoomIsSixAndOneAMinute(p, was, a.clock, end);
      RoomIsSixAndOneAMinute(a'.queuePace, trying, a'.clock, end);
    } else if Tries(a, s) {
      ATryCostsOne(p, a.clock, end);
    } else if Backs(a, s) {
      BackingTakesRoom(p, was, trying, a.clock, end);
    } else if Extra(s) == 1 {
      ForgottenCostsOne(p, was, a.clock, end);
    } else {
      TimeTakesRoom(p, was, a.clock, a'.clock, end);
    }
  }

  lemma {:induction false} RunIsPaidFor(policy: Server.Policy, a: App, steps: seq<Step>, a': App)
    requires Run(policy, a, steps, a') && PaceOk(a)
    ensures a.clock <= a'.clock
    ensures TickTries(policy, a, steps, a') <= RoomAt(a, a'.clock) + Extras(steps)
    decreases steps
  {
    hide Next, Can, Room, Tries, Extra, PaceOk;
    if steps != [] {
      NextKeepsPace(policy, a, steps[0]);
      RunIsPaidFor(policy, Next(policy, a, steps[0]), steps[1..], a');
      StepIsPaidFor(policy, a, steps[0], a'.clock);
    }
  }

  /** A batch goes out with a tick that tries and with a tap that finds work and nothing under way. */
  lemma {:induction false} StepSends(policy: Server.Policy, a: App, s: Step)
    requires Can(a, s)
    ensures |Next(policy, a, s).sync.requests| == |a.sync.requests|
              + (if Tries(a, s) || (s.Tap? && Q.CanFlush(a.sync.dev)) then 1 else 0)
  {
    hide W.Next, W.Can, W.NextEntry, S.Next, S.Can, Q.LateWritten, Dropped;
    match s
    case Queue(move) => OtherMoves(policy, a.sync, move);
    case Answered(n) => OtherMoves(policy, a.sync, S.Receive(n));
    case Unanswered => OtherMoves(policy, a.sync, S.GiveUp);
    case TokenOver => OtherMoves(policy, a.sync, S.GiveUp);
    case Tick =>
    case Tap =>
    case _ => OtherMoves(policy, a.sync, S.Reload);
  }

  lemma {:induction false} RunSends(policy: Server.Policy, a: App, steps: seq<Step>, a': App)
    requires Run(policy, a, steps, a')
    ensures |a.sync.requests| + TickTries(policy, a, steps, a') <= |a'.sync.requests|
            <= |a.sync.requests| + TickTries(policy, a, steps, a') + Taps(steps)
    decreases steps
  {
    hide Next, Can;
    if steps != [] {
      StepSends(policy, a, steps[0]);
      RunSends(policy, Next(policy, a, steps[0]), steps[1..], a');
    }
  }

  /** Over every run the tick tries at most six times, once more for every full minute, six times more for every
      answer and every reload, and once more for every session that ends; and the taps send at most one batch each
      besides. In an outage that is left to the tick, six and one a minute. */
  lemma {:induction false} FewTriesInAnOutage(policy: Server.Policy, a: App, steps: seq<Step>, a': App)
    requires Run(policy, a, steps, a') && PaceOk(a)
    ensures a.clock <= a'.clock
    ensures TickTries(policy, a, steps, a') <= 6 + (a'.clock - a.clock) / 60_000 + Extras(steps)
    ensures |a'.sync.requests| - |a.sync.requests| <= 6 + (a'.clock - a.clock) / 60_000 + Extras(steps) + Taps(steps)
  {
    hide Run, Room, Taps, Extras;
    RunIsPaidFor(policy, a, steps, a');
    RoomIsSixAndOneAMinute(a.queuePace, a.signedIn && Trying(a), a.clock, a'.clock);
    RunSends(policy, a, steps, a');
  }

  /** The pace is in order at the start and after every run, so the bound holds of any stretch of one. */
  lemma {:induction false} EveryRunIsPaced(policy: Server.Policy, a: App, steps: seq<Step>, a': App)
    requires Run(policy, a, steps, a') && (Start(a) || PaceOk(a))
    ensures PaceOk(a')
    decreases steps
  {
    hide Next, Can;
    if steps != [] {
      NextKeepsPace(policy, a, steps[0]);
      EveryRunIsPaced(policy, Next(policy, a, steps[0]), steps[1..], a');
    }
  }

  // ---- the bound is met, and what it does not bound ----

  /** A signed-in page with work queued and no replay under way. */
  ghost predicate Idle(a: App) {
    PaceOk(a) && a.signedIn && Q.CanFlush(a.sync.dev)
  }

  ghost predicate Free(a: App) {
    Idle(a) && a.queuePace.at <= a.clock
  }

  lemma {:induction false} StepOn(policy: Server.Policy, a: App, s: Step, rest: seq<Step>, a': App)
    requires Can(a, s) && Run(policy, Next(policy, a, s), rest, a')
    ensures Run(policy, a, [s] + rest, a')
    ensures TickTries(policy, a, [s] + rest, a') == (if Tries(a, s) then 1 else 0) + TickTries(policy, Next(policy, a, s), rest, a')
    ensures Extras([s] + rest) == Extra(s) + Extras(rest) && Taps([s] + rest) == (if s.Tap? then 1 else 0) + Taps(rest)
  {
    hide Next, Can, Tries;
    assert ([s] + rest)[1..] == rest;
  }

  /** The page after a try that is lost at once. */
  ghost function Lost(policy: Server.Policy, a: App, s: Step): (b: App)
    requires Free(a) && (s == Tick || s == Tap)
    ensures Can(a, s) && Can(Next(policy, a, s), Unanswered) && b == Next(policy, Next(policy, a, s), Unanswered)
    ensures b == a.(sync := b.sync, byTick := s == Tick, queuePace := b.queuePace)
    ensures b.queuePace == (if s == Tick then Backoff(a.queuePace, a.clock) else a.queuePace)
    ensures Idle(b) && |b.sync.requests| == |a.sync.requests| + 1
    ensures Tries(a, s) <==> s == Tick
  {
    hide W.Next, W.Can, W.NextEntry;
    Next(policy, Next(policy, a, s), Unanswered)
  }

  lemma {:induction false} LostOn(policy: Server.Policy, a: App, s: Step, rest: seq<Step>, a': App)
    requires Free(a) && (s == Tick || s == Tap) && Run(policy, Lost(policy, a, s), rest, a')
    ensures Run(policy, a, [s, Unanswered] + rest, a')
    ensures TickTries(policy, a, [s, Unanswered] + rest, a')
         == (if s == Tick then 1 else 0) + TickTries(policy, Lost(policy, a, s), rest, a')
    ensures Extras([s, Unanswered] + rest) == Extras(rest)
    ensures Taps([s, Unanswered] + rest) == (if s == Tap then 1 else 0) + Taps(rest)
  {
    hide Next, Can, Run, Free;
    StepOn(policy, Next(policy, a, s), Unanswered, rest, a');
    StepOn(policy, a, s, [Unanswered] + rest, a');
    assert [s, Unanswered] + rest == [s] + ([Unanswered] + rest);
  }

  lemma {:induction false} Waited(policy: Server.Policy, a: App, to: nat)
    requires Free(a) && a.clock <= to
    ensures var b := Lost(policy, a, Tick);
      && Can(b, Wait(to)) && !Tries(b, Wait(to)) && Next(policy, b, Wait(to)) == b.(clock := to)
      && b.clock == a.clock && b.queuePace == Backoff(a.queuePace, a.clock)
      && (a.clock + a.queuePace.delay <= to ==> Free(b.(clock := to)))
  {
    hide Lost;
  }

  /** A run in which every try is made as soon as it may be and lost at once. */
  lemma {:induction false} EagerRun(policy: Server.Policy, a: App, end: nat) returns (steps: seq<Step>, a': App)
    requires Free(a) && a.clock <= end
    ensures Run(policy, a, steps, a') && a'.clock == end && Extras(steps) == 0 && Taps(steps) == 0
    ensures TickTries(policy, a, steps, a') == Left(a.queuePace.delay, a.clock, end)
    decreases end - a.clock
  {
    hide Next, Can, Free, Lost, Run, TickTries, Tries, Taps, Extras;
    var b := Lost(policy, a, Tick);
    var next := if a.clock + a.queuePace.delay <= end then a.clock + a.queuePace.delay else end;
    Waited(policy, a, next);
    var c := Next(policy, b, Wait(next));
    var rest: seq<Step> := [];
    a' := c;
    if a.clock + a.queuePace.delay <= end {
      rest, a' := EagerRun(policy, c, end);
    } else {
      NoSteps(policy, c);
    }
    StepOn(policy, b, Wait(next), rest, a');
    LostOn(policy, a, Tick, [Wait(next)] + rest, a');
    steps := [Tick, Unanswered] + ([Wait(next)] + rest);
  }

  lemma {:induction false} LostKeepsInv(policy: Server.Policy, a: App)
    requires Free(a) && S.Inv(a.sync)
    ensures S.Inv(Lost(policy, a, Tick).sync)
  {
    hide S.Inv, W.Next, W.Can, W.NextEntry;
    SR.SendKeeps(a.sync);
    SR.GiveUpKeeps(policy, S.Sent(a.sync));
  }

  /** A page reloaded and signed in again has the queue it had, and nothing to wait for. */
  lemma {:induction false} Returned(policy: Server.Policy, a: App)
    requires Idle(a) && S.Inv(a.sync)
    ensures Can(a, Reload) && Can(Next(policy, a, Reload), SignIn)
    ensures var c := Next(policy, Next(policy, a, Reload), SignIn); Free(c) && S.Inv(c.sync) && c.clock == a.clock
    ensures !Tries(a, Reload) && !Tries(Next(policy, a, Reload), SignIn)
  {
    hide S.Inv, S.Next, W.Next;
    var b := S.Next(policy, a.sync, S.Reload);
    SR.ReloadKeeps(policy, a.sync);
    SR.ReloadKeeps(policy, b);
    OtherMoves(policy, a.sync, S.Reload);
    OtherMoves(policy, b, S.Reload);
  }

  lemma {:induction false} NoSteps(policy: Server.Policy, a: App)
    ensures Run(policy, a, [], a) && TickTries(policy, a, [], a) == 0 && Extras([]) == 0 && Taps([]) == 0
  {
  }

  /** The tick's own bound is met whenever the time left after the full minutes is three seconds or more. */
  lemma {:induction false} BoundIsMet(policy: Server.Policy, a: App, end: nat) returns (steps: seq<Step>, a': App)
    requires Free(a) && a.queuePace.delay == FIRST_WAIT
    requires end - a.clock >= 63_000 && (end - a.clock) % 60_000 >= 3000
    ensures Run(policy, a, steps, a') && a'.clock == end && Extras(steps) == 0 && Taps(steps) == 0
    ensures TickTries(policy, a, steps, a') == 6 + (end - a.clock) / 60_000
  {
    hide Free, Run, TickTries;
    steps, a' := EagerRun(policy, a, end);
    SixAndOneAMinute(a.clock, end);
  }

  /** A tap sends with no regard to the pace: any number of them in one instant, each lost, sends that many batches. */
  lemma {:induction false} TapsAreNotPaced(policy: Server.Policy, a: App, n: nat) returns (steps: seq<Step>, a': App)
    requires Free(a)
    ensures Run(policy, a, steps, a') && a'.clock == a.clock && a'.queuePace == a.queuePace && Taps(steps) == n
    ensures Extras(steps) == 0 && |a'.sync.requests| == |a.sync.requests| + n
    decreases n
  {
    if n == 0 {
      steps, a' := [], a;
    } else {
      var b := Lost(policy, a, Tap);
      hide Next, Lost, Run, TickTries;
      var rest: seq<Step>;
      rest, a' := TapsAreNotPaced(policy, b, n - 1);
      LostOn(policy, a, Tap, rest, a');
      steps := [Tap, Unanswered] + rest;
    }
  }

  lemma {:induction false} ReturnedOn(policy: Server.Policy, a: App, rest: seq<Step>, a': App)
    requires Idle(a) && S.Inv(a.sync) && Can(a, Reload) && Can(Next(policy, a, Reload), SignIn)
    requires var c := Next(policy, Next(policy, a, Reload), SignIn); Free(c) && Run(policy, Lost(policy, c, Tick), rest, a')
    requires !Tries(a, Reload) && !Tries(Next(policy, a, Reload), SignIn)
    ensures var steps := [Reload] + ([SignIn] + ([Tick, Unanswered] + rest));
      && Run(policy, a, steps, a') && Taps(steps) == Taps(rest)
      && TickTries(policy, a, steps, a')
         == 1 + TickTries(policy, Lost(policy, Next(policy, Next(policy, a, Reload), SignIn), Tick), rest, a')
  {
    hide Next, Can, Lost, Run, TickTries, S.Inv, Free, Taps, Extras, Tries;
    var b := Next(policy, a, Reload);
    var c := Next(policy, b, SignIn);
    LostOn(policy, c, Tick, rest, a');
    StepOn(policy, b, SignIn, [Tick, Unanswered] + rest, a');
    StepOn(policy, a, Reload, [SignIn] + ([Tick, Unanswered] + rest), a');
  }

  /** So does a reload: it starts the pace over, and any number of them in one instant lets the tick try that often. */
  lemma {:induction false} ReloadsAreNotPaced(policy: Server.Policy, a: App, n: nat) returns (steps: seq<Step>, a': App)
    requires Idle(a) && S.Inv(a.sync)
    ensures Run(policy, a, steps, a') && a'.clock == a.clock && Taps(steps) == 0
    ensures TickTries(policy, a, steps, a') == n
    decreases n
  {
    hide Next, Can, Lost, Run, TickTries, S.Inv, Free, Taps, Extras, Tries;
    if n == 0 {
      steps, a' := [], a;
      NoSteps(policy, a);
    } else {
      Returned(policy, a);
      var b := Next(policy, a, Reload);
      var c := Next(policy, b, SignIn);
      LostKeepsInv(policy, c);
      var rest: seq<Step>;
      rest, a' := ReloadsAreNotPaced(policy, Lost(policy, c, Tick), n - 1);
      ReturnedOn(policy, a, rest, a');
      steps := [Reload] + ([SignIn] + ([Tick, Unanswered] + rest));
    }
  }
}
