/** The one-second tick: what it sends, how long it waits after no answer came, and how many tries that leaves room for. */
module Tick {
  import opened Common
  import Sync = OfflineQueue
  import Wraps = WrapUps
  import Wire = SyncWire

  const FIRST_WAIT: nat := 1000
  const LONGEST_WAIT: nat := 60_000

  /** When the next try may go, and how long to wait if it gets no answer either. */
  datatype Pace = Pace(at: int, delay: nat)

  const AT_ONCE := Pace(0, FIRST_WAIT)

  function Doubled(delay: nat): nat {
    if delay * 2 < LONGEST_WAIT then delay * 2 else LONGEST_WAIT
  }

  function Backoff(p: Pace, now: int): Pace {
    Pace(now + p.delay, Doubled(p.delay))
  }

  /** What became of a replay the tick sent. A token refused ends the session. */
  datatype Reply = Heard | Unheard | TokenOver

  function Repaced(p: Pace, reply: Reply, now: int): Pace {
    match reply
    case Heard => AT_ONCE
    case Unheard => Backoff(p, now)
    case TokenOver => p
  }

  predicate QueueDue(d: Sync.Device, p: Pace, now: int) {
    Sync.CanFlush(d) && now >= p.at
  }

  /** Wrap-ups go only once the sync queue is empty: what puts a job in progress reaches the office first. */
  predicate WrapsDue(d: Sync.Device, page: Wraps.Page, p: Pace, now: int) {
    d.pending == [] && Wraps.Waiting(page.outbox) != [] && now >= p.at
  }

  class Ticker {
    var signedIn: bool
    var queuePace: Pace
    var wrapsPace: Pace

    constructor ()
      ensures !signedIn && queuePace == AT_ONCE && wrapsPace == AT_ONCE
    {
      signedIn, queuePace, wrapsPace := false, AT_ONCE, AT_ONCE;
    }

    /** One tick: the batch put on the wire, and whether the wrap-ups' flush is called. */
    method Tick(now: int, queue: Sync.Queue, book: Wraps.WrapUpBook) returns (batch: Option<seq<Wire.Mutation>>, sendWraps: bool)
      modifies queue`flight
      ensures sendWraps <==> signedIn && WrapsDue(old(queue.Value()), old(book.Value()), wrapsPace, now)
      ensures queue.Value() == if signedIn && QueueDue(old(queue.Value()), queuePace, now)
                               then Sync.Flushing(old(queue.Value())) else old(queue.Value())
      ensures batch.Some? <==> signedIn && QueueDue(old(queue.Value()), queuePace, now)
      ensures batch.Some? ==> batch.value == Sync.Mutations(old(queue.pending))
    {
      batch, sendWraps := None, false;
      if !signedIn {
        return;
      }
      if |queue.pending| == 0 && now >= wrapsPace.at {
        sendWraps := SomeWaiting(book.outbox);
      }
      if |queue.pending| > 0 && now >= queuePace.at && queue.flight.None? {
        batch := queue.BeginFlush();
      }
    }

    method QueueFlushed(reply: Reply, now: int)
      modifies this`queuePace, this`signedIn
      ensures queuePace == Repaced(old(queuePace), reply, now)
      ensures signedIn == (old(signedIn) && reply != TokenOver)
    {
      if reply == Heard {
        queuePace := AT_ONCE;
        return;
      }
      if reply == TokenOver {
        signedIn := false;
        return;
      }
      queuePace := Backoff(queuePace, now);
    }

    method WrapsFlushed(reached: bool, now: int)
      modifies this`wrapsPace
      ensures wrapsPace == Repaced(old(wrapsPace), if reached then Heard else Unheard, now)
    {
      if reached {
        wrapsPace := AT_ONCE;
        return;
      }
      wrapsPace := Backoff(wrapsPace, now);
    }
  }

  method SomeWaiting(outbox: seq<Wraps.Entry>) returns (some: bool)
    ensures some <==> Wraps.Waiting(outbox) != []
  {
    var i := 0;
    while i < |outbox|
      invariant 0 <= i <= |outbox|
      invariant Wraps.Waiting(outbox) == Wraps.Waiting(outbox[i..])
    {
      if outbox[i].refused.None? {
        return true;
      }
      assert outbox[i..][1..] == outbox[i + 1..];
      i := i + 1;
    }
    return false;
  }

  // ---- how long the waits are ----

  /** The pace after misses at these moments, one after the other. */
  function Missed(p: Pace, at: seq<int>): Pace {
    if at == [] then p else Repaced(Missed(p, at[..|at| - 1]), Unheard, at[|at| - 1])
  }

  /** The waits after one miss, two, and so on: a second, and twice as long each time, up to a minute. */
  function WaitAfter(misses: nat): nat
    requires misses > 0
  {
    if misses == 1 then 1000 else if misses == 2 then 2000 else if misses == 3 then 4000 else if misses == 4 then 8000
    else if misses == 5 then 16_000 else if misses == 6 then 32_000 else 60_000
  }

  lemma {:induction false} MissedDelay(at: seq<int>)
    ensures Missed(AT_ONCE, at).delay == WaitAfter(|at| + 1)
  {
    if at != [] {
      MissedDelay(at[..|at| - 1]);
    }
  }

  /** An answer, whatever the pace was, lets the next try go at once; each miss after it puts the next off by a second, then
      two, four and so on, never over a minute; and a session's end leaves the pace as it was. */
  lemma {:induction false} WaitsDouble(p: Pace, answered: int, at: seq<int>, now: int)
    requires at != []
    ensures var heard := Repaced(p, Heard, answered);
      && (now >= 0 ==> now >= heard.at)
      && Missed(heard, at).at == at[|at| - 1] + WaitAfter(|at|)
      && Repaced(p, TokenOver, answered) == p
  {
    MissedDelay(at[..|at| - 1]);
  }

  // ---- how many tries fit ----

  /** How many tries can still go by `end` when the next may go at `at`, each one lost at once. */
  function Left(delay: nat, at: int, end: int): (n: nat)
    requires delay > 0
    decreases if at > end then 0 else end - at + 1
  {
    if at > end then 0 else 1 + Left(Doubled(delay), at + delay, end)
  }

  /** Waiting longer never leaves room for more. */
  lemma {:induction false} LaterLeavesLess(delay: nat, at: int, delay': nat, at': int, end: int)
    requires 0 < delay <= delay' && at <= at'
    ensures Left(delay', at', end) <= Left(delay, at, end)
    decreases if at' > end then 0 else end - at' + 1
  {
    if at' <= end {
      LaterLeavesLess(Doubled(delay), at + delay, Doubled(delay'), at' + delay', end);
    }
  }

  lemma {:induction false} OneAMinute(at: int, end: int)
    ensures Left(LONGEST_WAIT, at, end) == if at > end then 0 else 1 + (end - at) / 60_000
    decreases if at > end then 0 else end - at + 1
  {
    if at <= end {
      OneAMinute(at + 60_000, end);
    }
  }

  /** From the first wait on, at most six and one for every full minute; exactly that many if the time left is
      three seconds and some full minutes. */
  lemma {:induction false} SixAndOneAMinute(at: int, end: int)
    requires at <= end
    ensures Left(FIRST_WAIT, at, end) <= 6 + (end - at) / 60_000
    ensures end - at >= 63_000 && (end - at) % 60_000 >= 3000 ==> Left(FIRST_WAIT, at, end) == 6 + (end - at) / 60_000
  {
    OneAMinute(at + 63_000, end);
    assert Left(32_000, at + 31_000, end) == if at + 31_000 > end then 0 else 1 + Left(60_000, at + 63_000, end);
    assert Left(16_000, at + 15_000, end) == if at + 15_000 > end then 0 else 1 + Left(32_000, at + 31_000, end);
    assert Left(8000, at + 7000, end) == if at + 7000 > end then 0 else 1 + Left(16_000, at + 15_000, end);
    assert Left(4000, at + 3000, end) == if at + 3000 > end then 0 else 1 + Left(8000, at + 7000, end);
    assert Left(2000, at + 1000, end) == if at + 1000 > end then 0 else 1 + Left(4000, at + 3000, end);
  }

  /** However long the wait has grown, it is never over a minute, so a minute's worth is always left. */
  lemma {:induction false} AtLeastOneAMinute(delay: nat, at: int, now: int, end: int)
    requires 0 < delay <= LONGEST_WAIT && at <= now + LONGEST_WAIT && now <= end
    ensures Left(delay, at, end) >= (end - now) / 60_000
  {
    LaterLeavesLess(delay, at, LONGEST_WAIT, now + 60_000, end);
    OneAMinute(now + 60_000, end);
  }
}
