/** The server's punches and the device's queued ones put together, and a week cut into days. */
module PunchWeeks {
  import opened Common
  import opened Punches

  // ---- merging ----

  /** A stable sort: a punch goes in after those no later than it. */
  function InsertLate(punches: seq<Punch>, p: Punch): (r: seq<Punch>)
    ensures multiset(r) == multiset(punches) + multiset{p}
  {
    if punches == [] then [p]
    else
      var n := |punches| - 1;
      assert punches == punches[..n] + [punches[n]];
      if punches[n].at <= p.at then punches + [p] else InsertLate(punches[..n], p) + [punches[n]]
  }

  function Sorted(punches: seq<Punch>): (r: seq<Punch>)
    ensures multiset(r) == multiset(punches)
  {
    if punches == [] then []
    else
      var n := |punches| - 1;
      assert punches == punches[..n] + [punches[n]];
      InsertLate(Sorted(punches[..n]), punches[n])
  }

  /** The server's punches and this device's queued ones, oldest first. */
  function Merged(server: seq<Punch>, pending: seq<Punch>): seq<Punch> {
    Sorted(server + pending)
  }

  lemma {:induction false} InsertKeepsOrder(punches: seq<Punch>, p: Punch)
    requires InOrder(punches)
    ensures InOrder(InsertLate(punches, p))
  {
    if punches != [] && punches[|punches| - 1].at > p.at {
      var n := |punches| - 1;
      var r := InsertLate(punches[..n], p);
      InsertKeepsOrder(punches[..n], p);
      forall x | x in r ensures x.at <= punches[n].at {
        assert x in multiset(r) && multiset(r) == multiset(punches[..n]) + multiset{p};
        assert x == p || x in punches[..n];
      }
    }
  }

  lemma {:induction false} SortedIsInOrder(punches: seq<Punch>)
    ensures InOrder(Sorted(punches))
  {
    if punches != [] {
      SortedIsInOrder(punches[..|punches| - 1]);
      InsertKeepsOrder(Sorted(punches[..|punches| - 1]), punches[|punches| - 1]);
    }
  }

  /** Merged are the server's punches and the device's, each as often as it is on either side, oldest first. */
  lemma {:induction false} MergedHasBoth(server: seq<Punch>, pending: seq<Punch>)
    ensures multiset(Merged(server, pending)) == multiset(server) + multiset(pending) && InOrder(Merged(server, pending))
  {
    SortedIsInOrder(server + pending);
  }

  // ---- a punch on both sides ----

  /** A punch right after another of its kind pairs with nothing. */
  lemma {:induction false} SecondOfAKind(xs: seq<Punch>, p: Punch, d: Punch, ys: seq<Punch>)
    requires d.kind == p.kind
    ensures PairAll(xs + [p, d] + ys) == PairAll(xs + [p] + ys)
    decreases |ys|
  {
    if ys == [] {
      assert (xs + [p, d] + ys)[..|xs| + 1] == xs + [p] == xs + [p] + ys;
      assert (xs + [p])[..|xs|] == xs;
    } else {
      var n := |ys| - 1;
      SecondOfAKind(xs, p, d, ys[..n]);
      assert (xs + [p, d] + ys)[..|xs| + 2 + n] == xs + [p, d] + ys[..n];
      assert (xs + [p] + ys)[..|xs| + 1 + n] == xs + [p] + ys[..n];
    }
  }

  /** `d` put in after place `k`. */
  function With(s: seq<Punch>, k: nat, d: Punch): seq<Punch>
    requires k <= |s|
  {
    s[..k] + [d] + s[k..]
  }

  predicate Twin(s: seq<Punch>, k: nat, d: Punch) {
    0 < k <= |s| && s[k - 1].kind == d.kind && s[k - 1].at == d.at
  }

  lemma {:induction false} WithSnoc(s: seq<Punch>, k: nat, d: Punch, x: Punch)
    requires k <= |s|
    ensures With(s + [x], k, d) == With(s, k, d) + [x] && With(s, |s|, d) == s + [d]
  {
  }

  lemma {:induction false} InsertSnoc(s: seq<Punch>, y: Punch, x: Punch)
    ensures InsertLate(s + [y], x) == if y.at <= x.at then s + [y] + [x] else InsertLate(s, x) + [y]
  {
    assert (s + [y])[..|s|] == s;
  }

  lemma {:induction false} InsertTwin(s: seq<Punch>, k: nat, d: Punch)
    requires InOrder(s) && Twin(s, k, d) && forall i :: 0 <= i < |s| && i != k - 1 ==> s[i].at != d.at
    ensures InsertLate(s, d) == With(s, k, d)
    decreases |s|
  {
    hide With;
    var n := |s| - 1;
    assert s[..n] + [s[n]] == s;
    if k == |s| {
      WithSnoc(s, k, d, d);
    } else {
      assert s[k - 1].at <= s[n].at;
      InsertTwin(s[..n], k, d);
      WithSnoc(s[..n], k, d, s[n]);
    }
  }

  lemma {:induction false} InsertBeside(s: seq<Punch>, k: nat, d: Punch, x: Punch) returns (k': nat)
    requires Twin(s, k, d) && x.at != d.at
    ensures Twin(InsertLate(s, x), k', d) && InsertLate(With(s, k, d), x) == With(InsertLate(s, x), k', d)
    decreases |s|
  {
    hide With, InsertLate;
    var n := |s| - 1;
    var init, last := s[..n], s[n];
    assert s == init + [last];
    InsertSnoc(init, last, x);
    if k == |s| {
      WithSnoc(s, k, d, x);
      InsertSnoc(s, d, x);
      if d.at <= x.at {
        k' := k;
      } else {
        Longer(s, x);
        k' := |s| + 1;
        WithSnoc(InsertLate(s, x), k', d, x);
      }
    } else {
      WithSnoc(init, k, d, last);
      InsertSnoc(With(init, k, d), last, x);
      if last.at <= x.at {
        k' := k;
        WithSnoc(s, k, d, x);
      } else {
        k' := InsertBeside(init, k, d, x);
        WithSnoc(InsertLate(init, x), k', d, last);
      }
    }
  }

  lemma {:induction false} Longer(s: seq<Punch>, x: Punch)
    ensures |InsertLate(s, x)| == |s| + 1
  {
    assert |multiset(InsertLate(s, x))| == |multiset(s) + multiset{x}|;
  }

  /** Sorted with its twin in the list, a punch comes right after it. */
  lemma {:induction false} SortedBesideTwin(a: seq<Punch>, m: nat, d: Punch, b: seq<Punch>) returns (k: nat)
    requires m < |a| && a[m].kind == d.kind && a[m].at == d.at
    requires (forall i :: 0 <= i < |a| && i != m ==> a[i].at != d.at) && forall x: Punch :: x in b ==> x.at != d.at
    ensures Twin(Sorted(a + b), k, d) && Sorted(a + [d] + b) == With(Sorted(a + b), k, d)
    decreases |b|
  {
    hide With, InsertLate, Sorted;
    if b == [] {
      assert a + b == a && a + [d] + b == a + [d];
      SortedSnoc(a, d);
      k := TwinSorted(a, m, d);
      SortedIsInOrder(a);
      InsertTwin(Sorted(a), k, d);
    } else {
      var n := |b| - 1;
      var k0 := SortedBesideTwin(a, m, d, b[..n]);
      assert a + b == a + b[..n] + [b[n]] && a + [d] + b == a + [d] + b[..n] + [b[n]];
      SortedSnoc(a + b[..n], b[n]);
      SortedSnoc(a + [d] + b[..n], b[n]);
      k := InsertBeside(Sorted(a + b[..n]), k0, d, b[n]);
    }
  }

  lemma {:induction false} SortedSnoc(s: seq<Punch>, x: Punch)
    ensures Sorted(s + [x]) == InsertLate(Sorted(s), x)
  {
    assert (s + [x])[..|s|] == s;
  }

  /** The sorted list has the twin at one place, and nothing else of its time. */
  lemma {:induction false} TwinSorted(a: seq<Punch>, m: nat, d: Punch) returns (k: nat)
    requires m < |a| && a[m].kind == d.kind && a[m].at == d.at
    requires forall i :: 0 <= i < |a| && i != m ==> a[i].at != d.at
    ensures Twin(Sorted(a), k, d) && forall i :: 0 <= i < |Sorted(a)| && i != k - 1 ==> Sorted(a)[i].at != d.at
    decreases |a|
  {
    hide Sorted, InsertLate;
    var n := |a| - 1;
    assert a == a[..n] + [a[n]];
    SortedSnoc(a[..n], a[n]);
    if m == n {
      forall x | x in Sorted(a[..n]) ensures x.at != d.at {
        assert x in multiset(Sorted(a[..n])) && x in a[..n];
      }
      k := InsertedOnce(Sorted(a[..n]), a[n], d);
    } else {
      var k0 := TwinSorted(a[..n], m, d);
      k := StillOnce(Sorted(a[..n]), k0, d, a[n]);
    }
  }

  lemma {:induction false} NothingBefore(p: Punch)
    ensures InsertLate([], p) == [p]
  {
  }

  lemma {:induction false} InsertedOnce(s: seq<Punch>, p: Punch, d: Punch) returns (k: nat)
    requires p.kind == d.kind && p.at == d.at && forall x: Punch :: x in s ==> x.at != d.at
    ensures var r := InsertLate(s, p); Twin(r, k, d) && forall i :: 0 <= i < |r| && i != k - 1 ==> r[i].at != d.at
    decreases |s|
  {
    hide InsertLate;
    var n := |s| - 1;
    assert InsertLate([], p) == [p] by { NothingBefore(p); }
    if s != [] {
      assert s == s[..n] + [s[n]];
      InsertSnoc(s[..n], s[n], p);
    }
    if s == [] || s[n].at <= p.at {
      k := |s| + 1;
    } else {
      k := InsertedOnce(s[..n], p, d);
    }
  }

  lemma {:induction false} StillOnce(s: seq<Punch>, k: nat, d: Punch, x: Punch) returns (k': nat)
    requires Twin(s, k, d) && x.at != d.at && forall i :: 0 <= i < |s| && i != k - 1 ==> s[i].at != d.at
    ensures var r := InsertLate(s, x); Twin(r, k', d) && forall i :: 0 <= i < |r| && i != k' - 1 ==> r[i].at != d.at
    decreases |s|
  {
    hide InsertLate;
    var n := |s| - 1;
    assert s == s[..n] + [s[n]];
    InsertSnoc(s[..n], s[n], x);
    if s[n].at <= x.at {
      k' := k;
    } else if k == |s| {
      forall y | y in InsertLate(s[..n], x) ensures y.at != d.at {
        assert y in multiset(InsertLate(s[..n], x));
        assert y == x || y in s[..n];
      }
      Longer(s[..n], x);
      k' := |s| + 1;
    } else {
      k' := StillOnce(s[..n], k, d, x);
    }
  }

  /** A queued punch the server already holds, the only other one of its time, changes no span. */
  lemma {:induction false} PunchOnBothSides(server: seq<Punch>, m: nat, before: seq<Punch>, d: Punch, after: seq<Punch>)
    requires m < |server| && server[m].kind == d.kind && server[m].at == d.at
    requires forall i :: 0 <= i < |server| && i != m ==> server[i].at != d.at
    requires forall x: Punch :: x in before + after ==> x.at != d.at
    ensures Spans(Merged(server, before + [d] + after)) == Spans(Merged(server, before + after))
  {
    hide Sorted, PairAll;
    var a := server + before;
    forall i | 0 <= i < |a| && i != m ensures a[i].at != d.at {
      assert i >= |server| ==> a[i] in before + after;
    }
    forall x: Punch | x in after ensures x.at != d.at {
      assert x in before + after;
    }
    var k := SortedBesideTwin(a, m, d, after);
    assert server + (before + [d] + after) == a + [d] + after && server + (before + after) == a + after;
    var s := Sorted(a + after);
    assert With(s, k, d) == s[..k - 1] + [s[k - 1], d] + s[k..];
    assert s == s[..k - 1] + [s[k - 1]] + s[k..];
    SecondOfAKind(s[..k - 1], s[k - 1], d, s[k..]);
  }

  // ---- the week ----

  function SpanMs(s: Span, now: int): nat {
    var ms := (if s.end.Some? then s.end.value else now) - s.start;
    if ms > 0 then ms else 0
  }

  function Total(spans: seq<Span>, now: int): nat {
    if spans == [] then 0 else Total(spans[..|spans| - 1], now) + SpanMs(spans[|spans| - 1], now)
  }

  /** The spans that started from `from` to before `to`, in order. */
  function StartedIn(spans: seq<Span>, from: int, to: int): seq<Span> {
    if spans == [] then []
    else
      var s := spans[|spans| - 1];
      StartedIn(spans[..|spans| - 1], from, to) + if from <= s.start < to then [s] else []
  }

  datatype Day = Day(spans: seq<Span>, ms: nat)

  /** Day boundaries: midnights, ascending. */
  predicate Midnights(days: seq<int>) {
    days != [] && forall i, j :: 0 <= i < j < |days| ==> days[i] < days[j]
  }

  function DayOf(spans: seq<Span>, from: int, to: int, now: int): Day {
    Day(StartedIn(spans, from, to), Total(StartedIn(spans, from, to), now))
  }

  /** Each day with the spans that started on it. */
  function DaysOf(spans: seq<Span>, days: seq<int>, now: int): (r: seq<Day>)
    requires days != []
    ensures |r| == |days| - 1 && forall i :: 0 <= i < |r| ==> r[i] == DayOf(spans, days[i], days[i + 1], now)
  {
    seq(|days| - 1, i requires 0 <= i < |days| - 1 => DayOf(spans, days[i], days[i + 1], now))
  }

  function WeekTotal(week: seq<Day>): nat {
    if week == [] then 0 else WeekTotal(week[..|week| - 1]) + week[|week| - 1].ms
  }

  predicate FallsOn(days: seq<int>, k: nat, t: int) {
    k < |days| - 1 && days[k] <= t < days[k + 1]
  }

  lemma {:induction false} DaysAscend(days: seq<int>, j: nat, k: nat)
    requires Midnights(days) && j < k < |days|
    ensures days[j + 1] <= days[k]
  {
  }

  /** The day a moment of the week falls on: there is one, and no other. */
  lemma {:induction false} OnOneDay(days: seq<int>, t: int) returns (k: nat)
    requires Midnights(days) && days[0] <= t < days[|days| - 1]
    ensures FallsOn(days, k, t) && forall j: nat :: FallsOn(days, j, t) ==> j == k
    decreases |days|
  {
    var n := |days| - 1;
    if t >= days[n - 1] {
      k := n - 1;
    } else {
      k := OnOneDay(days[..n], t);
    }
    forall j: nat | FallsOn(days, j, t) ensures j == k {
      if j < k {
        DaysAscend(days, j, k);
      } else if k < j {
        DaysAscend(days, k, j);
      }
    }
  }

  lemma {:induction false} LastStarted(spans: seq<Span>, a: int, b: int, now: int)
    requires spans != []
    ensures var n := |spans| - 1;
      Total(StartedIn(spans, a, b), now)
      == Total(StartedIn(spans[..n], a, b), now) + if a <= spans[n].start < b then SpanMs(spans[n], now) else 0
  {
    var n := |spans| - 1;
    var before := StartedIn(spans[..n], a, b);
    if a <= spans[n].start < b {
      assert (before + [spans[n]])[..|before|] == before;
    } else {
      assert before + [] == before;
    }
  }

  /** Two stretches of days end to end. */
  lemma {:induction false} StretchesAdd(spans: seq<Span>, a: int, b: int, c: int, now: int)
    requires a <= b <= c
    ensures Total(StartedIn(spans, a, c), now) == Total(StartedIn(spans, a, b), now) + Total(StartedIn(spans, b, c), now)
    decreases |spans|
  {
    if spans != [] {
      hide Total, StartedIn, SpanMs;
      StretchesAdd(spans[..|spans| - 1], a, b, c, now);
      LastStarted(spans, a, c, now);
      LastStarted(spans, a, b, now);
      LastStarted(spans, b, c, now);
    }
  }

  lemma {:induction false} NoDay(spans: seq<Span>, a: int, now: int)
    ensures Total(StartedIn(spans, a, a), now) == 0
    decreases |spans|
  {
    if spans != [] {
      hide Total, StartedIn;
      NoDay(spans[..|spans| - 1], a, now);
      LastStarted(spans, a, a, now);
    }
  }

  /** The days' totals come to the worked time of exactly the spans that started in the week. */
  lemma {:induction false} DaysAddUp(spans: seq<Span>, days: seq<int>, now: int)
    requires Midnights(days)
    ensures WeekTotal(DaysOf(spans, days, now)) == Total(StartedIn(spans, days[0], days[|days| - 1]), now)
    decreases |days|
  {
    hide Total, StartedIn;
    var n := |days| - 1;
    if n == 0 {
      NoDay(spans, days[0], now);
    } else {
      DaysAddUp(spans, days[..n], now);
      var week := DaysOf(spans, days, now);
      assert week[..n - 1] == DaysOf(spans, days[..n], now);
      assert days[0] <= days[n - 1];
      StretchesAdd(spans, days[0], days[n - 1], days[n], now);
    }
  }
}
