/** Which punches a span is made of, which spans a day has, and how long they come to. */
module PunchTimes {
  import opened Common
  import opened Punches
  import opened PunchWeeks

  // ---- what a span is made of ----

  /** An in at `j`, and the first out after it, at `k`; it is queued if either is. */
  ghost predicate ClosedBy(punches: seq<Punch>, s: Span, j: nat, k: nat) {
    && j < k < |punches| && punches[j].kind == In && punches[k].kind == Out
    && (forall i :: j < i < k ==> punches[i].kind == In)
    && s.start == punches[j].at && s.end == Some(punches[k].at) && (s.queued <==> punches[j].queued || punches[k].queued)
  }

  /** An in at `j` with no out after it. */
  ghost predicate LeftOpen(punches: seq<Punch>, s: Span, j: nat) {
    && j < |punches| && punches[j].kind == In && (forall i :: j < i < |punches| ==> punches[i].kind == In)
    && s.start == punches[j].at && s.end == None && (s.queued <==> punches[j].queued)
  }

  ghost predicate MadeOf(punches: seq<Punch>, s: Span) {
    if s.end.Some? then exists j, k :: ClosedBy(punches, s, j, k) else exists j :: LeftOpen(punches, s, j)
  }

  lemma {:induction false} ClosedStays(punches: seq<Punch>, p: Punch, s: Span)
    requires s.end.Some? && MadeOf(punches, s)
    ensures MadeOf(punches + [p], s)
  {
    var j, k :| ClosedBy(punches, s, j, k);
    assert ClosedBy(punches + [p], s, j, k);
  }

  lemma {:induction false} PairsAreMadeOf(punches: seq<Punch>)
    ensures var s := PairAll(punches);
      && (forall x :: x in s.closed ==> x.end.Some? && MadeOf(punches, x))
      && (s.open.Some? ==> exists j :: LeftOpen(punches, Span(s.open.value.at, None, s.open.value.queued), j))
  {
    if punches != [] {
      var n := |punches| - 1;
      var init, p := punches[..n], punches[n];
      PairsAreMadeOf(init);
      assert init + [p] == punches;
      var before, s := PairAll(init), PairAll(punches);
      forall x | x in before.closed ensures x.end.Some? && MadeOf(punches, x) {
        ClosedStays(init, p, x);
      }
      if before.open.Some? {
        var o := Span(before.open.value.at, None, before.open.value.queued);
        var j :| LeftOpen(init, o, j);
        if p.kind == Out {
          var x := Span(o.start, Some(p.at), o.queued || p.queued);
          assert ClosedBy(punches, x, j, n);
          assert s.closed == before.closed + [x];
        } else {
          assert LeftOpen(punches, o, j);
        }
      } else if p.kind == In {
        assert LeftOpen(punches, Span(p.at, None, p.queued), n);
      }
    }
  }

  /** A span is an in and the first out after it, or the last in with no out after; queued exactly if one of its punches
      still is. */
  lemma {:induction false} EverySpanIsMadeOf(punches: seq<Punch>)
    ensures forall s :: s in Spans(punches) ==> MadeOf(punches, s)
  {
    PairsAreMadeOf(punches);
  }

  // ---- how long ----

  /** From `from` to just before `to`. */
  predicate During(t: int, from: int, to: int) {
    from <= t < to
  }

  ghost function Stretch(from: int, to: int): set<int> {
    set t | from <= t < to && During(t, from, to)
  }

  /** The milliseconds of a span: to its end, or to now if it has none yet. */
  ghost function Moments(s: Span, now: int): set<int> {
    Stretch(s.start, if s.end.Some? then s.end.value else now)
  }

  ghost function AllMoments(spans: seq<Span>, now: int): set<int> {
    set s, t | s in spans && t in Moments(s, now) :: t
  }

  lemma {:induction false} StretchHas(from: int, to: int, t: int)
    ensures t in Stretch(from, to) <==> from <= t < to
  {
    assert During(t, from, to) <==> from <= t < to;
  }

  lemma {:induction false} CountOf(from: int, to: int)
    ensures |Stretch(from, to)| == if from <= to then to - from else 0
    decreases if from < to then to - from else 0
  {
    hide Stretch;
    if from < to {
      CountOf(from, to - 1);
      forall t ensures t in Stretch(from, to) <==> t in Stretch(from, to - 1) + {to - 1} {
        StretchHas(from, to, t);
        StretchHas(from, to - 1, t);
      }
      StretchHas(from, to - 1, to - 1);
      assert Stretch(from, to) == Stretch(from, to - 1) + {to - 1};
    } else {
      forall t ensures t !in Stretch(from, to) {
        StretchHas(from, to, t);
      }
      assert Stretch(from, to) == {};
    }
  }

  /** A span's time is the number of its milliseconds: none, where it would end before it starts. */
  lemma {:induction false} SpanMsCounts(s: Span, now: int)
    ensures SpanMs(s, now) == |Moments(s, now)|
  {
    hide Stretch;
    CountOf(s.start, if s.end.Some? then s.end.value else now);
  }

  lemma {:induction false} MomentsSnoc(spans: seq<Span>, s: Span, now: int)
    ensures AllMoments(spans + [s], now) == AllMoments(spans, now) + Moments(s, now)
  {
    hide Moments;
    forall t | t in AllMoments(spans, now) ensures t in AllMoments(spans + [s], now) {
      var x :| x in spans && t in Moments(x, now);
      assert x in spans + [s];
    }
    forall t | t in Moments(s, now) ensures t in AllMoments(spans + [s], now) {
      assert s in spans + [s];
    }
  }

  lemma {:induction false} InitIsApart(spans: seq<Span>)
    requires Apart(spans) && spans != []
    ensures Apart(spans[..|spans| - 1])
    ensures forall s :: s in spans[..|spans| - 1] ==> s.end.Some? && s.end.value <= spans[|spans| - 1].start
  {
    var n := |spans| - 1;
    assert forall i :: 0 <= i < n ==> spans[i].end.Some? && spans[i].end.value <= spans[n].start;
  }

  lemma {:induction false} NoneTwice(init: seq<Span>, last: Span, now: int)
    requires forall s :: s in init ==> s.end.Some? && s.end.value <= last.start
    ensures AllMoments(init, now) !! Moments(last, now)
  {
    hide Stretch;
    forall t | t in AllMoments(init, now) ensures t !in Moments(last, now) {
      var s :| s in init && t in Moments(s, now);
      StretchHas(s.start, s.end.value, t);
      StretchHas(last.start, if last.end.Some? then last.end.value else now, t);
    }
  }

  /** The worked time of spans apart is the number of milliseconds that lie in one of them: no moment is counted twice. */
  lemma {:induction false} TotalCounts(spans: seq<Span>, now: int)
    requires Apart(spans)
    ensures Total(spans, now) == |AllMoments(spans, now)|
  {
    hide SpanMs, Moments, Apart;
    if spans == [] {
      assert AllMoments(spans, now) == {};
    } else {
      var n := |spans| - 1;
      var init, last := spans[..n], spans[n];
      InitIsApart(spans);
      TotalCounts(init, now);
      SpanMsCounts(last, now);
      MomentsSnoc(init, last, now);
      NoneTwice(init, last, now);
      assert init + [last] == spans;
    }
  }

  // ---- which spans are a day's ----

  lemma {:induction false} StartedArePicked(spans: seq<Span>, from: int, to: int, p: nat -> bool, at: seq<nat>)
    requires forall k: nat :: k < |spans| ==> (p(k) <==> from <= spans[k].start < to)
    requires Picks(|spans|, p, at)
    ensures KeptAt(StartedIn(spans, from, to), spans, at)
  {
    hide Picks, KeptAt;
    if spans == [] {
      PicksNone(p, at);
      NoneKept(spans, at);
    } else {
      var n := |spans| - 1;
      PicksLast(n, p, at);
      StartedArePicked(spans[..n], from, to, p, if p(n) then at[..|at| - 1] else at);
      KeptSnoc(StartedIn(spans[..n], from, to), spans[..n], spans[n], p, at);
      assert spans == spans[..n] + [spans[n]];
      assert forall s: seq<Span> :: s + [] == s;
    }
  }

  lemma {:induction false} KeptIsApart(spans: seq<Span>, kept: seq<Span>, at: seq<nat>)
    requires Apart(spans) && KeptAt(kept, spans, at) && forall i, j :: 0 <= i < j < |at| ==> at[i] < at[j]
    ensures Apart(kept)
  {
    forall i, j | 0 <= i < j < |kept| ensures kept[i].end.Some? && kept[i].end.value <= kept[j].start {
      assert at[i] < at[j];
    }
    forall i | 0 <= i < |kept| - 1 ensures kept[i].end.Some? {
      assert at[i] < at[i + 1];
    }
  }

  /** A day has, in order, exactly the spans that started on it, and its time is the number of milliseconds in them. */
  lemma {:induction false} DayHasItsSpans(punches: seq<Punch>, days: seq<int>, k: nat, now: int) returns (at: seq<nat>)
    requires InOrder(punches) && Midnights(days) && k < |days| - 1
    ensures var spans, day := Spans(punches), DaysOf(Spans(punches), days, now)[k];
      && KeptAt(day.spans, spans, at) && (forall i, j :: 0 <= i < j < |at| ==> at[i] < at[j])
      && (forall i: nat :: i < |spans| ==> (i in at <==> FallsOn(days, k, spans[i].start)))
      && day.ms == |AllMoments(day.spans, now)|
  {
    hide KeptAt, Apart, AllMoments;
    var spans := Spans(punches);
    var p := (i: nat) => i < |spans| && days[k] <= spans[i].start < days[k + 1];
    at := PicksOf(|spans|, p);
    StartedArePicked(spans, days[k], days[k + 1], p, at);
    SpansAscend(punches);
    KeptIsApart(spans, StartedIn(spans, days[k], days[k + 1]), at);
    TotalCounts(StartedIn(spans, days[k], days[k + 1]), now);
  }
}
