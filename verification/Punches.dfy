/** The shift clock: spans paired from punches, and the week's days. Times are milliseconds. */
module Punches {
  import opened Common

  datatype Kind = In | Out

  datatype Punch = Punch(kind: Kind, at: int, queued: bool)

  datatype Span = Span(start: int, end: Option<int>, queued: bool)

  // ---- pairing ----

  /** The spans closed so far, and the punch that opened the one still open. */
  datatype Pairing = Pairing(closed: seq<Span>, open: Option<Punch>)

  function Pair(s: Pairing, p: Punch): Pairing {
    if p.kind == In && s.open.None? then s.(open := Some(p))
    else if p.kind == Out && s.open.Some? then
      Pairing(s.closed + [Span(s.open.value.at, Some(p.at), s.open.value.queued || p.queued)], None)
    else s
  }

  function PairAll(punches: seq<Punch>): Pairing {
    if punches == [] then Pairing([], None) else Pair(PairAll(punches[..|punches| - 1]), punches[|punches| - 1])
  }

  function Ended(s: Pairing): seq<Span> {
    s.closed + if s.open.Some? then [Span(s.open.value.at, None, s.open.value.queued)] else []
  }

  function Spans(punches: seq<Punch>): seq<Span> {
    Ended(PairAll(punches))
  }

  /** Each in paired with the next out, one punch at a time. */
  method SpansOf(punches: seq<Punch>) returns (out: seq<Span>)
    ensures out == Spans(punches)
  {
    out := [];
    var open: Option<Punch> := None;
    for i := 0 to |punches|
      invariant Pairing(out, open) == PairAll(punches[..i])
    {
      var p := punches[i];
      assert punches[..i + 1][..i] == punches[..i];
      if p.kind == In && open.None? {
        open := Some(p);
      } else if p.kind == Out && open.Some? {
        out := out + [Span(open.value.at, Some(p.at), open.value.queued || p.queued)];
        open := None;
      }
    }
    assert punches[..|punches|] == punches;
    if open.Some? {
      out := out + [Span(open.value.at, None, open.value.queued)];
    }
  }

  // ---- what the spans mean ----

  predicate InOrder(punches: seq<Punch>) {
    forall i, j :: 0 <= i < j < |punches| ==> punches[i].at <= punches[j].at
  }

  /** The last punch made at or before a moment. */
  function LastBy(punches: seq<Punch>, t: int): Option<Punch> {
    if punches == [] then None
    else if punches[|punches| - 1].at <= t then Some(punches[|punches| - 1])
    else LastBy(punches[..|punches| - 1], t)
  }

  predicate ClockedIn(punches: seq<Punch>, t: int) {
    LastBy(punches, t).Some? && LastBy(punches, t).value.kind == In
  }

  predicate Holds(s: Span, t: int) {
    s.start <= t && (s.end.Some? ==> t < s.end.value)
  }

  predicate Worked(spans: seq<Span>, t: int) {
    exists s :: s in spans && Holds(s, t)
  }

  /** Ascending and apart; only the last may be open. */
  predicate Apart(spans: seq<Span>) {
    && (forall i :: 0 <= i < |spans| - 1 ==> spans[i].end.Some?)
    && (forall i :: 0 <= i < |spans| && spans[i].end.Some? ==> spans[i].start <= spans[i].end.value)
    && (forall i, j :: 0 <= i < j < |spans| ==> spans[i].end.Some? && spans[i].end.value <= spans[j].start)
  }

  /** Everything paired so far lies at or before the last punch, in order; and a span is open exactly when that punch is
      an in. */
  predicate PairedBy(s: Pairing, punches: seq<Punch>) {
    && Apart(s.closed)
    && (forall i :: 0 <= i < |s.closed| ==> s.closed[i].end.Some?)
    && (punches == [] ==> s == Pairing([], None))
    && (punches != [] ==>
          && (s.open.Some? <==> punches[|punches| - 1].kind == In)
          && (s.open.Some? ==> s.open.value.at <= punches[|punches| - 1].at)
          && (s.closed != [] ==> s.closed[|s.closed| - 1].end.value <=
                                 if s.open.Some? then s.open.value.at else punches[|punches| - 1].at))
  }

  lemma {:induction false} PairsInOrder(punches: seq<Punch>)
    requires InOrder(punches)
    ensures PairedBy(PairAll(punches), punches)
  {
    if punches != [] {
      var n := |punches| - 1;
      PairsInOrder(punches[..n]);
    }
  }

  lemma {:induction false} SpansAscend(punches: seq<Punch>)
    requires InOrder(punches)
    ensures Apart(Spans(punches))
    ensures punches != [] ==> (Spans(punches) != [] && Spans(punches)[|Spans(punches)| - 1].end.None? <==> punches[|punches| - 1].kind == In)
  {
    PairsInOrder(punches);
    var s := PairAll(punches);
    var last := |s.closed| - 1;
    assert forall i :: 0 <= i < last ==> s.closed[i].end.value <= s.closed[last].start <= s.closed[last].end.value;
  }

  lemma {:induction false} WorkedMore(spans: seq<Span>, s: Span, t: int)
    ensures Worked(spans + [s], t) <==> Worked(spans, t) || Holds(s, t)
  {
    if Worked(spans, t) {
      var x :| x in spans && Holds(x, t);
      assert x in spans + [s];
    }
    if Holds(s, t) {
      assert s in spans + [s];
    }
  }

  /** One more punch decides every moment from it on, and none before. */
  lemma {:induction false} PunchDecides(s: Pairing, before: seq<Punch>, p: Punch, t: int)
    requires PairedBy(s, before) && InOrder(before + [p])
    ensures Worked(Ended(Pair(s, p)), t) <==> if t >= p.at then p.kind == In else Worked(Ended(s), t)
  {
    hide PairedBy, InOrder, Worked;
    assert s.closed + [] == s.closed;
    if s.open.Some? {
      OpenedBefore(s, before, p);
      if p.kind == Out {
        var closed := s.closed + [Span(s.open.value.at, Some(p.at), s.open.value.queued || p.queued)];
        assert closed + [] == closed;
      }
      WorkedMore(s.closed, Span(s.open.value.at, None, s.open.value.queued), t);
      WorkedMore(s.closed, Span(s.open.value.at, Some(p.at), s.open.value.queued || p.queued), t);
    } else {
      WorkedMore(s.closed, Span(p.at, None, p.queued), t);
    }
    if t >= p.at {
      NothingClosedHolds(s, before, p, t);
    }
  }

  lemma {:induction false} OpenedBefore(s: Pairing, before: seq<Punch>, p: Punch)
    requires PairedBy(s, before) && InOrder(before + [p]) && s.open.Some?
    ensures s.open.value.at <= p.at
  {
    assert before != [] && (before + [p])[|before| - 1] == before[|before| - 1] && (before + [p])[|before|] == p;
  }

  lemma {:induction false} LastOfAll(punches: seq<Punch>, t: int)
    requires punches != []
    ensures var n := |punches| - 1;
      && Spans(punches) == Ended(Pair(PairAll(punches[..n]), punches[n])) && Spans(punches[..n]) == Ended(PairAll(punches[..n]))
      && (ClockedIn(punches, t) <==> if t >= punches[n].at then punches[n].kind == In else ClockedIn(punches[..n], t))
      && (InOrder(punches) ==> InOrder(punches[..n]))
  {
  }

  /** A moment is worked exactly when the last punch at or before it is an in. */
  lemma {:induction false} WorkedIffClockedIn(punches: seq<Punch>, t: int)
    requires InOrder(punches)
    ensures Worked(Spans(punches), t) <==> ClockedIn(punches, t)
  {
    if punches == [] {
      NothingWorked(t);
    } else {
      LastOfAll(punches, t);
      hide Worked, ClockedIn, PairAll, Pair, Ended, Spans, InOrder, PairedBy;
      var n := |punches| - 1;
      assert punches[..n] + [punches[n]] == punches;
      WorkedIffClockedIn(punches[..n], t);
      PairsInOrder(punches[..n]);
      PunchDecides(PairAll(punches[..n]), punches[..n], punches[n], t);
    }
  }

  lemma {:induction false} NothingWorked(t: int)
    ensures Spans([]) == [] && !Worked([], t)
  {
  }

  lemma {:induction false} LastByIsBefore(punches: seq<Punch>, t: int)
    ensures LastBy(punches, t).None? <==> forall i :: 0 <= i < |punches| ==> punches[i].at > t
    ensures punches != [] && punches[|punches| - 1].at <= t ==> LastBy(punches, t) == Some(punches[|punches| - 1])
  {
    if punches != [] {
      LastByIsBefore(punches[..|punches| - 1], t);
    }
  }

  /** From the next punch on, no closed span holds a moment. */
  lemma {:induction false} NothingClosedHolds(s: Pairing, before: seq<Punch>, p: Punch, t: int)
    requires PairedBy(s, before) && InOrder(before + [p]) && t >= p.at
    ensures !Worked(s.closed, t)
  {
    forall x | x in s.closed ensures !Holds(x, t) {
      var i :| 0 <= i < |s.closed| && s.closed[i] == x;
      var last := s.closed[|s.closed| - 1];
      assert i < |s.closed| - 1 ==> x.end.value <= last.start <= last.end.value;
      assert (before + [p])[|before| - 1] == before[|before| - 1] && (before + [p])[|before|] == p;
    }
  }
}
