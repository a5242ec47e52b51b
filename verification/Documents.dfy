/** A crew's documents against the kinds required of it: where each kind stands, and until when. Days are numbers. */
module Documents {
  import opened Common

  datatype Doc = Doc(kind: Id, verified: bool, validFrom: int, validTo: int)

  datatype Standing = Satisfied | Unverified | Expired | Missing

  datatype Summary = Summary(satisfied: seq<Id>, unverified: seq<Id>, expired: seq<Id>, missing: seq<Id>, earliest: Option<int>)

  predicate Covers(d: Doc, kind: Id, day: int) {
    d.kind == kind && d.verified && d.validFrom <= day <= d.validTo
  }

  predicate Held(docs: seq<Doc>, kind: Id) {
    exists d :: d in docs && d.kind == kind
  }

  predicate HeldVerified(docs: seq<Doc>, kind: Id) {
    exists d :: d in docs && d.kind == kind && d.verified
  }

  predicate Covered(docs: seq<Doc>, kind: Id, day: int) {
    exists d :: d in docs && Covers(d, kind, day)
  }

  /** Where a kind stands on a day. */
  function StandingOf(docs: seq<Doc>, kind: Id, day: int): Standing {
    if !Held(docs, kind) then Missing
    else if !HeldVerified(docs, kind) then Unverified
    else if !Covered(docs, kind, day) then Expired
    else Satisfied
  }

  /** The latest last day of the documents covering a day. */
  function LastDay(docs: seq<Doc>, kind: Id, day: int): (r: Option<int>)
    ensures r.Some? <==> Covered(docs, kind, day)
    ensures r.Some? ==> (exists d :: d in docs && Covers(d, kind, day) && d.validTo == r.value)
                        && forall d :: d in docs && Covers(d, kind, day) ==> d.validTo <= r.value
  {
    if docs == [] then None
    else
      var n := |docs| - 1;
      var d, before := docs[n], LastDay(docs[..n], kind, day);
      assert docs == docs[..n] + [d];
      if !Covers(d, kind, day) then before
      else if before.Some? && before.value > d.validTo then before
      else Some(d.validTo)
  }

  /** The kinds that stand so, in the order required. */
  function KindsAt(required: seq<Id>, docs: seq<Doc>, day: int, standing: Standing): (r: seq<Id>)
    ensures forall k :: k in r <==> k in required && StandingOf(docs, k, day) == standing
  {
    if required == [] then []
    else
      var n := |required| - 1;
      assert required == required[..n] + [required[n]];
      KindsAt(required[..n], docs, day, standing) + if StandingOf(docs, required[n], day) == standing then [required[n]] else []
  }

  function Sooner(a: Option<int>, b: int): Option<int> {
    if a.None? || b < a.value then Some(b) else a
  }

  function Earliest(required: seq<Id>, docs: seq<Doc>, day: int): Option<int> {
    if required == [] then None
    else
      var n := |required| - 1;
      var before, last := Earliest(required[..n], docs, day), LastDay(docs, required[n], day);
      if last.None? then before else Sooner(before, last.value)
  }

  function Summarized(required: seq<Id>, docs: seq<Doc>, day: int): Summary {
    Summary(KindsAt(required, docs, day, Satisfied), KindsAt(required, docs, day, Unverified),
            KindsAt(required, docs, day, Expired), KindsAt(required, docs, day, Missing), Earliest(required, docs, day))
  }

  /** One more kind is added to the list it stands in, and to no other. */
  function WithKind(s: Summary, kind: Id, standing: Standing, last: Option<int>): Summary {
    match standing
    case Satisfied => s.(satisfied := s.satisfied + [kind], earliest := if last.Some? then Sooner(s.earliest, last.value) else s.earliest)
    case Unverified => s.(unverified := s.unverified + [kind])
    case Expired => s.(expired := s.expired + [kind])
    case Missing => s.(missing := s.missing + [kind])
  }

  lemma {:induction false} OneMore(required: seq<Id>, docs: seq<Doc>, day: int)
    requires required != []
    ensures var n := |required| - 1;
      Summarized(required, docs, day)
      == WithKind(Summarized(required[..n], docs, day), required[n], StandingOf(docs, required[n], day), LastDay(docs, required[n], day))
  {
    hide Held, HeldVerified, Covered;
    var before := required[..|required| - 1];
    CoveredIsVerified(docs, required[|required| - 1], day);
    assert forall st: Standing :: KindsAt(before, docs, day, st) + [] == KindsAt(before, docs, day, st);
  }

  lemma {:induction false} CoveredIsVerified(docs: seq<Doc>, kind: Id, day: int)
    ensures Covered(docs, kind, day) ==> HeldVerified(docs, kind)
    ensures HeldVerified(docs, kind) ==> Held(docs, kind)
  {
  }

  /** One pass over the required kinds. */
  method DocSummary(required: seq<Id>, docs: seq<Doc>, today: int) returns (s: Summary)
    ensures s == Summarized(required, docs, today)
  {
    hide Covered, Held, HeldVerified, Summarized;
    EmptySummary(docs, today);
    s := Summary([], [], [], [], None);
    for i := 0 to |required|
      invariant s == Summarized(required[..i], docs, today)
    {
      var kind := required[i];
      assert required[..i + 1][..i] == required[..i];
      OneMore(required[..i + 1], docs, today);
      if !Held(docs, kind) {
        s := s.(missing := s.missing + [kind]);
      } else if !HeldVerified(docs, kind) {
        s := s.(unverified := s.unverified + [kind]);
      } else {
        var last := LastDay(docs, kind, today);
        if last.None? {
          s := s.(expired := s.expired + [kind]);
        } else {
          s := s.(satisfied := s.satisfied + [kind], earliest := Sooner(s.earliest, last.value));
        }
      }
    }
    assert required[..|required|] == required;
  }

  lemma {:induction false} EmptySummary(docs: seq<Doc>, day: int)
    ensures Summarized([], docs, day) == Summary([], [], [], [], None)
  {
  }

  // ---- what the summary says ----

  function Listed(s: Summary): multiset<Id> {
    multiset(s.satisfied) + multiset(s.unverified) + multiset(s.expired) + multiset(s.missing)
  }

  /** Each required kind is in exactly one of the four lists, as often as it is required. */
  lemma {:induction false} EachKindOnce(required: seq<Id>, docs: seq<Doc>, day: int)
    ensures Listed(Summarized(required, docs, day)) == multiset(required)
  {
    hide StandingOf, Summarized, LastDay, Listed, WithKind;
    if required == [] {
      EmptySummary(docs, day);
      NothingListed();
    } else {
      var n := |required| - 1;
      EachKindOnce(required[..n], docs, day);
      OneMore(required, docs, day);
      ListedOneMore(Summarized(required[..n], docs, day), required[n], StandingOf(docs, required[n], day), LastDay(docs, required[n], day));
      assert required == required[..n] + [required[n]];
    }
  }

  lemma {:induction false} NothingListed()
    ensures Listed(Summary([], [], [], [], None)) == multiset{}
  {
  }

  lemma {:induction false} ListedOneMore(s: Summary, kind: Id, standing: Standing, last: Option<int>)
    ensures Listed(WithKind(s, kind, standing, last)) == Listed(s) + multiset{kind}
  {
    var s' := WithKind(s, kind, standing, last);
    match standing
    case Satisfied => assert multiset(s'.satisfied) == multiset(s.satisfied) + multiset{kind};
    case Unverified => assert multiset(s'.unverified) == multiset(s.unverified) + multiset{kind};
    case Expired => assert multiset(s'.expired) == multiset(s.expired) + multiset{kind};
    case Missing => assert multiset(s'.missing) == multiset(s.missing) + multiset{kind};
  }

  /** Where a kind stands, document by document: none is held; some are but none verified; some are verified but none of
      them holds today; or one does. */
  ghost predicate Stands(docs: seq<Doc>, kind: Id, today: int, standing: Standing) {
    match standing
    case Missing => forall d :: d in docs ==> d.kind != kind
    case Unverified =>
      (exists d :: d in docs && d.kind == kind) && forall d :: d in docs && d.kind == kind ==> !d.verified
    case Expired =>
      && (exists d :: d in docs && d.kind == kind && d.verified)
      && forall d :: d in docs && d.kind == kind && d.verified ==> today < d.validFrom || d.validTo < today
    case Satisfied => exists d :: d in docs && d.kind == kind && d.verified && d.validFrom <= today && today <= d.validTo
  }

  lemma {:induction false} StandsAsFound(docs: seq<Doc>, kind: Id, today: int, standing: Standing)
    ensures StandingOf(docs, kind, today) == standing <==> Stands(docs, kind, today, standing)
  {
    CoveredIsVerified(docs, kind, today);
    assert forall d :: Covers(d, kind, today) <==> d.kind == kind && d.verified && d.validFrom <= today && today <= d.validTo;
  }

  lemma {:induction false} KindsArePicked(required: seq<Id>, docs: seq<Doc>, today: int, standing: Standing, p: nat -> bool, at: seq<nat>)
    requires forall k: nat :: k < |required| ==> (p(k) <==> Stands(docs, required[k], today, standing))
    requires Picks(|required|, p, at)
    ensures KeptAt(KindsAt(required, docs, today, standing), required, at)
  {
    hide Picks, Stands, StandingOf, KeptAt;
    if required == [] {
      PicksNone(p, at);
      NoneKept(required, at);
    } else {
      var n := |required| - 1;
      PicksLast(n, p, at);
      StandsAsFound(docs, required[n], today, standing);
      KindsArePicked(required[..n], docs, today, standing, p, if p(n) then at[..|at| - 1] else at);
      KeptSnoc(KindsAt(required[..n], docs, today, standing), required[..n], required[n], p, at);
      assert required == required[..n] + [required[n]];
      assert forall s: seq<Id> :: s + [] == s;
    }
  }

  function ListOf(s: Summary, standing: Standing): seq<Id> {
    match standing
    case Satisfied => s.satisfied
    case Unverified => s.unverified
    case Expired => s.expired
    case Missing => s.missing
  }

  /** Each list has, in the order required, the required kinds that stand so, told by the documents. */
  lemma {:induction false} EachListIsWhatStandsSo(required: seq<Id>, docs: seq<Doc>, today: int, standing: Standing) returns (at: seq<nat>)
    ensures var list := ListOf(Summarized(required, docs, today), standing);
      && KeptAt(list, required, at) && (forall i, j :: 0 <= i < j < |at| ==> at[i] < at[j])
      && forall k: nat :: k < |required| ==> (k in at <==> Stands(docs, required[k], today, standing))
  {
    hide KeptAt, Stands, KindsAt;
    var p := (k: nat) => k < |required| && StandingOf(docs, required[k], today) == standing;
    at := PicksOf(|required|, p);
    forall k: nat | k < |required| ensures p(k) <==> Stands(docs, required[k], today, standing) {
      StandsAsFound(docs, required[k], today, standing);
    }
    KindsArePicked(required, docs, today, standing, p, at);
  }

  predicate CoversStill(docs: seq<Doc>, kind: Id, today: int, day: int) {
    exists d :: d in docs && Covers(d, kind, today) && d.validTo >= day
  }

  /** The earliest expiry is the last day on which every satisfied kind still has one of the documents that satisfy it today. */
  lemma {:induction false} EarliestIsTheLastGoodDay(required: seq<Id>, docs: seq<Doc>, today: int, day: int)
    ensures var s := Summarized(required, docs, today);
      && (s.earliest.None? <==> s.satisfied == [])
      && (s.earliest.Some? ==>
            ((forall k :: k in s.satisfied ==> CoversStill(docs, k, today, day)) <==> day <= s.earliest.value))
  {
    if required != [] {
      var n := |required| - 1;
      EarliestIsTheLastGoodDay(required[..n], docs, today, day);
      LastDayIsLast(docs, required[n], today, day);
    }
  }

  lemma {:induction false} LastDayIsLast(docs: seq<Doc>, kind: Id, today: int, day: int)
    ensures LastDay(docs, kind, today).Some? <==> StandingOf(docs, kind, today) == Satisfied
    ensures LastDay(docs, kind, today).Some? ==> (CoversStill(docs, kind, today, day) <==> day <= LastDay(docs, kind, today).value)
  {
    CoveredIsVerified(docs, kind, today);
  }

  /** With the documents as they are, a kind satisfied today is satisfied on every day up to the earliest expiry. */
  lemma {:induction false} SatisfiedUntilTheEarliest(required: seq<Id>, docs: seq<Doc>, today: int, day: int, kind: Id)
    requires var s := Summarized(required, docs, today); kind in s.satisfied && s.earliest.Some? && today <= day <= s.earliest.value
    ensures StandingOf(docs, kind, day) == Satisfied
  {
    EarliestIsTheLastGoodDay(required, docs, today, day);
    assert CoversStill(docs, kind, today, day);
    var d :| d in docs && Covers(d, kind, today) && d.validTo >= day;
    assert Covers(d, kind, day);
  }
}
