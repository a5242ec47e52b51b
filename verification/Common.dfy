/** The helpers every module shares. */
module Common {
  datatype Option<+T> = None | Some(value: T)

  /** An identifier: minted elsewhere, and only ever compared. */
  type Id = nat

  lemma AppendAssociates<T>(a: seq<T>, b: seq<T>, c: seq<T>)
    ensures (a + b) + c == a + (b + c)
  {
  }

  const BOM := '\U{FEFF}'

  // ---- white space, as String.trim has it ----

  predicate IsSpace(c: char) {
    || '\t' <= c <= '\r' || c == ' ' || c == '\U{00A0}' || c == BOM || c == '\U{1680}' || '\U{2000}' <= c <= '\U{200A}'
    || c == '\U{2028}' || c == '\U{2029}' || c == '\U{202F}' || c == '\U{205F}' || c == '\U{3000}'
  }

  function TrimStart(s: string): string {
    if s != [] && IsSpace(s[0]) then TrimStart(s[1..]) else s
  }

  function TrimEnd(s: string): string {
    if s != [] && IsSpace(s[|s| - 1]) then TrimEnd(s[..|s| - 1]) else s
  }

  function Trim(s: string): string {
    TrimEnd(TrimStart(s))
  }

  // ---- what a filter keeps ----

  /** `at` lists, in order, exactly the numbers below `n` that pass. */
  ghost predicate Picks(n: nat, p: nat -> bool, at: seq<nat>) {
    && (forall i, j :: 0 <= i < j < |at| ==> at[i] < at[j])
    && (forall k :: k in at ==> k < n)
    && (forall k: nat :: k < n ==> (k in at <==> p(k)))
  }

  /** `kept` is what is at those places. */
  ghost predicate KeptAt<T(!new)>(kept: seq<T>, s: seq<T>, at: seq<nat>) {
    |kept| == |at| && forall i :: 0 <= i < |at| ==> at[i] < |s| && kept[i] == s[at[i]]
  }

  lemma FirstIsIn<T>(s: seq<T>)
    ensures s == [] || s[0] in s
  {
  }

  lemma {:induction false} PicksNone(p: nat -> bool, at: seq<nat>)
    requires Picks(0, p, at)
    ensures at == []
  {
    FirstIsIn(at);
  }

  lemma {:induction false} PickedAreBelow(n: nat, p: nat -> bool, at: seq<nat>)
    requires Picks(n, p, at)
    ensures forall i :: 0 <= i < |at| ==> at[i] in at && at[i] < n && p(at[i])
  {
    forall i | 0 <= i < |at| ensures at[i] in at && at[i] < n && p(at[i]) {
      var k := at[i];
      assert k in at;
    }
  }

  lemma {:induction false} PicksLast(n: nat, p: nat -> bool, at: seq<nat>)
    requires Picks(n + 1, p, at)
    ensures p(n) ==> at != [] && at[|at| - 1] == n && Picks(n, p, at[..|at| - 1])
    ensures !p(n) ==> Picks(n, p, at)
  {
    PickedAreBelow(n + 1, p, at);
    if p(n) {
      assert n in at;
      var i :| 0 <= i < |at| && at[i] == n;
      assert forall j :: 0 <= j < |at| ==> at[j] <= n;
      var front := at[..i];
      forall k: nat | k < n ensures k in front <==> p(k) {
        if k in at {
          var j :| 0 <= j < |at| && at[j] == k;
          assert j < i && front[j] == k;
        }
      }
    } else {
      assert n !in at;
    }
  }

  /** Whatever passes, there are such places. */
  lemma {:induction false} PicksOf(n: nat, p: nat -> bool) returns (at: seq<nat>)
    ensures Picks(n, p, at)
  {
    at := [];
    if n > 0 {
      at := PicksOf(n - 1, p);
      PickedAreBelow(n - 1, p, at);
      if p(n - 1) {
        at := at + [n - 1];
      }
    }
  }

  lemma NoneKept<T(!new)>(s: seq<T>, at: seq<nat>)
    requires s == [] && at == []
    ensures KeptAt(s, s, at)
  {
  }

  lemma {:induction false} KeptSnoc<T(!new)>(kept: seq<T>, s: seq<T>, x: T, p: nat -> bool, at: seq<nat>)
    requires Picks(|s| + 1, p, at)
    requires KeptAt(kept, s, if p(|s|) && at != [] then at[..|at| - 1] else at)
    ensures KeptAt(if p(|s|) then kept + [x] else kept, s + [x], at)
  {
    PicksLast(|s|, p, at);
  }

  ghost function Shifted(at: seq<nat>): (r: seq<nat>)
    ensures |r| == |at| && forall i :: 0 <= i < |at| ==> r[i] == at[i] + 1
  {
    seq(|at|, i requires 0 <= i < |at| => at[i] + 1)
  }

  lemma {:induction false} ShiftedHas(at: seq<nat>, k: nat)
    ensures k + 1 in Shifted(at) <==> k in at
    ensures 0 !in Shifted(at)
  {
    if k in at {
      var i :| 0 <= i < |at| && at[i] == k;
      assert Shifted(at)[i] == k + 1;
    }
  }

  lemma {:induction false} KeptFront<T(!new)>(kept: seq<T>, x: T, rest: seq<T>, at: seq<nat>)
    requires KeptAt(kept, rest, at)
    ensures KeptAt([x] + kept, [x] + rest, [0] + Shifted(at))
  {
    var all := [x] + rest;
    forall i | 0 <= i < |at| ensures at[i] + 1 < |all| && all[at[i] + 1] == kept[i] {
    }
  }

  lemma {:induction false} KeptBehind<T(!new)>(kept: seq<T>, x: T, rest: seq<T>, at: seq<nat>)
    requires KeptAt(kept, rest, at)
    ensures KeptAt(kept, [x] + rest, Shifted(at))
  {
    var all := [x] + rest;
    forall i | 0 <= i < |at| ensures Shifted(at)[i] < |all| && all[Shifted(at)[i]] == kept[i] {
    }
  }

  lemma {:induction false} FrontPicked(at: seq<nat>, k: nat)
    ensures k in [0] + Shifted(at) <==> k == 0 || k - 1 in at
    ensures k in Shifted(at) <==> k > 0 && k - 1 in at
  {
    ShiftedHas(at, if k > 0 then k - 1 else 0);
    assert k in [0] + Shifted(at) <==> k == 0 || k in Shifted(at);
  }

  /** A filter that looks at the first of a list and then at the rest. */
  lemma {:induction false} FirstThenRest<T(!new)>(kept: seq<T>, s: seq<T>, keeps: bool, later: seq<nat>) returns (at: seq<nat>)
    requires s != [] && KeptAt(kept, s[1..], later) && forall i, j :: 0 <= i < j < |later| ==> later[i] < later[j]
    ensures KeptAt(if keeps then [s[0]] + kept else kept, s, at) && (forall i, j :: 0 <= i < j < |at| ==> at[i] < at[j])
    ensures 0 in at <==> keeps
    ensures forall k: nat :: k + 1 in at <==> k in later
  {
    hide KeptAt;
    assert s == [s[0]] + s[1..];
    if keeps {
      at := [0] + Shifted(later);
      KeptFront(kept, s[0], s[1..], later);
    } else {
      at := Shifted(later);
      KeptBehind(kept, s[0], s[1..], later);
    }
    FrontPicked(later, 0);
    forall k: nat ensures k + 1 in at <==> k in later {
      FrontPicked(later, k + 1);
    }
  }
}
