/** How many local ICE candidates may be signaled, with two places kept for every connectivity class. The
    deduplication key and the dimensions of a candidate are inputs. */
module CandidateBudget {
  import opened Totals

  const DEFAULT_CANDIDATE_LIMIT := 64
  const CANDIDATE_CLASS_RESERVE := 2
  const MINIMUM_RESERVED_CANDIDATE_LIMIT := 12

  datatype Class = Lan | Ipv4 | Ipv6 | Srflx | Tcp | Mapped

  datatype Family = NoAddress | FamilyV4 | FamilyV6

  /** What parsing one candidate yields; `mapped` is the provider's own provenance. */
  datatype Candidate = Candidate(valid: bool, key: nat, family: Family, lan: bool, srflx: bool, tcp: bool, mapped: bool)

  function Dimensions(c: Candidate): seq<Class> {
    (match c.family case NoAddress => [] case FamilyV4 => [Ipv4] case FamilyV6 => [Ipv6])
    + (if c.lan then [Lan] else []) + (if c.srflx then [Srflx] else []) + (if c.tcp then [Tcp] else [])
    + (if c.mapped then [Mapped] else [])
  }

  datatype State = State(limit: nat, sent: nat, seen: set<nat>, classes: map<Class, nat>)

  function Start(limit: int): State {
    State(if limit <= 0 || limit > DEFAULT_CANDIDATE_LIMIT then DEFAULT_CANDIDATE_LIMIT else limit, 0, {}, map[])
  }

  function Count(s: State, c: Class): nat { if c in s.classes then s.classes[c] else 0 }

  function Deficit(s: State, c: Class): nat {
    if Count(s, c) < CANDIDATE_CLASS_RESERVE then CANDIDATE_CLASS_RESERVE - Count(s, c) else 0
  }

  const ALL_CLASSES: seq<Class> := [Lan, Ipv4, Ipv6, Srflx, Tcp, Mapped]

  /** Places still owed to the classes of `list` that `dimensions` does not cover. */
  function Owed(s: State, list: seq<Class>, dimensions: seq<Class>): nat {
    if list == [] then 0
    else Owed(s, list[1..], dimensions) + (if list[0] in dimensions then 0 else Deficit(s, list[0]))
  }

  function Reserve(s: State, dimensions: seq<Class>): nat {
    if s.limit >= MINIMUM_RESERVED_CANDIDATE_LIMIT then Owed(s, ALL_CLASSES, dimensions) else 0
  }

  datatype Verdict = Accepted | Invalid | Duplicate | Exhausted | ReservedForOthers

  function Judge(s: State, c: Candidate): Verdict {
    if !c.valid then Invalid
    else if c.key in s.seen then Duplicate
    else if s.sent >= s.limit then Exhausted
    else if s.sent + Reserve(s, Dimensions(c)) >= s.limit then ReservedForOthers
    else Accepted
  }

  function Bump(classes: map<Class, nat>, dimensions: seq<Class>): map<Class, nat>
    decreases |dimensions|
  {
    if dimensions == [] then classes
    else
      var c := dimensions[0];
      Bump(classes[c := (if c in classes then classes[c] else 0) + 1], dimensions[1..])
  }

  function Accept(s: State, c: Candidate): State {
    if Judge(s, c) != Accepted then s
    else State(s.limit, s.sent + 1, s.seen + {c.key}, Bump(s.classes, Dimensions(c)))
  }

  function Run(limit: int, offers: seq<Candidate>): State {
    if offers == [] then Start(limit) else Accept(Run(limit, offers[..|offers| - 1]), offers[|offers| - 1])
  }

  // ---------------------------------------------------------------- the reserve

  /** Places owed to all classes together. */
  function TotalOwed(s: State): nat {
    Deficit(s, Lan) + Deficit(s, Ipv4) + Deficit(s, Ipv6) + Deficit(s, Srflx) + Deficit(s, Tcp) + Deficit(s, Mapped)
  }

  lemma ReserveTerms(s: State, d: seq<Class>)
    ensures Owed(s, ALL_CLASSES, d) ==
            (if Lan in d then 0 else Deficit(s, Lan)) + (if Ipv4 in d then 0 else Deficit(s, Ipv4))
            + (if Ipv6 in d then 0 else Deficit(s, Ipv6)) + (if Srflx in d then 0 else Deficit(s, Srflx))
            + (if Tcp in d then 0 else Deficit(s, Tcp)) + (if Mapped in d then 0 else Deficit(s, Mapped))
  {
    var l0 := ALL_CLASSES;
    var l1, l2, l3, l4, l5 :=
        l0[1..], l0[1..][1..], l0[1..][1..][1..], l0[1..][1..][1..][1..], l0[1..][1..][1..][1..][1..];
    assert l1 == [Ipv4, Ipv6, Srflx, Tcp, Mapped] && l2 == [Ipv6, Srflx, Tcp, Mapped] && l3 == [Srflx, Tcp, Mapped];
    assert l4 == [Tcp, Mapped] && l5 == [Mapped] && l5[1..] == [];
    assert Owed(s, l5, d) == if Mapped in d then 0 else Deficit(s, Mapped);
    assert Owed(s, l4, d) == Owed(s, l5, d) + if Tcp in d then 0 else Deficit(s, Tcp);
    assert Owed(s, l3, d) == Owed(s, l4, d) + if Srflx in d then 0 else Deficit(s, Srflx);
    assert Owed(s, l2, d) == Owed(s, l3, d) + if Ipv6 in d then 0 else Deficit(s, Ipv6);
    assert Owed(s, l1, d) == Owed(s, l2, d) + if Ipv4 in d then 0 else Deficit(s, Ipv4);
  }

  lemma {:induction false} BumpCounts(classes: map<Class, nat>, d: seq<Class>, c: Class)
    requires forall i, j | 0 <= i < j < |d| :: d[i] != d[j]
    ensures (if c in Bump(classes, d) then Bump(classes, d)[c] else 0)
            == (if c in classes then classes[c] else 0) + (if c in d then 1 else 0)
    decreases |d|
  {
    if d != [] {
      var first := d[0];
      BumpCounts(classes[first := (if first in classes then classes[first] else 0) + 1], d[1..], c);
      assert first !in d[1..];
      assert c in d <==> c == first || c in d[1..];
    }
  }

  lemma DimensionsDistinct(c: Candidate)
    ensures forall i, j | 0 <= i < j < |Dimensions(c)| :: Dimensions(c)[i] != Dimensions(c)[j]
  {
  }

  /** An accepted candidate pays one place of every class it covers. */
  lemma AcceptPays(s: State, c: Candidate, k: Class)
    requires Judge(s, c) == Accepted
    ensures Deficit(Accept(s, c), k)
            == if k in Dimensions(c) && Deficit(s, k) > 0 then Deficit(s, k) - 1 else Deficit(s, k)
    ensures Count(Accept(s, c), k) == Count(s, k) + (if k in Dimensions(c) then 1 else 0)
  {
    DimensionsDistinct(c);
    BumpCounts(s.classes, Dimensions(c), k);
  }

  ghost predicate Inv(s: State) {
    && s.sent <= s.limit && s.sent == |s.seen|
    && (s.limit >= MINIMUM_RESERVED_CANDIDATE_LIMIT ==> s.sent + TotalOwed(s) <= s.limit)
  }

  lemma AcceptKeeps(s: State, c: Candidate)
    requires Inv(s)
    ensures Inv(Accept(s, c))
  {
    if Judge(s, c) == Accepted {
      var d := Dimensions(c);
      ReserveTerms(s, d);
      AcceptPays(s, c, Lan);
      AcceptPays(s, c, Ipv4);
      AcceptPays(s, c, Ipv6);
      AcceptPays(s, c, Srflx);
      AcceptPays(s, c, Tcp);
      AcceptPays(s, c, Mapped);
    }
  }

  /** In every run, what was sent and what is still owed to the classes fit the limit together. */
  lemma {:induction false} ReserveIsKept(limit: int, offers: seq<Candidate>)
    ensures Inv(Run(limit, offers))
    decreases |offers|
  {
    if offers != [] {
      ReserveIsKept(limit, offers[..|offers| - 1]);
      AcceptKeeps(Run(limit, offers[..|offers| - 1]), offers[|offers| - 1]);
    }
  }

  /** A fresh candidate covering a class with fewer than two accepted ones is never turned away. */
  lemma ScarceClassIsAccepted(limit: int, offers: seq<Candidate>, c: Candidate, k: Class)
    requires Run(limit, offers).limit >= MINIMUM_RESERVED_CANDIDATE_LIMIT
    requires c.valid && c.key !in Run(limit, offers).seen && k in Dimensions(c)
             && Count(Run(limit, offers), k) < CANDIDATE_CLASS_RESERVE
    ensures Judge(Run(limit, offers), c) == Accepted
  {
    ReserveIsKept(limit, offers);
    ReserveTerms(Run(limit, offers), Dimensions(c));
  }

  /** Without the reserve (limits below twelve) only the limit itself holds a fresh candidate back. */
  lemma SmallLimitHasNoReserve(limit: int, offers: seq<Candidate>, c: Candidate)
    requires Run(limit, offers).limit < MINIMUM_RESERVED_CANDIDATE_LIMIT && c.valid && c.key !in Run(limit, offers).seen
    ensures Judge(Run(limit, offers), c) == Accepted <==> Run(limit, offers).sent < Run(limit, offers).limit
  {
  }

  // ---------------------------------------------------------------- what was accepted

  /** The candidates accepted along a run. */
  function AcceptedOf(limit: int, offers: seq<Candidate>): seq<Candidate> {
    if offers == [] then []
    else
      var before, last := offers[..|offers| - 1], offers[|offers| - 1];
      if Judge(Run(limit, before), last) == Accepted then AcceptedOf(limit, before) + [last]
      else AcceptedOf(limit, before)
  }

  function Covering(cs: seq<Candidate>, k: Class): nat {
    if cs == [] then 0 else Covering(cs[..|cs| - 1], k) + (if k in Dimensions(cs[|cs| - 1]) then 1 else 0)
  }

  ghost predicate DistinctIn(cs: seq<Candidate>, seen: set<nat>) {
    && (forall i | 0 <= i < |cs| :: cs[i].key in seen && cs[i].valid)
    && (forall i, j | 0 <= i < j < |cs| :: cs[i].key != cs[j].key)
  }

  lemma DistinctGrows(cs: seq<Candidate>, seen: set<nat>, c: Candidate)
    requires DistinctIn(cs, seen) && c.valid && c.key !in seen
    ensures DistinctIn(cs + [c], seen + {c.key})
  {
  }

  /** Accepted candidates are distinct and number at most the limit. */
  lemma {:induction false} AcceptedAreDistinct(limit: int, offers: seq<Candidate>)
    ensures var cs, s := AcceptedOf(limit, offers), Run(limit, offers);
            |cs| == s.sent <= s.limit && DistinctIn(cs, s.seen)
    decreases |offers|
  {
    ReserveIsKept(limit, offers);
    if offers != [] {
      var before, last := offers[..|offers| - 1], offers[|offers| - 1];
      AcceptedAreDistinct(limit, before);
      if Judge(Run(limit, before), last) == Accepted {
        DistinctGrows(AcceptedOf(limit, before), Run(limit, before).seen, last);
      }
    }
  }

  lemma CoveringOne(cs: seq<Candidate>, c: Candidate, k: Class)
    ensures Covering(cs + [c], k) == Covering(cs, k) + (if k in Dimensions(c) then 1 else 0)
  {
    assert (cs + [c])[..|cs + [c]| - 1] == cs;
  }

  /** The class counters count the accepted candidates that cover the class. */
  lemma {:induction false} CountersCount(limit: int, offers: seq<Candidate>, k: Class)
    ensures Count(Run(limit, offers), k) == Covering(AcceptedOf(limit, offers), k)
    decreases |offers|
  {
    if offers != [] {
      var before, last := offers[..|offers| - 1], offers[|offers| - 1];
      CountersCount(limit, before, k);
      if Judge(Run(limit, before), last) == Accepted {
        AcceptPays(Run(limit, before), last, k);
        CoveringOne(AcceptedOf(limit, before), last, k);
      }
    }
  }

  // ---------------------------------------------------------------- the object

  class Budget {
    const limit: nat
    var sent: nat
    var seen: set<nat>
    var classes: map<Class, nat>

    ghost function View(): State
      reads this
    {
      State(limit, sent, seen, classes)
    }

    ghost predicate Valid()
      reads this
    {
      Inv(View())
    }

    constructor (limit: int)
      ensures Valid() && View() == Start(limit)
    {
      this.limit := if limit <= 0 || limit > DEFAULT_CANDIDATE_LIMIT then DEFAULT_CANDIDATE_LIMIT else limit;
      sent, seen, classes := 0, {}, map[];
    }

    /** What is owed to the classes the candidate does not cover. */
    method MeasureReserve(dimensions: seq<Class>) returns (reserve: nat)
      ensures reserve == Reserve(View(), dimensions)
    {
      reserve := 0;
      if limit < MINIMUM_RESERVED_CANDIDATE_LIMIT { return; }
      var i := 0;
      assert ALL_CLASSES[0..] == ALL_CLASSES;
      while i < |ALL_CLASSES|
        invariant 0 <= i <= |ALL_CLASSES|
        invariant reserve + Owed(View(), ALL_CLASSES[i..], dimensions) == Owed(View(), ALL_CLASSES, dimensions)
      {
        var other := ALL_CLASSES[i];
        assert ALL_CLASSES[i..][1..] == ALL_CLASSES[i + 1..];
        if other !in dimensions {
          var accepted := if other in classes then classes[other] else 0;
          reserve := reserve + Max(0, CANDIDATE_CLASS_RESERVE - accepted);
        }
        i := i + 1;
      }
    }

    method CountDimensions(dimensions: seq<Class>)
      modifies `classes
      ensures classes == old(Bump(classes, dimensions))
    {
      var i := 0;
      assert dimensions[0..] == dimensions;
      while i < |dimensions|
        invariant 0 <= i <= |dimensions|
        invariant Bump(classes, dimensions[i..]) == old(Bump(classes, dimensions))
      {
        var c := dimensions[i];
        assert dimensions[i..][1..] == dimensions[i + 1..];
        classes := classes[c := (if c in classes then classes[c] else 0) + 1];
        i := i + 1;
      }
      assert dimensions[|dimensions|..] == [];
    }

    method Offer(c: Candidate) returns (verdict: Verdict)
      requires Valid()
      modifies `sent, `seen, `classes
      ensures Valid() && View() == old(Accept(View(), c)) && verdict == old(Judge(View(), c))
    {
      AcceptKeeps(View(), c);
      if !c.valid { return Invalid; }
      if c.key in seen { return Duplicate; }
      if sent >= limit { return Exhausted; }
      var dimensions := Dimensions(c);
      var reserve := MeasureReserve(dimensions);
      if sent + reserve >= limit { return ReservedForOthers; }
      seen := seen + {c.key};
      sent := sent + 1;
      CountDimensions(dimensions);
      return Accepted;
    }
  }
}
