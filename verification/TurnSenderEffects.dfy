/** What a message, a new inventory or a finished request does to the slots: only what it names. */
module TurnSenderEffects {
  import opened Totals
  import opened TurnSender
  import opened TurnSenderLedger
  import opened TurnSenderRuns

  // ---------------------------------------------------------------- a path is in one slot

  lemma {:induction false} HeldCounts(services: seq<Service>, i: nat, x: Id)
    requires i < |services|
    ensures PathTotal(services, x) >= PathIn(services[i], x)
  {
    if i > 0 {
      assert services[1..][i - 1] == services[i];
      HeldCounts(services[1..], i - 1, x);
    }
  }

  lemma {:induction false} TwiceCounts(services: seq<Service>, i: nat, j: nat, x: Id)
    requires i < j < |services|
    ensures PathTotal(services, x) >= PathIn(services[i], x) + PathIn(services[j], x)
  {
    assert services[1..][j - 1] == services[j];
    if i == 0 {
      HeldCounts(services[1..], j - 1, x);
    } else {
      assert services[1..][i - 1] == services[i];
      TwiceCounts(services[1..], i - 1, j - 1, x);
    }
  }

  lemma HeldOnce(s: State, i: nat, j: nat, x: Id)
    requires Inv(s) && s.stage == Running && i < |s.services| && j < |s.services|
    requires PathIn(s.services[i], x) > 0 && PathIn(s.services[j], x) > 0
    ensures i == j
  {
    assert PathTotal(s.services, x) <= 1;
    if i < j { TwiceCounts(s.services, i, j, x); } else if j < i { TwiceCounts(s.services, j, i, x); }
  }

  // ---------------------------------------------------------------- readiness

  /** Nothing happens to a service that does not prepare the path; one that does is marked, or promoted. */
  ghost predicate Readies(v: Service, w: Service, path: Id, authority: nat) {
    if !Names(Pending(v), path, authority) then w == v
    else w == MarkReady(v, path, authority)
         || w == v.(current := Some(v.preparation.candidate.(ready := true, trial := false)), preparation := Idle)
  }

  lemma {:induction false} ReadyTouches(s: State, i: nat, path: Id, authority: nat, e: Env)
    requires i <= |s.services|
    ensures var t := ReadyFrom(s, i, path, authority, e);
            && |t.services| == |s.services| && t.services[..i] == s.services[..i]
            && forall j | i <= j < |s.services| :: Readies(s.services[j], t.services[j], path, authority)
    decreases |s.services| - i
  {
    if i < |s.services| {
      var v := s.services[i];
      var marked := s.(services := s.services[i := MarkReady(v, path, authority)]);
      var next := if Names(Pending(v), path, authority) then Promote(marked, i, e) else s;
      ReadyTouches(next, i + 1, path, authority, e);
      var t := ReadyFrom(s, i, path, authority, e);
      assert t.services[i] == t.services[..i + 1][i] == next.services[i];
      assert forall j | 0 <= j < i :: t.services[j] == t.services[..i + 1][j] == next.services[j] == s.services[j];
    }
  }

  /** A readiness report changes at most one service, the one preparing the named path under the named
      authority, and promotes nothing but that path. */
  lemma ReadyChangesOnlyNamed(s: State, path: Id, authority: nat, e: Env)
    requires Inv(s) && s.stage == Running
    ensures var t := Step(s, Readied(path, authority), e);
            && |t.services| == |s.services|
            && (forall j | 0 <= j < |s.services| :: Readies(s.services[j], t.services[j], path, authority))
            && (forall j, k | 0 <= j < |s.services| && 0 <= k < |s.services| ::
                  t.services[j] != s.services[j] && t.services[k] != s.services[k] ==> j == k)
  {
    ReadyTouches(s, 0, path, authority, e);
    var t := Step(s, Readied(path, authority), e);
    forall j, k | 0 <= j < |s.services| && 0 <= k < |s.services| && t.services[j] != s.services[j]
    && t.services[k] != s.services[k]
      ensures j == k
    {
      assert Readies(s.services[j], t.services[j], path, authority)
             && Readies(s.services[k], t.services[k], path, authority);
      HeldOnce(s, j, k, path);
    }
  }

  // ---------------------------------------------------------------- withdrawal

  predicate Holds(v: Service, path: Id, authority: nat) {
    Names(v.current, path, authority) || Names(Pending(v), path, authority)
  }

  /** Nothing happens to a service that does not hold the path; from one that does it is gone, and a path in
      its other slot stays. */
  ghost predicate Withdraws(v: Service, w: Service, path: Id, authority: nat) {
    if !Holds(v, path, authority) then w == v
    else
      && !Holds(w, path, authority) && w.id == v.id && w.identity == v.identity
      && w.current == (if Names(v.current, path, authority) then None else v.current)
      && w.preparation == (if Names(Pending(v), path, authority) then Idle else v.preparation)
  }

  lemma WithdrawTouches(s: State, i: nat, path: Id, authority: nat, retryAt: Time, e: Env)
    requires i < |s.services|
    ensures var t := Withdraw(s, i, path, authority, retryAt, e);
            && Withdraws(s.services[i], t.services[i], path, authority)
            && forall j | 0 <= j < |s.services| && j != i :: t.services[j] == s.services[j]
  {
  }

  lemma {:induction false} WithdrawFromTouches(s: State, i: nat, path: Id, authority: nat, retryAt: Time, e: Env)
    requires i <= |s.services|
    ensures var t := WithdrawFrom(s, i, path, authority, retryAt, e);
            && |t.services| == |s.services| && (forall j | 0 <= j < i :: t.services[j] == s.services[j])
            && forall j | i <= j < |s.services| :: Withdraws(s.services[j], t.services[j], path, authority)
    decreases |s.services| - i
  {
    if i < |s.services| {
      WithdrawTouches(s, i, path, authority, retryAt, e);
      WithdrawFromTouches(Withdraw(s, i, path, authority, retryAt, e), i + 1, path, authority, retryAt, e);
    }
  }

  /** A retirement request changes at most one service, the one that holds the named path under the named
      authority, and afterwards nobody does. */
  lemma WithdrawChangesOnlyNamed(s: State, path: Id, authority: nat, idle: bool, e: Env)
    requires Inv(s) && s.stage == Running
    ensures var t := Step(s, Retired(path, authority, idle), e);
            && |t.services| == |s.services|
            && (forall j | 0 <= j < |s.services| ::
                  Withdraws(s.services[j], t.services[j], path, authority) && !Holds(t.services[j], path, authority))
            && (forall j, k | 0 <= j < |s.services| && 0 <= k < |s.services| ::
                  t.services[j] != s.services[j] && t.services[k] != s.services[k] ==> j == k)
  {
    WithdrawFromTouches(s, 0, path, authority, if idle then e.now else e.now + SERVICE_COOLDOWN, e);
    var t := Step(s, Retired(path, authority, idle), e);
    forall j, k | 0 <= j < |s.services| && 0 <= k < |s.services| && t.services[j] != s.services[j]
    && t.services[k] != s.services[k]
      ensures j == k
    {
      assert Withdraws(s.services[j], t.services[j], path, authority)
             && Withdraws(s.services[k], t.services[k], path, authority);
      HeldOnce(s, j, k, path);
    }
  }

  // ---------------------------------------------------------------- a new inventory

  /** A service that stays listed keeps its identity, both slots and its budget; one that is new starts idle. */
  lemma {:induction false} ReconfigurationKeepsSlots(services: seq<Service>, profiles: seq<Profile>, base: Id,
                                                     identity: nat)
    requires identity in Listed(profiles)
    ensures var v, w := Find(services, identity), Find(Rebuild(services, profiles, base), identity);
            && w.Some?
            && (v.None? ==> w.value.current.None? && w.value.preparation.Idle? && w.value.attempts == 0)
            && (v.Some? ==> w.value == v.value.(retryAt := w.value.retryAt, revision := w.value.revision))
  {
    FindNamesIdentity(services, profiles[0].identity);
    if profiles[0].identity != identity {
      var j :| 0 <= j < |profiles| && profiles[j].identity == identity;
      assert profiles[1..][j - 1].identity == identity;
      ReconfigurationKeepsSlots(services, profiles[1..], base + 1, identity);
      assert Rebuild(services, profiles, base)[1..] == Rebuild(services, profiles[1..], base + 1);
    }
  }

  lemma {:induction false} FindNamesIdentity(services: seq<Service>, identity: nat)
    ensures Find(services, identity).Some? ==> Find(services, identity).value.identity == identity
  {
    if services != [] { FindNamesIdentity(services[1..], identity); }
  }

  // ---------------------------------------------------------------- a finished request

  /** Leases are only ever added to the released ones. */
  ghost predicate Releases(s: State, t: State) { s.closed <= t.closed }

  lemma {:induction false} MaintainFromReleases(s: State, i: nat, demand: bool, e: Env)
    requires i <= |s.services|
    ensures Releases(s, MaintainFrom(s, i, demand, e))
    decreases |s.services| - i
  {
    if i < |s.services| {
      MaintainServiceReleases(s, i, demand, e);
      MaintainFromReleases(MaintainService(s, i, demand, e), i + 1, demand, e);
    }
  }

  lemma MaintainServiceReleases(s: State, i: nat, demand: bool, e: Env)
    requires i < |s.services|
    ensures Releases(s, MaintainService(s, i, demand, e))
  {
    var a := MaintainSelection(s, i, e);
    var b := Promote(a, i, e);
    var c := RetireCurrent(b, i, demand, e);
    var d := RetirePending(c, i, demand, e);
    assert Releases(s, a) && Releases(a, b) && Releases(b, c) && Releases(c, d);
  }

  lemma {:induction false} AcquireFromReleases(s: State, i: nat, active: nat, overlap: nat, e: Env)
    requires i <= |s.services|
    ensures AcquireFrom(s, i, active, overlap, e).closed == s.closed
    decreases |s.services| - i
  {
    if i == |s.services| {
    } else if !CanAcquire(s.services, s.services[i], active, overlap, e) {
      AcquireFromReleases(s, i + 1, active, overlap, e);
    } else if s.services[i].current.None? {
      AcquireFromReleases(Acquire(s, i, e), i + 1, active + 1, overlap, e);
    } else {
      AcquireFromReleases(Acquire(s, i, e), i + 1, active, overlap + 1, e);
    }
  }

  lemma MaintainReleases(s: State, e: Env)
    ensures Releases(s, Maintain(s, e))
  {
    var current := Refreshed(s.(services := ApplyReports(s.services, e)), e);
    var demand := e.now < s.demandUntil;
    MaintainFromReleases(current, 0, demand, e);
    var tended := MaintainFrom(current, 0, demand, e);
    if demand { AcquireFromReleases(tended, 0, Active(tended.services), Overlap(tended.services), e); }
  }

  /** The lease sits in the slot of the service that asked for it, and no other service changed. */
  ghost predicate Installed(r: State, t: State, request: Id, lease: Id) {
    exists j | 0 <= j < |r.services| ::
      && r.services[j].preparation.Issuing? && r.services[j].preparation.request == request
      && |t.services| == |r.services| && t.services[j].preparation.Connecting?
      && t.services[j].preparation.candidate.lease == lease && t.services[j].preparation.candidate.path == request
      && t.services == r.services[j := t.services[j]]
  }

  lemma PlaceSettles(r: State, result: Issued, e: Env)
    requires result.lease.Some?
    ensures var t := Place(r, result, e);
            Installed(r, t, result.request, result.lease.value) || t.closed[result.lease.value] > 0
  {
    var i := IndexOf(r.services, result.service);
    if Discarded(r, i, result, e) {
      MaintainReleases(CloseLease(Release(r, i, result.request), result.lease), e);
    } else {
      assert r.services[i].preparation.Issuing? && r.services[i].preparation.request == result.request;
      var t := Place(r, result, e);
      if t.closed == r.closed { assert t.services[i].preparation.candidate.lease == result.lease.value; }
    }
  }

  lemma ReleasedOnce(s: State, x: Id)
    requires Inv(s)
    ensures s.closed[x] <= 1
  {
    assert LeaseTotal(s.services, x) + QueuedTotal(s.completed, x) + s.closed[x] == if x in s.issued then 1 else 0;
  }

  lemma InstallSettles(s: State, e: Env)
    requires s.completed != [] && s.completed[0].lease.Some?
    ensures var x, t := s.completed[0].lease.value, Install(s, e);
            Installed(Refreshed(s, e), t, s.completed[0].request, x) || t.closed[x] > 0
  {
    var r := Refreshed(s.(completed := s.completed[1..]), e);
    assert r.services == Refreshed(s, e).services;
    PlaceSettles(r, s.completed[0], e);
  }

  /** Whatever changed while the request was under way, its lease ends up in the slot that asked for it or is
      released, once. */
  lemma InstallSettlesLease(s: State, e: Env)
    requires Inv(s) && s.stage == Running && Admissible(e) && s.completed != [] && s.completed[0].lease.Some?
    ensures var x, t := s.completed[0].lease.value, Step(s, Installing, e);
            Installed(Refreshed(s, e), t, s.completed[0].request, x) || t.closed[x] == 1
  {
    InstallSettles(s, e);
    StepKeeps(s, Installing, e);
    ReleasedOnce(Step(s, Installing, e), s.completed[0].lease.value);
  }
}
