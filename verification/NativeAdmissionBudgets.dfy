/** The two remaining buckets: over any stretch of any history, the STUN endpoints and the attempt time
    that permits cost exceed one full bucket only by what the clock's progress refilled. */
module NativeAdmissionBudgets {
  import opened Totals
  import opened NativeAdmission
  import opened NativeAdmissionProofs

  ghost function EndpointCosts(permits: map<Id, Permit>): map<Id, int> {
    map id | id in permits :: permits[id].waiter.endpoints
  }

  ghost function TimeCosts(permits: map<Id, Permit>): map<Id, real> { map id | id in permits :: permits[id].charged }

  ghost function EndpointsSpent(s: State): real { Sum(EndpointCosts(s.permits)) as real }

  ghost function TimeSpent(s: State): real { RealSum(TimeCosts(s.permits)) }

  /** A permit costs its whole budget until released, then what it used. */
  ghost predicate Charged(permits: map<Id, Permit>) {
    forall id | id in permits ::
      0.0 <= permits[id].charged <= ATTEMPT_BUDGET && (!permits[id].released ==> permits[id].charged == ATTEMPT_BUDGET)
  }

  ghost function EndpointBalance(s: State): real {
    s.endpoints + EndpointsSpent(s) - s.updated * STUN_ENDPOINTS_PER_WINDOW / ADMISSION_WINDOW
  }

  ghost function TimeBalance(s: State): real {
    s.activeTime + TimeSpent(s) - s.updated * ACTIVE_TIME_PER_WINDOW / ADMISSION_WINDOW
  }

  /** Nothing is spent that was not in a bucket or refilled by the clock. */
  ghost predicate Paid(s: State, t: State) {
    EndpointBalance(t) <= EndpointBalance(s) && TimeBalance(t) <= TimeBalance(s) && Charged(t.permits)
  }

  lemma PaidOnward(s: State, t: State, u: State)
    requires Paid(s, t) && Paid(t, u)
    ensures Paid(s, u)
  {
  }

  lemma RefillPaid(s: State, now: real)
    requires Charged(s.permits)
    ensures Paid(s, Refill(s, now))
  {
    assert RMax(now - s.updated, 0.0) == Refill(s, now).updated - s.updated;
  }

  lemma GrantPaid(s: State, index: nat, now: real)
    requires index < |s.queue| && s.queue[index].id !in s.permits && Charged(s.permits)
    ensures Paid(s, Grant(s, index, now))
  {
    var w, t := s.queue[index], Grant(s, index, now);
    assert EndpointCosts(t.permits) == EndpointCosts(s.permits)[w.id := w.endpoints];
    SumInsert(EndpointCosts(s.permits), w.id, w.endpoints);
    assert TimeCosts(t.permits) == TimeCosts(s.permits)[w.id := ATTEMPT_BUDGET];
    RealSumUpdate(TimeCosts(s.permits), w.id, ATTEMPT_BUDGET);
  }

  lemma AfterAskPaid(p: Pass, index: nat, probe: Probe)
    requires index < |p.state.queue| && p.state.queue[index].id !in p.state.permits && Charged(p.state.permits)
    ensures Paid(p.state, AfterAsk(p, index, probe).pass.state)
  {
    GrantPaid(p.state, index, probe.now);
  }

  lemma {:induction false} WalkPaid(p: Pass, index: nat, oracle: nat -> Probe)
    requires Walking(p, index) && Judged(p.log) && Charged(p.state.permits)
    ensures Paid(p.state, Walk(p, index, oracle).state)
    decreases |p.state.queue|, |p.state.queue| - index
  {
    var s := p.state;
    if index < |s.queue| && s.active < CONCURRENT_ATTEMPTS {
      var w := s.queue[index];
      if Restricted(w) && s.active >= CONCURRENT_ATTEMPTS - DIRECT_ATTEMPT_RESERVE {
        SkipWalking(p, p, index);
        WalkPaid(p, index + 1, oracle);
      } else if Wait(s, w) > 0.0 {
        var waiting := p.(wait := Shorter(p.wait, Wait(s, w)));
        if w.relayed {
          SkipWalking(p, waiting, index);
          WalkPaid(waiting, index + 1, oracle);
        }
      } else {
        var next := AfterAsk(p, index, oracle(|p.log|));
        assert Fresh(w, s);
        AfterAskWalking(p, index, oracle(|p.log|));
        AfterAskPaid(p, index, oracle(|p.log|));
        WalkPaid(next.pass, next.index, oracle);
        PaidOnward(s, next.pass.state, Walk(next.pass, next.index, oracle).state);
      }
    }
  }

  lemma DrainPaid(s: State, now: real, oracle: nat -> Probe)
    requires Inv(s) && Charged(s.permits)
    ensures Paid(s, Drain(s, now, oracle))
  {
    ReadyKeeps(s, now);
    RefillPaid(s, now);
    WalkPaid(Pass(Ready(s, now), 0.0, []), 0, oracle);
  }

  /** A returned permit's refund is exactly what it does not cost any more. */
  lemma ReturnedPaid(s: State, id: Id, refillAt: real, usedAt: real)
    requires id in s.permits && !s.permits[id].released && Charged(s.permits)
    ensures Paid(s, Returned(s, id, refillAt, usedAt))
  {
    var t := Returned(s, id, refillAt, usedAt);
    var used := RMin(RMax(usedAt - s.permits[id].started, 0.0), ATTEMPT_BUDGET);
    RefillPaid(s, refillAt);
    assert EndpointCosts(t.permits) == EndpointCosts(s.permits);
    assert TimeCosts(t.permits) == TimeCosts(s.permits)[id := used];
    RealSumUpdate(TimeCosts(s.permits), id, used);
  }

  lemma ReleasePaid(s: State, id: Id, refillAt: real, usedAt: real, drainAt: real, oracle: nat -> Probe)
    requires Inv(s) && Charged(s.permits)
    ensures Paid(s, Release(s, id, refillAt, usedAt, drainAt, oracle))
  {
    if id in s.permits && !s.permits[id].released {
      ReturnedKeeps(s, id, refillAt, usedAt);
      ReturnedPaid(s, id, refillAt, usedAt);
      DrainPaid(Returned(s, id, refillAt, usedAt), drainAt, oracle);
    }
  }

  lemma StepPaid(s: State, op: Operation)
    requires Inv(s) && Charged(s.permits)
    ensures Paid(s, Step(s, op))
  {
    match op
    case Asking(owner, endpoints, relayed, exploration) =>
    case Draining(now, oracle) => DrainPaid(s, now, oracle);
    case Exploring(id, now, oracle) => DrainPaid(s, now, oracle);
    case Canceling(id, now, oracle) =>
      FilterKeeps(s, (w: Waiter) => w.id != id);
      DrainPaid(Withdraw(s, id), now, oracle);
    case Releasing(id, refillAt, usedAt, drainAt, oracle) => ReleasePaid(s, id, refillAt, usedAt, drainAt, oracle);
  }

  lemma {:induction false} RunPaid(s: State, ops: seq<Operation>)
    requires Inv(s) && Charged(s.permits)
    ensures Paid(s, RunFrom(s, ops))
    decreases |ops|
  {
    if ops != [] {
      RunPaid(s, ops[..|ops| - 1]);
      RunKeeps(s, ops[..|ops| - 1]);
      StepPaid(RunFrom(s, ops[..|ops| - 1]), ops[|ops| - 1]);
    }
  }

  /** Between any two moments of any history: at most one bucket of STUN endpoints and one of attempt time,
      plus what the clock's progress refilled. */
  lemma SpendingBounded(now: real, before: seq<Operation>, later: seq<Operation>)
    ensures var s := RunFrom(Start(now), before);
            var t := RunFrom(s, later);
            && EndpointsSpent(t) - EndpointsSpent(s)
                 <= STUN_ENDPOINTS_PER_WINDOW + (t.updated - s.updated) * STUN_ENDPOINTS_PER_WINDOW / ADMISSION_WINDOW
            && TimeSpent(t) - TimeSpent(s) <= ACTIVE_TIME_PER_WINDOW
                + (t.updated - s.updated) * ACTIVE_TIME_PER_WINDOW / ADMISSION_WINDOW
  {
    StartIsSound(now);
    RunKeeps(Start(now), before);
    RunPaid(Start(now), before);
    RunKeeps(RunFrom(Start(now), before), later);
    RunPaid(RunFrom(Start(now), before), later);
  }
}
