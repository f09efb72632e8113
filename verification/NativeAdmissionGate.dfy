/** The gate as the program runs it: counters and a queue edited in place. Every method is the operation
    of the same name in NativeAdmission. */
module NativeAdmissionGate {
  import opened Totals
  import opened NativeAdmission
  import opened NativeAdmissionProofs

  lemma {:induction false} FilterStep(queue: seq<Waiter>, i: nat, keep: Waiter -> bool)
    requires i < |queue|
    ensures Filter(queue[i..], keep) == (if keep(queue[i]) then [queue[i]] else []) + Filter(queue[i + 1..], keep)
  {
    assert queue[i..][1..] == queue[i + 1..];
  }

  class Gate {
    var updated: real
    var starts: real
    var endpoints: real
    var activeTime: real
    var active: int
    var queue: seq<Waiter>
    var permits: map<Id, Permit>
    var timer: Option<real>
    var nextId: Id

    ghost function View(): State
      reads this
    {
      State(updated, starts, endpoints, activeTime, active, queue, permits, timer, nextId)
    }

    ghost predicate Valid()
      reads this
    {
      Inv(View())
    }

    constructor (now: real)
      ensures Valid() && View() == Start(now)
    {
      updated, starts, endpoints, activeTime :=
          now, STARTS_PER_WINDOW, STUN_ENDPOINTS_PER_WINDOW, ACTIVE_TIME_PER_WINDOW;
      active, queue, permits, timer, nextId := 0, [], map[], None, 0;
      new;
      StartIsSound(now);
    }

    method RefillTokens(now: real)
      modifies `updated, `starts, `endpoints, `activeTime
      ensures View() == old(Refill(View(), now))
    {
      var elapsed := RMax(now - updated, 0.0);
      starts := RMin(STARTS_PER_WINDOW, starts + elapsed * STARTS_PER_WINDOW / ADMISSION_WINDOW);
      endpoints := RMin(STUN_ENDPOINTS_PER_WINDOW, endpoints + elapsed * STUN_ENDPOINTS_PER_WINDOW / ADMISSION_WINDOW);
      activeTime := RMin(ACTIVE_TIME_PER_WINDOW, activeTime + elapsed * ACTIVE_TIME_PER_WINDOW / ADMISSION_WINDOW);
      if now > updated {
        updated := now;
      }
    }

    /** Moves the served owner's other requests behind everybody else's, class by class. */
    method RotateOwner(owner: nat)
      modifies `queue
      ensures queue == old(Rotate(queue, owner))
    {
      ghost var theirs, mine := (w: Waiter) => w.owner != owner, (w: Waiter) => w.owner == owner;
      var same: seq<Waiter>, other: seq<Waiter>, i := [], [], 0;
      assert queue[0..] == queue;
      while i < |queue|
        invariant 0 <= i <= |queue| && queue == old(queue)
        invariant other + Filter(queue[i..], theirs) == Filter(queue, theirs)
        invariant same + Filter(queue[i..], mine) == Filter(queue, mine)
      {
        FilterStep(queue, i, theirs);
        FilterStep(queue, i, mine);
        if queue[i].owner == owner {
          same := same + [queue[i]];
        } else {
          other := other + [queue[i]];
        }
        i := i + 1;
      }
      assert queue[|queue|..] == [];
      assert other == Filter(queue, theirs) && same == Filter(queue, mine);
      assert other + same == Behind(queue, owner);
      queue := Prioritise(other + same);
    }

    method GrantAt(index: nat, now: real)
      requires index < |queue|
      modifies this
      ensures View() == old(Grant(View(), index, now))
    {
      var w := queue[index];
      queue := queue[..index] + queue[index + 1..];
      RotateOwner(w.owner);
      active := active + 1;
      starts := starts - 1.0;
      endpoints := endpoints - w.endpoints as real;
      activeTime := activeTime - ATTEMPT_BUDGET;
      permits := permits[w.id := Permit(w, now, false, ATTEMPT_BUDGET)];
    }

    method MeasureWait(w: Waiter) returns (wait: real)
      ensures wait == Wait(View(), w)
    {
      wait := RMax((Share(w) - starts) * ADMISSION_WINDOW / STARTS_PER_WINDOW,
                   RMax((w.endpoints as real - endpoints) * ADMISSION_WINDOW / STUN_ENDPOINTS_PER_WINDOW,
                        (ATTEMPT_BUDGET * Share(w) - activeTime) * ADMISSION_WINDOW / ACTIVE_TIME_PER_WINDOW));
    }

    method Prepare(now: real)
      modifies this
      ensures View() == old(Ready(View(), now))
    {
      timer := None;
      RefillTokens(now);
      queue := Prioritise(queue);
    }

    method DrainQueue(now: real, oracle: nat -> Probe) returns (log: seq<Asked>)
      modifies this
      ensures View() == old(Drain(View(), now, oracle)) && log == old(DrainPass(View(), now, oracle).log)
    {
      Prepare(now);
      var wait := 0.0;
      log := [];
      var index := 0;
      ghost var whole := old(DrainPass(View(), now, oracle));
      while index < |queue| && active < CONCURRENT_ATTEMPTS
        invariant index <= |queue|
        invariant Walk(Pass(View(), wait, log), index, oracle) == whole
        decreases |queue|, |queue| - index
      {
        var w := queue[index];
        if Restricted(w) && active >= CONCURRENT_ATTEMPTS - DIRECT_ATTEMPT_RESERVE {
          index := index + 1;
          continue;
        }
        var delay := MeasureWait(w);
        if delay > 0.0 {
          wait := Shorter(wait, delay);
          if !w.relayed { break; }
          index := index + 1;
          continue;
        }
        var probe := oracle(|log|);
        log := log + [Asked(w, probe.answer, queue)];
        match probe.answer
        case Blocked =>
          index := index + 1;
        case Failed =>
          queue := queue[..index] + queue[index + 1..];
        case Reserved =>
          RotateSize(Drop(queue, index), w.owner);
          GrantAt(index, probe.now);
          index := 0;
      }
      if wait > 0.0 && queue != [] {
        timer := Some(wait);
      }
    }

    method Ask(owner: nat, profileEndpoints: nat, relayed: bool, exploration: bool) returns (queued: Option<Id>)
      requires Valid()
      modifies `queue, `nextId
      ensures Valid() && View() == old(Step(View(), Asking(owner, profileEndpoints, relayed, exploration)))
      ensures queued == if |queue| > old(|queue|) then Some(old(nextId)) else None
    {
      StepKeeps(View(), Asking(owner, profileEndpoints, relayed, exploration));
      var cost := if relayed then 0 else profileEndpoints;
      if cost > MAXIMUM_STUN_ENDPOINTS || |queue| >= MAXIMUM_QUEUED_ATTEMPTS { return None; }
      queue := queue + [Waiter(nextId, owner, cost, relayed, exploration)];
      nextId := nextId + 1;
      return Some(nextId - 1);
    }

    method Dispatch(now: real, oracle: nat -> Probe) returns (log: seq<Asked>)
      requires Valid()
      modifies this
      ensures Valid() && View() == old(Step(View(), Draining(now, oracle)))
      ensures Judged(log)
    {
      StepKeeps(View(), Draining(now, oracle));
      DrainIsSound(View(), now, oracle);
      log := DrainQueue(now, oracle);
    }

    method Remove(id: Id, onlyExploration: bool)
      modifies `queue
      ensures queue == if onlyExploration then Filter(old(queue), (w: Waiter) => !(w.id == id && w.exploration))
                       else Without(old(queue), id)
    {
      ghost var keep := if onlyExploration then (w: Waiter) => !(w.id == id && w.exploration)
          else (w: Waiter) => w.id != id;
      var kept: seq<Waiter>, i := [], 0;
      assert queue[0..] == queue;
      while i < |queue|
        invariant 0 <= i <= |queue| && queue == old(queue)
        invariant kept + Filter(queue[i..], keep) == Filter(queue, keep)
      {
        FilterStep(queue, i, keep);
        if queue[i].id != id || (onlyExploration && !queue[i].exploration) {
          kept := kept + [queue[i]];
        }
        i := i + 1;
      }
      assert queue[|queue|..] == [];
      queue := kept;
    }

    method Explore(id: Id, now: real, oracle: nat -> Probe)
      requires Valid()
      modifies this
      ensures Valid() && View() == old(Step(View(), Exploring(id, now, oracle)))
    {
      StepKeeps(View(), Exploring(id, now, oracle));
      var _ := DrainQueue(now, oracle);
      Remove(id, true);
    }

    method Cancel(id: Id, now: real, oracle: nat -> Probe)
      requires Valid()
      modifies this
      ensures Valid() && View() == old(Step(View(), Canceling(id, now, oracle)))
    {
      StepKeeps(View(), Canceling(id, now, oracle));
      if id in permits { return; }
      Remove(id, false);
      var _ := DrainQueue(now, oracle);
    }

    method TakeBack(id: Id, refillAt: real, usedAt: real)
      requires id in permits
      modifies this
      ensures View() == old(Returned(View(), id, refillAt, usedAt))
    {
      RefillTokens(refillAt);
      var used := RMin(RMax(usedAt - permits[id].started, 0.0), ATTEMPT_BUDGET);
      active := active - 1;
      permits := permits[id := permits[id].(released := true, charged := used)];
      activeTime := RMin(ACTIVE_TIME_PER_WINDOW, activeTime + (ATTEMPT_BUDGET - used));
    }

    method Release(id: Id, refillAt: real, usedAt: real, drainAt: real, oracle: nat -> Probe)
      requires Valid()
      modifies this
      ensures Valid() && View() == old(Step(View(), Releasing(id, refillAt, usedAt, drainAt, oracle)))
    {
      StepKeeps(View(), Releasing(id, refillAt, usedAt, drainAt, oracle));
      if id !in permits || permits[id].released { return; }
      TakeBack(id, refillAt, usedAt);
      var _ := DrainQueue(drainAt, oracle);
    }
  }
}
