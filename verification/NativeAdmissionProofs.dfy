/** What the admission gate guarantees: priority and fairness inside a pass, that nobody is stranded
    after it, and rate and concurrency bounds over every history. */
module NativeAdmissionProofs {
  import opened Totals
  import opened NativeAdmission

  // ---------------------------------------------------------------- queues

  ghost predicate DistinctIds(queue: seq<Waiter>) {
    forall i, j | 0 <= i < j < |queue| :: queue[i].id != queue[j].id
  }

  lemma {:induction false} FilterFacts(queue: seq<Waiter>, keep: Waiter -> bool)
    ensures forall w :: w in Filter(queue, keep) <==> w in queue && keep(w)
    ensures |Filter(queue, keep)| <= |queue|
  {
    if queue != [] {
      FilterFacts(queue[1..], keep);
      assert queue == [queue[0]] + queue[1..];
    }
  }

  lemma {:induction false} FilterDistinct(queue: seq<Waiter>, keep: Waiter -> bool)
    requires DistinctIds(queue)
    ensures DistinctIds(Filter(queue, keep))
  {
    if queue != [] {
      FilterDistinct(queue[1..], keep);
      FilterFacts(queue[1..], keep);
      assert forall w | w in queue[1..] :: w.id != queue[0].id;
    }
  }

  /** Splitting by two complementary tests is a rearrangement. */
  lemma SplitFacts(queue: seq<Waiter>, f: Waiter -> bool, g: Waiter -> bool)
    requires forall w :: f(w) != g(w)
    ensures var r := Filter(queue, f) + Filter(queue, g);
            && |r| == |queue|
            && (forall w :: w in r <==> w in queue)
            && (DistinctIds(queue) ==> DistinctIds(r))
  {
    SplitSizes(queue, f, g);
    FilterFacts(queue, f);
    FilterFacts(queue, g);
    if DistinctIds(queue) {
      FilterDistinct(queue, f);
      FilterDistinct(queue, g);
      var a, b := Filter(queue, f), Filter(queue, g);
      forall i, j | 0 <= i < |a| && 0 <= j < |b| ensures a[i].id != b[j].id {
        assert a[i] in a && b[j] in b;
        var m :| 0 <= m < |queue| && queue[m] == a[i];
        var n :| 0 <= n < |queue| && queue[n] == b[j];
        assert m != n;
      }
    }
  }

  /** Sorting by class: the same waiters, in class order. */
  lemma PrioritiseFacts(queue: seq<Waiter>)
    ensures var r := Prioritise(queue);
            && |r| == |queue| && (forall w :: w in r <==> w in queue) && (DistinctIds(queue) ==> DistinctIds(r))
            && Ordered(r)
  {
    SplitFacts(queue, (w: Waiter) => !w.exploration, (w: Waiter) => w.exploration);
    var a, b := Filter(queue, (w: Waiter) => !w.exploration), Filter(queue, (w: Waiter) => w.exploration);
    FilterFacts(queue, (w: Waiter) => !w.exploration);
    FilterFacts(queue, (w: Waiter) => w.exploration);
    assert forall i | 0 <= i < |a| :: a[i] in a;
    assert forall i | 0 <= i < |b| :: b[i] in b;
  }

  /** Fairness: rotation keeps the waiters, keeps the classes apart, and inside a class puts every other
      owner before the owner just served. */
  lemma RotateFacts(queue: seq<Waiter>, owner: nat)
    ensures var r := Rotate(queue, owner);
            && |r| == |queue| && (forall w :: w in r <==> w in queue) && (DistinctIds(queue) ==> DistinctIds(r))
            && Ordered(r)
            && (forall i, j | 0 <= i < j < |r| && r[i].exploration == r[j].exploration ::
                  r[i].owner == owner ==> r[j].owner == owner)
  {
    var behind := Behind(queue, owner);
    SplitFacts(queue, (w: Waiter) => w.owner != owner, (w: Waiter) => w.owner == owner);
    PrioritiseFacts(behind);
    BehindOrder(queue, owner);
    FilterTail(behind, owner, (w: Waiter) => !w.exploration);
    FilterTail(behind, owner, (w: Waiter) => w.exploration);
    var a, b := Filter(behind, (w: Waiter) => !w.exploration), Filter(behind, (w: Waiter) => w.exploration);
    FilterFacts(behind, (w: Waiter) => !w.exploration);
    FilterFacts(behind, (w: Waiter) => w.exploration);
    assert forall i | 0 <= i < |a| :: a[i] in a;
    assert forall i | 0 <= i < |b| :: b[i] in b;
  }

  ghost predicate Last(queue: seq<Waiter>, owner: nat) {
    forall i, j | 0 <= i < j < |queue| :: queue[i].owner == owner ==> queue[j].owner == owner
  }

  lemma BehindOrder(queue: seq<Waiter>, owner: nat)
    ensures Last(Behind(queue, owner), owner)
  {
    var a, b := Filter(queue, (w: Waiter) => w.owner != owner), Filter(queue, (w: Waiter) => w.owner == owner);
    FilterFacts(queue, (w: Waiter) => w.owner != owner);
    FilterFacts(queue, (w: Waiter) => w.owner == owner);
    assert forall i | 0 <= i < |a| :: a[i] in a;
    assert forall i | 0 <= i < |b| :: b[i] in b;
  }

  lemma {:induction false} FilterTail(queue: seq<Waiter>, owner: nat, keep: Waiter -> bool)
    requires Last(queue, owner)
    ensures Last(Filter(queue, keep), owner)
  {
    if queue != [] {
      FilterTail(queue[1..], owner, keep);
      FilterFacts(queue[1..], keep);
      assert forall w | w in queue[1..] :: queue[0].owner == owner ==> w.owner == owner;
    }
  }

  lemma DropFacts(queue: seq<Waiter>, index: nat)
    requires index < |queue|
    ensures |Drop(queue, index)| == |queue| - 1
    ensures forall w | w in Drop(queue, index) :: w in queue
    ensures DistinctIds(queue) ==> DistinctIds(Drop(queue, index))
    ensures DistinctIds(queue) ==> forall w | w in Drop(queue, index) :: w.id != queue[index].id
    ensures Ordered(queue) ==> Ordered(Drop(queue, index))
  {
  }

  // ---------------------------------------------------------------- permits and tokens

  lemma RefillKeeps(s: State, now: real)
    requires Tokens(s)
    ensures Tokens(Refill(s, now))
    ensures Refill(s, now).updated >= s.updated
    ensures Refill(s, now).starts - s.starts
            <= (Refill(s, now).updated - s.updated) * STARTS_PER_WINDOW / ADMISSION_WINDOW
  {
    assert RMax(now - s.updated, 0.0) == Refill(s, now).updated - s.updated;
  }

  lemma HeldAfterGrant(permits: map<Id, Permit>, w: Waiter, now: real)
    requires w.id !in permits
    ensures var after := permits[w.id := Permit(w, now, false, ATTEMPT_BUDGET)];
            |Held(after)| == |Held(permits)| + 1 && |after| == |permits| + 1
  {
    var after := permits[w.id := Permit(w, now, false, ATTEMPT_BUDGET)];
    assert Held(after) == Held(permits) + {w.id};
    assert after.Keys == permits.Keys + {w.id};
  }

  lemma RestrictedAfterGrant(permits: map<Id, Permit>, w: Waiter, now: real)
    requires w.id !in permits
    ensures var after := permits[w.id := Permit(w, now, false, ATTEMPT_BUDGET)];
            |HeldRestricted(after)| == |HeldRestricted(permits)| + (if Restricted(w) then 1 else 0)
  {
    var after := permits[w.id := Permit(w, now, false, ATTEMPT_BUDGET)];
    if Restricted(w) {
      assert HeldRestricted(after) == HeldRestricted(permits) + {w.id};
    } else {
      assert HeldRestricted(after) == HeldRestricted(permits);
    }
  }

  lemma RestrictedAreHeld(permits: map<Id, Permit>)
    ensures |HeldRestricted(permits)| <= |Held(permits)|
  {
    assert HeldRestricted(permits) <= Held(permits);
    SubsetSize(HeldRestricted(permits), Held(permits));
  }

  /** The gate a waiter passed just before its sockets were asked for. */
  ghost predicate Passable(s: State, w: Waiter) {
    && s.active < CONCURRENT_ATTEMPTS && Wait(s, w) <= 0.0
    && (Restricted(w) ==> s.active < CONCURRENT_ATTEMPTS - DIRECT_ATTEMPT_RESERVE)
  }

  lemma GrantTokens(s: State, index: nat, now: real)
    requires index < |s.queue| && Tokens(s) && Passable(s, s.queue[index])
    ensures Tokens(Grant(s, index, now))
    ensures Restricted(s.queue[index]) ==>
              Grant(s, index, now).starts >= 1.0 && Grant(s, index, now).activeTime >= ATTEMPT_BUDGET
  {
  }

  lemma GrantPermits(s: State, index: nat, now: real)
    requires index < |s.queue| && Permits(s) && Passable(s, s.queue[index]) && s.queue[index].id !in s.permits
    ensures Permits(Grant(s, index, now)) && |Grant(s, index, now).permits| == |s.permits| + 1
  {
    HeldAfterGrant(s.permits, s.queue[index], now);
    RestrictedAfterGrant(s.permits, s.queue[index], now);
    RestrictedAreHeld(s.permits);
  }

  lemma GrantQueued(s: State, index: nat, now: real)
    requires index < |s.queue| && Queued(s)
    ensures Queued(Grant(s, index, now)) && Ordered(Grant(s, index, now).queue)
    ensures |Grant(s, index, now).queue| == |s.queue| - 1
  {
    var w := s.queue[index];
    var t := Grant(s, index, now);
    DropFacts(s.queue, index);
    RotateFacts(Drop(s.queue, index), w.owner);
    forall i | 0 <= i < |t.queue| ensures Fresh(t.queue[i], t) {
      assert t.queue[i] in t.queue;
      assert t.queue[i] in Drop(s.queue, index);
    }
  }

  lemma GrantKeeps(s: State, index: nat, now: real)
    requires Inv(s) && index < |s.queue| && Passable(s, s.queue[index])
    ensures Inv(Grant(s, index, now)) && Ordered(Grant(s, index, now).queue)
    ensures |Grant(s, index, now).permits| == |s.permits| + 1
  {
    GrantTokens(s, index, now);
    GrantPermits(s, index, now);
    GrantQueued(s, index, now);
  }

  /** A restricted grant leaves a whole direct opportunity: a slot, a start and its time budget. */
  lemma DirectOpportunityRemains(s: State, index: nat, now: real, direct: Waiter)
    requires Inv(s) && index < |s.queue| && Restricted(s.queue[index]) && Passable(s, s.queue[index])
    requires !Restricted(direct) && direct.endpoints as real <= Grant(s, index, now).endpoints
    ensures Passable(Grant(s, index, now), direct)
  {
  }

  // ---------------------------------------------------------------- one pass

  /** Why the walk went past a waiter; none of the causes can change before the next grant. */
  ghost predicate Passed(p: Pass, w: Waiter) {
    || (Restricted(w) && p.state.active >= CONCURRENT_ATTEMPTS - DIRECT_ATTEMPT_RESERVE)
    || (w.relayed && Wait(p.state, w) > 0.0 && p.wait > 0.0)
    || w.id in Refused(p.log)
  }

  ghost predicate Walking(p: Pass, index: nat) {
    && index <= |p.state.queue| && Inv(p.state) && Ordered(p.state.queue) && p.wait >= 0.0
    && (forall j {:trigger p.state.queue[j]} | 0 <= j < index :: Passed(p, p.state.queue[j]))
  }

  ghost predicate Judged(log: seq<Asked>) { forall i {:trigger Deserved(log, i)} | 0 <= i < |log| :: Deserved(log, i) }

  /** Every waiter left in the queue has a cause that will bring the next pass: a permit to be released,
      a refill timer, or a change of socket capacity. */
  ghost predicate NobodyStranded(p: Pass) {
    p.state.active >= CONCURRENT_ATTEMPTS || p.wait > 0.0 || forall w | w in p.state.queue :: Passed(p, w)
  }

  lemma LogOne(log: seq<Asked>, a: Asked)
    ensures Refused(log + [a]) == match a.answer
                                  case Reserved => {}
                                  case Blocked => Refused(log) + {a.waiter.id}
                                  case Failed => Refused(log)
    ensures Judged(log) && Deserved(log + [a], |log|) ==> Judged(log + [a])
  {
    assert (log + [a])[..|log|] == log;
    if Judged(log) && Deserved(log + [a], |log|) {
      forall i | 0 <= i < |log + [a]| ensures Deserved(log + [a], i) {
        if i < |log| {
          assert Deserved(log, i);
          assert (log + [a])[..i] == log[..i];
        }
      }
    }
  }

  /** The exploration now asked about stands behind nobody essential who could still have gone first. */
  lemma ExplorationIsLast(p: Pass, index: nat)
    requires Walking(p, index) && index < |p.state.queue| && p.state.queue[index].exploration
    requires Passable(p.state, p.state.queue[index])
    ensures forall w | w in p.state.queue && !w.exploration :: w.id in Refused(p.log)
  {
    var s := p.state;
    forall w | w in s.queue && !w.exploration ensures w.id in Refused(p.log) {
      var j :| 0 <= j < |s.queue| && s.queue[j] == w;
      assert j < index;
      assert Passed(p, s.queue[j]);
      assert Fresh(s.queue[j], s);
    }
  }

  lemma AskedDeserved(p: Pass, index: nat, answer: Answer)
    requires Walking(p, index) && index < |p.state.queue| && Passable(p.state, p.state.queue[index])
    ensures var log := p.log + [Asked(p.state.queue[index], answer, p.state.queue)]; Deserved(log, |p.log|)
  {
    var log := p.log + [Asked(p.state.queue[index], answer, p.state.queue)];
    assert log[..|p.log|] == p.log;
    if p.state.queue[index].exploration { ExplorationIsLast(p, index); }
  }

  lemma DropWalking(p: Pass, index: nat, log: seq<Asked>)
    requires Walking(p, index) && index < |p.state.queue| && Refused(log) == Refused(p.log)
    ensures Walking(p.(state := p.state.(queue := Drop(p.state.queue, index)), log := log), index)
  {
    var s := p.state;
    var t := s.(queue := Drop(s.queue, index));
    var q := p.(state := t, log := log);
    DropFacts(s.queue, index);
    forall i | 0 <= i < |t.queue| ensures Fresh(t.queue[i], t) {
      assert t.queue[i] in t.queue;
      assert t.queue[i] in s.queue;
    }
    forall j | 0 <= j < index ensures Passed(q, t.queue[j]) {
      assert Passed(p, s.queue[j]);
    }
  }

  lemma SkipWalking(p: Pass, q: Pass, index: nat)
    requires Walking(p, index) && index < |p.state.queue| && q.state == p.state
    requires Refused(p.log) <= Refused(q.log) && q.wait >= 0.0 && (p.wait > 0.0 ==> q.wait > 0.0)
    requires Passed(q, q.state.queue[index])
    ensures Walking(q, index + 1)
  {
    forall j | 0 <= j < index + 1 ensures Passed(q, q.state.queue[j]) {
      if j < index { assert Passed(p, p.state.queue[j]); }
    }
  }

  /** What a walk guarantees of where it started: the invariant is kept, every grant to an exploration was
      deserved, starts pay for grants, and whoever is left has a cause. */
  ghost predicate Walked(s: State, q: Pass) {
    && Inv(q.state) && Judged(q.log) && NobodyStranded(q) && q.wait >= 0.0
    && SameBudget(s, q.state)
  }

  lemma {:induction false} WalkKeeps(p: Pass, index: nat, oracle: nat -> Probe)
    requires Walking(p, index) && Judged(p.log)
    ensures Walked(p.state, Walk(p, index, oracle))
    decreases |p.state.queue|, |p.state.queue| - index
  {
    var s := p.state;
    if index == |s.queue| || s.active >= CONCURRENT_ATTEMPTS {
      WalkEnds(p, index);
    } else {
      var w := s.queue[index];
      if Restricted(w) && s.active >= CONCURRENT_ATTEMPTS - DIRECT_ATTEMPT_RESERVE {
        SkipWalking(p, p, index);
        WalkKeeps(p, index + 1, oracle);
      } else if Wait(s, w) > 0.0 {
        var waiting := p.(wait := Shorter(p.wait, Wait(s, w)));
        if w.relayed {
          SkipWalking(p, waiting, index);
          WalkKeeps(waiting, index + 1, oracle);
        } else {
          WalkWaits(p, index, waiting);
        }
      } else {
        var next := AfterAsk(p, index, oracle(|p.log|));
        AfterAskWalking(p, index, oracle(|p.log|));
        WalkKeeps(next.pass, next.index, oracle);
        BudgetChain(s, next.pass.state, Walk(next.pass, next.index, oracle));
      }
    }
  }

  lemma WalkEnds(p: Pass, index: nat)
    requires Walking(p, index) && Judged(p.log) && (index == |p.state.queue| || p.state.active >= CONCURRENT_ATTEMPTS)
    ensures Walked(p.state, p)
  {
    if p.state.active < CONCURRENT_ATTEMPTS {
      forall w | w in p.state.queue ensures Passed(p, w) {
        var j :| 0 <= j < |p.state.queue| && p.state.queue[j] == w;
        assert Passed(p, p.state.queue[j]);
      }
    }
  }

  lemma WalkWaits(p: Pass, index: nat, waiting: Pass)
    requires Walking(p, index) && Judged(p.log) && waiting == p.(wait := waiting.wait) && waiting.wait > 0.0
    ensures Walked(p.state, waiting)
  {
  }

  lemma BudgetChain(s: State, t: State, q: Pass)
    requires SameBudget(s, t) && Walked(t, q)
    ensures Walked(s, q)
  {
  }

  /** What no step of a walk changes. */
  ghost predicate SameBudget(s: State, t: State) {
    && t.updated == s.updated && t.nextId == s.nextId && t.timer == s.timer
    && t.starts + |t.permits| as real == s.starts + |s.permits| as real
  }

  lemma AfterAskWalking(p: Pass, index: nat, probe: Probe)
    requires Walking(p, index) && Judged(p.log) && index < |p.state.queue| && Passable(p.state, p.state.queue[index])
    ensures var c := AfterAsk(p, index, probe);
            Walking(c.pass, c.index) && Judged(c.pass.log) && SameBudget(p.state, c.pass.state)
  {
    var s, w := p.state, p.state.queue[index];
    var asked := p.(log := p.log + [Asked(w, probe.answer, s.queue)]);
    LogOne(p.log, Asked(w, probe.answer, s.queue));
    AskedDeserved(p, index, probe.answer);
    match probe.answer
    case Blocked => SkipWalking(p, asked, index);
    case Failed => DropWalking(p, index, asked.log);
    case Reserved => GrantWalking(p, index, probe.now, asked.log);
  }

  lemma GrantWalking(p: Pass, index: nat, now: real, log: seq<Asked>)
    requires Walking(p, index) && index < |p.state.queue| && Passable(p.state, p.state.queue[index])
    ensures var t := Grant(p.state, index, now);
            && Walking(p.(state := t, log := log), 0) && |t.queue| == |p.state.queue| - 1
            && t.starts + |t.permits| as real == p.state.starts + |p.state.permits| as real
  {
    GrantKeeps(p.state, index, now);
    GrantQueued(p.state, index, now);
  }

  lemma ReadyKeeps(s: State, now: real)
    requires Inv(s)
    ensures Inv(Ready(s, now)) && Ordered(Ready(s, now).queue)
  {
    var t := Ready(s, now);
    RefillKeeps(s, now);
    PrioritiseFacts(s.queue);
    forall i | 0 <= i < |t.queue| ensures Fresh(t.queue[i], t) {
      assert t.queue[i] in t.queue;
      assert t.queue[i] in s.queue;
    }
  }

  /** Admission priority and progress of one dispatch, from any sound state and for any answers. */
  lemma DrainIsSound(s: State, now: real, oracle: nat -> Probe)
    requires Inv(s)
    ensures var p := DrainPass(s, now, oracle);
            && Inv(p.state) && Judged(p.log) && NobodyStranded(p)
            && (p.wait > 0.0 && p.state.queue != [] <==> Drain(s, now, oracle).timer.Some?)
    ensures Inv(Drain(s, now, oracle))
  {
    ReadyKeeps(s, now);
    WalkKeeps(Pass(Ready(s, now), 0.0, []), 0, oracle);
  }

  // ---------------------------------------------------------------- every history

  /** Start tokens and grants together; refilled by the clock alone. */
  ghost function Spent(s: State): real {
    s.starts + |s.permits| as real - s.updated * STARTS_PER_WINDOW / ADMISSION_WINDOW
  }

  lemma DrainSpends(s: State, now: real, oracle: nat -> Probe)
    requires Inv(s)
    ensures Spent(Drain(s, now, oracle)) <= Spent(s) && Drain(s, now, oracle).updated >= s.updated
    ensures Drain(s, now, oracle).nextId == s.nextId
  {
    ReadyKeeps(s, now);
    RefillKeeps(s, now);
    WalkKeeps(Pass(Ready(s, now), 0.0, []), 0, oracle);
  }

  lemma EnqueueKeeps(s: State, owner: nat, endpoints: nat, relayed: bool, exploration: bool)
    requires Inv(s)
    ensures Inv(Enqueue(s, owner, endpoints, relayed, exploration))
  {
  }

  lemma FilterKeeps(s: State, keep: Waiter -> bool)
    requires Inv(s)
    ensures Inv(s.(queue := Filter(s.queue, keep)))
  {
    var t := s.(queue := Filter(s.queue, keep));
    FilterFacts(s.queue, keep);
    FilterDistinct(s.queue, keep);
    forall i | 0 <= i < |t.queue| ensures Fresh(t.queue[i], t) {
      assert t.queue[i] in t.queue;
      assert t.queue[i] in s.queue;
    }
  }

  lemma ReturnedKeeps(s: State, id: Id, refillAt: real, usedAt: real)
    requires Inv(s) && id in s.permits && !s.permits[id].released
    ensures Inv(Returned(s, id, refillAt, usedAt)) && Spent(Returned(s, id, refillAt, usedAt)) <= Spent(s)
    ensures Returned(s, id, refillAt, usedAt).updated >= s.updated
  {
    var t := Returned(s, id, refillAt, usedAt);
    RefillKeeps(s, refillAt);
    assert Held(t.permits) == Held(s.permits) - {id} && id in Held(s.permits);
    assert HeldRestricted(t.permits) == HeldRestricted(s.permits) - {id};
    SubsetSize(HeldRestricted(t.permits), HeldRestricted(s.permits));
    assert t.permits.Keys == s.permits.Keys;
    assert |t.permits| == |s.permits|;
    forall i | 0 <= i < |t.queue| ensures Fresh(t.queue[i], t) { assert Fresh(s.queue[i], s); }
  }

  lemma ReleaseKeeps(s: State, id: Id, refillAt: real, usedAt: real, drainAt: real, oracle: nat -> Probe)
    requires Inv(s)
    ensures var t := Release(s, id, refillAt, usedAt, drainAt, oracle);
            Inv(t) && Spent(t) <= Spent(s) && t.updated >= s.updated
  {
    if id in s.permits && !s.permits[id].released {
      ReturnedKeeps(s, id, refillAt, usedAt);
      DrainIsSound(Returned(s, id, refillAt, usedAt), drainAt, oracle);
      DrainSpends(Returned(s, id, refillAt, usedAt), drainAt, oracle);
    }
  }

  lemma StepKeeps(s: State, op: Operation)
    requires Inv(s)
    ensures Inv(Step(s, op)) && Spent(Step(s, op)) <= Spent(s) && Step(s, op).updated >= s.updated
  {
    match op
    case Asking(owner, endpoints, relayed, exploration) => EnqueueKeeps(s, owner, endpoints, relayed, exploration);
    case Draining(now, oracle) =>
      DrainIsSound(s, now, oracle);
      DrainSpends(s, now, oracle);
    case Exploring(id, now, oracle) =>
      DrainIsSound(s, now, oracle);
      DrainSpends(s, now, oracle);
      FilterKeeps(Drain(s, now, oracle), (w: Waiter) => !(w.id == id && w.exploration));
    case Canceling(id, now, oracle) =>
      FilterKeeps(s, (w: Waiter) => w.id != id);
      DrainIsSound(Withdraw(s, id), now, oracle);
      DrainSpends(Withdraw(s, id), now, oracle);
    case Releasing(id, refillAt, usedAt, drainAt, oracle) => ReleaseKeeps(s, id, refillAt, usedAt, drainAt, oracle);
  }

  lemma {:induction false} RunKeeps(s: State, ops: seq<Operation>)
    requires Inv(s)
    ensures var t := RunFrom(s, ops); Inv(t) && Spent(t) <= Spent(s) && t.updated >= s.updated
    decreases |ops|
  {
    if ops != [] {
      RunKeeps(s, ops[..|ops| - 1]);
      StepKeeps(RunFrom(s, ops[..|ops| - 1]), ops[|ops| - 1]);
    }
  }

  lemma StartIsSound(now: real)
    ensures Inv(Start(now))
  {
    assert Held(Start(now).permits) == {} && HeldRestricted(Start(now).permits) == {};
  }

  /** Concurrency: after every history at most four attempts hold permits, at most three of them relayed
      or exploring, and the counter is exactly the permits not yet released. */
  lemma AtMostFourAttempts(now: real, ops: seq<Operation>)
    ensures var s := RunFrom(Start(now), ops);
            && s.active == |Held(s.permits)| <= CONCURRENT_ATTEMPTS
            && |HeldRestricted(s.permits)| <= CONCURRENT_ATTEMPTS - DIRECT_ATTEMPT_RESERVE
            && |s.queue| <= MAXIMUM_QUEUED_ATTEMPTS
  {
    StartIsSound(now);
    RunKeeps(Start(now), ops);
  }

  /** Rate: between any two moments of any history, grants exceed one full bucket only by what the
      clock's own progress refilled, however the clock was read. */
  lemma GrantRateBounded(now: real, before: seq<Operation>, later: seq<Operation>)
    ensures var s := RunFrom(Start(now), before);
            var t := RunFrom(s, later);
            |t.permits| as real - |s.permits| as real
              <= STARTS_PER_WINDOW + (t.updated - s.updated) * STARTS_PER_WINDOW / ADMISSION_WINDOW
  {
    StartIsSound(now);
    RunKeeps(Start(now), before);
    RunKeeps(RunFrom(Start(now), before), later);
  }
}
