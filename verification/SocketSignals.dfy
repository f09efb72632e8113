/** A caller that samples the change signal before asking for capacity cannot miss the release that
    would let it in: a refusal stands until the signal fires. */
module SocketSignals {
  import opened Totals
  import opened SocketAuthority
  import opened SocketLedger

  /** What a refusal depends on survives: every path and every held reservation is still there. */
  ghost predicate PathStays(s: State, t: State, k: PathKey)
    requires k in s.paths
  {
    && k in t.paths && t.paths[k] == s.paths[k]
    && (s.paths[k] in s.entries ==>
          && s.paths[k] in t.entries
          && t.entries[s.paths[k]].addresses == s.entries[s.paths[k]].addresses
          && t.entries[s.paths[k]].optional == s.entries[s.paths[k]].optional
          && (s.entries[s.paths[k]].closing ==> t.entries[s.paths[k]].closing))
  }

  ghost predicate HoldStays(s: State, t: State, k: PathKey)
    requires k in s.reserved
  {
    && k in t.reserved && t.reserved[k] == s.reserved[k]
    && (s.reserved[k] in s.reservations ==>
          && s.reserved[k] in t.reservations
          && t.reservations[s.reserved[k]].addresses == s.reservations[s.reserved[k]].addresses
          && t.reservations[s.reserved[k]].optional == s.reservations[s.reserved[k]].optional)
  }

  ghost predicate Extends(s: State, t: State) {
    && t.capacity == s.capacity && t.retiredThrough >= s.retiredThrough && (s.closing ==> t.closing)
    && t.socketCount + t.reservedCount >= s.socketCount + s.reservedCount
    && (forall k {:trigger PathStays(s, t, k)} | k in s.paths :: PathStays(s, t, k))
    && (forall k {:trigger HoldStays(s, t, k)} | k in s.reserved :: HoldStays(s, t, k))
  }

  lemma ExtendsChain(s: State, t: State, u: State)
    requires Extends(s, t) && Extends(t, u)
    ensures Extends(s, u)
  {
    forall k | k in s.paths ensures PathStays(s, u, k) { assert PathStays(s, t, k) && PathStays(t, u, k); }
    forall k | k in s.reserved ensures HoldStays(s, u, k) { assert HoldStays(s, t, k) && HoldStays(t, u, k); }
  }

  lemma OpenExtends(s: State, key: PathKey, addresses: seq<Address>)
    requires Fresh(s) && key !in s.paths
    ensures Extends(s, Open(s, key, addresses).state)
  {
    forall k | k in s.paths ensures PathStays(s, Open(s, key, addresses).state, k) {}
  }

  lemma AcquireExtends(s: State, key: PathKey, addresses: seq<Address>, bound: bool)
    requires Fresh(s) && (key in s.paths ==> s.paths[key] in s.entries)
    ensures Extends(s, Acquire(s, key, addresses, bound).state)
  {
    var reply := Acquire(s, key, addresses, bound);
    if reply.outcome.Done? && key in s.paths {
      assert reply == Share(s, s.paths[key]);
      StayExtends(s, reply.state);
    } else if reply.outcome.Done? {
      assert reply == Open(s, key, addresses);
      OpenExtends(s, key, addresses);
    } else {
      assert reply.state == s;
    }
  }

  lemma CloseLeaseExtends(s: State, l: Id)
    requires Known(s, l)
    ensures Extends(s, CloseLease(s, l))
  {
  }

  lemma ReserveExtends(s: State, key: PathKey, addresses: seq<Address>, optional: bool)
    requires Fresh(s)
    ensures Extends(s, Reserve(s, key, addresses, optional).state)
  {
    var reply := Reserve(s, key, addresses, optional);
    if !reply.outcome.Done? {
      assert reply.state == s;
    } else if key in s.paths && s.paths[key] in s.entries {
      var shared := Share(s, s.paths[key]).state;
      StayExtends(s, shared);
      assert reply.state == shared.(reservations := reply.state.reservations, nextId := reply.state.nextId);
      ExtendsChain(s, shared, reply.state);
    } else {
      assert reply.state == Hold(s, key, addresses, optional);
      HoldExtends(s, key, addresses, optional);
    }
  }

  lemma HoldExtends(s: State, key: PathKey, addresses: seq<Address>, optional: bool)
    requires Fresh(s) && key !in s.reserved
    ensures Extends(s, Hold(s, key, addresses, optional))
  {
  }

  lemma SettleExtends(s: State, r: Id)
    requires r in s.reservations
    ensures Extends(s, Settle(s, r))
  {
  }

  lemma PrepareTCPExtends(s: State, l: Id, v6: bool, bound: bool)
    requires Known(s, l)
    ensures Extends(s, PrepareTCP(s, l, v6, bound).state)
  {
    var t := PrepareTCP(s, l, v6, bound).state;
    forall k | k in s.paths ensures PathStays(s, t, k) {}
  }

  lemma StayExtends(s: State, t: State)
    requires EntriesStay(s, t)
    ensures Extends(s, t)
  {
  }

  lemma WorkExtends(s: State, op: Operation)
    requires op.Claiming1? || op.Claiming2? || op.Yielding? || op.Idling? || op.Exiting? || op.Retaining?
    ensures Extends(s, Step(s, op))
  {
    if op.Idling? || op.Exiting? || op.Retaining? { WorkersStay(s, op); } else { ClaimsStay(s, op); }
    StayExtends(s, Step(s, op));
  }

  lemma SettleThenClose(s: State, r: Id)
    requires Usable(s, r) && s.reservations[r].lease.Some?
    ensures Extends(s, CloseLease(Settle(s, r), s.reservations[r].lease.value)) && Extends(s, Settle(s, r))
  {
    SettleExtends(s, r);
    CloseLeaseExtends(Settle(s, r), s.reservations[r].lease.value);
    ExtendsChain(s, Settle(s, r), CloseLease(Settle(s, r), s.reservations[r].lease.value));
  }

  /** A step that fires no signal takes nothing away. */
  lemma QuietStepExtends(s: State, op: Operation)
    requires Inv(s) && Step(s, op).epoch == s.epoch
    ensures Extends(s, Step(s, op))
  {
    match op
    case Acquiring(_, _, _) => DemandExtends(s, op);
    case Reserving(_, _, _) => DemandExtends(s, op);
    case Activating(r, bound) => QuietActivation(s, r, bound);
    case Abandoning(r) => QuietAbandon(s, r);
    case _ => RestExtends(s, op);
  }

  lemma RestExtends(s: State, op: Operation)
    requires !op.Acquiring? && !op.Reserving? && !op.Activating? && !op.Abandoning? && Step(s, op).epoch == s.epoch
    ensures Extends(s, Step(s, op))
  {
    match op
    case Releasing(l) => if Known(s, l) { CloseLeaseExtends(s, l); }
    case Listening(l, v6, bound) => if Known(s, l) { PrepareTCPExtends(s, l, v6, bound); }
    case Finishing(e) =>
    case Retiring(generation) =>
    case Closing =>
    case _ => WorkExtends(s, op);
  }

  lemma QuietAbandon(s: State, r: Id)
    requires Step(s, Abandoning(r)).epoch == s.epoch
    ensures Extends(s, Step(s, Abandoning(r)))
  {
    if Usable(s, r) && s.reservations[r].lease.Some? { SettleThenClose(s, r); }
  }

  lemma DemandExtends(s: State, op: Operation)
    requires Inv(s) && (op.Acquiring? || op.Reserving?)
    ensures Extends(s, Step(s, op))
  {
    match op
    case Acquiring(key, addresses, bound) =>
      if key in s.paths { assert PathOk(s, key); }
      AcquireExtends(s, key, addresses, bound);
    case Reserving(key, addresses, optional) => ReserveExtends(s, key, addresses, optional);
  }

  lemma QuietActivation(s: State, r: Id, bound: bool)
    requires Inv(s) && Step(s, Activating(r, bound)).epoch == s.epoch
    ensures Extends(s, Step(s, Activating(r, bound)))
  {
    if Usable(s, r) && !s.reservations[r].settled {
      if s.reservations[r].lease.Some? {
        SettleThenClose(s, r);
      } else {
        UnreserveKeeps(s, r);
        var v := s.reservations[r];
        AcquireKeeps(Unreserve(s, r), v.key, v.addresses, bound);
      }
    }
  }

  lemma PromisesGrow(s: State, t: State)
    requires Extends(s, t)
    ensures Promised(s) <= Promised(t) && EssentialReserve(s) <= EssentialReserve(t)
  {
    forall n | n in Promised(s) ensures n in Promised(t) {
      if k :| k in s.paths && s.paths[k] in s.entries && s.entries[s.paths[k]].optional
              && n == |s.entries[s.paths[k]].addresses| {
        assert PathStays(s, t, k);
      } else {
        var k :| k in s.reserved && s.reserved[k] in s.reservations && s.reservations[s.reserved[k]].optional
                 && n == |s.reservations[s.reserved[k]].addresses|;
        assert HoldStays(s, t, k);
      }
    }
  }

  /** The path was opened since, with these very addresses, and can be shared. */
  ghost predicate Opened(s: State, t: State, key: PathKey, addresses: seq<Address>) {
    && key !in s.paths && !t.closing && key.generation > t.retiredThrough
    && key in t.paths && t.paths[key] in t.entries
    && !t.entries[t.paths[key]].closing && t.entries[t.paths[key]].addresses == addresses
  }

  lemma RefusalExtends(s: State, t: State, key: PathKey, addresses: seq<Address>, optional: bool)
    requires Accounts(s) && Extends(s, t) && !Reserve(s, key, addresses, optional).outcome.Done?
    ensures Reserve(t, key, addresses, optional).outcome.Done? <==> Opened(s, t, key, addresses)
  {
    PromisesGrow(s, t);
    if key in s.paths { assert PathOk(s, key) && PathStays(s, t, key); }
    if key in s.reserved { assert HoldStays(s, t, key); }
  }

  lemma EpochStep(capacity: nat, ops: seq<Operation>, op: Operation)
    ensures Run(capacity, ops).epoch <= Step(Run(capacity, ops), op).epoch
  {
    AuthorityIsSound(capacity, ops);
    StepKeeps(Run(capacity, ops), op);
  }

  lemma QuietNext(capacity: nat, ops: seq<Operation>, op: Operation)
    requires Step(Run(capacity, ops), op).epoch == Run(capacity, ops).epoch
    ensures Extends(Run(capacity, ops), Step(Run(capacity, ops), op))
  {
    AuthorityIsSound(capacity, ops);
    QuietStepExtends(Run(capacity, ops), op);
  }

  lemma {:induction false} QuietRunExtends(capacity: nat, before: seq<Operation>, later: seq<Operation>)
    requires Run(capacity, before + later).epoch == Run(capacity, before).epoch
    ensures Extends(Run(capacity, before), Run(capacity, before + later))
    decreases |later|
  {
    if later == [] {
      assert before + later == before;
    } else {
      var shorter := later[..|later| - 1];
      assert (before + later)[..|before + later| - 1] == before + shorter;
      var s := Run(capacity, before + shorter);
      EpochStep(capacity, before + shorter, later[|later| - 1]);
      EpochsGrow(capacity, before, shorter);
      QuietRunExtends(capacity, before, shorter);
      QuietNext(capacity, before + shorter, later[|later| - 1]);
      ExtendsChain(Run(capacity, before), s, Step(s, later[|later| - 1]));
    }
  }

  /** Lost wakeups, exactly: until the signal the caller sampled fires, a refused request is granted after
      any further steps if and only if the same path was opened meanwhile with the same addresses and is
      not closing. No release, retirement or settlement is ever missed. */
  lemma RefusalStandsUntilSignalled(capacity: nat, before: seq<Operation>, later: seq<Operation>,
                                    key: PathKey, addresses: seq<Address>, optional: bool)
    requires !Reserve(Run(capacity, before), key, addresses, optional).outcome.Done?
    requires Run(capacity, before + later).epoch == Run(capacity, before).epoch
    ensures Reserve(Run(capacity, before + later), key, addresses, optional).outcome.Done? <==>
            Opened(Run(capacity, before), Run(capacity, before + later), key, addresses)
  {
    QuietRunExtends(capacity, before, later);
    AuthorityIsSound(capacity, before);
    RefusalExtends(Run(capacity, before), Run(capacity, before + later), key, addresses, optional);
  }

  /** The exception is real: a direct acquisition of the same path lets a refused optional request share
      it, and fires no signal. */
  lemma SharedPathIsNotSignalled()
    ensures var key, addresses := PathKey(1, 1, 1), [Address(0, false, true), Address(1, false, true)];
            var s, t := Run(3, []), Run(3, [Acquiring(key, addresses, true)]);
            && Reserve(s, key, addresses, true).outcome == ErrCapacity
            && Reserve(t, key, addresses, true).outcome.Done?
            && t.epoch == s.epoch
  {
    var key, addresses := PathKey(1, 1, 1), [Address(0, false, true), Address(1, false, true)];
    var ops := [Acquiring(key, addresses, true)];
    assert ops[..|ops| - 1] == [];
    assert Run(3, []) == Empty(3);
    assert Run(3, ops) == Step(Empty(3), ops[0]);
  }

  lemma {:induction false} EpochsGrow(capacity: nat, before: seq<Operation>, later: seq<Operation>)
    ensures Run(capacity, before).epoch <= Run(capacity, before + later).epoch
    decreases |later|
  {
    if later == [] {
      assert before + later == before;
    } else {
      var shorter := later[..|later| - 1];
      assert (before + later)[..|before + later| - 1] == before + shorter;
      EpochsGrow(capacity, before, shorter);
      EpochStep(capacity, before + shorter, later[|later| - 1]);
    }
  }
}
