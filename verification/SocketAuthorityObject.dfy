/** The authority as the object the program shares: its tables are fields changed in place, its scans are
    loops. Path, lease, reservation, claim and worker objects are rows of tables, named by identity. */
module SocketAuthorityObject {
  import opened Totals
  import opened SocketAuthority
  import SocketLedger

  ghost predicate Reachable(s: State) { exists ops :: Run(s.capacity, ops) == s }

  lemma ReachableStep(s: State, op: Operation)
    requires Reachable(s)
    ensures Reachable(Step(s, op))
  {
    var ops :| Run(s.capacity, ops) == s;
    assert (ops + [op])[..|ops + [op]| - 1] == ops;
    assert Run(s.capacity, ops + [op]) == Step(s, op);
    SocketLedger.AuthorityIsSound(s.capacity, ops + [op]);
  }

  /** Every row names rows that exist; the invariant gives this for every reachable state. */
  ghost predicate Linked(s: State) {
    && (forall k | k in s.paths :: s.paths[k] in s.entries && s.entries[s.paths[k]].key == k)
    && (forall k | k in s.reserved :: s.reserved[k] in s.reservations)
    && (forall l | l in s.leases :: s.leases[l].entry in s.entries)
    && (forall r | r in s.reservations :: s.reservations[r].lease.Some? ==> s.reservations[r].lease.value in s.leases)
    && (forall c | c in s.claims :: s.claims[c].lease in s.leases)
  }

  lemma ReachableLinked(s: State)
    requires Reachable(s)
    ensures Linked(s)
  {
    var ops :| Run(s.capacity, ops) == s;
    SocketLedger.AuthorityIsSound(s.capacity, ops);
    forall k | k in s.paths ensures s.paths[k] in s.entries && s.entries[s.paths[k]].key == k { assert PathOk(s, k); }
    forall k | k in s.reserved ensures s.reserved[k] in s.reservations { assert ReservedOk(s, k); }
    forall r | r in s.reservations ensures s.reservations[r].lease.Some? ==> s.reservations[r].lease.value in s.leases {
      assert ReservationOk(s, r);
    }
    forall c | c in s.claims ensures s.claims[c].lease in s.leases { assert ClaimOk(s, c); }
  }

  /** Where an address first occurs. */
  function First(addresses: seq<Address>, a: Address): nat {
    if addresses == [] || addresses[0] == a then 0 else 1 + First(addresses[1..], a)
  }

  /** Dropping repeats keeps every address once, in order of first occurrence. */
  lemma {:induction false} DedupExact(addresses: seq<Address>, seen: set<Address>)
    ensures var r := Dedup(addresses, seen);
            && (forall i, j | 0 <= i < j < |r| :: r[i] != r[j])
            && (forall a :: a in r <==> a in addresses && a !in seen)
            && (forall i, j | 0 <= i < j < |r| :: First(addresses, r[i]) < First(addresses, r[j]))
            && |r| <= |addresses|
  {
    if addresses != [] {
      var seen' := if addresses[0] in seen then seen else seen + {addresses[0]};
      DedupExact(addresses[1..], seen');
      assert addresses == [addresses[0]] + addresses[1..];
      if addresses[0] !in seen {
        var rest := Dedup(addresses[1..], seen');
        assert Dedup(addresses, seen) == [addresses[0]] + rest;
        assert addresses[0] !in rest;
      }
    }
  }

  lemma {:induction false} NeededSplit(a: seq<Address>, b: Address, tcp: seq<Address>, v6: bool)
    ensures Needed(a + [b], tcp, v6) == Needed(a, tcp, v6) + (if (b.v6 && !v6) || b in tcp then [] else [b])
  {
    if a == [] {
      assert a + [b] == [b];
    } else {
      assert (a + [b])[1..] == a[1..] + [b];
      NeededSplit(a[1..], b, tcp, v6);
    }
  }

  method FindNeeded(addresses: seq<Address>, tcp: seq<Address>, v6: bool) returns (needed: seq<Address>)
    ensures needed == Needed(addresses, tcp, v6)
  {
    needed := [];
    var i := 0;
    assert addresses[..0] == [];
    while i < |addresses|
      invariant 0 <= i <= |addresses|
      invariant needed == Needed(addresses[..i], tcp, v6)
    {
      NeededSplit(addresses[..i], addresses[i], tcp, v6);
      assert addresses[..i + 1] == addresses[..i] + [addresses[i]];
      if !((addresses[i].v6 && !v6) || addresses[i] in tcp) {
        needed := needed + [addresses[i]];
      }
      i := i + 1;
    }
    assert addresses[..|addresses|] == addresses;
  }

  /** Freezes a request: one socket per distinct address, and only usable addresses. */
  method Freeze(capacity: nat, key: PathKey, addresses: seq<Address>) returns (request: Option<seq<Address>>)
    ensures var unique := Dedup(addresses, {});
            request == if ValidRequest(Empty(capacity), key, unique) then Some(unique) else None
  {
    var unique: seq<Address>, seen: set<Address>, i := [], {}, 0;
    assert addresses[0..] == addresses;
    while i < |addresses|
      invariant 0 <= i <= |addresses|
      invariant unique + Dedup(addresses[i..], seen) == Dedup(addresses, {})
    {
      assert addresses[i..][1..] == addresses[i + 1..];
      if addresses[i] in seen {
        assert seen + {addresses[i]} == seen;
      } else {
        unique := unique + [addresses[i]];
      }
      seen := seen + {addresses[i]};
      i := i + 1;
    }
    assert addresses[|addresses|..] == [] && unique + [] == unique;
    assert unique == Dedup(addresses, {});
    if key.session == 0 || key.generation == 0 || key.path == 0 || |unique| == 0 || |unique| > MAX_ADDRESSES_PER_PATH {
      return None;
    }
    var j := 0;
    while j < |unique|
      invariant 0 <= j <= |unique|
      invariant forall n | 0 <= n < j :: unique[n].usable
    {
      if !unique[j].usable { return None; }
      j := j + 1;
    }
    if |unique| > capacity { return None; }
    return Some(unique);
  }

  lemma UnreserveLinked(s: State, r: Id)
    requires Linked(s) && r in s.reservations
    ensures Linked(Unreserve(s, r))
  {
  }

  lemma AcquirePlaces(s: State, key: PathKey, addresses: seq<Address>, bound: bool)
    ensures var reply := SocketAuthority.Acquire(s, key, addresses, bound);
            reply.outcome.Done? ==> key in reply.state.paths && reply.state.paths[key] in reply.state.entries
  {
  }

  class Authority {
    const capacity: nat
    var entries: map<Id, Entry>
    var paths: map<PathKey, Id>
    var reserved: map<PathKey, Id>
    var reservations: map<Id, Reservation>
    var leases: map<Id, Lease>
    var claims: map<Id, Claim>
    var tasks: map<Id, Task>
    var socketCount: int
    var reservedCount: int
    var retiredThrough: nat
    var closing: bool
    var epoch: nat
    var nextId: Id

    ghost function View(): State
      reads this
    {
      State(capacity, entries, paths, reserved, reservations, leases, claims, tasks, socketCount, reservedCount,
            retiredThrough, closing, epoch, nextId)
    }

    ghost predicate Valid()
      reads this
    {
      Reachable(View())
    }

    constructor (capacity: nat)
      ensures Valid() && View() == Empty(capacity)
    {
      this.capacity := capacity;
      entries, paths, reserved, reservations := map[], map[], map[], map[];
      leases, claims, tasks := map[], map[], map[];
      socketCount, reservedCount, retiredThrough, closing, epoch, nextId := 0, 0, 0, false, 0, 0;
      new;
      assert Run(capacity, []) == View();
    }

    method MeasurePaths() returns (reserve: nat)
      requires Linked(View())
      ensures reserve == 0 || reserve in Promised(View())
      ensures forall k | k in paths && entries[paths[k]].optional :: |entries[paths[k]].addresses| <= reserve
    {
      reserve := 0;
      var rest := paths.Keys;
      while rest != {}
        invariant rest <= paths.Keys
        invariant reserve == 0 || reserve in Promised(View())
        invariant forall k | k in paths && k !in rest && entries[paths[k]].optional ::
                    |entries[paths[k]].addresses| <= reserve
        decreases |rest|
      {
        var k :| k in rest;
        if entries[paths[k]].optional { reserve := Max(reserve, |entries[paths[k]].addresses|); }
        rest := rest - {k};
      }
    }

    /** The largest mandatory set that optional work has to keep room for. */
    method MeasureEssentialReserve() returns (reserve: nat)
      requires Linked(View())
      ensures reserve == EssentialReserve(View())
    {
      reserve := MeasurePaths();
      var rest := reserved.Keys;
      while rest != {}
        invariant rest <= reserved.Keys
        invariant reserve == 0 || reserve in Promised(View())
        invariant forall k | k in paths && entries[paths[k]].optional :: |entries[paths[k]].addresses| <= reserve
        invariant forall k | k in reserved && k !in rest && reservations[reserved[k]].optional ::
                    |reservations[reserved[k]].addresses| <= reserve
        decreases |rest|
      {
        var k :| k in rest;
        if reservations[reserved[k]].optional { reserve := Max(reserve, |reservations[reserved[k]].addresses|); }
        rest := rest - {k};
      }
      assert forall n | n in Promised(View()) :: n <= reserve;
    }

    method ShareEntry(e: Id) returns (lease: Id)
      requires e in entries
      modifies `entries, `leases, `nextId
      ensures View() == old(Share(View(), e).state) && lease == old(nextId)
    {
      entries := entries[e := entries[e].(refs := entries[e].refs + 1)];
      lease := nextId;
      leases := leases[lease := Lease(e, false)];
      nextId := nextId + 1;
    }

    method AcquireLocked(key: PathKey, addresses: seq<Address>, bound: bool) returns (outcome: Outcome)
      requires Linked(View())
      modifies `entries, `paths, `leases, `socketCount, `nextId
      ensures Reply(View(), outcome) == old(SocketAuthority.Acquire(View(), key, addresses, bound))
    {
      if closing { return ErrClosed; }
      if key.generation <= retiredThrough { return ErrRetired; }
      if key in paths {
        var e := entries[paths[key]];
        if e.closing { return Blocked; }
        if e.addresses != addresses { return ErrInvalid; }
        var lease := ShareEntry(paths[key]);
        return Done(lease);
      }
      if key in reserved || socketCount + reservedCount + |addresses| > capacity { return ErrCapacity; }
      if !bound { return ErrListen; }
      entries := entries[nextId := Entry(key, addresses, [], false, 1, Unclaimed, None, false, None, false, 0)];
      paths := paths[key := nextId];
      socketCount := socketCount + |addresses|;
      leases := leases[nextId + 1 := Lease(nextId, false)];
      nextId := nextId + 2;
      return Done(nextId - 1);
    }

    method Acquire(key: PathKey, addresses: seq<Address>, bound: bool) returns (outcome: Outcome)
      requires Valid()
      modifies this
      ensures Valid() && View() == old(Step(View(), Acquiring(key, Dedup(addresses, {}), bound)))
      ensures Some(outcome) == old(Answer(View(), Acquiring(key, Dedup(addresses, {}), bound)))
    {
      ReachableStep(View(), Acquiring(key, Dedup(addresses, {}), bound));
      ReachableLinked(View());
      var request := Freeze(capacity, key, addresses);
      if request.None? { return ErrInvalid; }
      outcome := AcquireLocked(key, request.value, bound);
    }

    method ReserveRequest(key: PathKey, addresses: seq<Address>, optional: bool) returns (outcome: Outcome)
      requires Valid()
      modifies this
      ensures Valid() && View() == old(Step(View(), Reserving(key, Dedup(addresses, {}), optional)))
      ensures Some(outcome) == old(Answer(View(), Reserving(key, Dedup(addresses, {}), optional)))
    {
      ReachableStep(View(), Reserving(key, Dedup(addresses, {}), optional));
      ReachableLinked(View());
      var request := Freeze(capacity, key, addresses);
      if request.None? { return ErrInvalid; }
      outcome := ReserveLocked(key, request.value, optional);
    }

    method ReserveLocked(key: PathKey, addresses: seq<Address>, optional: bool) returns (outcome: Outcome)
      requires Linked(View())
      modifies `entries, `reserved, `reservations, `leases, `reservedCount, `nextId
      ensures Reply(View(), outcome) == old(SocketAuthority.Reserve(View(), key, addresses, optional))
    {
      if closing { return ErrClosed; }
      if key.generation <= retiredThrough { return ErrRetired; }
      if key in paths {
        var e := entries[paths[key]];
        if e.closing { return ErrCapacity; }
        if e.addresses != addresses { return ErrInvalid; }
        var lease := ShareEntry(paths[key]);
        reservations := reservations[nextId := Reservation(key, addresses, false, Some(lease), false)];
        nextId := nextId + 1;
        return Done(nextId - 1);
      }
      var reserve := 0;
      if optional {
        var essential := MeasureEssentialReserve();
        reserve := Max(|addresses|, essential);
      }
      if key in reserved || socketCount + reservedCount + |addresses| + reserve > capacity { return ErrCapacity; }
      reservations := reservations[nextId := Reservation(key, addresses, optional, None, false)];
      reserved := reserved[key := nextId];
      reservedCount := reservedCount + |addresses|;
      nextId := nextId + 1;
      return Done(nextId - 1);
    }

    method StartCloseLocked(id: Id)
      requires id in entries
      modifies `entries
      ensures entries == old(entries[id := StartClose(entries[id])])
    {
      if !entries[id].closing {
        entries := entries[id := entries[id].(closing := true, closer := entries[id].idle,
                                              closes := entries[id].closes + 1)];
      }
    }

    method ReleaseLease(l: Id)
      requires Known(View(), l)
      modifies `entries, `leases
      ensures View() == old(SocketAuthority.CloseLease(View(), l))
    {
      if !leases[l].released {
        var id := leases[l].entry;
        leases := leases[l := leases[l].(released := true)];
        entries := entries[id := entries[id].(refs := entries[id].refs - 1)];
        if entries[id].refs == 0 {
          StartCloseLocked(id);
        }
      }
    }

    method CloseLease(l: Id)
      requires Valid() && l in leases
      modifies `entries, `leases
      ensures Valid() && View() == old(Step(View(), Releasing(l)))
    {
      ReachableStep(View(), Releasing(l));
      ReachableLinked(View());
      ReleaseLease(l);
    }

    /** The closing goroutine's last section, once sockets are closed and the captured worker joined. */
    method RemovePath(id: Id)
      requires CanFinish(View(), id)
      modifies `entries, `paths, `socketCount, `epoch
      ensures View() == old(FinishClose(View(), id))
    {
      paths := paths - {entries[id].key};
      socketCount := socketCount - SocketCount(entries[id]);
      epoch := epoch + 1;
      entries := entries[id := entries[id].(removed := true)];
    }

    method FinishClosing(id: Id)
      requires Valid() && CanFinish(View(), id)
      modifies `entries, `paths, `socketCount, `epoch
      ensures Valid() && View() == old(Step(View(), Finishing(id)))
    {
      ReachableStep(View(), Finishing(id));
      RemovePath(id);
    }

    method CheckAvailable(l: Id) returns (unavailable: Option<Outcome>)
      requires Known(View(), l)
      ensures unavailable == Unavailable(View(), l)
    {
      if leases[l].released || closing || entries[leases[l].entry].closing { return Some(ErrClosed); }
      if entries[leases[l].entry].key.generation <= retiredThrough { return Some(ErrRetired); }
      return None;
    }

    method GiveBack(r: Id)
      requires r in reservations
      modifies `reservations, `reserved, `reservedCount
      ensures View() == old(Unreserve(View(), r))
    {
      var v := reservations[r];
      reservations := reservations[r := v.(settled := true)];
      reserved := reserved - {v.key};
      reservedCount := reservedCount - |v.addresses|;
    }

    method ActivateHeld(r: Id, bound: bool) returns (outcome: Outcome)
      requires Linked(View()) && r in reservations && !reservations[r].settled && reservations[r].lease.None?
      modifies this
      ensures Reply(View(), outcome) == old(SocketAuthority.Activate(View(), r, bound))
    {
      var v := reservations[r];
      UnreserveLinked(View(), r);
      AcquirePlaces(Unreserve(View(), r), v.key, v.addresses, bound);
      GiveBack(r);
      outcome := AcquireLocked(v.key, v.addresses, bound);
      MarkActivated(outcome, v.key, v.optional);
      epoch := epoch + 1;
    }

    method MarkActivated(outcome: Outcome, key: PathKey, optional: bool)
      requires outcome.Done? ==> key in paths && paths[key] in entries
      modifies `entries
      ensures View() == old(MarkOptional(Reply(View(), outcome), key, optional))
    {
      if outcome.Done? {
        entries := entries[paths[key] := entries[paths[key]].(optional := optional)];
      }
    }

    method Activate(r: Id, bound: bool) returns (outcome: Outcome)
      requires Valid() && r in reservations
      modifies this
      ensures Valid() && View() == old(Step(View(), Activating(r, bound)))
      ensures Some(outcome) == old(Answer(View(), Activating(r, bound)))
    {
      ReachableStep(View(), Activating(r, bound));
      ReachableLinked(View());
      var v := reservations[r];
      if v.settled { return ErrInvalid; }
      if v.lease.Some? {
        reservations := reservations[r := v.(settled := true)];
        var unavailable := CheckAvailable(v.lease.value);
        if unavailable.Some? {
          ReleaseLease(v.lease.value);
          return unavailable.value;
        }
        return Done(v.lease.value);
      }
      outcome := ActivateHeld(r, bound);
    }

    method SettleReservation(r: Id)
      requires Usable(View(), r)
      modifies this
      ensures View() == old(Abandon(View(), r))
    {
      var v := reservations[r];
      if v.settled { return; }
      reservations := reservations[r := v.(settled := true)];
      if v.lease.None? {
        reserved := reserved - {v.key};
        reservedCount := reservedCount - |v.addresses|;
        epoch := epoch + 1;
      } else {
        ReleaseLease(v.lease.value);
      }
    }

    method CloseReservation(r: Id)
      requires Valid() && r in reservations
      modifies this
      ensures Valid() && View() == old(Step(View(), Abandoning(r)))
    {
      ReachableStep(View(), Abandoning(r));
      ReachableLinked(View());
      SettleReservation(r);
    }

    method RetainLease(l: Id) returns (outcome: Outcome)
      requires Valid() && l in leases
      modifies `entries, `leases, `nextId
      ensures Valid() && View() == old(Step(View(), Retaining(l)))
      ensures Some(outcome) == old(Answer(View(), Retaining(l)))
    {
      ReachableStep(View(), Retaining(l));
      ReachableLinked(View());
      var unavailable := CheckAvailable(l);
      if unavailable.Some? { return unavailable.value; }
      var lease := ShareEntry(leases[l].entry);
      return Done(lease);
    }

    method Listen(l: Id, v6: bool, bound: bool) returns (outcome: Outcome)
      requires Linked(View()) && l in leases
      modifies `entries, `socketCount
      ensures Reply(View(), outcome) == old(SocketAuthority.PrepareTCP(View(), l, v6, bound))
    {
      var unavailable := CheckAvailable(l);
      if unavailable.Some? { return unavailable.value; }
      var id := leases[l].entry;
      if entries[id].owner != Unclaimed { return ErrActive; }
      var needed := FindNeeded(entries[id].addresses, entries[id].tcp, v6);
      var essential := MeasureEssentialReserve();
      if socketCount + reservedCount + |needed| + essential > capacity { return ErrCapacity; }
      if !bound { return ErrListen; }
      entries := entries[id := entries[id].(tcp := entries[id].tcp + needed)];
      socketCount := socketCount + |needed|;
      return Done(l);
    }

    method PrepareTCP(l: Id, v6: bool, bound: bool) returns (outcome: Outcome)
      requires Valid() && l in leases
      modifies `entries, `socketCount
      ensures Valid() && View() == old(Step(View(), Listening(l, v6, bound)))
      ensures Some(outcome) == old(Answer(View(), Listening(l, v6, bound)))
    {
      ReachableStep(View(), Listening(l, v6, bound));
      ReachableLinked(View());
      outcome := Listen(l, v6, bound);
    }

    method TakeOwnership(l: Id) returns (outcome: Outcome)
      requires Known(View(), l)
      modifies `entries, `claims, `nextId
      ensures Reply(View(), outcome) == old(SocketAuthority.BeginClaim(View(), l))
    {
      var unavailable := CheckAvailable(l);
      if unavailable.Some? { return unavailable.value; }
      var id := leases[l].entry;
      if entries[id].owner != Unclaimed { return ErrActive; }
      entries := entries[id := entries[id].(owner := Claiming(nextId))];
      claims := claims[nextId := Claim(l, Waiting(entries[id].idle))];
      nextId := nextId + 1;
      return Done(nextId - 1);
    }

    method BeginClaim(l: Id) returns (outcome: Outcome)
      requires Valid() && l in leases
      modifies `entries, `claims, `nextId
      ensures Valid() && View() == old(Step(View(), Claiming1(l)))
      ensures Some(outcome) == old(Answer(View(), Claiming1(l)))
    {
      ReachableStep(View(), Claiming1(l));
      ReachableLinked(View());
      outcome := TakeOwnership(l);
    }

    method EndClaim(c: Id)
      requires Valid() && CanEndClaim(View(), c)
      modifies `entries, `claims
      ensures Valid() && View() == old(Step(View(), Claiming2(c)))
    {
      ReachableStep(View(), Claiming2(c));
      ReachableLinked(View());
      var l := claims[c].lease;
      var id := leases[l].entry;
      var unavailable := CheckAvailable(l);
      entries := entries[id := entries[id].(idle := None, owner := if unavailable.None? then Active(c) else Unclaimed)];
      claims := claims[c := claims[c].(phase := if unavailable.None? then Holding else Ended)];
    }

    method ReleaseClaim(c: Id)
      requires Valid() && c in claims
      modifies `entries, `claims
      ensures Valid() && View() == old(Step(View(), Yielding(c)))
    {
      ReachableStep(View(), Yielding(c));
      ReachableLinked(View());
      if claims[c].phase.Holding? {
        var id := leases[claims[c].lease].entry;
        entries := entries[id := entries[id].(owner := Unclaimed)];
        claims := claims[c := claims[c].(phase := Ended)];
      }
    }

    method LaunchWorker(l: Id) returns (outcome: Outcome)
      requires Known(View(), l)
      modifies `entries, `tasks, `nextId
      ensures Reply(View(), outcome) == old(SocketAuthority.StartIdle(View(), l))
    {
      var unavailable := CheckAvailable(l);
      if unavailable.Some? { return unavailable.value; }
      var id := leases[l].entry;
      if entries[id].owner != Unclaimed { return ErrActive; }
      if entries[id].idle.Some? && !(entries[id].idle.value in tasks && tasks[entries[id].idle.value].exited) {
        return Blocked;
      }
      entries := entries[id := entries[id].(idle := Some(nextId))];
      tasks := tasks[nextId := Task(id, false)];
      nextId := nextId + 1;
      return Done(nextId - 1);
    }

    method StartIdle(l: Id) returns (outcome: Outcome)
      requires Valid() && l in leases
      modifies `entries, `tasks, `nextId
      ensures Valid() && View() == old(Step(View(), Idling(l)))
      ensures Some(outcome) == old(Answer(View(), Idling(l)))
    {
      ReachableStep(View(), Idling(l));
      ReachableLinked(View());
      outcome := LaunchWorker(l);
    }

    method ExitIdle(t: Id)
      requires Valid() && t in tasks
      modifies `tasks
      ensures Valid() && View() == old(Step(View(), Exiting(t)))
    {
      ReachableStep(View(), Exiting(t));
      tasks := tasks[t := tasks[t].(exited := true)];
    }

    method RetireThrough(generation: nat)
      modifies `retiredThrough, `epoch
      ensures View() == old(SocketAuthority.Retire(View(), generation))
    {
      if generation > retiredThrough {
        retiredThrough := generation;
        epoch := epoch + 1;
      }
    }

    method Retire(generation: nat)
      requires Valid()
      modifies `retiredThrough, `epoch
      ensures Valid() && View() == old(Step(View(), Retiring(generation)))
    {
      ReachableStep(View(), Retiring(generation));
      RetireThrough(generation);
    }

    method StartCloseAll()
      requires forall k | k in paths :: paths[k] in entries && entries[paths[k]].key == k
      modifies `entries
      ensures entries == old(map id | id in entries ::
        if entries[id].key in paths && paths[entries[id].key] == id then StartClose(entries[id]) else entries[id])
    {
      ghost var was := entries;
      var rest := paths.Keys;
      while rest != {}
        invariant rest <= paths.Keys && entries.Keys == was.Keys
        invariant forall id | id in was ::
          entries[id] == if was[id].key in paths && was[id].key !in rest && paths[was[id].key] == id
              then StartClose(was[id]) else was[id]
        decreases |rest|
      {
        var k :| k in rest;
        StartCloseLocked(paths[k]);
        rest := rest - {k};
      }
    }

    method StopAdmission()
      requires Linked(View())
      modifies `closing, `entries, `epoch
      ensures View() == old(CloseAll(View()))
    {
      if closing { return; }
      StartCloseAll();
      closing := true;
      epoch := epoch + 1;
    }

    method Close()
      requires Valid()
      modifies `closing, `entries, `epoch
      ensures Valid() && View() == old(Step(View(), Closing))
    {
      ReachableStep(View(), Closing);
      ReachableLinked(View());
      StopAdmission();
    }
  }
}
