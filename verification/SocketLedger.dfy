/** Every step of the socket authority keeps its ledger, its reference counts and its ownership rules,
    so they hold after every history. */
module SocketLedger {
  import opened Totals
  import opened SocketAuthority

  // ---------------------------------------------------------------- what one step may do

  /** One path across a step: it is never forgotten, closing is final and no reference joins a closing path. */
  ghost predicate Onward(s: State, t: State, e: Id)
    requires e in s.entries
  {
    && e in t.entries && t.entries[e].key == s.entries[e].key && t.entries[e].addresses == s.entries[e].addresses
    && (s.entries[e].closing ==> t.entries[e].closing && t.entries[e].refs <= s.entries[e].refs)
    && (s.entries[e].removed ==> t.entries[e].removed)
  }

  /** A whole step: freed capacity is announced, and every path moves onward. */
  ghost predicate Advances(s: State, t: State) {
    && t.capacity == s.capacity && t.epoch >= s.epoch && t.retiredThrough >= s.retiredThrough
    && (s.closing ==> t.closing)
    && (t.socketCount + t.reservedCount < s.socketCount + s.reservedCount ==> t.epoch > s.epoch)
    && (forall e {:trigger Onward(s, t, e)} | e in s.entries :: Onward(s, t, e))
  }

  ghost predicate Keeps(s: State, t: State) { Inv(t) && Advances(s, t) }

  lemma Stays(s: State)
    requires Inv(s)
    ensures Keeps(s, s)
  {
  }

  // ---------------------------------------------------------------- frames

  /** The books do not see who refers to a path or works on it. */
  ghost predicate SameBooks(s: State, t: State, e: Id)
    requires e in s.entries
  {
    e in t.entries && t.entries[e].key == s.entries[e].key
  }

  lemma AccountsFrame(s: State, t: State)
    requires Accounts(s)
    requires t.paths == s.paths && t.reserved == s.reserved && t.reservations == s.reservations
             && s.leases.Keys <= t.leases.Keys
    requires forall e {:trigger SameBooks(s, t, e)} | e in s.entries :: SameBooks(s, t, e)
    ensures Accounts(t)
  {
    forall k | k in s.paths ensures PathOk(t, k) {
      assert PathOk(s, k);
      assert SameBooks(s, t, s.paths[k]);
    }
    forall r | r in t.reservations ensures ReservationOk(t, r) { assert ReservationOk(s, r); }
    forall k | k in t.reserved ensures ReservedOk(t, k) { assert ReservedOk(s, k); }
  }

  ghost predicate SameReferences(s: State, t: State, e: Id)
    requires e in t.entries
  {
    e in s.entries &&
    var a, b := s.entries[e], t.entries[e];
    && b.key == a.key && b.refs == a.refs && b.closing == a.closing && b.closer == a.closer && b.removed == a.removed
    && b.closes == a.closes
  }

  lemma ReferencesFrame(s: State, t: State)
    requires References(s) && t.leases == s.leases && t.paths == s.paths && t.closing == s.closing
    requires forall e {:trigger SameReferences(s, t, e)} | e in t.entries :: SameReferences(s, t, e)
    ensures References(t)
  {
    forall e | e in t.entries ensures EntryOk(t, e) {
      assert SameReferences(s, t, e);
      assert EntryOk(s, e);
    }
  }

  ghost predicate SameWorkers(s: State, t: State, e: Id)
    requires e in s.entries
  {
    e in t.entries &&
    var a, b := s.entries[e], t.entries[e];
    b.owner == a.owner && b.idle == a.idle && b.closing == a.closing && b.closer == a.closer && b.removed == a.removed
  }

  /** Leases are only ever added or released, never pointed at another path. */
  ghost predicate LeasesGrow(s: State, t: State) {
    forall l | l in s.leases :: l in t.leases && t.leases[l].entry == s.leases[l].entry
  }

  lemma WorkersFrame(s: State, t: State)
    requires Workers(s) && t.claims == s.claims && t.tasks == s.tasks && LeasesGrow(s, t)
    requires forall e {:trigger SameWorkers(s, t, e)} | e in s.entries :: SameWorkers(s, t, e)
    ensures Workers(t)
  {
    forall c | c in t.claims ensures ClaimOk(t, c) {
      assert ClaimOk(s, c);
      assert SameWorkers(s, t, s.leases[s.claims[c].lease].entry);
    }
    forall x | x in t.tasks ensures TaskOk(t, x) {
      assert TaskOk(s, x);
      assert SameWorkers(s, t, s.tasks[x].entry);
    }
  }

  // ---------------------------------------------------------------- leases

  lemma LeaseAdded(leases: map<Id, Lease>, l: Id, e: Id)
    requires l !in leases
    ensures LeasesOf(leases[l := Lease(e, false)], e) == LeasesOf(leases, e) + {l}
    ensures l !in LeasesOf(leases, e)
    ensures forall x: Id | x != e :: LeasesOf(leases[l := Lease(e, false)], x) == LeasesOf(leases, x)
  {
  }

  lemma LeaseReleased(leases: map<Id, Lease>, l: Id)
    requires l in leases && !leases[l].released
    ensures var after := leases[l := leases[l].(released := true)];
            && LeasesOf(after, leases[l].entry) == LeasesOf(leases, leases[l].entry) - {l}
            && l in LeasesOf(leases, leases[l].entry)
            && forall x: Id | x != leases[l].entry :: LeasesOf(after, x) == LeasesOf(leases, x)
  {
  }

  lemma ShareReferences(s: State, id: Id)
    requires Fresh(s) && References(s) && id in s.entries && !s.entries[id].closing
    ensures References(Share(s, id).state)
  {
    var t := Share(s, id).state;
    LeaseAdded(s.leases, s.nextId, id);
    forall e | e in t.entries ensures EntryOk(t, e) { assert EntryOk(s, e); }
  }

  lemma ShareKeeps(s: State, id: Id)
    requires Inv(s) && id in s.entries && !s.entries[id].closing
    ensures Keeps(s, Share(s, id).state)
  {
    var t := Share(s, id).state;
    AccountsFrame(s, t);
    ShareReferences(s, id);
    WorkersFrame(s, t);
  }

  lemma OpenAccounts(s: State, key: PathKey, addresses: seq<Address>)
    requires Fresh(s) && Accounts(s) && key !in s.paths && key !in s.reserved
    ensures Accounts(Open(s, key, addresses).state)
  {
    var t := Open(s, key, addresses).state;
    forall k | k in t.paths ensures PathOk(t, k) { if k != key { assert PathOk(s, k); } }
    forall r | r in t.reservations ensures ReservationOk(t, r) { assert ReservationOk(s, r); }
    forall k | k in t.reserved ensures ReservedOk(t, k) { assert ReservedOk(s, k); }
  }

  lemma OpenReferences(s: State, key: PathKey, addresses: seq<Address>)
    requires Fresh(s) && References(s) && !s.closing && key !in s.paths
    ensures References(Open(s, key, addresses).state)
  {
    var t := Open(s, key, addresses).state;
    LeaseAdded(s.leases, s.nextId + 1, s.nextId);
    assert LeasesOf(s.leases, s.nextId) == {};
    forall e | e in t.entries ensures EntryOk(t, e) { if e != s.nextId { assert EntryOk(s, e); } }
  }

  lemma OpenWorkers(s: State, key: PathKey, addresses: seq<Address>)
    requires Fresh(s) && Workers(s)
    ensures Workers(Open(s, key, addresses).state) && Fresh(Open(s, key, addresses).state)
    ensures Advances(s, Open(s, key, addresses).state)
  {
    WorkersFrame(s, Open(s, key, addresses).state);
  }

  lemma OpenKeeps(s: State, key: PathKey, addresses: seq<Address>)
    requires Inv(s) && !s.closing && key !in s.paths && key !in s.reserved
    ensures Keeps(s, Open(s, key, addresses).state)
  {
    OpenAccounts(s, key, addresses);
    OpenReferences(s, key, addresses);
    OpenWorkers(s, key, addresses);
  }

  lemma AcquireKeeps(s: State, key: PathKey, addresses: seq<Address>, bound: bool)
    requires Inv(s)
    ensures Keeps(s, Acquire(s, key, addresses, bound).state)
  {
    var reply := Acquire(s, key, addresses, bound);
    if !reply.outcome.Done? {
      assert reply.state == s;
      Stays(s);
    } else if key in s.paths {
      assert PathOk(s, key);
      assert reply == Share(s, s.paths[key]);
      ShareKeeps(s, s.paths[key]);
    } else {
      assert reply == Open(s, key, addresses);
      OpenKeeps(s, key, addresses);
    }
  }

  lemma CloseLeaseReferences(s: State, l: Id)
    requires References(s) && Known(s, l) && !s.leases[l].released
    ensures References(CloseLease(s, l))
  {
    var t := CloseLease(s, l);
    LeaseReleased(s.leases, l);
    forall e | e in t.entries ensures EntryOk(t, e) { assert EntryOk(s, e); }
  }

  lemma CloseLeaseWorkers(s: State, l: Id)
    requires Workers(s) && Known(s, l) && !s.leases[l].released
    ensures Workers(CloseLease(s, l))
  {
    var t := CloseLease(s, l);
    forall c | c in t.claims ensures ClaimOk(t, c) { assert ClaimOk(s, c); }
    forall x | x in t.tasks ensures TaskOk(t, x) { assert TaskOk(s, x); }
  }

  lemma CloseLeaseKeeps(s: State, l: Id)
    requires Inv(s) && Known(s, l)
    ensures Keeps(s, CloseLease(s, l))
  {
    if !s.leases[l].released {
      AccountsFrame(s, CloseLease(s, l));
      CloseLeaseReferences(s, l);
      CloseLeaseWorkers(s, l);
    } else {
      Stays(s);
    }
  }

  lemma FinishCloseAccounts(s: State, id: Id)
    requires Accounts(s) && References(s) && CanFinish(s, id)
    ensures Accounts(FinishClose(s, id))
  {
    var t := FinishClose(s, id);
    assert EntryOk(s, id);
    forall k | k in t.paths ensures PathOk(t, k) { assert PathOk(s, k); }
    forall r | r in t.reservations ensures ReservationOk(t, r) { assert ReservationOk(s, r); }
    forall k | k in t.reserved ensures ReservedOk(t, k) { assert ReservedOk(s, k); }
  }

  lemma FinishCloseReferences(s: State, id: Id)
    requires References(s) && CanFinish(s, id)
    ensures References(FinishClose(s, id))
  {
    var t := FinishClose(s, id);
    assert EntryOk(s, id);
    forall e | e in t.entries ensures EntryOk(t, e) { assert EntryOk(s, e); }
  }

  lemma FinishCloseWorkers(s: State, id: Id)
    requires Fresh(s) && Workers(s) && CanFinish(s, id)
    ensures Workers(FinishClose(s, id)) && Fresh(FinishClose(s, id)) && Advances(s, FinishClose(s, id))
  {
    var t := FinishClose(s, id);
    forall c | c in t.claims ensures ClaimOk(t, c) { assert ClaimOk(s, c); }
    forall x | x in t.tasks ensures TaskOk(t, x) { assert TaskOk(s, x); }
  }

  lemma FinishCloseKeeps(s: State, id: Id)
    requires Inv(s)
    ensures Keeps(s, FinishClose(s, id))
  {
    if CanFinish(s, id) {
      FinishCloseAccounts(s, id);
      FinishCloseReferences(s, id);
      FinishCloseWorkers(s, id);
    } else {
      Stays(s);
    }
  }

  // ---------------------------------------------------------------- reservations

  /** A retained reservation is one more handle on a lease; a settled one holds nothing. */
  ghost predicate Records(s: State, t: State, r: Id, v: Reservation) {
    && t == s.(reservations := s.reservations[r := v], nextId := t.nextId)
    && s.nextId <= t.nextId && r < t.nextId
    && v.lease.Some? && v.lease.value in s.leases
    && (r in s.reservations ==> s.reservations[r].lease == v.lease && s.reservations[r].key == v.key)
    && (r !in s.reservations ==> r >= s.nextId)
  }

  lemma RecordAccounts(s: State, t: State, r: Id, v: Reservation)
    requires Accounts(s) && Records(s, t, r, v)
    ensures Accounts(t)
  {
    forall k | k in s.reserved ensures ReservedOk(t, k) { assert ReservedOk(s, k); }
    forall k | k in t.paths ensures PathOk(t, k) { assert PathOk(s, k); }
    forall x | x in t.reservations ensures ReservationOk(t, x) {
      if x in s.reservations { assert ReservationOk(s, x); }
      else if v.key in s.reserved { assert ReservedOk(s, v.key); }
    }
  }

  lemma RecordKeeps(s: State, t: State, r: Id, v: Reservation)
    requires Inv(s) && Records(s, t, r, v)
    ensures Keeps(s, t)
  {
    RecordAccounts(s, t, r, v);
    ReferencesFrame(s, t);
    WorkersFrame(s, t);
  }

  function Hold(s: State, key: PathKey, addresses: seq<Address>, optional: bool): State {
    s.(reservations := s.reservations[s.nextId := Reservation(key, addresses, optional, None, false)],
       reserved := s.reserved[key := s.nextId], reservedCount := s.reservedCount + |addresses|, nextId := s.nextId + 1)
  }

  lemma HoldAccounts(s: State, key: PathKey, addresses: seq<Address>, optional: bool)
    requires Fresh(s) && Accounts(s) && key !in s.paths && key !in s.reserved
    ensures Accounts(Hold(s, key, addresses, optional))
  {
    var t := Hold(s, key, addresses, optional);
    forall k | k in t.reserved ensures ReservedOk(t, k) { if k != key { assert ReservedOk(s, k); } }
    forall k | k in t.paths ensures PathOk(t, k) { assert PathOk(s, k); }
    forall x | x in t.reservations ensures ReservationOk(t, x) { if x != s.nextId { assert ReservationOk(s, x); } }
  }

  lemma HoldKeeps(s: State, key: PathKey, addresses: seq<Address>, optional: bool)
    requires Inv(s) && key !in s.paths && key !in s.reserved
    ensures Keeps(s, Hold(s, key, addresses, optional))
  {
    var t := Hold(s, key, addresses, optional);
    HoldAccounts(s, key, addresses, optional);
    ReferencesFrame(s, t);
    WorkersFrame(s, t);
  }

  lemma AdvancesChain(s: State, t: State, u: State)
    requires Advances(s, t) && Advances(t, u)
    ensures Advances(s, u)
  {
    forall e | e in s.entries ensures Onward(s, u, e) {
      assert Onward(s, t, e);
      assert Onward(t, u, e);
    }
  }

  lemma RetainKeeps(s: State, key: PathKey, addresses: seq<Address>, t: State)
    requires Inv(s) && key in s.paths && s.paths[key] in s.entries && !s.entries[s.paths[key]].closing
    requires var shared := Share(s, s.paths[key]).state;
             t == shared.(reservations :=
                            s.reservations[shared.nextId := Reservation(key, addresses, false, Some(s.nextId), false)],
                          nextId := shared.nextId + 1)
    ensures Keeps(s, t)
  {
    var shared := Share(s, s.paths[key]).state;
    ShareKeeps(s, s.paths[key]);
    RecordKeeps(shared, t, shared.nextId, Reservation(key, addresses, false, Some(s.nextId), false));
    AdvancesChain(s, shared, t);
  }

  lemma ReserveKeeps(s: State, key: PathKey, addresses: seq<Address>, optional: bool)
    requires Inv(s)
    ensures Keeps(s, Reserve(s, key, addresses, optional).state)
  {
    var reply := Reserve(s, key, addresses, optional);
    if reply.outcome.Done? {
      if key in s.paths {
        assert PathOk(s, key);
        RetainKeeps(s, key, addresses, reply.state);
      } else {
        assert reply.state == Hold(s, key, addresses, optional);
        HoldKeeps(s, key, addresses, optional);
      }
    } else {
      assert reply.state == s;
      Stays(s);
    }
  }

  lemma UnreserveAccounts(s: State, r: Id)
    requires Accounts(s) && r in s.reservations && s.reservations[r].lease.None? && !s.reservations[r].settled
    ensures Accounts(Unreserve(s, r))
    ensures s.reservations[r].key in s.reserved && s.reserved[s.reservations[r].key] == r
            && s.reservations[r].key !in s.paths
  {
    var t := Unreserve(s, r);
    assert ReservationOk(s, r);
    assert s.reservations[r].key in s.reserved.Keys && s.reservations[r].key !in s.paths.Keys;
    forall k | k in t.reserved ensures ReservedOk(t, k) { assert ReservedOk(s, k); }
    forall k | k in t.paths ensures PathOk(t, k) { assert PathOk(s, k); }
    forall x | x in t.reservations ensures ReservationOk(t, x) { assert ReservationOk(s, x); }
  }

  lemma UnreserveKeeps(s: State, r: Id)
    requires Inv(s) && r in s.reservations && s.reservations[r].lease.None? && !s.reservations[r].settled
    ensures Inv(Unreserve(s, r))
  {
    UnreserveAccounts(s, r);
    ReferencesFrame(s, Unreserve(s, r));
    WorkersFrame(s, Unreserve(s, r));
  }

  /** Signals and generation retirement touch none of the books. */
  lemma SignalKeeps(s: State, epoch: nat, retiredThrough: nat)
    requires Inv(s)
    ensures Inv(s.(epoch := epoch, retiredThrough := retiredThrough))
    ensures epoch >= s.epoch && retiredThrough >= s.retiredThrough ==>
              Advances(s, s.(epoch := epoch, retiredThrough := retiredThrough))
  {
    var t := s.(epoch := epoch, retiredThrough := retiredThrough);
    AccountsFrame(s, t);
    ReferencesFrame(s, t);
    WorkersFrame(s, t);
  }

  lemma MarkKeeps(reply: Reply, key: PathKey, optional: bool)
    requires Inv(reply.state)
    ensures Keeps(reply.state, MarkOptional(reply, key, optional))
    ensures MarkOptional(reply, key, optional).epoch == reply.state.epoch
  {
    MarkAccounts(reply, key, optional);
    MarkWorkers(reply, key, optional);
  }

  lemma MarkAccounts(reply: Reply, key: PathKey, optional: bool)
    requires Accounts(reply.state)
    ensures Accounts(MarkOptional(reply, key, optional))
  {
    AccountsFrame(reply.state, MarkOptional(reply, key, optional));
  }

  lemma MarkWorkers(reply: Reply, key: PathKey, optional: bool)
    requires References(reply.state) && Workers(reply.state) && Fresh(reply.state)
    ensures var t := MarkOptional(reply, key, optional);
            References(t) && Workers(t) && Fresh(t) && Advances(reply.state, t)
  {
    var s := reply.state;
    var t := MarkOptional(reply, key, optional);
    if t != s {
      var id := s.paths[key];
      var e := s.entries[id].(optional := optional);
      assert t == s.(entries := s.entries[id := e]);
      ReferencesFrame(s, t);
      WorkersFrame(s, t);
    }
  }

  lemma ActivateHeldKeeps(s: State, r: Id, bound: bool)
    requires Inv(s) && r in s.reservations && s.reservations[r].lease.None? && !s.reservations[r].settled
    ensures Keeps(s, Activate(s, r, bound).state)
  {
    var v := s.reservations[r];
    var freed := Unreserve(s, r);
    UnreserveKeeps(s, r);
    var reply := Acquire(freed, v.key, v.addresses, bound);
    AcquireKeeps(freed, v.key, v.addresses, bound);
    MarkKeeps(reply, v.key, v.optional);
    var marked := MarkOptional(reply, v.key, v.optional);
    AdvancesChain(freed, reply.state, marked);
    FreedKeeps(s, freed, marked);
    assert Activate(s, r, bound).state == marked.(epoch := marked.epoch + 1);
  }

  lemma FreedKeeps(s: State, freed: State, marked: State)
    requires freed.entries == s.entries && freed.epoch == s.epoch && freed.capacity == s.capacity
             && Keeps(freed, marked)
    requires freed.retiredThrough == s.retiredThrough && freed.closing == s.closing
    ensures Keeps(s, marked.(epoch := marked.epoch + 1))
  {
    SignalKeeps(marked, marked.epoch + 1, marked.retiredThrough);
    FreedAdvances(s, freed, marked);
  }

  /** The signal that follows covers the capacity given back. */
  lemma FreedAdvances(s: State, freed: State, marked: State)
    requires freed.entries == s.entries && freed.epoch == s.epoch && freed.capacity == s.capacity
             && Advances(freed, marked)
    requires freed.retiredThrough == s.retiredThrough && freed.closing == s.closing
    ensures Advances(s, marked.(epoch := marked.epoch + 1))
  {
    forall e | e in s.entries ensures Onward(s, marked.(epoch := marked.epoch + 1), e) {
      assert Onward(freed, marked, e);
    }
  }

  lemma SettleKeeps(s: State, r: Id)
    requires Inv(s) && r in s.reservations && s.reservations[r].lease.Some?
    ensures Keeps(s, Settle(s, r))
  {
    assert ReservationOk(s, r);
    RecordKeeps(s, Settle(s, r), r, s.reservations[r].(settled := true));
  }

  lemma SettledLeaseKeeps(s: State, r: Id)
    requires Inv(s) && Usable(s, r) && s.reservations[r].lease.Some?
    ensures Keeps(s, Settle(s, r))
    ensures Keeps(s, CloseLease(Settle(s, r), s.reservations[r].lease.value))
  {
    var l := s.reservations[r].lease.value;
    SettleKeeps(s, r);
    CloseLeaseKeeps(Settle(s, r), l);
    AdvancesChain(s, Settle(s, r), CloseLease(Settle(s, r), l));
  }

  lemma ActivateKeeps(s: State, r: Id, bound: bool)
    requires Inv(s) && Usable(s, r)
    ensures Keeps(s, Activate(s, r, bound).state)
  {
    var v := s.reservations[r];
    if v.settled {
      Stays(s);
    } else if v.lease.Some? {
      SettledLeaseKeeps(s, r);
    } else {
      ActivateHeldKeeps(s, r, bound);
    }
  }

  lemma AbandonHeldKeeps(s: State, r: Id)
    requires Inv(s) && r in s.reservations && s.reservations[r].lease.None? && !s.reservations[r].settled
    ensures Keeps(s, Abandon(s, r))
  {
    var freed := Unreserve(s, r);
    UnreserveKeeps(s, r);
    Stays(freed);
    FreedKeeps(s, freed, freed);
    assert Abandon(s, r) == freed.(epoch := freed.epoch + 1);
  }

  lemma AbandonKeeps(s: State, r: Id)
    requires Inv(s) && Usable(s, r)
    ensures Keeps(s, Abandon(s, r))
  {
    var v := s.reservations[r];
    if v.settled {
      Stays(s);
    } else if v.lease.Some? {
      SettledLeaseKeeps(s, r);
    } else {
      AbandonHeldKeeps(s, r);
    }
  }

  // ---------------------------------------------------------------- listeners, owners, workers

  lemma PrepareTCPAccounts(s: State, l: Id, v6: bool, bound: bool)
    requires Accounts(s) && Known(s, l) && PrepareTCP(s, l, v6, bound).outcome.Done?
    ensures Accounts(PrepareTCP(s, l, v6, bound).state)
  {
    AccountsFrame(s, PrepareTCP(s, l, v6, bound).state);
  }

  lemma PrepareTCPWorkers(s: State, l: Id, v6: bool, bound: bool)
    requires Fresh(s) && References(s) && Workers(s) && Known(s, l) && PrepareTCP(s, l, v6, bound).outcome.Done?
    ensures var t := PrepareTCP(s, l, v6, bound).state;
            References(t) && Workers(t) && Fresh(t) && Advances(s, t)
  {
    var t := PrepareTCP(s, l, v6, bound).state;
    ReferencesFrame(s, t);
    WorkersFrame(s, t);
  }

  lemma PrepareTCPKeeps(s: State, l: Id, v6: bool, bound: bool)
    requires Inv(s) && Known(s, l)
    ensures Keeps(s, PrepareTCP(s, l, v6, bound).state)
  {
    if PrepareTCP(s, l, v6, bound).outcome.Done? {
      PrepareTCPAccounts(s, l, v6, bound);
      PrepareTCPWorkers(s, l, v6, bound);
    } else {
      assert PrepareTCP(s, l, v6, bound).state == s;
      Stays(s);
    }
  }

  /** Steps that change only who works on one path: its owner, its worker, and the claim and worker tables. */
  lemma WorkKeeps(s: State, t: State, id: Id, e: Entry)
    requires Inv(s) && id in s.entries
    requires t == s.(entries := s.entries[id := e], claims := t.claims, tasks := t.tasks, nextId := t.nextId)
    requires e == s.entries[id].(owner := e.owner, idle := e.idle)
    requires s.nextId <= t.nextId
    requires forall c | c in t.claims :: c < t.nextId
    requires forall x | x in t.tasks :: x < t.nextId
    requires Workers(t)
    ensures Keeps(s, t)
  {
    AccountsFrame(s, t);
    ReferencesFrame(s, t);
  }

  lemma BeginClaimKeeps(s: State, l: Id)
    requires Inv(s) && Known(s, l)
    ensures Keeps(s, BeginClaim(s, l).state)
  {
    if BeginClaim(s, l).outcome.Done? {
      var t := BeginClaim(s, l).state;
      forall c | c in t.claims ensures ClaimOk(t, c) { if c != s.nextId { assert ClaimOk(s, c); } }
      forall x | x in t.tasks ensures TaskOk(t, x) { assert TaskOk(s, x); }
      WorkKeeps(s, t, s.leases[l].entry, t.entries[s.leases[l].entry]);
    } else {
      assert BeginClaim(s, l).state == s;
      Stays(s);
    }
  }

  lemma EndClaimKeeps(s: State, c: Id)
    requires Inv(s)
    ensures Keeps(s, EndClaim(s, c))
  {
    if CanEndClaim(s, c) {
      var t := EndClaim(s, c);
      var id := s.leases[s.claims[c].lease].entry;
      assert ClaimOk(s, c) && EntryOk(s, id);
      forall x | x in t.claims ensures ClaimOk(t, x) { assert ClaimOk(s, x); }
      forall x | x in t.tasks ensures TaskOk(t, x) { assert TaskOk(s, x); }
      WorkKeeps(s, t, id, t.entries[id]);
    } else {
      Stays(s);
    }
  }

  lemma ReleaseClaimKeeps(s: State, c: Id)
    requires Inv(s)
    ensures Keeps(s, ReleaseClaim(s, c))
  {
    if c in s.claims && s.claims[c].phase.Holding? && Known(s, s.claims[c].lease) {
      var t := ReleaseClaim(s, c);
      var id := s.leases[s.claims[c].lease].entry;
      assert ClaimOk(s, c);
      forall x | x in t.claims ensures ClaimOk(t, x) { assert ClaimOk(s, x); }
      forall x | x in t.tasks ensures TaskOk(t, x) { assert TaskOk(s, x); }
      WorkKeeps(s, t, id, t.entries[id]);
    } else {
      Stays(s);
    }
  }

  lemma StartIdleKeeps(s: State, l: Id)
    requires Inv(s) && Known(s, l)
    ensures Keeps(s, StartIdle(s, l).state)
  {
    if StartIdle(s, l).outcome.Done? {
      var t := StartIdle(s, l).state;
      var id := s.leases[l].entry;
      assert EntryOk(s, id);
      forall c | c in t.claims ensures ClaimOk(t, c) { assert ClaimOk(s, c); }
      forall x | x in t.tasks ensures TaskOk(t, x) { if x != s.nextId { assert TaskOk(s, x); } }
      WorkKeeps(s, t, id, t.entries[id]);
    } else {
      assert StartIdle(s, l).state == s;
      Stays(s);
    }
  }

  lemma ExitIdleKeeps(s: State, x: Id)
    requires Inv(s)
    ensures Keeps(s, ExitIdle(s, x))
  {
    if x in s.tasks {
      var t := ExitIdle(s, x);
      var id := s.tasks[x].entry;
      assert TaskOk(s, x);
      forall c | c in t.claims ensures ClaimOk(t, c) { assert ClaimOk(s, c); }
      forall y | y in t.tasks ensures TaskOk(t, y) { assert TaskOk(s, y); }
      assert t.entries == s.entries[id := s.entries[id]];
      WorkKeeps(s, t, id, s.entries[id]);
    } else {
      Stays(s);
    }
  }

  lemma CloseAllAccounts(s: State)
    requires Accounts(s) && !s.closing
    ensures Accounts(CloseAll(s))
  {
    AccountsFrame(s, CloseAll(s));
  }

  lemma CloseAllReferences(s: State)
    requires References(s) && !s.closing
    ensures References(CloseAll(s))
  {
    var t := CloseAll(s);
    forall e | e in t.entries ensures EntryOk(t, e) { assert EntryOk(s, e); }
  }

  lemma CloseAllWorkers(s: State)
    requires Fresh(s) && Workers(s) && !s.closing
    ensures Workers(CloseAll(s)) && Fresh(CloseAll(s)) && Advances(s, CloseAll(s))
  {
    var t := CloseAll(s);
    forall c | c in t.claims ensures ClaimOk(t, c) { assert ClaimOk(s, c); }
    forall x | x in t.tasks ensures TaskOk(t, x) { assert TaskOk(s, x); }
  }

  lemma CloseAllKeeps(s: State)
    requires Inv(s)
    ensures Keeps(s, CloseAll(s))
  {
    if !s.closing {
      CloseAllAccounts(s);
      CloseAllReferences(s);
      CloseAllWorkers(s);
    } else {
      Stays(s);
    }
  }

  // ---------------------------------------------------------------- the counters

  ghost predicate SameSockets(s: State, t: State, e: Id)
    requires e in s.entries
  {
    e in t.entries && t.entries[e].addresses == s.entries[e].addresses && t.entries[e].tcp == s.entries[e].tcp
  }

  lemma PathSocketsFrame(s: State, t: State)
    requires t.paths == s.paths && forall k {:trigger PathOk(s, k)} | k in s.paths :: PathOk(s, k)
    requires forall e {:trigger SameSockets(s, t, e)} | e in s.entries :: SameSockets(s, t, e)
    ensures PathSockets(t) == PathSockets(s)
  {
    forall k | k in s.paths ensures PathSockets(t)[k] == PathSockets(s)[k] {
      assert PathOk(s, k);
      assert SameSockets(s, t, s.paths[k]);
    }
  }

  /** Nothing that keeps every path's sockets and every held reservation changes the sums. */
  lemma LedgerFrame(s: State, t: State)
    requires Ledger(s) && Accounts(s)
    requires t.paths == s.paths && t.reserved == s.reserved && t.reservations == s.reservations
             && t.capacity == s.capacity
    requires t.socketCount == s.socketCount && t.reservedCount == s.reservedCount
    requires forall e {:trigger SameSockets(s, t, e)} | e in s.entries :: SameSockets(s, t, e)
    ensures Ledger(t)
  {
    PathSocketsFrame(s, t);
    assert ReservedSockets(t) == ReservedSockets(s);
  }

  lemma ReservedSocketsFrame(s: State, t: State)
    requires Accounts(s) && t.reserved == s.reserved
    requires forall r: Id {:trigger r in t.reservations} | r in s.reservations ::
               r in t.reservations && t.reservations[r].addresses == s.reservations[r].addresses
    ensures ReservedSockets(t) == ReservedSockets(s)
  {
    forall k | k in s.reserved ensures ReservedSockets(t)[k] == ReservedSockets(s)[k] { assert ReservedOk(s, k); }
  }

  /** Recording one more retained reservation, or settling one, changes no sum. */
  lemma RecordLedger(s: State, t: State, r: Id, v: Reservation)
    requires Accounts(s) && Fresh(s) && Ledger(s) && Records(s, t, r, v)
    requires r in s.reservations ==> s.reservations[r].addresses == v.addresses
    ensures Ledger(t)
  {
    assert PathSockets(t) == PathSockets(s);
    ReservedSocketsFrame(s, t);
  }

  lemma OpenSockets(s: State, key: PathKey, addresses: seq<Address>)
    requires Fresh(s) && Accounts(s) && key !in s.paths
    ensures PathSockets(Open(s, key, addresses).state) == PathSockets(s)[key := |addresses|]
    ensures ReservedSockets(Open(s, key, addresses).state) == ReservedSockets(s)
  {
    var t := Open(s, key, addresses).state;
    forall k | k in s.paths ensures PathSockets(t)[k] == PathSockets(s)[k] { assert PathOk(s, k); }
  }

  lemma OpenLedger(s: State, key: PathKey, addresses: seq<Address>)
    requires Fresh(s) && Accounts(s) && Ledger(s) && key !in s.paths
    requires s.socketCount + s.reservedCount + |addresses| <= s.capacity
    ensures Ledger(Open(s, key, addresses).state)
  {
    OpenSockets(s, key, addresses);
    SumInsert(PathSockets(s), key, |addresses|);
  }

  lemma AcquireLedger(s: State, key: PathKey, addresses: seq<Address>, bound: bool)
    requires Fresh(s) && Accounts(s) && Ledger(s)
    ensures Ledger(Acquire(s, key, addresses, bound).state)
  {
    var reply := Acquire(s, key, addresses, bound);
    if !reply.outcome.Done? {
      assert reply.state == s;
    } else if key in s.paths {
      assert PathOk(s, key);
      assert reply == Share(s, s.paths[key]);
      LedgerFrame(s, reply.state);
    } else {
      assert reply == Open(s, key, addresses);
      OpenLedger(s, key, addresses);
    }
  }

  lemma FinishCloseLedger(s: State, id: Id)
    requires Accounts(s) && References(s) && Ledger(s)
    ensures Ledger(FinishClose(s, id))
  {
    if CanFinish(s, id) {
      var t := FinishClose(s, id);
      var key := s.entries[id].key;
      assert EntryOk(s, id);
      forall k | k in t.paths ensures PathSockets(t)[k] == PathSockets(s)[k] { assert PathOk(s, k); }
      assert PathSockets(t) == PathSockets(s) - {key};
      SumRemove(PathSockets(s), key);
      assert ReservedSockets(t) == ReservedSockets(s);
      SocketsAreCounted(s, key);
    }
  }

  lemma SocketsAreCounted(s: State, key: PathKey)
    requires Accounts(s) && key in s.paths
    ensures PathSockets(s)[key] >= 0
  {
    assert PathOk(s, key);
  }

  lemma HoldSockets(s: State, key: PathKey, addresses: seq<Address>, optional: bool)
    requires Fresh(s) && Accounts(s) && key !in s.reserved
    ensures ReservedSockets(Hold(s, key, addresses, optional)) == ReservedSockets(s)[key := |addresses|]
    ensures PathSockets(Hold(s, key, addresses, optional)) == PathSockets(s)
  {
    var t := Hold(s, key, addresses, optional);
    forall k | k in s.reserved ensures ReservedSockets(t)[k] == ReservedSockets(s)[k] { assert ReservedOk(s, k); }
  }

  lemma HoldLedger(s: State, key: PathKey, addresses: seq<Address>, optional: bool)
    requires Fresh(s) && Accounts(s) && Ledger(s) && key !in s.reserved
    requires s.socketCount + s.reservedCount + |addresses| <= s.capacity
    ensures Ledger(Hold(s, key, addresses, optional))
  {
    HoldSockets(s, key, addresses, optional);
    SumInsert(ReservedSockets(s), key, |addresses|);
  }

  lemma RetainLedger(s: State, key: PathKey, addresses: seq<Address>, t: State)
    requires Inv(s) && Ledger(s) && key in s.paths && s.paths[key] in s.entries && !s.entries[s.paths[key]].closing
    requires var shared := Share(s, s.paths[key]).state;
             t == shared.(reservations :=
                            s.reservations[shared.nextId := Reservation(key, addresses, false, Some(s.nextId), false)],
                          nextId := shared.nextId + 1)
    ensures Ledger(t)
  {
    var shared := Share(s, s.paths[key]).state;
    ShareKeeps(s, s.paths[key]);
    LedgerFrame(s, shared);
    RecordLedger(shared, t, shared.nextId, Reservation(key, addresses, false, Some(s.nextId), false));
  }

  lemma ReserveLedger(s: State, key: PathKey, addresses: seq<Address>, optional: bool)
    requires Inv(s) && Ledger(s)
    ensures Ledger(Reserve(s, key, addresses, optional).state)
  {
    var reply := Reserve(s, key, addresses, optional);
    if key in s.paths && reply.outcome.Done? {
      assert PathOk(s, key);
      RetainLedger(s, key, addresses, reply.state);
    } else if reply.outcome.Done? {
      assert reply.state == Hold(s, key, addresses, optional);
      HoldLedger(s, key, addresses, optional);
    } else {
      assert reply.state == s;
    }
  }

  /** The capacity a held reservation returns is at least what its activation needs. */
  lemma UnreserveLedger(s: State, r: Id)
    requires Accounts(s) && Ledger(s) && r in s.reservations && s.reservations[r].lease.None?
             && !s.reservations[r].settled
    ensures Ledger(Unreserve(s, r))
    ensures Unreserve(s, r).socketCount + Unreserve(s, r).reservedCount + |s.reservations[r].addresses| <= s.capacity
  {
    var t := Unreserve(s, r);
    var key := s.reservations[r].key;
    UnreserveAccounts(s, r);
    assert PathSockets(t) == PathSockets(s);
    forall k | k in t.reserved ensures ReservedSockets(t)[k] == ReservedSockets(s)[k] { assert ReservedOk(s, k); }
    assert ReservedSockets(t) == ReservedSockets(s) - {key};
    SumRemove(ReservedSockets(s), key);
  }

  lemma SettleLedger(s: State, r: Id)
    requires Inv(s) && Ledger(s) && Usable(s, r) && s.reservations[r].lease.Some?
    ensures Ledger(Settle(s, r)) && Ledger(CloseLease(Settle(s, r), s.reservations[r].lease.value))
  {
    SettleKeeps(s, r);
    RecordLedger(s, Settle(s, r), r, s.reservations[r].(settled := true));
    CloseLeaseLedger(Settle(s, r), s.reservations[r].lease.value);
  }

  lemma CloseLeaseLedger(s: State, l: Id)
    requires Accounts(s) && Ledger(s) && Known(s, l)
    ensures Ledger(CloseLease(s, l))
  {
    if !s.leases[l].released {
      var id := s.leases[l].entry;
      var e := s.entries[id].(refs := s.entries[id].refs - 1);
      var after := if e.refs == 0 then StartClose(e) else e;
      assert after.addresses == e.addresses && after.tcp == e.tcp;
      EntryLedger(s, s.leases[l := s.leases[l].(released := true)], id, after);
    }
  }

  /** Leases and one path's bookkeeping may change as long as its sockets do not. */
  lemma EntryLedger(s: State, leases: map<Id, Lease>, id: Id, e: Entry)
    requires Accounts(s) && Ledger(s) && id in s.entries
    requires e.addresses == s.entries[id].addresses && e.tcp == s.entries[id].tcp
    ensures Ledger(s.(leases := leases, entries := s.entries[id := e]))
  {
    LedgerFrame(s, s.(leases := leases, entries := s.entries[id := e]));
  }

  lemma ActivateLedger(s: State, r: Id, bound: bool)
    requires Inv(s) && Ledger(s) && Usable(s, r)
    ensures Ledger(Activate(s, r, bound).state)
  {
    var v := s.reservations[r];
    if v.settled {
    } else if v.lease.Some? {
      SettleLedger(s, r);
    } else {
      UnreserveKeeps(s, r);
      UnreserveLedger(s, r);
      MarkLedger(Unreserve(s, r), v, bound);
    }
  }

  lemma MarkLedger(s: State, v: Reservation, bound: bool)
    requires Inv(s) && Ledger(s)
    ensures var reply := Acquire(s, v.key, v.addresses, bound);
            var marked := MarkOptional(reply, v.key, v.optional);
            Ledger(marked.(epoch := marked.epoch + 1))
  {
    var reply := Acquire(s, v.key, v.addresses, bound);
    var marked := MarkOptional(reply, v.key, v.optional);
    AcquireLedger(s, v.key, v.addresses, bound);
    AcquireKeeps(s, v.key, v.addresses, bound);
    if marked != reply.state {
      var id := reply.state.paths[v.key];
      EntryLedger(reply.state, reply.state.leases, id, reply.state.entries[id].(optional := v.optional));
    }
    SignalLedger(marked, marked.epoch + 1, marked.retiredThrough);
  }

  lemma AbandonLedger(s: State, r: Id)
    requires Inv(s) && Ledger(s) && Usable(s, r)
    ensures Ledger(Abandon(s, r))
  {
    var v := s.reservations[r];
    if v.settled {
    } else if v.lease.Some? {
      SettleLedger(s, r);
    } else {
      UnreserveAccounts(s, r);
      UnreserveLedger(s, r);
      LedgerFrame(Unreserve(s, r), Abandon(s, r));
    }
  }

  lemma PrepareTCPLedger(s: State, l: Id, v6: bool, bound: bool)
    requires Accounts(s) && References(s) && Ledger(s) && Known(s, l)
    ensures Ledger(PrepareTCP(s, l, v6, bound).state)
  {
    if PrepareTCP(s, l, v6, bound).outcome.Done? {
      var t := PrepareTCP(s, l, v6, bound).state;
      var id := s.leases[l].entry;
      var key := s.entries[id].key;
      assert EntryOk(s, id);
      forall k | k in s.paths && k != key ensures PathSockets(t)[k] == PathSockets(s)[k] { assert PathOk(s, k); }
      assert PathSockets(t) == PathSockets(s)[key := SocketCount(t.entries[id])];
      SumReplace(PathSockets(s), key, SocketCount(t.entries[id]));
      assert ReservedSockets(t) == ReservedSockets(s);
    }
  }

  /** Only owners, workers and reference counts changed. */
  ghost predicate EntriesStay(s: State, t: State) {
    && t.entries.Keys == s.entries.Keys
    && (forall e | e in s.entries ::
        t.entries[e]
            == s.entries[e].(refs := t.entries[e].refs, owner := t.entries[e].owner, idle := t.entries[e].idle))
    && t == s.(entries := t.entries, leases := t.leases, claims := t.claims, tasks := t.tasks, nextId := t.nextId)
  }

  lemma ClaimsStay(s: State, op: Operation)
    requires op.Claiming1? || op.Claiming2? || op.Yielding?
    ensures EntriesStay(s, Step(s, op))
  {
    match op
    case Claiming1(l) =>
    case Claiming2(c) =>
    case Yielding(c) =>
  }

  lemma RetainStays(s: State, l: Id)
    requires Known(s, l)
    ensures EntriesStay(s, Retain(s, l).state)
  {
    var id := s.leases[l].entry;
    if Unavailable(s, l).None? {
      assert Retain(s, l).state.entries == s.entries[id := s.entries[id].(refs := s.entries[id].refs + 1)];
    } else {
      assert Retain(s, l).state == s;
    }
  }

  lemma IdleStays(s: State, l: Id)
    requires Known(s, l)
    ensures EntriesStay(s, StartIdle(s, l).state)
  {
    var id, reply := s.leases[l].entry, StartIdle(s, l);
    if reply.outcome.Done? {
      assert reply.state.entries == s.entries[id := s.entries[id].(idle := Some(s.nextId))];
      assert reply.state
             == s.(entries := reply.state.entries, tasks := reply.state.tasks, nextId := reply.state.nextId);
    } else {
      assert reply.state == s;
    }
  }

  lemma WorkersStay(s: State, op: Operation)
    requires op.Idling? || op.Exiting? || op.Retaining?
    ensures EntriesStay(s, Step(s, op))
  {
    match op
    case Idling(l) => if Known(s, l) { IdleStays(s, l); }
    case Exiting(x) =>
    case Retaining(l) => if Known(s, l) { RetainStays(s, l); }
  }

  lemma StayLedger(s: State, t: State)
    requires Accounts(s) && Ledger(s) && EntriesStay(s, t)
    ensures Ledger(t)
  {
    LedgerFrame(s, t);
  }

  lemma CloseAllLedger(s: State)
    requires Accounts(s) && Ledger(s)
    ensures Ledger(CloseAll(s))
  {
    if !s.closing { LedgerFrame(s, CloseAll(s)); }
  }

  lemma WorkLedger(s: State, op: Operation)
    requires Accounts(s) && Ledger(s)
    requires op.Claiming1? || op.Claiming2? || op.Yielding? || op.Idling? || op.Exiting? || op.Retaining?
    ensures Ledger(Step(s, op))
  {
    if op.Idling? || op.Exiting? || op.Retaining? { WorkersStay(s, op); } else { ClaimsStay(s, op); }
    StayLedger(s, Step(s, op));
  }

  lemma SignalLedger(s: State, epoch: nat, retiredThrough: nat)
    requires Ledger(s)
    ensures Ledger(s.(retiredThrough := retiredThrough, epoch := epoch))
  {
    var t := s.(retiredThrough := retiredThrough, epoch := epoch);
    assert PathSockets(t) == PathSockets(s) && ReservedSockets(t) == ReservedSockets(s);
  }

  lemma DemandLedger(s: State, op: Operation)
    requires Inv(s) && Ledger(s) && (op.Acquiring? || op.Reserving? || op.Activating? || op.Abandoning?)
    ensures Ledger(Step(s, op))
  {
    match op
    case Acquiring(key, addresses, bound) => AcquireLedger(s, key, addresses, bound);
    case Reserving(key, addresses, optional) => ReserveLedger(s, key, addresses, optional);
    case Activating(r, bound) => if Usable(s, r) { ActivateLedger(s, r, bound); }
    case Abandoning(r) => if Usable(s, r) { AbandonLedger(s, r); }
  }

  lemma StepLedger(s: State, op: Operation)
    requires Inv(s) && Ledger(s)
    ensures Ledger(Step(s, op))
  {
    match op
    case Finishing(e) => FinishCloseLedger(s, e);
    case Listening(l, v6, bound) => if Known(s, l) { PrepareTCPLedger(s, l, v6, bound); }
    case Releasing(l) => if Known(s, l) { CloseLeaseLedger(s, l); }
    case Closing => CloseAllLedger(s);
    case Retiring(generation) => SignalLedger(s, s.epoch + 1, generation);
    case _ =>
      if op.Acquiring? || op.Reserving? || op.Activating? || op.Abandoning? { DemandLedger(s, op); }
      else { WorkLedger(s, op); }
  }

  /** A held reservation's turn never finds its own capacity taken, and never waits: only the
      authority's end, the generation's end or the operating system can refuse it. */
  lemma ActivateNeverLosesCapacity(s: State, r: Id, bound: bool)
    requires Sound(s) && Usable(s, r) && !s.reservations[r].settled
    ensures var outcome := Activate(s, r, bound).outcome;
            outcome.Done? || outcome.ErrClosed? || outcome.ErrRetired? || (outcome.ErrListen? && !bound)
    ensures s.reservations[r].lease.None? ==>
              (Activate(s, r, bound).outcome.Done? <==>
               !s.closing && s.reservations[r].key.generation > s.retiredThrough && bound)
  {
    if s.reservations[r].lease.None? {
      UnreserveAccounts(s, r);
      UnreserveLedger(s, r);
    }
  }

  // ---------------------------------------------------------------- every history

  lemma DemandKeeps(s: State, op: Operation)
    requires Inv(s) && (op.Acquiring? || op.Reserving? || op.Activating? || op.Abandoning?)
    ensures Keeps(s, Step(s, op))
  {
    Stays(s);
    match op
    case Acquiring(key, addresses, bound) => AcquireKeeps(s, key, addresses, bound);
    case Reserving(key, addresses, optional) => ReserveKeeps(s, key, addresses, optional);
    case Activating(r, bound) => if Usable(s, r) { ActivateKeeps(s, r, bound); }
    case Abandoning(r) => if Usable(s, r) { AbandonKeeps(s, r); }
  }

  lemma LeaseStepKeeps(s: State, op: Operation)
    requires Inv(s) && (op.Retaining? || op.Releasing? || op.Finishing? || op.Listening?)
    ensures Keeps(s, Step(s, op))
  {
    Stays(s);
    match op
    case Retaining(l) => if Known(s, l) && Unavailable(s, l).None? { ShareKeeps(s, s.leases[l].entry); }
    case Releasing(l) => if Known(s, l) { CloseLeaseKeeps(s, l); }
    case Finishing(e) => FinishCloseKeeps(s, e);
    case Listening(l, v6, bound) => if Known(s, l) { PrepareTCPKeeps(s, l, v6, bound); }
  }

  lemma WorkStepKeeps(s: State, op: Operation)
    requires Inv(s) && (op.Claiming1? || op.Claiming2? || op.Yielding? || op.Idling? || op.Exiting?)
    ensures Keeps(s, Step(s, op))
  {
    Stays(s);
    match op
    case Claiming1(l) => if Known(s, l) { BeginClaimKeeps(s, l); }
    case Claiming2(c) => EndClaimKeeps(s, c);
    case Yielding(c) => ReleaseClaimKeeps(s, c);
    case Idling(l) => if Known(s, l) { StartIdleKeeps(s, l); }
    case Exiting(t) => ExitIdleKeeps(s, t);
  }

  lemma RetireKeeps(s: State, generation: nat)
    requires Inv(s)
    ensures Keeps(s, Retire(s, generation))
  {
    if generation > s.retiredThrough { SignalKeeps(s, s.epoch + 1, generation); } else { Stays(s); }
  }

  lemma StepKeeps(s: State, op: Operation)
    requires Inv(s)
    ensures Keeps(s, Step(s, op))
  {
    match op
    case Retiring(generation) => RetireKeeps(s, generation);
    case Closing => CloseAllKeeps(s);
    case _ =>
      if op.Acquiring? || op.Reserving? || op.Activating? || op.Abandoning? { DemandKeeps(s, op); }
      else if op.Retaining? || op.Releasing? || op.Finishing? || op.Listening? { LeaseStepKeeps(s, op); }
      else { WorkStepKeeps(s, op); }
  }

  /** After every history: the counters are the sums over live, closing and reserved paths and fit the
      capacity; references are unreleased leases; owners and workers are exclusive. */
  lemma {:induction false} AuthorityIsSound(capacity: nat, ops: seq<Operation>)
    ensures Sound(Run(capacity, ops)) && Run(capacity, ops).capacity == capacity
    decreases |ops|
  {
    if ops != [] {
      AuthorityIsSound(capacity, ops[..|ops| - 1]);
      StepKeeps(Run(capacity, ops[..|ops| - 1]), ops[|ops| - 1]);
      StepLedger(Run(capacity, ops[..|ops| - 1]), ops[|ops| - 1]);
    }
  }

  /** A path with no reference left never gets one again, closing is never undone, and its sockets are
      closed exactly once. */
  lemma NeverRevived(s: State, op: Operation, e: Id)
    requires Inv(s) && e in s.entries
    ensures var t := Step(s, op);
            && e in t.entries
            && (s.entries[e].refs == 0 ==> t.entries[e].refs == 0)
            && (s.entries[e].closing ==> t.entries[e].closing && t.entries[e].closes == 1)
            && t.entries[e].closes <= 1
  {
    StepKeeps(s, op);
    assert EntryOk(s, e);
    assert Onward(s, Step(s, op), e);
    assert EntryOk(Step(s, op), e);
  }

  lemma {:induction false} DoorsStayShut(capacity: nat, before: seq<Operation>, later: seq<Operation>)
    ensures var s, t := Run(capacity, before), Run(capacity, before + later);
            t.retiredThrough >= s.retiredThrough && (s.closing ==> t.closing)
    decreases |later|
  {
    if later == [] {
      assert before + later == before;
    } else {
      var shorter := later[..|later| - 1];
      assert (before + later)[..|before + later| - 1] == before + shorter;
      DoorsStayShut(capacity, before, shorter);
      DoorStep(capacity, before + shorter, later[|later| - 1]);
    }
  }

  lemma DoorStep(capacity: nat, ops: seq<Operation>, op: Operation)
    ensures var s := Run(capacity, ops);
            Step(s, op).retiredThrough >= s.retiredThrough && (s.closing ==> Step(s, op).closing)
  {
    AuthorityIsSound(capacity, ops);
    StepKeeps(Run(capacity, ops), op);
  }

  /** A retired generation, or a closed authority, admits no new demand ever again. */
  lemma RetiredAdmitsNothing(capacity: nat, before: seq<Operation>, later: seq<Operation>, key: PathKey,
                             addresses: seq<Address>, choice: bool)
    requires key.generation <= Run(capacity, before).retiredThrough || Run(capacity, before).closing
    ensures var t := Run(capacity, before + later);
            && Acquire(t, key, addresses, choice).state == t && Reserve(t, key, addresses, choice).state == t
            && !Acquire(t, key, addresses, choice).outcome.Done? && !Reserve(t, key, addresses, choice).outcome.Done?
  {
    DoorsStayShut(capacity, before, later);
  }

  /** At most one ICE owner per path, and no idle worker beside it or after the path left the ledger. */
  lemma ExclusiveOwnership(capacity: nat, ops: seq<Operation>, c: Id, d: Id)
    ensures var s := Run(capacity, ops);
            (&& c in s.claims && d in s.claims && !s.claims[c].phase.Ended? && !s.claims[d].phase.Ended?
             && Known(s, s.claims[c].lease) && Known(s, s.claims[d].lease)
             && s.leases[s.claims[c].lease].entry == s.leases[s.claims[d].lease].entry) ==> c == d
    ensures var s := Run(capacity, ops);
            (&& c in s.claims && s.claims[c].phase.Holding? && Known(s, s.claims[c].lease)
             && d in s.tasks && s.tasks[d].entry == s.leases[s.claims[c].lease].entry) ==> s.tasks[d].exited
  {
    var s := Run(capacity, ops);
    AuthorityIsSound(capacity, ops);
    if c in s.claims { assert ClaimOk(s, c); }
    if d in s.claims { assert ClaimOk(s, d); }
    if d in s.tasks { assert TaskOk(s, d); }
  }

  /** At most one running idle worker per path, none once the path left the ledger. */
  lemma ExclusiveWorker(capacity: nat, ops: seq<Operation>, x: Id, y: Id)
    ensures var s := Run(capacity, ops);
            x in s.tasks && y in s.tasks && !s.tasks[x].exited && !s.tasks[y].exited
            && s.tasks[x].entry == s.tasks[y].entry
            ==> x == y && s.tasks[x].entry in s.entries && !s.entries[s.tasks[x].entry].removed
  {
    var s := Run(capacity, ops);
    AuthorityIsSound(capacity, ops);
    if x in s.tasks { assert TaskOk(s, x); }
    if y in s.tasks { assert TaskOk(s, y); }
  }

  /** Optional sockets leave room: after any optional admission, a mandatory set as large as any
      promised one can still be reserved under a new key. */
  lemma OptionalLeavesRoom(s: State, key: PathKey, addresses: seq<Address>, other: PathKey, wanted: seq<Address>)
    requires Inv(s) && Reserve(s, key, addresses, true).outcome.Done? && key !in s.paths
    requires other != key && other !in s.paths && other !in s.reserved && other.generation > s.retiredThrough
    requires |wanted| <= EssentialReserve(Reserve(s, key, addresses, true).state)
    ensures Reserve(Reserve(s, key, addresses, true).state, other, wanted, false).outcome.Done?
  {
    var t := Reserve(s, key, addresses, true).state;
    forall n | n in Promised(t) ensures n <= |addresses| || n in Promised(s) {
      HoldPromise(s, key, addresses, n);
    }
  }

  lemma HoldPromise(s: State, key: PathKey, addresses: seq<Address>, n: nat)
    requires Fresh(s) && Accounts(s) && key !in s.reserved && n in Promised(Hold(s, key, addresses, true))
    ensures n == |addresses| || n in Promised(s)
  {
    var t := Hold(s, key, addresses, true);
    if !(exists k ::
         k in s.paths && s.paths[k] in s.entries && s.entries[s.paths[k]].optional
         && n == |s.entries[s.paths[k]].addresses|) {
      var k :| k in t.reserved && t.reserved[k] in t.reservations && t.reservations[t.reserved[k]].optional
               && n == |t.reservations[t.reserved[k]].addresses|;
      if k != key { assert ReservedOk(s, k); }
    }
  }

  lemma ListenersLeaveRoom(s: State, l: Id, v6: bool, other: PathKey, wanted: seq<Address>)
    requires Inv(s) && Known(s, l) && PrepareTCP(s, l, v6, true).outcome.Done?
    requires other !in s.paths && other !in s.reserved && other.generation > s.retiredThrough
    requires |wanted| <= EssentialReserve(s)
    ensures Reserve(PrepareTCP(s, l, v6, true).state, other, wanted, false).outcome.Done?
  {
  }

  // ---------------------------------------------------------------- draining after close

  lemma ClosedActivation(s: State, r: Id, bound: bool)
    requires s.closing && Usable(s, r)
    ensures Activate(s, r, bound).state.closing && Activate(s, r, bound).state.paths == s.paths
  {
  }

  lemma ClosedRestShrinks(s: State, op: Operation)
    requires s.closing && !op.Activating? && !op.Claiming1? && !op.Claiming2? && !op.Yielding?
    requires !op.Retaining? && !op.Idling? && !op.Exiting?
    ensures var t := Step(s, op);
            t.closing && t.paths.Keys <= s.paths.Keys && forall k | k in t.paths :: t.paths[k] == s.paths[k]
  {
  }

  /** A closed authority opens no path. */
  lemma ClosedStepShrinks(s: State, op: Operation)
    requires s.closing
    ensures var t := Step(s, op);
            t.closing && t.paths.Keys <= s.paths.Keys && forall k | k in t.paths :: t.paths[k] == s.paths[k]
  {
    if op.Activating? {
      if Usable(s, op.reservation) { ClosedActivation(s, op.reservation, op.bound); }
    } else if op.Claiming1? || op.Claiming2? || op.Yielding? {
      ClaimsStay(s, op);
    } else if op.Retaining? || op.Idling? || op.Exiting? {
      WorkersStay(s, op);
    } else {
      ClosedRestShrinks(s, op);
    }
  }

  lemma {:induction false} ClosedRunShrinks(capacity: nat, before: seq<Operation>, later: seq<Operation>)
    requires Run(capacity, before).closing
    ensures var s, t := Run(capacity, before), Run(capacity, before + later);
            t.closing && t.paths.Keys <= s.paths.Keys && forall k | k in t.paths :: t.paths[k] == s.paths[k]
    decreases |later|
  {
    if later == [] {
      assert before + later == before;
    } else {
      var shorter := later[..|later| - 1];
      assert (before + later)[..|before + later| - 1] == before + shorter;
      ClosedRunShrinks(capacity, before, shorter);
      ClosedStepShrinks(Run(capacity, before + shorter), later[|later| - 1]);
    }
  }

  /** The idle worker that the closing of this path waits for, if any, has exited. */
  predicate WorkerJoined(s: State, id: Id) {
    id in s.entries && (s.entries[id].closer.Some? ==>
                          s.entries[id].closer.value in s.tasks && s.tasks[s.entries[id].closer.value].exited)
  }

  /** A closed authority's path leaves as soon as its closing goroutine finishes after the worker's exit. */
  lemma FinishingRemoves(s: State, k: PathKey, id: Id)
    requires Inv(s) && s.closing && (k in s.paths ==> s.paths[k] == id) && WorkerJoined(s, id)
    ensures k !in Step(s, Finishing(id)).paths
  {
    if k in s.paths { assert PathOk(s, k) && EntryOk(s, id); }
  }

  lemma RunOne(capacity: nat, ops: seq<Operation>, op: Operation)
    ensures Run(capacity, ops + [op]) == Step(Run(capacity, ops), op)
  {
    assert (ops + [op])[..|ops + [op]| - 1] == ops;
  }

  lemma RunFinishing(capacity: nat, ops: seq<Operation>, k: PathKey, id: Id)
    requires var s := Run(capacity, ops); s.closing && (k in s.paths ==> s.paths[k] == id) && WorkerJoined(s, id)
    ensures var t := Run(capacity, ops + [Finishing(id)]); t.closing && k !in t.paths
  {
    AuthorityIsSound(capacity, ops);
    RunOne(capacity, ops, Finishing(id));
    FinishingRemoves(Run(capacity, ops), k, id);
  }

  /** Step `i` of the continuation is the end of this path's closing goroutine, after its worker's exit. */
  ghost predicate ClosingEnds(capacity: nat, before: seq<Operation>, later: seq<Operation>, i: nat, id: Id) {
    i < |later| && later[i] == Finishing(id) && WorkerJoined(Run(capacity, before + later[..i]), id)
  }

  lemma GoneForGood(capacity: nat, now: seq<Operation>, rest: seq<Operation>, k: PathKey, id: Id)
    requires var s := Run(capacity, now); s.closing && (k in s.paths ==> s.paths[k] == id) && WorkerJoined(s, id)
    ensures k !in Run(capacity, now + [Finishing(id)] + rest).paths
  {
    RunFinishing(capacity, now, k, id);
    ClosedRunShrinks(capacity, now + [Finishing(id)], rest);
  }

  lemma SplitAt(before: seq<Operation>, later: seq<Operation>, i: nat)
    requires i < |later|
    ensures before + later == before + later[..i] + [later[i]] + later[i + 1..]
  {
  }

  lemma EndedPathIsGone(capacity: nat, before: seq<Operation>, later: seq<Operation>, i: nat, k: PathKey)
    requires Run(capacity, before).closing && k in Run(capacity, before).paths
    requires ClosingEnds(capacity, before, later, i, Run(capacity, before).paths[k])
    ensures k !in Run(capacity, before + later).paths
  {
    ClosedRunShrinks(capacity, before, later[..i]);
    GoneForGood(capacity, before + later[..i], later[i + 1..], k, Run(capacity, before).paths[k]);
    SplitAt(before, later, i);
  }

  /** Shutdown drains: after any history that closed the authority and any continuation in which the closing
      goroutine of every path then in the ledger came to its end, whatever else was asked for meanwhile,
      no path is left and no socket counts as used. */
  lemma ClosedAuthorityDrains(capacity: nat, before: seq<Operation>, later: seq<Operation>)
    requires Run(capacity, before).closing
    requires forall k | k in Run(capacity, before).paths ::
               exists i :: ClosingEnds(capacity, before, later, i, Run(capacity, before).paths[k])
    ensures Run(capacity, before + later).paths == map[] && Run(capacity, before + later).socketCount == 0
  {
    var s, t := Run(capacity, before), Run(capacity, before + later);
    ClosedRunShrinks(capacity, before, later);
    forall k | k in s.paths ensures k !in t.paths {
      var i :| ClosingEnds(capacity, before, later, i, s.paths[k]);
      EndedPathIsGone(capacity, before, later, i, k);
    }
    assert t.paths == map[];
    AuthorityIsSound(capacity, before + later);
    assert PathSockets(t) == map[];
  }
}
