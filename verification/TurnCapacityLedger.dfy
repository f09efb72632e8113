/** Every history of pool operations keeps the ledger, the matching and the limits, and never
    leaves an admissible waiter behind. */
module TurnCapacityLedger {
  import opened Totals
  import opened TurnCapacity

  type Paths = map<PathKey, Reservation>

  // ---------------------------------------------------------------- edits of the path table

  function Join(paths: Paths, oldKey: PathKey, key: PathKey, lease: Reservation): Paths
    requires oldKey in paths
  {
    paths[oldKey := paths[oldKey].(successor := Some(key))][key := lease]
  }

  lemma JoinMatched(paths: Paths, oldKey: PathKey, key: PathKey, lease: Reservation)
    requires Matched(paths) && oldKey in paths && key !in paths
    requires paths[oldKey].claimed && paths[oldKey].predecessor.None? && paths[oldKey].successor.None?
    requires lease.predecessor == Some(oldKey) && lease.successor.None?
    requires lease.request.replacesPath != 0 && oldKey == lease.request.PredecessorKey(key.owner)
    requires lease.request.service == paths[oldKey].request.service
    ensures Matched(Join(paths, oldKey, key, lease))
  {
    var next := Join(paths, oldKey, key, lease);
    forall k | k in next ensures Linked(next, k) {
      assert k in paths ==> Linked(paths, k);
    }
  }

  lemma JoinCharges(paths: Paths, oldKey: PathKey, key: PathKey, lease: Reservation)
    requires Matched(paths) && oldKey in paths && key !in paths
    requires paths[oldKey].predecessor.None? && paths[oldKey].successor.None? && lease.predecessor.Some?
    ensures Sum(Charges(Join(paths, oldKey, key, lease)))
         == Sum(Charges(paths)) + Max(0, lease.request.sockets - paths[oldKey].request.sockets)
    ensures Successors(Join(paths, oldKey, key, lease)) == Successors(paths) + {key}
  {
    var next := Join(paths, oldKey, key, lease);
    var pair := Max(paths[oldKey].request.sockets, lease.request.sockets);
    forall k | k in paths && k != oldKey ensures Charge(next, k) == Charge(paths, k) {
      assert Linked(paths, k);
    }
    assert Charges(next) == Charges(paths)[oldKey := pair][key := 0];
    SumReplace(Charges(paths), oldKey, pair);
    SumInsert(Charges(paths)[oldKey := pair], key, 0);
  }

  lemma InsertMatched(paths: Paths, key: PathKey, lease: Reservation)
    requires Matched(paths) && key !in paths && lease.predecessor.None? && lease.successor.None?
    ensures Matched(paths[key := lease])
    ensures Sum(Charges(paths[key := lease])) == Sum(Charges(paths)) + lease.request.sockets
    ensures Successors(paths[key := lease]) == Successors(paths)
  {
    var next := paths[key := lease];
    forall k | k in paths ensures Linked(next, k) && Charge(next, k) == Charge(paths, k) {
      assert Linked(paths, k);
    }
    assert Linked(next, key);
    assert Charges(next) == Charges(paths)[key := lease.request.sockets];
    SumInsert(Charges(paths), key, lease.request.sockets);
  }

  /** Takes `key` out and clears the partner's link in `partner`. */
  function Cut(paths: Paths, key: PathKey, other: PathKey, partner: Reservation): Paths {
    paths[other := partner] - {key}
  }

  lemma CutMatched(paths: Paths, key: PathKey, other: PathKey, partner: Reservation)
    requires Matched(paths) && key in paths && other in paths && key != other
    requires paths[key].predecessor == Some(other) || paths[key].successor == Some(other)
    requires partner == paths[other].(predecessor := None, successor := None)
    ensures Matched(Cut(paths, key, other, partner))
  {
    var next := Cut(paths, key, other, partner);
    assert Linked(paths, key) && Linked(paths, other);
    forall k | k in next ensures Linked(next, k) {
      assert Linked(paths, k);
    }
  }

  lemma CutCharges(paths: Paths, key: PathKey, other: PathKey, partner: Reservation)
    requires Matched(paths) && key in paths && other in paths && key != other
    requires paths[key].predecessor == Some(other) || paths[key].successor == Some(other)
    requires partner == paths[other].(predecessor := None, successor := None)
    ensures Sum(Charges(Cut(paths, key, other, partner)))
         == Sum(Charges(paths)) - Max(0, paths[key].request.sockets - partner.request.sockets)
    ensures Successors(Cut(paths, key, other, partner)) == Successors(paths) - {key, other}
    ensures |Successors(Cut(paths, key, other, partner))| == |Successors(paths)| - 1
  {
    var next := Cut(paths, key, other, partner);
    assert Linked(paths, key) && Linked(paths, other);
    forall k | k in next && k != other ensures Charge(next, k) == Charge(paths, k) {
      assert Linked(paths, k);
    }
    assert Charges(next) == (Charges(paths) - {key})[other := partner.request.sockets];
    SumRemove(Charges(paths), key);
    SumReplace(Charges(paths) - {key}, other, partner.request.sockets);
    var successor := if paths[key].predecessor.Some? then key else other;
    assert Successors(paths) - {key, other} == Successors(paths) - {successor};
  }

  lemma DropMatched(paths: Paths, key: PathKey)
    requires Matched(paths) && key in paths && paths[key].predecessor.None? && paths[key].successor.None?
    ensures Matched(paths - {key})
    ensures Sum(Charges(paths - {key})) == Sum(Charges(paths)) - paths[key].request.sockets
    ensures Successors(paths - {key}) == Successors(paths)
  {
    var next := paths - {key};
    forall k | k in next ensures Linked(next, k) && Charge(next, k) == Charge(paths, k) {
      assert Linked(paths, k);
    }
    assert Charges(next) == Charges(paths) - {key};
    SumRemove(Charges(paths), key);
  }

  /** Changing a reservation's own counts keeps the matching; the charge moves by SocketDelta. */
  lemma EditMatched(paths: Paths, key: PathKey, edited: Reservation)
    requires Matched(paths) && key in paths
    requires edited == paths[key].(request := edited.request, claimed := edited.claimed, unstarted := edited.unstarted)
    requires edited.request == paths[key].request.(sockets := edited.request.sockets)
    requires paths[key].claimed ==> edited.claimed
    ensures Matched(paths[key := edited])
    ensures Successors(paths[key := edited]) == Successors(paths)
  {
    var next := paths[key := edited];
    forall k | k in next ensures Linked(next, k) {
      assert Linked(paths, k);
    }
  }

  lemma EditCharges(paths: Paths, key: PathKey, edited: Reservation)
    requires Matched(paths) && key in paths
    requires edited == paths[key].(request := edited.request, claimed := edited.claimed, unstarted := edited.unstarted)
    ensures Sum(Charges(paths[key := edited]))
         == Sum(Charges(paths)) + SocketDelta(paths, key, edited.request.sockets - paths[key].request.sockets)
  {
    var next := paths[key := edited];
    var r := paths[key];
    assert Linked(paths, key);
    var charged := if r.predecessor.Some? then r.predecessor.value else key;
    forall k | k in paths && k != charged ensures Charge(next, k) == Charge(paths, k) {
      assert Linked(paths, k);
    }
    assert Charges(next) == Charges(paths)[charged := Charge(next, charged)];
    assert Linked(paths, charged);
    SumReplace(Charges(paths), charged, Charge(next, charged));
  }

  // ---------------------------------------------------------------- one grant

  lemma AdmitReplacement(s: State, owner: nat, request: Request)
    requires Ledger(s) && Matched(s.paths) && Decide(s, owner, request) == Grant && HasPredecessor(s, owner, request)
    ensures Ledger(Admit(s, owner, request)) && Matched(Admit(s, owner, request).paths)
  {
    var t := Admit(s, owner, request);
    var key := request.Key(owner);
    var oldKey := request.PredecessorKey(owner);
    var lease := Reservation(s.nextId, request, Some(oldKey), None, false, request.sockets);
    assert t.paths == Join(s.paths, oldKey, key, lease);
    JoinMatched(s.paths, oldKey, key, lease);
    JoinCharges(s.paths, oldKey, key, lease);
    assert t.paths.Keys == s.paths.Keys + {key};
    assert |t.paths| == |s.paths| + 1;
    assert |Successors(t.paths)| == |Successors(s.paths)| + 1;
  }

  lemma AdmitOrdinary(s: State, owner: nat, request: Request)
    requires Ledger(s) && Matched(s.paths) && request.Key(owner) !in s.paths && !HasPredecessor(s, owner, request)
    ensures Ledger(Admit(s, owner, request)) && Matched(Admit(s, owner, request).paths)
  {
    var key := request.Key(owner);
    var lease := Reservation(s.nextId, request, None, None, false, request.sockets);
    InsertMatched(s.paths, key, lease);
    OneMore(s.paths, key, lease);
    assert Admit(s, owner, request).paths == s.paths[key := lease];
  }

  lemma OneMore(paths: Paths, key: PathKey, lease: Reservation)
    requires key !in paths
    ensures |paths[key := lease]| == |paths| + 1
  {
    assert paths[key := lease].Keys == paths.Keys + {key};
  }

  lemma AdmitRoutes(s: State, owner: nat, request: Request)
    requires Keyed(s) && AllRoutesCounted(s) && request.Valid() && Decide(s, owner, request) == Grant
    ensures AllRoutesCounted(Admit(s, owner, request))
  {
    var t := Admit(s, owner, request);
    var key := request.Key(owner);
    forall k | k in t.paths ensures RoutesCounted(t.routes, k, t.paths[k]) {
      if k == key {
        assert RoutesOf(t.routes, Handle(key, t.paths[key].id)) == {};
      } else {
        assert RoutesCounted(s.routes, k, s.paths[k]);
      }
    }
  }

  lemma AdmitKeyed(s: State, owner: nat, request: Request)
    requires Keyed(s) && Decide(s, owner, request) == Grant
    ensures Keyed(Admit(s, owner, request))
  {}

  /** The handoff counter counts successors, and all of them belong to one handoff. */
  ghost predicate Searchable(s: State) {
    s.replacements == |Successors(s.paths)| && OneHandoff(s.paths)
  }

  lemma AdmitOneHandoff(s: State, owner: nat, request: Request)
    requires Searchable(s) && Decide(s, owner, request) == Grant
    ensures Searchable(Admit(s, owner, request))
    ensures Admit(s, owner, request).replacements <= Max(s.replacements, MAXIMUM_HANDOFF_ENDPOINTS)
  {
    var t := Admit(s, owner, request);
    var key := request.Key(owner);
    if HasPredecessor(s, owner, request) {
      assert Successors(t.paths) == Successors(s.paths) + {key};
      if s.replacements == 0 {
        assert Successors(s.paths) == {};
      } else {
        var k :| k in s.paths && s.paths[k].predecessor.Some? && SameHandoff(s.paths[k].request, request);
        assert k in Successors(s.paths);
      }
    } else {
      assert Successors(t.paths) == Successors(s.paths);
    }
  }

  lemma AdmitKeeps(s: State, owner: nat, request: Request)
    requires Inv(s) && request.Valid() && Decide(s, owner, request) == Grant
    ensures Inv(Admit(s, owner, request))
  {
    if HasPredecessor(s, owner, request) {
      AdmitReplacement(s, owner, request);
    } else {
      AdmitOrdinary(s, owner, request);
    }
    AdmitRoutes(s, owner, request);
    AdmitKeyed(s, owner, request);
    AdmitOneHandoff(s, owner, request);
  }

  /** A grant never opens the handoff slot to a request that could not use it before. */
  lemma HandoffsShrink(s: State, owner: nat, request: Request, other: Request)
    requires 0 <= s.replacements && request.Key(owner) !in s.paths
    requires HandoffAvailable(Admit(s, owner, request), other)
    ensures HandoffAvailable(s, other)
  {
    var t := Admit(s, owner, request);
    if t.replacements != 0 && s.replacements != 0 {
      var k :| k in t.paths && t.paths[k].predecessor.Some? && SameHandoff(t.paths[k].request, other);
      assert k in s.paths && s.paths[k].predecessor.Some?;
    }
  }

  /** Granting one request never makes another one grantable: it only uses capacity, occupies
      handoff slots and creates a reservation that is not claimed yet. */
  lemma AdmitHelpsNobody(s: State, owner: nat, request: Request, w: Waiter)
    requires Ledger(s) && Decide(s, owner, request) == Grant && 0 <= request.sockets && 0 <= s.replacements
    requires Decide(s, w.owner, w.request) != Grant
    ensures Decide(Admit(s, owner, request), w.owner, w.request) != Grant
  {
    var t := Admit(s, owner, request);
    if HandoffAvailable(t, w.request) {
      HandoffsShrink(s, owner, request, w.request);
    }
  }

  // ---------------------------------------------------------------- the forward pass

  lemma SettleKeeps(s: State, i: nat)
    requires Inv(s) && i < |s.queue|
    ensures Inv(Settle(s, i))
    ensures Settle(s, i).queue == s.queue[..i] + s.queue[i + 1..]
  {
    var w := s.queue[i];
    assert w in s.queue;
    var rest := s.(queue := s.queue[..i] + s.queue[i + 1..]);
    if Decide(s, w.owner, w.request) == Grant {
      var ready := rest.(settled := s.settled[w.id := Granted(Handle(w.request.Key(w.owner), s.nextId))]);
      assert Decide(ready, w.owner, w.request) == Grant;
      AdmitKeeps(ready, w.owner, w.request);
    }
  }

  lemma SettleHelpsNobody(s: State, i: nat, w: Waiter)
    requires Inv(s) && i < |s.queue|
    requires Decide(s, w.owner, w.request) != Grant
    ensures Decide(Settle(s, i), w.owner, w.request) != Grant
  {
    var v := s.queue[i];
    assert v in s.queue;
    var rest := s.(queue := s.queue[..i] + s.queue[i + 1..]);
    if Decide(s, v.owner, v.request) == Grant {
      var ready := rest.(settled := s.settled[v.id := Granted(Handle(v.request.Key(v.owner), s.nextId))]);
      assert Decide(ready, v.owner, v.request) == Grant;
      assert Decide(ready, w.owner, w.request) == Decide(s, w.owner, w.request);
      AdmitHelpsNobody(ready, v.owner, v.request, w);
    } else {
      assert Decide(rest.(settled := s.settled[v.id := Refused]), w.owner, w.request) == Decide(s, w.owner, w.request);
    }
  }

  /** One forward pass is enough: waiters already passed over stay ungrantable. */
  lemma {:induction false} DrainKeeps(s: State, i: nat)
    requires Inv(s) && i <= |s.queue|
    requires forall j | 0 <= j < i :: Decide(s, s.queue[j].owner, s.queue[j].request) != Grant
    ensures Inv(DrainFrom(s, i)) && NoneGrantable(DrainFrom(s, i))
    decreases |s.queue| - i
  {
    if i == |s.queue| {
    } else if Decide(s, s.queue[i].owner, s.queue[i].request) == Wait {
      DrainKeeps(s, i + 1);
    } else {
      SettleKeeps(s, i);
      var t := Settle(s, i);
      forall j | 0 <= j < i ensures Decide(t, t.queue[j].owner, t.queue[j].request) != Grant {
        SettleHelpsNobody(s, i, s.queue[j]);
      }
      DrainKeeps(t, i);
    }
  }

  // ---------------------------------------------------------------- the other operations

  lemma RemoveTable(s: State, key: PathKey)
    requires Ledger(s) && Matched(s.paths) && Removable(s, key)
    ensures Ledger(Remove(s, key)) && Matched(Remove(s, key).paths)
    ensures Remove(s, key).replacements <= s.replacements && Remove(s, key).connections <= s.connections
    ensures 0 <= s.paths[key].request.sockets ==> Remove(s, key).sockets <= s.sockets
  {
    var t := Remove(s, key);
    var r := s.paths[key];
    assert Linked(s.paths, key);
    assert t.paths.Keys == s.paths.Keys - {key};
    if r.predecessor.Some? || r.successor.Some? {
      var other := if r.predecessor.Some? then r.predecessor.value else r.successor.value;
      var partner := s.paths[other].(predecessor := None, successor := None);
      assert Linked(s.paths, other);
      assert key != other;
      assert t.paths == Cut(s.paths, key, other, partner);
      CutMatched(s.paths, key, other, partner);
      CutCharges(s.paths, key, other, partner);
    } else {
      DropMatched(s.paths, key);
    }
  }

  lemma RemoveSubset(s: State, key: PathKey)
    requires Removable(s, key)
    ensures forall k | k in Remove(s, key).paths ::
              k in s.paths && Remove(s, key).paths[k].request == s.paths[k].request
              && Remove(s, key).paths[k].id == s.paths[k].id
              && Remove(s, key).paths[k].unstarted == s.paths[k].unstarted
              && (Remove(s, key).paths[k].predecessor.Some? ==> s.paths[k].predecessor.Some?)
  {}

  lemma RemoveKeeps(s: State, key: PathKey)
    requires Inv(s) && Removable(s, key)
    ensures Inv(Remove(s, key))
  {
    var t := Remove(s, key);
    RemoveTable(s, key);
    RemoveSubset(s, key);
    assert RoutesCounted(s.routes, key, s.paths[key]);
    forall k | k in t.paths ensures RoutesCounted(t.routes, k, t.paths[k]) {
      assert RoutesCounted(s.routes, k, s.paths[k]);
    }
    RemoveOneHandoff(s, key);
  }

  lemma RemoveOneHandoff(s: State, key: PathKey)
    requires OneHandoff(s.paths) && Removable(s, key)
    ensures OneHandoff(Remove(s, key).paths)
  {
    RemoveSubset(s, key);
    var t := Remove(s, key);
    assert forall k | k in Successors(t.paths) :: k in Successors(s.paths) && t.paths[k].request == s.paths[k].request;
  }

  /** A reservation whose own counts change to `edited`, with the route table that goes with it. */
  function Edit(s: State, key: PathKey, edited: Reservation, routes: map<nat, Handle>, nextId: nat): State
    requires key in s.paths
  {
    s.(paths := s.paths[key := edited], routes := routes, nextId := nextId,
       sockets := s.sockets + SocketDelta(s.paths, key, edited.request.sockets - s.paths[key].request.sockets))
  }

  ghost predicate Editable(s: State, key: PathKey, edited: Reservation, routes: map<nat, Handle>, nextId: nat) {
    && key in s.paths
    && edited == s.paths[key].(request := edited.request, claimed := edited.claimed, unstarted := edited.unstarted)
    && edited.request == s.paths[key].request.(sockets := edited.request.sockets)
    && (s.paths[key].claimed ==> edited.claimed)
    && s.nextId <= nextId
    && (forall i | i in routes :: i < nextId && routes[i].id < nextId)
    && (forall h: Handle | h.key != key :: RoutesOf(routes, h) == RoutesOf(s.routes, h))
    && RoutesCounted(routes, key, edited)
    && s.sockets + SocketDelta(s.paths, key, edited.request.sockets - s.paths[key].request.sockets) <= MAXIMUM_SOCKETS
  }

  lemma EditTable(s: State, key: PathKey, edited: Reservation, routes: map<nat, Handle>, nextId: nat)
    requires Ledger(s) && Matched(s.paths) && OneHandoff(s.paths) && Editable(s, key, edited, routes, nextId)
    ensures Ledger(Edit(s, key, edited, routes, nextId)) && Matched(s.paths[key := edited])
    ensures OneHandoff(s.paths[key := edited])
  {
    var next := s.paths[key := edited];
    EditMatched(s.paths, key, edited);
    EditCharges(s.paths, key, edited);
    assert next.Keys == s.paths.Keys;
    assert |next| == |s.paths|;
    assert forall k | k in next :: next[k].request == s.paths[k].request.(sockets := next[k].request.sockets);
  }

  lemma EditRoutes(s: State, key: PathKey, edited: Reservation, routes: map<nat, Handle>, nextId: nat)
    requires Keyed(s) && AllRoutesCounted(s) && Editable(s, key, edited, routes, nextId)
    ensures Keyed(Edit(s, key, edited, routes, nextId)) && AllRoutesCounted(Edit(s, key, edited, routes, nextId))
  {
    var t := Edit(s, key, edited, routes, nextId);
    forall k | k in t.paths ensures RoutesCounted(t.routes, k, t.paths[k]) {
      if k != key {
        assert RoutesCounted(s.routes, k, s.paths[k]);
        assert RoutesOf(routes, Handle(k, s.paths[k].id)) == RoutesOf(s.routes, Handle(k, s.paths[k].id));
      }
    }
  }

  lemma EditKeeps(s: State, key: PathKey, edited: Reservation, routes: map<nat, Handle>, nextId: nat)
    requires Inv(s) && Editable(s, key, edited, routes, nextId)
    ensures Inv(Edit(s, key, edited, routes, nextId))
  {
    EditTable(s, key, edited, routes, nextId);
    EditRoutes(s, key, edited, routes, nextId);
  }

  // ---------------------------------------------------------------- every operation

  lemma AcquireKeeps(s: State, owner: nat, request: Request)
    requires Inv(s) && NoneGrantable(s)
    ensures Inv(AcquireSpec(s, owner, request)) && NoneGrantable(AcquireSpec(s, owner, request))
  {
    if request.Valid() && |s.queue| < MAXIMUM_QUEUED_REQUESTS {
      var queued := s.(queue := s.queue + [Waiter(s.nextId, owner, request)], nextId := s.nextId + 1);
      assert Inv(queued);
      DrainKeeps(queued, 0);
    }
  }

  lemma ClaimKeeps(s: State, h: Handle, session: Identity, path: Identity, service: Service)
    requires Inv(s) && NoneGrantable(s)
    ensures Inv(ClaimSpec(s, h, session, path, service)) && NoneGrantable(ClaimSpec(s, h, session, path, service))
  {
    if ClaimSpec(s, h, session, path, service) != s {
      var r := s.paths[h.key];
      assert RoutesCounted(s.routes, h.key, r);
      var claimed := s.(paths := s.paths[h.key := r.(claimed := true)]);
      assert claimed == Edit(s, h.key, r.(claimed := true), s.routes, s.nextId);
      EditKeeps(s, h.key, r.(claimed := true), s.routes, s.nextId);
      DrainKeeps(claimed, 0);
    }
  }

  lemma CloseKeeps(s: State, h: Handle)
    requires Inv(s) && NoneGrantable(s)
    ensures Inv(CloseSpec(s, h)) && NoneGrantable(CloseSpec(s, h))
  {
    if s.Live(h) && Removable(s, h.key) {
      RemoveKeeps(s, h.key);
      DrainKeeps(Remove(s, h.key), 0);
    }
  }

  /** Under the invariant a live handle always closes: its links name live partners. */
  lemma LiveIsRemovable(s: State, h: Handle)
    requires Matched(s.paths) && s.Live(h)
    ensures Removable(s, h.key)
  {
    assert Linked(s.paths, h.key);
  }

  lemma {:induction false} WithoutSubset(queue: seq<Waiter>, id: nat)
    ensures forall w | w in Without(queue, id) :: w in queue
    ensures |Without(queue, id)| <= |queue|
  {
    if queue != [] && queue[0].id != id {
      WithoutSubset(queue[1..], id);
    }
  }

  lemma CancelKeeps(s: State, waiter: nat)
    requires Inv(s) && NoneGrantable(s)
    ensures Inv(CancelSpec(s, waiter)) && NoneGrantable(CancelSpec(s, waiter))
  {
    WithoutSubset(s.queue, waiter);
    var left := s.(queue := Without(s.queue, waiter));
    assert Inv(left);
    forall w | w in left.queue ensures Decide(left, w.owner, w.request) != Grant {
      assert Decide(left, w.owner, w.request) == Decide(s, w.owner, w.request);
    }
    if waiter in s.settled && s.settled[waiter].Granted? {
      CloseKeeps(left, s.settled[waiter].handle);
    }
  }

  lemma AddRoute(routes: map<nat, Handle>, id: nat, h: Handle)
    requires id !in routes
    ensures |RoutesOf(routes[id := h], h)| == |RoutesOf(routes, h)| + 1
    ensures forall other: Handle | other != h :: RoutesOf(routes[id := h], other) == RoutesOf(routes, other)
  {
    assert RoutesOf(routes[id := h], h) == RoutesOf(routes, h) + {id};
  }

  lemma DropRoute(routes: map<nat, Handle>, id: nat)
    requires id in routes
    ensures |RoutesOf(routes - {id}, routes[id])| == |RoutesOf(routes, routes[id])| - 1
    ensures forall other: Handle | other != routes[id] :: RoutesOf(routes - {id}, other) == RoutesOf(routes, other)
  {
    assert RoutesOf(routes - {id}, routes[id]) == RoutesOf(routes, routes[id]) - {id};
  }

  lemma StartInitialIsEdit(s: State, h: Handle)
    requires Inv(s) && CanStart(s, h, true)
    ensures var edited := s.paths[h.key].(unstarted := s.paths[h.key].unstarted - 1);
            Editable(s, h.key, edited, s.routes[s.nextId := h], s.nextId + 1)
            && StartRouteSpec(s, h, true) == Edit(s, h.key, edited, s.routes[s.nextId := h], s.nextId + 1)
  {
    assert RoutesCounted(s.routes, h.key, s.paths[h.key]);
    assert SocketDelta(s.paths, h.key, 0) == 0;
    AddRoute(s.routes, s.nextId, h);
  }

  lemma StartInitialKeeps(s: State, h: Handle)
    requires Inv(s) && NoneGrantable(s) && CanStart(s, h, true)
    ensures Inv(StartRouteSpec(s, h, true)) && NoneGrantable(StartRouteSpec(s, h, true))
  {
    StartInitialIsEdit(s, h);
    EditKeeps(s, h.key, s.paths[h.key].(unstarted := s.paths[h.key].unstarted - 1), s.routes[s.nextId := h],
              s.nextId + 1);
    UnstartedIsInvisible(s, StartRouteSpec(s, h, true), h.key);
  }

  /** Consuming a prepaid slot does not change any admission decision. */
  lemma UnstartedIsInvisible(s: State, t: State, key: PathKey)
    requires key in s.paths && key in t.paths && NoneGrantable(s)
    requires t == s.(paths := t.paths, routes := t.routes, nextId := t.nextId)
    requires t.paths == s.paths[key := s.paths[key].(unstarted := t.paths[key].unstarted)]
    ensures NoneGrantable(t)
  {
    forall w | w in t.queue ensures Decide(t, w.owner, w.request) != Grant {
      if HandoffAvailable(t, w.request) && t.replacements != 0 {
        var k :| k in t.paths && t.paths[k].predecessor.Some? && SameHandoff(t.paths[k].request, w.request);
        assert k in s.paths && s.paths[k].predecessor.Some? && SameHandoff(s.paths[k].request, w.request);
      }
      assert Decide(s, w.owner, w.request) != Grant;
    }
  }

  lemma StartBackupKeeps(s: State, h: Handle)
    requires Inv(s) && CanStart(s, h, false)
    ensures Inv(StartRouteSpec(s, h, false)) && NoneGrantable(StartRouteSpec(s, h, false))
  {
    var r := s.paths[h.key];
    assert RoutesCounted(s.routes, h.key, r);
    AddRoute(s.routes, s.nextId, h);
    var t := StartRouteSpec(s, h, false);
    var edited := r.(request := r.request.(sockets := r.request.sockets + 1));
    assert t == Edit(s, h.key, edited, s.routes[s.nextId := h], s.nextId + 1);
    EditKeeps(s, h.key, edited, s.routes[s.nextId := h], s.nextId + 1);
  }

  lemma ReleaseLiveKeeps(s: State, route: nat)
    requires Inv(s) && NoneGrantable(s) && route in s.routes && s.Live(s.routes[route])
    ensures Inv(ReleaseRouteSpec(s, route)) && NoneGrantable(ReleaseRouteSpec(s, route))
  {
    var h := s.routes[route];
    var r := s.paths[h.key];
    DropRoute(s.routes, route);
    assert RoutesCounted(s.routes, h.key, r);
    var edited := r.(request := r.request.(sockets := r.request.sockets - 1));
    var resized := Resize(s.(routes := s.routes - {route}), h.key, -1);
    assert resized == Edit(s, h.key, edited, s.routes - {route}, s.nextId);
    assert SocketDelta(s.paths, h.key, -1) <= 0;
    EditKeeps(s, h.key, edited, s.routes - {route}, s.nextId);
    DrainKeeps(resized, 0);
  }

  lemma ReleaseStaleKeeps(s: State, route: nat)
    requires Inv(s) && NoneGrantable(s) && route in s.routes && !s.Live(s.routes[route])
    ensures Inv(ReleaseRouteSpec(s, route)) && NoneGrantable(ReleaseRouteSpec(s, route))
  {
    DropRoute(s.routes, route);
    var t := s.(routes := s.routes - {route});
    forall k | k in t.paths ensures RoutesCounted(t.routes, k, t.paths[k]) {
      assert RoutesCounted(s.routes, k, s.paths[k]);
    }
    forall w | w in t.queue ensures Decide(t, w.owner, w.request) != Grant {
      assert Decide(t, w.owner, w.request) == Decide(s, w.owner, w.request);
    }
  }

  lemma ReleaseKeeps(s: State, route: nat)
    requires Inv(s) && NoneGrantable(s) && route in s.routes
    ensures Inv(ReleaseRouteSpec(s, route)) && NoneGrantable(ReleaseRouteSpec(s, route))
  {
    if s.Live(s.routes[route]) {
      ReleaseLiveKeeps(s, route);
    } else {
      ReleaseStaleKeeps(s, route);
    }
  }

  lemma StepKeeps(s: State, op: Operation)
    requires Inv(s) && NoneGrantable(s)
    ensures Inv(Step(s, op)) && NoneGrantable(Step(s, op))
  {
    match op
    case Acquire(owner, request) => AcquireKeeps(s, owner, request);
    case Cancel(waiter) => CancelKeeps(s, waiter);
    case Claim(h, session, path, service) => ClaimKeeps(s, h, session, path, service);
    case Close(h) => CloseKeeps(s, h);
    case StartRoute(h, initial) =>
      if CanStart(s, h, initial) {
        if initial { StartInitialKeeps(s, h); } else { StartBackupKeeps(s, h); }
      }
    case ReleaseRoute(route) => if route in s.routes { ReleaseKeeps(s, route); }
  }

  // ---------------------------------------------------------------- theorems over every history

  /** After every history: a matching, an exact ledger, the limits, and no lost wakeup. */
  lemma {:induction false} PoolIsSound(ops: seq<Operation>)
    ensures Inv(Run(ops)) && NoneGrantable(Run(ops))
  {
    if ops == [] {
      assert Charges(EMPTY.paths) == map[];
      assert Successors(EMPTY.paths) == {};
    } else {
      PoolIsSound(ops[..|ops| - 1]);
      StepKeeps(Run(ops[..|ops| - 1]), ops[|ops| - 1]);
    }
  }

  /** All live paths together never hold more than 64 + 2 * 8 sockets, nor more than 16 + 2 paths. */
  lemma PhysicalSocketsBounded(ops: seq<Operation>)
    ensures Sum(Sizes(Run(ops).paths)) <= MAXIMUM_SOCKETS + MAXIMUM_HANDOFF_ENDPOINTS * MAXIMUM_PATH_SOCKETS
    ensures |Run(ops).paths| <= MAXIMUM_CONNECTIONS + MAXIMUM_HANDOFF_ENDPOINTS
  {
    PoolIsSound(ops);
    var s := Run(ops);
    forall k | k in s.paths
      ensures Sizes(s.paths)[k] <= Charges(s.paths)[k] + (if k in Successors(s.paths) then MAXIMUM_PATH_SOCKETS else 0)
    {
      assert RoutesCounted(s.routes, k, s.paths[k]);
      assert Linked(s.paths, k);
    }
    SumSlack(Sizes(s.paths), Charges(s.paths), Successors(s.paths), MAXIMUM_PATH_SOCKETS);
  }

  // ---------------------------------------------------------------- what a pass does not settle

  /** A reservation of `service` at `key` makes the pool refuse `w`: it has the waiter's own key, or the key of
      its predecessor for another service. */
  predicate Strands(key: PathKey, service: Service, w: Waiter) {
    key == w.request.Key(w.owner)
    || (w.request.replacesPath != 0 && key == w.request.PredecessorKey(w.owner) && service != w.request.service)
  }

  /** A waiter that waits before a grant is refusable after it exactly when the grant took its
      key, or took its predecessor's key for another service. */
  lemma GrantStrandsExactly(s: State, owner: nat, request: Request, w: Waiter)
    requires Ledger(s) && 0 <= s.replacements && 0 <= request.sockets
    requires Decide(s, owner, request) == Grant && Decide(s, w.owner, w.request) == Wait
    ensures Decide(Admit(s, owner, request), w.owner, w.request) == Refuse <==>
            Strands(request.Key(owner), request.service, w)
  {
    AdmitHelpsNobody(s, owner, request, w);
  }

  /** A pass keeps every reservation and its request. */
  lemma {:induction false} DrainKeepsPaths(s: State, i: nat, k: PathKey)
    requires i <= |s.queue| && k in s.paths
    ensures k in DrainFrom(s, i).paths && DrainFrom(s, i).paths[k].request == s.paths[k].request
    decreases |s.queue| - i
  {
    if i == |s.queue| {
    } else if Decide(s, s.queue[i].owner, s.queue[i].request) == Wait {
      DrainKeepsPaths(s, i + 1, k);
    } else {
      DrainKeepsPaths(Settle(s, i), i, k);
    }
  }

  /** What a whole pass leaves unsettled: a waiter that had to wait when it was passed over is one the pool would
      now refuse exactly if the pass went on to admit a path that strands it, and it is never grantable. */
  lemma PassStrandsExactly(s: State, i: nat, w: Waiter)
    requires i <= |s.queue| && Decide(s, w.owner, w.request) == Wait
    ensures var t := DrainFrom(s, i);
            Decide(t, w.owner, w.request) == Refuse <==>
            exists k | k in t.paths && k !in s.paths :: Strands(k, t.paths[k].request.service, w)
  {
    var t := DrainFrom(s, i);
    var prior := w.request.PredecessorKey(w.owner);
    if HasPredecessor(s, w.owner, w.request) { DrainKeepsPaths(s, i, prior); }
    if Decide(t, w.owner, w.request) == Refuse {
      var k := if w.request.Key(w.owner) in t.paths then w.request.Key(w.owner) else prior;
      assert k in t.paths && k !in s.paths && Strands(k, t.paths[k].request.service, w);
    }
  }

  lemma AcquireWaits(s: State, owner: nat, request: Request)
    requires request.Valid() && s.queue == [] && Decide(s, owner, request) == Wait
    ensures AcquireSpec(s, owner, request)
         == s.(queue := [Waiter(s.nextId, owner, request)], nextId := s.nextId + 1)
  {
    var q := s.(queue := s.queue + [Waiter(s.nextId, owner, request)], nextId := s.nextId + 1);
    assert q.queue == [Waiter(s.nextId, owner, request)];
    assert Decide(q, owner, request) == Wait;
    assert DrainFrom(q, 0) == DrainFrom(q, 1) == q;
  }

  lemma AcquirePassesWaiter(s: State, w: Waiter, owner: nat, request: Request)
    requires request.Valid() && s.queue == [w]
    requires Decide(s, w.owner, w.request) == Wait && Decide(s, owner, request) == Grant
    ensures AcquireSpec(s, owner, request).queue == s.queue
    ensures request.Key(owner) in AcquireSpec(s, owner, request).paths
  {
    var last := Waiter(s.nextId, owner, request);
    var q := s.(queue := [w, last], nextId := s.nextId + 1);
    assert s.queue + [last] == q.queue;
    assert Decide(q, w.owner, w.request) == Wait && Decide(q, owner, request) == Grant;
    assert DrainFrom(q, 0) == DrainFrom(q, 1);
    var t := Settle(q, 1);
    assert t.queue == [w];
    assert DrainFrom(q, 1) == DrainFrom(t, 1) == t;
  }

  /** Over every state with room, an unclaimed path and an empty queue: a replacement of that path
      waits, the next request takes the replacement's key, and the pool keeps the replacement
      queued although it would refuse it. The single pass is not a full settlement. */
  lemma DuplicateStrands(s: State, owner: nat, waiting: Request, taking: Request)
    requires s.queue == [] && s.connections < MAXIMUM_CONNECTIONS && s.sockets + taking.sockets <= MAXIMUM_SOCKETS
    requires waiting.Valid() && taking.Valid() && waiting.replacesPath != 0 && taking.replacesPath == 0
    requires waiting.Key(owner) == taking.Key(owner) && taking.Key(owner) !in s.paths
    requires waiting.PredecessorKey(owner) in s.paths
    requires !s.paths[waiting.PredecessorKey(owner)].claimed
    requires s.paths[waiting.PredecessorKey(owner)].request.service == waiting.service
    ensures var t := Step(Step(s, Acquire(owner, waiting)), Acquire(owner, taking));
            |t.queue| == 1 && t.queue[0].request == waiting && Decide(t, t.queue[0].owner, waiting) == Refuse
  {
    AcquireWaits(s, owner, waiting);
    var q := AcquireSpec(s, owner, waiting);
    assert Decide(q, owner, waiting) == Wait && Decide(q, owner, taking) == Grant;
    AcquirePassesWaiter(q, q.queue[0], owner, taking);
  }
  /** The first request of all is granted. */
  lemma FirstIsGranted(owner: nat, first: Request)
    requires first.Valid()
    ensures var s := AcquireSpec(EMPTY, owner, first);
            && s.queue == [] && s.connections == 1 && s.sockets == first.sockets
            && s.paths == map[first.Key(owner) := Reservation(1, first, None, None, false, first.sockets)]
  {
    var q := EMPTY.(queue := [Waiter(0, owner, first)], nextId := 1);
    assert EMPTY.queue + [Waiter(0, owner, first)] == q.queue;
    assert Decide(q, owner, first) == Grant;
    var t := Settle(q, 0);
    assert t.queue == [];
    assert DrainFrom(q, 0) == DrainFrom(t, 0) == t;
  }

  /** And it is reached: after these three acquisitions the queue holds a request the pool would refuse. The
      second waits for the claim of the path it replaces, the third takes its key. */
  lemma PassStrandsDuplicate(owner: nat, first: Request, waiting: Request, taking: Request)
    requires first.Valid() && waiting.Valid() && taking.Valid()
    requires waiting.replacesPath == first.path && waiting.session == first.session && waiting.service == first.service
    requires taking.replacesPath == 0 && taking.Key(owner) == waiting.Key(owner)
    ensures var t := Run([Acquire(owner, first), Acquire(owner, waiting), Acquire(owner, taking)]);
            |t.queue| == 1 && t.queue[0].request == waiting && Decide(t, t.queue[0].owner, waiting) == Refuse
  {
    var a, b := [Acquire(owner, first)], [Acquire(owner, first), Acquire(owner, waiting)];
    var c := b + [Acquire(owner, taking)];
    assert a[..0] == [] && b[..1] == a && c[..2] == b;
    assert c == [Acquire(owner, first), Acquire(owner, waiting), Acquire(owner, taking)];
    FirstIsGranted(owner, first);
    assert Run([]) == EMPTY && Run(a) == AcquireSpec(EMPTY, owner, first);
    DuplicateStrands(Run(a), owner, waiting, taking);
    assert Run(c) == Step(Run(b), Acquire(owner, taking)) && Run(b) == Step(Run(a), Acquire(owner, waiting));
  }
}
