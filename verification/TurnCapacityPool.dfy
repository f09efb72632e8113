/** The pool as the program runs it: counters, a path table and a queue edited in place. Every
    method is the operation of the same name in TurnCapacity, so PoolIsSound holds of the object. */
module TurnCapacityPool {
  import opened Totals
  import opened TurnCapacity
  import opened TurnCapacityLedger

  /** Some history of operations leads here. */
  ghost predicate Reachable(s: State) {
    exists ops :: Run(ops) == s
  }

  lemma ReachableStep(s: State, op: Operation)
    requires Reachable(s)
    ensures Reachable(Step(s, op))
  {
    var ops :| Run(ops) == s;
    assert (ops + [op])[..|ops|] == ops;
    assert Run(ops + [op]) == Step(s, op);
  }

  lemma ReachableIsSound(s: State)
    requires Reachable(s)
    ensures Inv(s) && NoneGrantable(s)
  {
    var ops :| Run(ops) == s;
    PoolIsSound(ops);
  }

  lemma SettleSearchable(s: State, i: nat)
    requires Searchable(s) && i < |s.queue|
    ensures Searchable(Settle(s, i))
  {
    var w := s.queue[i];
    var rest := s.(queue := s.queue[..i] + s.queue[i + 1..]);
    if Decide(s, w.owner, w.request) == Grant {
      var ready := rest.(settled := s.settled[w.id := Granted(Handle(w.request.Key(w.owner), s.nextId))]);
      assert Decide(ready, w.owner, w.request) == Grant;
      AdmitOneHandoff(ready, w.owner, w.request);
    }
  }

  lemma ReachableSearchable(s: State)
    requires Reachable(s)
    ensures Searchable(s)
  {
    ReachableIsSound(s);
  }

  lemma RemoveSearchable(s: State, h: Handle)
    requires Reachable(s) && s.Live(h)
    ensures Removable(s, h.key) && Searchable(Remove(s, h.key))
  {
    ReachableIsSound(s);
    LiveIsRemovable(s, h);
    RemoveKeeps(s, h.key);
  }

  /** Neither a claim nor a resize touches the handoffs in progress. */
  lemma EditSearchable(s: State, t: State, key: PathKey)
    requires Searchable(s) && key in s.paths && t.replacements == s.replacements && t.paths.Keys == s.paths.Keys
    requires forall k | k in s.paths ::
               t.paths[k].predecessor == s.paths[k].predecessor
               && t.paths[k].request == s.paths[k].request.(sockets := t.paths[k].request.sockets)
    ensures Searchable(t)
  {
    assert Successors(t.paths) == Successors(s.paths);
  }

  class Pool {
    var paths: map<PathKey, Reservation>
    var queue: seq<Waiter>
    var connections: int
    var sockets: int
    var replacements: int
    var routes: map<nat, Handle>
    var settled: map<nat, Outcome>
    var nextId: nat

    ghost function View(): State
      reads this
    {
      State(paths, queue, connections, sockets, replacements, routes, settled, nextId)
    }

    ghost predicate Valid()
      reads this
    {
      Reachable(View())
    }

    constructor ()
      ensures Valid() && View() == EMPTY
    {
      paths, queue, connections, sockets, replacements := map[], [], 0, 0, 0;
      routes, settled, nextId := map[], map[], 0;
      new;
      assert Run([]) == View();
    }

    /** The table is searched in no particular order; at most one answer can come out. */
    method HandoffOpen(request: Request) returns (open: bool)
      requires Searchable(View())
      ensures open <==> HandoffAvailable(View(), request)
    {
      if replacements == 0 {
        return true;
      }
      if replacements >= MAXIMUM_HANDOFF_ENDPOINTS {
        return false;
      }
      var remaining := paths.Keys;
      while remaining != {}
        invariant remaining <= paths.Keys
        invariant forall k | k in paths && k !in remaining :: paths[k].predecessor.None?
        decreases remaining
      {
        var k :| k in remaining;
        if paths[k].predecessor.Some? {
          open := SameHandoff(paths[k].request, request);
          assert k in Successors(paths);
          assert forall j | j in paths && paths[j].predecessor.Some? :: j in Successors(paths);
          if !open {
            assert forall j | j in paths && paths[j].predecessor.Some? :: !SameHandoff(paths[j].request, request);
          }
          return;
        }
        remaining := remaining - {k};
      }
      return false;
    }

    method TryAcquire(owner: nat, request: Request) returns (verdict: Verdict)
      requires Searchable(View())
      modifies this
      ensures verdict == old(Decide(View(), owner, request))
      ensures View() == if verdict == Grant then old(Admit(View(), owner, request)) else old(View())
    {
      var key := request.Key(owner);
      if key in paths {
        return Refuse;
      }
      var oldKey := request.PredecessorKey(owner);
      if request.replacesPath != 0 && oldKey in paths {
        var prior := paths[oldKey];
        if prior.request.service != request.service {
          return Refuse;
        }
        var open := HandoffOpen(request);
        if !prior.claimed || prior.predecessor.Some? || prior.successor.Some? || !open {
          return Wait;
        }
        var growth := Max(0, request.sockets - prior.request.sockets);
        if sockets + growth > MAXIMUM_SOCKETS {
          return Wait;
        }
        sockets := sockets + growth;
        replacements := replacements + 1;
        paths := paths[oldKey := prior.(successor := Some(key))];
        paths := paths[key := Reservation(nextId, request, Some(oldKey), None, false, request.sockets)];
      } else {
        if connections >= MAXIMUM_CONNECTIONS || sockets + request.sockets > MAXIMUM_SOCKETS {
          return Wait;
        }
        connections := connections + 1;
        sockets := sockets + request.sockets;
        paths := paths[key := Reservation(nextId, request, None, None, false, request.sockets)];
      }
      nextId := nextId + 1;
      return Grant;
    }

    method DrainQueue()
      requires Searchable(View())
      modifies this
      ensures View() == old(Drain(View()))
    {
      ghost var start := View();
      var i := 0;
      while i < |queue|
        invariant 0 <= i <= |queue|
        invariant Searchable(View())
        invariant DrainFrom(View(), i) == Drain(start)
        decreases |queue| - i
      {
        i := SettleOrSkip(i);
      }
    }

    /** One turn of the pass: the waiter at `i` is settled in place, or skipped. */
    method SettleOrSkip(i: nat) returns (next: nat)
      requires Searchable(View()) && i < |queue|
      modifies this
      ensures Searchable(View()) && next <= |queue| && |queue| - next < old(|queue|) - i
      ensures DrainFrom(View(), next) == old(DrainFrom(View(), i))
    {
      ghost var before := View();
      SettleSearchable(before, i);
      var w := queue[i];
      var id := nextId;
      var verdict := TryAcquire(w.owner, w.request);
      if verdict == Wait {
        return i + 1;
      }
      queue := queue[..i] + queue[i + 1..];
      settled := settled[w.id := if verdict == Grant then Granted(Handle(w.request.Key(w.owner), id)) else Refused];
      assert View() == Settle(before, i);
      return i;
    }

    method Acquire(owner: nat, request: Request) returns (queued: bool)
      requires Valid()
      modifies this
      ensures Valid() && View() == old(Step(View(), Operation.Acquire(owner, request)))
      ensures queued <==> request.Valid() && |old(queue)| < MAXIMUM_QUEUED_REQUESTS
    {
      ReachableStep(View(), Operation.Acquire(owner, request));
      ReachableSearchable(View());
      if !request.Valid() || |queue| >= MAXIMUM_QUEUED_REQUESTS {
        return false;
      }
      queue := queue + [Waiter(nextId, owner, request)];
      nextId := nextId + 1;
      DrainQueue();
      return true;
    }

    method Leave(waiter: nat)
      modifies this`queue
      ensures queue == Without(old(queue), waiter)
    {
      var i := 0;
      while i < |queue| && queue[i].id != waiter
        invariant 0 <= i <= |queue|
        invariant Without(queue, waiter) == queue[..i] + Without(queue[i..], waiter)
      {
        assert queue[i..][1..] == queue[i + 1..];
        assert queue[..i + 1] == queue[..i] + [queue[i]];
        i := i + 1;
      }
      if i < |queue| {
        assert queue[i..][1..] == queue[i + 1..];
        queue := queue[..i] + queue[i + 1..];
      } else {
        assert queue[i..] == [] && queue[..i] == queue;
      }
    }

    /** The caller gave up: leave the queue, or give back what was granted meanwhile. */
    method Cancel(waiter: nat)
      requires Valid()
      modifies this
      ensures Valid() && View() == old(Step(View(), Operation.Cancel(waiter)))
    {
      ReachableStep(View(), Operation.Cancel(waiter));
      ghost var start := View();
      Leave(waiter);
      if waiter in settled && settled[waiter].Granted? {
        var h := settled[waiter].handle;
        if h.key in paths && paths[h.key].id == h.id {
          RemoveSearchable(start, h);
          assert Remove(View(), h.key) == Remove(start, h.key).(queue := queue);
          Release(h);
        }
      }
    }

    method Claim(h: Handle, session: Identity, path: Identity, service: Service) returns (ok: bool)
      requires Valid()
      modifies this
      ensures Valid() && View() == old(Step(View(), Operation.Claim(h, session, path, service)))
      ensures ok <==> old(View()).Live(h) && !old(paths)[h.key].claimed && h.key.session == session
                      && h.key.path == path && old(paths)[h.key].request.service == service
    {
      ReachableStep(View(), Operation.Claim(h, session, path, service));
      ReachableSearchable(View());
      ghost var start := View();
      if h.key !in paths || paths[h.key].id != h.id {
        return false;
      }
      var r := paths[h.key];
      if r.claimed || h.key.session != session || h.key.path != path || r.request.service != service {
        return false;
      }
      paths := paths[h.key := r.(claimed := true)];
      EditSearchable(start, View(), h.key);
      DrainQueue();
      return true;
    }

    method Release(h: Handle)
      requires View().Live(h) && Removable(View(), h.key) && Searchable(Remove(View(), h.key))
      modifies this
      ensures View() == old(Drain(Remove(View(), h.key)))
    {
      var r := paths[h.key];
      if r.predecessor.Some? {
        var prior := paths[r.predecessor.value];
        sockets := sockets - Max(0, r.request.sockets - prior.request.sockets);
        replacements := replacements - 1;
        paths := paths[r.predecessor.value := prior.(successor := None)];
      } else if r.successor.Some? {
        var next := paths[r.successor.value];
        sockets := sockets - Max(0, r.request.sockets - next.request.sockets);
        replacements := replacements - 1;
        paths := paths[r.successor.value := next.(predecessor := None)];
      } else {
        connections := connections - 1;
        sockets := sockets - r.request.sockets;
      }
      paths := paths - {h.key};
      DrainQueue();
    }

    method Close(h: Handle)
      requires Valid()
      modifies this
      ensures Valid() && View() == old(Step(View(), Operation.Close(h)))
    {
      ReachableStep(View(), Operation.Close(h));
      if h.key in paths && paths[h.key].id == h.id {
        RemoveSearchable(View(), h);
        Release(h);
      }
    }

    /** One more socket on a live path: the table and the socket count change together. */
    method TakeSocket(key: PathKey) returns (taken: bool)
      requires key in paths
      modifies `paths, `sockets
      ensures var r := old(paths[key]);
              var delta := old(SocketDelta(paths, key, 1));
              && taken == (|queue| == 0 && r.request.sockets < MAXIMUM_PATH_SOCKETS
                           && old(sockets) + delta <= MAXIMUM_SOCKETS)
              && View() == if taken then old(Resize(View(), key, 1)) else old(View())
    {
      var r := paths[key];
      var delta := SocketDelta(paths, key, 1);
      taken := |queue| == 0 && r.request.sockets < MAXIMUM_PATH_SOCKETS && sockets + delta <= MAXIMUM_SOCKETS;
      if taken {
        sockets := sockets + delta;
        paths := paths[key := r.(request := r.request.(sockets := r.request.sockets + 1))];
      }
    }

    method StartRoute(h: Handle, initial: bool) returns (route: Option<nat>)
      requires Valid()
      modifies this
      ensures Valid() && View() == old(Step(View(), Operation.StartRoute(h, initial)))
      ensures route == if old(CanStart(View(), h, initial)) then Some(old(nextId)) else None
    {
      ReachableStep(View(), Operation.StartRoute(h, initial));
      if h.key !in paths || paths[h.key].id != h.id || !paths[h.key].claimed {
        return None;
      }
      var r := paths[h.key];
      if initial {
        if r.unstarted == 0 {
          return None;
        }
        paths := paths[h.key := r.(unstarted := r.unstarted - 1)];
      } else {
        var taken := TakeSocket(h.key);
        if !taken {
          return None;
        }
      }
      routes := routes[nextId := h];
      nextId := nextId + 1;
      return Some(nextId - 1);
    }

    /** The release closure of a route; running it again does nothing. */
    method ReleaseRoute(route: nat)
      requires Valid()
      modifies this
      ensures Valid() && View() == old(Step(View(), Operation.ReleaseRoute(route)))
    {
      ReachableStep(View(), Operation.ReleaseRoute(route));
      ReachableSearchable(View());
      ghost var start := View();
      if route !in routes {
        return;
      }
      var h := routes[route];
      routes := routes - {route};
      if h.key in paths && paths[h.key].id == h.id {
        var r := paths[h.key];
        sockets := sockets + SocketDelta(paths, h.key, -1);
        paths := paths[h.key := r.(request := r.request.(sockets := r.request.sockets - 1))];
        EditSearchable(start, View(), h.key);
        DrainQueue();
      }
    }
  }
}
