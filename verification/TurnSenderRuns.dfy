/** Reconfiguration, installation and shutdown, and the theorems over every run of the sender. */
module TurnSenderRuns {
  import opened Totals
  import opened TurnSender
  import opened TurnSenderLedger

  // ---------------------------------------------------------------- a new inventory

  function Kept(services: seq<Service>, listed: set<nat>): seq<Service> {
    if services == [] then []
    else (if services[0].identity in listed then [services[0]] else []) + Kept(services[1..], listed)
  }

  /** Kept and removed services together hold what the list held. */
  lemma {:induction false} SplitTotals(services: seq<Service>, listed: set<nat>, x: Id)
    ensures LeaseTotal(services, x) == LeaseTotal(Kept(services, listed), x) + LeaseTotal(Removed(services, listed), x)
    ensures PathTotal(services, x) == PathTotal(Kept(services, listed), x) + PathTotal(Removed(services, listed), x)
    ensures Active(Kept(services, listed)) <= Active(services)
    ensures Overlap(Kept(services, listed)) <= Overlap(services)
  {
    if services != [] {
      SplitTotals(services[1..], listed, x);
      var kept, gone := Kept(services[1..], listed), Removed(services[1..], listed);
      if services[0].identity in listed {
        assert Kept(services, listed)[1..] == kept && Removed(services, listed) == gone;
      } else {
        assert Kept(services, listed) == kept && Removed(services, listed)[1..] == gone;
      }
    }
  }

  /** Listing one more identity keeps exactly the service that has it. */
  lemma {:induction false} KeptGrows(services: seq<Service>, listed: set<nat>, identity: nat, x: Id)
    requires Distinct(services) && identity !in listed
    ensures var found := Find(services, identity);
            var more, less := Kept(services, listed + {identity}), Kept(services, listed);
            && LeaseTotal(more, x) == LeaseTotal(less, x) + (if found.Some? then LeaseIn(found.value, x) else 0)
            && PathTotal(more, x) == PathTotal(less, x) + (if found.Some? then PathIn(found.value, x) else 0)
  {
    if services != [] {
      KeptGrows(services[1..], listed, identity, x);
      KeptHead(services, listed, identity);
    }
  }

  lemma {:induction false} KeptCounts(services: seq<Service>, listed: set<nat>, identity: nat)
    requires Distinct(services) && identity !in listed
    ensures var found := Find(services, identity);
            var more, less := Kept(services, listed + {identity}), Kept(services, listed);
            && Active(more) == Active(less) + (if found.Some? then IsActive(found.value) else 0)
            && Overlap(more) == Overlap(less) + (if found.Some? then IsOverlapping(found.value) else 0)
  {
    if services != [] {
      KeptCounts(services[1..], listed, identity);
      KeptHead(services, listed, identity);
    }
  }

  /** How both filters treat the first service. */
  lemma KeptHead(services: seq<Service>, listed: set<nat>, identity: nat)
    requires Distinct(services) && identity !in listed && services != []
    ensures var v, rest := services[0], services[1..];
            var more, less := Kept(services, listed + {identity}), Kept(services, listed);
            if v.identity == identity then
              more == [v] + Kept(rest, listed + {identity}) && less == Kept(rest, listed) && Find(rest, identity).None?
              && more[1..] == Kept(rest, listed + {identity})
            else if v.identity in listed then
              more == [v] + Kept(rest, listed + {identity}) && less == [v] + Kept(rest, listed)
              && more[1..] == Kept(rest, listed + {identity}) && less[1..] == Kept(rest, listed)
            else more == Kept(rest, listed + {identity}) && less == Kept(rest, listed)
  {
    if services[0].identity == identity {
      KeptWithout(services[1..], listed, identity);
    }
  }

  lemma {:induction false} KeptWithout(services: seq<Service>, listed: set<nat>, identity: nat)
    requires forall i | 0 <= i < |services| :: services[i].identity != identity
    ensures Find(services, identity).None?
  {
    if services != [] {
      KeptWithout(services[1..], listed, identity);
    }
  }

  /** The rebuilt list holds exactly the slots of the services that stay listed. */
  lemma {:induction false} RebuildTotals(services: seq<Service>, profiles: seq<Profile>, base: Id, x: Id)
    requires Distinct(services)
    requires ListedOnce(profiles)
    ensures var built, kept := Rebuild(services, profiles, base), Kept(services, Listed(profiles));
            && LeaseTotal(built, x) == LeaseTotal(kept, x) && PathTotal(built, x) == PathTotal(kept, x)
            && Active(built) == Active(kept) && Overlap(built) == Overlap(kept)
  {
    if profiles == [] {
      KeptNone(services, Listed(profiles));
    } else {
      var rest := profiles[1..];
      RebuildTotals(services, rest, base + 1, x);
      assert Listed(profiles) == Listed(rest) + {profiles[0].identity} by {
        assert forall i | 0 < i < |profiles| :: profiles[i] == rest[i - 1];
      }
      assert profiles[0].identity !in Listed(rest);
      KeptGrows(services, Listed(rest), profiles[0].identity, x);
      KeptCounts(services, Listed(rest), profiles[0].identity);
      assert Rebuild(services, profiles, base)[1..] == Rebuild(services, rest, base + 1);
    }
  }

  lemma {:induction false} KeptNone(services: seq<Service>, listed: set<nat>)
    requires listed == {}
    ensures Kept(services, listed) == []
  {
    if services != [] {
      KeptNone(services[1..], listed);
    }
  }

  lemma {:induction false} FindBudgeted(services: seq<Service>, identity: nat)
    requires AllBudgeted(services)
    ensures Find(services, identity).Some? ==> Budgeted(Find(services, identity).value)
                                               && Find(services, identity).value.identity == identity
  {
    if services != [] {
      FindBudgeted(services[1..], identity);
    }
  }

  lemma {:induction false} RebuildShape(services: seq<Service>, profiles: seq<Profile>, base: Id)
    requires AllBudgeted(services)
    ensures |Rebuild(services, profiles, base)| == |profiles| && AllBudgeted(Rebuild(services, profiles, base))
    ensures forall i | 0 <= i < |profiles| :: Rebuild(services, profiles, base)[i].identity == profiles[i].identity
  {
    if profiles != [] {
      FindBudgeted(services, profiles[0].identity);
      RebuildShape(services, profiles[1..], base + 1);
    }
  }

  lemma {:induction false} SlotLeasesCount(services: seq<Service>, x: Id)
    ensures SlotLeases(services)[x] == LeaseTotal(services, x)
  {
    if services != [] {
      SlotLeasesCount(services[1..], x);
      assert Leases(services[0])[x] == LeaseIn(services[0], x);
    }
  }

  lemma {:induction false} SlotPathsCount(services: seq<Service>, x: Id)
    ensures SlotPaths(services)[x] == PathTotal(services, x)
  {
    if services != [] {
      SlotPathsCount(services[1..], x);
      assert Paths(services[0])[x] == PathIn(services[0], x);
    }
  }

  lemma RefreshTotals(s: State, e: Env, x: Id)
    requires Distinct(s.services) && Admissible(e) && e.revision != s.revision
    ensures var t := RefreshConfiguration(s, e);
            && LeaseTotal(t.services, x) + t.closed[x] == LeaseTotal(s.services, x) + s.closed[x]
            && PathTotal(t.services, x) <= PathTotal(s.services, x)
            && (x in t.paths <==> x in s.paths && PathTotal(s.services, x) == PathTotal(t.services, x))
            && Active(t.services) <= Active(s.services) && Overlap(t.services) <= Overlap(s.services)
  {
    var gone := Removed(s.services, Listed(e.profiles));
    SplitTotals(s.services, Listed(e.profiles), x);
    RebuildTotals(s.services, e.profiles, s.nextId, x);
    SlotLeasesCount(gone, x);
    SlotPathsCount(gone, x);
  }

  lemma RefreshConfigurationKeeps(s: State, e: Env)
    requires Inv(s) && Admissible(e)
    ensures Inv(RefreshConfiguration(s, e))
  {
    if e.revision != s.revision {
      var t := RefreshConfiguration(s, e);
      RebuildShape(s.services, e.profiles, s.nextId);
      forall x: Id
        ensures LeaseTotal(t.services, x) + t.closed[x] == LeaseTotal(s.services, x) + s.closed[x]
        ensures PathTotal(t.services, x) <= PathTotal(s.services, x)
        ensures x in t.paths <==> x in s.paths && PathTotal(s.services, x) == PathTotal(t.services, x)
      {
        RefreshTotals(s, e, x);
      }
      RefreshTotals(s, e, 0);
      RefreshBooks(s, t);
    }
  }

  lemma RefreshBooks(s: State, t: State)
    requires Conserved(s) && LookupExact(s) && Ticketed(s)
    requires t == s.(services := t.services, nextId := t.nextId, paths := t.paths, closed := t.closed,
                     canceled := t.canceled, revision := t.revision) && s.nextId <= t.nextId
    requires forall x: Id :: LeaseTotal(t.services, x) + t.closed[x] == LeaseTotal(s.services, x) + s.closed[x]
    requires forall x: Id :: PathTotal(t.services, x) <= PathTotal(s.services, x)
    requires forall x: Id :: x in t.paths <==> x in s.paths && PathTotal(s.services, x) == PathTotal(t.services, x)
    ensures Conserved(t) && LookupExact(t) && Ticketed(t)
  {
    forall x: Id ensures Tickets(t, x) <= 1 && (Tickets(t, x) == 1 ==> 0 < x < t.nextId) {
      assert Tickets(s, x) <= 1;
      assert PathTotal(t.services, x) <= PathTotal(s.services, x);
    }
    if s.stage == Running {
      forall x: Id ensures PathTotal(t.services, x) == if x in t.paths then 1 else 0 {
        assert PathTotal(s.services, x) == if x in s.paths then 1 else 0;
        assert PathTotal(t.services, x) <= PathTotal(s.services, x);
      }
    }
  }

  lemma RefreshedKeeps(s: State, e: Env)
    requires Inv(s) && Admissible(e)
    ensures Inv(Refreshed(s, e))
  {
    RefreshConfigurationKeeps(s, e);
    var t := RefreshConfiguration(s, e);
    var u := RefreshNetwork(t, e);
    if e.network != t.network {
      forall i | 0 <= i < |u.services| ensures Budgeted(u.services[i]) && SamePlaces(u.services[i], t.services[i]) {
        assert Budgeted(t.services[i]);
      }
      RewriteKeeps(t, u);
    }
  }

  // ---------------------------------------------------------------- maintenance and demand

  lemma ReportsKeep(s: State, e: Env)
    requires Inv(s)
    ensures Inv(s.(services := ApplyReports(s.services, e)))
  {
    var reported := s.(services := ApplyReports(s.services, e));
    forall i | 0 <= i < |s.services|
      ensures Budgeted(reported.services[i]) && SamePlaces(reported.services[i], s.services[i])
    {
      assert Budgeted(s.services[i]);
    }
    RewriteKeeps(s, reported);
  }

  lemma TendKeeps(s: State, demand: bool, e: Env)
    requires Inv(s) && s.stage == Running && Admissible(e)
    ensures Inv(Tend(s, demand, e))
  {
    MaintainFromKeeps(s, 0, demand, e);
    var tended := MaintainFrom(s, 0, demand, e);
    if demand {
      AcquireFromKeeps(tended, 0, Active(tended.services), Overlap(tended.services), e);
    }
  }

  lemma MaintainKeeps(s: State, e: Env)
    requires Inv(s) && s.stage == Running && Admissible(e)
    ensures Inv(Maintain(s, e)) && Maintain(s, e).stage == Running
  {
    var reported := s.(services := ApplyReports(s.services, e));
    ReportsKeep(s, e);
    RefreshedKeeps(reported, e);
    TendKeeps(Refreshed(reported, e), e.now < s.demandUntil, e);
  }

  lemma DemandKeeps(s: State, sequence: nat, hold: nat, e: Env)
    requires Inv(s) && s.stage == Running && Admissible(e)
    ensures Inv(Demand(s, sequence, hold, e))
  {
    if sequence > s.sequence {
      var renewed := Renew(s, sequence, hold, e);
      forall i | 0 <= i < |s.services|
        ensures Budgeted(renewed.services[i]) && SamePlaces(renewed.services[i], s.services[i])
      {
        assert Budgeted(s.services[i]);
      }
      RewriteKeeps(s, renewed);
      MaintainKeeps(renewed, e);
    }
  }

  // ---------------------------------------------------------------- messages and faults

  lemma {:induction false} ReadyKeeps(s: State, i: nat, path: Id, authority: nat, e: Env)
    requires Inv(s) && s.stage == Running && i <= |s.services|
    ensures Inv(ReadyFrom(s, i, path, authority, e))
    decreases |s.services| - i
  {
    if i < |s.services| {
      var v := s.services[i];
      var marked := s.(services := s.services[i := MarkReady(v, path, authority)]);
      EditKeeps(s, marked, i, MarkReady(v, path, authority));
      PromoteKeeps(marked, i, e);
      ReadyKeeps(if Names(Pending(v), path, authority) then Promote(marked, i, e) else s, i + 1, path, authority, e);
    }
  }

  lemma WithdrawCurrentKeeps(s: State, i: nat, path: Id, authority: nat, retryAt: Time, e: Env)
    requires Inv(s) && s.stage == Running && i < |s.services|
    ensures Inv(WithdrawCurrent(s, i, path, authority, retryAt, e))
  {
    var v := s.services[i];
    var t := WithdrawCurrent(s, i, path, authority, retryAt, e);
    if Names(v.current, path, authority) {
      RetireKeeps(s, t, i, t.services[i], v.current.value);
    }
  }

  lemma WithdrawPendingKeeps(s: State, t: State, i: nat, w: Service)
    requires Inv(s) && s.stage == Running && i < |s.services| && s.services[i].preparation.Connecting?
    requires w == CountInitialFailure(s.services[i]).(preparation := Idle, retryAt := w.retryAt)
    requires t == Retire(s, s.services[i].preparation.candidate).(services := s.services[i := w])
    ensures Inv(t)
  {
    assert Budgeted(s.services[i]);
    RetireKeeps(s, t, i, w, s.services[i].preparation.candidate);
  }

  lemma WithdrawKeeps(s: State, i: nat, path: Id, authority: nat, retryAt: Time, e: Env)
    requires Inv(s) && s.stage == Running && i < |s.services|
    ensures Inv(Withdraw(s, i, path, authority, retryAt, e))
  {
    WithdrawCurrentKeeps(s, i, path, authority, retryAt, e);
    var served := WithdrawCurrent(s, i, path, authority, retryAt, e);
    if Names(Pending(served.services[i]), path, authority) {
      var t := Withdraw(s, i, path, authority, retryAt, e);
      WithdrawPendingKeeps(served, t, i, t.services[i]);
    }
  }

  lemma {:induction false} WithdrawFromKeeps(s: State, i: nat, path: Id, authority: nat, retryAt: Time, e: Env)
    requires Inv(s) && s.stage == Running && i <= |s.services|
    ensures Inv(WithdrawFrom(s, i, path, authority, retryAt, e))
    decreases |s.services| - i
  {
    if i < |s.services| {
      WithdrawKeeps(s, i, path, authority, retryAt, e);
      WithdrawFromKeeps(Withdraw(s, i, path, authority, retryAt, e), i + 1, path, authority, retryAt, e);
    }
  }

  lemma RecoverKeeps(s: State, path: Id, mismatch: bool, e: Env)
    requires Inv(s)
    ensures Inv(Recover(s, path, mismatch, e))
  {
    if path in s.paths {
      var t := Recover(s, path, mismatch, e);
      forall i | 0 <= i < |s.services| ensures Budgeted(t.services[i]) && SamePlaces(t.services[i], s.services[i]) {
        assert Budgeted(s.services[i]);
      }
      RewriteKeeps(s, t);
    }
  }

  // ---------------------------------------------------------------- installing a result

  lemma {:induction false} QueuedAppend(completed: seq<Issued>, r: Issued, x: Id)
    ensures QueuedTotal(completed + [r], x) == QueuedTotal(completed, x) + Occurs(r.lease, x)
    ensures RequestTotal(completed + [r], x) == RequestTotal(completed, x) + Occurs(Some(r.request), x)
  {
    if completed == [] {
      assert completed + [r] == [r];
    } else {
      assert (completed + [r])[1..] == completed[1..] + [r];
      QueuedAppend(completed[1..], r, x);
    }
  }

  /** Taking a result and releasing its lease, whatever the slot edit that goes with it. */
  lemma DropResultKeeps(s: State, t: State, i: nat, v: Service)
    requires Inv(s) && s.completed != [] && i < |s.services| && Budgeted(v) && v.identity == s.services[i].identity
    requires (forall x: Id :: LeaseIn(v, x) == LeaseIn(s.services[i], x))
             && (forall x: Id :: PathIn(v, x) == PathIn(s.services[i], x))
    requires IsActive(v) <= IsActive(s.services[i]) && IsOverlapping(v) <= IsOverlapping(s.services[i])
    requires t == CloseLease(s.(completed := s.completed[1..]), s.completed[0].lease).(services := s.services[i := v])
    ensures Inv(t)
  {
    MoveSlots(s, i, v, None);
    assert forall x: Id :: LeaseTotal(t.services, x) == LeaseTotal(s.services, x);
    assert forall x: Id :: PathTotal(t.services, x) == PathTotal(s.services, x);
    DropResultBooks(s, t);
  }

  lemma DropResultBooks(s: State, t: State)
    requires Conserved(s) && LookupExact(s) && Ticketed(s) && s.completed != []
    requires t == CloseLease(s.(completed := s.completed[1..]), s.completed[0].lease).(services := t.services)
    requires forall x: Id :: LeaseTotal(t.services, x) == LeaseTotal(s.services, x)
    requires forall x: Id :: PathTotal(t.services, x) == PathTotal(s.services, x)
    ensures Conserved(t) && LookupExact(t) && Ticketed(t)
  {
    forall x: Id ensures Tickets(t, x) <= 1 && (Tickets(t, x) == 1 ==> 0 < x < t.nextId) {
      assert Tickets(s, x) <= 1;
    }
  }

  lemma PlacedBooks(s: State, t: State, i: nat, d: Delegation)
    requires Inv(s) && s.stage == Running && s.completed != [] && i < |s.services|
    requires s.completed[0].lease == Some(d.lease) && s.completed[0].request == d.path
    requires s.services[i].preparation.Issuing? && Budgeted(s.services[i].(preparation := Connecting(d)))
    requires t == s.(completed := s.completed[1..], paths := s.paths + {d.path},
                     services := s.services[i := s.services[i].(preparation := Connecting(d))])
    ensures Inv(t)
  {
    var v := s.services[i].(preparation := Connecting(d));
    CountUpdate(s.services, i, v);
    forall x: Id
      ensures LeaseTotal(t.services, x) == LeaseTotal(s.services, x) + Occurs(Some(d.lease), x)
      ensures PathTotal(t.services, x) == PathTotal(s.services, x) + Occurs(Some(d.path), x)
    {
      SlotUpdate(s.services, i, v, x);
    }
    PlacedTables(s, t, d);
  }

  lemma PlacedTables(s: State, t: State, d: Delegation)
    requires Conserved(s) && LookupExact(s) && Ticketed(s) && s.stage == Running && s.completed != []
    requires s.completed[0].lease == Some(d.lease) && s.completed[0].request == d.path
    requires t == s.(completed := s.completed[1..], paths := s.paths + {d.path}, services := t.services)
    requires forall x: Id :: LeaseTotal(t.services, x) == LeaseTotal(s.services, x) + Occurs(Some(d.lease), x)
    requires forall x: Id :: PathTotal(t.services, x) == PathTotal(s.services, x) + Occurs(Some(d.path), x)
    ensures Conserved(t) && LookupExact(t) && Ticketed(t)
  {
    forall x: Id ensures Tickets(t, x) == Tickets(s, x) {
      assert PathTotal(t.services, x) == PathTotal(s.services, x) + Occurs(Some(d.path), x);
    }
    forall x: Id ensures Tickets(t, x) <= 1 && (Tickets(t, x) == 1 ==> 0 < x < t.nextId) {
      assert Tickets(s, x) <= 1;
    }
    forall x: Id ensures PathTotal(t.services, x) == if x in t.paths then 1 else 0 {
      assert Tickets(s, x) <= 1;
      assert PathTotal(t.services, x) == PathTotal(s.services, x) + Occurs(Some(d.path), x);
      assert PathTotal(s.services, x) == if x in s.paths then 1 else 0;
    }
  }

  lemma DroppedIsSound(s: State, e: Env)
    requires Inv(s) && s.stage == Running && s.completed != []
    requires Discarded(s.(completed := s.completed[1..]), IndexOf(s.services, s.completed[0].service), s.completed[0],
                       e)
    ensures Inv(CloseLease(Release(s.(completed := s.completed[1..]), IndexOf(s.services, s.completed[0].service),
                                   s.completed[0].request), s.completed[0].lease))
  {
    var result := s.completed[0];
    var popped := s.(completed := s.completed[1..]);
    var i := IndexOf(s.services, result.service);
    var dropped := CloseLease(Release(popped, i, result.request), result.lease);
    if i < |s.services| {
      assert Budgeted(s.services[i]);
      assert dropped.services == s.services[i := dropped.services[i]];
      DropResultKeeps(s, dropped, i, dropped.services[i]);
    } else {
      DropResultBooks(s, dropped);
    }
  }

  lemma PlaceKeeps(s: State, e: Env)
    requires Inv(s) && s.stage == Running && s.completed != [] && Admissible(e)
    ensures Inv(Place(s.(completed := s.completed[1..]), s.completed[0], e))
  {
    var result := s.completed[0];
    var popped := s.(completed := s.completed[1..]);
    var i := IndexOf(s.services, result.service);
    if Discarded(popped, i, result, e) {
      DroppedIsSound(s, e);
      MaintainKeeps(CloseLease(Release(popped, i, result.request), result.lease), e);
    } else {
      var v := s.services[i];
      assert Budgeted(v);
      var t := Place(popped, result, e);
      if result.failed || e.timedOut || result.lease.None? || !e.narrowed || !e.delivered {
        DropResultKeeps(s, t, i, t.services[i]);
      } else {
        var d := Grant(v, result, e);
        if v.current.Some? {
          ServingPathIsDrawn(s, i);
        }
        PlacedBooks(s, t, i, d);
      }
    }
  }

  lemma InstallKeeps(s: State, e: Env)
    requires Inv(s) && s.stage == Running && s.completed != [] && Admissible(e)
    ensures Inv(Install(s, e))
  {
    var r := Refreshed(s, e);
    RefreshedKeeps(s, e);
    assert Refreshed(s.(completed := s.completed[1..]), e) == r.(completed := r.completed[1..]);
    assert r.completed == s.completed && r.stage == Running;
    PlaceKeeps(r, e);
  }

  // ---------------------------------------------------------------- requests ending, shutdown

  lemma FinishKeeps(s: State, request: Id, gotLease: bool, failed: bool, queued: bool)
    requires Inv(s)
    ensures Inv(Finish(s, request, gotLease, failed, queued))
  {
    if request in s.inFlight {
      var t := Finish(s, request, gotLease, failed, queued);
      var lease := if gotLease then Some(s.nextId) else None;
      var r := s.inFlight[request].(lease := lease, failed := failed);
      forall x: Id
        ensures Tickets(t, x) <= 1 && (Tickets(t, x) == 1 ==> 0 < x < t.nextId)
        ensures LeaseTotal(t.services, x) + QueuedTotal(t.completed, x) + t.closed[x] == if x in t.issued then 1 else 0
      {
        QueuedAppend(s.completed, r, x);
        assert Tickets(s, x) <= 1;
        assert LeaseTotal(s.services, x) + QueuedTotal(s.completed, x) + s.closed[x] == if x in s.issued then 1 else 0;
      }
    }
  }

  lemma {:induction false} QueuedMultiset(completed: seq<Issued>, x: Id)
    ensures QueuedLeases(completed)[x] == QueuedTotal(completed, x)
  {
    if completed != [] {
      QueuedMultiset(completed[1..], x);
    }
  }

  lemma ShutDownKeeps(s: State)
    requires Inv(s) && s.stage == Stopping && s.inFlight == map[]
    ensures Inv(ShutDown(s))
  {
    var t := ShutDown(s);
    forall x: Id ensures LeaseTotal(t.services, x) + QueuedTotal(t.completed, x) + t.closed[x] == if x in t.issued
        then 1 else 0 {
      QueuedMultiset(s.completed, x);
      SlotLeasesCount(s.services, x);
      assert LeaseTotal(s.services, x) + QueuedTotal(s.completed, x) + s.closed[x] == if x in s.issued then 1 else 0;
    }
  }

  lemma StopKeeps(s: State)
    requires Inv(s)
    ensures Inv(s.(paths := {}, stage := Stopping))
  {
    assert forall x: Id :: Tickets(s.(paths := {}, stage := Stopping), x) == Tickets(s, x);
  }

  lemma LoopStepKeeps(s: State, event: Event, e: Env)
    requires Inv(s) && Admissible(e) && s.stage == Running
    ensures Inv(Step(s, event, e))
  {
    match event
    case Tick => MaintainKeeps(s, e);
    case Demanded(sequence, hold) => DemandKeeps(s, sequence, hold, e);
    case Readied(path, authority) => ReadyKeeps(s, 0, path, authority, e);
    case Retired(path, authority, idle) =>
      WithdrawFromKeeps(s, 0, path, authority, if idle then e.now else e.now + SERVICE_COOLDOWN, e);
    case Faulted(path, mismatch) => RecoverKeeps(s, path, mismatch, e);
    case Finished(request, gotLease, failed) => FinishKeeps(s, request, gotLease, failed, true);
    case Installing => if s.completed != [] { InstallKeeps(s, e); }
    case Stop => StopKeeps(s);
    case Abandoned(request, gotLease) => FinishKeeps(s, request, gotLease, true, false);
    case Shutdown =>
  }

  lemma StepKeeps(s: State, event: Event, e: Env)
    requires Inv(s) && Admissible(e)
    ensures Inv(Step(s, event, e))
  {
    match s.stage
    case Running => LoopStepKeeps(s, event, e);
    case Stopping =>
      match event {
        case Finished(request, gotLease, failed) => FinishKeeps(s, request, gotLease, failed, true);
        case Abandoned(request, gotLease) => FinishKeeps(s, request, gotLease, true, false);
        case Shutdown => if s.inFlight == map[] { ShutDownKeeps(s); }
        case _ =>
      }
    case Closed =>
  }

  // ---------------------------------------------------------------- theorems over every run

  ghost predicate AllAdmissible(events: seq<(Event, Env)>) {
    forall i | 0 <= i < |events| :: Admissible(events[i].1)
  }

  function Start(profiles: seq<Profile>, revision: nat, network: nat): State {
    State(Rebuild([], profiles, 1), {}, [], map[], {}, multiset{}, {}, 0, 0, 0, network, revision, 1 + |profiles|,
          Running)
  }

  function Run(s: State, events: seq<(Event, Env)>): State {
    if events == [] then s else Step(Run(s, events[..|events| - 1]), events[|events| - 1].0, events[|events| - 1].1)
  }

  lemma StartIsSound(profiles: seq<Profile>, revision: nat, network: nat)
    requires ListedOnce(profiles)
    ensures Inv(Start(profiles, revision, network))
  {
    var s := Start(profiles, revision, network);
    RebuildShape([], profiles, 1);
    RebuildTotals([], profiles, 1, 0);
    forall x: Id ensures LeaseTotal(s.services, x) == 0 && PathTotal(s.services, x) == 0 {
      RebuildTotals([], profiles, 1, x);
    }
    assert forall x: Id :: Tickets(s, x) == 0;
  }

  /** At every point of every run until close: at most two services hold or prepare a path, at most
      one does both, the lookup table is exact, every lease is in one place, every budget holds. */
  lemma {:induction false} SenderIsSound(profiles: seq<Profile>, revision: nat, network: nat, events: seq<(Event, Env)>)
    requires ListedOnce(profiles)
    requires AllAdmissible(events)
    ensures Inv(Run(Start(profiles, revision, network), events))
  {
    var s := Start(profiles, revision, network);
    if events == [] {
      StartIsSound(profiles, revision, network);
    } else {
      var before := events[..|events| - 1];
      SenderIsSound(profiles, revision, network, before);
      StepKeeps(Run(s, before), events[|events| - 1].0, events[|events| - 1].1);
    }
  }

  lemma {:induction false} FewPaths(services: seq<Service>, paths: set<Id>)
    requires forall x | x in paths :: PathTotal(services, x) > 0
    ensures |paths| <= Active(services) + Overlap(services)
  {
    if services == [] {
      assert paths == {};
    } else {
      var here := set x | x in paths && PathIn(services[0], x) > 0;
      FewPaths(services[1..], paths - here);
      assert paths == here + (paths - here);
      SlotPathsFew(services[0], here);
    }
  }

  lemma SlotPathsFew(v: Service, paths: set<Id>)
    requires forall x | x in paths :: PathIn(v, x) > 0
    ensures |paths| <= IsActive(v) + IsOverlapping(v)
  {
    var first := if v.current.Some? then {v.current.value.path} else {};
    var second := if v.preparation.Connecting? then {v.preparation.candidate.path} else {};
    assert paths <= first + second;
    SubsetSize(paths, first + second);
  }

  /** Never more than three delegated paths are open to lookup. */
  lemma AtMostThreePaths(s: State)
    requires Inv(s) && s.stage == Running
    ensures |s.paths| <= MAXIMUM_ACTIVE_SERVICES + MAXIMUM_REPLACEMENT_PATHS
  {
    forall x: Id | x in s.paths ensures PathTotal(s.services, x) > 0 {
      assert PathTotal(s.services, x) == 1;
    }
    FewPaths(s.services, s.paths);
  }

  /** After shutdown every lease ever issued has been released, exactly once. */
  lemma ShutdownReleasesAll(s: State, e: Env)
    requires Inv(s) && s.stage == Stopping && s.inFlight == map[]
    ensures Step(s, Shutdown, e).closed == multiset(s.issued)
  {
    var t := Step(s, Shutdown, e);
    ShutDownKeeps(s);
    forall x: Id ensures t.closed[x] == multiset(s.issued)[x] {
      assert LeaseTotal(t.services, x) + QueuedTotal(t.completed, x) + t.closed[x] == if x in t.issued then 1 else 0;
    }
  }
}
