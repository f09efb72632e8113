/** The recovery circuit: a service that spent its budget asks for nothing while it has no serving path,
    until demand starts a new generation, the network changes, or a path of its own makes useful progress. */
module TurnSenderRecovery {
  import opened Totals
  import opened TurnSender
  import opened TurnSenderLedger
  import opened TurnSenderRuns

  /** Useful traffic that restores the budget of the service holding this path. */
  predicate Useful(d: Delegation, e: Env) {
    d.path in e.progress && !d.recovery && e.now >= d.created + SERVICE_COOLDOWN
  }

  /** Progress on the serving path, or on a prepared one, which can be promoted and retired in one round. */
  predicate Restored(v: Service, e: Env) {
    (v.current.Some? && Useful(v.current.value, e))
    || (v.preparation.Connecting? && Useful(v.preparation.candidate, e))
  }

  /** The steps that restore the service's budget or drop it from the configuration. */
  predicate Resets(s: State, identity: nat, event: Event, e: Env) {
    || e.network != s.network
    || (e.revision != s.revision && identity !in Listed(e.profiles))
    || (event.Demanded? && event.sequence > s.sequence && (event.hold == 0 || e.now >= s.demandUntil))
    || (Find(s.services, identity).Some? && Restored(Find(s.services, identity).value, e))
  }

  /** What can become of a preparation without a new request: it is given up, stays, or its own request
      is installed. */
  predicate Continues(p: Preparation, q: Preparation) {
    || q.Idle?
    || q == p
    || (q.Connecting? && p.Connecting? && q.candidate.path == p.candidate.path)
    || (q.Connecting? && p.Issuing? && q.candidate.path == p.request)
  }

  /** The listed service has spent its budget. */
  predicate Spent(s: State, identity: nat) {
    var v := Find(s.services, identity);
    v.Some? && v.value.attempts >= MAXIMUM_RECOVERY_REPLACEMENTS
  }

  predicate Serves(s: State, identity: nat) {
    var v := Find(s.services, identity);
    v.Some? && v.value.current.Some?
  }

  /** From `s` to `t` the budget stays spent, and unless the service serves in `t` it asked for nothing. */
  predicate StaysShut(s: State, t: State, identity: nat) {
    && Spent(s, identity) && Spent(t, identity)
    && (!Serves(t, identity) ==>
          Continues(Find(s.services, identity).value.preparation, Find(t.services, identity).value.preparation))
  }

  // ---------------------------------------------------------------- list edits at other places

  /** Within a step: the budget is spent, nothing in the slots restores it, and nothing new was asked. */
  predicate HoldsAt(services: seq<Service>, i: nat, identity: nat, p: Preparation, e: Env) {
    && i < |services| && services[i].identity == identity
    && services[i].attempts >= MAXIMUM_RECOVERY_REPLACEMENTS && !Restored(services[i], e)
    && Continues(p, services[i].preparation)
  }

  /** After the acquisitions: only a serving service may have asked. */
  predicate EndsAt(services: seq<Service>, i: nat, identity: nat, p: Preparation) {
    && i < |services| && services[i].identity == identity && services[i].attempts >= MAXIMUM_RECOVERY_REPLACEMENTS
    && (services[i].current.None? ==> Continues(p, services[i].preparation))
  }

  lemma PromoteSkips(s: State, j: nat, e: Env, i: nat, identity: nat, p: Preparation)
    requires j < |s.services| && HoldsAt(s.services, i, identity, p, e)
    ensures HoldsAt(MaintainSelection(s, j, e).services, i, identity, p, e)
    ensures HoldsAt(Promote(s, j, e).services, i, identity, p, e)
  {
  }

  lemma RetireSkips(s: State, j: nat, demand: bool, e: Env, i: nat, identity: nat, p: Preparation)
    requires j < |s.services| && HoldsAt(s.services, i, identity, p, e)
    ensures HoldsAt(RetireCurrent(s, j, demand, e).services, i, identity, p, e)
    ensures HoldsAt(RetirePending(s, j, demand, e).services, i, identity, p, e)
  {
  }

  lemma MaintainServiceSkips(s: State, j: nat, demand: bool, e: Env, i: nat, identity: nat, p: Preparation)
    requires j < |s.services| && HoldsAt(s.services, i, identity, p, e)
    ensures HoldsAt(MaintainService(s, j, demand, e).services, i, identity, p, e)
  {
    var a := MaintainSelection(s, j, e);
    PromoteSkips(s, j, e, i, identity, p);
    PromoteSkips(a, j, e, i, identity, p);
    var b := Promote(a, j, e);
    RetireSkips(b, j, demand, e, i, identity, p);
    RetireSkips(RetireCurrent(b, j, demand, e), j, demand, e, i, identity, p);
  }

  lemma {:induction false} MaintainFromSkips(s: State, j: nat, demand: bool, e: Env, i: nat, identity: nat,
                                             p: Preparation)
    requires j <= |s.services| && HoldsAt(s.services, i, identity, p, e)
    ensures HoldsAt(MaintainFrom(s, j, demand, e).services, i, identity, p, e)
    decreases |s.services| - j
  {
    if j < |s.services| {
      MaintainServiceSkips(s, j, demand, e, i, identity, p);
      MaintainFromSkips(MaintainService(s, j, demand, e), j + 1, demand, e, i, identity, p);
    }
  }

  lemma {:induction false} AcquireFromEnds(s: State, j: nat, active: nat, overlap: nat, e: Env, i: nat, identity: nat,
                                           p: Preparation)
    requires j <= |s.services| && EndsAt(s.services, i, identity, p)
    ensures EndsAt(AcquireFrom(s, j, active, overlap, e).services, i, identity, p)
    decreases |s.services| - j
  {
    if j == |s.services| {
    } else if !CanAcquire(s.services, s.services[j], active, overlap, e) {
      AcquireFromEnds(s, j + 1, active, overlap, e, i, identity, p);
    } else {
      assert j == i ==> s.services[j].current.Some?;
      var next := Acquire(s, j, e);
      if s.services[j].current.None? {
        AcquireFromEnds(next, j + 1, active + 1, overlap, e, i, identity, p);
      } else {
        AcquireFromEnds(next, j + 1, active, overlap + 1, e, i, identity, p);
      }
    }
  }

  lemma {:induction false} ReadySkips(s: State, j: nat, path: Id, authority: nat, e: Env, i: nat, identity: nat,
                                      p: Preparation)
    requires j <= |s.services| && HoldsAt(s.services, i, identity, p, e)
    ensures HoldsAt(ReadyFrom(s, j, path, authority, e).services, i, identity, p, e)
    decreases |s.services| - j
  {
    if j < |s.services| {
      var v := s.services[j];
      var marked := s.(services := s.services[j := MarkReady(v, path, authority)]);
      var next := if Names(Pending(v), path, authority) then Promote(marked, j, e) else s;
      assert HoldsAt(next.services, i, identity, p, e);
      ReadySkips(next, j + 1, path, authority, e, i, identity, p);
    }
  }

  lemma {:induction false} WithdrawSkips(s: State, j: nat, path: Id, authority: nat, retryAt: Time, e: Env, i: nat,
                                         identity: nat, p: Preparation)
    requires j <= |s.services| && HoldsAt(s.services, i, identity, p, e)
    ensures HoldsAt(WithdrawFrom(s, j, path, authority, retryAt, e).services, i, identity, p, e)
    decreases |s.services| - j
  {
    if j < |s.services| {
      var next := Withdraw(s, j, path, authority, retryAt, e);
      assert HoldsAt(next.services, i, identity, p, e);
      WithdrawSkips(next, j + 1, path, authority, retryAt, e, i, identity, p);
    }
  }

  // ---------------------------------------------------------------- reconfiguration

  lemma {:induction false} FindAt(services: seq<Service>, i: nat)
    requires Distinct(services) && i < |services|
    ensures Find(services, services[i].identity) == Some(services[i])
  {
    if i > 0 {
      assert services[1..][i - 1] == services[i];
      FindAt(services[1..], i - 1);
    }
  }

  lemma {:induction false} FindIndex(services: seq<Service>, identity: nat) returns (i: nat)
    requires Find(services, identity).Some?
    ensures i < |services| && services[i].identity == identity && Find(services, identity) == Some(services[i])
  {
    i := 0;
    if services[0].identity != identity {
      i := FindIndex(services[1..], identity);
      i := i + 1;
    }
  }

  lemma {:induction false} RebuildHolds(services: seq<Service>, profiles: seq<Profile>, base: Id, i: nat, identity: nat,
                                        p: Preparation, e: Env) returns (k: nat)
    requires identity in Listed(profiles) && HoldsAt(services, i, identity, p, e)
    requires Find(services, identity) == Some(services[i])
    ensures HoldsAt(Rebuild(services, profiles, base), k, identity, p, e)
  {
    k := 0;
    if profiles[0].identity != identity {
      var j :| 0 <= j < |profiles| && profiles[j].identity == identity;
      assert profiles[1..][j - 1].identity == identity;
      k := RebuildHolds(services, profiles[1..], base + 1, i, identity, p, e);
      k := k + 1;
    }
  }

  lemma RefreshedHolds(s: State, i: nat, identity: nat, p: Preparation, e: Env) returns (k: nat)
    requires Distinct(s.services) && HoldsAt(s.services, i, identity, p, e) && e.network == s.network
    requires e.revision == s.revision || identity in Listed(e.profiles)
    ensures HoldsAt(Refreshed(s, e).services, k, identity, p, e)
  {
    k := i;
    if e.revision != s.revision {
      FindAt(s.services, i);
      k := RebuildHolds(s.services, e.profiles, s.nextId, i, identity, p, e);
    }
  }

  // ---------------------------------------------------------------- the cases of the loop

  lemma TendEnds(s: State, demand: bool, i: nat, identity: nat, p: Preparation, e: Env)
    requires HoldsAt(s.services, i, identity, p, e)
    ensures EndsAt(Tend(s, demand, e).services, i, identity, p)
  {
    MaintainFromSkips(s, 0, demand, e, i, identity, p);
    var tended := MaintainFrom(s, 0, demand, e);
    if demand {
      AcquireFromEnds(tended, 0, Active(tended.services), Overlap(tended.services), e, i, identity, p);
    }
  }

  lemma MaintainEnds(s: State, i: nat, identity: nat, p: Preparation, e: Env) returns (k: nat)
    requires Inv(s) && HoldsAt(s.services, i, identity, p, e) && e.network == s.network
    requires e.revision == s.revision || identity in Listed(e.profiles)
    ensures EndsAt(Maintain(s, e).services, k, identity, p)
  {
    var reported := s.(services := ApplyReports(s.services, e));
    assert HoldsAt(reported.services, i, identity, p, e);
    ReportsKeep(s, e);
    k := RefreshedHolds(reported, i, identity, p, e);
    TendEnds(Refreshed(reported, e), e.now < s.demandUntil, k, identity, p, e);
  }

  lemma PlaceEnds(s: State, i: nat, identity: nat, p: Preparation, e: Env) returns (k: nat)
    requires Inv(s) && s.stage == Running && s.completed != [] && Admissible(e)
    requires HoldsAt(s.services, i, identity, p, e) && e.network == s.network && e.revision == s.revision
    ensures EndsAt(Place(s.(completed := s.completed[1..]), s.completed[0], e).services, k, identity, p)
  {
    var result := s.completed[0];
    var popped := s.(completed := s.completed[1..]);
    var j := IndexOf(s.services, result.service);
    k := i;
    if Discarded(popped, j, result, e) {
      var dropped := CloseLease(Release(popped, j, result.request), result.lease);
      assert HoldsAt(dropped.services, i, identity, p, e);
      DroppedIsSound(s, e);
      k := MaintainEnds(dropped, i, identity, p, e);
    }
  }

  lemma InstallEnds(s: State, i: nat, identity: nat, p: Preparation, e: Env) returns (k: nat)
    requires Inv(s) && s.stage == Running && s.completed != [] && Admissible(e)
    requires HoldsAt(s.services, i, identity, p, e) && e.network == s.network
    requires e.revision == s.revision || identity in Listed(e.profiles)
    ensures EndsAt(Install(s, e).services, k, identity, p)
  {
    var r := Refreshed(s, e);
    RefreshedKeeps(s, e);
    k := RefreshedHolds(s, i, identity, p, e);
    assert Refreshed(s.(completed := s.completed[1..]), e) == r.(completed := r.completed[1..]);
    assert r.completed == s.completed && r.stage == Running && r.revision == e.revision && r.network == e.network;
    k := PlaceEnds(r, k, identity, p, e);
  }

  lemma MessageEnds(s: State, event: Event, e: Env, i: nat, identity: nat, p: Preparation)
    requires s.stage == Running
             && (event.Readied? || event.Retired? || event.Faulted? || event.Finished? || event.Abandoned?)
    requires HoldsAt(s.services, i, identity, p, e)
    ensures EndsAt(Step(s, event, e).services, i, identity, p)
  {
    match event
    case Readied(path, authority) => ReadySkips(s, 0, path, authority, e, i, identity, p);
    case Retired(path, authority, idle) =>
      WithdrawSkips(s, 0, path, authority, if idle then e.now else e.now + SERVICE_COOLDOWN, e, i, identity, p);
    case _ =>
  }

  lemma StepEnds(s: State, event: Event, e: Env, i: nat, identity: nat) returns (k: nat)
    requires Inv(s) && s.stage == Running && Admissible(e) && i < |s.services| && !Resets(s, identity, event, e)
    requires HoldsAt(s.services, i, identity, s.services[i].preparation, e)
    ensures EndsAt(Step(s, event, e).services, k, identity, s.services[i].preparation)
  {
    var p := s.services[i].preparation;
    k := i;
    match event
    case Tick => k := MaintainEnds(s, i, identity, p, e);
    case Demanded(sequence, hold) =>
      if sequence > s.sequence {
        var renewed := Renew(s, sequence, hold, e);
        RewriteKeeps(s, renewed);
        k := MaintainEnds(renewed, i, identity, p, e);
      }
    case Installing => if s.completed != [] { k := InstallEnds(s, i, identity, p, e); }
    case Readied(_, _) => MessageEnds(s, event, e, i, identity, p);
    case Retired(_, _, _) => MessageEnds(s, event, e, i, identity, p);
    case Faulted(_, _) => MessageEnds(s, event, e, i, identity, p);
    case Finished(_, _, _) => MessageEnds(s, event, e, i, identity, p);
    case Abandoned(_, _) => MessageEnds(s, event, e, i, identity, p);
    case _ =>
  }

  // ---------------------------------------------------------------- theorems

  /** The circuit: in every step that does not reset it, whatever is serving or being prepared and
      whatever faults, messages, late results and ticks arrive, a spent budget stays spent, and a
      service that ends the step without a serving path asked for no credential in it. */
  lemma CircuitStaysOpen(s: State, event: Event, e: Env, identity: nat)
    requires Inv(s) && s.stage == Running && Admissible(e) && Spent(s, identity)
    requires !Resets(s, identity, event, e)
    ensures StaysShut(s, Step(s, event, e), identity)
  {
    var i := FindIndex(s.services, identity);
    var k := StepEnds(s, event, e, i, identity);
    StepKeeps(s, event, e);
    FindAt(Step(s, event, e).services, k);
  }

  /** A run of steps none of which resets the service's budget or ends the loop. */
  ghost predicate Unreset(s: State, events: seq<(Event, Env)>, identity: nat) {
    forall k | 0 <= k < |events| :: Admissible(events[k].1) && !events[k].0.Stop?
                                    && !Resets(Run(s, events[..k]), identity, events[k].0, events[k].1)
  }

  lemma UnresetPrefix(s: State, events: seq<(Event, Env)>, identity: nat, n: nat)
    requires Unreset(s, events, identity) && n <= |events|
    ensures Unreset(s, events[..n], identity)
  {
    var before := events[..n];
    forall k | 0 <= k < |before| ensures Admissible(before[k].1) && !before[k].0.Stop?
                                         && !Resets(Run(s, before[..k]), identity, before[k].0, before[k].1)
    {
      assert before[..k] == events[..k] && before[k] == events[k];
    }
  }

  lemma {:induction false} StaysSpent(s: State, events: seq<(Event, Env)>, identity: nat)
    requires Inv(s) && s.stage == Running && Spent(s, identity) && Unreset(s, events, identity)
    ensures Inv(Run(s, events)) && Run(s, events).stage == Running && Spent(Run(s, events), identity)
  {
    if events != [] {
      var last := |events| - 1;
      var before := events[..last];
      UnresetPrefix(s, events, identity, last);
      StaysSpent(s, before, identity);
      StepKeeps(Run(s, before), events[last].0, events[last].1);
      CircuitStaysOpen(Run(s, before), events[last].0, events[last].1, identity);
      StepRuns(Run(s, before), events[last].0, events[last].1);
    }
  }

  /** Over a whole run without a reset the budget stays spent, and no step that ends without a serving
      path has asked for a credential. */
  lemma CircuitStaysOpenThroughout(s: State, events: seq<(Event, Env)>, identity: nat)
    requires Inv(s) && s.stage == Running && Spent(s, identity) && Unreset(s, events, identity)
    ensures forall k | 0 <= k < |events| :: StaysShut(Run(s, events[..k]), Run(s, events[..k + 1]), identity)
  {
    forall k | 0 <= k < |events| ensures StaysShut(Run(s, events[..k]), Run(s, events[..k + 1]), identity) {
      UnresetPrefix(s, events, identity, k);
      StaysSpent(s, events[..k], identity);
      CircuitStaysOpen(Run(s, events[..k]), events[k].0, events[k].1, identity);
      assert events[..k + 1][..k] == events[..k] && events[..k + 1][k] == events[k];
    }
  }

  /** An outage: while the service does not serve, all it ever has prepared is what it had at the
      beginning, installed at most once and never asked for again. */
  lemma {:induction false} OutageAsksNothing(s: State, events: seq<(Event, Env)>, identity: nat)
    requires Inv(s) && s.stage == Running && Spent(s, identity) && Unreset(s, events, identity)
    requires forall k | 0 < k <= |events| :: !Serves(Run(s, events[..k]), identity)
    ensures Spent(Run(s, events), identity)
    ensures Continues(Find(s.services, identity).value.preparation,
                      Find(Run(s, events).services, identity).value.preparation)
  {
    StaysSpent(s, events, identity);
    if events != [] {
      var last := |events| - 1;
      var before := events[..last];
      UnresetPrefix(s, events, identity, last);
      forall k | 0 < k <= |before| ensures !Serves(Run(s, before[..k]), identity) { assert before[..k] == events[..k]; }
      OutageAsksNothing(s, before, identity);
      StaysSpent(s, before, identity);
      assert events[..|events|] == events;
      CircuitStaysOpen(Run(s, before), events[last].0, events[last].1, identity);
    }
  }

  /** Only Stop ends the loop. */
  lemma StepRuns(s: State, event: Event, e: Env)
    requires s.stage == Running && !event.Stop?
    ensures Step(s, event, e).stage == Running
  {}
}
