/** The reachability authority as the object the program shares: its maps are fields changed in place and
    its sweeps are loops. Every public method is the step of the same meaning in Reachability; a worker's
    gateway call happens between Begin, Receive and Finish. */
module ReachabilityAuthority {
  import opened Totals
  import opened Reachability
  import ReachabilityProofs

  ghost predicate Reachable(s: State) { exists ops :: Run(s.config, ops) == s }

  lemma {:induction false} RunKeepsConfig(config: Config, ops: seq<Operation>)
    ensures Run(config, ops).config == config
    decreases |ops|
  {
    if ops != [] {
      RunKeepsConfig(config, ops[..|ops| - 1]);
      StepKeepsConfig(Run(config, ops[..|ops| - 1]), ops[|ops| - 1]);
    }
  }

  lemma StepKeepsConfig(s: State, op: Operation)
    ensures Step(s, op).config == s.config
  {
    if op.BeginningPass? { ReachabilityProofs.AdoptFrame(Pruned(s, op.now), op.order, op.now); }
  }

  lemma ReachableStep(s: State, op: Operation)
    requires Reachable(s)
    ensures Reachable(Step(s, op))
  {
    var ops :| Run(s.config, ops) == s;
    assert (ops + [op])[..|ops + [op]| - 1] == ops;
    StepKeepsConfig(s, op);
    assert Run(s.config, ops + [op]) == Step(s, op);
  }

  /** A worker always finds its resource and, when renewing, the lease it renews. */
  lemma WorkerFindsResource(s: State, key: Key)
    requires Reachable(s) && InPhase(s, key) && PhaseOf(s, key) != Finished
    ensures key in s.resources
    ensures PhaseOf(s, key).Calling? && PhaseOf(s, key).renewing ==> s.resources[key].held.Some?
    ensures PhaseOf(s, key).Replied? && PhaseOf(s, key).renewing ==> s.resources[key].held.Some?
  {
    var ops :| Run(s.config, ops) == s;
    ReachabilityProofs.AuthorityIsSound(s.config, ops);
    assert PhaseOk(s, key);
  }

  class Authority {
    const config: Config
    var demands: map<nat, Demand>
    var resources: map<Key, Resource>
    var retiredThrough: nat
    var closed: bool
    var pass: Option<Pass>
    var closeReturned: bool
    ghost var fates: map<Id, Fate>
    var nextId: Id

    ghost function View(): State
      reads this
    {
      State(config, demands, resources, retiredThrough, closed, pass, closeReturned, fates, nextId)
    }

    ghost predicate Valid()
      reads this
    {
      Reachable(View())
    }

    constructor (config: Config)
      ensures Valid() && View() == Start(config)
    {
      this.config := config;
      demands, resources, retiredThrough, closed, pass, closeReturned, fates, nextId :=
          map[], map[], 0, false, None, false, map[], 0;
      new;
      assert Run(config, []) == View();
    }

    method MeasureDemand(key: Key, now: nat, existing: bool) returns (until: nat)
      ensures until == DemandUntil(demands, key, now, existing)
    {
      ghost var times := set id | id in demands && Counts(demands[id], key, now, existing) :: demands[id].until;
      until := 0;
      var rest := demands.Keys;
      while rest != {}
        invariant rest <= demands.Keys
        invariant until == 0 || until in times
        invariant forall id | id in demands && id !in rest && Counts(demands[id], key, now, existing) ::
                    demands[id].until <= until
        decreases |rest|
      {
        var id :| id in rest;
        if Counts(demands[id], key, now, existing) && demands[id].until > until {
          until := demands[id].until;
        }
        rest := rest - {id};
      }
      assert forall n | n in times :: n <= until;
    }

    method RecordDemand(id: nat, d: Demand, content: bool, valid: bool, now: nat) returns (accepted: bool)
      modifies `demands
      ensures View() == old(Reachability.SetDemand(View(), id, d, content, valid, now))
      ensures accepted == old(Acceptable(View(), id, d, content, valid, now))
    {
      if !valid || d.until <= now || !content { return false; }
      if closed || d.key.endpoint.generation <= retiredThrough { return false; }
      if id !in demands && |demands| >= config.capacity { return false; }
      demands := demands[id := d.(until := Min(d.until, now + config.demandTtl))];
      return true;
    }

    method SetDemand(id: nat, d: Demand, content: bool, valid: bool, now: nat) returns (accepted: bool)
      requires Valid()
      modifies `demands
      ensures Valid() && View() == old(Step(View(), Demanding(id, d, content, valid, now)))
      ensures accepted == old(Acceptable(View(), id, d, content, valid, now))
    {
      ReachableStep(View(), Demanding(id, d, content, valid, now));
      accepted := RecordDemand(id, d, content, valid, now);
    }

    method Withdraw(id: nat)
      requires Valid()
      modifies `demands
      ensures Valid() && View() == old(Step(View(), Withdrawing(id)))
    {
      ReachableStep(View(), Withdrawing(id));
      demands := demands - {id};
    }

    method RetireDemands(generation: nat)
      modifies `demands
      ensures demands == old(map id | id in demands && demands[id].key.endpoint.generation > generation :: demands[id])
    {
      var rest := demands.Keys;
      ghost var was := demands;
      while rest != {}
        invariant rest <= was.Keys
        invariant demands == map id | id in was && (id in rest || was[id].key.endpoint.generation > generation) ::
                    was[id]
        decreases |rest|
      {
        var id :| id in rest;
        if demands[id].key.endpoint.generation <= generation {
          demands := demands - {id};
        }
        rest := rest - {id};
      }
    }

    method Retire(generation: nat)
      requires Valid()
      modifies `demands, `retiredThrough
      ensures Valid() && View() == old(Step(View(), RetiringThrough(generation)))
    {
      ReachableStep(View(), RetiringThrough(generation));
      if generation > retiredThrough { retiredThrough := generation; }
      RetireDemands(generation);
    }

    method RefreshOne(k: Key, now: nat, ghost needed: bool)
      requires k in resources && needed == Needed(demands, k, now, false)
      modifies `resources
      ensures resources == old(resources[k := Refreshed(resources[k], needed)])
    {
      var until := MeasureDemand(k, now, false);
      var r := resources[k];
      if r.held.None? && until > now {
        if r.operating {
          r := r.(refreshPending := true);
        } else {
          r := r.(attempted := false, nextGateway := 0);
        }
      }
      resources := resources[k := r];
    }

    method RefreshEach(now: nat, ghost verdicts: map<Key, bool>)
      requires verdicts == map k | k in resources :: Needed(demands, k, now, false)
      modifies `resources
      ensures resources.Keys == old(resources.Keys)
      ensures forall k | k in resources :: resources[k] == Refreshed(old(resources)[k], verdicts[k])
    {
      ghost var was := resources;
      var rest := resources.Keys;
      while rest != {}
        invariant rest <= was.Keys && resources.Keys == was.Keys
        invariant forall k | k in was :: resources[k] == if k in rest then was[k] else Refreshed(was[k], verdicts[k])
        decreases |rest|
      {
        var k :| k in rest;
        RefreshOne(k, now, verdicts[k]);
        rest := rest - {k};
      }
    }

    method RefreshAll(now: nat)
      modifies `resources
      ensures View() == old(Refresh(View(), now))
    {
      ghost var goal := Refresh(View(), now).resources;
      RefreshEach(now, map k | k in resources :: Needed(demands, k, now, false));
      assert resources == goal;
    }

    method RefreshUnavailable(now: nat)
      requires Valid()
      modifies `resources
      ensures Valid() && View() == old(Step(View(), Refreshing(now)))
    {
      ReachableStep(View(), Refreshing(now));
      RefreshAll(now);
    }

    /** First half of Close; the pass that follows is an ordinary one. */
    method Close()
      requires Valid()
      modifies `closed, `demands
      ensures Valid() && View() == old(Step(View(), Closing))
    {
      ReachableStep(View(), Closing);
      closed := true;
      demands := map[];
    }

    method Prune(now: nat)
      modifies `demands
      ensures View() == old(Pruned(View(), now))
    {
      var rest := demands.Keys;
      ghost var was := demands;
      while rest != {}
        invariant rest <= was.Keys
        invariant demands == map id | id in was && (id in rest || was[id].until > now) :: was[id]
        decreases |rest|
      {
        var id :| id in rest;
        if demands[id].until <= now {
          demands := demands - {id};
        }
        rest := rest - {id};
      }
    }

    method AdoptAll(order: seq<nat>, now: nat)
      modifies `resources
      ensures View() == old(Adopt(View(), order, now))
    {
      var i := 0;
      assert order[0..] == order;
      while i < |order|
        invariant 0 <= i <= |order|
        invariant Adopt(View(), order[i..], now) == old(Adopt(View(), order, now))
      {
        var id := order[i];
        assert order[i..][1..] == order[i + 1..];
        if id in demands && !demands[id].direct && demands[id].key !in resources && |resources| < config.capacity {
          resources := resources[demands[id].key := Blank(now)];
        }
        i := i + 1;
      }
      assert order[|order|..] == [];
    }

    method OpenPass(order: seq<nat>, now: nat)
      requires pass.None?
      modifies `demands, `resources, `pass
      ensures View() == old(BeginPass(View(), order, now))
    {
      Prune(now);
      ReachabilityProofs.AdoptFrame(View(), order, now);
      AdoptAll(order, now);
      pass := Some(Pass(map k | k in resources :: Pending, closed));
    }

    method StartPass(order: seq<nat>, now: nat)
      requires Valid() && pass.None?
      modifies `demands, `resources, `pass
      ensures Valid() && View() == old(Step(View(), BeginningPass(order, now)))
    {
      ReachableStep(View(), BeginningPass(order, now));
      OpenPass(order, now);
    }

    method SetPhase(key: Key, phase: Phase)
      requires InPhase(View(), key)
      modifies `pass
      ensures View() == old(Enter(View(), key, phase))
    {
      pass := Some(pass.value.(phases := pass.value.phases[key := phase]));
    }

    method Discard(key: Key)
      requires key in resources
      modifies `resources, `fates
      ensures View() == old(Drop(View(), key))
    {
      if resources[key].held.Some? {
        fates := fates[resources[key].held.value.lease.mapping := Deleted];
      }
      resources := resources - {key};
    }

    method RetireResource(key: Key, now: nat)
      requires InPhase(View(), key) && key in resources
      modifies `resources, `fates, `pass
      ensures View() == old(Retiring(View(), key, now))
    {
      var r := resources[key];
      var until := if r.graceUntil.Some? then r.graceUntil.value else now + config.grace;
      if now < until && !closed && key.endpoint.generation > retiredThrough {
        resources := resources[key := r.(graceUntil := Some(until))];
      } else {
        Discard(key);
      }
      SetPhase(key, Finished);
    }

    method LaunchOperation(key: Key, now: nat, demandUntil: nat)
      requires InPhase(View(), key) && key in resources
               && demandUntil == DemandUntil(demands, key, now, resources[key].held.Some?)
      modifies `resources, `pass
      ensures View() == old(Launch(View(), key, now))
    {
      var r := resources[key].(graceUntil := None, operationUntil := Min(demandUntil, now + config.timeout),
                               operating := true);
      var gateway := None;
      if r.held.Some? {
        gateway := Some(r.held.value.gateway);
      } else {
        if r.nextGateway < config.gateways {
          gateway := Some(r.nextGateway);
          r := r.(nextGateway := r.nextGateway + 1);
        }
        r := r.(attempted := r.nextGateway >= config.gateways);
      }
      resources := resources[key := r];
      SetPhase(key, Calling(gateway, r.held.Some?));
    }

    method BeginWork(key: Key, now: nat, canceled: bool)
      requires InPhase(View(), key) && PhaseOf(View(), key) == Pending && key in resources
      modifies `resources, `fates, `pass
      ensures View() == old(Reachability.Begin(View(), key, now, canceled))
    {
      var r := resources[key];
      var until := MeasureDemand(key, now, r.held.Some?);
      if closed || until <= now {
        RetireResource(key, now);
      } else if (r.held.Some? && now < r.renewAt) || canceled
                || (r.held.None? && (r.attempted || now - r.started < config.headStart)) {
        resources := resources[key := r.(graceUntil := None)];
        SetPhase(key, Finished);
      } else {
        LaunchOperation(key, now, until);
      }
    }

    method Begin(key: Key, now: nat, canceled: bool)
      requires Valid() && InPhase(View(), key) && PhaseOf(View(), key) == Pending
      modifies `resources, `fates, `pass
      ensures Valid() && View() == old(Step(View(), Beginning(key, now, canceled)))
    {
      ReachableStep(View(), Beginning(key, now, canceled));
      WorkerFindsResource(View(), key);
      BeginWork(key, now, canceled);
    }

    method TakeAnswer(key: Key, issued: nat, answer: Answer)
      requires InPhase(View(), key) && PhaseOf(View(), key).Calling? && key in resources
      requires PhaseOf(View(), key).renewing ==> resources[key].held.Some?
      modifies `fates, `nextId, `pass
      ensures View() == old(Reachability.Receive(View(), key, issued, answer))
    {
      var call, r := pass.value.phases[key], resources[key];
      if call.gateway.None? || issued >= r.operationUntil || answer.NotCalled? {
        SetPhase(key, Replied(call.renewing, issued, Failed(Unavailable)));
      } else if answer.Error? {
        SetPhase(key, Replied(call.renewing, issued, Failed(answer.failure)));
      } else if call.renewing {
        var lease := answer.lease.(mapping := r.held.value.lease.mapping);
        var valid := lease.wellFormed && 0 < lease.lifetime <= config.leaseTtl;
        SetPhase(key, Replied(true, issued, if valid then Granted(call.gateway.value, lease) else Invalid));
      } else {
        var lease := answer.lease.(mapping := nextId);
        var valid := lease.wellFormed && 0 < lease.lifetime <= config.leaseTtl;
        fates := fates[nextId := if valid then Carried(key) else Deleted];
        nextId := nextId + 1;
        SetPhase(key, Replied(false, issued, if valid then Granted(call.gateway.value, lease) else Invalid));
      }
    }

    method Receive(key: Key, issued: nat, answer: Answer)
      requires Valid() && InPhase(View(), key) && PhaseOf(View(), key).Calling?
      modifies `fates, `nextId, `pass
      ensures Valid() && View() == old(Step(View(), Receiving(key, issued, answer)))
    {
      ReachableStep(View(), Receiving(key, issued, answer));
      WorkerFindsResource(View(), key);
      TakeAnswer(key, issued, answer);
    }

    method DiscardOutdated(key: Key, now: nat)
      requires InPhase(View(), key) && PhaseOf(View(), key).Replied? && PhaseOf(View(), key).reply.Granted?
               && key in resources
      modifies `resources, `fates, `pass
      ensures View() == old(Outdated(View(), key, now))
    {
      var phase := pass.value.phases[key];
      var r := resources[key].(operating := false, restarts := map[], renewAt := now);
      if !phase.renewing {
        fates := fates[phase.reply.lease.mapping := Superseded];
        r := r.(nextGateway := if r.nextGateway == 0 then 0 else r.nextGateway - 1, attempted := false);
      }
      resources := resources[key := r];
      SetPhase(key, Finished);
    }

    method FailResource(key: Key, error: Failure, revoked: bool, stillNeeded: bool, now: nat)
      requires InPhase(View(), key) && PhaseOf(View(), key).Replied? && key in resources
      modifies `resources, `fates, `pass
      ensures View() == old(Fail(View(), key, error, revoked, stillNeeded, now))
    {
      var renewing := pass.value.phases[key].renewing;
      var r := resources[key].(operating := false, restarts := map[]);
      if r.refreshPending {
        r := r.(attempted := false, nextGateway := 0, refreshPending := false);
      }
      if !renewing && stillNeeded && error == Canceled {
        r := r.(nextGateway := if r.nextGateway == 0 then 0 else r.nextGateway - 1, attempted := false);
      }
      if renewing && error == LeaseLost {
        if r.held.Some? {
          fates := fates[r.held.value.lease.mapping := if revoked then Deleted else Lost];
        }
        r := r.(held := None, expires := 0, nextGateway := 0, attempted := false);
      } else if renewing {
        r := r.(renewAt := now + config.timeout);
      }
      resources := resources[key := r];
      SetPhase(key, Finished);
    }

    method InvalidateRestarted(key: Key, lease: Lease, now: nat)
      modifies `resources
      ensures View()
              == old(View().(resources := map k | k in resources :: Invalidated(k, resources[k], key, lease, now)))
    {
      ghost var was := resources;
      var rest := resources.Keys;
      while rest != {}
        invariant rest <= was.Keys && resources.Keys == was.Keys
        invariant forall k | k in was ::
                    resources[k] == if k in rest then was[k] else Invalidated(k, was[k], key, lease, now)
        decreases |rest|
      {
        var k :| k in rest;
        if k != key && k.endpoint.egress == key.endpoint.egress {
          var r := resources[k];
          if r.operating {
            r := r.(restarts := r.restarts[lease.gatewayId := lease.serverEpoch]);
          }
          if r.held.Some? && r.held.value.lease.gatewayId == lease.gatewayId
             && r.held.value.lease.serverEpoch > lease.serverEpoch {
            r := r.(expires := now, renewAt := now);
          }
          resources := resources[k := r];
        }
        rest := rest - {k};
      }
    }

    method PublishLease(key: Key, issued: nat, gateway: nat, lease: Lease, stillNeeded: bool, now: nat)
      requires InPhase(View(), key) && key in resources
      modifies `resources, `fates, `pass
      ensures View() == old(Publish(View(), key, issued, gateway, lease, stillNeeded, now))
    {
      var r := resources[key].(operating := false, restarts := map[], refreshPending := false,
                               held := Some(Held(gateway, lease)),
                               expires := issued + lease.lifetime, renewAt := issued + lease.lifetime / 2);
      if lease.restarted {
        InvalidateRestarted(key, lease, now);
      }
      fates := fates[lease.mapping := Kept(key)];
      resources := resources[key := r];
      if !(stillNeeded && now < r.expires) {
        Discard(key);
      }
      SetPhase(key, Finished);
    }

    method FinishWork(key: Key, now: nat)
      requires InPhase(View(), key) && PhaseOf(View(), key).Replied? && key in resources
      modifies `resources, `fates, `pass
      ensures View() == old(Reachability.Finish(View(), key, now))
    {
      var phase := pass.value.phases[key];
      var until := MeasureDemand(key, now, phase.renewing);
      var stillNeeded := !closed && until > now && key.endpoint.generation > retiredThrough;
      match phase.reply
      case Failed(error) => FailResource(key, error, false, stillNeeded, now);
      case Invalid => FailResource(key, LeaseLost, true, stillNeeded, now);
      case Granted(gateway, lease) =>
        if Stale(resources[key], lease) {
          DiscardOutdated(key, now);
        } else {
          PublishLease(key, phase.issued, gateway, lease, stillNeeded, now);
        }
    }

    method Finish(key: Key, now: nat)
      requires Valid() && InPhase(View(), key) && PhaseOf(View(), key).Replied?
      modifies `resources, `fates, `pass
      ensures Valid() && View() == old(Step(View(), Finishing(key, now)))
    {
      ReachableStep(View(), Finishing(key, now));
      WorkerFindsResource(View(), key);
      FinishWork(key, now);
    }

    /** Every worker has returned. */
    method FinishPass()
      requires Valid() && pass.Some? && forall k | k in pass.value.phases :: pass.value.phases[k] == Finished
      modifies `pass, `closeReturned
      ensures Valid() && View() == old(Step(View(), EndingPass))
    {
      ReachableStep(View(), EndingPass);
      closeReturned := closeReturned || pass.value.afterClose;
      pass := None;
    }
  }
}
