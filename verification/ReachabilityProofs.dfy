/** Lease conservation, single flight and drainage after close, over every interleaving of demand
    changes with maintenance passes. */
module ReachabilityProofs {
  import opened Totals
  import opened Reachability

  /** Only the demands, the generation mark or the door changed. */
  lemma DemandKeeps(s: State, t: State)
    requires Inv(s) && t == s.(demands := t.demands, retiredThrough := t.retiredThrough, closed := t.closed)
    requires (s.closed ==> t.closed) && (t.closed ==> t.demands == map[])
    ensures Inv(t)
  {
    forall k | k in t.resources ensures ResourceOk(t, k) { assert ResourceOk(s, k); }
    if t.pass.Some? { forall k | k in t.pass.value.phases ensures PhaseOk(t, k) { assert PhaseOk(s, k); } }
    forall m | m in t.fates ensures FateOk(t, m) { assert FateOk(s, m); }
  }

  /** Only bookkeeping of resources changed: what they hold, whether they operate and which restarts are
      remembered stay. */
  ghost predicate Same(s: State, t: State, k: Key)
    requires k in s.resources
  {
    && k in t.resources && t.resources[k].held == s.resources[k].held
    && t.resources[k].operating == s.resources[k].operating
    && (!s.resources[k].operating ==> t.resources[k].restarts == s.resources[k].restarts)
  }

  lemma BookkeepingKeeps(s: State, t: State)
    requires Inv(s) && t == s.(resources := t.resources) && t.resources.Keys == s.resources.Keys
    requires forall k {:trigger Same(s, t, k)} | k in s.resources :: Same(s, t, k)
    ensures Inv(t)
  {
    forall k | k in t.resources ensures ResourceOk(t, k) { assert ResourceOk(s, k) && Same(s, t, k); }
    if t.pass.Some? {
      forall k | k in t.pass.value.phases ensures PhaseOk(t, k) {
        assert PhaseOk(s, k);
        if k in s.resources { assert Same(s, t, k); }
      }
    }
    forall m | m in t.fates ensures FateOk(t, m) {
      assert FateOk(s, m);
      if s.fates[m].Kept? { assert Same(s, t, s.fates[m].key); }
    }
    if s.closeReturned { assert t.resources.Keys == {}; }
  }

  /** A catalog change touches only the retry bookkeeping of resources without a lease. */
  lemma RefreshKeeps(s: State, now: nat)
    requires Inv(s)
    ensures Inv(Refresh(s, now))
    ensures var t := Refresh(s, now);
            && t == s.(resources := t.resources) && t.resources.Keys == s.resources.Keys
            && forall k | k in s.resources ::
                 && t.resources[k]
                     == s.resources[k].(attempted := t.resources[k].attempted,
                                        nextGateway := t.resources[k].nextGateway,
                                                      refreshPending := t.resources[k].refreshPending)
                 && (s.resources[k].held.Some? ==> t.resources[k] == s.resources[k])
  {
    BookkeepingKeeps(s, Refresh(s, now));
  }

  // ---------------------------------------------------------------- passes

  /** Outside a pass, and in a closed authority never, resources may join. */
  lemma AdoptOne(s: State, key: Key, now: nat)
    requires Inv(s) && s.pass.None? && !s.closed && key !in s.resources
    ensures Inv(s.(resources := s.resources[key := Blank(now)]))
  {
    var t := s.(resources := s.resources[key := Blank(now)]);
    forall k | k in t.resources ensures ResourceOk(t, k) { if k != key { assert ResourceOk(s, k); } }
    forall m | m in t.fates ensures FateOk(t, m) { assert FateOk(s, m); }
  }

  lemma {:induction false} AdoptFrame(s: State, order: seq<nat>, now: nat)
    ensures Adopt(s, order, now) == s.(resources := Adopt(s, order, now).resources)
    decreases |order|
  {
    if order != [] {
      var id := order[0];
      if id in s.demands && !s.demands[id].direct && s.demands[id].key !in s.resources
         && |s.resources| < s.config.capacity {
        AdoptFrame(s.(resources := s.resources[s.demands[id].key := Blank(now)]), order[1..], now);
      } else {
        AdoptFrame(s, order[1..], now);
      }
    }
  }

  lemma {:induction false} AdoptKeeps(s: State, order: seq<nat>, now: nat)
    requires Inv(s) && s.pass.None?
    ensures Inv(Adopt(s, order, now))
    decreases |order|
  {
    if order != [] {
      var id := order[0];
      if id in s.demands && !s.demands[id].direct && s.demands[id].key !in s.resources
         && |s.resources| < s.config.capacity {
        AdoptOne(s, s.demands[id].key, now);
        AdoptKeeps(s.(resources := s.resources[s.demands[id].key := Blank(now)]), order[1..], now);
      } else {
        AdoptKeeps(s, order[1..], now);
      }
    }
  }

  lemma OpenPassKeeps(s: State)
    requires Inv(s) && s.pass.None?
    ensures Inv(s.(pass := Some(Pass(map k | k in s.resources :: Pending, s.closed))))
  {
    var t := s.(pass := Some(Pass(map k | k in s.resources :: Pending, s.closed)));
    forall k | k in t.resources ensures ResourceOk(t, k) { assert ResourceOk(s, k); }
    forall k | k in t.pass.value.phases ensures PhaseOk(t, k) {}
    forall m | m in t.fates ensures FateOk(t, m) { assert FateOk(s, m); }
  }

  lemma BeginPassKeeps(s: State, order: seq<nat>, now: nat)
    requires Inv(s)
    ensures Inv(BeginPass(s, order, now))
  {
    if s.pass.None? {
      DemandKeeps(s, Pruned(s, now));
      AdoptKeeps(Pruned(s, now), order, now);
      AdoptFrame(Pruned(s, now), order, now);
      OpenPassKeeps(Adopt(Pruned(s, now), order, now));
    }
  }

  /** In a pass begun after closing, a resource that is still there has not been visited. */
  lemma StillPending(s: State)
    requires Inv(s) && s.pass.Some? && s.pass.value.afterClose
    ensures forall k | k in s.resources :: k in s.pass.value.phases && s.pass.value.phases[k] == Pending
  {
    forall k | k in s.resources ensures k in s.pass.value.phases && s.pass.value.phases[k] == Pending {
      assert ResourceOk(s, k);
    }
  }

  lemma EndPassKeeps(s: State)
    requires Inv(s)
    ensures Inv(EndPass(s))
  {
    var t := EndPass(s);
    if t.pass.None? && s.pass.Some? {
      forall k | k in t.resources ensures ResourceOk(t, k) { assert ResourceOk(s, k); }
      forall m | m in t.fates ensures FateOk(t, m) { assert FateOk(s, m); }
      if s.pass.value.afterClose { StillPending(s); }
    }
  }

  // ---------------------------------------------------------------- one worker

  /** A worker's section that touches its own resource, phase and mapping `m` only. */
  ghost predicate Local(s: State, t: State, key: Key, m: Id) {
    && InPhase(s, key) && InPhase(t, key) && t.pass.value.phases == s.pass.value.phases[key := PhaseOf(t, key)]
    && t.pass.value.afterClose == s.pass.value.afterClose
    && t == s.(resources := t.resources, pass := t.pass, fates := t.fates, nextId := t.nextId)
    && (forall k {:trigger Same(s, t, k)} | k in s.resources && k != key :: Same(s, t, k))
    && (forall k | k in t.resources :: k == key || k in s.resources)
    && (forall x: Id {:trigger x in t.fates} {:trigger x in s.fates} | x != m ::
        (x in t.fates <==> x in s.fates) && (x in s.fates ==> t.fates[x] == s.fates[x]))
    && (m in s.fates ==> s.fates[m] == Kept(key) || s.fates[m] == Carried(key))
  }

  ghost predicate LocalOk(s: State, t: State, key: Key, m: Id) {
    && Local(s, t, key, m)
    && (key in t.resources ==> ResourceOk(t, key)) && (PhaseOk(t, key))
    && (m in t.fates ==> FateOk(t, m))
    && (forall x: Id {:trigger x in t.fates} :: x in t.fates <==> x < t.nextId) && s.nextId <= t.nextId
    && (s.closeReturned ==> key !in t.resources)
    && (forall x: Id | x in s.fates && x != m :: s.fates[x] != Kept(key) && s.fates[x] != Carried(key))
  }

  lemma LocalKeeps(s: State, t: State, key: Key, m: Id)
    requires Inv(s) && LocalOk(s, t, key, m)
    ensures Inv(t)
  {
    forall k | k in t.resources ensures ResourceOk(t, k) {
      if k != key {
        assert ResourceOk(s, k) && Same(s, t, k);
        OtherMapping(s, k, key, m);
      }
    }
    forall k | k in t.pass.value.phases ensures PhaseOk(t, k) {
      if k != key {
        assert PhaseOk(s, k);
        if k in s.resources { assert Same(s, t, k); }
        OtherPhase(s, k, key, m);
      }
    }
    forall x | x in t.fates ensures FateOk(t, x) {
      if x != m {
        assert FateOk(s, x);
        if s.fates[x].Kept? { assert Same(s, t, s.fates[x].key); }
      }
    }
    if s.closeReturned { assert t.resources.Keys == {}; }
  }

  lemma OtherMapping(s: State, k: Key, key: Key, m: Id)
    requires Inv(s) && k in s.resources && k != key
    requires m in s.fates ==> s.fates[m] == Kept(key) || s.fates[m] == Carried(key)
    ensures s.resources[k].held.Some? ==> s.resources[k].held.value.lease.mapping != m
  {
    assert ResourceOk(s, k);
  }

  lemma OtherPhase(s: State, k: Key, key: Key, m: Id)
    requires Inv(s) && s.pass.Some? && k in s.pass.value.phases && k != key
    requires m in s.fates ==> s.fates[m] == Kept(key) || s.fates[m] == Carried(key)
    ensures var phase := s.pass.value.phases[k];
            phase.Replied? && phase.reply.Granted? ==>
              phase.reply.lease.mapping in s.fates && phase.reply.lease.mapping != m
  {
    assert PhaseOk(s, k);
    if k in s.resources { assert ResourceOk(s, k); }
  }

  /** The mapping a worker's section may move: the one its resource holds, the one its reply carries, or
      the next one. */
  ghost function Mine(s: State, key: Key): Id
    requires InPhase(s, key) && key in s.resources
  {
    if s.resources[key].held.Some? then s.resources[key].held.value.lease.mapping
    else if PhaseOf(s, key).Replied? && PhaseOf(s, key).reply.Granted? then PhaseOf(s, key).reply.lease.mapping
    else s.nextId
  }

  lemma OnlyMine(s: State, key: Key)
    requires Inv(s) && InPhase(s, key) && key in s.resources
    ensures forall x: Id | x in s.fates && x != Mine(s, key) :: s.fates[x] != Kept(key) && s.fates[x] != Carried(key)
    ensures Mine(s, key) in s.fates ==> s.fates[Mine(s, key)] == Kept(key) || s.fates[Mine(s, key)] == Carried(key)
    ensures !s.closeReturned
    ensures PhaseOf(s, key) != Pending ==> !s.pass.value.afterClose
  {
    assert ResourceOk(s, key) && PhaseOk(s, key);
    forall x: Id | x in s.fates && x != Mine(s, key) ensures s.fates[x] != Kept(key) && s.fates[x] != Carried(key) {
      assert FateOk(s, x);
    }
  }

  /** A section that leaves the mapping alone only has to keep its own resource and phase in step. */
  lemma QuietKeeps(s: State, t: State, key: Key, r: Resource, phase: Phase)
    requires Inv(s) && InPhase(s, key) && key in s.resources
    requires t == Enter(Put(s, key, r), key, phase) && r.held == s.resources[key].held
    requires r.operating <==> phase.Calling? || phase.Replied?
    requires !r.operating ==> r.restarts == map[]
    requires s.pass.value.afterClose ==> phase == Pending
    requires PhaseOk(t, key)
    requires Mine(s, key) in s.fates ==> s.fates[Mine(s, key)] == Kept(key)
    ensures Inv(t)
  {
    var m := Mine(s, key);
    OnlyMine(s, key);
    assert ResourceOk(s, key);
    if m in t.fates { assert FateOk(s, m); }
    LocalKeeps(s, t, key, m);
  }

  lemma DropKeeps(s: State, t: State, key: Key)
    requires Inv(s) && InPhase(s, key) && key in s.resources && PhaseOf(s, key) == Pending
    requires t == Enter(Drop(s, key), key, Finished)
    ensures Inv(t)
  {
    var m := Mine(s, key);
    OnlyMine(s, key);
    assert ResourceOk(s, key);
    if m in s.fates { assert FateOk(s, m); }
    LocalKeeps(s, t, key, m);
  }

  lemma RetiringKeeps(s: State, key: Key, now: nat)
    requires Inv(s) && InPhase(s, key) && PhaseOf(s, key) == Pending && key in s.resources
    ensures Inv(Retiring(s, key, now))
  {
    var t, r := Retiring(s, key, now), s.resources[key];
    var until := if r.graceUntil.Some? then r.graceUntil.value else now + s.config.grace;
    assert ResourceOk(s, key) && PhaseOk(s, key);
    if now < until && !s.closed && key.endpoint.generation > s.retiredThrough {
      QuietKeeps(s, t, key, r.(graceUntil := Some(until)), Finished);
    } else {
      DropKeeps(s, t, key);
    }
  }

  lemma LaunchKeeps(s: State, key: Key, now: nat)
    requires Inv(s) && InPhase(s, key) && PhaseOf(s, key) == Pending && key in s.resources && !s.closed
    ensures Inv(Launch(s, key, now))
  {
    var t := Launch(s, key, now);
    assert ResourceOk(s, key);
    QuietKeeps(s, t, key, t.resources[key], PhaseOf(t, key));
  }

  lemma BeginKeeps(s: State, key: Key, now: nat, canceled: bool)
    requires Inv(s)
    ensures Inv(Begin(s, key, now, canceled))
  {
    if InPhase(s, key) && PhaseOf(s, key) == Pending && key in s.resources {
      var r := s.resources[key];
      if s.closed || !Needed(s.demands, key, now, r.held.Some?) {
        RetiringKeeps(s, key, now);
      } else if Begin(s, key, now, canceled) == Launch(s, key, now) {
        LaunchKeeps(s, key, now);
      } else {
        assert ResourceOk(s, key);
        QuietKeeps(s, Begin(s, key, now, canceled), key, r.(graceUntil := None), Finished);
      }
    }
  }

  /** An answer that creates nothing. */
  lemma AnswerKeeps(s: State, t: State, key: Key, phase: Phase)
    requires Inv(s) && InPhase(s, key) && PhaseOf(s, key).Calling? && key in s.resources
    requires t == Enter(s, key, phase) && phase.Replied? && phase.renewing == PhaseOf(s, key).renewing
    requires phase.reply.Granted? ==>
               phase.renewing && s.resources[key].held.Some?
               && phase.reply.lease.mapping == s.resources[key].held.value.lease.mapping
    ensures Inv(t)
  {
    assert ResourceOk(s, key) && PhaseOk(s, key);
    OnlyMine(s, key);
    assert t == Enter(Put(s, key, s.resources[key]), key, phase) by {
      assert s.resources[key := s.resources[key]] == s.resources;
    }
    QuietKeeps(s, t, key, s.resources[key], phase);
  }

  /** A creation's mapping starts out carried by its worker, or deleted when the reply was invalid. */
  lemma CreationKeeps(s: State, t: State, key: Key, phase: Phase, fate: Fate)
    requires Inv(s) && InPhase(s, key) && PhaseOf(s, key).Calling? && !PhaseOf(s, key).renewing && key in s.resources
    requires t == Enter(s.(fates := s.fates[s.nextId := fate], nextId := s.nextId + 1), key, phase)
    requires phase.Replied? && !phase.renewing
    requires if phase.reply.Granted? then fate == Carried(key) && phase.reply.lease.mapping == s.nextId
             else fate == Deleted
    ensures Inv(t)
  {
    assert ResourceOk(s, key) && PhaseOk(s, key);
    OnlyMine(s, key);
    LocalKeeps(s, t, key, s.nextId);
  }

  lemma ReceiveKeeps(s: State, key: Key, issued: nat, answer: Answer)
    requires Inv(s)
    ensures Inv(Receive(s, key, issued, answer))
  {
    if InPhase(s, key) && PhaseOf(s, key).Calling? && key in s.resources {
      var t := Receive(s, key, issued, answer);
      var call, r := PhaseOf(s, key), s.resources[key];
      assert PhaseOk(s, key);
      if call.gateway.None? || issued >= r.operationUntil || !answer.Answered? {
        AnswerKeeps(s, t, key, PhaseOf(t, key));
      } else if call.renewing {
        AnswerKeeps(s, t, key, PhaseOf(t, key));
      } else {
        CreationKeeps(s, t, key, PhaseOf(t, key), t.fates[s.nextId]);
      }
    }
  }

  /** A stale creation is superseded; a stale renewal leaves every fate and the old lease alone. */
  lemma OutdatedKeeps(s: State, key: Key, now: nat)
    requires Inv(s) && InPhase(s, key) && PhaseOf(s, key).Replied? && PhaseOf(s, key).reply.Granted?
             && key in s.resources
    ensures Inv(Outdated(s, key, now))
    ensures var t := Outdated(s, key, now);
            && t.resources[key].held == s.resources[key].held
            && t.fates == if PhaseOf(s, key).renewing then s.fates else s.fates[Mine(s, key) := Superseded]
  {
    var t := Outdated(s, key, now);
    assert ResourceOk(s, key) && PhaseOk(s, key);
    OnlyMine(s, key);
    if PhaseOf(s, key).renewing {
      QuietKeeps(s, t, key, t.resources[key], Finished);
    } else {
      assert FateOk(s, Mine(s, key));
      LocalKeeps(s, t, key, Mine(s, key));
    }
  }

  /** A failed creation changes no fate; a failed renewal keeps the lease unless the gateway declared it
      lost, and then it is lost, or deleted if the reply had already been revoked. */
  lemma FailKeeps(s: State, key: Key, error: Failure, revoked: bool, stillNeeded: bool, now: nat)
    requires Inv(s) && InPhase(s, key) && PhaseOf(s, key).Replied? && !PhaseOf(s, key).reply.Granted?
             && key in s.resources
    ensures Inv(Fail(s, key, error, revoked, stillNeeded, now))
    ensures var t := Fail(s, key, error, revoked, stillNeeded, now);
            if PhaseOf(s, key).renewing && error == LeaseLost
            then t.fates == s.fates[Mine(s, key) := if revoked then Deleted else Lost] && t.resources[key].held.None?
            else t.fates == s.fates && t.resources[key].held == s.resources[key].held
  {
    var t := Fail(s, key, error, revoked, stillNeeded, now);
    assert ResourceOk(s, key) && PhaseOk(s, key);
    OnlyMine(s, key);
    if PhaseOf(s, key).renewing && error == LeaseLost {
      assert FateOk(s, Mine(s, key));
      LocalKeeps(s, t, key, Mine(s, key));
    } else {
      QuietKeeps(s, t, key, t.resources[key], Finished);
    }
  }

  lemma InvalidateSame(s: State, key: Key, lease: Lease, now: nat, k: Key)
    requires k in s.resources
    ensures Same(s, Invalidate(s, key, lease, now), k)
    ensures Invalidate(s, key, lease, now).resources.Keys == s.resources.Keys
  {
  }

  /** A granted lease is held by its resource, or the resource is gone and the lease was passed to Delete. */
  lemma PublishKeeps(s: State, key: Key, stillNeeded: bool, now: nat)
    requires Inv(s) && InPhase(s, key) && PhaseOf(s, key).Replied? && PhaseOf(s, key).reply.Granted?
             && key in s.resources
    ensures var phase := PhaseOf(s, key);
            Inv(Publish(s, key, phase.issued, phase.reply.gateway, phase.reply.lease, stillNeeded, now))
    ensures var phase := PhaseOf(s, key);
            var t := Publish(s, key, phase.issued, phase.reply.gateway, phase.reply.lease, stillNeeded, now);
            && phase.reply.lease.mapping == Mine(s, key)
            && (if key in t.resources
                then t.resources[key].held == Some(Held(phase.reply.gateway, phase.reply.lease))
                     && t.fates == s.fates[Mine(s, key) := Kept(key)]
                else t.fates == s.fates[Mine(s, key) := Deleted])
  {
    var phase := PhaseOf(s, key);
    var lease := phase.reply.lease;
    var t := Publish(s, key, phase.issued, phase.reply.gateway, lease, stillNeeded, now);
    assert ResourceOk(s, key) && PhaseOk(s, key);
    OnlyMine(s, key);
    assert Mine(s, key) == lease.mapping;
    assert FateOk(s, lease.mapping);
    forall k | k in s.resources && k != key ensures Same(s, t, k) { InvalidateSame(s, key, lease, now, k); }
    InvalidateSame(s, key, lease, now, key);
    LocalKeeps(s, t, key, lease.mapping);
  }

  lemma FinishKeeps(s: State, key: Key, now: nat)
    requires Inv(s)
    ensures Inv(Finish(s, key, now))
  {
    if InPhase(s, key) && PhaseOf(s, key).Replied? && key in s.resources {
      var phase := PhaseOf(s, key);
      var stillNeeded := !s.closed && Needed(s.demands, key, now, phase.renewing)
          && key.endpoint.generation > s.retiredThrough;
      match phase.reply
      case Failed(error) => FailKeeps(s, key, error, false, stillNeeded, now);
      case Invalid => FailKeeps(s, key, LeaseLost, true, stillNeeded, now);
      case Granted(gateway, lease) =>
        if Stale(s.resources[key], lease) {
          OutdatedKeeps(s, key, now);
        } else {
          PublishKeeps(s, key, stillNeeded, now);
        }
    }
  }

  // ---------------------------------------------------------------- every history

  lemma StepKeeps(s: State, op: Operation)
    requires Inv(s)
    ensures Inv(Step(s, op))
  {
    match op
    case Demanding(id, demand, content, valid, now) => DemandKeeps(s, SetDemand(s, id, demand, content, valid, now));
    case Withdrawing(id) => DemandKeeps(s, Withdraw(s, id));
    case RetiringThrough(generation) => DemandKeeps(s, Retire(s, generation));
    case Refreshing(now) => RefreshKeeps(s, now);
    case Closing => DemandKeeps(s, CloseDoor(s));
    case BeginningPass(order, now) => BeginPassKeeps(s, order, now);
    case Beginning(key, now, canceled) => BeginKeeps(s, key, now, canceled);
    case Receiving(key, issued, answer) => ReceiveKeeps(s, key, issued, answer);
    case Finishing(key, now) => FinishKeeps(s, key, now);
    case EndingPass => EndPassKeeps(s);
  }

  lemma {:induction false} AuthorityIsSound(config: Config, ops: seq<Operation>)
    ensures Inv(Run(config, ops))
    decreases |ops|
  {
    if ops != [] {
      AuthorityIsSound(config, ops[..|ops| - 1]);
      StepKeeps(Run(config, ops[..|ops| - 1]), ops[|ops| - 1]);
    }
  }

  ghost predicate HeldBy(s: State, m: Id, k: Key) {
    k in s.resources && s.resources[k].held.Some? && s.resources[k].held.value.lease.mapping == m
  }

  ghost predicate CarriedBy(s: State, m: Id, k: Key) {
    && InPhase(s, k) && PhaseOf(s, k).Replied? && !PhaseOf(s, k).renewing
    && PhaseOf(s, k).reply.Granted? && PhaseOf(s, k).reply.lease.mapping == m
  }

  /** Conservation: after every history each mapping a gateway ever created is held by exactly one
      resource, or carried by exactly one worker's reply, or was passed to Delete, declared lost or
      superseded by a restart; no two of these at once. */
  lemma MappingsConserved(config: Config, ops: seq<Operation>, m: Id)
    requires m < Run(config, ops).nextId
    ensures var s := Run(config, ops);
            && m in s.fates
            && (s.fates[m].Kept? <==> exists k :: HeldBy(s, m, k))
            && (s.fates[m].Carried? <==> exists k :: CarriedBy(s, m, k))
            && (forall j, k | HeldBy(s, m, j) && HeldBy(s, m, k) :: j == k)
            && (forall j, k | CarriedBy(s, m, j) && CarriedBy(s, m, k) :: j == k)
  {
    var s := Run(config, ops);
    AuthorityIsSound(config, ops);
    assert m in s.fates;
    assert FateOk(s, m);
    forall k | HeldBy(s, m, k) ensures s.fates[m] == Kept(k) { assert ResourceOk(s, k); }
    forall k | CarriedBy(s, m, k) ensures s.fates[m] == Carried(k) { assert PhaseOk(s, k); }
    if s.fates[m].Kept? { assert HeldBy(s, m, s.fates[m].key); }
    if s.fates[m].Carried? { assert CarriedBy(s, m, s.fates[m].carrier); }
  }

  /** Single flight: a worker only ever starts on a resource nobody operates on. */
  lemma OneOperationPerResource(config: Config, ops: seq<Operation>, key: Key, now: nat, canceled: bool)
    ensures var s := Run(config, ops);
            var t := Begin(s, key, now, canceled);
            key in s.resources && key in t.resources && t.resources[key].operating && t != s ==>
              !s.resources[key].operating
  {
    var s := Run(config, ops);
    AuthorityIsSound(config, ops);
    if key in s.resources { assert ResourceOk(s, key); }
  }

  /** Once Close has returned nothing is left, whatever is still asked for: no resource, no demand, and
      no mapping held or carried. */
  lemma CloseLeavesNothing(config: Config, ops: seq<Operation>)
    requires Run(config, ops).closeReturned
    ensures var s := Run(config, ops);
            && s.resources == map[] && s.demands == map[]
            && forall m | m in s.fates :: s.fates[m].Deleted? || s.fates[m].Lost? || s.fates[m].Superseded?
  {
    var s := Run(config, ops);
    AuthorityIsSound(config, ops);
    forall m | m in s.fates ensures s.fates[m].Deleted? || s.fates[m].Lost? || s.fates[m].Superseded? {
      if s.fates[m].Kept? || s.fates[m].Carried? { LiveMappingHasResource(s, m); }
    }
  }

  lemma LiveMappingHasResource(s: State, m: Id)
    requires Inv(s) && m in s.fates && (s.fates[m].Kept? || s.fates[m].Carried?)
    ensures s.resources != map[]
  {
    assert FateOk(s, m);
    if s.fates[m].Carried? { assert PhaseOk(s, s.fates[m].carrier); }
  }

  /** How the fate of a mapping may change: one carried can be published, deleted or superseded, one held
      deleted or lost, and what is deleted, lost or superseded stays so. */
  predicate Becomes(before: Fate, after: Fate) {
    match before
    case Carried(k) => after == before || after == Kept(k) || !(after.Carried? || after.Kept?)
    case Kept(_) => after == before || after.Deleted? || after.Lost?
    case _ => after == before
  }

  ghost predicate Moves(s: State, t: State, m: Id) {
    m in s.fates ==> m in t.fates && Becomes(s.fates[m], t.fates[m])
  }

  /** A worker's last section moves its own mapping only, and only forward. */
  lemma FinishMoves(s: State, key: Key, now: nat, m: Id)
    requires Inv(s)
    ensures Moves(s, Finish(s, key, now), m)
    ensures InPhase(s, key) && key in s.resources && m in s.fates && m != Mine(s, key) ==>
              Finish(s, key, now).fates[m] == s.fates[m]
  {
    if InPhase(s, key) && PhaseOf(s, key).Replied? && key in s.resources {
      var phase := PhaseOf(s, key);
      var stillNeeded := !s.closed && Needed(s.demands, key, now, phase.renewing)
          && key.endpoint.generation > s.retiredThrough;
      assert PhaseOk(s, key) && ResourceOk(s, key);
      OnlyMine(s, key);
      match phase.reply
      case Failed(error) => FailKeeps(s, key, error, false, stillNeeded, now);
      case Invalid => FailKeeps(s, key, LeaseLost, true, stillNeeded, now);
      case Granted(gateway, lease) =>
        if Stale(s.resources[key], lease) {
          OutdatedKeeps(s, key, now);
        } else {
          PublishKeeps(s, key, stillNeeded, now);
        }
    }
  }

  lemma BeginMoves(s: State, key: Key, now: nat, canceled: bool, m: Id)
    requires Inv(s)
    ensures Moves(s, Begin(s, key, now, canceled), m)
  {
    if key in s.resources { assert ResourceOk(s, key); }
  }

  lemma StepMoves(s: State, op: Operation, m: Id)
    requires Inv(s)
    ensures Moves(s, Step(s, op), m)
  {
    match op
    case Finishing(key, now) => FinishMoves(s, key, now, m);
    case Beginning(key, now, canceled) => BeginMoves(s, key, now, canceled, m);
    case BeginningPass(order, now) => AdoptFrame(Pruned(s, now), order, now);
    case _ =>
  }

  /** Fates only move forward, over any continuation: what was deleted, lost or superseded stays so, and a
      lease once held is never superseded or carried again. */
  lemma {:induction false} FatesMoveForward(config: Config, before: seq<Operation>, later: seq<Operation>, m: Id)
    requires m in Run(config, before).fates
    ensures m in Run(config, before + later).fates
    ensures Becomes(Run(config, before).fates[m], Run(config, before + later).fates[m])
    decreases |later|
  {
    if later == [] {
      assert before + later == before;
    } else {
      var shorter := later[..|later| - 1];
      assert (before + later)[..|before + later| - 1] == before + shorter;
      FatesMoveForward(config, before, shorter, m);
      AuthorityIsSound(config, before + shorter);
      StepMoves(Run(config, before + shorter), later[|later| - 1], m);
    }
  }

  /** A lease held by a closed authority with no call in flight about it, or already deleted. */
  ghost predicate Doomed(s: State, m: Id) {
    && s.closed && m in s.fates
    && (s.fates[m].Deleted?
        || (s.fates[m].Kept? && s.fates[m].key in s.resources && !s.resources[s.fates[m].key].operating))
  }

  lemma BeginDooms(s: State, key: Key, now: nat, canceled: bool, m: Id)
    requires Inv(s) && Doomed(s, m)
    ensures Doomed(Begin(s, key, now, canceled), m)
  {
    assert FateOk(s, m);
    if key in s.resources { assert ResourceOk(s, key); }
  }

  lemma ReceiveDooms(s: State, key: Key, issued: nat, answer: Answer, m: Id)
    requires Inv(s) && Doomed(s, m)
    ensures Doomed(Receive(s, key, issued, answer), m)
  {
    assert FateOk(s, m);
  }

  lemma FinishDooms(s: State, key: Key, now: nat, m: Id)
    requires Inv(s) && Doomed(s, m)
    ensures Doomed(Finish(s, key, now), m)
  {
    FinishMoves(s, key, now, m);
    if s.fates[m].Kept? && InPhase(s, key) && PhaseOf(s, key).Replied? && key in s.resources {
      assert ResourceOk(s, key);
      OnlyMine(s, key);
      FinishOther(s, key, now, s.fates[m].key);
    }
  }

  lemma {:induction false} ClosedAdoptsNothing(s: State, order: seq<nat>, now: nat)
    requires s.demands == map[]
    ensures Adopt(s, order, now) == s
    decreases |order|
  {
    if order != [] { ClosedAdoptsNothing(s, order[1..], now); }
  }

  lemma StepDooms(s: State, op: Operation, m: Id)
    requires Inv(s) && Doomed(s, m)
    ensures Doomed(Step(s, op), m)
  {
    match op
    case Beginning(key, now, canceled) => BeginDooms(s, key, now, canceled, m);
    case Receiving(key, issued, answer) => ReceiveDooms(s, key, issued, answer, m);
    case Finishing(key, now) => FinishDooms(s, key, now, m);
    case BeginningPass(order, now) => ClosedAdoptsNothing(Pruned(s, now), order, now);
    case _ =>
  }

  lemma {:induction false} StaysDoomed(config: Config, before: seq<Operation>, later: seq<Operation>, m: Id)
    requires Doomed(Run(config, before), m)
    ensures Doomed(Run(config, before + later), m)
    decreases |later|
  {
    if later == [] {
      assert before + later == before;
    } else {
      var shorter := later[..|later| - 1];
      assert (before + later)[..|before + later| - 1] == before + shorter;
      StaysDoomed(config, before, shorter, m);
      AuthorityIsSound(config, before + shorter);
      StepDooms(Run(config, before + shorter), later[|later| - 1], m);
    }
  }

  /** Close deletes what is held: a lease held once the door is shut, with no call in flight about it, has
      been passed to Delete when Close returns, whatever happens in between. That covers every lease held
      when the closing pass begins. A lease whose renewal was in flight is deleted or declared lost. */
  lemma CloseDeletesHeld(config: Config, before: seq<Operation>, later: seq<Operation>, m: Id)
    requires var s := Run(config, before); s.closed && m in s.fates && s.fates[m].Kept?
    requires Run(config, before + later).closeReturned
    ensures var s, t := Run(config, before), Run(config, before + later);
            && m in t.fates && (t.fates[m].Deleted? || t.fates[m].Lost?)
            && s.fates[m].key in s.resources
            && (!s.resources[s.fates[m].key].operating || (s.pass.Some? && s.pass.value.afterClose) ==>
                t.fates[m].Deleted?)
  {
    var s, t := Run(config, before), Run(config, before + later);
    AuthorityIsSound(config, before);
    assert FateOk(s, m);
    assert ResourceOk(s, s.fates[m].key);
    FatesMoveForward(config, before, later, m);
    CloseLeavesNothing(config, before + later);
    if !s.resources[s.fates[m].key].operating { StaysDoomed(config, before, later, m); }
  }

  /** A pass begun after closing needs no gateway answer: each worker's first section drops its resource and
      passes the lease it held to Delete. */
  lemma ClosingPassDrops(config: Config, ops: seq<Operation>, key: Key, now: nat, canceled: bool)
    requires var s := Run(config, ops); s.pass.Some? && s.pass.value.afterClose && key in s.resources
    ensures var s, t := Run(config, ops), Begin(Run(config, ops), key, now, canceled);
            && key !in t.resources && InPhase(t, key) && PhaseOf(t, key) == Finished
            && t.fates == if s.resources[key].held.Some?
                then s.fates[s.resources[key].held.value.lease.mapping := Deleted] else s.fates
  {
    AuthorityIsSound(config, ops);
    assert ResourceOk(Run(config, ops), key);
  }

  // ---------------------------------------------------------------- bounds and retirement

  /** Demands, resources and hence workers stay within the capacity, and no demand of a retired generation
      is kept. */
  ghost predicate Bounded(s: State) {
    && |s.demands| <= s.config.capacity && |s.resources| <= s.config.capacity
    && (s.pass.Some? ==> |s.pass.value.phases| <= s.config.capacity)
    && (forall id | id in s.demands :: s.demands[id].key.endpoint.generation > s.retiredThrough)
  }

  lemma DemandBounded(s: State, op: Operation)
    requires Bounded(s) && (op.Demanding? || op.Withdrawing? || op.RetiringThrough? || op.Closing?)
    ensures Bounded(Step(s, op))
  {
    match op
    case Demanding(id, d, content, valid, now) => InsertSize(s.demands, id,
                                                             d.(until := Min(d.until, now + s.config.demandTtl)));
    case Withdrawing(id) => SubsetSize((s.demands - {id}).Keys, s.demands.Keys);
    case RetiringThrough(generation) => SubsetSize(Retire(s, generation).demands.Keys, s.demands.Keys);
    case Closing =>
  }

  lemma {:induction false} AdoptBounded(s: State, order: seq<nat>, now: nat)
    requires |s.resources| <= s.config.capacity
    ensures |Adopt(s, order, now).resources| <= s.config.capacity
    decreases |order|
  {
    if order != [] {
      var id := order[0];
      if id in s.demands && !s.demands[id].direct && s.demands[id].key !in s.resources
         && |s.resources| < s.config.capacity {
        InsertSize(s.resources, s.demands[id].key, Blank(now));
        AdoptBounded(s.(resources := s.resources[s.demands[id].key := Blank(now)]), order[1..], now);
      } else {
        AdoptBounded(s, order[1..], now);
      }
    }
  }

  lemma PassBounded(s: State, order: seq<nat>, now: nat)
    requires Bounded(s)
    ensures Bounded(BeginPass(s, order, now))
  {
    if s.pass.None? {
      var pruned := Pruned(s, now);
      SubsetSize(pruned.demands.Keys, s.demands.Keys);
      AdoptBounded(pruned, order, now);
      AdoptFrame(pruned, order, now);
      var t := BeginPass(s, order, now);
      assert t.pass.value.phases.Keys == t.resources.Keys;
    }
  }

  /** A worker's section never adds a resource, a phase or a demand. */
  ghost predicate Shrinks(s: State, t: State) {
    && t.config == s.config && t.demands == s.demands && t.retiredThrough == s.retiredThrough
    && t.resources.Keys <= s.resources.Keys
    && (s.pass.Some? ==> t.pass.Some? && t.pass.value.phases.Keys == s.pass.value.phases.Keys)
    && (s.pass.None? ==> t.pass.None?)
  }

  lemma ShrinksBounded(s: State, t: State)
    requires Bounded(s) && Shrinks(s, t)
    ensures Bounded(t)
  {
    SubsetSize(t.resources.Keys, s.resources.Keys);
    if s.pass.Some? { assert |t.pass.value.phases| == |t.pass.value.phases.Keys| == |s.pass.value.phases|; }
  }

  lemma BeginShrinks(s: State, key: Key, now: nat, canceled: bool)
    ensures Shrinks(s, Begin(s, key, now, canceled))
  {
    if InPhase(s, key) && PhaseOf(s, key) == Pending && key in s.resources { LaunchShrinks(s, key, now); }
  }

  lemma LaunchShrinks(s: State, key: Key, now: nat)
    requires InPhase(s, key) && key in s.resources
    ensures Shrinks(s, Launch(s, key, now)) && Shrinks(s, Retiring(s, key, now))
  {
  }

  lemma ReceiveShrinks(s: State, key: Key, issued: nat, answer: Answer)
    ensures Shrinks(s, Receive(s, key, issued, answer))
  {
  }

  lemma PublishShrinks(s: State, key: Key, issued: nat, gateway: nat, lease: Lease, stillNeeded: bool, now: nat)
    requires InPhase(s, key) && key in s.resources
    ensures Shrinks(s, Publish(s, key, issued, gateway, lease, stillNeeded, now))
  {
    assert Invalidate(s, key, lease, now).resources.Keys == s.resources.Keys;
  }

  lemma FailShrinks(s: State, key: Key, error: Failure, revoked: bool, stillNeeded: bool, now: nat)
    requires InPhase(s, key) && PhaseOf(s, key).Replied? && key in s.resources
    ensures Shrinks(s, Fail(s, key, error, revoked, stillNeeded, now))
  {
  }

  lemma OutdatedShrinks(s: State, key: Key, now: nat)
    requires InPhase(s, key) && PhaseOf(s, key).Replied? && PhaseOf(s, key).reply.Granted? && key in s.resources
    ensures Shrinks(s, Outdated(s, key, now))
  {
  }

  lemma FinishShrinks(s: State, key: Key, now: nat)
    ensures Shrinks(s, Finish(s, key, now))
  {
    if InPhase(s, key) && PhaseOf(s, key).Replied? && key in s.resources {
      var phase := PhaseOf(s, key);
      var stillNeeded := !s.closed && Needed(s.demands, key, now, phase.renewing)
          && key.endpoint.generation > s.retiredThrough;
      if !phase.reply.Granted? {
        FailShrinks(s, key, if phase.reply.Failed? then phase.reply.error else LeaseLost, phase.reply.Invalid?,
                    stillNeeded, now);
      } else {
        OutdatedShrinks(s, key, now);
        PublishShrinks(s, key, phase.issued, phase.reply.gateway, phase.reply.lease, stillNeeded, now);
      }
    }
  }

  lemma StepBounded(s: State, op: Operation)
    requires Bounded(s)
    ensures Bounded(Step(s, op))
  {
    match op
    case BeginningPass(order, now) => PassBounded(s, order, now);
    case Refreshing(now) =>
      assert Refresh(s, now).resources.Keys == s.resources.Keys;
      ShrinksBounded(s, Refresh(s, now));
    case Beginning(key, now, canceled) =>
      BeginShrinks(s, key, now, canceled);
      ShrinksBounded(s, Begin(s, key, now, canceled));
    case Receiving(key, issued, answer) =>
      ReceiveShrinks(s, key, issued, answer);
      ShrinksBounded(s, Receive(s, key, issued, answer));
    case Finishing(key, now) =>
      FinishShrinks(s, key, now);
      ShrinksBounded(s, Finish(s, key, now));
    case EndingPass =>
    case _ => DemandBounded(s, op);
  }

  /** After every history: at most `capacity` demands, resources and workers, none of the demands retired. */
  lemma {:induction false} CapacityHolds(config: Config, ops: seq<Operation>)
    ensures Bounded(Run(config, ops))
    decreases |ops|
  {
    if ops != [] {
      CapacityHolds(config, ops[..|ops| - 1]);
      StepBounded(Run(config, ops[..|ops| - 1]), ops[|ops| - 1]);
    }
  }

  /** A worker that finds its generation retired drops the resource, grace period or not. */
  lemma RetiredGenerationDrops(config: Config, ops: seq<Operation>, key: Key, now: nat, canceled: bool)
    requires var s := Run(config, ops);
             InPhase(s, key) && PhaseOf(s, key) == Pending && key in s.resources
             && key.endpoint.generation <= s.retiredThrough
    ensures key !in Begin(Run(config, ops), key, now, canceled).resources
  {
    var s := Run(config, ops);
    CapacityHolds(config, ops);
    var existing := s.resources[key].held.Some?;
    assert forall id | id in s.demands :: !Counts(s.demands[id], key, now, existing);
    assert DemandUntil(s.demands, key, now, existing) == 0;
  }

  // ---------------------------------------------------------------- server restarts

  /** A restart is remembered by every operation in flight on that egress until its own last section. */
  lemma RestartRemembered(s: State, op: Operation, key: Key, gateway: nat)
    requires Inv(s) && key in s.resources && s.resources[key].operating && gateway in s.resources[key].restarts
    requires !(op.Finishing? && op.key == key)
    ensures var t := Step(s, op);
            key in t.resources && t.resources[key].operating && gateway in t.resources[key].restarts
  {
    assert ResourceOk(s, key);
    match op
    case Finishing(other, now) => OtherFinish(s, other, now, key, gateway);
    case _ =>
  }

  lemma OtherFinish(s: State, other: Key, now: nat, key: Key, gateway: nat)
    requires key in s.resources && s.resources[key].operating && gateway in s.resources[key].restarts && other != key
    ensures var t := Finish(s, other, now);
            key in t.resources && t.resources[key].operating && gateway in t.resources[key].restarts
  {
    if InPhase(s, other) && PhaseOf(s, other).Replied? && other in s.resources {
      FinishOther(s, other, now, key);
    }
  }

  /** What a worker's last section does to somebody else's resource: nothing, or the restart sweep. */
  lemma FinishOther(s: State, other: Key, now: nat, key: Key)
    requires InPhase(s, other) && PhaseOf(s, other).Replied? && other in s.resources && key in s.resources
             && key != other
    ensures var t := Finish(s, other, now);
            && key in t.resources
            && (t.resources[key] == s.resources[key]
                || (PhaseOf(s, other).reply.Granted? && PhaseOf(s, other).reply.lease.restarted
                    && t.resources[key]
                        == Invalidated(key, s.resources[key], other, PhaseOf(s, other).reply.lease, now)))
  {
    var phase := PhaseOf(s, other);
    if phase.reply.Granted? && !Stale(s.resources[other], phase.reply.lease) {
      var stillNeeded := !s.closed && Needed(s.demands, other, now, phase.renewing)
          && other.endpoint.generation > s.retiredThrough;
      PublishOther(s, other, phase.issued, phase.reply.gateway, phase.reply.lease, stillNeeded, now, key);
    }
  }

  lemma PublishOther(s: State, other: Key, issued: nat, gateway: nat, lease: Lease, stillNeeded: bool, now: nat,
                     key: Key)
    requires InPhase(s, other) && other in s.resources && key in s.resources && key != other
    ensures var t := Publish(s, other, issued, gateway, lease, stillNeeded, now);
            key in t.resources
            && t.resources[key]
                == if lease.restarted then Invalidated(key, s.resources[key], other, lease, now) else s.resources[key]
  {
  }

  /** Publishing a restarted server's lease hides every older-epoch lease of that server on the same
      egress and marks every operation in flight there. */
  lemma RestartHidesOlderEpochs(s: State, key: Key, now: nat, k: Key)
    requires Inv(s) && InPhase(s, key) && PhaseOf(s, key).Replied? && PhaseOf(s, key).reply.Granted?
             && key in s.resources
    requires PhaseOf(s, key).reply.lease.restarted && k in s.resources && k != key
             && k.endpoint.egress == key.endpoint.egress
    ensures var lease := PhaseOf(s, key).reply.lease;
            var r := Finish(s, key, now).resources;
            && k in r
            && (r[k].operating ==>
                lease.gatewayId in r[k].restarts && r[k].restarts[lease.gatewayId] == lease.serverEpoch)
            && ((r[k].held.Some? && r[k].held.value.lease.gatewayId == lease.gatewayId
                 && r[k].held.value.lease.serverEpoch > lease.serverEpoch) ==> r[k].expires == now)
  {
    var phase := PhaseOf(s, key);
    var stillNeeded := !s.closed && Needed(s.demands, key, now, phase.renewing)
        && key.endpoint.generation > s.retiredThrough;
    PublishOther(s, key, phase.issued, phase.reply.gateway, phase.reply.lease, stillNeeded, now, k);
  }

  /** An operation that remembers a restart never publishes the old epoch: what its resource holds
      afterwards is what it held before, or an epoch no newer than the restart, or itself a restart. */
  lemma FinishNeverResurrects(s: State, key: Key, now: nat, gateway: nat)
    requires Inv(s) && key in s.resources && gateway in s.resources[key].restarts
    ensures var t := Finish(s, key, now);
            key in t.resources && t.resources[key].held.Some?
            && t.resources[key].held.value.lease.gatewayId == gateway ==>
              var lease := t.resources[key].held.value.lease;
              || t.resources[key].held == s.resources[key].held
              || lease.serverEpoch <= s.resources[key].restarts[gateway] || lease.restarted
  {
    if InPhase(s, key) && PhaseOf(s, key).Replied? {
      var phase := PhaseOf(s, key);
      var stillNeeded := !s.closed && Needed(s.demands, key, now, phase.renewing)
          && key.endpoint.generation > s.retiredThrough;
      match phase.reply
      case Failed(error) => FailKeeps(s, key, error, false, stillNeeded, now);
      case Invalid => FailKeeps(s, key, LeaseLost, true, stillNeeded, now);
      case Granted(_, lease) =>
        if Stale(s.resources[key], lease) {
          OutdatedKeeps(s, key, now);
        } else {
          PublishKeeps(s, key, stillNeeded, now);
        }
    }
  }

  lemma {:induction false} StillRemembers(config: Config, before: seq<Operation>, later: seq<Operation>, key: Key,
                                          gateway: nat)
    requires var s := Run(config, before);
             key in s.resources && s.resources[key].operating && gateway in s.resources[key].restarts
    requires forall i | 0 <= i < |later| :: !(later[i].Finishing? && later[i].key == key)
    ensures var t := Run(config, before + later);
            key in t.resources && t.resources[key].operating && gateway in t.resources[key].restarts
    decreases |later|
  {
    if later == [] {
      assert before + later == before;
    } else {
      var shorter := later[..|later| - 1];
      assert (before + later)[..|before + later| - 1] == before + shorter;
      StillRemembers(config, before, shorter, key, gateway);
      AuthorityIsSound(config, before + shorter);
      RestartRemembered(Run(config, before + shorter), later[|later| - 1], key, gateway);
    }
  }

  /** A reply in flight at a sibling's restart never brings the ended epoch back, however long it takes and
      whatever happens meanwhile: what its resource holds after its last section is what it held before,
      or no newer than the last restart it was told of, or itself a restart. */
  lemma RestartIsNeverUndone(config: Config, before: seq<Operation>, later: seq<Operation>, key: Key, gateway: nat,
                             now: nat)
    requires var s := Run(config, before);
             key in s.resources && s.resources[key].operating && gateway in s.resources[key].restarts
    requires forall i | 0 <= i < |later| :: !(later[i].Finishing? && later[i].key == key)
    ensures var t := Run(config, before + later);
            var u := Finish(t, key, now);
            && key in t.resources && gateway in t.resources[key].restarts
            && (key in u.resources && u.resources[key].held.Some?
                && u.resources[key].held.value.lease.gatewayId == gateway ==>
                  var lease := u.resources[key].held.value.lease;
                  || u.resources[key].held == t.resources[key].held
                  || lease.serverEpoch <= t.resources[key].restarts[gateway] || lease.restarted)
  {
    StillRemembers(config, before, later, key, gateway);
    AuthorityIsSound(config, before + later);
    FinishNeverResurrects(Run(config, before + later), key, now, gateway);
  }
}
