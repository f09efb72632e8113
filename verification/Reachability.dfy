/** Demand-bounded gateway leases. Maintenance passes are serialized; within a pass one worker per
    resource runs a locked begin section, an unlocked gateway call and a locked finish section, and
    everything else may interleave. `fates` records where every mapping a gateway created is now. */
module Reachability {
  import opened Totals

  type Id = nat

  datatype Endpoint = Endpoint(local: nat, egress: nat, generation: nat)

  datatype Key = Key(endpoint: Endpoint, scope: nat)

  datatype Demand = Demand(key: Key, until: nat, direct: bool, retainLease: bool)

  datatype Config = Config(capacity: nat, demandTtl: nat, leaseTtl: nat, headStart: nat, grace: nat, timeout: nat,
                           gateways: nat)

  /** `wellFormed` stands for a valid public external address and non-empty identifiers. */
  datatype Lease = Lease(mapping: Id, wellFormed: bool, lifetime: nat, gatewayId: nat, serverEpoch: nat,
                         restarted: bool)

  datatype Held = Held(gateway: nat, lease: Lease)

  datatype Resource = Resource(started: nat, graceUntil: Option<nat>, attempted: bool, refreshPending: bool,
                               restarts: map<nat, nat>, held: Option<Held>, expires: nat, renewAt: nat,
                               nextGateway: nat, operationUntil: nat, operating: bool)

  datatype Failure = Unavailable | Canceled | LeaseLost | Refusal

  /** `Invalid` is a reply whose lease broke the contract and was passed to Delete before the finish section. */
  datatype Reply = Failed(error: Failure) | Invalid | Granted(gateway: nat, lease: Lease)

  datatype Phase =
    | Pending
    | Calling(gateway: Option<nat>, renewing: bool)
    | Replied(renewing: bool, issued: nat, reply: Reply)
    | Finished

  datatype Fate = Kept(key: Key) | Carried(carrier: Key) | Deleted | Lost | Superseded

  /** `afterClose` marks a pass begun once the authority was closed. */
  datatype Pass = Pass(phases: map<Key, Phase>, afterClose: bool)

  datatype State = State(config: Config, demands: map<nat, Demand>, resources: map<Key, Resource>, retiredThrough: nat,
                         closed: bool, pass: Option<Pass>, closeReturned: bool, fates: map<Id, Fate>, nextId: Id)

  function Start(config: Config): State { State(config, map[], map[], 0, false, None, false, map[], 0) }

  // ---------------------------------------------------------------- demand

  predicate Counts(d: Demand, key: Key, now: nat, existing: bool) {
    d.key == key && d.until > now && (!d.direct || (existing && d.retainLease))
  }

  ghost function DemandUntil(demands: map<nat, Demand>, key: Key, now: nat, existing: bool): nat {
    Largest(set id | id in demands && Counts(demands[id], key, now, existing) :: demands[id].until)
  }

  ghost predicate Needed(demands: map<nat, Demand>, key: Key, now: nat, existing: bool) {
    DemandUntil(demands, key, now, existing) > now
  }

  predicate Acceptable(s: State, id: nat, d: Demand, content: bool, valid: bool, now: nat) {
    && valid && content && d.until > now && !s.closed && d.key.endpoint.generation > s.retiredThrough
    && (id in s.demands || |s.demands| < s.config.capacity)
  }

  function SetDemand(s: State, id: nat, d: Demand, content: bool, valid: bool, now: nat): State {
    if !Acceptable(s, id, d, content, valid, now) then s
    else s.(demands := s.demands[id := d.(until := Min(d.until, now + s.config.demandTtl))])
  }

  function Withdraw(s: State, id: nat): State { s.(demands := s.demands - {id}) }

  function Retire(s: State, generation: nat): State {
    s.(retiredThrough := Max(s.retiredThrough, generation),
       demands := map id | id in s.demands && s.demands[id].key.endpoint.generation > generation :: s.demands[id])
  }

  function Refreshed(r: Resource, needed: bool): Resource {
    if r.held.Some? || !needed then r
    else if r.operating then r.(refreshPending := true)
    else r.(attempted := false, nextGateway := 0)
  }

  ghost function Refresh(s: State, now: nat): State {
    s.(resources := map k | k in s.resources :: Refreshed(s.resources[k], Needed(s.demands, k, now, false)))
  }

  function CloseDoor(s: State): State { s.(closed := true, demands := map[]) }

  // ---------------------------------------------------------------- a maintenance pass

  function Blank(now: nat): Resource { Resource(now, None, false, false, map[], None, 0, 0, 0, 0, false) }

  /** Resources for the indirect demands, visited in any order, up to the capacity. */
  function Adopt(s: State, order: seq<nat>, now: nat): State
    decreases |order|
  {
    if order == [] then s
    else
      var id := order[0];
      var next := if id in s.demands && !s.demands[id].direct && s.demands[id].key !in s.resources
          && |s.resources| < s.config.capacity
                  then s.(resources := s.resources[s.demands[id].key := Blank(now)]) else s;
      Adopt(next, order[1..], now)
  }

  function Pruned(s: State, now: nat): State {
    s.(demands := map id | id in s.demands && s.demands[id].until > now :: s.demands[id])
  }

  function BeginPass(s: State, order: seq<nat>, now: nat): State {
    if s.pass.Some? then s
    else
      var ready := Adopt(Pruned(s, now), order, now);
      ready.(pass := Some(Pass(map k | k in ready.resources :: Pending, s.closed)))
  }

  predicate InPhase(s: State, key: Key) { s.pass.Some? && key in s.pass.value.phases }

  function PhaseOf(s: State, key: Key): Phase
    requires InPhase(s, key)
  {
    s.pass.value.phases[key]
  }

  function Enter(s: State, key: Key, phase: Phase): State
    requires InPhase(s, key)
  {
    s.(pass := Some(s.pass.value.(phases := s.pass.value.phases[key := phase])))
  }

  function Put(s: State, key: Key, r: Resource): State { s.(resources := s.resources[key := r]) }

  /** A resource leaves the table; the lease it held is passed to Delete. */
  function Drop(s: State, key: Key): State
    requires key in s.resources
  {
    var held := s.resources[key].held;
    s.(resources := s.resources - {key},
       fates := if held.Some? then s.fates[held.value.lease.mapping := Deleted] else s.fates)
  }

  function Retiring(s: State, key: Key, now: nat): State
    requires InPhase(s, key) && key in s.resources
  {
    var r := s.resources[key];
    var until := if r.graceUntil.Some? then r.graceUntil.value else now + s.config.grace;
    if now < until && !s.closed && key.endpoint.generation > s.retiredThrough
    then Enter(Put(s, key, r.(graceUntil := Some(until))), key, Finished)
    else Enter(Drop(s, key), key, Finished)
  }

  ghost function Launch(s: State, key: Key, now: nat): State
    requires InPhase(s, key) && key in s.resources
  {
    var r := s.resources[key].(graceUntil := None);
    var until := Min(DemandUntil(s.demands, key, now, r.held.Some?), now + s.config.timeout);
    var fresher := r.(operationUntil := until, operating := true);
    if r.held.Some? then Enter(Put(s, key, fresher), key, Calling(Some(r.held.value.gateway), true))
    else
      var next := if r.nextGateway < s.config.gateways then r.nextGateway + 1 else r.nextGateway;
      Enter(Put(s, key, fresher.(nextGateway := next, attempted := next >= s.config.gateways)), key,
            Calling(if r.nextGateway < s.config.gateways then Some(r.nextGateway) else None, false))
  }

  /** The worker's first section. */
  ghost function Begin(s: State, key: Key, now: nat, canceled: bool): (t: State)
    ensures t.config == s.config
  {
    if !InPhase(s, key) || PhaseOf(s, key) != Pending || key !in s.resources then s
    else
      var r := s.resources[key];
      if s.closed || !Needed(s.demands, key, now, r.held.Some?) then Retiring(s, key, now)
      else if (r.held.Some? && now < r.renewAt) || canceled
              || (r.held.None? && (r.attempted || now - r.started < s.config.headStart))
      then Enter(Put(s, key, r.(graceUntil := None)), key, Finished)
      else Launch(s, key, now)
  }

  predicate ValidLease(s: State, lease: Lease) { lease.wellFormed && 0 < lease.lifetime <= s.config.leaseTtl }

  datatype Answer = NotCalled | Error(failure: Failure) | Answered(lease: Lease)

  /** The gateway answers. A creation makes a new mapping, a renewal keeps its own; a mapping that came
      back in an invalid reply is passed to Delete at once. */
  function Receive(s: State, key: Key, issued: nat, answer: Answer): (t: State)
    ensures t.config == s.config
  {
    if !InPhase(s, key) || !PhaseOf(s, key).Calling? || key !in s.resources then s
    else
      var call, r := PhaseOf(s, key), s.resources[key];
      if call.gateway.None? || issued >= r.operationUntil || answer.NotCalled?
      then Enter(s, key, Replied(call.renewing, issued, Failed(Unavailable)))
      else if answer.Error? then Enter(s, key, Replied(call.renewing, issued, Failed(answer.failure)))
      else if call.renewing then
        if r.held.None? then s
        else
          var lease := answer.lease.(mapping := r.held.value.lease.mapping);
          Enter(s, key,
                Replied(true, issued, if ValidLease(s, lease) then Granted(call.gateway.value, lease) else Invalid))
      else
        var lease := answer.lease.(mapping := s.nextId);
        if ValidLease(s, lease)
        then Enter(s.(fates := s.fates[s.nextId := Carried(key)], nextId := s.nextId + 1), key,
                   Replied(false, issued, Granted(call.gateway.value, lease)))
        else Enter(s.(fates := s.fates[s.nextId := Deleted], nextId := s.nextId + 1), key,
                   Replied(false, issued, Invalid))
  }

  predicate Stale(r: Resource, lease: Lease) {
    lease.gatewayId in r.restarts && lease.serverEpoch > r.restarts[lease.gatewayId] && !lease.restarted
  }

  function StepBack(n: nat): nat { if n == 0 then 0 else n - 1 }

  /** A reply from before a sibling's restart: nothing is published. */
  function Outdated(s: State, key: Key, now: nat): State
    requires InPhase(s, key) && PhaseOf(s, key).Replied? && PhaseOf(s, key).reply.Granted? && key in s.resources
  {
    var phase, r := PhaseOf(s, key), s.resources[key].(operating := false, restarts := map[], renewAt := now);
    if phase.renewing then Enter(Put(s, key, r), key, Finished)
    else Enter(Put(s.(fates := s.fates[phase.reply.lease.mapping := Superseded]), key,
                   r.(nextGateway := StepBack(r.nextGateway), attempted := false)), key, Finished)
  }

  /** A failed call; `revoked` tells that the lease it answered with was already passed to Delete. */
  function Fail(s: State, key: Key, error: Failure, revoked: bool, stillNeeded: bool, now: nat): State
    requires InPhase(s, key) && PhaseOf(s, key).Replied? && key in s.resources
  {
    var renewing := PhaseOf(s, key).renewing;
    var r := s.resources[key].(operating := false, restarts := map[]);
    var a := if r.refreshPending then r.(attempted := false, nextGateway := 0, refreshPending := false) else r;
    var b := if !renewing && stillNeeded && error == Canceled
        then a.(nextGateway := StepBack(a.nextGateway), attempted := false) else a;
    if renewing && error == LeaseLost then
      var fates := if b.held.Some? then s.fates[b.held.value.lease.mapping := if revoked then Deleted else Lost]
                   else s.fates;
      Enter(Put(s.(fates := fates), key, b.(held := None, expires := 0, nextGateway := 0, attempted := false)), key,
            Finished)
    else Enter(Put(s, key, if renewing then b.(renewAt := now + s.config.timeout) else b), key, Finished)
  }

  /** A restarted server voids its older leases on the same egress; replies in flight are marked. */
  function Invalidated(k: Key, r: Resource, key: Key, lease: Lease, now: nat): Resource {
    if k == key || k.endpoint.egress != key.endpoint.egress then r
    else
      var marked := if r.operating then r.(restarts := r.restarts[lease.gatewayId := lease.serverEpoch]) else r;
      if r.held.Some? && r.held.value.lease.gatewayId == lease.gatewayId
         && r.held.value.lease.serverEpoch > lease.serverEpoch
      then marked.(expires := now, renewAt := now) else marked
  }

  function Invalidate(s: State, key: Key, lease: Lease, now: nat): State {
    if lease.restarted then s.(resources := map k | k in s.resources :: Invalidated(k, s.resources[k], key, lease, now))
    else s
  }

  function Publish(s: State, key: Key, issued: nat, gateway: nat, lease: Lease, stillNeeded: bool, now: nat): State
    requires InPhase(s, key) && key in s.resources
  {
    var swept := Invalidate(s, key, lease, now);
    var r := s.resources[key].(operating := false, restarts := map[], refreshPending := false,
                               held := Some(Held(gateway, lease)),
                               expires := issued + lease.lifetime, renewAt := issued + lease.lifetime / 2);
    var kept := Put(swept.(fates := s.fates[lease.mapping := Kept(key)]), key, r);
    Enter(if stillNeeded && now < r.expires then kept else Drop(kept, key), key, Finished)
  }

  /** The worker's last section. */
  ghost function Finish(s: State, key: Key, now: nat): (t: State)
    ensures t.config == s.config
  {
    if !InPhase(s, key) || !PhaseOf(s, key).Replied? || key !in s.resources then s
    else
      var phase := PhaseOf(s, key);
      var stillNeeded := !s.closed && Needed(s.demands, key, now, phase.renewing)
          && key.endpoint.generation > s.retiredThrough;
      match phase.reply
      case Failed(error) => Fail(s, key, error, false, stillNeeded, now)
      case Invalid => Fail(s, key, LeaseLost, true, stillNeeded, now)
      case Granted(gateway, lease) =>
        if Stale(s.resources[key], lease) then Outdated(s, key, now)
        else Publish(s, key, phase.issued, gateway, lease, stillNeeded, now)
  }

  function EndPass(s: State): State {
    if s.pass.Some? && forall k | k in s.pass.value.phases :: s.pass.value.phases[k] == Finished
    then s.(pass := None, closeReturned := s.closeReturned || s.pass.value.afterClose) else s
  }

  datatype Operation =
    | Demanding(id: nat, demand: Demand, content: bool, valid: bool, now: nat)
    | Withdrawing(id: nat)
    | RetiringThrough(generation: nat)
    | Refreshing(now: nat)
    | Closing
    | BeginningPass(order: seq<nat>, now: nat)
    | Beginning(key: Key, now: nat, canceled: bool)
    | Receiving(key: Key, issued: nat, answer: Answer)
    | Finishing(key: Key, now: nat)
    | EndingPass

  ghost function Step(s: State, op: Operation): State {
    match op
    case Demanding(id, demand, content, valid, now) => SetDemand(s, id, demand, content, valid, now)
    case Withdrawing(id) => Withdraw(s, id)
    case RetiringThrough(generation) => Retire(s, generation)
    case Refreshing(now) => Refresh(s, now)
    case Closing => CloseDoor(s)
    case BeginningPass(order, now) => BeginPass(s, order, now)
    case Beginning(key, now, canceled) => Begin(s, key, now, canceled)
    case Receiving(key, issued, answer) => Receive(s, key, issued, answer)
    case Finishing(key, now) => Finish(s, key, now)
    case EndingPass => EndPass(s)
  }

  ghost function Run(config: Config, ops: seq<Operation>): State {
    if ops == [] then Start(config) else Step(Run(config, ops[..|ops| - 1]), ops[|ops| - 1])
  }

  // ---------------------------------------------------------------- what holds

  /** A resource and its worker: an operation is in flight exactly while the worker is between its two
      sections, and only the worker changes what the resource holds. */
  ghost predicate ResourceOk(s: State, k: Key)
    requires k in s.resources
  {
    var r := s.resources[k];
    && (r.held.Some? ==> r.held.value.lease.mapping in s.fates && s.fates[r.held.value.lease.mapping] == Kept(k))
    && (s.pass.None? ==> !r.operating)
    && (s.pass.Some? ==>
          && k in s.pass.value.phases
          && (r.operating <==> s.pass.value.phases[k].Calling? || s.pass.value.phases[k].Replied?)
          && (s.pass.value.afterClose ==> s.pass.value.phases[k] == Pending))
    && (!r.operating ==> r.restarts == map[])
  }

  ghost predicate PhaseOk(s: State, k: Key)
    requires s.pass.Some? && k in s.pass.value.phases
  {
    var phase := s.pass.value.phases[k];
    && (phase != Finished ==> k in s.resources)
    && (phase.Calling? ==> (phase.renewing <==> s.resources[k].held.Some?))
    && (phase.Replied? ==>
          && (phase.renewing <==> s.resources[k].held.Some?)
          && (phase.reply.Granted? ==> phase.reply.lease.mapping in s.fates)
          && (phase.reply.Granted? && phase.renewing ==>
              phase.reply.lease.mapping == s.resources[k].held.value.lease.mapping)
          && (phase.reply.Granted? && !phase.renewing ==> s.fates[phase.reply.lease.mapping] == Carried(k)))
  }

  /** Every mapping is where its fate says. */
  ghost predicate FateOk(s: State, m: Id)
    requires m in s.fates
  {
    && m < s.nextId
    && (s.fates[m].Kept? ==>
          var k := s.fates[m].key;
          k in s.resources && s.resources[k].held.Some? && s.resources[k].held.value.lease.mapping == m)
    && (s.fates[m].Carried? ==>
          var k := s.fates[m].carrier;
          && InPhase(s, k) && PhaseOf(s, k).Replied? && !PhaseOf(s, k).renewing
          && PhaseOf(s, k).reply.Granted? && PhaseOf(s, k).reply.lease.mapping == m)
  }

  ghost predicate Inv(s: State) {
    && (forall k {:trigger ResourceOk(s, k)} | k in s.resources :: ResourceOk(s, k))
    && (s.pass.Some? ==> forall k {:trigger PhaseOk(s, k)} | k in s.pass.value.phases :: PhaseOk(s, k))
    && (forall m {:trigger FateOk(s, m)} | m in s.fates :: FateOk(s, m))
    && (forall m: Id {:trigger m in s.fates} :: m in s.fates <==> m < s.nextId)
    && (s.closed ==> s.demands == map[])
    && (s.pass.Some? && s.pass.value.afterClose ==> s.closed)
    && (s.closeReturned ==> s.closed && s.resources == map[])
  }
}
