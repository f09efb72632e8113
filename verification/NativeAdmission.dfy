/** The process-wide gate for native attempts: three token buckets, a bounded queue with two priority
    classes, owner rotation and a reserve for direct attempts. Tokens are exact reals, in seconds where
    they measure time; what the socket authority answers, and every clock reading, is an input. */
module NativeAdmission {
  import opened Totals

  type Id = nat

  const CONCURRENT_ATTEMPTS := 4
  const DIRECT_ATTEMPT_RESERVE := 1
  const MAXIMUM_QUEUED_ATTEMPTS := 64
  const MAXIMUM_STUN_ENDPOINTS := 2
  const STARTS_PER_WINDOW := 16.0
  const STUN_ENDPOINTS_PER_WINDOW := 32.0
  const ADMISSION_WINDOW := 60.0
  const ATTEMPT_BUDGET := 85.0
  const ACTIVE_TIME_PER_WINDOW := 340.0

  datatype Waiter = Waiter(id: Id, owner: nat, endpoints: nat, relayed: bool, exploration: bool)

  /** `charged` is the attempt time the permit costs: the whole budget until it is released. */
  datatype Permit = Permit(waiter: Waiter, started: real, released: bool, charged: real)

  /** The socket authority reserved, was out of capacity, or refused for good. */
  datatype Answer = Reserved | Blocked | Failed

  datatype Probe = Probe(answer: Answer, now: real)

  datatype State = State(updated: real, starts: real, endpoints: real, activeTime: real, active: int,
                         queue: seq<Waiter>, permits: map<Id, Permit>, timer: Option<real>, nextId: Id)

  /** One question to the socket authority during a pass, with the queue as it stood. */
  datatype Asked = Asked(waiter: Waiter, answer: Answer, queue: seq<Waiter>)

  /** A pass in progress; `wait` is the shortest refill delay met so far, 0 when none. */
  datatype Pass = Pass(state: State, wait: real, log: seq<Asked>)

  function RMax(a: real, b: real): real { if a < b then b else a }

  function RMin(a: real, b: real): real { if a < b then a else b }

  function Start(now: real): State {
    State(now, STARTS_PER_WINDOW, STUN_ENDPOINTS_PER_WINDOW, ACTIVE_TIME_PER_WINDOW, 0, [], map[], None, 0)
  }

  predicate Restricted(w: Waiter) { w.relayed || w.exploration }

  function Share(w: Waiter): real { if Restricted(w) then 2.0 else 1.0 }

  function Refill(s: State, now: real): State {
    var elapsed := RMax(now - s.updated, 0.0);
    s.(starts := RMin(STARTS_PER_WINDOW, s.starts + elapsed * STARTS_PER_WINDOW / ADMISSION_WINDOW),
       endpoints := RMin(STUN_ENDPOINTS_PER_WINDOW,
                         s.endpoints + elapsed * STUN_ENDPOINTS_PER_WINDOW / ADMISSION_WINDOW),
       activeTime := RMin(ACTIVE_TIME_PER_WINDOW, s.activeTime + elapsed * ACTIVE_TIME_PER_WINDOW / ADMISSION_WINDOW),
       updated := RMax(now, s.updated))
  }

  /** How long until every bucket holds what `w` needs, its direct reserve included. */
  function Wait(s: State, w: Waiter): real {
    RMax((Share(w) - s.starts) * ADMISSION_WINDOW / STARTS_PER_WINDOW,
         RMax((w.endpoints as real - s.endpoints) * ADMISSION_WINDOW / STUN_ENDPOINTS_PER_WINDOW,
              (ATTEMPT_BUDGET * Share(w) - s.activeTime) * ADMISSION_WINDOW / ACTIVE_TIME_PER_WINDOW))
  }

  /** The waiters that satisfy `keep`, in queue order. */
  function Filter(queue: seq<Waiter>, keep: Waiter -> bool): seq<Waiter> {
    if queue == [] then []
    else if keep(queue[0]) then [queue[0]] + Filter(queue[1..], keep)
    else Filter(queue[1..], keep)
  }

  /** The stable sort by priority class: essential attempts before exploration. */
  function Prioritise(queue: seq<Waiter>): seq<Waiter> {
    Filter(queue, (w: Waiter) => !w.exploration) + Filter(queue, (w: Waiter) => w.exploration)
  }

  /** The owner just served goes behind the others. */
  function Behind(queue: seq<Waiter>, owner: nat): seq<Waiter> {
    Filter(queue, (w: Waiter) => w.owner != owner) + Filter(queue, (w: Waiter) => w.owner == owner)
  }

  function Rotate(queue: seq<Waiter>, owner: nat): seq<Waiter> { Prioritise(Behind(queue, owner)) }

  function Drop(queue: seq<Waiter>, index: nat): seq<Waiter>
    requires index < |queue|
  {
    queue[..index] + queue[index + 1..]
  }

  function Grant(s: State, index: nat, now: real): State
    requires index < |s.queue|
  {
    var w := s.queue[index];
    s.(queue := Rotate(Drop(s.queue, index), w.owner), active := s.active + 1, starts := s.starts - 1.0,
       endpoints := s.endpoints - w.endpoints as real, activeTime := s.activeTime - ATTEMPT_BUDGET,
       permits := s.permits[w.id := Permit(w, now, false, ATTEMPT_BUDGET)])
  }

  function Shorter(wait: real, delay: real): real { if wait == 0.0 || delay < wait then delay else wait }

  datatype Cursor = Cursor(pass: Pass, index: nat)

  /** The socket authority's answer for the waiter at `index`: pass it by, drop it, or grant it and start
      over. */
  function AfterAsk(p: Pass, index: nat, probe: Probe): (c: Cursor)
    requires index < |p.state.queue|
    ensures c.index <= |c.pass.state.queue|
    ensures |c.pass.state.queue| < |p.state.queue| || (|c.pass.state.queue| == |p.state.queue| && c.index == index + 1)
  {
    var s := p.state;
    var w := s.queue[index];
    var asked := p.(log := p.log + [Asked(w, probe.answer, s.queue)]);
    match probe.answer
    case Blocked => Cursor(asked, index + 1)
    case Failed => Cursor(asked.(state := s.(queue := Drop(s.queue, index))), index)
    case Reserved =>
      RotateSize(Drop(s.queue, index), w.owner);
      Cursor(asked.(state := Grant(s, index, probe.now)), 0)
  }

  /** The walk over the queue: skip, stop, or ask for sockets. */
  function Walk(p: Pass, index: nat, oracle: nat -> Probe): Pass
    requires index <= |p.state.queue|
    decreases |p.state.queue|, |p.state.queue| - index
  {
    var s := p.state;
    if index == |s.queue| || s.active >= CONCURRENT_ATTEMPTS then p
    else
      var w := s.queue[index];
      if Restricted(w) && s.active >= CONCURRENT_ATTEMPTS - DIRECT_ATTEMPT_RESERVE then Walk(p, index + 1, oracle)
      else if Wait(s, w) > 0.0 then
        var waiting := p.(wait := Shorter(p.wait, Wait(s, w)));
        if w.relayed then Walk(waiting, index + 1, oracle) else waiting
      else
        var next := AfterAsk(p, index, oracle(|p.log|));
        Walk(next.pass, next.index, oracle)
  }

  lemma {:induction false} SplitSizes(queue: seq<Waiter>, f: Waiter -> bool, g: Waiter -> bool)
    requires forall w :: f(w) != g(w)
    ensures |Filter(queue, f)| + |Filter(queue, g)| == |queue|
  {
    if queue != [] { SplitSizes(queue[1..], f, g); }
  }

  lemma RotateSize(queue: seq<Waiter>, owner: nat)
    ensures |Rotate(queue, owner)| == |queue|
  {
    SplitSizes(queue, (w: Waiter) => w.owner != owner, (w: Waiter) => w.owner == owner);
    SplitSizes(Behind(queue, owner), (w: Waiter) => !w.exploration, (w: Waiter) => w.exploration);
  }

  function Ready(s: State, now: real): State {
    Refill(s, now).(queue := Prioritise(s.queue), timer := None)
  }

  function DrainPass(s: State, now: real, oracle: nat -> Probe): Pass {
    Walk(Pass(Ready(s, now), 0.0, []), 0, oracle)
  }

  function Armed(p: Pass): State {
    if p.wait > 0.0 && p.state.queue != [] then p.state.(timer := Some(p.wait)) else p.state
  }

  function Drain(s: State, now: real, oracle: nat -> Probe): State { Armed(DrainPass(s, now, oracle)) }

  function Without(queue: seq<Waiter>, id: Id): seq<Waiter> { Filter(queue, (w: Waiter) => w.id != id) }

  // ---------------------------------------------------------------- operations

  /** A prepared attempt asks for admission; a relayed one spends no STUN endpoints. */
  function Enqueue(s: State, owner: nat, profileEndpoints: nat, relayed: bool, exploration: bool): State {
    var cost := if relayed then 0 else profileEndpoints;
    if cost > MAXIMUM_STUN_ENDPOINTS || |s.queue| >= MAXIMUM_QUEUED_ATTEMPTS then s
    else s.(queue := s.queue + [Waiter(s.nextId, owner, cost, relayed, exploration)], nextId := s.nextId + 1)
  }

  function Withdraw(s: State, id: Id): State { s.(queue := Without(s.queue, id)) }

  /** An exploration waits for nobody: if its own pass did not settle it, it leaves. */
  function GiveUp(s: State, id: Id): State {
    s.(queue := Filter(s.queue, (w: Waiter) => !(w.id == id && w.exploration)))
  }

  /** A permit comes back with the part of its time budget it did not use. */
  function Returned(s: State, id: Id, refillAt: real, usedAt: real): State
    requires id in s.permits
  {
    var filled := Refill(s, refillAt);
    var used := RMin(RMax(usedAt - s.permits[id].started, 0.0), ATTEMPT_BUDGET);
    filled.(active := s.active - 1, permits := s.permits[id := s.permits[id].(released := true, charged := used)],
            activeTime := RMin(ACTIVE_TIME_PER_WINDOW, filled.activeTime + (ATTEMPT_BUDGET - used)))
  }

  /** `refillAt`, `usedAt` and `drainAt` are three readings of the clock. */
  function Release(s: State, id: Id, refillAt: real, usedAt: real, drainAt: real, oracle: nat -> Probe): State {
    if id !in s.permits || s.permits[id].released then s
    else Drain(Returned(s, id, refillAt, usedAt), drainAt, oracle)
  }

  datatype Operation =
    | Asking(owner: nat, profileEndpoints: nat, relayed: bool, exploration: bool)
    | Draining(now: real, oracle: nat -> Probe)
    | Exploring(id: Id, now: real, oracle: nat -> Probe)
    | Canceling(id: Id, now: real, oracle: nat -> Probe)
    | Releasing(id: Id, refillAt: real, usedAt: real, drainAt: real, oracle: nat -> Probe)

  function Step(s: State, op: Operation): State {
    match op
    case Asking(owner, endpoints, relayed, exploration) => Enqueue(s, owner, endpoints, relayed, exploration)
    case Draining(now, oracle) => Drain(s, now, oracle)
    case Exploring(id, now, oracle) => GiveUp(Drain(s, now, oracle), id)
    case Canceling(id, now, oracle) => if id in s.permits then s else Drain(Withdraw(s, id), now, oracle)
    case Releasing(id, refillAt, usedAt, drainAt, oracle) => Release(s, id, refillAt, usedAt, drainAt, oracle)
  }

  function RunFrom(s: State, ops: seq<Operation>): State {
    if ops == [] then s else Step(RunFrom(s, ops[..|ops| - 1]), ops[|ops| - 1])
  }

  // ---------------------------------------------------------------- what holds

  ghost function Held(permits: map<Id, Permit>): set<Id> { set id | id in permits && !permits[id].released }

  ghost function HeldRestricted(permits: map<Id, Permit>): set<Id> {
    set id | id in permits && !permits[id].released && Restricted(permits[id].waiter)
  }

  ghost predicate Tokens(s: State) {
    && 0.0 <= s.starts <= STARTS_PER_WINDOW && 0.0 <= s.endpoints <= STUN_ENDPOINTS_PER_WINDOW
    && 0.0 <= s.activeTime <= ACTIVE_TIME_PER_WINDOW
  }

  ghost predicate Permits(s: State) {
    && s.active == |Held(s.permits)| <= CONCURRENT_ATTEMPTS
    && |HeldRestricted(s.permits)| <= CONCURRENT_ATTEMPTS - DIRECT_ATTEMPT_RESERVE
  }

  ghost predicate Fresh(w: Waiter, s: State) {
    w.id < s.nextId && w.id !in s.permits && (w.relayed ==> w.endpoints == 0)
  }

  ghost predicate Queued(s: State) {
    && |s.queue| <= MAXIMUM_QUEUED_ATTEMPTS
    && (forall i | 0 <= i < |s.queue| :: Fresh(s.queue[i], s))
    && (forall i, j | 0 <= i < j < |s.queue| :: s.queue[i].id != s.queue[j].id)
    && (forall id | id in s.permits :: id < s.nextId)
  }

  ghost predicate Inv(s: State) { Tokens(s) && Permits(s) && Queued(s) }

  /** Essential attempts stand before exploration. */
  ghost predicate Ordered(queue: seq<Waiter>) {
    forall i, j | 0 <= i < j < |queue| :: queue[i].exploration ==> queue[j].exploration
  }

  /** Who was refused by the socket authority since the last grant of the pass. */
  function Refused(log: seq<Asked>): set<Id> {
    if log == [] then {}
    else
      var before := Refused(log[..|log| - 1]);
      match log[|log| - 1].answer
      case Reserved => {}
      case Blocked => before + {log[|log| - 1].waiter.id}
      case Failed => before
  }

  /** A question that ended in a grant to an exploration came after every queued essential was refused. */
  ghost predicate Deserved(log: seq<Asked>, i: nat)
    requires i < |log|
  {
    log[i].answer == Reserved && log[i].waiter.exploration ==>
      forall w | w in log[i].queue && !w.exploration :: w.id in Refused(log[..i])
  }
}
