/** The process-wide socket ledger: reservations, shared per-path endpoints, optional TCP listeners,
    exclusive ICE ownership, idle keepalive workers and paths that are still closing. Every section
    held under the authority's lock is one step; opening a socket is an input. */
module SocketAuthority {
  import opened Totals

  type Id = nat

  datatype Address = Address(id: nat, v6: bool, usable: bool)

  datatype PathKey = PathKey(session: nat, generation: nat, path: nat)

  const MAX_ADDRESSES_PER_PATH := 16

  datatype Ownership = Unclaimed | Claiming(claim: Id) | Active(claim: Id)

  /** One path's endpoints. `closer` is the idle worker the closing goroutine joins; `removed` means
      the path left the ledger; `closes` counts physical closes. */
  datatype Entry = Entry(key: PathKey, addresses: seq<Address>, tcp: seq<Address>, optional: bool, refs: int,
                         owner: Ownership, idle: Option<Id>, closing: bool, closer: Option<Id>, removed: bool,
                         closes: nat)

  datatype Lease = Lease(entry: Id, released: bool)

  datatype Reservation = Reservation(key: PathKey, addresses: seq<Address>, optional: bool, lease: Option<Id>,
                                     settled: bool)

  datatype ClaimPhase = Waiting(idle: Option<Id>) | Holding | Ended

  datatype Claim = Claim(lease: Id, phase: ClaimPhase)

  datatype Task = Task(entry: Id, exited: bool)

  /** `epoch` counts the change signals fired. */
  datatype State = State(capacity: nat, entries: map<Id, Entry>, paths: map<PathKey, Id>, reserved: map<PathKey, Id>,
                         reservations: map<Id, Reservation>, leases: map<Id, Lease>, claims: map<Id, Claim>,
                         tasks: map<Id, Task>, socketCount: int, reservedCount: int, retiredThrough: nat,
                         closing: bool, epoch: nat, nextId: Id)

  datatype Outcome = Done(id: Id) | ErrClosed | ErrRetired | ErrInvalid | ErrCapacity | ErrActive | ErrListen | Blocked

  datatype Reply = Reply(state: State, outcome: Outcome)

  function Empty(capacity: nat): State {
    State(capacity, map[], map[], map[], map[], map[], map[], map[], 0, 0, 0, false, 0, 0)
  }

  function SocketCount(e: Entry): int { |e.addresses| + |e.tcp| }

  // ---------------------------------------------------------------- requests

  /** Equal addresses need one socket; the caller's order of first occurrences is kept. */
  function Dedup(addresses: seq<Address>, seen: set<Address>): seq<Address> {
    if addresses == [] then []
    else if addresses[0] in seen then Dedup(addresses[1..], seen)
    else [addresses[0]] + Dedup(addresses[1..], seen + {addresses[0]})
  }

  predicate ValidRequest(s: State, key: PathKey, addresses: seq<Address>) {
    && key.session != 0 && key.generation != 0 && key.path != 0
    && 0 < |addresses| <= MAX_ADDRESSES_PER_PATH && |addresses| <= s.capacity
    && forall i | 0 <= i < |addresses| :: addresses[i].usable
  }

  // ---------------------------------------------------------------- leases

  function Share(s: State, e: Id): Reply
    requires e in s.entries
  {
    Reply(s.(entries := s.entries[e := s.entries[e].(refs := s.entries[e].refs + 1)],
             leases := s.leases[s.nextId := Lease(e, false)], nextId := s.nextId + 1), Done(s.nextId))
  }

  function Open(s: State, key: PathKey, addresses: seq<Address>): Reply {
    var e := Entry(key, addresses, [], false, 1, Unclaimed, None, false, None, false, 0);
    Reply(s.(entries := s.entries[s.nextId := e], paths := s.paths[key := s.nextId],
             leases := s.leases[s.nextId + 1 := Lease(s.nextId, false)],
             socketCount := s.socketCount + |addresses|, nextId := s.nextId + 2), Done(s.nextId + 1))
  }

  /** `Blocked` means: the path is closing, wait for it unlocked and look again. */
  function Acquire(s: State, key: PathKey, addresses: seq<Address>, bound: bool): Reply {
    if s.closing then Reply(s, ErrClosed)
    else if key.generation <= s.retiredThrough then Reply(s, ErrRetired)
    else if key in s.paths && s.paths[key] in s.entries then
      var e := s.entries[s.paths[key]];
      if e.closing then Reply(s, Blocked)
      else if e.addresses != addresses then Reply(s, ErrInvalid)
      else Share(s, s.paths[key])
    else if key in s.reserved || s.socketCount + s.reservedCount + |addresses| > s.capacity then Reply(s, ErrCapacity)
    else if !bound then Reply(s, ErrListen)
    else Open(s, key, addresses)
  }

  predicate Known(s: State, l: Id) { l in s.leases && s.leases[l].entry in s.entries }

  /** Why a lease may not start new work. */
  function Unavailable(s: State, l: Id): Option<Outcome>
    requires Known(s, l)
  {
    var e := s.entries[s.leases[l].entry];
    if s.leases[l].released || s.closing || e.closing then Some(ErrClosed)
    else if e.key.generation <= s.retiredThrough then Some(ErrRetired)
    else None
  }

  function Retain(s: State, l: Id): Reply
    requires Known(s, l)
  {
    var unavailable := Unavailable(s, l);
    if unavailable.Some? then Reply(s, unavailable.value) else Share(s, s.leases[l].entry)
  }

  function StartClose(e: Entry): Entry {
    if e.closing then e else e.(closing := true, closer := e.idle, closes := e.closes + 1)
  }

  function CloseLease(s: State, l: Id): State
    requires Known(s, l)
  {
    if s.leases[l].released then s
    else
      var id := s.leases[l].entry;
      var e := s.entries[id].(refs := s.entries[id].refs - 1);
      s.(leases := s.leases[l := s.leases[l].(released := true)],
         entries := s.entries[id := if e.refs == 0 then StartClose(e) else e])
  }

  /** The closing goroutine's last section: sockets closed, its idle worker joined. */
  predicate CanFinish(s: State, id: Id) {
    && id in s.entries && s.entries[id].closing && !s.entries[id].removed
    && (s.entries[id].closer.Some? ==>
        s.entries[id].closer.value in s.tasks && s.tasks[s.entries[id].closer.value].exited)
  }

  function FinishClose(s: State, id: Id): State {
    if !CanFinish(s, id) then s
    else
      var e := s.entries[id];
      s.(paths := s.paths - {e.key}, socketCount := s.socketCount - SocketCount(e), epoch := s.epoch + 1,
         entries := s.entries[id := e.(removed := true)])
  }

  // ---------------------------------------------------------------- reservations

  /** The mandatory set sizes optional work must keep room for. */
  ghost function Promised(s: State): set<nat> {
    (set k | k in s.paths && s.paths[k] in s.entries && s.entries[s.paths[k]].optional ::
     |s.entries[s.paths[k]].addresses|)
    + (set k | k in s.reserved && s.reserved[k] in s.reservations && s.reservations[s.reserved[k]].optional
         :: |s.reservations[s.reserved[k]].addresses|)
  }

  ghost function EssentialReserve(s: State): nat { Largest(Promised(s)) }

  ghost function Reserve(s: State, key: PathKey, addresses: seq<Address>, optional: bool): Reply {
    if s.closing then Reply(s, ErrClosed)
    else if key.generation <= s.retiredThrough then Reply(s, ErrRetired)
    else if key in s.paths && s.paths[key] in s.entries then
      var e := s.entries[s.paths[key]];
      if e.closing then Reply(s, ErrCapacity)
      else if e.addresses != addresses then Reply(s, ErrInvalid)
      else
        var shared := Share(s, s.paths[key]).state;
        Reply(shared.(reservations :=
                        s.reservations[shared.nextId := Reservation(key, addresses, false, Some(s.nextId), false)],
                      nextId := shared.nextId + 1), Done(shared.nextId))
    else
      var reserve := if optional then Max(|addresses|, EssentialReserve(s)) else 0;
      if key in s.reserved || s.socketCount + s.reservedCount + |addresses| + reserve > s.capacity
      then Reply(s, ErrCapacity)
      else Reply(s.(reservations := s.reservations[s.nextId := Reservation(key, addresses, optional, None, false)],
                    reserved := s.reserved[key := s.nextId], reservedCount := s.reservedCount + |addresses|,
                    nextId := s.nextId + 1), Done(s.nextId))
  }

  /** Gives a held reservation's capacity back without firing the signal. */
  function Unreserve(s: State, r: Id): State
    requires r in s.reservations
  {
    var v := s.reservations[r];
    s.(reservations := s.reservations[r := v.(settled := true)], reserved := s.reserved - {v.key},
       reservedCount := s.reservedCount - |v.addresses|)
  }

  function Settle(s: State, r: Id): State
    requires r in s.reservations
  {
    s.(reservations := s.reservations[r := s.reservations[r].(settled := true)])
  }

  function MarkOptional(reply: Reply, key: PathKey, optional: bool): State {
    var s := reply.state;
    if reply.outcome.Done? && key in s.paths && s.paths[key] in s.entries
    then s.(entries := s.entries[s.paths[key] := s.entries[s.paths[key]].(optional := optional)]) else s
  }

  function Activate(s: State, r: Id, bound: bool): Reply
    requires r in s.reservations && (s.reservations[r].lease.Some? ==> Known(s, s.reservations[r].lease.value))
  {
    var v := s.reservations[r];
    if v.settled then Reply(s, ErrInvalid)
    else if v.lease.Some? then
      var settled := Settle(s, r);
      var unavailable := Unavailable(settled, v.lease.value);
      if unavailable.Some? then Reply(CloseLease(settled, v.lease.value), unavailable.value)
      else Reply(settled, Done(v.lease.value))
    else
      var reply := Acquire(Unreserve(s, r), v.key, v.addresses, bound);
      var marked := MarkOptional(reply, v.key, v.optional);
      Reply(marked.(epoch := marked.epoch + 1), reply.outcome)
  }

  function Abandon(s: State, r: Id): State
    requires r in s.reservations && (s.reservations[r].lease.Some? ==> Known(s, s.reservations[r].lease.value))
  {
    var v := s.reservations[r];
    if v.settled then s
    else if v.lease.Some? then CloseLease(Settle(s, r), v.lease.value)
    else
      var freed := Unreserve(s, r);
      freed.(epoch := freed.epoch + 1)
  }

  // ---------------------------------------------------------------- TCP listeners

  function Needed(addresses: seq<Address>, tcp: seq<Address>, v6: bool): seq<Address> {
    if addresses == [] then []
    else
      var rest := Needed(addresses[1..], tcp, v6);
      if (addresses[0].v6 && !v6) || addresses[0] in tcp then rest else [addresses[0]] + rest
  }

  ghost function PrepareTCP(s: State, l: Id, v6: bool, bound: bool): Reply
    requires Known(s, l)
  {
    var id := s.leases[l].entry;
    var e := s.entries[id];
    var unavailable := Unavailable(s, l);
    var needed := Needed(e.addresses, e.tcp, v6);
    if unavailable.Some? then Reply(s, unavailable.value)
    else if e.owner != Unclaimed then Reply(s, ErrActive)
    else if s.socketCount + s.reservedCount + |needed| + EssentialReserve(s) > s.capacity then Reply(s, ErrCapacity)
    else if !bound then Reply(s, ErrListen)
    else Reply(s.(entries := s.entries[id := e.(tcp := e.tcp + needed)], socketCount := s.socketCount + |needed|),
               Done(l))
  }

  // ---------------------------------------------------------------- ownership and idle workers

  /** First section of a claim: reserve ownership, then wait unlocked for the idle worker. */
  function BeginClaim(s: State, l: Id): Reply
    requires Known(s, l)
  {
    var id := s.leases[l].entry;
    var e := s.entries[id];
    var unavailable := Unavailable(s, l);
    if unavailable.Some? then Reply(s, unavailable.value)
    else if e.owner != Unclaimed then Reply(s, ErrActive)
    else Reply(s.(entries := s.entries[id := e.(owner := Claiming(s.nextId))],
                  claims := s.claims[s.nextId := Claim(l, Waiting(e.idle))], nextId := s.nextId + 1), Done(s.nextId))
  }

  predicate CanEndClaim(s: State, c: Id) {
    && c in s.claims && s.claims[c].phase.Waiting? && Known(s, s.claims[c].lease)
    && (s.claims[c].phase.idle.Some? ==>
        s.claims[c].phase.idle.value in s.tasks && s.tasks[s.claims[c].phase.idle.value].exited)
  }

  function EndClaim(s: State, c: Id): State {
    if !CanEndClaim(s, c) then s
    else
      var l := s.claims[c].lease;
      var id := s.leases[l].entry;
      var held := Unavailable(s, l).None?;
      s.(entries := s.entries[id := s.entries[id].(idle := None, owner := if held then Active(c) else Unclaimed)],
         claims := s.claims[c := s.claims[c].(phase := if held then Holding else Ended)])
  }

  function ReleaseClaim(s: State, c: Id): State {
    if c !in s.claims || !s.claims[c].phase.Holding? || !Known(s, s.claims[c].lease) then s
    else
      var id := s.leases[s.claims[c].lease].entry;
      s.(entries := s.entries[id := s.entries[id].(owner := Unclaimed)],
         claims := s.claims[c := s.claims[c].(phase := Ended)])
  }

  /** `Blocked` means: cancel the previous worker, wait unlocked and look again. */
  function StartIdle(s: State, l: Id): Reply
    requires Known(s, l)
  {
    var id := s.leases[l].entry;
    var e := s.entries[id];
    var unavailable := Unavailable(s, l);
    if unavailable.Some? then Reply(s, unavailable.value)
    else if e.owner != Unclaimed then Reply(s, ErrActive)
    else if e.idle.Some? && !(e.idle.value in s.tasks && s.tasks[e.idle.value].exited) then Reply(s, Blocked)
    else Reply(s.(entries := s.entries[id := e.(idle := Some(s.nextId))],
                  tasks := s.tasks[s.nextId := Task(id, false)], nextId := s.nextId + 1), Done(s.nextId))
  }

  function ExitIdle(s: State, t: Id): State {
    if t in s.tasks then s.(tasks := s.tasks[t := s.tasks[t].(exited := true)]) else s
  }

  // ---------------------------------------------------------------- the authority as a whole

  function Retire(s: State, generation: nat): State {
    if generation > s.retiredThrough then s.(retiredThrough := generation, epoch := s.epoch + 1) else s
  }

  function CloseAll(s: State): State {
    if s.closing then s
    else s.(closing := true, epoch := s.epoch + 1,
            entries := map id | id in s.entries ::
              if s.entries[id].key in s.paths && s.paths[s.entries[id].key] == id then StartClose(s.entries[id])
              else s.entries[id])
  }

  datatype Operation =
    | Acquiring(key: PathKey, addresses: seq<Address>, bound: bool)
    | Reserving(key: PathKey, addresses: seq<Address>, optional: bool)
    | Activating(reservation: Id, bound: bool)
    | Abandoning(reservation: Id)
    | Retaining(lease: Id)
    | Releasing(lease: Id)
    | Finishing(entry: Id)
    | Listening(lease: Id, v6: bool, bound: bool)
    | Claiming1(lease: Id)
    | Claiming2(claim: Id)
    | Yielding(claim: Id)
    | Idling(lease: Id)
    | Exiting(task: Id)
    | Retiring(generation: nat)
    | Closing

  ghost predicate Usable(s: State, r: Id) {
    r in s.reservations && (s.reservations[r].lease.Some? ==> Known(s, s.reservations[r].lease.value))
  }

  ghost function Step(s: State, op: Operation): State {
    match op
    case Acquiring(key, addresses, bound) =>
      if ValidRequest(s, key, addresses) then Acquire(s, key, addresses, bound).state else s
    case Reserving(key, addresses, optional) =>
      if ValidRequest(s, key, addresses) then Reserve(s, key, addresses, optional).state else s
    case Activating(r, bound) => if Usable(s, r) then Activate(s, r, bound).state else s
    case Abandoning(r) => if Usable(s, r) then Abandon(s, r) else s
    case Retaining(l) => if Known(s, l) then Retain(s, l).state else s
    case Releasing(l) => if Known(s, l) then CloseLease(s, l) else s
    case Finishing(e) => FinishClose(s, e)
    case Listening(l, v6, bound) => if Known(s, l) then PrepareTCP(s, l, v6, bound).state else s
    case Claiming1(l) => if Known(s, l) then BeginClaim(s, l).state else s
    case Claiming2(c) => EndClaim(s, c)
    case Yielding(c) => ReleaseClaim(s, c)
    case Idling(l) => if Known(s, l) then StartIdle(s, l).state else s
    case Exiting(t) => ExitIdle(s, t)
    case Retiring(generation) => Retire(s, generation)
    case Closing => CloseAll(s)
  }

  /** What the caller of an answering operation is told; `None` where there is nothing to tell. */
  ghost function Answer(s: State, op: Operation): Option<Outcome> {
    match op
    case Acquiring(key, addresses, bound) =>
      Some(if ValidRequest(s, key, addresses) then Acquire(s, key, addresses, bound).outcome else ErrInvalid)
    case Reserving(key, addresses, optional) =>
      Some(if ValidRequest(s, key, addresses) then Reserve(s, key, addresses, optional).outcome else ErrInvalid)
    case Activating(r, bound) => if Usable(s, r) then Some(Activate(s, r, bound).outcome) else None
    case Retaining(l) => if Known(s, l) then Some(Retain(s, l).outcome) else None
    case Listening(l, v6, bound) => if Known(s, l) then Some(PrepareTCP(s, l, v6, bound).outcome) else None
    case Claiming1(l) => if Known(s, l) then Some(BeginClaim(s, l).outcome) else None
    case Idling(l) => if Known(s, l) then Some(StartIdle(s, l).outcome) else None
    case _ => None
  }

  ghost function Run(capacity: nat, ops: seq<Operation>): State {
    if ops == [] then Empty(capacity) else Step(Run(capacity, ops[..|ops| - 1]), ops[|ops| - 1])
  }

  // ---------------------------------------------------------------- the invariant

  ghost function PathSockets(s: State): map<PathKey, int> {
    map k | k in s.paths :: if s.paths[k] in s.entries then SocketCount(s.entries[s.paths[k]]) else 0
  }

  ghost function ReservedSockets(s: State): map<PathKey, int> {
    map k | k in s.reserved :: if s.reserved[k] in s.reservations then |s.reservations[s.reserved[k]].addresses| else 0
  }

  /** The counters are the sums over all paths, closing ones included, and all held reservations. */
  ghost predicate Ledger(s: State) {
    && s.socketCount == Sum(PathSockets(s))
    && s.reservedCount == Sum(ReservedSockets(s))
    && s.socketCount + s.reservedCount <= s.capacity
  }

  ghost function LeasesOf(leases: map<Id, Lease>, e: Id): set<Id> {
    set l | l in leases && leases[l].entry == e && !leases[l].released
  }

  /** One path: its references are its unreleased leases, it is open exactly while some remain or it
      closes once, and it stays in the ledger until removed. */
  ghost predicate EntryOk(s: State, id: Id)
    requires id in s.entries
  {
    var e := s.entries[id];
    && e.refs == |LeasesOf(s.leases, id)|
    && (!e.closing ==> e.refs > 0 && !e.removed && e.closer.None?)
    && e.closes == (if e.closing then 1 else 0)
    && (e.removed <==> !(e.key in s.paths && s.paths[e.key] == id))
    && (e.removed ==> e.closing)
    && (s.closing ==> e.closing)
  }

  ghost predicate PathOk(s: State, k: PathKey)
    requires k in s.paths
  {
    s.paths[k] in s.entries && s.entries[s.paths[k]].key == k
  }

  ghost predicate ReservationOk(s: State, r: Id)
    requires r in s.reservations
  {
    var v := s.reservations[r];
    && (v.lease.Some? ==> v.lease.value in s.leases)
    && (v.lease.None? && !v.settled <==> v.key in s.reserved && s.reserved[v.key] == r)
  }

  ghost predicate ReservedOk(s: State, k: PathKey)
    requires k in s.reserved
  {
    s.reserved[k] in s.reservations && s.reservations[s.reserved[k]].key == k
  }

  /** A live claim is the owner its path records, so a path has at most one. */
  ghost predicate ClaimOk(s: State, c: Id)
    requires c in s.claims
  {
    var claim := s.claims[c];
    && Known(s, claim.lease)
    && (claim.phase.Waiting? ==> s.entries[s.leases[claim.lease].entry].owner == Claiming(c)
                                 && claim.phase.idle == s.entries[s.leases[claim.lease].entry].idle)
    && (claim.phase.Holding? ==> s.entries[s.leases[claim.lease].entry].owner == Active(c))
  }

  /** A running worker is the one its path records, is not beside an ICE owner, and will be joined
      before the path leaves the ledger. */
  ghost predicate TaskOk(s: State, t: Id)
    requires t in s.tasks
  {
    s.tasks[t].entry in s.entries &&
    (!s.tasks[t].exited ==>
       var e := s.entries[s.tasks[t].entry];
       e.idle == Some(t) && !e.owner.Active? && !e.removed && (e.closing ==> e.closer == Some(t)))
  }

  ghost predicate Fresh(s: State) {
    && (forall e | e in s.entries :: e < s.nextId)
    && (forall l | l in s.leases :: l < s.nextId && s.leases[l].entry in s.entries)
    && (forall r | r in s.reservations :: r < s.nextId)
    && (forall c | c in s.claims :: c < s.nextId)
    && (forall t | t in s.tasks :: t < s.nextId)
  }

  /** The books: a key names a path or a reservation, never both, and every row names its key. */
  ghost predicate Accounts(s: State) {
    && s.paths.Keys !! s.reserved.Keys
    && (forall k {:trigger PathOk(s, k)} | k in s.paths :: PathOk(s, k))
    && (forall r {:trigger ReservationOk(s, r)} | r in s.reservations :: ReservationOk(s, r))
    && (forall k {:trigger ReservedOk(s, k)} | k in s.reserved :: ReservedOk(s, k))
  }

  ghost predicate References(s: State) {
    forall e {:trigger EntryOk(s, e)} | e in s.entries :: EntryOk(s, e)
  }

  ghost predicate Workers(s: State) {
    && (forall c {:trigger ClaimOk(s, c)} | c in s.claims :: ClaimOk(s, c))
    && (forall t {:trigger TaskOk(s, t)} | t in s.tasks :: TaskOk(s, t))
  }

  ghost predicate Inv(s: State) {
    Fresh(s) && Accounts(s) && References(s) && Workers(s)
  }

  ghost predicate Sound(s: State) { Inv(s) && Ledger(s) }
}
