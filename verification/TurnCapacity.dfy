/** The shared TURN admission pool: ordinary capacity, make-before-break handoffs that are
    charged max(old, new), per-route resizing and a queue drained in one forward pass. */
module TurnCapacity {
  import opened Totals

  const MAXIMUM_CONNECTIONS := 16
  const MAXIMUM_SOCKETS := 64
  const MAXIMUM_PATH_SOCKETS := 8
  const MAXIMUM_HANDOFF_ENDPOINTS := 2
  const MAXIMUM_QUEUED_REQUESTS := 64

  /** A 16-byte identity; zero is the unset value. */
  type Identity = nat

  /** A provider service; `valid` is the verdict of its own validation. */
  datatype Service = Service(name: nat, valid: bool)

  /** Owner, session and path: the key of a live reservation. */
  datatype PathKey = PathKey(owner: nat, session: Identity, path: Identity)

  datatype Request = Request(session: Identity, path: Identity, replacesPath: Identity, service: Service, sockets: int)
  {
    predicate Valid() {
      session != 0 && path != 0 && path != replacesPath && service.valid && 1 <= sockets <= MAXIMUM_PATH_SOCKETS
    }

    function Key(owner: nat): PathKey { PathKey(owner, session, path) }

    function PredecessorKey(owner: nat): PathKey { PathKey(owner, session, replacesPath) }
  }

  /** A reservation that has not closed. Links name live reservations; `id` tells apart two
      reservations that used the same key at different times. */
  datatype Reservation = Reservation(id: nat, request: Request, predecessor: Option<PathKey>,
                                     successor: Option<PathKey>, claimed: bool, unstarted: int)

  /** What a caller holds: the key and the incarnation. It is closed once the pool no longer has it. */
  datatype Handle = Handle(key: PathKey, id: nat)

  datatype Waiter = Waiter(id: nat, owner: nat, request: Request)

  datatype Verdict = Wait | Refuse | Grant

  datatype Outcome = Refused | Granted(handle: Handle)

  /** `routes` are the release closures not yet run; `settled` the outcome each waiter was woken with. */
  datatype State = State(paths: map<PathKey, Reservation>, queue: seq<Waiter>, connections: int, sockets: int,
                         replacements: int, routes: map<nat, Handle>, settled: map<nat, Outcome>, nextId: nat)
  {
    predicate Live(h: Handle) { h.key in paths && paths[h.key].id == h.id }
  }

  const EMPTY := State(map[], [], 0, 0, 0, map[], map[], 0)

  // ---------------------------------------------------------------- admission decision

  predicate SameHandoff(a: Request, b: Request) {
    a.session == b.session && a.path == b.path && a.replacesPath == b.replacesPath && a.service == b.service
  }

  ghost predicate HandoffAvailable(s: State, request: Request) {
    s.replacements == 0 ||
    (s.replacements < MAXIMUM_HANDOFF_ENDPOINTS &&
     exists k | k in s.paths :: s.paths[k].predecessor.Some? && SameHandoff(s.paths[k].request, request))
  }

  predicate HasPredecessor(s: State, owner: nat, request: Request) {
    request.replacesPath != 0 && request.PredecessorKey(owner) in s.paths
  }

  function Growth(request: Request, predecessor: Reservation): int {
    Max(0, request.sockets - predecessor.request.sockets)
  }

  ghost function Decide(s: State, owner: nat, request: Request): Verdict {
    if request.Key(owner) in s.paths then Refuse
    else if HasPredecessor(s, owner, request) then
      var prior := s.paths[request.PredecessorKey(owner)];
      if prior.request.service != request.service then Refuse
      else if !prior.claimed || prior.predecessor.Some? || prior.successor.Some? || !HandoffAvailable(s, request)
      then Wait
      else if s.sockets + Growth(request, prior) > MAXIMUM_SOCKETS then Wait
      else Grant
    else if s.connections >= MAXIMUM_CONNECTIONS || s.sockets + request.sockets > MAXIMUM_SOCKETS then Wait
    else Grant
  }

  function Admit(s: State, owner: nat, request: Request): State {
    var key := request.Key(owner);
    if HasPredecessor(s, owner, request) then
      var oldKey := request.PredecessorKey(owner);
      var prior := s.paths[oldKey];
      var lease := Reservation(s.nextId, request, Some(oldKey), None, false, request.sockets);
      s.(paths := s.paths[oldKey := prior.(successor := Some(key))][key := lease],
         sockets := s.sockets + Growth(request, prior), replacements := s.replacements + 1, nextId := s.nextId + 1)
    else
      var lease := Reservation(s.nextId, request, None, None, false, request.sockets);
      s.(paths := s.paths[key := lease], connections := s.connections + 1,
         sockets := s.sockets + request.sockets, nextId := s.nextId + 1)
  }

  /** Wakes the waiter at `i` with its verdict. */
  ghost function Settle(s: State, i: nat): State
    requires i < |s.queue|
  {
    var w := s.queue[i];
    var rest := s.(queue := s.queue[..i] + s.queue[i + 1..]);
    if Decide(s, w.owner, w.request) == Grant then
      var outcome := Granted(Handle(w.request.Key(w.owner), s.nextId));
      Admit(rest.(settled := s.settled[w.id := outcome]), w.owner, w.request)
    else rest.(settled := s.settled[w.id := Refused])
  }

  /** The single forward pass over the queue. */
  ghost function DrainFrom(s: State, i: nat): State
    requires i <= |s.queue|
    decreases |s.queue| - i
  {
    if i == |s.queue| then s
    else if Decide(s, s.queue[i].owner, s.queue[i].request) == Wait then DrainFrom(s, i + 1)
    else DrainFrom(Settle(s, i), i)
  }

  ghost function Drain(s: State): State { DrainFrom(s, 0) }

  // ---------------------------------------------------------------- public operations

  datatype Operation =
    | Acquire(owner: nat, request: Request)
    | Cancel(waiter: nat)
    | Claim(claimed: Handle, session: Identity, path: Identity, service: Service)
    | Close(closed: Handle)
    | StartRoute(starting: Handle, initial: bool)
    | ReleaseRoute(route: nat)

  ghost function AcquireSpec(s: State, owner: nat, request: Request): State {
    if !request.Valid() || |s.queue| >= MAXIMUM_QUEUED_REQUESTS then s
    else Drain(s.(queue := s.queue + [Waiter(s.nextId, owner, request)], nextId := s.nextId + 1))
  }

  function Without(queue: seq<Waiter>, id: nat): seq<Waiter> {
    if queue == [] then [] else if queue[0].id == id then queue[1..] else [queue[0]] + Without(queue[1..], id)
  }

  ghost function CancelSpec(s: State, waiter: nat): State {
    var left := s.(queue := Without(s.queue, waiter));
    if waiter in s.settled && s.settled[waiter].Granted? then CloseSpec(left, s.settled[waiter].handle) else left
  }

  ghost function ClaimSpec(s: State, h: Handle, session: Identity, path: Identity, service: Service): State {
    if !s.Live(h) || s.paths[h.key].claimed || h.key.session != session || h.key.path != path
       || s.paths[h.key].request.service != service then s
    else Drain(s.(paths := s.paths[h.key := s.paths[h.key].(claimed := true)]))
  }

  /** Removes a live reservation; a partner of an unfinished handoff inherits the ordinary capacity. */
  function Remove(s: State, key: PathKey): State
    requires key in s.paths
    requires s.paths[key].predecessor.Some? ==> s.paths[key].predecessor.value in s.paths
    requires s.paths[key].successor.Some? ==> s.paths[key].successor.value in s.paths
  {
    var r := s.paths[key];
    if r.predecessor.Some? then
      var prior := s.paths[r.predecessor.value];
      s.(paths := s.paths[r.predecessor.value := prior.(successor := None)] - {key},
         sockets := s.sockets - Max(0, r.request.sockets - prior.request.sockets), replacements := s.replacements - 1)
    else if r.successor.Some? then
      var next := s.paths[r.successor.value];
      s.(paths := s.paths[r.successor.value := next.(predecessor := None)] - {key},
         sockets := s.sockets - Max(0, r.request.sockets - next.request.sockets), replacements := s.replacements - 1)
    else
      s.(paths := s.paths - {key}, connections := s.connections - 1, sockets := s.sockets - r.request.sockets)
  }

  ghost predicate Removable(s: State, key: PathKey) {
    key in s.paths
    && (s.paths[key].predecessor.Some? ==> s.paths[key].predecessor.value in s.paths)
    && (s.paths[key].successor.Some? ==> s.paths[key].successor.value in s.paths)
  }

  ghost function CloseSpec(s: State, h: Handle): State {
    if !s.Live(h) || !Removable(s, h.key) then s else Drain(Remove(s, h.key))
  }

  /** How the pool counter moves when the reservation at `key` changes by `delta` sockets. */
  function SocketDelta(paths: map<PathKey, Reservation>, key: PathKey, delta: int): int
    requires key in paths
  {
    var r := paths[key];
    var other := if r.predecessor.Some? then r.predecessor else r.successor;
    if other.None? || other.value !in paths then delta
    else
      var size := paths[other.value].request.sockets;
      Max(r.request.sockets + delta, size) - Max(r.request.sockets, size)
  }

  function Resize(s: State, key: PathKey, delta: int): State
    requires key in s.paths
  {
    var r := s.paths[key];
    s.(paths := s.paths[key := r.(request := r.request.(sockets := r.request.sockets + delta))],
       sockets := s.sockets + SocketDelta(s.paths, key, delta))
  }

  predicate CanStart(s: State, h: Handle, initial: bool) {
    s.Live(h) && s.paths[h.key].claimed &&
    if initial then s.paths[h.key].unstarted != 0
    else |s.queue| == 0 && s.paths[h.key].request.sockets < MAXIMUM_PATH_SOCKETS
         && s.sockets + SocketDelta(s.paths, h.key, 1) <= MAXIMUM_SOCKETS
  }

  function StartRouteSpec(s: State, h: Handle, initial: bool): State {
    if !CanStart(s, h, initial) then s
    else
      var charged :=
        if initial then s.(paths := s.paths[h.key := s.paths[h.key].(unstarted := s.paths[h.key].unstarted - 1)])
        else Resize(s, h.key, 1);
      charged.(routes := s.routes[s.nextId := h], nextId := s.nextId + 1)
  }

  ghost function ReleaseRouteSpec(s: State, route: nat): State {
    if route !in s.routes then s
    else
      var once := s.(routes := s.routes - {route});
      if s.Live(s.routes[route]) then Drain(Resize(once, s.routes[route].key, -1)) else once
  }

  ghost function Step(s: State, op: Operation): State {
    match op
    case Acquire(owner, request) => AcquireSpec(s, owner, request)
    case Cancel(waiter) => CancelSpec(s, waiter)
    case Claim(h, session, path, service) => ClaimSpec(s, h, session, path, service)
    case Close(h) => CloseSpec(s, h)
    case StartRoute(h, initial) => StartRouteSpec(s, h, initial)
    case ReleaseRoute(route) => ReleaseRouteSpec(s, route)
  }

  /** The state after any history of operations. */
  ghost function Run(ops: seq<Operation>): State {
    if ops == [] then EMPTY else Step(Run(ops[..|ops| - 1]), ops[|ops| - 1])
  }

  // ---------------------------------------------------------------- the ledger invariant

  /** What a path adds to the socket counter: its size alone, max(old, new) for a predecessor
      with its successor, and nothing more for that successor. */
  function Charge(paths: map<PathKey, Reservation>, key: PathKey): int
    requires key in paths
  {
    var r := paths[key];
    if r.predecessor.Some? then 0
    else if r.successor.Some? && r.successor.value in paths
    then Max(r.request.sockets, paths[r.successor.value].request.sockets)
    else r.request.sockets
  }

  ghost function Charges(paths: map<PathKey, Reservation>): map<PathKey, int> {
    map k | k in paths :: Charge(paths, k)
  }

  ghost function Sizes(paths: map<PathKey, Reservation>): map<PathKey, int> {
    map k | k in paths :: paths[k].request.sockets
  }

  ghost function Successors(paths: map<PathKey, Reservation>): set<PathKey> {
    set k | k in paths && paths[k].predecessor.Some?
  }

  ghost function RoutesOf(routes: map<nat, Handle>, h: Handle): set<nat> {
    set i | i in routes && routes[i] == h
  }

  ghost predicate Keyed(s: State) {
    && (forall k | k in s.paths ::
          s.paths[k].request.session == k.session && s.paths[k].request.path == k.path && s.paths[k].id < s.nextId)
    && (forall i | i in s.routes :: i < s.nextId && s.routes[i].id < s.nextId)
    && (forall i | i in s.settled :: i < s.nextId)
    && (forall w | w in s.queue :: w.id < s.nextId && w.request.Valid())
  }

  /** The links of one path: a successor names its predecessor and conversely, and no path is both. */
  ghost predicate Linked(paths: map<PathKey, Reservation>, k: PathKey)
    requires k in paths
  {
    var r := paths[k];
    && (r.predecessor.Some? ==>
          && r.successor.None?
          && r.request.replacesPath != 0
          && r.predecessor.value == r.request.PredecessorKey(k.owner)
          && r.predecessor.value in paths
          && paths[r.predecessor.value].successor == Some(k)
          && paths[r.predecessor.value].request.service == r.request.service)
    && (r.successor.Some? ==>
          && r.predecessor.None?
          && r.claimed
          && r.successor.value in paths
          && paths[r.successor.value].predecessor == Some(k))
  }

  /** Predecessor and successor links form a matching without chains. */
  ghost predicate Matched(paths: map<PathKey, Reservation>) {
    forall k {:trigger Linked(paths, k)} | k in paths :: Linked(paths, k)
  }

  /** A reservation is its unstarted prepaid routes plus its started, unreleased ones. */
  ghost predicate RoutesCounted(routes: map<nat, Handle>, k: PathKey, r: Reservation) {
    && 0 <= r.unstarted
    && r.request.sockets == r.unstarted + |RoutesOf(routes, Handle(k, r.id))|
    && r.request.sockets <= MAXIMUM_PATH_SOCKETS
  }

  ghost predicate AllRoutesCounted(s: State) {
    forall k {:trigger RoutesCounted(s.routes, k, s.paths[k])} | k in s.paths :: RoutesCounted(s.routes, k, s.paths[k])
  }

  ghost predicate Ledger(s: State) {
    && s.replacements == |Successors(s.paths)|
    && s.connections == |s.paths| - s.replacements
    && s.sockets == Sum(Charges(s.paths))
  }

  ghost predicate Limits(s: State) {
    && s.connections <= MAXIMUM_CONNECTIONS && s.sockets <= MAXIMUM_SOCKETS
    && s.replacements <= MAXIMUM_HANDOFF_ENDPOINTS && |s.queue| <= MAXIMUM_QUEUED_REQUESTS
  }

  /** Concurrent handoffs are the two endpoints of one handoff. */
  ghost predicate OneHandoff(paths: map<PathKey, Reservation>) {
    forall j, k | j in Successors(paths) && k in Successors(paths) :: SameHandoff(paths[j].request, paths[k].request)
  }

  ghost predicate Inv(s: State) {
    Keyed(s) && Matched(s.paths) && AllRoutesCounted(s) && Ledger(s) && Limits(s) && OneHandoff(s.paths)
  }

  /** No waiter is left behind that the pool could admit now. */
  ghost predicate NoneGrantable(s: State) {
    forall w | w in s.queue :: Decide(s, w.owner, w.request) != Grant
  }
}
