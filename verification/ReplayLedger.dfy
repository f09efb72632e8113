/** The sender's replay and evidence ledger: active attempts, replay tombstones and the per-path sequence
    watermark that outlives both. Every locked section is one step; clock readings are inputs. */
module ReplayLedger {
  import opened Totals

  type Operation = nat
  type Path = nat

  const MAXIMUM_ACTIVE_ATTEMPTS := 8

  /** `valid` says whether the identity passes its own validation. */
  datatype Binding = Binding(path: Path, attempt: nat, sequence: nat, valid: bool)

  datatype Active = Active(binding: Binding, id: nat)

  datatype Tombstone = Tombstone(operation: Operation, binding: Binding, expiresAt: nat)

  datatype Config = Config(maximumRetired: nat, ttl: nat, maximumPaths: nat)

  /** `started` lists, per path, the sequences started since the path was last retired. */
  datatype State = State(config: Config, attempts: map<Operation, Active>, bindings: map<Binding, Operation>,
                         retiredOperations: map<Operation, Tombstone>, retiredBindings: map<Binding, Tombstone>,
                         claims: map<Binding, Operation>, latest: map<Path, Binding>, blockedUntil: nat, stopping: bool,
                         nextId: nat, started: map<Path, seq<nat>>)

  function Start(config: Config): State { State(config, map[], map[], map[], map[], map[], map[], 0, false, 0, map[]) }

  // ---------------------------------------------------------------- evidence

  datatype Claim = Claim(acquired: bool, capacity: bool)

  function ClaimVerdict(s: State, b: Binding): Claim {
    if !b.valid then Claim(false, false)
    else if b.path in s.latest then Claim(b.sequence > s.latest[b.path].sequence, false)
    else if |s.latest| >= s.config.maximumPaths then Claim(false, true)
    else Claim(true, false)
  }

  function ClaimEvidence(s: State, operation: Operation, b: Binding): State {
    if !ClaimVerdict(s, b).acquired then s
    else
      var claims := if b.path in s.latest then s.claims - {s.latest[b.path]} else s.claims;
      s.(latest := s.latest[b.path := b], claims := claims[b := operation])
  }

  predicate Claimed(s: State, b: Binding) { b.path in s.latest && b.sequence <= s.latest[b.path].sequence }

  function RetirePath(s: State, path: Path): State {
    if path !in s.latest then s
    else s.(claims := s.claims - {s.latest[path]}, latest := s.latest - {path}, started := s.started - {path})
  }

  // ---------------------------------------------------------------- tombstones

  predicate Outlives(t: Tombstone, now: nat) { now < t.expiresAt }

  /** Tombstones whose time has come leave both tables. */
  function Expire(s: State, now: nat): State {
    s.(retiredOperations := map o | o in s.retiredOperations && Outlives(s.retiredOperations[o], now) ::
       s.retiredOperations[o], retiredBindings := map b | b in s.retiredBindings
         && !(s.retiredBindings[b].operation in s.retiredOperations
              && s.retiredOperations[s.retiredBindings[b].operation].binding == b
              && !Outlives(s.retiredOperations[s.retiredBindings[b].operation], now)) :: s.retiredBindings[b])
  }

  /** Tombstones behind a path's watermark are dispensable once the path moves on. */
  function ForgetPath(s: State, path: Path): State {
    s.(retiredOperations := map o | o in s.retiredOperations && s.retiredOperations[o].binding.path != path ::
       s.retiredOperations[o], retiredBindings := s.retiredBindings
         - (set o | o in s.retiredOperations && s.retiredOperations[o].binding.path == path ::
            s.retiredOperations[o].binding))
  }

  function Bury(s: State, operation: Operation, b: Binding, now: nat): State {
    var tombstone := Tombstone(operation, b, now + s.config.ttl);
    s.(retiredOperations := s.retiredOperations[operation := tombstone],
       retiredBindings := s.retiredBindings[b := tombstone])
  }

  predicate Full(s: State) { |s.bindings| + |s.retiredBindings| >= s.config.maximumRetired }

  // ---------------------------------------------------------------- offers

  function Reject(s: State, operation: Operation, b: Binding, now: nat): State {
    var fresher := Expire(s, now);
    var claimed := ClaimEvidence(fresher, operation, b);
    if !b.valid then s
    else if b in fresher.bindings || operation in claimed.attempts || ClaimVerdict(fresher, b).capacity
       || operation in claimed.retiredOperations || b in claimed.retiredBindings || s.stopping then claimed
    else if Full(claimed) then claimed.(blockedUntil := Max(s.blockedUntil, now + s.config.ttl))
    else Bury(claimed, operation, b, now)
  }

  predicate PathBusy(s: State, path: Path) { exists b :: b in s.bindings && b.path == path }

  /** The checks a new offer has to pass before it costs anything. */
  predicate Eligible(s: State, operation: Operation, b: Binding, now: nat) {
    && now >= s.blockedUntil && operation !in s.attempts && operation !in s.retiredOperations
    && b !in s.bindings && b !in s.retiredBindings && !Claimed(s, b) && !PathBusy(s, b.path)
    && |s.attempts| < MAXIMUM_ACTIVE_ATTEMPTS
  }

  function Appended(started: map<Path, seq<nat>>, b: Binding): map<Path, seq<nat>> {
    started[b.path := (if b.path in started then started[b.path] else []) + [b.sequence]]
  }

  function Admit(s: State, operation: Operation, b: Binding): State {
    ClaimEvidence(s, operation, b).(attempts := s.attempts[operation := Active(b, s.nextId)],
                                    bindings := s.bindings[b := operation],
                                    nextId := s.nextId + 1, started := Appended(s.started, b))
  }

  /** The claim a rejected offer reports: an identity an active attempt owns is never claimed again. */
  function RejectionClaim(s: State, b: Binding, now: nat): Claim {
    if !b.valid then Claim(false, false)
    else if b in s.bindings then ClaimVerdict(Expire(s, now), b).(acquired := false)
    else ClaimVerdict(Expire(s, now), b)
  }

  predicate Starts(s: State, operation: Operation, b: Binding, pathRetired: bool, now: nat) {
    && !s.stopping && !pathRetired && Eligible(Expire(s, now), operation, b, now)
    && var lean := ForgetPath(Expire(s, now), b.path);
       !Full(lean) && ClaimVerdict(lean, b).acquired
  }

  function StartAttempt(s: State, operation: Operation, b: Binding, pathRetired: bool, now: nat): State {
    if s.stopping || pathRetired then s
    else
      var fresher := Expire(s, now);
      if !Eligible(fresher, operation, b, now) then fresher
      else
        var lean := ForgetPath(fresher, b.path);
        if Full(lean) || !ClaimVerdict(lean, b).acquired then lean else Admit(lean, operation, b)
  }

  function AttemptDone(s: State, operation: Operation, id: nat, now: nat): State {
    if operation !in s.attempts || s.attempts[operation].id != id then s
    else
      var b := s.attempts[operation].binding;
      var left := s.(attempts := s.attempts - {operation}, bindings := s.bindings - {b});
      if s.stopping then left else Bury(left, operation, b, now)
  }

  function Clear(s: State): State {
    Start(s.config).(stopping := s.stopping, nextId := s.nextId)
  }

  datatype Event =
    | Rejecting(operation: Operation, binding: Binding, now: nat)
    | Starting(operation: Operation, binding: Binding, pathRetired: bool, now: nat)
    | Ending(operation: Operation, id: nat, now: nat)
    | Expiring(now: nat)
    | Retiring(path: Path)
    | Stopping
    | Clearing

  function Step(s: State, e: Event): State {
    match e
    case Rejecting(operation, b, now) => Reject(s, operation, b, now)
    case Starting(operation, b, pathRetired, now) => StartAttempt(s, operation, b, pathRetired, now)
    case Ending(operation, id, now) => AttemptDone(s, operation, id, now)
    case Expiring(now) => Expire(s, now)
    case Retiring(path) => RetirePath(s, path)
    case Stopping => s.(stopping := true)
    case Clearing => Clear(s)
  }

  function Run(config: Config, events: seq<Event>): State {
    if events == [] then Start(config) else Step(Run(config, events[..|events| - 1]), events[|events| - 1])
  }

  // ---------------------------------------------------------------- what holds

  ghost predicate ActiveOk(s: State, o: Operation)
    requires o in s.attempts
  {
    && s.attempts[o].binding in s.bindings && s.bindings[s.attempts[o].binding] == o
    && o !in s.retiredOperations && s.attempts[o].binding !in s.retiredBindings
  }

  ghost predicate BindingOk(s: State, b: Binding)
    requires b in s.bindings
  {
    s.bindings[b] in s.attempts && s.attempts[s.bindings[b]].binding == b
  }

  ghost predicate TombstoneOk(s: State, o: Operation)
    requires o in s.retiredOperations
  {
    var t := s.retiredOperations[o];
    t.operation == o && t.binding in s.retiredBindings && s.retiredBindings[t.binding] == t
  }

  ghost predicate GraveOk(s: State, b: Binding)
    requires b in s.retiredBindings
  {
    var t := s.retiredBindings[b];
    t.binding == b && t.operation in s.retiredOperations && s.retiredOperations[t.operation] == t
  }

  /** Active operations and bindings are in bijection, retired ones too, and no name is both. */
  ghost predicate Matched(s: State) {
    && (forall o {:trigger ActiveOk(s, o)} | o in s.attempts :: ActiveOk(s, o))
    && (forall b {:trigger BindingOk(s, b)} | b in s.bindings :: BindingOk(s, b))
    && (forall o {:trigger TombstoneOk(s, o)} | o in s.retiredOperations :: TombstoneOk(s, o))
    && (forall b {:trigger GraveOk(s, b)} | b in s.retiredBindings :: GraveOk(s, b))
  }

  ghost predicate OnePerPath(s: State) {
    forall a, b | a in s.bindings && b in s.bindings && a.path == b.path :: a == b
  }

  ghost predicate Bounded(s: State) {
    && |s.bindings| + |s.retiredBindings| <= s.config.maximumRetired
    && |s.attempts| <= MAXIMUM_ACTIVE_ATTEMPTS && |s.latest| <= s.config.maximumPaths
  }

  ghost predicate Increasing(xs: seq<nat>) { forall i, j | 0 <= i < j < |xs| :: xs[i] < xs[j] }

  ghost predicate PathOk(s: State, p: Path)
    requires p in s.started
  {
    && Increasing(s.started[p]) && s.started[p] != []
    && p in s.latest && s.started[p][|s.started[p]| - 1] <= s.latest[p].sequence
  }

  /** The watermark: one claim per known path, and starts climb strictly below it. */
  ghost predicate Watermarked(s: State) {
    && (forall p | p in s.latest :: s.latest[p].path == p && s.latest[p] in s.claims)
    && (forall b | b in s.claims :: b.path in s.latest && s.latest[b.path] == b)
    && (forall p {:trigger PathOk(s, p)} | p in s.started :: PathOk(s, p))
  }

  ghost predicate Inv(s: State) { Matched(s) && OnePerPath(s) && Bounded(s) && Watermarked(s) }
}
