/** The sender's run loop over delegated TURN services: a serving path, one preparation slot and
    credential issuance in flight per service, with promotion, retirement, reconfiguration and the
    recovery budget. Every case of the loop is one atomic step; clock readings, account and
    transport verdicts arrive as inputs. */
module TurnSender {
  import opened Totals

  const MAXIMUM_ACTIVE_SERVICES := 2
  const MAXIMUM_REPLACEMENT_PATHS := 1
  const MAXIMUM_RECOVERY_REPLACEMENTS := 2

  // seconds
  const SERVICE_COOLDOWN := 30
  const REPLACEMENT_BUDGET := 90
  const TRANSPORT_CONNECT_BUDGET := 12

  /** Seconds; zero is the unset time, which is before every reading. */
  type Time = nat

  /** Identities drawn from one fresh supply: services, requests (and the path each names) and leases. */
  type Id = nat

  datatype Intent = Initial | Renewal | Recovery | Evaluation

  /** A delegated path in a slot. `replacesPath` is zero for a first path. */
  datatype Delegation = Delegation(path: Id, lease: Id, replacesPath: Id, authority: nat, created: Time,
                                   renewAt: Option<Time>, recovery: bool, recoveryUntil: Time, ready: bool, trial: bool)
  {
    predicate RenewalDue(now: Time) { renewAt.Some? && renewAt.value <= now }
  }

  datatype Preparation =
    | Idle
    | Issuing(request: Id, predecessor: Id, intent: Intent)
    | Connecting(candidate: Delegation)

  datatype Service = Service(id: Id, identity: nat, revision: nat, current: Option<Delegation>,
                             preparation: Preparation, retryAt: Time, attempts: int)

  datatype Profile = Profile(identity: nat, revision: nat)

  /** A credential request with what it captured at its start. The path it names is the request itself. */
  datatype Issued = Issued(service: Id, request: Id, sequence: nat, generation: nat, revision: nat, lease: Option<Id>,
                           failed: bool)

  datatype Stage = Running | Stopping | Closed

  /** `paths` is the lookup table; `closed` counts every release of a lease. */
  datatype State = State(services: seq<Service>, paths: set<Id>, completed: seq<Issued>, inFlight: map<Id, Issued>,
                         canceled: set<Id>, closed: multiset<Id>, issued: set<Id>, sequence: nat, generation: nat,
                         demandUntil: Time, network: nat, revision: nat, nextId: Id, stage: Stage)

  /** What one step reads from outside: two clock readings and the verdicts of credentials, accounts,
      admissions, measurements, the configuration, the network monitor and the control channel. */
  datatype Env = Env(now: Time, later: Time, invalid: set<Id>, lost: set<Id>, admitted: set<Id>, winners: set<Id>,
                     trialOver: set<Id>, progress: set<Id>, stalled: set<Id>, evaluable: set<Id>,
                     failover: map<Id, Time>, noEntropy: set<Id>, profiles: seq<Profile>, revision: nat, network: nat,
                     delivered: bool, narrowed: bool, timedOut: bool, superseded: bool, scopeChanged: bool,
                     renewAt: Option<Time>)

  // ---------------------------------------------------------------- slots

  function Pending(v: Service): Option<Delegation> {
    if v.preparation.Connecting? then Some(v.preparation.candidate) else None
  }

  predicate Preparing(v: Service) { !v.preparation.Idle? }

  /** Withdraws lookup authority and releases the lease of a path that leaves its slot. */
  function Retire(s: State, d: Delegation): State {
    s.(paths := s.paths - {d.path}, closed := s.closed + multiset{d.lease})
  }

  function CancelIssuance(s: State, v: Service): State {
    if v.preparation.Issuing? then s.(canceled := s.canceled + {v.preparation.request}) else s
  }

  /** Useful traffic on a clean path older than the cooldown restores the recovery budget. */
  function ApplyReport(v: Service, e: Env): Service {
    if v.current.Some? && v.current.value.path in e.progress && !v.current.value.recovery
       && e.now >= v.current.value.created + SERVICE_COOLDOWN
    then v.(attempts := 0) else v
  }

  function ApplyReports(services: seq<Service>, e: Env): seq<Service> {
    seq(|services|, i requires 0 <= i < |services| => ApplyReport(services[i], e))
  }

  /** A first allocation that faulted before admission spends the same budget as a replacement. */
  function CountInitialFailure(v: Service): Service {
    if v.preparation.Connecting? && v.preparation.candidate.replacesPath == 0 && v.preparation.candidate.recovery
    then v.(attempts := v.attempts + 1) else v
  }

  function SelectionFailed(v: Service, d: Delegation, e: Env): Service {
    if !d.trial && !d.ready && v.id in e.failover then v.(retryAt := e.failover[v.id]) else v
  }

  // ---------------------------------------------------------------- maintenance of one service

  predicate ContinuityDue(services: seq<Service>, now: Time) {
    exists i | 0 <= i < |services| ::
      services[i].current.Some? && (services[i].current.value.RenewalDue(now) || services[i].current.value.recovery)
  }

  /** The shared overlap slot belongs to continuity first: evaluations give way. */
  function MaintainSelection(s: State, i: nat, e: Env): (r: State)
    requires i < |s.services|
    ensures |r.services| == |s.services| && r.stage == s.stage
  {
    var v := s.services[i];
    var continuity := ContinuityDue(s.services, e.now);
    if v.preparation.Issuing? && v.preparation.intent == Evaluation && continuity then CancelIssuance(s, v)
    else if v.preparation.Connecting? && v.preparation.candidate.trial
            && (continuity || v.current.None? || v.preparation.candidate.path in e.trialOver)
    then
      Retire(s, v.preparation.candidate).(services := s.services[i := v.(preparation := Idle)])
    else s
  }

  predicate Promotable(s: State, v: Service, e: Env) {
    v.preparation.Connecting? &&
    var d := v.preparation.candidate;
    && d.ready && e.now < s.demandUntil && d.path !in e.invalid && e.now < d.created + REPLACEMENT_BUDGET
    && d.path !in e.lost && d.path in e.admitted && !d.recovery
    && (d.trial ==> v.current.Some? && d.path in e.winners)
  }

  function Promote(s: State, i: nat, e: Env): (r: State)
    requires i < |s.services|
    ensures |r.services| == |s.services| && r.stage == s.stage
  {
    var v := s.services[i];
    if !Promotable(s, v, e) then s
    else
      var promoted := v.(current := Some(v.preparation.candidate.(trial := false)), preparation := Idle);
      var moved := s.(services := s.services[i := promoted]);
      if v.current.Some? then Retire(moved, v.current.value) else moved
  }

  datatype Reason = Healthy | Unneeded | Expired | Unhelpful | Revoked

  function RetirementReason(d: Delegation, pending: bool, demand: bool, e: Env): Reason {
    var own :=
      if !demand then Unneeded
      else if d.path in e.invalid then Expired
      else if pending && e.now >= d.created + REPLACEMENT_BUDGET then Unhelpful
      else if d.path in e.lost then Revoked
      else if pending && !d.ready && d.path in e.stalled && e.now >= d.created + TRANSPORT_CONNECT_BUDGET then Unhelpful
      else Healthy;
    if d.recoveryUntil != 0 && d.recoveryUntil <= e.now then Unhelpful else own
  }

  function CoolDown(v: Service, d: Delegation, reason: Reason, e: Env): Service {
    var waiting :=
      if !d.trial && (reason == Unhelpful || reason == Expired) then v.(retryAt := e.now + SERVICE_COOLDOWN) else v;
    if reason == Unhelpful then SelectionFailed(waiting, d, e) else waiting
  }

  function RetireCurrent(s: State, i: nat, demand: bool, e: Env): (r: State)
    requires i < |s.services|
    ensures |r.services| == |s.services| && r.stage == s.stage
  {
    var v := s.services[i];
    if v.current.None? then s
    else
      var d := v.current.value;
      var reason := RetirementReason(d, false, demand, e);
      if reason == Healthy then s
      else Retire(s, d).(services := s.services[i := CoolDown(ApplyReport(v, e).(current := None), d, reason, e)])
  }

  function RetirePending(s: State, i: nat, demand: bool, e: Env): (r: State)
    requires i < |s.services|
    ensures |r.services| == |s.services| && r.stage == s.stage
  {
    var v := s.services[i];
    if !v.preparation.Connecting? then s
    else
      var d := v.preparation.candidate;
      var reason := RetirementReason(d, true, demand, e);
      if reason == Healthy then s
      else
        Retire(s, d).(services := s.services[i := CoolDown(CountInitialFailure(v).(preparation := Idle), d, reason, e)])
  }

  function MaintainService(s: State, i: nat, demand: bool, e: Env): (r: State)
    requires i < |s.services|
    ensures |r.services| == |s.services| && r.stage == s.stage
  {
    var tended := RetirePending(RetireCurrent(Promote(MaintainSelection(s, i, e), i, e), i, demand, e), i, demand, e);
    if demand then tended else CancelIssuance(tended, tended.services[i])
  }

  function MaintainFrom(s: State, i: nat, demand: bool, e: Env): (r: State)
    requires i <= |s.services|
    ensures |r.services| == |s.services| && r.stage == s.stage
    decreases |s.services| - i
  {
    if i == |s.services| then s else MaintainFrom(MaintainService(s, i, demand, e), i + 1, demand, e)
  }

  // ---------------------------------------------------------------- acquisition

  function Active(services: seq<Service>): nat {
    if services == [] then 0
    else (if services[0].current.Some? || Preparing(services[0]) then 1 else 0) + Active(services[1..])
  }

  function Overlap(services: seq<Service>): nat {
    if services == [] then 0
    else (if services[0].current.Some? && Preparing(services[0]) then 1 else 0) + Overlap(services[1..])
  }

  predicate EvaluationDue(services: seq<Service>, v: Service, e: Env) {
    v.current.Some? && !ContinuityDue(services, e.now) && v.id in e.evaluable
  }

  predicate CanAcquire(services: seq<Service>, v: Service, active: nat, overlap: nat, e: Env) {
    && v.preparation.Idle? && v.retryAt <= e.now
    && if v.current.None? then active < MAXIMUM_ACTIVE_SERVICES && v.attempts < MAXIMUM_RECOVERY_REPLACEMENTS
       else
         && overlap < MAXIMUM_REPLACEMENT_PATHS
         && (v.current.value.RenewalDue(e.now)
             || (v.current.value.recovery && v.attempts < MAXIMUM_RECOVERY_REPLACEMENTS)
             || EvaluationDue(services, v, e))
  }

  /** Starts one credential request; a failed draw of the path identity only delays the service. */
  function Acquire(s: State, i: nat, e: Env): (r: State)
    requires i < |s.services|
    ensures |r.services| == |s.services| && r.stage == s.stage
  {
    var v := s.services[i];
    if v.id in e.noEntropy then s.(services := s.services[i := v.(retryAt := e.later + SERVICE_COOLDOWN)])
    else
      var renewal := v.current.Some? && v.current.value.RenewalDue(e.later);
      var recovery := v.current.Some? && v.current.value.recovery && !renewal;
      var intent := if v.current.None? then Initial else if renewal then Renewal else if recovery then Recovery
          else Evaluation;
      var predecessor := if v.current.Some? then v.current.value.path else 0;
      var asking := v.(preparation := Issuing(s.nextId, predecessor, intent),
                       attempts := if recovery then v.attempts + 1 else v.attempts);
      s.(services := s.services[i := asking], nextId := s.nextId + 1,
         inFlight := s.inFlight[s.nextId := Issued(v.id, s.nextId, s.sequence, s.generation, v.revision, None, false)])
  }

  function AcquireFrom(s: State, i: nat, active: nat, overlap: nat, e: Env): (r: State)
    requires i <= |s.services|
    ensures |r.services| == |s.services| && r.stage == s.stage
    decreases |s.services| - i
  {
    if i == |s.services| then s
    else if !CanAcquire(s.services, s.services[i], active, overlap, e) then AcquireFrom(s, i + 1, active, overlap, e)
    else if s.services[i].current.None? then AcquireFrom(Acquire(s, i, e), i + 1, active + 1, overlap, e)
    else AcquireFrom(Acquire(s, i, e), i + 1, active, overlap + 1, e)
  }

  // ---------------------------------------------------------------- configuration and network

  function Find(services: seq<Service>, identity: nat): Option<Service> {
    if services == [] then None
    else if services[0].identity == identity then Some(services[0]) else Find(services[1..], identity)
  }

  function Listed(profiles: seq<Profile>): set<nat> {
    set i | 0 <= i < |profiles| :: profiles[i].identity
  }

  /** The service kept or created for one profile of the new inventory. */
  function Keep(services: seq<Service>, p: Profile, base: Id): Service {
    match Find(services, p.identity)
    case None => Service(base, p.identity, p.revision, None, Idle, 0, 0)
    case Some(v) => if v.revision != p.revision then v.(retryAt := 0, revision := p.revision) else v
  }

  function Rebuild(services: seq<Service>, profiles: seq<Profile>, base: Id): seq<Service> {
    if profiles == [] then []
    else [Keep(services, profiles[0], base)] + Rebuild(services, profiles[1..], base + 1)
  }

  /** The request in the preparation slot, if any. */
  function Asking(v: Service): set<Id> { if v.preparation.Issuing? then {v.preparation.request} else {} }

  /** Requests of services that stay listed under a new profile revision. */
  function Republished(services: seq<Service>, profiles: seq<Profile>): set<Id> {
    if profiles == [] then {}
    else
      (match Find(services, profiles[0].identity)
       case None => {}
       case Some(v) => if v.revision != profiles[0].revision then Asking(v) else {})
      + Republished(services, profiles[1..])
  }

  function AskingAll(services: seq<Service>): set<Id> {
    if services == [] then {} else Asking(services[0]) + AskingAll(services[1..])
  }

  function Removed(services: seq<Service>, listed: set<nat>): seq<Service> {
    if services == [] then []
    else (if services[0].identity in listed then [] else [services[0]]) + Removed(services[1..], listed)
  }

  function Leases(v: Service): multiset<Id> {
    (if v.current.Some? then multiset{v.current.value.lease} else multiset{})
    + (if v.preparation.Connecting? then multiset{v.preparation.candidate.lease} else multiset{})
  }

  function Paths(v: Service): multiset<Id> {
    (if v.current.Some? then multiset{v.current.value.path} else multiset{})
    + (if v.preparation.Connecting? then multiset{v.preparation.candidate.path} else multiset{})
  }

  function SlotLeases(services: seq<Service>): multiset<Id> {
    if services == [] then multiset{} else Leases(services[0]) + SlotLeases(services[1..])
  }

  function SlotPaths(services: seq<Service>): multiset<Id> {
    if services == [] then multiset{} else Paths(services[0]) + SlotPaths(services[1..])
  }

  /** A newer inventory replaces the service list; the slots of removed services are retired. */
  function RefreshConfiguration(s: State, e: Env): State {
    if e.revision == s.revision then s
    else
      var gone := Removed(s.services, Listed(e.profiles));
      s.(services := Rebuild(s.services, e.profiles, s.nextId), nextId := s.nextId + |e.profiles|,
         paths := (set p | p in s.paths && p !in SlotPaths(gone)), closed := s.closed + SlotLeases(gone),
         canceled := s.canceled + Republished(s.services, e.profiles) + AskingAll(gone), revision := e.revision)
  }

  function OnNewNetwork(v: Service): Service {
    if v.attempts != 0 then v.(retryAt := 0, attempts := 0) else v
  }

  function RefreshNetwork(s: State, e: Env): State {
    if e.network == s.network then s
    else s.(network := e.network,
            services := seq(|s.services|, i requires 0 <= i < |s.services| => OnNewNetwork(s.services[i])))
  }

  // ---------------------------------------------------------------- the cases of the run loop

  function Refreshed(s: State, e: Env): State { RefreshNetwork(RefreshConfiguration(s, e), e) }

  /** The two passes over the services: tend every slot, then start what the limits allow. */
  function Tend(s: State, demand: bool, e: Env): (r: State)
    ensures r.stage == s.stage
  {
    var tended := MaintainFrom(s, 0, demand, e);
    if demand then AcquireFrom(tended, 0, Active(tended.services), Overlap(tended.services), e) else tended
  }

  function Maintain(s: State, e: Env): (r: State)
    ensures r.stage == s.stage
  {
    Tend(Refreshed(s.(services := ApplyReports(s.services, e)), e), e.now < s.demandUntil, e)
  }

  /** Demand that starts anew opens a generation and restores every recovery budget. */
  function Renew(s: State, sequence: nat, hold: nat, e: Env): State {
    var renewed :=
      if hold == 0 || e.now >= s.demandUntil then
        s.(generation := s.generation + 1,
           services := seq(|s.services|, i requires 0 <= i < |s.services| => s.services[i].(attempts := 0)))
      else s;
    renewed.(sequence := sequence, demandUntil := e.now + hold)
  }

  function Demand(s: State, sequence: nat, hold: nat, e: Env): (r: State)
    ensures r.stage == s.stage
  {
    if sequence <= s.sequence then s else Maintain(Renew(s, sequence, hold, e), e)
  }

  predicate Names(d: Option<Delegation>, path: Id, authority: nat) {
    d.Some? && d.value.path == path && d.value.authority == authority
  }

  function MarkReady(v: Service, path: Id, authority: nat): Service {
    if Names(Pending(v), path, authority)
    then v.(preparation := Connecting(v.preparation.candidate.(ready := true))) else v
  }

  function ReadyFrom(s: State, i: nat, path: Id, authority: nat, e: Env): (r: State)
    requires i <= |s.services|
    ensures r.stage == s.stage
    decreases |s.services| - i
  {
    if i == |s.services| then s
    else
      var v := s.services[i];
      var marked := s.(services := s.services[i := MarkReady(v, path, authority)]);
      ReadyFrom(if Names(Pending(v), path, authority) then Promote(marked, i, e) else s, i + 1, path, authority, e)
  }

  function WithdrawCurrent(s: State, i: nat, path: Id, authority: nat, retryAt: Time, e: Env): (r: State)
    requires i < |s.services|
    ensures |r.services| == |s.services| && r.stage == s.stage
  {
    var v := s.services[i];
    if Names(v.current, path, authority)
    then
      Retire(s, v.current.value).(services := s.services[i := ApplyReport(v, e).(current := None, retryAt := retryAt)])
    else s
  }

  /** The receiver gave a path up: it leaves whichever slot holds it. */
  function Withdraw(s: State, i: nat, path: Id, authority: nat, retryAt: Time, e: Env): (r: State)
    requires i < |s.services|
    ensures |r.services| == |s.services| && r.stage == s.stage
  {
    var served := WithdrawCurrent(s, i, path, authority, retryAt, e);
    var v := served.services[i];
    if Names(Pending(v), path, authority) then
      var d := v.preparation.candidate;
      var counted := CountInitialFailure(v).(preparation := Idle);
      var delayed := if d.trial then counted else counted.(retryAt := retryAt);
      Retire(served, d).(services := served.services[i := SelectionFailed(delayed, d, e)])
    else served
  }

  function WithdrawFrom(s: State, i: nat, path: Id, authority: nat, retryAt: Time, e: Env): (r: State)
    requires i <= |s.services|
    ensures r.stage == s.stage
    decreases |s.services| - i
  {
    if i == |s.services| then s
    else WithdrawFrom(Withdraw(s, i, path, authority, retryAt, e), i + 1, path, authority, retryAt, e)
  }

  function IndexOf(services: seq<Service>, id: Id): (i: nat)
    ensures i <= |services|
    ensures i < |services| ==> services[i].id == id
  {
    if services == [] then 0 else if services[0].id == id then 0 else 1 + IndexOf(services[1..], id)
  }

  /** Why a finished request is not installed; the order of the checks does not matter here. */
  predicate Discarded(s: State, i: nat, result: Issued, e: Env)
    requires i <= |s.services|
  {
    i == |s.services| ||
    var v := s.services[i];
    || v.revision != result.revision || e.superseded
    || !v.preparation.Issuing? || v.preparation.request != result.request
    || result.generation != s.generation || e.now >= s.demandUntil || result.request in s.canceled
    || (v.preparation.predecessor != 0
        && (v.current.None? || v.current.value.path != v.preparation.predecessor))
    || (v.preparation.intent == Evaluation && e.scopeChanged)
  }

  function CloseLease(s: State, lease: Option<Id>): State {
    if lease.Some? then s.(closed := s.closed + multiset{lease.value}) else s
  }

  function Defer(v: Service, intent: Intent, e: Env): Service {
    if intent == Evaluation then v else v.(retryAt := e.now + SERVICE_COOLDOWN)
  }

  /** Only the owning request frees the preparation slot. */
  function Release(s: State, i: nat, request: Id): State
    requires i <= |s.services|
  {
    if i < |s.services| && s.services[i].preparation.Issuing? && s.services[i].preparation.request == request
    then s.(services := s.services[i := s.services[i].(preparation := Idle)]) else s
  }

  function Grant(v: Service, result: Issued, e: Env): Delegation
    requires result.lease.Some?
  {
    Delegation(result.request, result.lease.value, if v.current.Some? then v.current.value.path else 0,
               result.sequence, e.now, e.renewAt, false, 0, false, v.preparation.Issuing?
               && v.preparation.intent == Evaluation)
  }

  /** The verdict on a result already taken from the queue, against the refreshed configuration. */
  function Place(s: State, result: Issued, e: Env): (r: State)
    ensures r.stage == s.stage
  {
    var i := IndexOf(s.services, result.service);
    if Discarded(s, i, result, e) then Maintain(CloseLease(Release(s, i, result.request), result.lease), e)
    else
      var v := s.services[i];
      if result.failed || e.timedOut || result.lease.None? || !e.narrowed || !e.delivered then
        var freed := Defer(v.(preparation := Idle), v.preparation.intent, e);
        CloseLease(s, result.lease).(services := s.services[i := freed])
      else
        var d := Grant(v, result, e);
        s.(paths := s.paths + {d.path}, services := s.services[i := v.(preparation := Connecting(d))])
  }

  function Install(s: State, e: Env): (r: State)
    requires s.completed != []
    ensures r.stage == s.stage
  {
    Place(Refreshed(s.(completed := s.completed[1..]), e), s.completed[0], e)
  }

  /** A transport callback reports a fault; the loop consumes it later. */
  function Fault(d: Delegation, mismatch: bool, e: Env): Delegation {
    if mismatch && d.recoveryUntil == 0 then d.(recovery := true, recoveryUntil := e.now + REPLACEMENT_BUDGET)
    else d.(recovery := true)
  }

  function Recovering(v: Service, path: Id, mismatch: bool, e: Env): Service {
    var served :=
      if v.current.Some? && v.current.value.path == path
      then v.(current := Some(Fault(v.current.value, mismatch, e))) else v;
    if served.preparation.Connecting? && served.preparation.candidate.path == path
    then served.(preparation := Connecting(Fault(served.preparation.candidate, mismatch, e))) else served
  }

  function Recover(s: State, path: Id, mismatch: bool, e: Env): State {
    if path !in s.paths then s
    else s.(services := seq(|s.services|,
                            i requires 0 <= i < |s.services| => Recovering(s.services[i], path, mismatch, e)))
  }

  datatype Event =
    | Tick
    | Demanded(sequence: nat, hold: nat)
    | Readied(path: Id, authority: nat)
    | Retired(path: Id, authority: nat, idle: bool)
    | Faulted(path: Id, mismatch: bool)
    | Finished(request: Id, gotLease: bool, failed: bool)
    | Installing
    | Stop
    | Abandoned(request: Id, gotLease: bool)
    | Shutdown

  /** A request goroutine ends: its lease, if any, is issued now and queued, or released by the request
      itself when the loop's context ended first, whether or not the loop has noticed. */
  function Finish(s: State, request: Id, gotLease: bool, failed: bool, queued: bool): State {
    if request !in s.inFlight then s
    else
      var lease := if gotLease then Some(s.nextId) else None;
      var ended := s.(inFlight := s.inFlight - {request}, nextId := s.nextId + 1,
                      issued := if gotLease then s.issued + {s.nextId} else s.issued);
      if queued then ended.(completed := s.completed + [s.inFlight[request].(lease := lease, failed := failed)])
      else CloseLease(ended, lease)
  }

  function QueuedLeases(completed: seq<Issued>): multiset<Id> {
    if completed == [] then multiset{}
    else
      (if completed[0].lease.Some? then multiset{completed[0].lease.value} else multiset{})
      + QueuedLeases(completed[1..])
  }

  /** After the loop ended and every request goroutine returned, everything held is released. */
  function ShutDown(s: State): State {
    s.(closed := s.closed + QueuedLeases(s.completed) + SlotLeases(s.services), completed := [], services := [],
       stage := Closed)
  }

  function Step(s: State, event: Event, e: Env): State {
    match s.stage
    case Running => (
      match event
      case Tick => Maintain(s, e)
      case Demanded(sequence, hold) => Demand(s, sequence, hold, e)
      case Readied(path, authority) => ReadyFrom(s, 0, path, authority, e)
      case Retired(path, authority, idle) =>
        WithdrawFrom(s, 0, path, authority, if idle then e.now else e.now + SERVICE_COOLDOWN, e)
      case Faulted(path, mismatch) => Recover(s, path, mismatch, e)
      case Finished(request, gotLease, failed) => Finish(s, request, gotLease, failed, true)
      case Installing => if s.completed == [] then s else Install(s, e)
      case Stop => s.(paths := {}, stage := Stopping)
      case Abandoned(request, gotLease) => Finish(s, request, gotLease, true, false)
      case Shutdown => s)
    case Stopping => (
      match event
      case Finished(request, gotLease, failed) => Finish(s, request, gotLease, failed, true)
      case Abandoned(request, gotLease) => Finish(s, request, gotLease, true, false)
      case Shutdown => if s.inFlight == map[] then ShutDown(s) else s
      case _ => s)
    case Closed => s
  }
}
