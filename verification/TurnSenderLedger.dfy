/** What every run of the sender loop keeps: the slot limits, the lookup table, the place of every
    lease and the recovery budget. */
module TurnSenderLedger {
  import opened Totals
  import opened TurnSender

  // ---------------------------------------------------------------- how often an identity occurs

  function Occurs(d: Option<Id>, x: Id): nat { if d == Some(x) then 1 else 0 }

  function LeaseIn(v: Service, x: Id): nat {
    (if v.current.Some? && v.current.value.lease == x then 1 else 0)
    + (if v.preparation.Connecting? && v.preparation.candidate.lease == x then 1 else 0)
  }

  function PathIn(v: Service, x: Id): nat {
    (if v.current.Some? && v.current.value.path == x then 1 else 0)
    + (if v.preparation.Connecting? && v.preparation.candidate.path == x then 1 else 0)
  }

  function LeaseTotal(services: seq<Service>, x: Id): nat {
    if services == [] then 0 else LeaseIn(services[0], x) + LeaseTotal(services[1..], x)
  }

  function PathTotal(services: seq<Service>, x: Id): nat {
    if services == [] then 0 else PathIn(services[0], x) + PathTotal(services[1..], x)
  }

  function QueuedTotal(completed: seq<Issued>, x: Id): nat {
    if completed == [] then 0 else Occurs(completed[0].lease, x) + QueuedTotal(completed[1..], x)
  }

  function RequestTotal(completed: seq<Issued>, x: Id): nat {
    if completed == [] then 0 else Occurs(Some(completed[0].request), x) + RequestTotal(completed[1..], x)
  }

  // ---------------------------------------------------------------- the invariant

  /** Every issued lease is in exactly one place: a slot, the completion queue, or released once. */
  ghost predicate Conserved(s: State) {
    forall x: Id {:trigger LeaseTotal(s.services, x)} ::
      LeaseTotal(s.services, x) + QueuedTotal(s.completed, x) + s.closed[x] == if x in s.issued then 1 else 0
  }

  /** The lookup table holds exactly the paths in slots, each in one slot. */
  ghost predicate LookupExact(s: State) {
    s.stage == Running ==>
      forall x: Id {:trigger PathTotal(s.services, x)} :: PathTotal(s.services, x) == if x in s.paths then 1 else 0
  }

  /** Uses of a path identity: in a slot, queued, or being requested. */
  function Tickets(s: State, x: Id): nat {
    PathTotal(s.services, x) + RequestTotal(s.completed, x) + (if x in s.inFlight then 1 else 0)
  }

  ghost predicate Ticketed(s: State) {
    && (forall x: Id {:trigger Tickets(s, x)} :: Tickets(s, x) <= 1 && (Tickets(s, x) == 1 ==> 0 < x < s.nextId))
    && (forall r | r in s.inFlight :: s.inFlight[r].request == r && s.inFlight[r].lease.None?)
    && (forall x | x in s.issued :: x < s.nextId)
    && 0 < s.nextId
  }

  ghost predicate SlotsBounded(s: State) {
    Active(s.services) <= MAXIMUM_ACTIVE_SERVICES && Overlap(s.services) <= MAXIMUM_REPLACEMENT_PATHS
  }

  /** The budget of one service: never above the limit, and below it while a first path is prepared. */
  predicate Budgeted(v: Service) {
    && 0 <= v.attempts <= MAXIMUM_RECOVERY_REPLACEMENTS
    && (v.preparation.Issuing? && v.preparation.predecessor == 0 ==> v.attempts < MAXIMUM_RECOVERY_REPLACEMENTS)
    && (v.preparation.Connecting? && v.preparation.candidate.replacesPath == 0 ==>
        v.attempts < MAXIMUM_RECOVERY_REPLACEMENTS)
  }

  ghost predicate AllBudgeted(services: seq<Service>) {
    forall i | 0 <= i < |services| :: Budgeted(services[i])
  }

  ghost predicate Distinct(services: seq<Service>) {
    forall i, j | 0 <= i < j < |services| :: services[i].identity != services[j].identity
  }

  ghost predicate Inv(s: State) {
    Conserved(s) && LookupExact(s) && Ticketed(s) && SlotsBounded(s) && AllBudgeted(s.services) && Distinct(s.services)
  }

  /** The clock does not run back within a step, and an inventory lists a service once. */
  ghost predicate Admissible(e: Env) {
    e.now <= e.later && ListedOnce(e.profiles)
  }

  ghost predicate ListedOnce(profiles: seq<Profile>) {
    forall i, j | 0 <= i < j < |profiles| :: profiles[i].identity != profiles[j].identity
  }

  // ---------------------------------------------------------------- totals of the service list

  function IsActive(v: Service): nat { if v.current.Some? || Preparing(v) then 1 else 0 }

  function IsOverlapping(v: Service): nat { if v.current.Some? && Preparing(v) then 1 else 0 }

  lemma {:induction false} SlotUpdate(services: seq<Service>, i: nat, v: Service, x: Id)
    requires i < |services|
    ensures LeaseTotal(services[i := v], x) + LeaseIn(services[i], x) == LeaseTotal(services, x) + LeaseIn(v, x)
    ensures PathTotal(services[i := v], x) + PathIn(services[i], x) == PathTotal(services, x) + PathIn(v, x)
  {
    if i > 0 {
      assert services[i := v][1..] == services[1..][i - 1 := v];
      SlotUpdate(services[1..], i - 1, v, x);
    } else {
      assert services[i := v][1..] == services[1..];
    }
  }

  lemma {:induction false} CountUpdate(services: seq<Service>, i: nat, v: Service)
    requires i < |services|
    ensures Active(services[i := v]) + IsActive(services[i]) == Active(services) + IsActive(v)
    ensures Overlap(services[i := v]) + IsOverlapping(services[i]) == Overlap(services) + IsOverlapping(v)
  {
    if i > 0 {
      assert services[i := v][1..] == services[1..][i - 1 := v];
      CountUpdate(services[1..], i - 1, v);
    } else {
      assert services[i := v][1..] == services[1..];
    }
  }

  predicate SamePlaces(a: Service, b: Service) {
    && a.identity == b.identity && a.current.Some? == b.current.Some? && Preparing(a) == Preparing(b)
    && a.preparation.Connecting? == b.preparation.Connecting?
    && (a.current.Some? ==>
        a.current.value.lease == b.current.value.lease && a.current.value.path == b.current.value.path)
    && (a.preparation.Connecting? ==> a.preparation.candidate.lease == b.preparation.candidate.lease
                                      && a.preparation.candidate.path == b.preparation.candidate.path)
  }

  /** Two lists whose services hold the same slots have the same totals. */
  lemma {:induction false} SameSlots(a: seq<Service>, b: seq<Service>)
    requires |a| == |b| && forall i | 0 <= i < |a| :: SamePlaces(a[i], b[i])
    ensures forall x: Id :: LeaseTotal(a, x) == LeaseTotal(b, x) && PathTotal(a, x) == PathTotal(b, x)
    ensures Active(a) == Active(b) && Overlap(a) == Overlap(b)
  {
    if a != [] {
      assert SamePlaces(a[0], b[0]);
      SameSlots(a[1..], b[1..]);
      assert forall x: Id :: LeaseIn(a[0], x) == LeaseIn(b[0], x) && PathIn(a[0], x) == PathIn(b[0], x);
    }
  }

  // ---------------------------------------------------------------- two kinds of slot edits

  /** The service list changes without moving a path: tables and queue stay as they were. */
  lemma RewriteKeeps(s: State, t: State)
    requires Inv(s) && |t.services| == |s.services| && AllBudgeted(t.services)
    requires forall i | 0 <= i < |s.services| :: SamePlaces(t.services[i], s.services[i])
    requires t == s.(services := t.services, canceled := t.canceled, sequence := t.sequence, generation := t.generation,
                     demandUntil := t.demandUntil, network := t.network)
    ensures Inv(t)
  {
    SameSlots(t.services, s.services);
    assert forall x: Id :: Tickets(t, x) == Tickets(s, x);
  }

  /** The edit of one slot, before what happens to the path that moves. */
  ghost predicate Moves(s: State, i: nat, v: Service, d: Option<Delegation>) {
    && i < |s.services| && Budgeted(v) && v.identity == s.services[i].identity
    && (forall x: Id ::
        LeaseIn(v, x) + (if d.Some? then Occurs(Some(d.value.lease), x) else 0) == LeaseIn(s.services[i], x))
    && (forall x: Id ::
        PathIn(v, x) + (if d.Some? then Occurs(Some(d.value.path), x) else 0) == PathIn(s.services[i], x))
    && IsActive(v) <= IsActive(s.services[i]) && IsOverlapping(v) <= IsOverlapping(s.services[i])
  }

  lemma MoveSlots(s: State, i: nat, v: Service, d: Option<Delegation>)
    requires Moves(s, i, v, d) && SlotsBounded(s) && AllBudgeted(s.services)
    ensures var next := s.services[i := v];
            && SlotsBounded(s.(services := next)) && AllBudgeted(next)
            && (forall x: Id ::
                LeaseTotal(next, x) + (if d.Some? then Occurs(Some(d.value.lease), x) else 0)
                    == LeaseTotal(s.services, x))
            && (forall x: Id ::
                PathTotal(next, x) + (if d.Some? then Occurs(Some(d.value.path), x) else 0) == PathTotal(s.services, x))
  {
    var next := s.services[i := v];
    CountUpdate(s.services, i, v);
    forall x: Id
      ensures LeaseTotal(next, x) + (if d.Some? then Occurs(Some(d.value.lease), x) else 0) == LeaseTotal(s.services, x)
      ensures PathTotal(next, x) + (if d.Some? then Occurs(Some(d.value.path), x) else 0) == PathTotal(s.services, x)
    {
      SlotUpdate(s.services, i, v, x);
      assert LeaseIn(v, x) + (if d.Some? then Occurs(Some(d.value.lease), x) else 0) == LeaseIn(s.services[i], x);
      assert PathIn(v, x) + (if d.Some? then Occurs(Some(d.value.path), x) else 0) == PathIn(s.services[i], x);
    }
  }

  /** A path leaves its slot and is retired. */
  lemma RetireKeeps(s: State, t: State, i: nat, v: Service, d: Delegation)
    requires Inv(s) && s.stage == Running && Moves(s, i, v, Some(d))
    requires t == Retire(s, d).(services := s.services[i := v])
    ensures Inv(t)
  {
    MoveSlots(s, i, v, Some(d));
    RetireBooks(s, t, d);
  }

  lemma RetireBooks(s: State, t: State, d: Delegation)
    requires Conserved(s) && LookupExact(s) && Ticketed(s) && s.stage == Running
    requires t == Retire(s, d).(services := t.services)
    requires forall x: Id :: LeaseTotal(t.services, x) + Occurs(Some(d.lease), x) == LeaseTotal(s.services, x)
    requires forall x: Id :: PathTotal(t.services, x) + Occurs(Some(d.path), x) == PathTotal(s.services, x)
    ensures Conserved(t) && LookupExact(t) && Ticketed(t)
  {
    forall x: Id ensures LeaseTotal(t.services, x) + QueuedTotal(t.completed, x) + t.closed[x] == if x in t.issued
        then 1 else 0 {
      assert LeaseTotal(t.services, x) + Occurs(Some(d.lease), x) == LeaseTotal(s.services, x);
    }
    forall x: Id ensures PathTotal(t.services, x) == if x in t.paths then 1 else 0 {
      assert PathTotal(t.services, x) + Occurs(Some(d.path), x) == PathTotal(s.services, x);
    }
    forall x: Id ensures Tickets(t, x) <= 1 && (Tickets(t, x) == 1 ==> 0 < x < t.nextId) {
      assert PathTotal(t.services, x) + Occurs(Some(d.path), x) == PathTotal(s.services, x);
      assert Tickets(s, x) <= 1;
    }
  }

  /** A service changes in place. */
  lemma EditKeeps(s: State, t: State, i: nat, v: Service)
    requires Inv(s) && i < |s.services| && Budgeted(v) && v.identity == s.services[i].identity
    requires (forall x: Id :: LeaseIn(v, x) == LeaseIn(s.services[i], x))
             && (forall x: Id :: PathIn(v, x) == PathIn(s.services[i], x))
    requires IsActive(v) <= IsActive(s.services[i]) && IsOverlapping(v) <= IsOverlapping(s.services[i])
    requires t == s.(services := s.services[i := v], canceled := t.canceled)
    ensures Inv(t)
  {
    MoveSlots(s, i, v, None);
    assert forall x: Id :: LeaseTotal(t.services, x) == LeaseTotal(s.services, x);
    assert forall x: Id :: PathTotal(t.services, x) == PathTotal(s.services, x);
    assert forall x: Id :: Tickets(t, x) == Tickets(s, x);
  }

  // ---------------------------------------------------------------- maintenance of one service

  lemma SelectionKeeps(s: State, i: nat, e: Env)
    requires Inv(s) && s.stage == Running && i < |s.services|
    ensures Inv(MaintainSelection(s, i, e))
  {
    var v := s.services[i];
    var t := MaintainSelection(s, i, e);
    if t.services != s.services {
      RetireKeeps(s, t, i, v.(preparation := Idle), v.preparation.candidate);
    } else {
      assert forall x: Id :: Tickets(t, x) == Tickets(s, x);
    }
  }

  lemma PromoteKeeps(s: State, i: nat, e: Env)
    requires Inv(s) && s.stage == Running && i < |s.services|
    ensures Inv(Promote(s, i, e))
  {
    var v := s.services[i];
    if Promotable(s, v, e) {
      var promoted := v.(current := Some(v.preparation.candidate.(trial := false)), preparation := Idle);
      var t := Promote(s, i, e);
      if v.current.Some? {
        assert t == Retire(s, v.current.value).(services := s.services[i := promoted]);
        RetireKeeps(s, t, i, promoted, v.current.value);
      } else {
        EditKeeps(s, t, i, promoted);
      }
    }
  }

  lemma RetireCurrentKeeps(s: State, i: nat, demand: bool, e: Env)
    requires Inv(s) && s.stage == Running && i < |s.services|
    ensures Inv(RetireCurrent(s, i, demand, e))
  {
    var v := s.services[i];
    var t := RetireCurrent(s, i, demand, e);
    if t != s {
      RetireKeeps(s, t, i, t.services[i], v.current.value);
    }
  }

  lemma RetirePendingKeeps(s: State, i: nat, demand: bool, e: Env)
    requires Inv(s) && s.stage == Running && i < |s.services|
    ensures Inv(RetirePending(s, i, demand, e))
  {
    var v := s.services[i];
    var t := RetirePending(s, i, demand, e);
    if t != s {
      RetireKeeps(s, t, i, t.services[i], v.preparation.candidate);
    }
  }

  lemma CancelIssuanceKeeps(s: State, v: Service)
    requires Inv(s)
    ensures Inv(CancelIssuance(s, v))
  {
    assert forall x: Id :: Tickets(CancelIssuance(s, v), x) == Tickets(s, x);
  }

  lemma MaintainServiceKeeps(s: State, i: nat, demand: bool, e: Env)
    requires Inv(s) && s.stage == Running && i < |s.services|
    ensures Inv(MaintainService(s, i, demand, e))
  {
    var a := MaintainSelection(s, i, e);
    SelectionKeeps(s, i, e);
    var b := Promote(a, i, e);
    PromoteKeeps(a, i, e);
    var c := RetireCurrent(b, i, demand, e);
    RetireCurrentKeeps(b, i, demand, e);
    RetirePendingKeeps(c, i, demand, e);
    var d := RetirePending(c, i, demand, e);
    CancelIssuanceKeeps(d, d.services[i]);
  }

  lemma {:induction false} MaintainFromKeeps(s: State, i: nat, demand: bool, e: Env)
    requires Inv(s) && s.stage == Running && i <= |s.services|
    ensures Inv(MaintainFrom(s, i, demand, e))
    decreases |s.services| - i
  {
    if i < |s.services| {
      MaintainServiceKeeps(s, i, demand, e);
      MaintainFromKeeps(MaintainService(s, i, demand, e), i + 1, demand, e);
    }
  }

  // ---------------------------------------------------------------- acquisition

  lemma {:induction false} PathTotalPositive(services: seq<Service>, i: nat, x: Id)
    requires i < |services| && PathIn(services[i], x) > 0
    ensures PathTotal(services, x) > 0
  {
    if i > 0 {
      PathTotalPositive(services[1..], i - 1, x);
    }
  }

  /** A path in a slot was drawn: it is never the zero identity. */
  lemma ServingPathIsDrawn(s: State, i: nat)
    requires Ticketed(s) && i < |s.services| && s.services[i].current.Some?
    ensures s.services[i].current.value.path != 0
  {
    var x := s.services[i].current.value.path;
    PathTotalPositive(s.services, i, x);
    assert Tickets(s, x) == 1;
  }

  /** Recovery replacements spend the budget and never exceed it: a renewal that was due stays due,
      and an evaluation is never started while its path needs recovery. */
  lemma AcquireBudget(s: State, i: nat, active: nat, overlap: nat, e: Env)
    requires Inv(s) && i < |s.services| && e.now <= e.later
    requires CanAcquire(s.services, s.services[i], active, overlap, e)
    ensures Budgeted(Acquire(s, i, e).services[i])
  {
    var v := s.services[i];
    assert Budgeted(v);
    if v.current.Some? {
      ServingPathIsDrawn(s, i);
      if EvaluationDue(s.services, v, e) {
        assert !v.current.value.recovery;
      }
    }
  }

  lemma AcquireKeeps(s: State, i: nat, active: nat, overlap: nat, e: Env)
    requires Inv(s) && i < |s.services| && e.now <= e.later
    requires Active(s.services) <= active <= MAXIMUM_ACTIVE_SERVICES
    requires Overlap(s.services) <= overlap <= MAXIMUM_REPLACEMENT_PATHS
    requires CanAcquire(s.services, s.services[i], active, overlap, e)
    ensures Inv(Acquire(s, i, e))
    ensures Active(Acquire(s, i, e).services) <= active + (if s.services[i].current.None? then 1 else 0)
    ensures Overlap(Acquire(s, i, e).services) <= overlap + (if s.services[i].current.None? then 0 else 1)
  {
    var v := s.services[i];
    var t := Acquire(s, i, e);
    var w := t.services[i];
    AcquireBudget(s, i, active, overlap, e);
    assert t.services == s.services[i := w];
    CountUpdate(s.services, i, w);
    forall x: Id
      ensures LeaseTotal(t.services, x) == LeaseTotal(s.services, x)
              && PathTotal(t.services, x) == PathTotal(s.services, x)
    {
      SlotUpdate(s.services, i, w, x);
    }
    AcquireTickets(s, i, e);
  }

  lemma AcquireTickets(s: State, i: nat, e: Env)
    requires Ticketed(s) && i < |s.services|
    requires forall x: Id :: PathTotal(Acquire(s, i, e).services, x) == PathTotal(s.services, x)
    ensures Ticketed(Acquire(s, i, e))
  {
    var t := Acquire(s, i, e);
    forall x: Id ensures Tickets(t, x) <= 1 && (Tickets(t, x) == 1 ==> 0 < x < t.nextId) {
      assert Tickets(s, x) <= 1;
      assert PathTotal(t.services, x) == PathTotal(s.services, x);
    }
  }

  lemma {:induction false} AcquireFromKeeps(s: State, i: nat, active: nat, overlap: nat, e: Env)
    requires Inv(s) && i <= |s.services| && e.now <= e.later
    requires Active(s.services) <= active <= MAXIMUM_ACTIVE_SERVICES
    requires Overlap(s.services) <= overlap <= MAXIMUM_REPLACEMENT_PATHS
    ensures Inv(AcquireFrom(s, i, active, overlap, e))
    decreases |s.services| - i
  {
    if i == |s.services| {
    } else if !CanAcquire(s.services, s.services[i], active, overlap, e) {
      AcquireFromKeeps(s, i + 1, active, overlap, e);
    } else {
      AcquireKeeps(s, i, active, overlap, e);
      var none := s.services[i].current.None?;
      AcquireFromKeeps(Acquire(s, i, e), i + 1, if none then active + 1 else active,
                       if none then overlap else overlap + 1, e);
    }
  }
}
