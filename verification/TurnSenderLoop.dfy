/** The sender object: the service list, the lookup table and the completion queue edited in place
    by the loops of the run loop's cases. Every method is the step of the same name in TurnSender. */
module TurnSenderLoop {
  import opened Totals
  import opened TurnSender
  import opened TurnSenderLedger
  import opened TurnSenderRuns

  /** Some run from a well-formed configuration leads here. */
  ghost predicate Reachable(s: State) {
    exists profiles, revision, network, events :: Leads(profiles, revision, network, events, s)
  }

  ghost predicate Leads(profiles: seq<Profile>, revision: nat, network: nat, events: seq<(Event, Env)>, s: State) {
    ListedOnce(profiles) && AllAdmissible(events) && s == Run(Start(profiles, revision, network), events)
  }

  lemma ReachableIsSound(s: State)
    requires Reachable(s)
    ensures Inv(s)
  {
    var profiles, revision, network, events :| Leads(profiles, revision, network, events, s);
    SenderIsSound(profiles, revision, network, events);
  }

  lemma ReachableStep(s: State, event: Event, e: Env)
    requires Reachable(s) && Admissible(e)
    ensures Reachable(Step(s, event, e))
  {
    var profiles, revision, network, events :| Leads(profiles, revision, network, events, s);
    var more := events + [(event, e)];
    assert more[..|more| - 1] == events;
    assert Leads(profiles, revision, network, more, Step(s, event, e));
  }

  lemma ReachableDistinct(s: State)
    requires Reachable(s)
    ensures Distinct(s.services)
  {
    ReachableIsSound(s);
  }

  lemma {:induction false} FindPrefix(services: seq<Service>, v: Service, identity: nat)
    ensures Find(services + [v], identity)
         == if Find(services, identity).Some? then Find(services, identity) else if v.identity == identity then Some(v)
             else None
  {
    if services == [] {
      assert services + [v] == [v];
    } else {
      assert (services + [v])[1..] == services[1..] + [v];
      FindPrefix(services[1..], v, identity);
    }
  }

  lemma {:induction false} FindIsThere(services: seq<Service>, identity: nat)
    ensures Find(services, identity).Some? ==>
              exists i | 0 <= i < |services| ::
                services[i].identity == identity && services[i] == Find(services, identity).value
  {
    if services != [] && services[0].identity != identity {
      FindIsThere(services[1..], identity);
      if Find(services, identity).Some? {
        var i :| 0 <= i < |services[1..]| && services[1..][i].identity == identity
            && services[1..][i] == Find(services, identity).value;
        assert services[i + 1] == services[1..][i];
      }
    }
  }

  lemma {:induction false} FindMember(services: seq<Service>, i: nat)
    requires i < |services|
    ensures Find(services, services[i].identity).Some?
  {
    if i > 0 {
      FindMember(services[1..], i - 1);
    }
  }

  /** The next service of the list either opens the removed ones or is none of them. */
  lemma RemovedHead(services: seq<Service>, i: nat, listed: set<nat>)
    requires i < |services|
    ensures var all, rest := Removed(services[i..], listed), Removed(services[i + 1..], listed);
            if services[i].identity in listed then all == rest
            else SlotLeases(all) == Leases(services[i]) + SlotLeases(rest)
                 && AskingAll(all) == Asking(services[i]) + AskingAll(rest)
                 && SlotPaths(all) == Paths(services[i]) + SlotPaths(rest)
  {
    assert services[i..][1..] == services[i + 1..];
    var rest := Removed(services[i + 1..], listed);
    assert ([services[i]] + rest)[1..] == rest;
  }

  lemma ListedPrefix(profiles: seq<Profile>, j: nat)
    requires ListedOnce(profiles) && j < |profiles|
    ensures Listed(profiles[..j + 1]) == Listed(profiles[..j]) + {profiles[j].identity}
    ensures profiles[j].identity !in Listed(profiles[..j])
  {
    assert forall k | 0 <= k < j :: profiles[..j + 1][k] == profiles[..j][k];
    assert profiles[..j + 1][j] == profiles[j];
  }

  lemma RebuildNext(services: seq<Service>, profiles: seq<Profile>, j: nat, base: Id, next: seq<Service>)
    requires j < |profiles|
    ensures next + Rebuild(services, profiles[j..], base + j)
         == next + [Keep(services, profiles[j], base + j)] + Rebuild(services, profiles[j + 1..], base + j + 1)
  {
    assert profiles[j..][1..] == profiles[j + 1..];
  }

  /** What the rebuild did not take over is what the inventory no longer lists. */
  lemma LeftUnlisted(services: seq<Service>, left: set<nat>, listed: set<nat>)
    requires forall id: nat :: id in left <==> Find(services, id).Some? && id !in listed
    ensures forall i | 0 <= i < |services| :: services[i].identity in left <==> services[i].identity !in listed
  {
    forall i | 0 <= i < |services| ensures services[i].identity in left <==> services[i].identity !in listed {
      FindMember(services, i);
    }
  }

  class Sender {
    var services: seq<Service>
    var paths: set<Id>
    var completed: seq<Issued>
    var inFlight: map<Id, Issued>
    var canceled: set<Id>
    var closed: multiset<Id>
    var issued: set<Id>
    var sequence: nat
    var generation: nat
    var demandUntil: Time
    var network: nat
    var revision: nat
    var nextId: Id
    var stage: Stage

    ghost function View(): State
      reads this
    {
      State(services, paths, completed, inFlight, canceled, closed, issued, sequence, generation, demandUntil,
            network, revision, nextId, stage)
    }

    ghost predicate Valid()
      reads this
    {
      Reachable(View())
    }

    constructor (profiles: seq<Profile>, revision: nat, network: nat)
      requires ListedOnce(profiles)
      ensures Valid() && View() == Start(profiles, revision, network)
    {
      var built: seq<Service> := [];
      for j := 0 to |profiles|
        invariant built + Rebuild([], profiles[j..], 1 + j) == Rebuild([], profiles, 1)
      {
        assert profiles[j..][1..] == profiles[j + 1..];
        built := built + [Service(1 + j, profiles[j].identity, profiles[j].revision, None, Idle, 0, 0)];
      }
      assert profiles[|profiles|..] == [];
      services, paths, completed, inFlight, canceled := built, {}, [], map[], {};
      closed, issued, sequence, generation, demandUntil := multiset{}, {}, 0, 0, 0;
      this.network, this.revision, nextId, stage := network, revision, 1 + |profiles|, Running;
      new;
      assert Leads(profiles, revision, network, [], View());
    }

    // -------------------------------------------------------------- slots

    method RetirePath(d: Delegation)
      modifies this`paths, this`closed
      ensures View() == old(Retire(View(), d))
      ensures paths == old(paths) - {d.path} && closed == old(closed) + multiset{d.lease}
    {
      paths := paths - {d.path};
      closed := closed + multiset{d.lease};
    }

    method SelectionPass(i: nat, e: Env)
      requires i < |services|
      modifies this
      ensures View() == old(MaintainSelection(View(), i, e))
    {
      var v := services[i];
      var continuity := false;
      for j := 0 to |services|
        invariant continuity <==> ContinuityDue(services[..j], e.now)
      {
        var current := services[j].current;
        assert services[..j + 1] == services[..j] + [services[j]];
        assert services[..j + 1][j] == services[j];
        if current.Some? && (current.value.RenewalDue(e.now) || current.value.recovery) {
          continuity := true;
        }
      }
      assert services[..|services|] == services;
      if v.preparation.Issuing? && v.preparation.intent == Evaluation && continuity {
        canceled := canceled + {v.preparation.request};
      } else if v.preparation.Connecting? && v.preparation.candidate.trial
                && (continuity || v.current.None? || v.preparation.candidate.path in e.trialOver) {
        RetirePath(v.preparation.candidate);
        services := services[i := v.(preparation := Idle)];
      }
    }

    method PromotePending(i: nat, e: Env)
      requires i < |services|
      modifies this
      ensures View() == old(Promote(View(), i, e))
    {
      var v := services[i];
      if !v.preparation.Connecting? {
        return;
      }
      var d := v.preparation.candidate;
      if !d.ready || e.now >= demandUntil || d.path in e.invalid || e.now >= d.created + REPLACEMENT_BUDGET
         || d.path in e.lost {
        return;
      }
      if d.path !in e.admitted || d.recovery || (d.trial && (v.current.None? || d.path !in e.winners)) {
        return;
      }
      services := services[i := v.(current := Some(d.(trial := false)), preparation := Idle)];
      if v.current.Some? {
        RetirePath(v.current.value);
      }
    }

    method RetireUnusable(i: nat, demand: bool, e: Env)
      requires i < |services|
      modifies this
      ensures View() == old(RetirePending(RetireCurrent(View(), i, demand, e), i, demand, e))
    {
      var v := services[i];
      if v.current.Some? {
        var d := v.current.value;
        var reason := RetirementReason(d, false, demand, e);
        if reason != Healthy {
          RetirePath(d);
          services := services[i := CoolDown(ApplyReport(v, e).(current := None), d, reason, e)];
        }
      }
      v := services[i];
      if v.preparation.Connecting? {
        var d := v.preparation.candidate;
        var reason := RetirementReason(d, true, demand, e);
        if reason != Healthy {
          RetirePath(d);
          services := services[i := CoolDown(CountInitialFailure(v).(preparation := Idle), d, reason, e)];
        }
      }
    }

    method TendService(i: nat, demand: bool, e: Env)
      requires i < |services|
      modifies this
      ensures View() == old(MaintainService(View(), i, demand, e))
    {
      SelectionPass(i, e);
      PromotePending(i, e);
      RetireUnusable(i, demand, e);
      if !demand && services[i].preparation.Issuing? {
        canceled := canceled + {services[i].preparation.request};
      }
    }

    method RequestCredential(i: nat, e: Env)
      requires i < |services|
      modifies this
      ensures View() == old(Acquire(View(), i, e))
    {
      var v := services[i];
      if v.id in e.noEntropy {
        services := services[i := v.(retryAt := e.later + SERVICE_COOLDOWN)];
        return;
      }
      var intent, predecessor, attempts := Intent.Initial, 0, v.attempts;
      if v.current.Some? {
        predecessor := v.current.value.path;
        if v.current.value.RenewalDue(e.later) {
          intent := Renewal;
        } else if v.current.value.recovery {
          intent := Intent.Recovery;
          attempts := attempts + 1;
        } else {
          intent := Evaluation;
        }
      }
      services := services[i := v.(preparation := Issuing(nextId, predecessor, intent), attempts := attempts)];
      inFlight := inFlight[nextId := Issued(v.id, nextId, sequence, generation, v.revision, None, false)];
      nextId := nextId + 1;
    }

    /** One turn of the first pass. */
    method TendNext(i: nat, demand: bool, e: Env)
      requires i < |services|
      modifies this
      ensures |services| == |old(services)|
      ensures MaintainFrom(View(), i + 1, demand, e) == old(MaintainFrom(View(), i, demand, e))
    {
      TendService(i, demand, e);
    }

    method TendEach(demand: bool, e: Env)
      modifies this
      ensures View() == old(MaintainFrom(View(), 0, demand, e))
    {
      ghost var target := MaintainFrom(View(), 0, demand, e);
      var i := 0;
      while i < |services|
        invariant 0 <= i <= |services|
        invariant MaintainFrom(View(), i, demand, e) == target
      {
        TendNext(i, demand, e);
        i := i + 1;
      }
    }

    method CountSlots() returns (active: nat, overlap: nat)
      ensures active == Active(services) && overlap == Overlap(services)
    {
      active, overlap := 0, 0;
      for i := 0 to |services|
        invariant active + Active(services[i..]) == Active(services)
        invariant overlap + Overlap(services[i..]) == Overlap(services)
      {
        assert services[i..][1..] == services[i + 1..];
        if services[i].current.Some? || Preparing(services[i]) {
          active := active + 1;
        }
        if services[i].current.Some? && Preparing(services[i]) {
          overlap := overlap + 1;
        }
      }
      assert services[|services|..] == [];
    }

    method StartAllowed(already: nat, both: nat, e: Env)
      modifies this
      ensures View() == old(AcquireFrom(View(), 0, already, both, e))
    {
      ghost var start := View();
      var active, overlap := already, both;
      var i := 0;
      while i < |services|
        invariant 0 <= i <= |services| == |start.services|
        invariant AcquireFrom(View(), i, active, overlap, e) == AcquireFrom(start, 0, already, both, e)
      {
        if CanAcquire(services, services[i], active, overlap, e) {
          if services[i].current.None? {
            active := active + 1;
          } else {
            overlap := overlap + 1;
          }
          RequestCredential(i, e);
        }
        i := i + 1;
      }
    }

    method TendAll(demand: bool, e: Env)
      modifies this
      ensures View() == old(Tend(View(), demand, e))
    {
      TendEach(demand, e);
      if demand {
        var active, overlap := CountSlots();
        StartAllowed(active, overlap, e);
      }
    }

    // -------------------------------------------------------------- configuration and network

    /** The previous services by identity. */
    method Index() returns (previous: map<nat, Service>)
      requires Distinct(services)
      ensures forall id: nat :: id in previous <==> Find(services, id).Some?
      ensures forall id: nat | id in previous :: Some(previous[id]) == Find(services, id)
    {
      previous := map[];
      for i := 0 to |services|
        invariant forall id: nat :: id in previous <==> Find(services[..i], id).Some?
        invariant forall id: nat | id in previous :: Some(previous[id]) == Find(services[..i], id)
      {
        assert services[..i + 1] == services[..i] + [services[i]];
        forall id: nat ensures Find(services[..i + 1], id)
                       == if Find(services[..i], id).Some? then Find(services[..i], id)
                          else if services[i].identity == id then Some(services[i]) else None
        {
          FindPrefix(services[..i], services[i], id);
        }
        FindIsThere(services[..i], services[i].identity);
        previous := previous[services[i].identity := services[i]];
      }
      assert services[..|services|] == services;
    }

    method DropCurrent(v: Service)
      modifies this`paths, this`closed
      ensures paths == old(paths) - (if v.current.Some? then {v.current.value.path} else {})
      ensures closed == old(closed) + (if v.current.Some? then multiset{v.current.value.lease} else multiset{})
    {
      if v.current.Some? {
        RetirePath(v.current.value);
      }
    }

    method DropPending(v: Service)
      modifies this`paths, this`closed, this`canceled
      ensures paths == old(paths) - (if v.preparation.Connecting? then {v.preparation.candidate.path} else {})
      ensures closed
              == old(closed)
                  + (if v.preparation.Connecting? then multiset{v.preparation.candidate.lease} else multiset{})
      ensures canceled == old(canceled) + Asking(v)
    {
      if v.preparation.Issuing? {
        canceled := canceled + {v.preparation.request};
      }
      if v.preparation.Connecting? {
        RetirePath(v.preparation.candidate);
      }
    }

    method DropService(v: Service)
      modifies this`paths, this`closed, this`canceled
      ensures forall p :: p in paths <==> p in old(paths) && p !in Paths(v)
      ensures closed == old(closed) + Leases(v) && canceled == old(canceled) + Asking(v)
    {
      DropCurrent(v);
      DropPending(v);
    }

    /** Retires the slots of services the new inventory dropped. */
    method DropUnlisted(gone: set<nat>, listed: set<nat>)
      requires forall i | 0 <= i < |services| :: services[i].identity in gone <==> services[i].identity !in listed
      modifies this`paths, this`closed, this`canceled
      ensures var r := Removed(services, listed);
              && paths == (set p | p in old(paths) && p !in SlotPaths(r))
              && closed == old(closed) + SlotLeases(r) && canceled == old(canceled) + AskingAll(r)
    {
      var i := 0;
      assert services[0..] == services;
      while i < |services|
        invariant 0 <= i <= |services|
        invariant closed + SlotLeases(Removed(services[i..], listed))
                  == old(closed) + SlotLeases(Removed(services, listed))
        invariant canceled + AskingAll(Removed(services[i..], listed))
                  == old(canceled) + AskingAll(Removed(services, listed))
        invariant forall p :: p in paths && p !in SlotPaths(Removed(services[i..], listed))
                              <==> p in old(paths) && p !in SlotPaths(Removed(services, listed))
      {
        DropNext(i, gone, listed);
        i := i + 1;
      }
      assert services[|services|..] == [];
      assert paths == (set p | p in old(paths) && p !in SlotPaths(Removed(services, listed)));
    }

    method DropNext(i: nat, gone: set<nat>, listed: set<nat>)
      requires i < |services| && (services[i].identity in gone <==> services[i].identity !in listed)
      modifies this`paths, this`closed, this`canceled
      ensures closed + SlotLeases(Removed(services[i + 1..], listed))
              == old(closed) + SlotLeases(Removed(services[i..], listed))
      ensures canceled + AskingAll(Removed(services[i + 1..], listed))
              == old(canceled) + AskingAll(Removed(services[i..], listed))
      ensures forall p :: p in paths && p !in SlotPaths(Removed(services[i + 1..], listed))
                          <==> p in old(paths) && p !in SlotPaths(Removed(services[i..], listed))
    {
      RemovedHead(services, i, listed);
      if services[i].identity in gone {
        DropService(services[i]);
      }
    }

    method KeepService(p: Profile, base: Id, previous: map<nat, Service>) returns (v: Service)
      requires if p.identity in previous then Some(previous[p.identity]) == Find(services, p.identity)
               else Find(services, p.identity).None?
      modifies this`canceled
      ensures v == Keep(services, p, base)
      ensures canceled == old(canceled) + (match Find(services, p.identity)
                                           case None => {}
                                           case Some(w) => if w.revision != p.revision then Asking(w) else {})
    {
      if p.identity !in previous {
        return Service(base, p.identity, p.revision, None, Idle, 0, 0);
      }
      v := previous[p.identity];
      if v.revision != p.revision {
        if v.preparation.Issuing? {
          canceled := canceled + {v.preparation.request};
        }
        v := v.(retryAt := 0, revision := p.revision);
      }
    }

    /** One turn of the rebuild. */
    method KeepNext(profiles: seq<Profile>, j: nat, previous: map<nat, Service>) returns (v: Service)
      requires j < |profiles|
      requires var id := profiles[j].identity;
               if id in previous then Some(previous[id]) == Find(services, id) else Find(services, id).None?
      modifies this`canceled
      ensures v == Keep(services, profiles[j], nextId + j)
      ensures canceled + Republished(services, profiles[j + 1..])
              == old(canceled) + Republished(services, profiles[j..])
    {
      assert profiles[j..][1..] == profiles[j + 1..];
      v := KeepService(profiles[j], nextId + j, previous);
    }

    /** The new list, the requests it outdates, and the identities it leaves out. */
    method BuildNext(e: Env) returns (next: seq<Service>, unlisted: set<nat>)
      requires Distinct(services) && ListedOnce(e.profiles)
      modifies this`canceled
      ensures next == Rebuild(services, e.profiles, nextId)
      ensures canceled == old(canceled) + Republished(services, e.profiles)
      ensures forall i | 0 <= i < |services| ::
                services[i].identity in unlisted <==> services[i].identity !in Listed(e.profiles)
    {
      var previous: map<nat, Service> := Index();
      next := [];
      for j := 0 to |e.profiles|
        invariant next + Rebuild(services, e.profiles[j..], nextId + j) == Rebuild(services, e.profiles, nextId)
        invariant canceled + Republished(services, e.profiles[j..]) == old(canceled) + Republished(services, e.profiles)
        invariant forall id: nat :: id in previous <==> Find(services, id).Some? && id !in Listed(e.profiles[..j])
        invariant forall id: nat | id in previous :: Some(previous[id]) == Find(services, id)
      {
        ListedPrefix(e.profiles, j);
        var v := KeepNext(e.profiles, j, previous);
        previous := previous - {e.profiles[j].identity};
        RebuildNext(services, e.profiles, j, nextId, next);
        next := next + [v];
      }
      assert e.profiles[..|e.profiles|] == e.profiles && e.profiles[|e.profiles|..] == [];
      unlisted := set id: nat | id in previous;
      LeftUnlisted(services, unlisted, Listed(e.profiles));
    }

    method ReplaceServices(e: Env)
      requires Distinct(services) && Admissible(e)
      modifies this`services, this`paths, this`closed, this`canceled, this`nextId, this`revision
      ensures var gone := Removed(old(services), Listed(e.profiles));
              && services == Rebuild(old(services), e.profiles, old(nextId)) && nextId == old(nextId) + |e.profiles|
              && paths == (set p | p in old(paths) && p !in SlotPaths(gone)) && closed == old(closed) + SlotLeases(gone)
              && canceled == old(canceled) + Republished(old(services), e.profiles) + AskingAll(gone)
              && revision == e.revision
    {
      var next, unlisted := BuildNext(e);
      DropUnlisted(unlisted, Listed(e.profiles));
      services, nextId, revision := next, nextId + |e.profiles|, e.revision;
    }

    method Reconfigure(e: Env)
      requires Distinct(services) && Admissible(e)
      modifies this`services, this`paths, this`closed, this`canceled, this`nextId, this`revision
      ensures View() == old(RefreshConfiguration(View(), e))
    {
      if e.revision != revision {
        ReplaceServices(e);
      }
    }

    method NoticeNetwork(e: Env)
      modifies this
      ensures View() == old(RefreshNetwork(View(), e))
    {
      if e.network == network {
        return;
      }
      network := e.network;
      ghost var was := services;
      var i := 0;
      while i < |services|
        invariant 0 <= i <= |services| == |was|
        invariant View() == old(View()).(network := e.network, services := services)
        invariant forall k | 0 <= k < |was| :: services[k] == if k < i then OnNewNetwork(was[k]) else was[k]
      {
        services := services[i := OnNewNetwork(services[i])];
        i := i + 1;
      }
      assert services == RefreshNetwork(old(View()), e).services;
    }

    method ChargeReports(e: Env)
      modifies this`services
      ensures services == ApplyReports(old(services), e)
    {
      ghost var was := services;
      var i := 0;
      while i < |services|
        invariant 0 <= i <= |services| == |was|
        invariant forall k | 0 <= k < |was| :: services[k] == if k < i then ApplyReport(was[k], e) else was[k]
      {
        services := services[i := ApplyReport(services[i], e)];
        i := i + 1;
      }
    }

    method MaintainPaths(e: Env)
      requires Distinct(services) && Admissible(e)
      modifies this
      ensures View() == old(Maintain(View(), e))
    {
      ChargeReports(e);
      Reconfigure(e);
      NoticeNetwork(e);
      TendAll(e.now < demandUntil, e);
    }

    // -------------------------------------------------------------- the cases of the run loop

    method Tick(e: Env)
      requires Valid() && stage == Running && Admissible(e)
      modifies this
      ensures Valid() && View() == old(Step(View(), Event.Tick, e))
    {
      ReachableStep(View(), Event.Tick, e);
      ReachableDistinct(View());
      MaintainPaths(e);
    }

    method RestoreBudgets()
      modifies this`services
      ensures |services| == |old(services)|
      ensures forall k | 0 <= k < |services| :: services[k] == old(services)[k].(attempts := 0)
    {
      ghost var was := services;
      var i := 0;
      while i < |services|
        invariant 0 <= i <= |services| == |was|
        invariant forall k | 0 <= k < |was| :: services[k] == if k < i then was[k].(attempts := 0) else was[k]
      {
        services := services[i := services[i].(attempts := 0)];
        i := i + 1;
      }
    }

    method OpenDemand(sequence: nat, hold: nat, e: Env)
      modifies this
      ensures View() == old(Renew(View(), sequence, hold, e))
      ensures |services| == |old(services)| && forall i | 0 <= i < |services| ::
                services[i].identity == old(services)[i].identity
    {
      ghost var start := View();
      this.sequence := sequence;
      if hold == 0 || e.now >= demandUntil {
        generation := generation + 1;
        RestoreBudgets();
      }
      demandUntil := e.now + hold;
      assert services == Renew(start, sequence, hold, e).services;
    }

    method ApplyDemand(sequence: nat, hold: nat, e: Env)
      requires Valid() && stage == Running && Admissible(e)
      modifies this
      ensures Valid() && View() == old(Step(View(), Demanded(sequence, hold), e))
    {
      ReachableStep(View(), Demanded(sequence, hold), e);
      ReachableDistinct(View());
      AcceptDemand(sequence, hold, e);
    }

    method AcceptDemand(sequence: nat, hold: nat, e: Env)
      requires Distinct(services) && Admissible(e)
      modifies this
      ensures View() == old(Demand(View(), sequence, hold, e))
    {
      if sequence > this.sequence {
        OpenDemand(sequence, hold, e);
        assert Distinct(services);
        MaintainPaths(e);
      }
    }

    method ApplyReady(path: Id, authority: nat, e: Env)
      requires Valid() && stage == Running && Admissible(e)
      modifies this
      ensures Valid() && View() == old(Step(View(), Readied(path, authority), e))
    {
      ghost var start := View();
      ReachableStep(start, Readied(path, authority), e);
      var i := 0;
      while i < |services|
        invariant 0 <= i <= |services|
        invariant ReadyFrom(View(), i, path, authority, e) == ReadyFrom(start, 0, path, authority, e)
      {
        var v := services[i];
        if v.preparation.Connecting? && v.preparation.candidate.path == path
           && v.preparation.candidate.authority == authority {
          services := services[i := v.(preparation := Connecting(v.preparation.candidate.(ready := true)))];
          PromotePending(i, e);
        }
        i := i + 1;
      }
    }

    method WithdrawAll(path: Id, authority: nat, retryAt: Time, e: Env)
      modifies this
      ensures View() == old(WithdrawFrom(View(), 0, path, authority, retryAt, e))
    {
      ghost var start := View();
      var i := 0;
      while i < |services|
        invariant 0 <= i <= |services|
        invariant WithdrawFrom(View(), i, path, authority, retryAt, e)
                  == WithdrawFrom(start, 0, path, authority, retryAt, e)
      {
        WithdrawPath(i, path, authority, retryAt, e);
        i := i + 1;
      }
    }

    method ApplyRetire(path: Id, authority: nat, idle: bool, e: Env)
      requires Valid() && stage == Running && Admissible(e)
      modifies this
      ensures Valid() && View() == old(Step(View(), Retired(path, authority, idle), e))
    {
      ReachableStep(View(), Retired(path, authority, idle), e);
      WithdrawAll(path, authority, if idle then e.now else e.now + SERVICE_COOLDOWN, e);
    }

    method WithdrawPath(i: nat, path: Id, authority: nat, retryAt: Time, e: Env)
      requires i < |services|
      modifies this
      ensures View() == old(Withdraw(View(), i, path, authority, retryAt, e))
    {
      var v := services[i];
      if Names(v.current, path, authority) {
        RetirePath(v.current.value);
        services := services[i := ApplyReport(v, e).(current := None, retryAt := retryAt)];
      }
      v := services[i];
      if Names(Pending(v), path, authority) {
        var d := v.preparation.candidate;
        RetirePath(d);
        var counted := CountInitialFailure(v).(preparation := Idle);
        if !d.trial {
          counted := counted.(retryAt := retryAt);
        }
        services := services[i := SelectionFailed(counted, d, e)];
      }
    }

    method InstallNext(e: Env)
      requires Valid() && stage == Running && Admissible(e)
      modifies this
      ensures Valid() && View() == old(Step(View(), Installing, e))
    {
      ghost var start := View();
      ReachableStep(start, Installing, e);
      RefreshedDistinct(start, e);
      if completed == [] {
        return;
      }
      var result := completed[0];
      completed := completed[1..];
      Reconfigure(e);
      NoticeNetwork(e);
      assert View() == Refreshed(start.(completed := start.completed[1..]), e);
      assert Distinct(services);
      PlaceResult(result, e);
    }

    method Outdated(i: nat, result: Issued, e: Env) returns (outdated: bool)
      requires i <= |services|
      ensures outdated == Discarded(View(), i, result, e)
    {
      if i == |services| {
        return true;
      }
      var v := services[i];
      if v.revision != result.revision || e.superseded {
        return true;
      }
      if !v.preparation.Issuing? || v.preparation.request != result.request {
        return true;
      }
      if result.generation != generation || e.now >= demandUntil || result.request in canceled {
        return true;
      }
      if v.preparation.predecessor != 0 && (v.current.None? || v.current.value.path != v.preparation.predecessor) {
        return true;
      }
      return v.preparation.intent == Evaluation && e.scopeChanged;
    }

    method ReleaseSlot(i: nat, request: Id, lease: Option<Id>)
      requires i <= |services|
      modifies this
      ensures View() == old(CloseLease(Release(View(), i, request), lease))
    {
      if i < |services| && services[i].preparation.Issuing? && services[i].preparation.request == request {
        services := services[i := services[i].(preparation := Idle)];
      }
      if lease.Some? {
        closed := closed + multiset{lease.value};
      }
    }

    method PlaceResult(result: Issued, e: Env)
      requires Distinct(services) && Admissible(e)
      modifies this
      ensures View() == old(Place(View(), result, e))
    {
      var i := IndexOf(services, result.service);
      var outdated := Outdated(i, result, e);
      if outdated {
        ReleaseSlot(i, result.request, result.lease);
        MaintainPaths(e);
        return;
      }
      var v := services[i];
      if result.failed || e.timedOut || result.lease.None? || !e.narrowed || !e.delivered {
        if result.lease.Some? {
          closed := closed + multiset{result.lease.value};
        }
        services := services[i := Defer(v.(preparation := Idle), v.preparation.intent, e)];
        return;
      }
      var d := Delegation(result.request, result.lease.value, if v.current.Some? then v.current.value.path else 0,
                          result.sequence, e.now, e.renewAt, false, 0, false, v.preparation.intent == Evaluation);
      paths := paths + {d.path};
      services := services[i := v.(preparation := Connecting(d))];
    }

    /** A transport callback; it only marks the path. */
    method ReportFault(path: Id, mismatch: bool, e: Env)
      requires Valid() && stage == Running && Admissible(e)
      modifies this
      ensures Valid() && View() == old(Step(View(), Faulted(path, mismatch), e))
    {
      ghost var start := View();
      ReachableStep(start, Faulted(path, mismatch), e);
      if path !in paths {
        return;
      }
      var i := 0;
      while i < |services|
        invariant 0 <= i <= |services| == |start.services|
        invariant View() == start.(services := services)
        invariant forall k | 0 <= k < |services| ::
                    services[k] == if k < i then Recovering(start.services[k], path, mismatch, e) else start.services[k]
      {
        services := services[i := Recovering(services[i], path, mismatch, e)];
        i := i + 1;
      }
      assert services == Recover(start, path, mismatch, e).services;
    }

    /** The last act of a request goroutine: hand its result to the loop, or release what it got. */
    method EndRequest(request: Id, gotLease: bool, failed: bool, queued: bool)
      modifies this
      ensures View() == old(Finish(View(), request, gotLease, failed, queued))
    {
      if request !in inFlight {
        return;
      }
      var lease: Option<Id> := None;
      if gotLease {
        lease := Some(nextId);
        issued := issued + {nextId};
      }
      var result := inFlight[request];
      inFlight := inFlight - {request};
      nextId := nextId + 1;
      if queued {
        completed := completed + [result.(lease := lease, failed := failed)];
      } else if lease.Some? {
        closed := closed + multiset{lease.value};
      }
    }

    method CompleteRequest(request: Id, gotLease: bool, failed: bool, e: Env)
      requires Valid() && stage != Closed && Admissible(e)
      modifies this
      ensures Valid() && View() == old(Step(View(), Finished(request, gotLease, failed), e))
    {
      ReachableStep(View(), Finished(request, gotLease, failed), e);
      EndRequest(request, gotLease, failed, true);
    }

    /** The loop's context ended: a request that is not queued releases its lease itself. */
    method AbandonRequest(request: Id, gotLease: bool, e: Env)
      requires Valid() && stage != Closed && Admissible(e)
      modifies this
      ensures Valid() && View() == old(Step(View(), Abandoned(request, gotLease), e))
    {
      ReachableStep(View(), Abandoned(request, gotLease), e);
      EndRequest(request, gotLease, true, false);
    }

    /** The loop ends: no path can be looked up any more. */
    method StopLoop(e: Env)
      requires Valid() && stage == Running && Admissible(e)
      modifies this`paths, this`stage
      ensures Valid() && View() == old(Step(View(), Event.Stop, e))
    {
      ReachableStep(View(), Event.Stop, e);
      paths := {};
      stage := Stopping;
    }

    method ReleaseQueue()
      modifies this`completed, this`closed
      ensures completed == [] && closed == old(closed) + QueuedLeases(old(completed))
    {
      while completed != []
        invariant closed + QueuedLeases(completed) == old(closed) + QueuedLeases(old(completed))
        decreases |completed|
      {
        if completed[0].lease.Some? {
          closed := closed + multiset{completed[0].lease.value};
        }
        completed := completed[1..];
      }
    }

    method ReleaseSlots()
      modifies this`services, this`closed
      ensures services == [] && closed == old(closed) + SlotLeases(old(services))
    {
      while services != []
        invariant closed + SlotLeases(services) == old(closed) + SlotLeases(old(services))
        decreases |services|
      {
        var v := services[0];
        if v.current.Some? {
          closed := closed + multiset{v.current.value.lease};
        }
        if v.preparation.Connecting? {
          closed := closed + multiset{v.preparation.candidate.lease};
        }
        services := services[1..];
      }
    }

    /** After the loop ended and every request returned: release the queue, then the slots. */
    method Close(e: Env)
      requires Valid() && stage == Stopping && inFlight == map[] && Admissible(e)
      modifies this
      ensures Valid() && View() == old(Step(View(), Shutdown, e))
    {
      ReachableStep(View(), Shutdown, e);
      ReleaseAll();
    }

    method ReleaseAll()
      modifies this
      ensures View() == old(ShutDown(View()))
    {
      ghost var want := ShutDown(View());
      ReleaseQueue();
      ReleaseSlots();
      assert closed == want.closed;
      stage := Closed;
    }
  }

  lemma RefreshedDistinct(s: State, e: Env)
    requires Reachable(s) && Admissible(e)
    ensures Distinct(s.services) && Distinct(Refreshed(s.(completed := []), e).services)
    ensures forall c :: Refreshed(s.(completed := c), e) == Refreshed(s, e).(completed := c)
  {
    ReachableIsSound(s);
    RefreshedKeeps(s, e);
    assert Refreshed(s.(completed := []), e) == Refreshed(s, e).(completed := []);
  }
}
