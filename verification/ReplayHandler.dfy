/** The sender handler's ledger as an object: maps changed in place, deletions in loops. */
module ReplayHandler {
  import opened Totals
  import opened ReplayLedger
  import opened ReplayLedgerProofs

  class Handler {
    const config: Config
    var attempts: map<Operation, Active>
    var bindings: map<Binding, Operation>
    var retiredOperations: map<Operation, Tombstone>
    var retiredBindings: map<Binding, Tombstone>
    var claims: map<Binding, Operation>
    var latest: map<Path, Binding>
    var blockedUntil: nat
    var stopping: bool
    var nextId: nat
    ghost var started: map<Path, seq<nat>>

    ghost function View(): State
      reads this
    {
      State(config, attempts, bindings, retiredOperations, retiredBindings, claims, latest, blockedUntil, stopping,
            nextId, started)
    }

    ghost predicate Valid()
      reads this
    {
      Inv(View())
    }

    constructor (config: Config)
      ensures Valid() && View() == Start(config)
    {
      this.config := config;
      attempts, bindings, retiredOperations, retiredBindings := map[], map[], map[], map[];
      claims, latest, blockedUntil, stopping, nextId, started := map[], map[], 0, false, 0, map[];
    }

    /** The evidence authority's claim: the watermark moves up, or the path is one too many. */
    method ClaimBinding(operation: Operation, b: Binding) returns (claim: Claim)
      modifies `claims, `latest
      ensures View() == old(ClaimEvidence(View(), operation, b)) && claim == old(ClaimVerdict(View(), b))
    {
      if !b.valid { return Claim(false, false); }
      if b.path in latest {
        if b.sequence <= latest[b.path].sequence { return Claim(false, false); }
        claims := claims - {latest[b.path]};
      } else if |latest| >= config.maximumPaths {
        return Claim(false, true);
      }
      latest := latest[b.path := b];
      claims := claims[b := operation];
      return Claim(true, false);
    }

    method ExpireRetired(now: nat)
      modifies `retiredOperations, `retiredBindings
      ensures View() == old(Expire(View(), now))
    {
      ghost var was, graves := retiredOperations, retiredBindings;
      var rest := retiredOperations.Keys;
      while rest != {}
        invariant rest <= was.Keys
        invariant forall o :: o in retiredOperations <==> o in was && (o in rest || Outlives(was[o], now))
        invariant forall o | o in retiredOperations :: retiredOperations[o] == was[o]
        invariant forall b :: b in retiredBindings <==> b in graves && !Swept(was, graves, b, rest, now)
        invariant forall b | b in retiredBindings :: retiredBindings[b] == graves[b]
        decreases |rest|
      {
        var o :| o in rest;
        rest := rest - {o};
        SweepOne(o, now);
      }
    }

    method SweepOne(o: Operation, now: nat)
      requires o in retiredOperations
      modifies `retiredOperations, `retiredBindings
      ensures retiredOperations
              == if Outlives(old(retiredOperations[o]), now) then old(retiredOperations)
                  else old(retiredOperations) - {o}
      ensures var b := old(retiredOperations[o].binding);
              retiredBindings
                  == if !Outlives(old(retiredOperations[o]), now) && b in old(retiredBindings)
                  && old(retiredBindings)[b].operation == o
                                 then old(retiredBindings) - {b} else old(retiredBindings)
    {
      var retired := retiredOperations[o];
      if now >= retired.expiresAt {
        retiredOperations := retiredOperations - {o};
        if retired.binding in retiredBindings && retiredBindings[retired.binding].operation == o {
          retiredBindings := retiredBindings - {retired.binding};
        }
      }
    }

    /** Some operation on `path` is active. */
    method FindBusyPath(path: Path) returns (busy: bool)
      ensures busy == PathBusy(View(), path)
    {
      var rest := bindings.Keys;
      while rest != {}
        invariant rest <= bindings.Keys
        invariant forall b | b in bindings && b !in rest :: b.path != path
        decreases |rest|
      {
        var b :| b in rest;
        if b.path == path { return true; }
        rest := rest - {b};
      }
      return false;
    }

    method ForgetRetired(path: Path)
      modifies `retiredOperations, `retiredBindings
      ensures View() == old(ForgetPath(View(), path))
    {
      ghost var was, graves := retiredOperations, retiredBindings;
      var rest := retiredOperations.Keys;
      while rest != {}
        invariant rest <= was.Keys
        invariant retiredOperations == map o | o in was && (o in rest || was[o].binding.path != path) :: was[o]
        invariant retiredBindings
                  == graves - (set o | o in was && o !in rest && was[o].binding.path == path :: was[o].binding)
        decreases |rest|
      {
        var o :| o in rest;
        rest := rest - {o};
        var retired := retiredOperations[o];
        if retired.binding.path == path {
          retiredOperations := retiredOperations - {o};
          retiredBindings := retiredBindings - {retired.binding};
        }
      }
    }

    method BuryBinding(operation: Operation, b: Binding, now: nat)
      modifies `retiredOperations, `retiredBindings
      ensures View() == old(Bury(View(), operation, b, now))
    {
      var retired := Tombstone(operation, b, now + config.ttl);
      retiredOperations := retiredOperations[operation := retired];
      retiredBindings := retiredBindings[b := retired];
    }

    method RejectOffer(operation: Operation, b: Binding, now: nat) returns (claim: Claim)
      modifies this
      ensures View() == old(Reject(View(), operation, b, now))
      ensures claim == old(RejectionClaim(View(), b, now))
    {
      if !b.valid { return Claim(false, false); }
      ExpireRetired(now);
      var activeBinding := b in bindings;
      claim := ClaimBinding(operation, b);
      if activeBinding { return claim.(acquired := false); }
      if operation in attempts { return; }
      if claim.capacity { return; }
      if operation in retiredOperations || b in retiredBindings || stopping { return; }
      if |bindings| + |retiredBindings| >= config.maximumRetired {
        blockedUntil := Max(blockedUntil, now + config.ttl);
        return;
      }
      BuryBinding(operation, b, now);
    }

    method ClaimRejectedOffer(operation: Operation, b: Binding, now: nat) returns (claim: Claim)
      requires Valid()
      modifies this
      ensures Valid() && View() == old(Step(View(), Rejecting(operation, b, now)))
      ensures claim == old(RejectionClaim(View(), b, now))
    {
      StepKeeps(View(), Rejecting(operation, b, now));
      claim := RejectOffer(operation, b, now);
    }

    method CheckEligible(operation: Operation, b: Binding, now: nat) returns (eligible: bool)
      ensures eligible == Eligible(View(), operation, b, now)
    {
      if now < blockedUntil { return false; }
      if operation in attempts || operation in retiredOperations || b in bindings || b in retiredBindings {
        return false;
      }
      if b.path in latest && b.sequence <= latest[b.path].sequence { return false; }
      var busy := FindBusyPath(b.path);
      if busy { return false; }
      return |attempts| < MAXIMUM_ACTIVE_ATTEMPTS;
    }

    method AdmitOffer(operation: Operation, b: Binding) returns (admitted: bool)
      modifies this
      ensures View() == if admitted then old(Admit(View(), operation, b)) else old(View())
      ensures admitted == old(ClaimVerdict(View(), b).acquired)
    {
      var claim := ClaimBinding(operation, b);
      if !claim.acquired { return false; }
      attempts := attempts[operation := Active(b, nextId)];
      bindings := bindings[b := operation];
      started := Appended(started, b);
      nextId := nextId + 1;
      return true;
    }

    method TryStart(operation: Operation, b: Binding, pathRetired: bool, now: nat) returns (admitted: bool)
      modifies this
      ensures View() == old(ReplayLedger.StartAttempt(View(), operation, b, pathRetired, now))
      ensures admitted == old(Starts(View(), operation, b, pathRetired, now))
    {
      if stopping || pathRetired { return false; }
      ExpireRetired(now);
      var eligible := CheckEligible(operation, b, now);
      if !eligible { return false; }
      ForgetRetired(b.path);
      if |bindings| + |retiredBindings| >= config.maximumRetired { return false; }
      admitted := AdmitOffer(operation, b);
    }

    method StartAttempt(operation: Operation, b: Binding, pathRetired: bool, now: nat) returns (admitted: bool)
      requires Valid()
      modifies this
      ensures Valid() && View() == old(Step(View(), Starting(operation, b, pathRetired, now)))
      ensures admitted == old(Starts(View(), operation, b, pathRetired, now))
    {
      StepKeeps(View(), Starting(operation, b, pathRetired, now));
      admitted := TryStart(operation, b, pathRetired, now);
    }

    method FinishAttempt(operation: Operation, id: nat, now: nat)
      modifies this
      ensures View() == old(ReplayLedger.AttemptDone(View(), operation, id, now))
    {
      if operation !in attempts || attempts[operation].id != id { return; }
      var b := attempts[operation].binding;
      attempts := attempts - {operation};
      bindings := bindings - {b};
      if !stopping {
        BuryBinding(operation, b, now);
      }
    }

    method AttemptDone(operation: Operation, id: nat, now: nat)
      requires Valid()
      modifies this
      ensures Valid() && View() == old(Step(View(), Ending(operation, id, now)))
    {
      StepKeeps(View(), Ending(operation, id, now));
      FinishAttempt(operation, id, now);
    }

    method ForgetWatermark(path: Path)
      modifies `claims, `latest, `started
      ensures View() == old(ReplayLedger.RetirePath(View(), path))
    {
      if path in latest {
        claims := claims - {latest[path]};
        latest := latest - {path};
        started := started - {path};
      }
    }

    method RetirePath(path: Path)
      requires Valid()
      modifies `claims, `latest, `started
      ensures Valid() && View() == old(Step(View(), Retiring(path)))
    {
      StepKeeps(View(), Retiring(path));
      ForgetWatermark(path);
    }

    method BeginStop()
      requires Valid()
      modifies `stopping
      ensures Valid() && View() == old(Step(View(), Stopping))
    {
      StepKeeps(View(), Stopping);
      stopping := true;
    }

    method Reset()
      modifies this
      ensures View() == old(Clear(View()))
    {
      attempts, bindings, retiredOperations, retiredBindings := map[], map[], map[], map[];
      claims, latest, blockedUntil, started := map[], map[], 0, map[];
    }

    method ClearAll()
      requires Valid()
      modifies this
      ensures Valid() && View() == old(Step(View(), Clearing))
    {
      StepKeeps(View(), Clearing);
      Reset();
    }
  }

  /** The tombstone of `b` is one the sweep over the operations outside `rest` has removed. */
  predicate Swept(was: map<Operation, Tombstone>, graves: map<Binding, Tombstone>, b: Binding, rest: set<Operation>,
                  now: nat)
    requires b in graves
  {
    var o := graves[b].operation;
    o in was && o !in rest && was[o].binding == b && !Outlives(was[o], now)
  }
}
