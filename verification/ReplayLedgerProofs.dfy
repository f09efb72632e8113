/** The replay ledger's bijections, bounds and watermark hold after every history. */
module ReplayLedgerProofs {
  import opened Totals
  import opened ReplayLedger

  // ---------------------------------------------------------------- evidence

  /** A claim is never both granted and refused for capacity. */
  lemma ClaimIsExclusive(s: State, b: Binding)
    ensures !(ClaimVerdict(s, b).acquired && ClaimVerdict(s, b).capacity)
  {
  }

  /** An offer whose identity is past the watermark always gets its claim, unless the path is one too many. */
  lemma EligibleIsClaimed(s: State, operation: Operation, b: Binding, now: nat)
    requires b.valid && Eligible(s, operation, b, now)
    ensures ClaimVerdict(s, b).acquired || ClaimVerdict(s, b).capacity
  {
  }

  lemma ClaimPaths(s: State, operation: Operation, b: Binding)
    requires ClaimVerdict(s, b).acquired && forall p {:trigger PathOk(s, p)} | p in s.started :: PathOk(s, p)
    ensures var t := ClaimEvidence(s, operation, b);
            forall p {:trigger PathOk(t, p)} | p in t.started :: PathOk(t, p)
  {
    var t := ClaimEvidence(s, operation, b);
    forall p | p in t.started ensures PathOk(t, p) { assert PathOk(s, p); }
  }

  lemma ClaimWatermarked(s: State, operation: Operation, b: Binding)
    requires Watermarked(s) && |s.latest| <= s.config.maximumPaths
    ensures Watermarked(ClaimEvidence(s, operation, b))
            && |ClaimEvidence(s, operation, b).latest| <= s.config.maximumPaths
  {
    if ClaimVerdict(s, b).acquired {
      ClaimPaths(s, operation, b);
      InsertSize(s.latest, b.path, b);
    }
  }

  lemma RetireWatermarked(s: State, path: Path)
    requires Watermarked(s) && path in s.latest
    ensures Watermarked(RetirePath(s, path))
  {
    var t := RetirePath(s, path);
    forall p | p in t.latest ensures t.latest[p].path == p && t.latest[p] in t.claims { assert p in s.latest; }
    forall p | p in t.started ensures PathOk(t, p) { assert PathOk(s, p); }
  }

  lemma RetirePathKeeps(s: State, path: Path)
    requires Inv(s)
    ensures Inv(RetirePath(s, path))
  {
    if path in s.latest {
      MatchedFrame(s, RetirePath(s, path));
      RetireWatermarked(s, path);
      RemoveSize(s.latest, path);
    }
  }

  // ---------------------------------------------------------------- tombstones

  /** The tables of attempts and tombstones do not see the evidence. */
  lemma MatchedFrame(s: State, t: State)
    requires Matched(s) && t.attempts == s.attempts && t.bindings == s.bindings
    requires t.retiredOperations == s.retiredOperations && t.retiredBindings == s.retiredBindings
    ensures Matched(t)
  {
    forall o | o in t.attempts ensures ActiveOk(t, o) { assert ActiveOk(s, o); }
    forall b | b in t.bindings ensures BindingOk(t, b) { assert BindingOk(s, b); }
    forall o | o in t.retiredOperations ensures TombstoneOk(t, o) { assert TombstoneOk(s, o); }
    forall b | b in t.retiredBindings ensures GraveOk(t, b) { assert GraveOk(s, b); }
  }

  lemma WatermarkFrame(s: State, t: State)
    requires Watermarked(s) && t.latest == s.latest && t.claims == s.claims && t.started == s.started
    ensures Watermarked(t)
  {
    forall p | p in t.started ensures PathOk(t, p) { assert PathOk(s, p); }
  }

  /** Fewer tombstones, taken away in pairs. */
  ghost predicate Fewer(s: State, t: State) {
    && t == s.(retiredOperations := t.retiredOperations, retiredBindings := t.retiredBindings)
    && (forall o | o in t.retiredOperations ::
        o in s.retiredOperations && t.retiredOperations[o] == s.retiredOperations[o])
    && (forall b | b in t.retiredBindings :: b in s.retiredBindings && t.retiredBindings[b] == s.retiredBindings[b])
    && (forall o | o in s.retiredOperations ::
        s.retiredOperations[o].binding in t.retiredBindings ==> o in t.retiredOperations)
    && (forall o | o in t.retiredOperations :: t.retiredOperations[o].binding in t.retiredBindings)
  }

  lemma FewerMatched(s: State, t: State)
    requires Matched(s) && Fewer(s, t)
    ensures Matched(t)
  {
    forall o | o in t.attempts ensures ActiveOk(t, o) { assert ActiveOk(s, o); }
    forall b | b in t.bindings ensures BindingOk(t, b) { assert BindingOk(s, b); }
    forall o | o in t.retiredOperations ensures TombstoneOk(t, o) { assert TombstoneOk(s, o); }
    forall b | b in t.retiredBindings ensures GraveOk(t, b) { assert GraveOk(s, b); }
  }

  lemma FewerKeeps(s: State, t: State)
    requires Inv(s) && Fewer(s, t)
    ensures Inv(t) && |t.retiredBindings| <= |s.retiredBindings|
  {
    FewerMatched(s, t);
    WatermarkFrame(s, t);
    assert t.retiredBindings.Keys <= s.retiredBindings.Keys;
    SubsetSize(t.retiredBindings.Keys, s.retiredBindings.Keys);
  }

  lemma ExpireIsFewer(s: State, now: nat)
    requires Matched(s)
    ensures Fewer(s, Expire(s, now))
  {
    var t := Expire(s, now);
    forall o | o in s.retiredOperations
      ensures s.retiredOperations[o].binding in t.retiredBindings <==> o in t.retiredOperations
    {
      assert TombstoneOk(s, o);
    }
  }

  lemma ForgetIsFewer(s: State, path: Path)
    requires Matched(s)
    ensures Fewer(s, ForgetPath(s, path))
  {
    var t := ForgetPath(s, path);
    forall o | o in s.retiredOperations
      ensures s.retiredOperations[o].binding in t.retiredBindings <==> o in t.retiredOperations
    {
      assert TombstoneOk(s, o);
      if o in t.retiredOperations {
        forall q | q in s.retiredOperations && s.retiredOperations[q].binding == s.retiredOperations[o].binding
          ensures q == o
        {
          assert TombstoneOk(s, q);
        }
      }
    }
  }

  lemma BuryMatched(s: State, operation: Operation, b: Binding, now: nat)
    requires Matched(s) && operation !in s.attempts && b !in s.bindings
    requires operation !in s.retiredOperations && b !in s.retiredBindings
    ensures Matched(Bury(s, operation, b, now))
            && |Bury(s, operation, b, now).retiredBindings| == |s.retiredBindings| + 1
  {
    var t := Bury(s, operation, b, now);
    forall o | o in t.attempts ensures ActiveOk(t, o) { assert ActiveOk(s, o); }
    forall c | c in t.bindings ensures BindingOk(t, c) { assert BindingOk(s, c); }
    forall o | o in t.retiredOperations ensures TombstoneOk(t, o) { if o != operation { assert TombstoneOk(s, o); } }
    forall c | c in t.retiredBindings ensures GraveOk(t, c) { if c != b { assert GraveOk(s, c); } }
    InsertSize(s.retiredBindings, b, Tombstone(operation, b, now + s.config.ttl));
  }

  // ---------------------------------------------------------------- offers

  lemma RejectKeeps(s: State, operation: Operation, b: Binding, now: nat)
    requires Inv(s)
    ensures Inv(Reject(s, operation, b, now))
  {
    if b.valid {
      var fresher := Expire(s, now);
      ExpireIsFewer(s, now);
      FewerKeeps(s, fresher);
      var claimed := ClaimEvidence(fresher, operation, b);
      ClaimKeeps(fresher, operation, b);
      var t := Reject(s, operation, b, now);
      if t == Bury(claimed, operation, b, now) && t != claimed {
        BuryKeeps(claimed, operation, b, now);
      } else if t != claimed {
        BlockKeeps(claimed, t.blockedUntil);
      }
    }
  }

  lemma BlockKeeps(s: State, until: nat)
    requires Inv(s)
    ensures Inv(s.(blockedUntil := until))
  {
    MatchedFrame(s, s.(blockedUntil := until));
    WatermarkFrame(s, s.(blockedUntil := until));
  }

  lemma ClaimKeeps(s: State, operation: Operation, b: Binding)
    requires Inv(s)
    ensures Inv(ClaimEvidence(s, operation, b))
  {
    ClaimWatermarked(s, operation, b);
    MatchedFrame(s, ClaimEvidence(s, operation, b));
  }

  lemma BuryKeeps(s: State, operation: Operation, b: Binding, now: nat)
    requires Inv(s) && operation !in s.attempts && b !in s.bindings && !Full(s)
    requires operation !in s.retiredOperations && b !in s.retiredBindings
    ensures Inv(Bury(s, operation, b, now))
  {
    BuryMatched(s, operation, b, now);
    WatermarkFrame(s, Bury(s, operation, b, now));
  }

  /** The tables after an admission, whatever happens to the evidence. */
  lemma AdmitTables(s: State, t: State, operation: Operation, b: Binding)
    requires Matched(s) && operation !in s.attempts && operation !in s.retiredOperations && b !in s.bindings
             && b !in s.retiredBindings
    requires t.attempts == s.attempts[operation := Active(b, s.nextId)] && t.bindings == s.bindings[b := operation]
    requires t.retiredOperations == s.retiredOperations && t.retiredBindings == s.retiredBindings
    ensures Matched(t)
  {
    forall o | o in t.attempts ensures ActiveOk(t, o) { if o != operation { assert ActiveOk(s, o); } }
    forall c | c in t.bindings ensures BindingOk(t, c) { if c != b { assert BindingOk(s, c); } }
    forall o | o in t.retiredOperations ensures TombstoneOk(t, o) { assert TombstoneOk(s, o); }
    forall c | c in t.retiredBindings ensures GraveOk(t, c) { assert GraveOk(s, c); }
  }

  lemma AdmitOnePath(s: State, operation: Operation, b: Binding)
    requires OnePerPath(s) && !PathBusy(s, b.path)
    ensures OnePerPath(Admit(s, operation, b))
  {
    assert forall c | c in s.bindings :: c.path != b.path;
  }

  lemma AdmitWatermarked(s: State, operation: Operation, b: Binding)
    requires Watermarked(s) && |s.latest| <= s.config.maximumPaths && ClaimVerdict(s, b).acquired
    ensures Watermarked(Admit(s, operation, b)) && |Admit(s, operation, b).latest| <= s.config.maximumPaths
  {
    var c, t := ClaimEvidence(s, operation, b), Admit(s, operation, b);
    ClaimWatermarked(s, operation, b);
    forall p | p in t.started ensures PathOk(t, p) {
      if p in s.started { assert PathOk(s, p) && PathOk(c, p); }
    }
  }

  lemma AdmitKeeps(s: State, operation: Operation, b: Binding, now: nat)
    requires Inv(s) && Eligible(s, operation, b, now) && !Full(s) && ClaimVerdict(s, b).acquired
    ensures Inv(Admit(s, operation, b))
  {
    AdmitTables(s, Admit(s, operation, b), operation, b);
    AdmitOnePath(s, operation, b);
    AdmitWatermarked(s, operation, b);
    InsertSize(s.bindings, b, operation);
    InsertSize(s.attempts, operation, Active(b, s.nextId));
  }

  lemma LeanKeeps(s: State, path: Path, now: nat)
    requires Inv(s)
    ensures Inv(Expire(s, now)) && Inv(ForgetPath(Expire(s, now), path))
  {
    var fresher := Expire(s, now);
    ExpireIsFewer(s, now);
    FewerKeeps(s, fresher);
    ForgetIsFewer(fresher, path);
    FewerKeeps(fresher, ForgetPath(fresher, path));
  }

  /** Forgetting a path's tombstones leaves an eligible offer eligible. */
  lemma ForgetEligible(s: State, operation: Operation, b: Binding, now: nat)
    requires Eligible(s, operation, b, now)
    ensures Eligible(ForgetPath(s, b.path), operation, b, now)
  {
  }

  lemma StartKeeps(s: State, operation: Operation, b: Binding, pathRetired: bool, now: nat)
    requires Inv(s)
    ensures Inv(StartAttempt(s, operation, b, pathRetired, now))
  {
    var fresher := Expire(s, now);
    LeanKeeps(s, b.path, now);
    if !s.stopping && !pathRetired && Eligible(fresher, operation, b, now) {
      var lean := ForgetPath(fresher, b.path);
      ForgetEligible(fresher, operation, b, now);
      if !Full(lean) && ClaimVerdict(lean, b).acquired { AdmitKeeps(lean, operation, b, now); }
    }
  }

  lemma LeaveMatched(s: State, operation: Operation)
    requires Matched(s) && operation in s.attempts
    ensures var b := s.attempts[operation].binding;
            var left := s.(attempts := s.attempts - {operation}, bindings := s.bindings - {b});
            && Matched(left) && b in s.bindings && operation !in s.retiredOperations && b !in s.retiredBindings
            && |left.bindings| == |s.bindings| - 1 && |left.attempts| == |s.attempts| - 1
  {
    var b := s.attempts[operation].binding;
    var left := s.(attempts := s.attempts - {operation}, bindings := s.bindings - {b});
    assert ActiveOk(s, operation);
    forall o | o in left.attempts ensures ActiveOk(left, o) { assert ActiveOk(s, o); }
    forall c | c in left.bindings ensures BindingOk(left, c) { assert BindingOk(s, c); }
    forall o | o in left.retiredOperations ensures TombstoneOk(left, o) { assert TombstoneOk(s, o); }
    forall c | c in left.retiredBindings ensures GraveOk(left, c) { assert GraveOk(s, c); }
    RemoveSize(s.bindings, b);
    RemoveSize(s.attempts, operation);
  }

  /** Every attempt can leave its tombstone: the place was reserved when it was admitted. */
  lemma DoneKeeps(s: State, operation: Operation, id: nat, now: nat)
    requires Inv(s)
    ensures Inv(AttemptDone(s, operation, id, now))
  {
    if operation in s.attempts && s.attempts[operation].id == id {
      var b := s.attempts[operation].binding;
      var left := s.(attempts := s.attempts - {operation}, bindings := s.bindings - {b});
      LeaveMatched(s, operation);
      WatermarkFrame(s, left);
      if !s.stopping {
        BuryMatched(left, operation, b, now);
        WatermarkFrame(left, Bury(left, operation, b, now));
      }
    }
  }

  // ---------------------------------------------------------------- every history

  lemma StepKeeps(s: State, e: Event)
    requires Inv(s)
    ensures Inv(Step(s, e))
  {
    match e
    case Rejecting(operation, b, now) => RejectKeeps(s, operation, b, now);
    case Starting(operation, b, pathRetired, now) => StartKeeps(s, operation, b, pathRetired, now);
    case Ending(operation, id, now) => DoneKeeps(s, operation, id, now);
    case Expiring(now) =>
      ExpireIsFewer(s, now);
      FewerKeeps(s, Expire(s, now));
    case Retiring(path) => RetirePathKeeps(s, path);
    case Stopping =>
      MatchedFrame(s, s.(stopping := true));
      WatermarkFrame(s, s.(stopping := true));
    case Clearing =>
  }

  /** After every history: both bijections, room for a tombstone of every active attempt, at most eight
      attempts and one per path, and started sequences that climb strictly on each path. */
  lemma {:induction false} LedgerIsSound(config: Config, events: seq<Event>)
    ensures Inv(Run(config, events))
    decreases |events|
  {
    if events != [] {
      LedgerIsSound(config, events[..|events| - 1]);
      StepKeeps(Run(config, events[..|events| - 1]), events[|events| - 1]);
    }
  }

  /** A sequence once claimed on a path is never admissible again while the path lives, whether or not its
      tombstone has expired. */
  lemma PastSequencesStayPast(s: State, e: Event, b: Binding)
    requires Claimed(s, b) && e != Retiring(b.path) && !e.Clearing?
    ensures Claimed(Step(s, e), b)
  {
    match e
    case Rejecting(operation, c, now) => RejectStaysPast(s, operation, c, now, b);
    case Starting(operation, c, pathRetired, now) => StartStaysPast(s, operation, c, pathRetired, now, b);
    case _ =>
  }

  lemma RejectStaysPast(s: State, operation: Operation, c: Binding, now: nat, b: Binding)
    requires Claimed(s, b)
    ensures Claimed(Reject(s, operation, c, now), b)
  {
    var claimed := ClaimEvidence(Expire(s, now), operation, c);
    ClaimStaysPast(Expire(s, now), operation, c, b);
    var t := Reject(s, operation, c, now);
    assert t == s || t == claimed || t == Bury(claimed, operation, c, now)
           || t == claimed.(blockedUntil := t.blockedUntil);
  }

  lemma StartStaysPast(s: State, operation: Operation, c: Binding, pathRetired: bool, now: nat, b: Binding)
    requires Claimed(s, b)
    ensures Claimed(StartAttempt(s, operation, c, pathRetired, now), b)
  {
    var lean := ForgetPath(Expire(s, now), c.path);
    ClaimStaysPast(lean, operation, c, b);
    assert StartAttempt(s, operation, c, pathRetired, now).latest == s.latest
           || StartAttempt(s, operation, c, pathRetired, now).latest == ClaimEvidence(lean, operation, c).latest;
  }

  lemma ClaimStaysPast(s: State, operation: Operation, c: Binding, b: Binding)
    requires Claimed(s, b)
    ensures Claimed(ClaimEvidence(s, operation, c), b)
  {
  }

  ghost predicate KeepsPath(events: seq<Event>, path: Path) {
    forall i | 0 <= i < |events| :: events[i] != Retiring(path) && !events[i].Clearing?
  }

  lemma {:induction false} StaysClaimed(config: Config, before: seq<Event>, later: seq<Event>, b: Binding)
    requires Claimed(Run(config, before), b) && KeepsPath(later, b.path)
    ensures Claimed(Run(config, before + later), b)
    decreases |later|
  {
    if later == [] {
      assert before + later == before;
    } else {
      var shorter := later[..|later| - 1];
      assert (before + later)[..|before + later| - 1] == before + shorter;
      StaysClaimed(config, before, shorter, b);
      PastSequencesStayPast(Run(config, before + shorter), later[|later| - 1], b);
    }
  }

  /** No replay: once a sequence is claimed, by an attempt or by a rejected offer, no offer with it or an
      earlier one starts on that path until the path is retired, whatever expired meanwhile. */
  lemma NoReplay(config: Config, before: seq<Event>, later: seq<Event>, b: Binding, operation: Operation,
                 pathRetired: bool, now: nat)
    requires Claimed(Run(config, before), b) && KeepsPath(later, b.path)
    ensures !Starts(Run(config, before + later), operation, b, pathRetired, now)
  {
    StaysClaimed(config, before, later, b);
  }

  /** Exactly the started offers become active. */
  lemma StartsExactly(s: State, operation: Operation, b: Binding, pathRetired: bool, now: nat)
    ensures var t := StartAttempt(s, operation, b, pathRetired, now);
            && (Starts(s, operation, b, pathRetired, now) <==> operation in t.attempts && operation !in s.attempts)
            && (Starts(s, operation, b, pathRetired, now) ==>
                t.attempts[operation].binding == b && t.bindings == s.bindings[b := operation])
            && (!Starts(s, operation, b, pathRetired, now) ==> t.attempts == s.attempts && t.bindings == s.bindings)
  {
    if Starts(s, operation, b, pathRetired, now) {
      assert StartAttempt(s, operation, b, pathRetired, now) == Admit(ForgetPath(Expire(s, now), b.path), operation, b);
    }
  }

  /** A rejected new identity is never forgotten at once: it leaves a tombstone, or starting is blocked for
      as long as the tombstone would have lived. */
  lemma RejectionLeavesTrace(s: State, operation: Operation, b: Binding, now: nat)
    requires b.valid && !s.stopping && b !in s.bindings && operation !in s.attempts
             && !ClaimVerdict(Expire(s, now), b).capacity
    ensures var t := Reject(s, operation, b, now);
            operation in t.retiredOperations || b in t.retiredBindings || t.blockedUntil >= now + s.config.ttl
  {
    var claimed := ClaimEvidence(Expire(s, now), operation, b);
    if !(operation in claimed.retiredOperations || b in claimed.retiredBindings) {
      if Full(claimed) {
        assert Reject(s, operation, b, now) == claimed.(blockedUntil := Max(s.blockedUntil, now + s.config.ttl));
      } else {
        assert Reject(s, operation, b, now) == Bury(claimed, operation, b, now);
      }
    } else {
      assert Reject(s, operation, b, now) == claimed;
    }
  }

  lemma BlockStep(s: State, e: Event)
    requires !e.Clearing?
    ensures Step(s, e).blockedUntil >= s.blockedUntil
  {
  }

  /** A block holds to its end: before that time no offer starts, over any continuation but the final
      clearing. */
  lemma {:induction false} BlockHolds(config: Config, before: seq<Event>, later: seq<Event>, operation: Operation,
                                      b: Binding, pathRetired: bool, now: nat)
    requires now < Run(config, before).blockedUntil && forall i | 0 <= i < |later| :: !later[i].Clearing?
    ensures now < Run(config, before + later).blockedUntil
            && !Starts(Run(config, before + later), operation, b, pathRetired, now)
    decreases |later|
  {
    if later == [] {
      assert before + later == before;
    } else {
      var shorter := later[..|later| - 1];
      assert (before + later)[..|before + later| - 1] == before + shorter;
      BlockHolds(config, before, shorter, operation, b, pathRetired, now);
      BlockStep(Run(config, before + shorter), later[|later| - 1]);
    }
  }
}
