/** The controller as an object whose fields each step updates, with the scans over observed paths as
    loops. */
module ThroughputController {
  import opened Totals
  import opened Throughput

  method CollectIdentities(paths: seq<PathObservation>) returns (ids: seq<Identity>)
    ensures ids == Identities(paths)
  {
    ids := [];
    var i := 0;
    assert paths[0..] == paths;
    while i < |paths|
      invariant 0 <= i <= |paths|
      invariant ids + Identities(paths[i..]) == Identities(paths)
    {
      assert paths[i..][1..] == paths[i + 1..];
      ids := ids + [paths[i].identity];
      i := i + 1;
    }
    assert paths[|paths|..] == [];
  }

  method CheckSamePaths(a: seq<Identity>, b: seq<Identity>) returns (same: bool)
    ensures same == SamePaths(a, b)
  {
    if |a| != |b| { return false; }
    var i := 0;
    while i < |a|
      invariant 0 <= i <= |a| && forall j | 0 <= j < i :: a[j] in b
    {
      if a[i] !in b { return false; }
      i := i + 1;
    }
    return true;
  }

  lemma OthersStep(paths: seq<PathObservation>, i: nat, id: Identity)
    requires i < |paths|
    ensures Others(paths[i..], id)
            == (if paths[i].identity == id then [] else [paths[i].identity]) + Others(paths[i + 1..], id)
  {
    assert paths[i..][1..] == paths[i + 1..];
  }

  lemma TargetStep(paths: seq<PathObservation>, i: nat, id: Identity)
    requires i < |paths|
    ensures Target(paths[..i + 1], id) == if paths[i].identity == id then Some(paths[i]) else Target(paths[..i], id)
  {
    assert paths[..i + 1][..i] == paths[..i];
  }

  /** One scan finds the sampled path and lists all others. */
  method SplitPaths(paths: seq<PathObservation>, id: Identity)
    returns (target: Option<PathObservation>, others: seq<Identity>)
    ensures target == Target(paths, id) && others == Others(paths, id)
  {
    target, others := None, [];
    var i := 0;
    assert paths[0..] == paths && paths[..0] == [];
    while i < |paths|
      invariant 0 <= i <= |paths|
      invariant target == Target(paths[..i], id)
      invariant others + Others(paths[i..], id) == Others(paths, id)
    {
      OthersStep(paths, i, id);
      TargetStep(paths, i, id);
      if paths[i].identity == id {
        target := Some(paths[i]);
      } else {
        others := others + [paths[i].identity];
      }
      i := i + 1;
    }
    assert paths[|paths|..] == [] && paths[..|paths|] == paths;
  }

  method FindNewestOptional(paths: seq<PathObservation>) returns (newest: Option<Identity>)
    ensures newest == NewestOptional(paths)
  {
    var i := |paths|;
    assert paths[..|paths|] == paths;
    while i > 0
      invariant 0 <= i <= |paths|
      invariant NewestOptional(paths) == NewestOptional(paths[..i])
    {
      assert paths[..i][..i - 1] == paths[..i - 1];
      if paths[i - 1].optional { return Some(paths[i - 1].identity); }
      i := i - 1;
    }
    return None;
  }

  method FindExisted(known: seq<Identity>, path: nat) returns (existed: bool)
    ensures existed == Existed(known, path)
  {
    var i := 0;
    while i < |known|
      invariant 0 <= i <= |known| && forall j | 0 <= j < i :: known[j].path != path
    {
      if known[i].path == path { return true; }
      i := i + 1;
    }
    return false;
  }

  method FindNewPath(paths: seq<PathObservation>, known: seq<Identity>) returns (found: Option<PathObservation>)
    ensures found == NewPath(paths, known)
  {
    var i := 0;
    assert paths[0..] == paths;
    while i < |paths|
      invariant 0 <= i <= |paths|
      invariant NewPath(paths, known) == NewPath(paths[i..], known)
    {
      assert paths[i..][1..] == paths[i + 1..];
      if paths[i].optional {
        var existed := FindExisted(known, paths[i].identity.path);
        if !existed { return Some(paths[i]); }
      }
      i := i + 1;
    }
    return None;
  }

  class TrialController {
    var window: Option<Window>
    var trial: Option<Trial>
    var inconclusive: Option<Retry>
    var eligibleSince: Option<real>
    var idleSince: Option<real>
    var notBefore: Option<real>
    var paths: seq<Identity>

    ghost function View(): Controller
      reads this
    {
      Controller(window, trial, inconclusive, eligibleSince, idleSince, notBefore, paths)
    }

    ghost predicate Valid()
      reads this
    {
      Inv(View())
    }

    constructor ()
      ensures Valid() && View() == Fresh()
    {
      window, trial, inconclusive, eligibleSince, idleSince, notBefore, paths := None, None, None, None, None, None, [];
    }

    method ResetWindow(now: real, o: Observation)
      modifies `window, `paths
      ensures View() == old(Reset(View(), now, o))
    {
      window := Some(WindowAt(now, o));
      paths := CollectIdentities(o.paths);
    }

    method EndTrial(now: real, o: Observation, action: Action, path: Option<Identity>,
                    delay: real) returns (d: Decision)
      modifies this
      ensures Reply(View(), d) == old(Throughput.EndTrial(View(), now, o, action, path, delay))
    {
      trial := None;
      inconclusive := None;
      notBefore := Some(now + delay);
      ResetWindow(now, o);
      return Decision(action, path, delay);
    }

    method EndInconclusiveTrial(now: real, o: Observation, path: Option<Identity>) returns (d: Decision)
      requires trial.Some?
      modifies this
      ensures Reply(View(), d) == old(EndInconclusive(View(), now, o, path))
    {
      var delay := FAILURE_BACKOFF;
      if inconclusive.Some? {
        delay := Sooner(inconclusive.value.delay * 2.0, MAXIMUM_INCONCLUSIVE_BACKOFF);
      }
      var retry := Retry(trial.value.paths, delay);
      d := EndTrial(now, o, Retire, path, delay);
      inconclusive := Some(retry);
    }

    method AwaitTrialPath(now: real, o: Observation) returns (d: Decision)
      requires trial.Some?
      modifies this
      ensures Reply(View(), d) == old(AwaitPath(View(), now, o))
    {
      var found := FindNewPath(o.paths, trial.value.paths);
      if found.Some? {
        var path := found.value;
        trial := Some(trial.value.(sample := Some(SampleTrial(path.identity, path.work, now, WindowAt(now, o), None))));
        return Decision(Sample, Some(path.identity), 0.0);
      }
      if o.pending { return Held(); }
      d := EndTrial(now, o, Abandon, None, FAILURE_BACKOFF);
    }

    method SettleTrial(now: real, o: Observation) returns (d: Decision)
      requires Sampling(View())
      modifies this
      ensures Reply(View(), d) == old(Throughput.SettleTrial(View(), now, o))
    {
      var s := trial.value.sample.value;
      var deadline;
      if s.settlingUntil.Some? {
        deadline := s.settlingUntil.value;
      } else {
        deadline := Sooner(s.started + SAMPLE_LIFETIME + SETTLEMENT_WINDOW, now + SETTLEMENT_WINDOW);
      }
      if now >= deadline {
        d := EndInconclusiveTrial(now, o, Some(s.path));
        return;
      }
      if s.settlingUntil.Some? { return Held(); }
      trial := Some(trial.value.(sample := Some(s.(settlingUntil := Some(deadline)))));
      return Decision(Settle, Some(s.path), 0.0);
    }

    method EvaluateTrial(now: real, o: Observation, work: Work) returns (d: Decision)
      requires Sampling(View())
      requires var w := trial.value.sample.value.window; w.useful <= o.useful && w.output <= o.output && w.at < now
      modifies this
      ensures Reply(View(), d) == old(Evaluate(View(), now, o, work))
    {
      var t := trial.value;
      var r := RatesAt(now, o, t.sample.value.window);
      var path := Some(t.sample.value.path);
      if r.output < r.useful * MINIMUM_OUTPUT_RATIO && o.capacityWaiting > 0 {
        d := EndTrial(now, o, Retire, path, OBSERVATION_WINDOW);
        return;
      }
      if !Representative(work) { return Held(); }
      if r.useful >= t.baseline.useful * MINIMUM_USEFUL_GAIN && r.output >= t.baseline.output * MINIMUM_OUTPUT_GAIN {
        d := EndTrial(now, o, Keep, path, 0.0);
        return;
      }
      d := EndTrial(now, o, Retire, path, FAILURE_BACKOFF);
    }

    method ContinueTrial(now: real, o: Observation, target: PathObservation) returns (d: Decision)
      requires Sampling(View())
      requires var s := trial.value.sample.value;
               WorkValid(target.work, s.initial) && s.window.useful <= o.useful && s.window.output <= o.output
      modifies this
      ensures Reply(View(), d) == old(Continue(View(), now, o, target))
    {
      var s := trial.value.sample.value;
      var work := WorkSince(target.work, s.initial);
      if work.offered == 0 && work.busyMilliseconds == 0 && work.settled == 0 {
        trial := Some(trial.value.(sample := Some(s.(window := WindowAt(now, o)))));
      }
      if now - trial.value.sample.value.window.at >= OBSERVATION_WINDOW {
        d := EvaluateTrial(now, o, work);
        if d.action != Hold { return; }
      }
      if s.settlingUntil.None? && now - s.started < SAMPLE_LIFETIME { return Held(); }
      if target.work.offered > target.work.settled {
        d := SettleTrial(now, o);
      } else {
        d := EndInconclusiveTrial(now, o, Some(s.path));
      }
    }

    method AdvanceTrial(now: real, o: Observation) returns (d: Decision)
      requires Sampling(View())
      modifies this
      ensures Reply(View(), d) == old(Advance(View(), now, o))
    {
      var t, s := trial.value, trial.value.sample.value;
      var target, others := SplitPaths(o.paths, s.path);
      if target.None? {
        d := EndTrial(now, o, Abandon, Some(s.path), OBSERVATION_WINDOW);
        return;
      }
      var same := CheckSamePaths(t.paths, others);
      if !same || !WorkValid(target.value.work, s.initial) || o.useful < s.window.useful || o.output < s.window.output {
        d := EndTrial(now, o, Retire, Some(s.path), OBSERVATION_WINDOW);
        return;
      }
      if Busy(o) {
        d := ContinueTrial(now, o, target.value);
      } else if target.value.work.offered > target.value.work.settled && o.unfinished > 0 {
        d := SettleTrial(now, o);
      } else {
        d := EndTrial(now, o, Retire, Some(s.path), OBSERVATION_WINDOW);
      }
    }

    method RearmExploration(now: real, o: Observation)
      modifies `inconclusive, `notBefore
      ensures View() == old(Rearm(View(), now, o))
    {
      if inconclusive.None? { return; }
      var idle := idleSince.Some? && now - idleSince.value >= IDLE_RETENTION;
      var reset := window.Some? && (o.useful < window.value.useful || o.output < window.value.output);
      var ids := CollectIdentities(o.paths);
      var same := CheckSamePaths(inconclusive.value.paths, ids);
      if idle || reset || !same {
        inconclusive := None;
        notBefore := Some(now);
      }
    }

    method CloseWindow(now: real, o: Observation, maximumPaths: nat) returns (d: Decision)
      requires window.Some? && window.value.useful <= o.useful && window.value.output <= o.output
               && window.value.at < now
      modifies this
      ensures Reply(View(), d) == old(Close(View(), now, o, maximumPaths))
    {
      var r := RatesAt(now, o, window.value);
      ResetWindow(now, o);
      var optional := FindNewestOptional(o.paths);
      var outputLimited := r.output < r.useful * MINIMUM_OUTPUT_RATIO;
      if optional.Some? && outputLimited && o.capacityWaiting > 0 && !o.pending {
        notBefore := Some(now + OBSERVATION_WINDOW);
        return Decision(Retire, optional, 0.0);
      }
      if !Busy(o) || eligibleSince.None? || now - eligibleSince.value < OBSERVATION_WINDOW
         || (notBefore.Some? && now < notBefore.value) || o.pending || |o.paths| >= maximumPaths
         || r.useful <= 0.0 || r.output <= 0.0 || outputLimited {
        return Held();
      }
      if o.remainingKnown && o.remaining as real < r.useful * (OBSERVATION_WINDOW + SAMPLE_INTERVAL) { return Held(); }
      trial := Some(Trial(r, paths, None));
      return Decision(Explore, None, 0.0);
    }

    method WatchProgress(now: real, o: Observation, maximumPaths: nat) returns (d: Decision)
      modifies this
      ensures Reply(View(), d) == old(Watch(View(), now, o, maximumPaths))
    {
      RearmExploration(now, o);
      var optional := FindNewestOptional(o.paths);
      if !Busy(o) && optional.Some? && !o.pending && idleSince.Some? && now - idleSince.value >= IDLE_RETENTION {
        notBefore := Some(now + OBSERVATION_WINDOW);
        ResetWindow(now, o);
        return Decision(Retire, optional, 0.0);
      }
      var ids := CollectIdentities(o.paths);
      var same := CheckSamePaths(paths, ids);
      if window.None? || o.useful < window.value.useful || o.output < window.value.output || !same {
        ResetWindow(now, o);
        return Held();
      }
      if now - window.value.at < OBSERVATION_WINDOW { return Held(); }
      d := CloseWindow(now, o, maximumPaths);
    }

    method NoticeDemand(now: real, busy: bool)
      modifies `idleSince, `eligibleSince
      ensures View() == old(Notice(View(), now, busy))
    {
      if busy {
        idleSince := None;
        if eligibleSince.None? { eligibleSince := Some(now); }
      } else {
        eligibleSince := None;
        if idleSince.None? { idleSince := Some(now); }
      }
    }

    method Step(now: real, o: Observation, maximumPaths: nat) returns (d: Decision)
      requires Valid()
      modifies this
      ensures Valid() && Reply(View(), d) == old(Throughput.Step(View(), now, o, maximumPaths))
      ensures ModeOf(View()) == Next(old(ModeOf(View())), d.action) != Broken
    {
      StepKeeps(View(), now, o, maximumPaths);
      NoticeDemand(now, Busy(o));
      if trial.None? {
        d := WatchProgress(now, o, maximumPaths);
      } else if trial.value.sample.None? {
        d := AwaitTrialPath(now, o);
      } else {
        d := AdvanceTrial(now, o);
      }
    }
  }
}
