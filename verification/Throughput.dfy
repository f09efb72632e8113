/** The controller that decides, from aggregate progress alone, when to try one more path and whether to
    keep it. Times are seconds, rates exact reals; a missing time is `None`. */
module Throughput {
  import opened Totals

  const SAMPLE_INTERVAL := 1.0
  const OBSERVATION_WINDOW := 3.0
  const FAILURE_BACKOFF := 15.0
  const MAXIMUM_INCONCLUSIVE_BACKOFF := 60.0
  const SAMPLE_LIFETIME := 12.0
  const SETTLEMENT_WINDOW := 12.0
  const IDLE_RETENTION := 10.0
  const MINIMUM_SETTLED_ATTEMPTS := 4
  const MINIMUM_BUSY_MILLISECONDS := 1000
  const SAMPLE_BYTE_BUDGET := 8388608
  const MINIMUM_USEFUL_GAIN := 1.10
  const MINIMUM_OUTPUT_GAIN := 1.05
  const MINIMUM_OUTPUT_RATIO := 0.65

  datatype Identity = Identity(path: nat, lane: nat, epoch: nat)

  datatype Work = Work(offered: nat, settled: nat, completed: nat, completedAttempts: nat, failedAttempts: nat,
                       supersededAttempts: nat, cancelledAttempts: nat, busyMilliseconds: nat)

  datatype PathObservation = PathObservation(identity: Identity, optional: bool, work: Work)

  datatype Observation = Observation(inFlight: nat, queued: nat, unfinished: nat, capacityWaiting: nat,
                                     networkWaiting: nat,
                                     useful: nat, output: nat, remaining: nat, remainingKnown: bool,
                                     paths: seq<PathObservation>, pending: bool)

  datatype Action = Hold | Explore | Sample | Settle | Retire | Keep | Abandon

  datatype Decision = Decision(action: Action, path: Option<Identity>, retryAfter: real)

  datatype Window = Window(at: real, useful: nat, output: nat)

  datatype Rates = Rates(useful: real, output: real)

  datatype SampleTrial = SampleTrial(path: Identity, initial: Work, started: real, window: Window,
                                     settlingUntil: Option<real>)

  datatype Trial = Trial(baseline: Rates, paths: seq<Identity>, sample: Option<SampleTrial>)

  datatype Retry = Retry(paths: seq<Identity>, delay: real)

  datatype Controller = Controller(window: Option<Window>, trial: Option<Trial>, inconclusive: Option<Retry>,
                                   eligibleSince: Option<real>, idleSince: Option<real>, notBefore: Option<real>,
                                   paths: seq<Identity>)

  datatype Reply = Reply(controller: Controller, decision: Decision)

  function Fresh(): Controller { Controller(None, None, None, None, None, None, []) }

  function Sooner(a: real, b: real): real { if a < b then a else b }

  function Held(): Decision { Decision(Hold, None, 0.0) }

  // ---------------------------------------------------------------- reading an observation

  function Identities(paths: seq<PathObservation>): seq<Identity> {
    if paths == [] then [] else [paths[0].identity] + Identities(paths[1..])
  }

  predicate SamePaths(a: seq<Identity>, b: seq<Identity>) { |a| == |b| && forall i | 0 <= i < |a| :: a[i] in b }

  /** The last path observed under `id`. */
  function Target(paths: seq<PathObservation>, id: Identity): Option<PathObservation> {
    if paths == [] then None
    else if paths[|paths| - 1].identity == id then Some(paths[|paths| - 1])
    else Target(paths[..|paths| - 1], id)
  }

  function Others(paths: seq<PathObservation>, id: Identity): seq<Identity> {
    if paths == [] then []
    else (if paths[0].identity == id then [] else [paths[0].identity]) + Others(paths[1..], id)
  }

  function NewestOptional(paths: seq<PathObservation>): Option<Identity> {
    if paths == [] then None
    else if paths[|paths| - 1].optional then Some(paths[|paths| - 1].identity)
    else NewestOptional(paths[..|paths| - 1])
  }

  predicate Existed(known: seq<Identity>, path: nat) { exists i :: 0 <= i < |known| && known[i].path == path }

  /** The first optional path that was not there when the trial began. */
  function NewPath(paths: seq<PathObservation>, known: seq<Identity>): Option<PathObservation> {
    if paths == [] then None
    else if paths[0].optional && !Existed(known, paths[0].identity.path) then Some(paths[0])
    else NewPath(paths[1..], known)
  }

  predicate Busy(o: Observation) {
    (o.networkWaiting > 0 || (o.queued == 0 && o.inFlight > 0 && o.remaining > o.inFlight)) && o.unfinished > 0
    && |o.paths| > 0
  }

  function WindowAt(now: real, o: Observation): Window { Window(now, o.useful, o.output) }

  /** Defined only over an earlier window with no more progress than now: no difference is negative and
      the span is not zero. */
  function RatesAt(now: real, o: Observation, w: Window): Rates
    requires w.useful <= o.useful && w.output <= o.output && w.at < now
  {
    var seconds := now - w.at;
    Rates((o.useful - w.useful) as real / seconds, (o.output - w.output) as real / seconds)
  }

  predicate WorkValid(w: Work, initial: Work) {
    && w.offered >= initial.offered && w.settled >= initial.settled && w.completed >= initial.completed
    && w.completedAttempts >= initial.completedAttempts && w.failedAttempts >= initial.failedAttempts
    && w.supersededAttempts >= initial.supersededAttempts && w.cancelledAttempts >= initial.cancelledAttempts
    && w.busyMilliseconds >= initial.busyMilliseconds
  }

  function WorkSince(w: Work, initial: Work): Work
    requires WorkValid(w, initial)
  {
    Work(w.offered - initial.offered, w.settled - initial.settled, w.completed - initial.completed,
         w.completedAttempts - initial.completedAttempts, w.failedAttempts - initial.failedAttempts,
         w.supersededAttempts - initial.supersededAttempts, w.cancelledAttempts - initial.cancelledAttempts,
         w.busyMilliseconds - initial.busyMilliseconds)
  }

  predicate Representative(w: Work) {
    && w.completedAttempts + w.failedAttempts + w.supersededAttempts >= MINIMUM_SETTLED_ATTEMPTS
    && (w.busyMilliseconds >= MINIMUM_BUSY_MILLISECONDS || w.completed >= SAMPLE_BYTE_BUDGET)
  }

  // ---------------------------------------------------------------- a trial

  function Reset(c: Controller, now: real, o: Observation): Controller {
    c.(window := Some(WindowAt(now, o)), paths := Identities(o.paths))
  }

  function EndTrial(c: Controller, now: real, o: Observation, action: Action, path: Option<Identity>,
                    delay: real): Reply {
    Reply(Reset(c.(trial := None, inconclusive := None, notBefore := Some(now + delay)), now, o),
          Decision(action, path, delay))
  }

  function NextDelay(c: Controller): real {
    if c.inconclusive.Some? then Sooner(c.inconclusive.value.delay * 2.0, MAXIMUM_INCONCLUSIVE_BACKOFF)
    else FAILURE_BACKOFF
  }

  function EndInconclusive(c: Controller, now: real, o: Observation, path: Option<Identity>): Reply
    requires c.trial.Some?
  {
    var ended := EndTrial(c, now, o, Retire, path, NextDelay(c));
    ended.(controller := ended.controller.(inconclusive := Some(Retry(c.trial.value.paths, NextDelay(c)))))
  }

  function AwaitPath(c: Controller, now: real, o: Observation): Reply
    requires c.trial.Some?
  {
    var t := c.trial.value;
    match NewPath(o.paths, t.paths)
    case Some(path) =>
      Reply(c.(trial := Some(t.(sample := Some(SampleTrial(path.identity, path.work, now, WindowAt(now, o), None))))),
            Decision(Sample, Some(path.identity), 0.0))
    case None => if o.pending then Reply(c, Held()) else EndTrial(c, now, o, Abandon, None, FAILURE_BACKOFF)
  }

  predicate Sampling(c: Controller) { c.trial.Some? && c.trial.value.sample.Some? }

  function SetSample(c: Controller, s: SampleTrial): Controller
    requires Sampling(c)
  {
    c.(trial := Some(c.trial.value.(sample := Some(s))))
  }

  function SettleTrial(c: Controller, now: real, o: Observation): Reply
    requires Sampling(c)
  {
    var s := c.trial.value.sample.value;
    var deadline := if s.settlingUntil.Some? then s.settlingUntil.value
                    else Sooner(s.started + SAMPLE_LIFETIME + SETTLEMENT_WINDOW, now + SETTLEMENT_WINDOW);
    if now >= deadline then EndInconclusive(c, now, o, Some(s.path))
    else if s.settlingUntil.Some? then Reply(c, Held())
    else Reply(SetSample(c, s.(settlingUntil := Some(deadline))), Decision(Settle, Some(s.path), 0.0))
  }

  function Evaluate(c: Controller, now: real, o: Observation, work: Work): Reply
    requires Sampling(c)
    requires var w := c.trial.value.sample.value.window; w.useful <= o.useful && w.output <= o.output && w.at < now
  {
    var t := c.trial.value;
    var r := RatesAt(now, o, t.sample.value.window);
    var path := Some(t.sample.value.path);
    if r.output < r.useful * MINIMUM_OUTPUT_RATIO && o.capacityWaiting > 0
    then EndTrial(c, now, o, Retire, path, OBSERVATION_WINDOW)
    else if !Representative(work) then Reply(c, Held())
    else if r.useful >= t.baseline.useful * MINIMUM_USEFUL_GAIN && r.output >= t.baseline.output * MINIMUM_OUTPUT_GAIN
    then EndTrial(c, now, o, Keep, path, 0.0)
    else EndTrial(c, now, o, Retire, path, FAILURE_BACKOFF)
  }

  /** A busy, comparable observation of the sampled path. */
  function Continue(c: Controller, now: real, o: Observation, target: PathObservation): Reply
    requires Sampling(c)
    requires var s := c.trial.value.sample.value;
             WorkValid(target.work, s.initial) && s.window.useful <= o.useful && s.window.output <= o.output
  {
    var s := c.trial.value.sample.value;
    var work := WorkSince(target.work, s.initial);
    var idle := work.offered == 0 && work.busyMilliseconds == 0 && work.settled == 0;
    var watched := if idle then SetSample(c, s.(window := WindowAt(now, o))) else c;
    var w := watched.trial.value.sample.value.window;
    var verdict := if now - w.at >= OBSERVATION_WINDOW then Evaluate(watched, now, o, work) else Reply(watched, Held());
    if verdict.decision.action != Hold then verdict
    else if s.settlingUntil.None? && now - s.started < SAMPLE_LIFETIME then Reply(watched, Held())
    else if target.work.offered > target.work.settled then SettleTrial(watched, now, o)
    else EndInconclusive(watched, now, o, Some(s.path))
  }

  function Advance(c: Controller, now: real, o: Observation): Reply
    requires Sampling(c)
  {
    var t := c.trial.value;
    var s := t.sample.value;
    var target := Target(o.paths, s.path);
    if target.None? then EndTrial(c, now, o, Abandon, Some(s.path), OBSERVATION_WINDOW)
    else if !SamePaths(t.paths, Others(o.paths, s.path))
    then EndTrial(c, now, o, Retire, Some(s.path), OBSERVATION_WINDOW)
    else if !WorkValid(target.value.work, s.initial) || o.useful < s.window.useful || o.output < s.window.output
    then EndTrial(c, now, o, Retire, Some(s.path), OBSERVATION_WINDOW)
    else if Busy(o) then Continue(c, now, o, target.value)
    else if target.value.work.offered > target.value.work.settled && o.unfinished > 0 then SettleTrial(c, now, o)
    else EndTrial(c, now, o, Retire, Some(s.path), OBSERVATION_WINDOW)
  }

  // ---------------------------------------------------------------- outside a trial

  function Rearm(c: Controller, now: real, o: Observation): Controller {
    if c.inconclusive.None? then c
    else if (c.idleSince.Some? && now - c.idleSince.value >= IDLE_RETENTION)
            || (c.window.Some? && (o.useful < c.window.value.useful || o.output < c.window.value.output))
            || !SamePaths(c.inconclusive.value.paths, Identities(o.paths))
    then c.(inconclusive := None, notBefore := Some(now)) else c
  }

  function Notice(c: Controller, now: real, busy: bool): Controller {
    if busy then c.(idleSince := None, eligibleSince := if c.eligibleSince.None? then Some(now) else c.eligibleSince)
    else c.(eligibleSince := None, idleSince := if c.idleSince.None? then Some(now) else c.idleSince)
  }

  /** Whether a closed observation window justifies one more path. */
  predicate Worthwhile(c: Controller, now: real, o: Observation, r: Rates, maximumPaths: nat) {
    && Busy(o) && c.eligibleSince.Some? && now - c.eligibleSince.value >= OBSERVATION_WINDOW
    && (c.notBefore.Some? ==> now >= c.notBefore.value) && !o.pending && |o.paths| < maximumPaths
    && r.useful > 0.0 && r.output > 0.0 && r.output >= r.useful * MINIMUM_OUTPUT_RATIO
    && (o.remainingKnown ==> o.remaining as real >= r.useful * (OBSERVATION_WINDOW + SAMPLE_INTERVAL))
  }

  function Close(c: Controller, now: real, o: Observation, maximumPaths: nat): Reply
    requires c.window.Some? && c.window.value.useful <= o.useful && c.window.value.output <= o.output
             && c.window.value.at < now
  {
    var r := RatesAt(now, o, c.window.value);
    var next := Reset(c, now, o);
    var optional := NewestOptional(o.paths);
    if optional.Some? && r.output < r.useful * MINIMUM_OUTPUT_RATIO && o.capacityWaiting > 0 && !o.pending
    then Reply(next.(notBefore := Some(now + OBSERVATION_WINDOW)), Decision(Retire, optional, 0.0))
    else if !Worthwhile(c, now, o, r, maximumPaths) then Reply(next, Held())
    else Reply(next.(trial := Some(Trial(r, next.paths, None))), Decision(Explore, None, 0.0))
  }

  function Watch(c: Controller, now: real, o: Observation, maximumPaths: nat): Reply {
    var armed := Rearm(c, now, o);
    var optional := NewestOptional(o.paths);
    if !Busy(o) && optional.Some? && !o.pending && armed.idleSince.Some?
       && now - armed.idleSince.value >= IDLE_RETENTION
    then Reply(Reset(armed.(notBefore := Some(now + OBSERVATION_WINDOW)), now, o), Decision(Retire, optional, 0.0))
    else if armed.window.None? || o.useful < armed.window.value.useful || o.output < armed.window.value.output
            || !SamePaths(armed.paths, Identities(o.paths))
    then Reply(Reset(armed, now, o), Held())
    else if now - armed.window.value.at < OBSERVATION_WINDOW then Reply(armed, Held())
    else Close(armed, now, o, maximumPaths)
  }

  function Step(c: Controller, now: real, o: Observation, maximumPaths: nat): Reply {
    var noticed := Notice(c, now, Busy(o));
    if noticed.trial.None? then Watch(noticed, now, o, maximumPaths)
    else if noticed.trial.value.sample.None? then AwaitPath(noticed, now, o)
    else Advance(noticed, now, o)
  }

  datatype Tick = Tick(now: real, observation: Observation, maximumPaths: nat)

  function Run(ticks: seq<Tick>): Controller {
    if ticks == [] then Fresh()
    else
      var last := ticks[|ticks| - 1];
      Step(Run(ticks[..|ticks| - 1]), last.now, last.observation, last.maximumPaths).controller
  }

  function Actions(ticks: seq<Tick>): seq<Action> {
    if ticks == [] then []
    else
      var before, last := ticks[..|ticks| - 1], ticks[|ticks| - 1];
      Actions(before) + [Step(Run(before), last.now, last.observation, last.maximumPaths).decision.action]
  }

  // ---------------------------------------------------------------- the grammar of a run

  /** Where a run stands: outside a trial, waiting for the new path, sampling it, or settling its work. */
  datatype Mode = Outside | Waiting | Watching | Settling | Broken

  /** Explore opens a trial; at most one Sample, then at most one Settle; then exactly one verdict, which
      before the sample can only be Abandon. Outside a trial only Hold and Retire occur. */
  function Next(mode: Mode, action: Action): Mode {
    match mode
    case Outside => (match action case Hold => Outside case Retire => Outside case Explore => Waiting case _ => Broken)
    case Waiting => (match action case Hold => Waiting case Sample => Watching case Abandon => Outside case _ => Broken)
    case Watching =>
      (match action case Hold => Watching case Settle => Settling case Keep => Outside case Retire => Outside
       case Abandon => Outside case _ => Broken)
    case Settling =>
      (match action case Hold => Settling case Keep => Outside case Retire => Outside
       case Abandon => Outside case _ => Broken)
    case Broken => Broken
  }

  function Parse(actions: seq<Action>): Mode {
    if actions == [] then Outside else Next(Parse(actions[..|actions| - 1]), actions[|actions| - 1])
  }

  function ModeOf(c: Controller): Mode {
    if c.trial.None? then Outside
    else if c.trial.value.sample.None? then Waiting
    else if c.trial.value.sample.value.settlingUntil.None? then Watching
    else Settling
  }

  predicate LegalDelay(delay: real) { delay == 15.0 || delay == 30.0 || delay == 60.0 }

  ghost predicate Inv(c: Controller) {
    && (Sampling(c) && c.trial.value.sample.value.settlingUntil.Some? ==>
          c.trial.value.sample.value.settlingUntil.value <= c.trial.value.sample.value.started + SAMPLE_LIFETIME
              + SETTLEMENT_WINDOW)
    && (c.inconclusive.Some? ==> LegalDelay(c.inconclusive.value.delay))
  }

  /** One step of a trial keeps the invariant and stays in the grammar. */
  ghost predicate Proper(c: Controller, r: Reply) {
    Inv(r.controller) && ModeOf(r.controller) == Next(ModeOf(c), r.decision.action) != Broken
  }

  lemma EndKeeps(c: Controller, now: real, o: Observation, action: Action, path: Option<Identity>, delay: real)
    requires Inv(c) && Sampling(c) && (action == Keep || action == Retire || action == Abandon)
    ensures Proper(c, EndTrial(c, now, o, action, path, delay)) && Proper(c, EndInconclusive(c, now, o, path))
  {
  }

  lemma SettleKeeps(c: Controller, now: real, o: Observation)
    requires Inv(c) && Sampling(c)
    ensures Proper(c, SettleTrial(c, now, o))
  {
    EndKeeps(c, now, o, Retire, Some(c.trial.value.sample.value.path), 0.0);
  }

  lemma EvaluateKeeps(c: Controller, now: real, o: Observation, work: Work)
    requires Inv(c) && Sampling(c)
    requires var w := c.trial.value.sample.value.window; w.useful <= o.useful && w.output <= o.output && w.at < now
    ensures Proper(c, Evaluate(c, now, o, work))
  {
    var path := Some(c.trial.value.sample.value.path);
    EndKeeps(c, now, o, Retire, path, OBSERVATION_WINDOW);
    EndKeeps(c, now, o, Keep, path, 0.0);
    EndKeeps(c, now, o, Retire, path, FAILURE_BACKOFF);
  }

  lemma ContinueKeeps(c: Controller, now: real, o: Observation, target: PathObservation)
    requires Inv(c) && Sampling(c)
    requires var s := c.trial.value.sample.value;
             WorkValid(target.work, s.initial) && s.window.useful <= o.useful && s.window.output <= o.output
    ensures Proper(c, Continue(c, now, o, target))
  {
    var s := c.trial.value.sample.value;
    var work := WorkSince(target.work, s.initial);
    var idle := work.offered == 0 && work.busyMilliseconds == 0 && work.settled == 0;
    var watched := if idle then SetSample(c, s.(window := WindowAt(now, o))) else c;
    assert ModeOf(watched) == ModeOf(c) && Inv(watched);
    if now - watched.trial.value.sample.value.window.at >= OBSERVATION_WINDOW { EvaluateKeeps(watched, now, o, work); }
    SettleKeeps(watched, now, o);
    EndKeeps(watched, now, o, Retire, Some(s.path), 0.0);
  }

  lemma AdvanceKeeps(c: Controller, now: real, o: Observation)
    requires Inv(c) && Sampling(c)
    ensures Proper(c, Advance(c, now, o))
  {
    var s := c.trial.value.sample.value;
    var target := Target(o.paths, s.path);
    EndKeeps(c, now, o, Abandon, Some(s.path), OBSERVATION_WINDOW);
    EndKeeps(c, now, o, Retire, Some(s.path), OBSERVATION_WINDOW);
    SettleKeeps(c, now, o);
    if target.Some? && WorkValid(target.value.work, s.initial) && s.window.useful <= o.useful
       && s.window.output <= o.output {
      ContinueKeeps(c, now, o, target.value);
    }
  }

  lemma WatchKeeps(c: Controller, now: real, o: Observation, maximumPaths: nat)
    requires Inv(c) && c.trial.None?
    ensures Proper(c, Watch(c, now, o, maximumPaths))
  {
  }

  lemma AwaitKeeps(c: Controller, now: real, o: Observation)
    requires Inv(c) && c.trial.Some? && c.trial.value.sample.None?
    ensures Proper(c, AwaitPath(c, now, o))
  {
  }

  lemma StepKeeps(c: Controller, now: real, o: Observation, maximumPaths: nat)
    requires Inv(c)
    ensures Proper(c, Step(c, now, o, maximumPaths))
  {
    var noticed := Notice(c, now, Busy(o));
    assert ModeOf(noticed) == ModeOf(c) && Inv(noticed);
    if noticed.trial.None? { WatchKeeps(noticed, now, o, maximumPaths); }
    else if Sampling(noticed) { AdvanceKeeps(noticed, now, o); }
    else { AwaitKeeps(noticed, now, o); }
  }

  /** Every run's actions follow the grammar, whatever is observed and however the clock moves. */
  lemma {:induction false} ActionsParse(ticks: seq<Tick>)
    ensures Inv(Run(ticks)) && Parse(Actions(ticks)) == ModeOf(Run(ticks)) != Broken
    decreases |ticks|
  {
    if ticks != [] {
      var before, last := ticks[..|ticks| - 1], ticks[|ticks| - 1];
      ActionsParse(before);
      StepKeeps(Run(before), last.now, last.observation, last.maximumPaths);
      var actions := Actions(ticks);
      assert actions[..|actions| - 1] == Actions(before);
    }
  }

  /** A sampled trial is over at the first step that comes no earlier than its sample's lifetime and
      settlement window after the sample began. */
  lemma TrialEndsInTime(c: Controller, now: real, o: Observation, maximumPaths: nat)
    requires Inv(c) && Sampling(c)
    requires now >= c.trial.value.sample.value.started + SAMPLE_LIFETIME + SETTLEMENT_WINDOW
    ensures Step(c, now, o, maximumPaths).controller.trial.None?
    ensures Step(c, now, o, maximumPaths).decision.action in {Keep, Retire, Abandon}
  {
  }

  /** A path is kept only on evidence: enough settled attempts, and both rates above the baseline. */
  lemma KeepIsEarned(c: Controller, now: real, o: Observation, maximumPaths: nat)
    requires Step(c, now, o, maximumPaths).decision.action == Keep
    ensures Sampling(c) && Target(o.paths, c.trial.value.sample.value.path).Some?
    ensures var t, s := c.trial.value, c.trial.value.sample.value;
            var target := Target(o.paths, s.path).value;
            && Busy(o) && WorkValid(target.work, s.initial) && Representative(WorkSince(target.work, s.initial))
            && s.window.at + OBSERVATION_WINDOW <= now && s.window.useful <= o.useful && s.window.output <= o.output
            && RatesAt(now, o, s.window).useful >= t.baseline.useful * MINIMUM_USEFUL_GAIN
            && RatesAt(now, o, s.window).output >= t.baseline.output * MINIMUM_OUTPUT_GAIN
  {
  }

  /** A trial is opened only on sustained demand: work was waiting for a full window, the last window made
      progress the consumer kept up with, nothing is pending and a place is free. A backoff is cut short
      only after an inconclusive trial, and only because the paths are no longer those it was about. */
  lemma ExploreIsJustified(c: Controller, now: real, o: Observation, maximumPaths: nat)
    requires Step(c, now, o, maximumPaths).decision.action == Explore
    ensures c.trial.None? && Busy(o) && !o.pending && |o.paths| < maximumPaths && c.window.Some?
    ensures var w := c.window.value;
            && w.at + OBSERVATION_WINDOW <= now && w.useful <= o.useful && w.output <= o.output
            && SamePaths(c.paths, Identities(o.paths))
            && c.eligibleSince.Some? && c.eligibleSince.value + OBSERVATION_WINDOW <= now
            && (c.notBefore.Some? && now < c.notBefore.value ==>
                  c.inconclusive.Some? && !SamePaths(c.inconclusive.value.paths, Identities(o.paths)))
            && var r := RatesAt(now, o, w);
               r.useful > 0.0 && r.output >= r.useful * MINIMUM_OUTPUT_RATIO
               && Step(c, now, o, maximumPaths).controller.trial == Some(Trial(r, Identities(o.paths), None))
  {
  }

  lemma {:induction false} NewPathIsNew(paths: seq<PathObservation>, known: seq<Identity>)
    requires NewPath(paths, known).Some?
    ensures var p := NewPath(paths, known).value;
            p in paths && p.optional && forall i | 0 <= i < |known| :: known[i].path != p.identity.path
  {
    if !(paths[0].optional && !Existed(known, paths[0].identity.path)) { NewPathIsNew(paths[1..], known); }
  }

  /** Only a path that was not there when the trial began is sampled, and every later verdict of the trial
      names that path. */
  lemma TrialJudgesItsPath(c: Controller, now: real, o: Observation, maximumPaths: nat)
    requires c.trial.Some?
    ensures var r := Step(c, now, o, maximumPaths);
            && (r.decision.action == Sample ==>
                  && Sampling(r.controller) && r.decision.path == Some(r.controller.trial.value.sample.value.path)
                  && (exists p :: p in o.paths && p.optional && Some(p.identity) == r.decision.path)
                  && (forall i | 0 <= i < |c.trial.value.paths| ::
                      c.trial.value.paths[i].path != r.decision.path.value.path))
            && (Sampling(c) && r.decision.action != Hold ==> r.decision.path == Some(c.trial.value.sample.value.path))
  {
    if !Sampling(c) && NewPath(o.paths, c.trial.value.paths).Some? {
      NewPathIsNew(o.paths, c.trial.value.paths);
    }
  }

  /** Inconclusive trials back off 15, 30 and then 60 seconds while the baseline stays the same. */
  lemma InconclusiveBackoffDoubles(c: Controller, now: real, o: Observation, path: Option<Identity>)
    requires Inv(c) && c.trial.Some?
    ensures var r := EndInconclusive(c, now, o, path);
            && r.controller.inconclusive.Some?
            && r.controller.notBefore == Some(now + r.controller.inconclusive.value.delay)
            && (c.inconclusive.None? ==> r.controller.inconclusive.value.delay == 15.0)
            && (c.inconclusive.Some? && c.inconclusive.value.delay == 15.0 ==>
                r.controller.inconclusive.value.delay == 30.0)
            && (c.inconclusive.Some? && c.inconclusive.value.delay != 15.0 ==>
                r.controller.inconclusive.value.delay == 60.0)
  {
  }
}
