/** The boundary between core lane admission and transport failure on the sender: one goroutine opens,
    admits and publishes, while the execution loop may reach its terminal at any time. */
module PeerAdmission {
  import opened Totals
  import opened PeerPhase

  datatype AdmissionPhase = Idle | Pending | Resolved | Closed

  /** What core returned: whether authenticated settlement began, and whether the lane is installed and
      its acceptance delivered. */
  datatype Outcome = Outcome(began: bool, admitted: bool)

  datatype CoreAdmission = CoreAdmission(phase: AdmissionPhase, result: Option<Outcome>)

  function BeginCore(a: CoreAdmission): CoreAdmission { if a.phase == Idle then a.(phase := Pending) else a }

  function ResolveCore(a: CoreAdmission, result: Outcome): CoreAdmission {
    if a.phase == Pending then CoreAdmission(Resolved, Some(result)) else a
  }

  /** The terminal closes an admission nobody started; a started one it has to wait for. */
  function CloseAtTerminal(a: CoreAdmission): CoreAdmission { if a.phase == Idle then a.(phase := Closed) else a }

  /** What the terminal learns: nothing was started, or the result; `None` while core still runs. */
  function TerminalAnswer(a: CoreAdmission): Option<Option<Outcome>> {
    match a.phase
    case Idle => Some(None)
    case Closed => Some(None)
    case Pending => None
    case Resolved => Some(a.result)
  }

  datatype AdmissionOp = Starts | Resolves(result: Outcome) | Ends

  function AdmissionStep(a: CoreAdmission, op: AdmissionOp): CoreAdmission {
    match op
    case Starts => BeginCore(a)
    case Resolves(result) => ResolveCore(a, result)
    case Ends => CloseAtTerminal(a)
  }

  function AdmissionRun(ops: seq<AdmissionOp>): CoreAdmission {
    if ops == [] then CoreAdmission(Idle, None) else AdmissionStep(AdmissionRun(ops[..|ops| - 1]), ops[|ops| - 1])
  }

  /** Reference: who came first, core or the terminal. */
  function CoreFirst(ops: seq<AdmissionOp>): bool {
    ops != [] && (ops[0].Starts? || (ops[0].Resolves? && CoreFirst(ops[1..])))
  }

  function TerminalFirst(ops: seq<AdmissionOp>): bool {
    ops != [] && (ops[0].Ends? || (ops[0].Resolves? && TerminalFirst(ops[1..])))
  }

  /** Reference: the first result after core started. */
  function FirstResult(ops: seq<AdmissionOp>, started: bool): Option<Outcome> {
    if ops == [] then None
    else if started && ops[0].Resolves? then Some(ops[0].result)
    else FirstResult(ops[1..], started || ops[0].Starts?)
  }

  lemma {:induction false} CoreFirstExtends(ops: seq<AdmissionOp>, op: AdmissionOp)
    ensures CoreFirst(ops + [op]) <==> CoreFirst(ops) || (!TerminalFirst(ops) && op.Starts?)
    ensures TerminalFirst(ops + [op]) <==> TerminalFirst(ops) || (!CoreFirst(ops) && op.Ends?)
  {
    if ops == [] {
      assert ops + [op] == [op];
    } else {
      assert (ops + [op])[1..] == ops[1..] + [op];
      CoreFirstExtends(ops[1..], op);
    }
  }

  lemma {:induction false} FirstResultExtends(ops: seq<AdmissionOp>, op: AdmissionOp, started: bool)
    ensures FirstResult(ops + [op], started) ==
            if FirstResult(ops, started).Some? then FirstResult(ops, started)
            else if (started || exists i :: 0 <= i < |ops| && ops[i].Starts?) && op.Resolves? then Some(op.result)
            else None
  {
    if ops == [] {
      assert ops + [op] == [op];
    } else {
      assert (ops + [op])[1..] == ops[1..] + [op];
      FirstResultExtends(ops[1..], op, started || ops[0].Starts?);
      assert (exists i :: 0 <= i < |ops| && ops[i].Starts?) <==>
             ops[0].Starts? || exists i :: 0 <= i < |ops[1..]| && ops[1..][i].Starts? by {
        if i :| 0 <= i < |ops| && ops[i].Starts? {
          if i > 0 { assert ops[1..][i - 1].Starts?; }
        }
      }
    }
  }

  lemma {:induction false} CoreFirstStarted(ops: seq<AdmissionOp>)
    requires CoreFirst(ops)
    ensures exists i :: 0 <= i < |ops| && ops[i].Starts?
  {
    if !ops[0].Starts? {
      CoreFirstStarted(ops[1..]);
      var i :| 0 <= i < |ops[1..]| && ops[1..][i].Starts?;
      assert ops[i + 1].Starts?;
    }
  }

  /** A started core admission always supplies the result seen at a terminal, an unstarted one never
      does: the phase is decided by who came first, and the result is the first one core gave. */
  lemma {:induction false} StartedAdmissionSuppliesResult(ops: seq<AdmissionOp>)
    ensures var a := AdmissionRun(ops);
            && (a.phase == Closed <==> TerminalFirst(ops))
            && (a.phase == Pending || a.phase == Resolved <==> CoreFirst(ops))
            && !(CoreFirst(ops) && TerminalFirst(ops))
            && (a.phase != Resolved ==> a.result.None?)
            && (CoreFirst(ops) ==> a.result == FirstResult(ops, false) && (a.phase == Resolved <==> a.result.Some?))
            && (CoreFirst(ops) ==>
                TerminalAnswer(a) == if FirstResult(ops, false).Some? then Some(FirstResult(ops, false)) else None)
            && (TerminalFirst(ops) ==> TerminalAnswer(a) == Some(None))
    decreases |ops|
  {
    if ops != [] {
      var before, op := ops[..|ops| - 1], ops[|ops| - 1];
      assert ops == before + [op];
      StartedAdmissionSuppliesResult(before);
      CoreFirstExtends(before, op);
      FirstResultExtends(before, op, false);
      if CoreFirst(before) { CoreFirstStarted(before); }
      else if !TerminalFirst(before) { NoResultBeforeStart(before); }
    }
  }

  /** Results offered before core started count for nothing. */
  lemma {:induction false} NoResultBeforeStart(ops: seq<AdmissionOp>)
    requires !CoreFirst(ops) && !TerminalFirst(ops)
    ensures FirstResult(ops, false) == None
  {
    if ops != [] { NoResultBeforeStart(ops[1..]); }
  }

  // ---------------------------------------------------------------- the whole attempt

  /** Where the admitting goroutine is. */
  datatype Worker = Opening | Transitioned | Admitting(asked: bool) | Returned

  /** `accepted` is the result the loop accepted as the owner of the terminal. */
  datatype Attempt = Attempt(phases: Lifecycle, admission: CoreAdmission, worker: Worker, began: bool,
                             accepted: Option<bool>)

  function NewAttempt(staged: bool): Attempt {
    Attempt(PeerPhase.Create(staged), CoreAdmission(Idle, None), Opening, false, None)
  }

  datatype AttemptOp =
    | Phase(op: Operation)
    | Opened(timer: bool)
    | EntersCore
    | Authenticates
    | Returns(admitted: bool)
    | Accepts
    | EndsUnstarted

  /** The loop's own phase sections; opening, settlement and settling belong to the other steps. */
  predicate LoopOp(op: Operation) {
    op.Negotiate? || op.Expires? || op.TimerFires? || op.Cancels? || op.Terminates? || op.Observes?
  }

  function AttemptStep(t: Attempt, op: AttemptOp): Attempt {
    match op
    case Phase(o) => if LoopOp(o) then t.(phases := Step(t.phases, o)) else t
    case Opened(timer) =>
      if t.worker != Opening then t
      else
        var next := BeginAdmission(t.phases, timer);
        t.(phases := next, worker := if t.phases.status == Negotiating && timer then Transitioned else Returned)
    case EntersCore =>
      if t.worker != Transitioned then t
      else t.(admission := BeginCore(t.admission),
              worker := if t.admission.phase == Idle then Admitting(false) else Returned)
    case Authenticates =>
      if t.worker != Admitting(false) then t
      else t.(phases := BeginSettlement(t.phases), began := t.phases.status == Waiting, worker := Admitting(true))
    case Returns(admitted) =>
      if !t.worker.Admitting? then t
      else t.(admission := ResolveCore(t.admission, Outcome(t.began, admitted)), worker := Returned)
    case Accepts =>
      if t.admission.phase != Resolved || t.admission.result.None? || !Settles(t.phases, t.admission.result.value.began)
      then t
      else
        var result := t.admission.result.value;
        t.(phases := SettleSender(t.phases, result.began, result.admitted), accepted := Some(result.admitted))
    case EndsUnstarted =>
      if t.admission.phase == Idle || t.admission.phase == Closed
      then t.(admission := CloseAtTerminal(t.admission), phases := Terminate(t.phases)) else t
  }

  function AttemptRun(staged: bool, ops: seq<AttemptOp>): Attempt {
    if ops == [] then NewAttempt(staged) else AttemptStep(AttemptRun(staged, ops[..|ops| - 1]), ops[|ops| - 1])
  }

  ghost predicate AttemptInv(t: Attempt) {
    && PeerPhase.Inv(t.phases)
    && (t.worker == Opening ==>
        t.phases.status != Waiting && t.phases.status != Settling && t.phases.status != Admitted)
    && (t.worker == Opening || t.worker == Transitioned ==>
        !t.began && (t.admission.phase == Idle || t.admission.phase == Closed))
    && (t.worker.Admitting? ==> t.admission.phase == Pending)
    && (t.worker == Admitting(false) ==> !t.began)
    && (t.worker == Returned ==> t.admission.phase != Pending)
    && (t.admission.phase == Resolved ==>
        t.worker == Returned && t.admission.result.Some? && t.admission.result.value.began == t.began)
    && (t.phases.status == Settling ==> t.began && t.accepted.None?)
    && (t.began ==> t.admission.phase == Pending || t.admission.phase == Resolved)
    && (t.began && t.accepted.None? ==> t.phases.status == Settling)
    && (t.accepted.Some? ==> t.admission.phase == Resolved && t.accepted == Some(t.admission.result.value.admitted)
                             && t.phases.status == if t.accepted.value then Admitted else Terminal)
  }

  lemma AttemptStepKeeps(t: Attempt, op: AttemptOp)
    requires AttemptInv(t)
    ensures AttemptInv(AttemptStep(t, op))
  {
    match op
    case Phase(o) => if LoopOp(o) { LoopKeeps(t.phases, o); }
    case Opened(timer) => PeerPhase.StepKeeps(t.phases, Admit(timer));
    case EntersCore =>
    case Authenticates => PeerPhase.StepKeeps(t.phases, Authenticate);
    case Returns(admitted) =>
    case Accepts => if t.admission.result.Some? {
      PeerPhase.StepKeeps(t.phases, SenderSettles(t.began, t.admission.result.value.admitted));
    }
    case EndsUnstarted => PeerPhase.StepKeeps(t.phases, Terminates);
  }

  /** The loop's own sections never start, finish or interrupt a settlement. */
  lemma LoopKeeps(l: Lifecycle, op: Operation)
    requires PeerPhase.Inv(l) && LoopOp(op)
    ensures PeerPhase.Inv(Step(l, op))
    ensures l.status == Settling <==> Step(l, op).status == Settling
    ensures l.status == Admitted <==> Step(l, op).status == Admitted
    ensures l.status == Terminal ==> Step(l, op).status == Terminal
    ensures Step(l, op).status == Waiting ==> l.status == Waiting
  {
    PeerPhase.StepKeeps(l, op);
  }

  lemma {:induction false} AttemptIsSound(staged: bool, ops: seq<AttemptOp>)
    ensures AttemptInv(AttemptRun(staged, ops))
    decreases |ops|
  {
    if ops != [] {
      AttemptIsSound(staged, ops[..|ops| - 1]);
      AttemptStepKeeps(AttemptRun(staged, ops[..|ops| - 1]), ops[|ops| - 1]);
    }
  }

  /** Once authenticated settlement began, the admission's result owns the attempt's terminal: until it is
      accepted the phase stays settling, accepting it always succeeds, and it decides the final phase. */
  lemma ResultOwnsTerminal(staged: bool, ops: seq<AttemptOp>)
    requires AttemptRun(staged, ops).began
    ensures var t := AttemptRun(staged, ops);
            && (t.accepted.None? ==> t.phases.status == Settling)
            && (t.accepted.Some? ==> t.phases.status == (if t.accepted.value then Admitted else Terminal))
            && (t.admission.phase == Resolved ==> t.admission.result.Some?)
            && (t.admission.phase == Resolved && t.accepted.None? ==>
                  var u := AttemptStep(t, Accepts);
                  u.accepted == Some(t.admission.result.value.admitted)
                  && u.phases.status == if t.admission.result.value.admitted then Admitted else Terminal)
  {
    AttemptIsSound(staged, ops);
  }

  /** An admission is accepted at most once, and nothing changes the verdict afterwards. */
  lemma VerdictIsFinal(staged: bool, ops: seq<AttemptOp>, op: AttemptOp)
    requires AttemptRun(staged, ops).accepted.Some?
    ensures var t := AttemptRun(staged, ops);
            AttemptStep(t, op).accepted == t.accepted && AttemptStep(t, op).phases.status == t.phases.status
  {
    AttemptIsSound(staged, ops);
    AttemptStepKeeps(AttemptRun(staged, ops), op);
  }
}
