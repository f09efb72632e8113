/** Phase arbitration of one peer attempt: negotiation and admission deadlines race with authenticated
    settlement. Each locked section is one step; whether a timer could be created, and which provider
    events arrive, are inputs. `issued[g - 1]` is the phase whose deadline carried generation `g`. */
module PeerPhase {
  import opened Totals

  datatype Phase = Negotiation | Preparation | Checking | Establishing | Admission

  datatype Status = Reserved | Negotiating | Waiting | Settling | Admitted | Terminal

  datatype Deadline = Deadline(generation: nat, stopped: bool)

  datatype Lifecycle = Lifecycle(staged: bool, stage: Phase, status: Status, generation: nat,
                                 deadline: Option<Deadline>, pending: nat, owned: bool, issued: seq<Phase>)

  function Create(staged: bool): Lifecycle { Lifecycle(staged, Negotiation, Reserved, 0, None, 0, false, []) }

  /** A new deadline is a new generation; nothing of an older one stays pending. */
  function Arm(l: Lifecycle, phase: Phase): Lifecycle {
    l.(generation := l.generation + 1, deadline := Some(Deadline(l.generation + 1, false)), pending := 0,
       owned := false, issued := l.issued + [phase])
  }

  function StopDeadline(l: Lifecycle): Lifecycle { l.(deadline := None) }

  function BeginNegotiation(l: Lifecycle, timer: bool): Lifecycle {
    if l.status != Reserved then l
    else
      var phase := if l.staged then Preparation else Negotiation;
      var staged := l.(stage := phase);
      if timer then Arm(staged, phase).(status := Negotiating) else staged.(status := Terminal)
  }

  function BeginAdmission(l: Lifecycle, timer: bool): Lifecycle {
    if l.status != Negotiating then l
    else if timer then Arm(StopDeadline(l), Admission).(status := Waiting)
    else StopDeadline(l).(status := Terminal)
  }

  function BeginSettlement(l: Lifecycle): Lifecycle {
    if l.status == Waiting then l.(status := Settling) else l
  }

  /** Whether the admission's result decides the phase. */
  predicate Settles(l: Lifecycle, began: bool) { l.status == if began then Settling else Waiting }

  function SettleSender(l: Lifecycle, began: bool, admitted: bool): Lifecycle {
    if !Settles(l, began) then l else StopDeadline(l).(status := if admitted then Admitted else Terminal)
  }

  datatype Settlement = Unverified | Rejected | InstallationFailed | Installed

  function SettleReceiver(l: Lifecycle, settlement: Settlement): Lifecycle {
    if settlement.Unverified? && l.status != Waiting then l
    else if !settlement.Unverified? && l.status != Waiting && l.status != Terminal then l
    else StopDeadline(l).(status := if settlement.Installed? then Admitted else Terminal)
  }

  predicate Current(l: Lifecycle, g: nat) { 0 < g <= |l.issued| && g == l.generation && l.deadline.Some? }

  datatype Expiry = Expiry(lifecycle: Lifecycle, expired: bool, settling: bool)

  /** The execution loop consumes an expiration event. */
  function Expire(l: Lifecycle, g: nat): Expiry {
    if !Current(l, g) then Expiry(l, false, false)
    else if l.pending == g && l.owned then Expiry(l, true, false)
    else if l.pending == g && l.status == Settling then Expiry(l, false, true)
    else if l.issued[g - 1] != l.stage || l.status != Negotiating then Expiry(l, false, false)
    else Expiry(l.(status := Terminal, owned := true), true, false)
  }

  /** The timer goroutine's locked section. */
  function Fired(l: Lifecycle, g: nat): Lifecycle {
    if !Current(l, g) then l
    else
      var fired := l.(pending := g, owned := false);
      if l.issued[g - 1] != Admission then fired
      else if l.status == Waiting then fired.(status := Terminal, owned := true)
      else if l.status == Settling then fired
      else fired.(pending := 0)
  }

  function CancelBeforeAdmission(l: Lifecycle): Lifecycle {
    if l.status == Reserved || l.status == Negotiating then StopDeadline(l.(status := Terminal)) else l
  }

  /** Settlement keeps its deadline object, stopped; an admitted lane keeps its state. */
  function Terminate(l: Lifecycle): Lifecycle {
    if l.status == Settling then
      if l.deadline.Some? then l.(deadline := Some(l.deadline.value.(stopped := true))) else l
    else StopDeadline(if l.status == Admitted then l else l.(status := Terminal))
  }

  /** Advancing an observed stage re-arms without touching the status. */
  function ObserveICE(l: Lifecycle, checking: bool, timer: bool): Lifecycle {
    if !l.staged || l.status != Negotiating || l.pending != 0 then l
    else if checking && l.stage == Preparation then Advance(l, Checking, timer)
    else if !checking && (l.stage == Preparation || l.stage == Checking) then Advance(l, Establishing, timer)
    else l
  }

  function Advance(l: Lifecycle, phase: Phase, timer: bool): Lifecycle {
    if timer then Arm(StopDeadline(l), phase).(stage := phase) else StopDeadline(l).(status := Terminal)
  }

  datatype Operation =
    | Negotiate(timer: bool)
    | Admit(timer: bool)
    | Authenticate
    | SenderSettles(began: bool, admitted: bool)
    | ReceiverSettles(settlement: Settlement)
    | Expires(generation: nat)
    | TimerFires(generation: nat)
    | Cancels
    | Terminates
    | Observes(checking: bool, timer: bool)

  predicate Sender(op: Operation) { !op.ReceiverSettles? }

  predicate Receiver(op: Operation) { !op.SenderSettles? && !op.Authenticate? }

  function Step(l: Lifecycle, op: Operation): Lifecycle {
    match op
    case Negotiate(timer) => BeginNegotiation(l, timer)
    case Admit(timer) => BeginAdmission(l, timer)
    case Authenticate => BeginSettlement(l)
    case SenderSettles(began, admitted) => SettleSender(l, began, admitted)
    case ReceiverSettles(settlement) => SettleReceiver(l, settlement)
    case Expires(g) => Expire(l, g).lifecycle
    case TimerFires(g) => Fired(l, g)
    case Cancels => CancelBeforeAdmission(l)
    case Terminates => Terminate(l)
    case Observes(checking, timer) => ObserveICE(l, checking, timer)
  }

  function RunFrom(l: Lifecycle, ops: seq<Operation>): Lifecycle {
    if ops == [] then l else Step(RunFrom(l, ops[..|ops| - 1]), ops[|ops| - 1])
  }

  ghost predicate AllSender(ops: seq<Operation>) { forall i | 0 <= i < |ops| :: Sender(ops[i]) }

  // ---------------------------------------------------------------- what holds

  ghost predicate Inv(l: Lifecycle) {
    && l.generation == |l.issued| && (l.pending == 0 || l.pending == l.generation)
    && (l.deadline.Some? ==> l.deadline.value.generation == l.generation && l.generation > 0)
    && (l.status == Reserved ==> l.generation == 0 && l.deadline.None?)
    && (l.status == Negotiating ==>
        l.deadline.Some? && l.issued[l.generation - 1] == l.stage && l.stage != Admission && !l.owned)
    && (l.status == Waiting ==>
        l.deadline.Some? && l.issued[l.generation - 1] == Admission && l.pending == 0 && !l.owned)
    && (l.status == Settling ==> l.deadline.Some? && l.issued[l.generation - 1] == Admission && !l.owned)
    && (l.owned && l.deadline.Some? ==> l.status == Terminal)
    && l.stage != Admission
  }

  lemma StepKeeps(l: Lifecycle, op: Operation)
    requires Inv(l)
    ensures Inv(Step(l, op)) && Step(l, op).generation >= l.generation && l.issued <= Step(l, op).issued
  {
  }

  lemma {:induction false} RunKeeps(l: Lifecycle, ops: seq<Operation>)
    requires Inv(l)
    ensures Inv(RunFrom(l, ops)) && RunFrom(l, ops).generation >= l.generation && l.issued <= RunFrom(l, ops).issued
    decreases |ops|
  {
    if ops != [] {
      RunKeeps(l, ops[..|ops| - 1]);
      StepKeeps(RunFrom(l, ops[..|ops| - 1]), ops[|ops| - 1]);
    }
  }

  /** Advancing a stage always finds the deadline it stops. */
  lemma NegotiatingHasDeadline(staged: bool, ops: seq<Operation>)
    requires RunFrom(Create(staged), ops).status == Negotiating
    ensures RunFrom(Create(staged), ops).deadline.Some?
  {
    RunKeeps(Create(staged), ops);
  }

  /** Once settlement began, only settling leaves it, whatever else happens and in any order. */
  lemma {:induction false} SettlingOwnsOutcome(l: Lifecycle, ops: seq<Operation>)
    requires Inv(l) && l.status == Settling && AllSender(ops)
    requires forall i | 0 <= i < |ops| :: !(ops[i].SenderSettles? && ops[i].began)
    ensures RunFrom(l, ops).status == Settling && RunFrom(l, ops).generation == l.generation
    decreases |ops|
  {
    if ops != [] {
      SettlingOwnsOutcome(l, ops[..|ops| - 1]);
      RunKeeps(l, ops[..|ops| - 1]);
    }
  }

  /** On the sender a terminal phase is final: once the admission deadline won, settlement never begins. */
  lemma {:induction false} SenderTerminalIsFinal(l: Lifecycle, ops: seq<Operation>)
    requires l.status == Terminal && AllSender(ops)
    ensures RunFrom(l, ops).status == Terminal && BeginSettlement(RunFrom(l, ops)) == RunFrom(l, ops)
    decreases |ops|
  {
    if ops != [] { SenderTerminalIsFinal(l, ops[..|ops| - 1]); }
  }

  /** Admission is never left, on either side. */
  lemma {:induction false} AdmittedIsFinal(l: Lifecycle, ops: seq<Operation>)
    requires l.status == Admitted
    ensures RunFrom(l, ops).status == Admitted
    decreases |ops|
  {
    if ops != [] { AdmittedIsFinal(l, ops[..|ops| - 1]); }
  }

  /** On the receiver a terminal phase is left exactly by an authenticated installed settlement. */
  lemma ReceiverTerminalLeftByProof(l: Lifecycle, op: Operation)
    requires l.status == Terminal && Receiver(op)
    ensures Step(l, op).status == if op.ReceiverSettles? && op.settlement.Installed? then Admitted else Terminal
  {
  }

  /** The race for a waiting admission has one winner: the deadline and settlement exclude each other,
      whichever section runs first and whatever follows. */
  lemma WaitingHasOneWinner(l: Lifecycle, ops: seq<Operation>)
    requires Inv(l) && l.status == Waiting && AllSender(ops)
    ensures Fired(l, l.generation).status == Terminal && RunFrom(Fired(l, l.generation), ops).status == Terminal
    ensures (forall i | 0 <= i < |ops| :: !(ops[i].SenderSettles? && ops[i].began)) ==>
              RunFrom(BeginSettlement(l), ops).status == Settling
  {
    SenderTerminalIsFinal(Fired(l, l.generation), ops);
    if forall i | 0 <= i < |ops| :: !(ops[i].SenderSettles? && ops[i].began) {
      SettlingOwnsOutcome(BeginSettlement(l), ops);
    }
  }

  /** An expiration armed before the current deadline never changes anything, now or later. */
  lemma StaleExpirationIsInert(l: Lifecycle, g: nat, ops: seq<Operation>)
    requires Inv(l) && g < l.generation
    ensures Step(RunFrom(l, ops), Expires(g)) == RunFrom(l, ops)
            && Step(RunFrom(l, ops), TimerFires(g)) == RunFrom(l, ops)
    ensures !Expire(RunFrom(l, ops), g).expired && !Expire(RunFrom(l, ops), g).settling
  {
    RunKeeps(l, ops);
  }

  /** A consumed expiration ends the attempt only when its deadline really won, and defers to settlement
      exactly when the deadline fired while settlement was under way. */
  lemma ExpiryTellsTheWinner(staged: bool, ops: seq<Operation>, g: nat)
    ensures var l := RunFrom(Create(staged), ops);
            var e := Expire(l, g);
            && (e.expired ==> e.lifecycle.status == Terminal)
            && (e.settling <==> Current(l, g) && l.pending == g && l.status == Settling)
            && !(e.expired && e.settling)
  {
    RunKeeps(Create(staged), ops);
  }
}
