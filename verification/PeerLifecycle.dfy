/** The two mutable objects of a peer attempt, each method one locked section: the phase lifecycle and
    the core admission record. */
module PeerLifecycle {
  import opened Totals
  import opened PeerPhase
  import opened PeerAdmission

  class PhaseLifecycle {
    const staged: bool
    var stage: Phase
    var status: Status
    var generation: nat
    var deadline: Option<Deadline>
    var pending: nat
    var owned: bool
    ghost var issued: seq<Phase>

    ghost function View(): Lifecycle
      reads this
    {
      Lifecycle(staged, stage, status, generation, deadline, pending, owned, issued)
    }

    ghost predicate Valid()
      reads this
    {
      PeerPhase.Inv(View())
    }

    constructor (staged: bool)
      ensures Valid() && View() == PeerPhase.Create(staged)
    {
      this.staged := staged;
      stage, status, generation, deadline, pending, owned, issued := Negotiation, Reserved, 0, None, 0, false, [];
    }

    method ArmLocked(phase: Phase)
      modifies this
      ensures View() == old(Arm(View(), phase))
    {
      generation := generation + 1;
      pending := 0;
      owned := false;
      deadline := Some(Deadline(generation, false));
      issued := issued + [phase];
    }

    method BeginNegotiation(timer: bool) returns (started: bool)
      requires Valid()
      modifies this
      ensures Valid() && View() == old(Step(View(), Negotiate(timer)))
      ensures started == (old(status) == Reserved && timer)
    {
      StepKeeps(View(), Negotiate(timer));
      if status != Reserved { return false; }
      var phase := if staged then Preparation else Negotiation;
      stage := phase;
      if !timer {
        status := Terminal;
        return false;
      }
      ArmLocked(phase);
      status := Negotiating;
      return true;
    }

    method BeginAdmission(timer: bool) returns (transitioned: bool)
      requires Valid()
      modifies this
      ensures Valid() && View() == old(Step(View(), Admit(timer)))
      ensures transitioned == (old(status) == Negotiating && timer)
    {
      StepKeeps(View(), Admit(timer));
      if status != Negotiating { return false; }
      deadline := None;
      if !timer {
        status := Terminal;
        return false;
      }
      ArmLocked(Admission);
      status := Waiting;
      return true;
    }

    method BeginAuthenticatedSettlement() returns (began: bool)
      requires Valid()
      modifies `status
      ensures Valid() && View() == old(Step(View(), Authenticate)) && began == (old(status) == Waiting)
    {
      StepKeeps(View(), Authenticate);
      if status != Waiting { return false; }
      status := Settling;
      return true;
    }

    method SettleSenderAdmission(began: bool, admitted: bool) returns (settled: bool)
      requires Valid()
      modifies `status, `deadline
      ensures Valid() && View() == old(Step(View(), SenderSettles(began, admitted)))
              && settled == old(Settles(View(), began))
    {
      StepKeeps(View(), SenderSettles(began, admitted));
      if began && status != Settling { return false; }
      if !began && status != Waiting { return false; }
      deadline := None;
      status := if admitted then Admitted else Terminal;
      return true;
    }

    method SettleReceiverAdmission(settlement: Settlement) returns (settled: bool)
      requires Valid()
      modifies `status, `deadline
      ensures Valid() && View() == old(Step(View(), ReceiverSettles(settlement)))
      ensures settled == (old(status) == Waiting || (old(status) == Terminal && !settlement.Unverified?))
    {
      StepKeeps(View(), ReceiverSettles(settlement));
      if !settlement.Unverified? {
        if status != Waiting && status != Terminal { return false; }
      } else if status != Waiting {
        return false;
      }
      deadline := None;
      status := if settlement.Installed? then Admitted else Terminal;
      return true;
    }

    /** `phase` is the phase the expiration event was armed with. */
    method Expire(g: nat, phase: Phase) returns (expired: bool, settling: bool)
      requires Valid() && 0 < g <= |issued| && phase == issued[g - 1]
      modifies `status, `owned
      ensures Valid() && View() == old(Step(View(), Expires(g)))
      ensures expired == old(PeerPhase.Expire(View(), g).expired)
              && settling == old(PeerPhase.Expire(View(), g).settling)
    {
      StepKeeps(View(), Expires(g));
      if g != generation || deadline.None? { return false, false; }
      if pending == g {
        if owned { return true, false; }
        if status == Settling { return false, true; }
      }
      if phase != stage || status != Negotiating { return false, false; }
      status := Terminal;
      owned := true;
      return true, false;
    }

    method DeadlineFired(g: nat, phase: Phase)
      requires Valid() && 0 < g <= |issued| && phase == issued[g - 1]
      modifies `status, `owned, `pending
      ensures Valid() && View() == old(Step(View(), TimerFires(g)))
    {
      StepKeeps(View(), TimerFires(g));
      if g != generation || deadline.None? { return; }
      pending := g;
      owned := false;
      if phase != Admission { return; }
      if status == Waiting {
        status := Terminal;
        owned := true;
      } else if status != Settling {
        pending := 0;
      }
    }

    method CancelBeforeAdmission()
      requires Valid()
      modifies `status, `deadline
      ensures Valid() && View() == old(Step(View(), Cancels))
    {
      StepKeeps(View(), Cancels);
      if status != Reserved && status != Negotiating { return; }
      status := Terminal;
      deadline := None;
    }

    method Terminate() returns (terminal: bool)
      requires Valid()
      modifies `status, `deadline
      ensures Valid() && View() == old(Step(View(), Terminates)) && terminal == (old(status) != Settling)
    {
      StepKeeps(View(), Terminates);
      if status == Settling {
        if deadline.Some? { deadline := Some(deadline.value.(stopped := true)); }
        return false;
      }
      if status != Admitted { status := Terminal; }
      deadline := None;
      return true;
    }

    method ObserveICE(checking: bool, timer: bool)
      requires Valid()
      modifies this
      ensures Valid() && View() == old(Step(View(), Observes(checking, timer)))
    {
      StepKeeps(View(), Observes(checking, timer));
      if !staged || status != Negotiating || pending != 0 { return; }
      var phase;
      if checking && stage == Preparation {
        phase := Checking;
      } else if !checking && (stage == Preparation || stage == Checking) {
        phase := Establishing;
      } else {
        return;
      }
      deadline := None;
      if !timer {
        status := Terminal;
        return;
      }
      ArmLocked(phase);
      stage := phase;
    }
  }

  class AttemptAdmission {
    var phase: AdmissionPhase
    var result: Option<Outcome>

    ghost function View(): CoreAdmission
      reads this
    {
      CoreAdmission(phase, result)
    }

    constructor ()
      ensures View() == AdmissionRun([])
    {
      phase, result := Idle, None;
    }

    method BeginAdmission() returns (begun: bool)
      modifies this
      ensures View() == old(AdmissionStep(View(), Starts)) && begun == (old(phase) == Idle)
    {
      if phase != Idle { return false; }
      phase := Pending;
      return true;
    }

    method ResolveAdmission(outcome: Outcome)
      modifies this
      ensures View() == old(AdmissionStep(View(), Resolves(outcome)))
    {
      if phase != Pending { return; }
      result := Some(outcome);
      phase := Resolved;
    }

    /** The answer is missing exactly while the caller has to wait for core. */
    method AdmissionAtTerminal() returns (answer: Option<Option<Outcome>>)
      modifies this
      ensures View() == old(AdmissionStep(View(), Ends)) && answer == TerminalAnswer(View())
    {
      match phase
      case Idle =>
        phase := Closed;
        return Some(None);
      case Closed =>
        return Some(None);
      case Resolved =>
        return Some(result);
      case Pending =>
        return None;
    }
  }
}
