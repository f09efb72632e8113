/** How a receiver's signaling operation joins what Receive, Terminate and the adapter report into one
    published termination. Every locked section is one step; diagnostics are not part of the model. */
module ReceiverTermination {
  import opened Totals

  datatype Owner = NoOwner | Unbound | Local | Remote | Runtime

  datatype Disposition = NoDisposition | FallbackAllowed | SessionUnavailable | SessionUnsafe

  datatype Provenance =
    | UnboundProvenance | LocalExplicitStop | LocalContextEnded | LocalNegotiationFailure | LocalNegotiationTimeout
    | LocalAdmissionTimeout | LocalOperationContract | RemoteOperationRejected | RemoteSessionRejected
    | RemoteUnknownControl | RemoteControlMalformed | RemoteFailureMalformed | RemoteFailureScopeViolation
    | RuntimeStopping | SignalingAdapterContract | AuthenticatedSecondAnswer | AuthenticatedFinalConflict
    | AuthenticatedAnswerBindingMismatch | AuthenticatedCandidateBindingMismatch | AuthenticatedContinuationViolation

  datatype Decision = Decision(scope: nat, owner: Owner, transition: Provenance, disposition: Disposition,
                               consequence: Provenance)

  predicate LocalTransition(p: Provenance) {
    || p.LocalExplicitStop? || p.LocalContextEnded? || p.LocalNegotiationFailure? || p.LocalNegotiationTimeout?
    || p.LocalAdmissionTimeout? || p.LocalOperationContract? || p.SignalingAdapterContract?
  }

  predicate RemoteTransition(p: Provenance) {
    || p.RemoteOperationRejected? || p.RemoteSessionRejected? || p.RemoteUnknownControl? || p.RemoteControlMalformed?
    || p.RemoteFailureMalformed? || p.RemoteFailureScopeViolation? || p.AuthenticatedSecondAnswer?
    || p.AuthenticatedFinalConflict? || p.AuthenticatedContinuationViolation?
  }

  predicate ValidTransition(d: Decision) {
    match d.owner
    case Local => LocalTransition(d.transition)
    case Remote => RemoteTransition(d.transition)
    case Runtime => d.transition == RuntimeStopping
    case _ => false
  }

  predicate ValidConsequence(disposition: Disposition, p: Provenance) {
    match disposition
    case FallbackAllowed => LocalTransition(p) || p.RemoteOperationRejected? || p.RemoteUnknownControl?
        || p.RemoteControlMalformed?
    case SessionUnavailable => p.RuntimeStopping?
    case SessionUnsafe =>
      || p.RemoteFailureMalformed? || p.RemoteSessionRejected? || p.RemoteFailureScopeViolation?
      || p.AuthenticatedSecondAnswer? || p.AuthenticatedFinalConflict? || p.AuthenticatedAnswerBindingMismatch?
      || p.AuthenticatedCandidateBindingMismatch? || p.AuthenticatedContinuationViolation?
    case NoDisposition => false
  }

  predicate ValidBound(d: Decision) { ValidTransition(d) && ValidConsequence(d.disposition, d.consequence) }

  predicate Stronger(current: Disposition, candidate: Disposition) {
    match candidate
    case SessionUnsafe => current != SessionUnsafe
    case SessionUnavailable => current == NoDisposition || current == FallbackAllowed
    case FallbackAllowed => current == NoDisposition
    case NoDisposition => false
  }

  function Merge(first: Decision, second: Decision): Decision {
    var owned := if (first.owner == NoOwner || first.owner == Unbound) && second.owner != NoOwner
        && second.owner != Unbound
                 then first.(owner := second.owner, transition := second.transition, scope := second.scope) else first;
    var weighed := if Stronger(owned.disposition, second.disposition)
                   then owned.(disposition := second.disposition, consequence := second.consequence) else owned;
    if weighed.disposition == NoDisposition then weighed.(disposition := FallbackAllowed) else weighed
  }

  /** A termination as an adapter hands it over; `token` says whose operation it claims to be. */
  datatype Termination = Termination(token: nat, valid: bool, decision: Decision)

  function AdapterFailure(): Decision {
    Decision(0, Local, SignalingAdapterContract, FallbackAllowed, SignalingAdapterContract)
  }

  /** `running` counts Receive calls in progress; the program itself only keeps the flag. `merged` is the
      history of the decisions joined so far. */
  datatype State = State(token: nat, current: Option<Decision>, receiving: bool, running: nat, requested: bool,
                         callDone: bool, published: bool, merged: seq<Decision>)

  function Start(token: nat): State { State(token, None, false, 0, false, false, false, []) }

  function Accepted(s: State, t: Termination): Decision {
    if t.valid && t.token == s.token && ValidBound(t.decision) then t.decision else AdapterFailure()
  }

  function Join(s: State, d: Decision): State {
    if s.published then s
    else s.(current := Some(if s.current.None? then d else Merge(s.current.value, d)), merged := s.merged + [d])
  }

  function Publish(s: State): State {
    if s.published || !s.callDone || s.receiving then s
    else (if s.current.None? then Join(s, AdapterFailure()) else s).(published := true)
  }

  datatype Received = Control | Ended(termination: Termination) | Neither

  function BeginReceive(s: State): State { if s.requested then s else s.(receiving := true, running := s.running + 1) }

  function EndReceive(s: State, result: Received): State {
    if s.running == 0 then s
    else
      var joined := match result
                    case Control => s
                    case Ended(t) => Join(s, Accepted(s, t))
                    case Neither => Join(s, AdapterFailure());
      Publish(joined.(receiving := false, running := s.running - 1))
  }

  function Request(s: State): State { s.(requested := true) }

  function EndTerminate(s: State, t: Termination): State {
    if !s.requested || s.callDone then s else Publish(Join(s, Accepted(s, t)).(callDone := true))
  }

  datatype Operation =
    | Receives
    | Returns(result: Received)
    | AdapterFails
    | Requests
    | Terminated(termination: Termination)

  function Step(s: State, op: Operation): State {
    match op
    case Receives => BeginReceive(s)
    case Returns(result) => EndReceive(s, result)
    case AdapterFails => Join(s, AdapterFailure())
    case Requests => Request(s)
    case Terminated(t) => EndTerminate(s, t)
  }

  function Run(token: nat, ops: seq<Operation>): State {
    if ops == [] then Start(token) else Step(Run(token, ops[..|ops| - 1]), ops[|ops| - 1])
  }

  /** This Receive would start while another one runs; after the request none starts. */
  predicate Overlaps(s: State, op: Operation) { op.Receives? && !s.requested && s.running > 0 }

  /** One receiver: it starts its next Receive only after the previous one returned. */
  ghost predicate OneReceiver(token: nat, ops: seq<Operation>) {
    forall i {:trigger ops[i]} | 0 <= i < |ops| :: !Overlaps(Run(token, ops[..i]), ops[i])
  }

  // ---------------------------------------------------------------- the reference join

  function Rank(d: Disposition): nat {
    match d
    case NoDisposition => 0
    case FallbackAllowed => 1
    case SessionUnavailable => 2
    case SessionUnsafe => 3
  }

  /** The first decision with the strongest disposition. */
  function Strongest(ds: seq<Decision>): nat
    requires ds != []
    ensures Strongest(ds) < |ds|
    ensures forall i | 0 <= i < |ds| :: Rank(ds[i].disposition) <= Rank(ds[Strongest(ds)].disposition)
    ensures forall i | 0 <= i < Strongest(ds) :: Rank(ds[i].disposition) < Rank(ds[Strongest(ds)].disposition)
    decreases |ds|
  {
    if |ds| == 1 then 0
    else
      var before := Strongest(ds[..|ds| - 1]);
      if Rank(ds[|ds| - 1].disposition) > Rank(ds[before].disposition) then |ds| - 1 else before
  }

  /** First owner, strongest disposition, and the provenance that first reached it. */
  function Joined(ds: seq<Decision>): Decision
    requires ds != []
  {
    Decision(ds[0].scope, ds[0].owner, ds[0].transition, ds[Strongest(ds)].disposition, ds[Strongest(ds)].consequence)
  }

  ghost predicate AllValid(ds: seq<Decision>) { forall i | 0 <= i < |ds| :: ValidBound(ds[i]) }

  lemma ValidExtends(ds: seq<Decision>, d: Decision)
    requires AllValid(ds) && ValidBound(d)
    ensures AllValid(ds + [d])
  {
  }

  lemma StrongestExtends(ds: seq<Decision>, d: Decision)
    requires ds != []
    ensures Strongest(ds + [d])
            == if Rank(d.disposition) > Rank(ds[Strongest(ds)].disposition) then |ds| else Strongest(ds)
  {
    assert (ds + [d])[..|ds + [d]| - 1] == ds;
  }

  lemma MergeIsJoin(ds: seq<Decision>, d: Decision)
    requires ds != [] && ValidBound(d) && AllValid(ds)
    ensures Merge(Joined(ds), d) == Joined(ds + [d]) && ValidBound(Joined(ds + [d]))
  {
    StrongestExtends(ds, d);
    var k := Strongest(ds);
    assert ValidBound(ds[0]) && ValidBound(ds[k]);
    assert (ds + [d])[0] == ds[0];
    if Rank(d.disposition) <= Rank(ds[k].disposition) { assert (ds + [d])[k] == ds[k]; }
  }

  // ---------------------------------------------------------------- what holds

  /** What is held is the join of what was reported. */
  ghost predicate Coherent(s: State) {
    && AllValid(s.merged)
    && s.current == (if s.merged == [] then None else Some(Joined(s.merged)))
  }

  ghost predicate Inv(s: State) {
    && Coherent(s)
    && (s.published ==> s.callDone && s.current.Some?)
    && (s.callDone ==> s.requested)
    && (s.callDone && !s.receiving ==> s.published)
  }

  /** With one receiver the flag is exact, and a published result has no Receive left behind it. */
  ghost predicate Exact(s: State) {
    && s.running == (if s.receiving then 1 else 0)
    && (s.published ==> s.running == 0)
  }

  lemma FirstJoin(d: Decision)
    ensures Joined([d]) == d
  {
  }

  lemma JoinKeeps(s: State, d: Decision)
    requires Coherent(s) && (s.published ==> s.current.Some?) && ValidBound(d)
    ensures Coherent(Join(s, d)) && Join(s, d).current.Some?
  {
    if !s.published {
      ValidExtends(s.merged, d);
      JoinIsJoined(s.merged, s.current, d);
    }
  }

  lemma JoinIsJoined(ds: seq<Decision>, current: Option<Decision>, d: Decision)
    requires AllValid(ds) && ValidBound(d) && current == if ds == [] then None else Some(Joined(ds))
    ensures (if current.None? then d else Merge(current.value, d)) == Joined(ds + [d])
  {
    if ds == [] {
      assert ds + [d] == [d];
      FirstJoin(d);
    } else {
      MergeIsJoin(ds, d);
    }
  }

  lemma PublishKeeps(s: State)
    requires Coherent(s) && (s.published ==> s.callDone && s.current.Some?) && (s.callDone ==> s.requested)
    ensures Inv(Publish(s))
  {
    if !s.published && s.callDone && !s.receiving && s.current.None? { JoinKeeps(s, AdapterFailure()); }
  }

  lemma ReturnKeeps(s: State, result: Received)
    requires Inv(s)
    ensures Inv(EndReceive(s, result))
  {
    if s.running > 0 {
      var d := if result.Ended? then Accepted(s, result.termination) else AdapterFailure();
      assert ValidBound(d);
      JoinKeeps(s, d);
      var joined := if result.Control? then s else Join(s, d);
      PublishKeeps(joined.(receiving := false, running := s.running - 1));
    }
  }

  lemma TerminatedKeeps(s: State, t: Termination)
    requires Inv(s)
    ensures Inv(EndTerminate(s, t))
  {
    if s.requested && !s.callDone {
      assert ValidBound(Accepted(s, t));
      JoinKeeps(s, Accepted(s, t));
      PublishKeeps(Join(s, Accepted(s, t)).(callDone := true));
    }
  }

  lemma StepKeeps(s: State, op: Operation)
    requires Inv(s)
    ensures Inv(Step(s, op))
  {
    match op
    case Receives =>
    case Returns(result) => ReturnKeeps(s, result);
    case AdapterFails => JoinKeeps(s, AdapterFailure());
    case Requests =>
    case Terminated(t) => TerminatedKeeps(s, t);
  }

  lemma ExactStep(s: State, op: Operation)
    requires Inv(s) && Exact(s) && !Overlaps(s, op)
    ensures Exact(Step(s, op))
  {
  }

  lemma {:induction false} OperationIsSound(token: nat, ops: seq<Operation>)
    ensures Inv(Run(token, ops))
    ensures OneReceiver(token, ops) ==> Exact(Run(token, ops))
    decreases |ops|
  {
    if ops != [] {
      var before := ops[..|ops| - 1];
      OperationIsSound(token, before);
      StepKeeps(Run(token, before), ops[|ops| - 1]);
      if OneReceiver(token, ops) {
        forall i | 0 <= i < |before| ensures !Overlaps(Run(token, before[..i]), before[i]) {
          assert before[..i] == ops[..i] && ops[i] == before[i];
        }
        assert !Overlaps(Run(token, before), ops[|ops| - 1]);
        ExactStep(Run(token, before), ops[|ops| - 1]);
      }
    }
  }

  /** What is published is the join of everything reported before: the first report's owner, the strongest
      disposition, and always a valid bound decision. */
  lemma PublishedIsTheJoin(token: nat, ops: seq<Operation>)
    requires Run(token, ops).published
    ensures var s := Run(token, ops);
            && s.merged != [] && s.current == Some(Joined(s.merged)) && ValidBound(s.current.value)
            && s.callDone
  {
    var s := Run(token, ops);
    OperationIsSound(token, ops);
    JoinedIsValid(s.merged);
  }

  lemma JoinedIsValid(ds: seq<Decision>)
    requires ds != [] && AllValid(ds)
    ensures ValidBound(Joined(ds))
  {
    assert ValidBound(ds[0]) && ValidBound(ds[Strongest(ds)]);
  }

  /** With one receiver, publication waits for Terminate to return and for Receive to end, and no Receive
      ever runs afterwards. */
  lemma PublishedAfterBothEnded(token: nat, ops: seq<Operation>)
    requires OneReceiver(token, ops) && Run(token, ops).published
    ensures Run(token, ops).running == 0 && Run(token, ops).callDone && BeginReceive(Run(token, ops)) == Run(token, ops)
  {
    OperationIsSound(token, ops);
  }

  /** A published termination never changes, whatever is reported later. */
  lemma {:induction false} PublishedNeverChanges(token: nat, ops: seq<Operation>, later: seq<Operation>)
    requires Run(token, ops).published
    ensures Run(token, ops + later).published && Run(token, ops + later).current == Run(token, ops).current
    decreases |later|
  {
    if later == [] {
      assert ops + later == ops;
    } else {
      var shorter := later[..|later| - 1];
      assert (ops + later)[..|ops + later| - 1] == ops + shorter;
      PublishedNeverChanges(token, ops, shorter);
    }
  }

  /** Nobody waits forever: once Terminate has returned and the running Receive ends, the result is out. */
  lemma PublishesAtLast(token: nat, ops: seq<Operation>, result: Received)
    requires OneReceiver(token, ops) && Run(token, ops).callDone
    ensures Run(token, ops).published || EndReceive(Run(token, ops), result).published
  {
    OperationIsSound(token, ops);
  }

  lemma RunOne(token: nat, ops: seq<Operation>, op: Operation)
    ensures Run(token, ops + [op]) == Step(Run(token, ops), op)
  {
    assert (ops + [op])[..|ops + [op]| - 1] == ops;
  }

  /** An ending that tells an overlap apart: the request, Terminate's return and that of one Receive. */
  function Ended(ops: seq<Operation>, t: Termination): seq<Operation> {
    ops + [Requests] + [Terminated(t)] + [Returns(Control)]
  }

  lemma RunEnded(token: nat, ops: seq<Operation>, t: Termination)
    ensures Run(token, Ended(ops, t)) == EndReceive(EndTerminate(Request(Run(token, ops)), t), Control)
  {
    RunOne(token, ops, Requests);
    RunOne(token, ops + [Requests], Terminated(t));
    RunOne(token, ops + [Requests] + [Terminated(t)], Returns(Control));
  }

  /** The limit of the single flag, for every history: if a second Receive starts while one runs, the
      return of one of them publishes the result while the other still runs. */
  lemma OverlapPublishesEarly(token: nat, ops: seq<Operation>, t: Termination)
    requires Overlaps(Run(token, ops), Receives)
    ensures var s := Run(token, Ended(ops + [Receives], t));
            s.published && s.running == Run(token, ops).running > 0
  {
    OperationIsSound(token, ops);
    RunOne(token, ops, Receives);
    RunEnded(token, ops + [Receives], t);
  }

  /** So one receiver is exactly what is needed: a history with an overlap has a beginning, up to that
      overlap, that some continuation publishes too early. */
  lemma OneReceiverIsNeeded(token: nat, ops: seq<Operation>, t: Termination) returns (n: nat)
    requires !OneReceiver(token, ops)
    ensures n <= |ops| && var s := Run(token, Ended(ops[..n], t)); s.published && s.running > 0
  {
    var i :| 0 <= i < |ops| && Overlaps(Run(token, ops[..i]), ops[i]);
    OverlapPublishesEarly(token, ops[..i], t);
    n := i + 1;
    assert ops[..n] == ops[..i] + [Receives];
  }
}
