/** The bound signaling operation as an object; each method is one section under its lock. */
module ReceiverOperation {
  import opened Totals
  import opened ReceiverTermination

  class BoundOperation {
    const token: nat
    var current: Option<Decision>
    var receiving: bool
    var requested: bool
    var callDone: bool
    var published: bool
    ghost var running: nat
    ghost var merged: seq<Decision>

    ghost function View(): State
      reads this
    {
      State(token, current, receiving, running, requested, callDone, published, merged)
    }

    ghost predicate Valid()
      reads this
    {
      Inv(View())
    }

    constructor (token: nat)
      ensures Valid() && View() == Start(token)
    {
      this.token := token;
      current, receiving, requested, callDone, published := None, false, false, false, false;
      running, merged := 0, [];
    }

    method MergeTermination(d: Decision)
      modifies `current, `merged
      ensures View() == old(Join(View(), d))
    {
      if published { return; }
      merged := merged + [d];
      if current.None? {
        current := Some(d);
        return;
      }
      current := Some(Merge(current.value, d));
    }

    /** A termination that is not this operation's, or not a valid bound decision, counts as a broken adapter. */
    method MergeCandidate(t: Termination)
      modifies `current, `merged
      ensures View() == old(Join(View(), Accepted(View(), t)))
    {
      if t.valid && t.token == token && ValidBound(t.decision) {
        MergeTermination(t.decision);
      } else {
        MergeTermination(AdapterFailure());
      }
    }

    method PublishTermination()
      modifies `current, `merged, `published
      ensures View() == old(Publish(View()))
    {
      if published || !callDone || receiving { return; }
      if current.None? {
        MergeTermination(AdapterFailure());
      }
      published := true;
    }

    method BeginReceive() returns (runs: bool)
      requires Valid()
      modifies `receiving, `running
      ensures Valid() && View() == old(Step(View(), Receives)) && runs == !requested
    {
      StepKeeps(View(), Receives);
      if requested { return false; }
      receiving := true;
      running := running + 1;
      return true;
    }

    method TakeResult(result: Received)
      requires running > 0
      modifies `current, `merged, `published, `receiving, `running
      ensures View() == old(ReceiverTermination.EndReceive(View(), result))
    {
      if result.Ended? {
        MergeCandidate(result.termination);
      } else if result.Neither? {
        MergeTermination(AdapterFailure());
      }
      receiving := false;
      running := running - 1;
      PublishTermination();
    }

    method EndReceive(result: Received)
      requires Valid() && running > 0
      modifies `current, `merged, `published, `receiving, `running
      ensures Valid() && View() == old(Step(View(), Returns(result)))
    {
      StepKeeps(View(), Returns(result));
      TakeResult(result);
    }

    method RecordAdapterFailure()
      requires Valid()
      modifies `current, `merged
      ensures Valid() && View() == old(Step(View(), AdapterFails))
    {
      StepKeeps(View(), AdapterFails);
      MergeTermination(AdapterFailure());
    }

    method RequestTermination()
      requires Valid()
      modifies `requested
      ensures Valid() && View() == old(Step(View(), Requests))
    {
      StepKeeps(View(), Requests);
      requested := true;
    }

    method EndTerminate(t: Termination)
      requires Valid() && requested && !callDone
      modifies `current, `merged, `published, `callDone
      ensures Valid() && View() == old(Step(View(), Terminated(t)))
    {
      StepKeeps(View(), Terminated(t));
      MergeCandidate(t);
      callDone := true;
      PublishTermination();
    }
  }
}
