/** The bounded control mailbox: adjacent inventory snapshots of one owner supersede one another, nothing
    else is ever merged or reordered. One attempt to put, one take and one wake-up are single steps. */
module ControlMailbox {
  import opened Totals

  const CONTROL_COMMAND_CAPACITY := 32

  /** Identity 0 is the zero identity. */
  datatype Message =
    | Available(session: nat, owner: nat, sequence: nat, profiles: set<nat>)
    | Command(session: nat, owner: nat, sequence: nat, id: nat)

  /** `wake` is the token in the wake channel, `awake` a consumer that took it and has not taken a message
      yet; `epoch` counts the signals to blocked writers. `accepted` and `taken` are the two histories. */
  datatype State = State(queue: seq<Message>, closed: bool, wake: bool, awake: bool, epoch: nat,
                         accepted: seq<Message>, taken: seq<Message>)

  function Start(): State { State([], false, false, false, 0, [], []) }

  predicate Supersedes(queue: seq<Message>, m: Message) {
    && m.Available? && queue != [] && queue[|queue| - 1].Available?
    && queue[|queue| - 1].session == m.session && queue[|queue| - 1].owner == m.owner
  }

  function Replaced(queue: seq<Message>, m: Message): seq<Message>
    requires Supersedes(queue, m)
  {
    if m.sequence > queue[|queue| - 1].sequence then queue[..|queue| - 1] + [m] else queue
  }

  datatype Verdict = Accepted | Blocked | Stopped

  function Judge(s: State, m: Message): Verdict {
    if s.closed then Stopped
    else if Supersedes(s.queue, m) || |s.queue| < CONTROL_COMMAND_CAPACITY then Accepted
    else Blocked
  }

  function Put(s: State, m: Message): State {
    if Judge(s, m) != Accepted then s
    else if Supersedes(s.queue, m) then s.(queue := Replaced(s.queue, m), accepted := s.accepted + [m])
    else s.(queue := s.queue + [m], wake := true, accepted := s.accepted + [m])
  }

  function Awaken(s: State): State { if s.wake then s.(wake := false, awake := true) else s }

  function Take(s: State): State {
    if !s.awake then s
    else if s.queue == [] then s.(awake := false)
    else s.(queue := s.queue[1..], awake := false, wake := s.wake || s.queue[1..] != [], epoch := s.epoch + 1,
            taken := s.taken + [s.queue[0]])
  }

  function Close(s: State): State { if s.closed then s else s.(closed := true, queue := [], epoch := s.epoch + 1) }

  datatype Operation = Putting(message: Message) | Waking | Taking | Closing

  function Step(s: State, op: Operation): State {
    match op
    case Putting(m) => Put(s, m)
    case Waking => Awaken(s)
    case Taking => Take(s)
    case Closing => Close(s)
  }

  function Run(ops: seq<Operation>): State {
    if ops == [] then Start() else Step(Run(ops[..|ops| - 1]), ops[|ops| - 1])
  }

  // ---------------------------------------------------------------- the receiver's inventory

  datatype Inventory = Inventory(owner: nat, revision: nat, profiles: set<nat>)

  /** What one message does to the receiver's view of the inventory. */
  function Apply(v: Inventory, m: Message): Inventory {
    if v.owner != 0 && m.owner != v.owner then v
    else if m.Available? && m.sequence > v.revision then Inventory(m.owner, m.sequence, m.profiles)
    else v
  }

  function Fold(v: Inventory, messages: seq<Message>): Inventory {
    if messages == [] then v else Apply(Fold(v, messages[..|messages| - 1]), messages[|messages| - 1])
  }

  function Commands(messages: seq<Message>): seq<Message> {
    if messages == [] then []
    else
      var before, last := messages[..|messages| - 1], messages[|messages| - 1];
      Commands(before) + (if last.Command? then [last] else [])
  }

  /** Every command with the inventory the receiver has when it gets there. */
  function Seen(v: Inventory, messages: seq<Message>): seq<(Message, Inventory)> {
    if messages == [] then []
    else
      var before, last := messages[..|messages| - 1], messages[|messages| - 1];
      Seen(v, before) + (if last.Command? then [(last, Fold(v, before))] else [])
  }

  // ---------------------------------------------------------------- refinement

  lemma FoldOne(v: Inventory, messages: seq<Message>, m: Message)
    ensures Fold(v, messages + [m]) == Apply(Fold(v, messages), m)
  {
    assert (messages + [m])[..|messages + [m]| - 1] == messages;
  }

  lemma CommandsOne(messages: seq<Message>, m: Message)
    ensures Commands(messages + [m]) == Commands(messages) + (if m.Command? then [m] else [])
  {
    assert (messages + [m])[..|messages + [m]| - 1] == messages;
  }

  lemma SeenOne(v: Inventory, messages: seq<Message>, m: Message)
    ensures Seen(v, messages + [m]) == Seen(v, messages) + (if m.Command? then [(m, Fold(v, messages))] else [])
  {
    assert (messages + [m])[..|messages + [m]| - 1] == messages;
  }

  function Newer(a: Message, b: Message): Message { if b.sequence > a.sequence then b else a }

  /** Of two adjacent snapshots of one owner, the newer alone has the effect of both. */
  lemma NewerStandsForBoth(v: Inventory, head: seq<Message>, a: Message, b: Message)
    requires a.Available? && b.Available? && a.owner == b.owner
    ensures Fold(v, head + [a] + [b]) == Fold(v, head + [Newer(a, b)])
    ensures Commands(head + [a] + [b]) == Commands(head + [Newer(a, b)])
    ensures Seen(v, head + [a] + [b]) == Seen(v, head + [Newer(a, b)])
  {
    SeenOne(v, head, a);
    SeenOne(v, head, b);
    SeenOne(v, head + [a], b);
    FoldOne(v, head, a);
    FoldOne(v, head, b);
    FoldOne(v, head + [a], b);
    CommandsOne(head, a);
    CommandsOne(head, b);
    CommandsOne(head + [a], b);
  }

  /** What has been taken, followed by what is queued. */
  function Flow(s: State): seq<Message> { s.taken + s.queue }

  /** A put lengthens the flow by its message, or lets the newer of two snapshots stand for both. */
  lemma PutFlow(s: State, m: Message) returns (head: seq<Message>)
    requires Judge(s, m) == Accepted
    ensures !Supersedes(s.queue, m) ==> Flow(Put(s, m)) == Flow(s) + [m]
    ensures Supersedes(s.queue, m) ==>
              var last := s.queue[|s.queue| - 1];
              Flow(s) == head + [last] && Flow(Put(s, m)) == head + [Newer(last, m)]
  {
    if Supersedes(s.queue, m) {
      head := s.taken + s.queue[..|s.queue| - 1];
      assert s.queue == s.queue[..|s.queue| - 1] + [s.queue[|s.queue| - 1]];
    } else {
      head := [];
    }
  }

  ghost predicate SameInventory(a: seq<Message>, b: seq<Message>, v: Inventory) { Fold(v, a) == Fold(v, b) }

  ghost predicate SameCommands(a: seq<Message>, b: seq<Message>) { Commands(a) == Commands(b) }

  /** Each command meets the inventory it would have met in the plain queue. */
  ghost predicate SameSights(a: seq<Message>, b: seq<Message>, v: Inventory) { Seen(v, a) == Seen(v, b) }

  ghost predicate Faithful(s: State, v: Inventory) {
    SameInventory(Flow(s), s.accepted, v) && SameCommands(Flow(s), s.accepted) && SameSights(Flow(s), s.accepted, v)
  }

  lemma BothGrow(a: seq<Message>, b: seq<Message>, v: Inventory, m: Message)
    requires SameInventory(a, b, v) && SameCommands(a, b) && SameSights(a, b, v)
    ensures SameInventory(a + [m], b + [m], v) && SameCommands(a + [m], b + [m]) && SameSights(a + [m], b + [m], v)
  {
    SeenOne(v, a, m);
    SeenOne(v, b, m);
    FoldOne(v, a, m);
    FoldOne(v, b, m);
    CommandsOne(a, m);
    CommandsOne(b, m);
  }

  lemma PutFaithful(s: State, v: Inventory, m: Message)
    requires Faithful(s, v)
    ensures Faithful(Put(s, m), v)
  {
    if Judge(s, m) == Accepted {
      var head := PutFlow(s, m);
      BothGrow(Flow(s), s.accepted, v, m);
      if Supersedes(s.queue, m) { NewerStandsForBoth(v, head, s.queue[|s.queue| - 1], m); }
    }
  }

  lemma TakeFlow(s: State)
    ensures Flow(Take(s)) == Flow(s)
  {
    if s.awake && s.queue != [] { assert s.queue == [s.queue[0]] + s.queue[1..]; }
  }

  /** No lost wake-up: while anything is queued, a token waits or a consumer is about to take. */
  ghost predicate Attended(s: State) { |s.queue| <= CONTROL_COMMAND_CAPACITY && (s.queue != [] ==> s.wake || s.awake) }

  lemma StepAttended(s: State, op: Operation)
    requires Attended(s)
    ensures Attended(Step(s, op))
  {
  }

  lemma {:induction false} MailboxIsAttended(ops: seq<Operation>)
    ensures Attended(Run(ops))
    decreases |ops|
  {
    if ops != [] {
      MailboxIsAttended(ops[..|ops| - 1]);
      StepAttended(Run(ops[..|ops| - 1]), ops[|ops| - 1]);
    }
  }

  ghost predicate NeverClosed(ops: seq<Operation>) { forall i | 0 <= i < |ops| :: !ops[i].Closing? }

  lemma StepFaithful(s: State, op: Operation, v: Inventory)
    requires Faithful(s, v) && !op.Closing?
    ensures Faithful(Step(s, op), v)
  {
    match op
    case Putting(m) => PutFaithful(s, v, m);
    case Waking =>
    case Taking => TakeFlow(s);
  }

  /** Coalescing refines the plain queue: for any interleaving of puts, wake-ups and takes, draining the
      mailbox gives the receiver the inventory it would have from every accepted message, and every
      command exactly once, in order, and at the inventory it would have met without coalescing. */
  lemma {:induction false} CoalescingRefinesQueue(ops: seq<Operation>, v: Inventory)
    requires NeverClosed(ops)
    ensures Faithful(Run(ops), v)
    decreases |ops|
  {
    if ops != [] {
      CoalescingRefinesQueue(ops[..|ops| - 1], v);
      StepFaithful(Run(ops[..|ops| - 1]), ops[|ops| - 1], v);
    }
  }

  lemma {:induction false} CommandsPrefix(a: seq<Message>, b: seq<Message>)
    ensures Commands(a) <= Commands(a + b)
    decreases |b|
  {
    if b == [] {
      assert a + b == a;
    } else {
      var shorter := b[..|b| - 1];
      assert a + b == (a + shorter) + [b[|b| - 1]];
      CommandsPrefix(a, shorter);
      CommandsOne(a + shorter, b[|b| - 1]);
    }
  }

  /** Until the mailbox closes every accepted command is still in the flow; afterwards no more come out. */
  ghost predicate Fifo(s: State) {
    && Commands(s.taken) <= Commands(s.accepted)
    && (!s.closed ==> Faithful(s, Inventory(0, 0, {})))
    && (s.closed ==> s.queue == [])
  }

  lemma StepFifo(s: State, op: Operation)
    requires Fifo(s)
    ensures Fifo(Step(s, op))
  {
    if !s.closed && !op.Closing? {
      var t := Step(s, op);
      StepFaithful(s, op, Inventory(0, 0, {}));
      CommandsPrefix(t.taken, t.queue);
    }
  }

  /** Commands come out first in, first out, at every moment and even if the mailbox is closed later. */
  lemma {:induction false} CommandsAreFifo(ops: seq<Operation>)
    ensures Commands(Run(ops).taken) <= Commands(Run(ops).accepted) && Fifo(Run(ops))
    decreases |ops|
  {
    if ops != [] {
      CommandsAreFifo(ops[..|ops| - 1]);
      StepFifo(Run(ops[..|ops| - 1]), ops[|ops| - 1]);
    }
  }

  /** A blocked writer stays blocked until the signal it sampled fires. */
  lemma {:induction false} BlockedUntilSignalled(before: seq<Operation>, later: seq<Operation>, m: Message)
    requires Judge(Run(before), m) == Blocked && Run(before + later).epoch == Run(before).epoch
    ensures Run(before + later).queue != [] && Judge(Run(before + later), m) == Blocked
    decreases |later|
  {
    if later == [] {
      assert before + later == before;
    } else {
      var shorter := later[..|later| - 1];
      assert (before + later)[..|before + later| - 1] == before + shorter;
      EpochGrows(before, shorter);
      BlockedUntilSignalled(before, shorter, m);
      MailboxIsAttended(before + shorter);
    }
  }

  lemma EpochStep(s: State, op: Operation)
    ensures s.epoch <= Step(s, op).epoch
  {
  }

  lemma {:induction false} EpochGrows(before: seq<Operation>, later: seq<Operation>)
    ensures Run(before).epoch <= Run(before + later).epoch
    decreases |later|
  {
    if later == [] {
      assert before + later == before;
    } else {
      var shorter := later[..|later| - 1];
      assert (before + later)[..|before + later| - 1] == before + shorter;
      EpochGrows(before, shorter);
      EpochStep(Run(before + shorter), later[|later| - 1]);
    }
  }

  // ---------------------------------------------------------------- the object

  class Mailbox {
    var queue: seq<Message>
    var closed: bool
    var wake: bool
    var epoch: nat
    ghost var awake: bool
    ghost var accepted: seq<Message>
    ghost var taken: seq<Message>

    ghost function View(): State
      reads this
    {
      State(queue, closed, wake, awake, epoch, accepted, taken)
    }

    ghost predicate Valid()
      reads this
    {
      Attended(View())
    }

    constructor ()
      ensures Valid() && View() == Start()
    {
      queue, closed, wake, epoch := [], false, false, 0;
      awake, accepted, taken := false, [], [];
    }

    /** The last snapshot is replaced in place; an older one is dropped. */
    method ReplaceInventory(m: Message) returns (merged: bool)
      modifies `queue
      ensures merged == old(Supersedes(queue, m))
      ensures queue == if merged then old(Replaced(queue, m)) else old(queue)
    {
      if !m.Available? || |queue| == 0 { return false; }
      var index := |queue| - 1;
      var previous := queue[index];
      if !previous.Available? || previous.session != m.session || previous.owner != m.owner { return false; }
      if m.sequence > previous.sequence {
        queue := queue[index := m];
      }
      return true;
    }

    method Put(m: Message) returns (verdict: Verdict)
      requires Valid()
      modifies `queue, `wake, `accepted
      ensures Valid() && View() == old(Step(View(), Putting(m))) && verdict == old(Judge(View(), m))
    {
      if closed { return Stopped; }
      var merged := ReplaceInventory(m);
      if merged {
        accepted := accepted + [m];
        return Accepted;
      }
      if |queue| < CONTROL_COMMAND_CAPACITY {
        queue := queue + [m];
        wake := true;
        accepted := accepted + [m];
        return Accepted;
      }
      return Blocked;
    }

    method ReceiveWake()
      requires Valid() && wake
      modifies `wake, `awake
      ensures Valid() && View() == old(Step(View(), Waking))
    {
      wake := false;
      awake := true;
    }

    method Take() returns (message: Option<Message>)
      requires Valid() && awake
      modifies `queue, `wake, `awake, `epoch, `taken
      ensures Valid() && View() == old(Step(View(), Taking))
      ensures message == if old(queue) == [] then None else Some(old(queue)[0])
    {
      awake := false;
      if |queue| == 0 { return None; }
      var first := queue[0];
      queue := queue[1..];
      epoch := epoch + 1;
      if |queue| != 0 {
        wake := true;
      }
      taken := taken + [first];
      return Some(first);
    }

    method Close()
      requires Valid()
      modifies `queue, `closed, `epoch
      ensures Valid() && View() == old(Step(View(), Closing))
    {
      if !closed {
        closed := true;
        queue := [];
        epoch := epoch + 1;
      }
    }
  }
}
