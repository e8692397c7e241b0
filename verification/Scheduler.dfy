/** Goroutines and their channels as a state machine. Each action is what one thread does while it
    holds one lock; threads interleave between actions in any way. The logs of accepted, departed
    and returned values are not in the source: they are there to say what must be kept. */
module Scheduler {
  import opened Wrappers
  import opened Ast
  import opened Channels

  /** `running` are the tasks some thread executes and `held` the tasks a thread took from a
      wait queue and has not made ready yet. A task in `again` is inside a receive that let go
      of the channel; `againOthers` counts such receives of callers that are no task. A task in
      `slots` has an undelivered value. The last three fields record what happened: the values
      each channel accepted, the values that left it, and the values receives returned. */
  datatype State = State(ready: seq<TaskId>, running: multiset<TaskId>, held: multiset<TaskId>,
                         again: map<TaskId, Pending>, againOthers: multiset<nat>,
                         chans: seq<Chan>, closing: set<nat>, slots: map<TaskId, Int64>,
                         created: nat, finished: set<TaskId>,
                         accepted: seq<seq<Int64>>, left: seq<seq<Int64>>, returned: multiset<Int64>)

  // The channel of an unfinished receive, and whether its caller can wait.
  datatype Pending = Pending(chan: nat, cont: bool)

  datatype Action =
    | MakeChan(capacity: int)
    | Go
    | Dispatch                                       // a worker takes the first ready task
    | Finish(t: TaskId)
    | DoSend(ch: nat, v: Int64, caller: Caller)
    | DoRecv(ch: nat, caller: Caller)
    | DoRecvRest(ch: nat, caller: Caller)
    | Wake(t: TaskId)                                // a held task becomes ready
    | Close(ch: nat)
    | CloseTake(ch: nat)
    | CloseEnd(ch: nat)

  const INIT := State([], multiset{}, multiset{}, map[], multiset{}, [], {}, map[], 0, {}, [], [], multiset{})

  /** A caller that is a task is running, and not inside another call. */
  predicate MayCall(s: State, caller: Caller) {
    caller.self.None? || (caller.self.value in s.running && caller.self.value !in s.again)
  }

  // While a channel is being closed its lock is taken.
  predicate Unlocked(s: State, ch: nat) {
    ch < |s.chans| && ch !in s.closing
  }

  predicate InAgain(s: State, ch: nat, caller: Caller) {
    if caller.self.Some? then caller.self.value in s.again && s.again[caller.self.value] == Pending(ch, caller.cont)
    else ch in s.againOthers
  }

  predicate Enabled(s: State, a: Action) {
    match a
    case MakeChan(_) => true
    case Go => true
    case Dispatch => s.ready != []
    case Finish(t) => t in s.running && t !in s.again
    case DoSend(ch, _, caller) => Unlocked(s, ch) && RingValid(s.chans[ch]) && MayCall(s, caller)
    case DoRecv(ch, caller) => Unlocked(s, ch) && RingValid(s.chans[ch]) && MayCall(s, caller)
    case DoRecvRest(ch, caller) => Unlocked(s, ch) && RingValid(s.chans[ch]) && InAgain(s, ch, caller)
    case Wake(t) => t in s.held
    case Close(ch) => Unlocked(s, ch)
    case CloseTake(ch) => ch < |s.chans| && ch in s.closing && (s.chans[ch].receivers != [] || s.chans[ch].senders != [])
    case CloseEnd(ch) => ch < |s.chans| && ch in s.closing && s.chans[ch].receivers == [] && s.chans[ch].senders == []
  }

  function Remove(m: multiset<TaskId>, t: TaskId): multiset<TaskId> {
    m - multiset{t}
  }

  function Log(logs: seq<seq<Int64>>, ch: nat, v: Int64): seq<seq<Int64>> {
    if ch < |logs| then logs[ch := logs[ch] + [v]] else logs
  }

  // A caller that was queued does not run any longer.
  function Parked(s: State, caller: Caller): (r: State)
    ensures SameTasks(s, r) && r.chans == s.chans && r.slots == s.slots && r.accepted == s.accepted
  {
    if caller.self.Some? then s.(running := Remove(s.running, caller.self.value)) else s
  }

  function Next(s: State, a: Action): State
    requires Enabled(s, a)
  {
    match a
    case MakeChan(capacity) => s.(chans := s.chans + [Create(capacity)], accepted := s.accepted + [[]], left := s.left + [[]])
    case Go => s.(created := s.created + 1, ready := s.ready + [s.created])
    case Dispatch => s.(ready := s.ready[1..], running := s.running + multiset{s.ready[0]})
    case Finish(t) => s.(running := Remove(s.running, t), finished := s.finished + {t})
    case DoSend(ch, v, caller) => AfterSend(s, ch, v, caller)
    case DoRecv(ch, caller) =>
      if caller.self.Some? && caller.self.value in s.slots then Delivered(s, caller.self.value)
      else AfterRecv(s, ch, caller, Recv(s.chans[ch], caller))
    case DoRecvRest(ch, caller) => AfterRecv(LeaveAgain(s, ch, caller), ch, caller, RecvRest(s.chans[ch], caller))
    case Wake(t) => s.(held := Remove(s.held, t), ready := s.ready + [t])
    case Close(ch) => s.(chans := s.chans[ch := s.chans[ch].(closed := true)], closing := s.closing + {ch})
    case CloseTake(ch) =>
      var c := s.chans[ch];
      if c.receivers != [] then s.(chans := s.chans[ch := c.(receivers := c.receivers[1..])], held := s.held + multiset{c.receivers[0]})
      else s.(chans := s.chans[ch := c.(senders := c.senders[1..])], held := s.held + multiset{c.senders[0]})
    case CloseEnd(ch) => s.(closing := s.closing - {ch})
  }

  // No task starts or finishes, none becomes ready, and no channel is being closed that was not.
  ghost predicate SameTasks(s: State, r: State) {
    r.created == s.created && r.finished == s.finished && r.ready == s.ready && r.closing == s.closing
  }

  // A value a sender left for the task, whatever channel it came from.
  function Delivered(s: State, t: TaskId): State
    requires t in s.slots
  {
    s.(returned := s.returned + multiset{s.slots[t]}, slots := s.slots - {t})
  }

  function AfterSend(s: State, ch: nat, v: Int64, caller: Caller): (r: State)
    requires ch < |s.chans| && RingValid(s.chans[ch])
    ensures SameTasks(s, r) && r.chans == s.chans[ch := Send(s.chans[ch], v, caller).0]
  {
    var (c, x) := Send(s.chans[ch], v, caller);
    var s1 := s.(chans := s.chans[ch := c]);
    match x
    case Dropped => s1
    case SendBlocked => Parked(s1, caller)
    case Buffered => s1.(accepted := Log(s.accepted, ch, v))
    case Handed(r) =>
      s1.(accepted := Log(s.accepted, ch, v), left := Log(s.left, ch, v), slots := s.slots[r := v], held := s.held + multiset{r})
  }

  function AfterRecv(s: State, ch: nat, caller: Caller, r: (Chan, Received)): (s': State)
    requires ch < |s.chans|
    ensures SameTasks(s, s') && s'.chans == s.chans[ch := r.0] && s'.slots == s.slots && s'.accepted == s.accepted
  {
    hide Parked, EnterAgain;
    var s1 := s.(chans := s.chans[ch := r.0]);
    match r.1
    case Took(v, woken) =>
      s1.(left := Log(s.left, ch, v), returned := s.returned + multiset{v},
          held := if woken.Some? then s.held + multiset{woken.value} else s.held)
    case Again(sender) => EnterAgain(s1.(held := s.held + multiset{sender}), ch, caller)
    case RecvBlocked => Parked(s1, caller)
    case Nothing => s1
  }

  function EnterAgain(s: State, ch: nat, caller: Caller): (r: State)
    ensures SameTasks(s, r) && r.chans == s.chans && r.slots == s.slots && r.accepted == s.accepted
  {
    if caller.self.Some? then s.(again := s.again[caller.self.value := Pending(ch, caller.cont)])
    else s.(againOthers := s.againOthers + multiset{ch})
  }

  function LeaveAgain(s: State, ch: nat, caller: Caller): State {
    if caller.self.Some? then s.(again := s.again - {caller.self.value})
    else s.(againOthers := s.againOthers - multiset{ch})
  }

  /** Runs the actions one after the other; None if one of them was not possible. */
  function Run(s: State, actions: seq<Action>): Option<State>
    decreases |actions|
  {
    if actions == [] then Some(s)
    else
      var mid :- Run(s, actions[..|actions| - 1]);
      if Enabled(mid, actions[|actions| - 1]) then Some(Next(mid, actions[|actions| - 1])) else None
  }

  // ---- the invariant ----

  // How often the task is in the wait queues of one channel, and of all of them.
  function Queued(c: Chan, t: TaskId): nat {
    multiset(c.senders)[t] + multiset(c.receivers)[t]
  }

  function Waiting(chans: seq<Chan>, t: TaskId): nat
    decreases |chans|
  {
    if chans == [] then 0 else Waiting(chans[..|chans| - 1], t) + Queued(chans[|chans| - 1], t)
  }

  /** How many places the task is in. */
  function Places(s: State, t: TaskId): nat {
    multiset(s.ready)[t] + s.running[t] + s.held[t] + Waiting(s.chans, t)
  }

  predicate Live(s: State, t: TaskId) {
    t < s.created && t !in s.finished
  }

  /** Each live task is in exactly one place, and no other task is anywhere. */
  ghost predicate OnePlace(s: State) {
    && (forall t :: t in s.finished ==> t < s.created)
    && forall t: TaskId {:trigger Places(s, t)} :: Places(s, t) == if Live(s, t) then 1 else 0
  }

  /** Receivers wait only where nothing is buffered, and none of them has an undelivered value;
      senders do not wait on a closed channel. */
  ghost predicate ChanInv(s: State, ch: nat)
    requires ch < |s.chans|
  {
    var c := s.chans[ch];
    && RingValid(c)
    && (c.receivers != [] ==> c.count == 0)
    && (forall t :: t in c.receivers ==> t !in s.slots)
    && (c.closed && ch !in s.closing ==> c.senders == [])
    && (ch in s.closing ==> c.closed)
  }

  ghost predicate ChansInv(s: State) {
    && (forall ch :: ch in s.closing ==> ch < |s.chans|)
    && forall ch: nat {:trigger s.chans[ch]} :: ch < |s.chans| ==> ChanInv(s, ch)
  }

  /** Values leave a channel in the order in which it accepted them. */
  ghost predicate Fifo(s: State) {
    && |s.accepted| == |s.left| == |s.chans|
    && forall ch: nat {:trigger s.chans[ch]} :: ch < |s.chans| ==>
         RingValid(s.chans[ch]) && s.accepted[ch] == s.left[ch] + Contents(s.chans[ch])
  }

  // A receive that looks once more: its caller runs, and has no undelivered value.
  ghost predicate AgainInv(s: State) {
    forall t :: t in s.again ==> t in s.running && t !in s.slots
  }

  /** The values of all channels together. */
  function Sum(logs: seq<seq<Int64>>): multiset<Int64>
    decreases |logs|
  {
    if logs == [] then multiset{} else Sum(logs[..|logs| - 1]) + multiset(logs[|logs| - 1])
  }

  /** The undelivered values of the first `n` tasks. */
  function Undelivered(slots: map<TaskId, Int64>, n: nat): multiset<Int64>
    decreases n
  {
    if n == 0 then multiset{}
    else Undelivered(slots, n - 1) + if n - 1 in slots then multiset{slots[n - 1]} else multiset{}
  }

  /** Each value that left a channel was returned once or waits in one task. */
  ghost predicate Conserved(s: State) {
    && (forall t :: t in s.slots ==> t < s.created)
    && Sum(s.left) == s.returned + Undelivered(s.slots, s.created)
  }

  ghost predicate Inv(s: State) {
    OnePlace(s) && ChansInv(s) && Fifo(s) && AgainInv(s) && Conserved(s)
  }
}
