/** What the invariant means for whole runs, and two ways in which tasks wait forever. */
module SchedulerRuns {
  import opened Wrappers
  import opened Ast
  import opened Channels
  import opened Scheduler
  import opened SchedulerInv

  ghost predicate Reachable(s: State) {
    exists actions :: Run(INIT, actions) == Some(s)
  }

  lemma ReachableInv(s: State)
    requires Reachable(s)
    ensures Inv(s)
  {
    hide Inv, Run;
    var actions :| Run(INIT, actions) == Some(s);
    RunsSafe(actions);
  }

  /** A run can be cut anywhere. */
  lemma {:induction false} RunConcat(s: State, first: seq<Action>, second: seq<Action>)
    requires Run(s, first).Some?
    ensures Run(s, first + second) == Run(Run(s, first).value, second)
    decreases |second|
  {
    hide Next, Enabled;
    if second == [] {
      assert first + second == first;
    } else {
      var n := |second| - 1;
      assert (first + second)[..|first| + n] == first + second[..n];
      RunConcat(s, first, second[..n]);
    }
  }

  // ---- delivery ----

  // The values in all ring buffers.
  function Stored(chans: seq<Chan>): multiset<Int64>
    requires forall c :: c in chans ==> RingValid(c)
    decreases |chans|
  {
    if chans == [] then multiset{} else Stored(chans[..|chans| - 1]) + multiset(Contents(chans[|chans| - 1]))
  }

  lemma {:induction false} SumsAgree(accepted: seq<seq<Int64>>, left: seq<seq<Int64>>, chans: seq<Chan>, x: Int64)
    requires |accepted| == |left| == |chans| && forall c :: c in chans ==> RingValid(c)
    requires forall ch: nat :: ch < |chans| ==> accepted[ch] == left[ch] + Contents(chans[ch])
    ensures Sum(accepted)[x] == Sum(left)[x] + Stored(chans)[x]
    decreases |chans|
  {
    hide Contents, RingValid;
    if chans != [] {
      var n := |chans| - 1;
      SumsAgree(accepted[..n], left[..n], chans[..n], x);
      assert accepted[n] == left[n] + Contents(chans[n]);
    }
  }

  /** In every interleaving: each value a channel accepted was returned by one receive, or
      waits in the one task it was handed to, or is in its ring buffer. */
  lemma DeliveredOnce(s: State, x: Int64)
    requires Reachable(s)
    ensures forall c :: c in s.chans ==> RingValid(c)
    ensures Sum(s.accepted)[x] == s.returned[x] + Undelivered(s.slots, s.created)[x] + Stored(s.chans)[x]
  {
    hide Contents, RingValid, OnePlace, ChansInv, AgainInv;
    ReachableInv(s);
    forall c | c in s.chans
      ensures RingValid(c)
    {
      var ch: nat :| ch < |s.chans| && s.chans[ch] == c;
    }
    SumsAgree(s.accepted, s.left, s.chans, x);
    assert Sum(s.left)[x] == (s.returned + Undelivered(s.slots, s.created))[x];
  }

  /** In every interleaving: what left a channel is a prefix of what it accepted, and the rest,
      in order, is in its ring buffer. */
  lemma ChannelFifo(s: State, ch: nat)
    requires Reachable(s) && ch < |s.chans|
    ensures |s.accepted| == |s.left| == |s.chans| && RingValid(s.chans[ch])
    ensures s.accepted[ch] == s.left[ch] + Contents(s.chans[ch])
  {
    hide Contents, RingValid, OnePlace, ChansInv, AgainInv, Conserved;
    ReachableInv(s);
    assert RingValid(s.chans[ch]);
  }

  /** A send never overwrites a value its receiver has not taken. */
  lemma NothingOverwritten(s: State, ch: nat, v: Int64, caller: Caller)
    requires Reachable(s) && Enabled(s, DoSend(ch, v, caller)) && Send(s.chans[ch], v, caller).1.Handed?
    ensures var r := Send(s.chans[ch], v, caller).1.receiver;
            r !in s.slots && r !in s.running && Live(s, r) && s.chans[ch].count == 0
  {
    hide OnePlace, AgainInv, Fifo, Conserved, RingValid;
    ReachableInv(s);
    var c := s.chans[ch];
    SendKept(c, v, caller);
    ReceiverQueued(c, c.receivers[0]);
    WaitsOnce(s, ch, ch, c.receivers[0]);
    assert ChanInv(s, ch);
  }

  /** When a channel takes a value: exactly when it is open and has a receiver or room. */
  lemma SendTakesIff(s: State, ch: nat, v: Int64, caller: Caller)
    requires Reachable(s) && Enabled(s, DoSend(ch, v, caller))
    ensures var c, r := s.chans[ch], Next(s, DoSend(ch, v, caller));
            && |r.accepted| == |s.accepted| == |s.chans|
            && (r.accepted[ch] == s.accepted[ch] + [v] <==> !c.closed && (c.receivers != [] || c.count < c.capacity))
            && (r.accepted != s.accepted <==> r.accepted[ch] == s.accepted[ch] + [v])
  {
    ChannelFifo(s, ch);
    var c := s.chans[ch];
    var (d, x) := Send(c, v, caller);
    assert x.Handed? || x.Buffered? <==> !c.closed && (c.receivers != [] || c.count < c.capacity);
    assert |s.accepted[ch] + [v]| != |s.accepted[ch]|;
  }

  // ---- closing ----

  /** From its close on, a channel accepts nothing. */
  lemma {:induction false} ClosedAcceptsNothing(s: State, actions: seq<Action>, ch: nat)
    requires ch < |s.chans| && s.chans[ch].closed && |s.accepted| == |s.chans| && Run(s, actions).Some?
    ensures var r := Run(s, actions).value;
            ch < |r.chans| == |r.accepted| && r.chans[ch].closed && r.accepted[ch] == s.accepted[ch]
    decreases |actions|
  {
    hide Enabled, Next;
    if actions != [] {
      var n := |actions| - 1;
      ClosedAcceptsNothing(s, actions[..n], ch);
      ClosedStep(Run(s, actions[..n]).value, actions[n], ch);
    }
  }

  lemma ClosedStep(s: State, a: Action, ch: nat)
    requires ch < |s.chans| == |s.accepted| && s.chans[ch].closed && Enabled(s, a)
    ensures var r := Next(s, a); ch < |r.chans| == |r.accepted| && r.chans[ch].closed && r.accepted[ch] == s.accepted[ch]
  {
    hide Next, Enabled, RingValid;
    match a
    case DoSend(c, v, caller) => SendClosed(s, c, v, caller, ch);
    case DoRecv(c, caller) => DoRecvClosed(s, c, caller, ch);
    case DoRecvRest(c, caller) => DoRecvRestClosed(s, c, caller, ch);
    case _ => OtherClosed(s, a, ch);
  }

  lemma OtherClosed(s: State, a: Action, ch: nat)
    requires ch < |s.chans| == |s.accepted| && s.chans[ch].closed && Enabled(s, a) && !a.DoSend? && !a.DoRecv? && !a.DoRecvRest?
    ensures var r := Next(s, a); ch < |r.chans| == |r.accepted| && r.chans[ch].closed && r.accepted[ch] == s.accepted[ch]
  {
    hide RingValid, AfterSend, AfterRecv, LeaveAgain, Recv, RecvRest;
  }

  lemma SendClosed(s: State, c: nat, v: Int64, caller: Caller, ch: nat)
    requires ch < |s.chans| == |s.accepted| && s.chans[ch].closed && Enabled(s, DoSend(c, v, caller))
    ensures var r := Next(s, DoSend(c, v, caller)); ch < |r.chans| == |r.accepted| && r.chans[ch].closed && r.accepted[ch] == s.accepted[ch]
  {
    hide RingValid;
  }

  lemma DoRecvClosed(s: State, c: nat, caller: Caller, ch: nat)
    requires ch < |s.chans| == |s.accepted| && s.chans[ch].closed && Enabled(s, DoRecv(c, caller))
    ensures var r := Next(s, DoRecv(c, caller)); ch < |r.chans| == |r.accepted| && r.chans[ch].closed && r.accepted[ch] == s.accepted[ch]
  {
    hide RingValid, AfterRecv, Recv, RecvRest;
    RecvClosed(s.chans[c], caller);
  }

  lemma DoRecvRestClosed(s: State, c: nat, caller: Caller, ch: nat)
    requires ch < |s.chans| == |s.accepted| && s.chans[ch].closed && Enabled(s, DoRecvRest(c, caller))
    ensures var r := Next(s, DoRecvRest(c, caller)); ch < |r.chans| == |r.accepted| && r.chans[ch].closed && r.accepted[ch] == s.accepted[ch]
  {
    hide RingValid, AfterRecv, Recv, RecvRest;
    RecvClosed(s.chans[c], caller);
  }

  lemma RecvClosed(c: Chan, caller: Caller)
    requires RingValid(c)
    ensures Recv(c, caller).0.closed == c.closed && RecvRest(c, caller).0.closed == c.closed
  {
  }

  /** A closed channel has no waiting senders once its close is done. */
  lemma ClosedNoSenders(s: State, ch: nat)
    requires Reachable(s) && ch < |s.chans| && s.chans[ch].closed && ch !in s.closing
    ensures s.chans[ch].senders == []
  {
    hide OnePlace, AgainInv, Fifo, Conserved, RingValid;
    ReachableInv(s);
    assert ChanInv(s, ch);
  }

  /** The task waits to receive from a channel whose close is done. */
  predicate WaitsClosed(s: State, ch: nat, t: TaskId) {
    ch < |s.chans| && s.chans[ch].closed && ch !in s.closing && t in s.chans[ch].receivers
  }

  // A receive by the task that finds nothing and may wait.
  predicate FindsNothing(s: State, a: Action, ch: nat, t: TaskId) {
    && ch < |s.chans| && s.chans[ch].count == 0
    && match a
       case DoRecv(c, caller) => c == ch && caller == Caller(true, Some(t)) && s.chans[ch].senders == [] && t !in s.slots
       case DoRecvRest(c, caller) => c == ch && caller == Caller(true, Some(t))
       case _ => false
  }

  /** A task comes to wait on a closed channel exactly when the channel is closed already and
      it receives, finds neither a value nor a sender, and may wait: a receive does not look
      whether the channel is closed. */
  lemma WaitsClosedIff(s: State, a: Action, ch: nat, t: TaskId)
    requires Enabled(s, a) && !WaitsClosed(s, ch, t)
    ensures WaitsClosed(Next(s, a), ch, t) <==>
            FindsNothing(s, a, ch, t) && s.chans[ch].closed && ch !in s.closing
  {
    hide Next, Enabled, RingValid;
    match a
    case DoSend(c, v, caller) => SendWaitsClosed(s, c, v, caller, ch, t);
    case DoRecv(c, caller) => RecvWaitsClosed(s, c, caller, ch, t);
    case DoRecvRest(c, caller) => RestWaitsClosed(s, c, caller, ch, t);
    case _ => OtherWaitsClosed(s, a, ch, t);
  }

  lemma OtherWaitsClosed(s: State, a: Action, ch: nat, t: TaskId)
    requires Enabled(s, a) && !a.DoSend? && !a.DoRecv? && !a.DoRecvRest?
    ensures WaitsClosed(Next(s, a), ch, t) <==> WaitsClosed(s, ch, t) && a != Close(ch)
  {
    hide RingValid, AfterSend, AfterRecv, LeaveAgain, Recv, RecvRest;
  }

  lemma SendWaitsClosed(s: State, c: nat, v: Int64, caller: Caller, ch: nat, t: TaskId)
    requires Enabled(s, DoSend(c, v, caller))
    ensures WaitsClosed(Next(s, DoSend(c, v, caller)), ch, t) <==> WaitsClosed(s, ch, t)
  {
    hide RingValid, AfterSend;
  }

  lemma RecvWaitsClosed(s: State, c: nat, caller: Caller, ch: nat, t: TaskId)
    requires Enabled(s, DoRecv(c, caller))
    ensures WaitsClosed(Next(s, DoRecv(c, caller)), ch, t) <==>
            WaitsClosed(s, ch, t) || (FindsNothing(s, DoRecv(c, caller), ch, t) && s.chans[ch].closed && ch !in s.closing)
  {
    hide RingValid, AfterRecv;
  }

  lemma RestWaitsClosed(s: State, c: nat, caller: Caller, ch: nat, t: TaskId)
    requires Enabled(s, DoRecvRest(c, caller))
    ensures WaitsClosed(Next(s, DoRecvRest(c, caller)), ch, t) <==>
            WaitsClosed(s, ch, t) || (FindsNothing(s, DoRecvRest(c, caller), ch, t) && s.chans[ch].closed && ch !in s.closing)
  {
    hide RingValid, AfterRecv;
  }

  /** Only closing the channel once more ends that wait. */
  lemma StuckStep(s: State, a: Action, ch: nat, t: TaskId)
    requires WaitsClosed(s, ch, t) && Enabled(s, a)
    ensures WaitsClosed(Next(s, a), ch, t) <==> a != Close(ch)
  {
    hide Next, Enabled, WaitsClosed, RingValid;
    match a
    case DoSend(c, v, caller) => SendWaitsClosed(s, c, v, caller, ch, t);
    case DoRecv(c, caller) => RecvWaitsClosed(s, c, caller, ch, t);
    case DoRecvRest(c, caller) => RestWaitsClosed(s, c, caller, ch, t);
    case _ => OtherWaitsClosed(s, a, ch, t);
  }

  /** A receiver that waits on a closed channel goes on waiting until the channel is closed a
      second time: no send can reach it. */
  lemma {:induction false} ClosedReceiverStuck(s: State, actions: seq<Action>, ch: nat, t: TaskId)
    requires WaitsClosed(s, ch, t) && Run(s, actions).Some? && Close(ch) !in actions
    ensures WaitsClosed(Run(s, actions).value, ch, t)
    decreases |actions|
  {
    hide Enabled, Next, WaitsClosed;
    if actions != [] {
      var n := |actions| - 1;
      ClosedReceiverStuck(s, actions[..n], ch, t);
      StuckStep(Run(s, actions[..n]).value, actions[n], ch, t);
    }
  }

  // ---- a sender and a receiver that miss each other ----

  predicate BothWait(s: State, ch: nat) {
    ch < |s.chans| && s.chans[ch].senders != [] && s.chans[ch].receivers != []
  }

  /** A sender and a receiver come to wait on the same channel exactly when a receive looks a
      second time, finds nothing buffered, and a sender has queued up in the meantime. */
  lemma BothWaitIff(s: State, a: Action, ch: nat)
    requires Enabled(s, a) && !BothWait(s, ch)
    ensures BothWait(Next(s, a), ch) <==>
            a.DoRecvRest? && a.ch == ch && a.caller.CanWait() && s.chans[ch].count == 0 && s.chans[ch].senders != []
  {
    match a
    case DoSend(c, v, caller) =>
      assert c == ch && s.chans[c].receivers != [] ==> Send(s.chans[c], v, caller).0.senders == s.chans[c].senders;
    case DoRecv(c, caller) =>
    case DoRecvRest(c, caller) =>
    case _ =>
  }

  /** Nothing can happen that does not come from outside the tasks. */
  ghost predicate Deadlocked(s: State) {
    forall a: Action :: Enabled(s, a) ==> External(a)
  }

  predicate External(a: Action) {
    match a
    case MakeChan(_) => true
    case Go => true
    case Close(_) => true
    case DoSend(_, _, caller) => caller.self.None?
    case DoRecv(_, caller) => caller.self.None?
    case _ => false
  }

  lemma IdleDeadlocks(s: State)
    requires s.ready == [] && s.running == multiset{} && s.held == multiset{} && s.closing == {} && s.again == map[] && s.againOthers == multiset{}
    ensures Deadlocked(s)
  {
    forall a: Action | Enabled(s, a)
      ensures External(a)
    {
    }
  }

  lemma Reach(s: State, a: Action, r: State)
    requires Reachable(s) && Enabled(s, a) && Next(s, a) == r
    ensures Reachable(r)
  {
    hide Next, Enabled;
    var actions :| Run(INIT, actions) == Some(s);
    assert (actions + [a])[..|actions|] == actions;
    assert Run(INIT, actions + [a]) == Some(r);
  }

  const SENDER: Caller := Caller(true, Some(0))
  const RECEIVER: Caller := Caller(true, Some(1))

  /** One unbuffered channel, and two tasks. */
  function Pair(ready: seq<TaskId>, running: multiset<TaskId>, senders: seq<TaskId>, receivers: seq<TaskId>): State {
    INIT.(chans := [Create(0).(senders := senders, receivers := receivers)], accepted := [[]], left := [[]],
          created := 2, ready := ready, running := running)
  }

  lemma PairStarts()
    ensures Reachable(Pair([], multiset{0, 1}, [], []))
  {
    var s1 := INIT.(chans := [Create(0)], accepted := [[]], left := [[]]);
    assert Run(INIT, []) == Some(INIT);
    assert Reachable(INIT);
    Reach(INIT, MakeChan(0), s1);
    Reach(s1, Go, s1.(created := 1, ready := [0]));
    Reach(s1.(created := 1, ready := [0]), Go, Pair([0, 1], multiset{}, [], []));
    PairDispatch(0, 1);
  }

  lemma PairDispatch(t: TaskId, u: TaskId)
    requires Reachable(Pair([t, u], multiset{}, [], []))
    ensures Reachable(Pair([], multiset{t, u}, [], []))
  {
    hide Reachable;
    var s := Pair([t, u], multiset{}, [], []);
    assert [t, u][1..] == [u] && [u][1..] == [];
    Reach(s, Dispatch, Pair([u], multiset{t}, [], []));
    Reach(Pair([u], multiset{t}, [], []), Dispatch, Pair([], multiset{t, u}, [], []));
  }

  // An unbuffered channel nobody receives from: the sender waits, and takes itself out.
  lemma PairSends(s: State, v: Int64, receivers: map<TaskId, Pending>)
    requires Reachable(s) && s == Pair([], multiset{0, 1}, [], []).(again := receivers) && 0 !in receivers
    ensures Reachable(Pair([], multiset{1}, [0], []).(again := receivers))
  {
    hide Reachable;
    assert multiset{0, 1} - multiset{0} == multiset{1};
    assert [] + [0] == [0];
    Reach(s, DoSend(0, v, SENDER), Pair([], multiset{1}, [0], []).(again := receivers));
  }

  /** The sender tries again between the two looks of the receiver, which is not queued yet;
      then both wait, on an open channel, and neither wakes the other. */
  lemma MissedWakeup(v: Int64) returns (s: State)
    ensures Reachable(s) && BothWait(s, 0) && !s.chans[0].closed && Deadlocked(s)
  {
    hide Reachable;
    PairStarts();
    var looks := map[1 := Pending(0, true)];
    PairSends(Pair([], multiset{0, 1}, [], []), v, map[]);
    var s2 := Pair([], multiset{1}, [], []).(held := multiset{0}, again := looks);
    var s3 := Pair([0], multiset{1}, [], []).(again := looks);
    var s4 := Pair([], multiset{0, 1}, [], []).(again := looks);
    PairLooks(s2);
    Reach(s2, Wake(0), s3);
    assert [0][1..] == [];
    Reach(s3, Dispatch, s4);
    PairSends(s4, v, looks);
    s := Pair([], multiset{}, [0], [1]);
    PairMisses(looks);
    IdleDeadlocks(s);
  }

  lemma PairLooks(s: State)
    requires Reachable(Pair([], multiset{1}, [0], [])) && s == Pair([], multiset{1}, [], []).(held := multiset{0}, again := map[1 := Pending(0, true)])
    ensures Reachable(s)
  {
    hide Reachable;
    assert [0][1..] == [];
    Reach(Pair([], multiset{1}, [0], []), DoRecv(0, RECEIVER), s);
  }

  lemma PairMisses(looks: map<TaskId, Pending>)
    requires Reachable(Pair([], multiset{1}, [0], []).(again := looks)) && looks == map[1 := Pending(0, true)]
    ensures Reachable(Pair([], multiset{}, [0], [1]))
  {
    hide Reachable;
    var s := Pair([], multiset{1}, [0], []).(again := looks);
    assert looks - {1} == map[];
    assert [] + [1] == [1];
    assert multiset{1} - multiset{1} == multiset{};
    Reach(s, DoRecvRest(0, RECEIVER), Pair([], multiset{}, [0], [1]));
  }

  /** Such a wait does happen. */
  lemma ClosedReceiver() returns (s: State)
    ensures Reachable(s) && WaitsClosed(s, 0, 1)
  {
    hide Reachable;
    PairStarts();
    var s0 := Pair([], multiset{0, 1}, [], []);
    var s1 := s0.(chans := [Create(0).(closed := true)], closing := {0});
    Reach(s0, Close(0), s1);
    var s2 := s1.(closing := {});
    Reach(s1, CloseEnd(0), s2);
    s := s2.(chans := [s2.chans[0].(receivers := [1])], running := multiset{0});
    assert [] + [1] == [1];
    Reach(s2, DoRecv(0, RECEIVER), s);
  }

  // ---- compiled programs ----

  /** The calls in compiled code pass neither a continuation nor a task. */
  predicate Compiled(a: Action) {
    match a
    case DoSend(_, _, caller) => caller == Caller(false, None)
    case DoRecv(_, caller) => caller == Caller(false, None)
    case _ => true
  }

  // Nobody waits or was woken, and channels without a buffer are unused.
  ghost predicate NobodyWaits(s: State) {
    && s.held == multiset{} && s.again == map[] && s.slots == map[] && s.againOthers == multiset{} && |s.accepted| == |s.chans|
    && forall ch: nat {:trigger s.chans[ch]} :: ch < |s.chans| ==>
         s.chans[ch].senders == [] && s.chans[ch].receivers == [] && (s.chans[ch].capacity <= 0 ==> s.accepted[ch] == [])
  }

  lemma CompiledStep(s: State, a: Action)
    requires NobodyWaits(s) && Compiled(a) && Enabled(s, a)
    ensures NobodyWaits(Next(s, a))
  {
    hide Next, Enabled, NobodyWaits, RingValid;
    match a
    case DoSend(ch, v, caller) => CompiledSend(s, ch, v, caller);
    case DoRecv(ch, caller) => CompiledRecv(s, ch, caller);
    case _ => CompiledOther(s, a);
  }

  lemma CompiledOther(s: State, a: Action)
    requires NobodyWaits(s) && Enabled(s, a) && !a.DoSend? && !a.DoRecv?
    ensures NobodyWaits(Next(s, a))
  {
    hide RingValid, RecvRest, AfterRecv, AfterSend, Recv;
  }

  lemma CompiledSend(s: State, ch: nat, v: Int64, caller: Caller)
    requires NobodyWaits(s) && Enabled(s, DoSend(ch, v, caller)) && caller == Caller(false, None)
    ensures NobodyWaits(Next(s, DoSend(ch, v, caller)))
  {
    hide RingValid;
    assert s.chans[ch].receivers == [];
  }

  lemma CompiledRecv(s: State, ch: nat, caller: Caller)
    requires NobodyWaits(s) && Enabled(s, DoRecv(ch, caller)) && caller == Caller(false, None)
    ensures NobodyWaits(Next(s, DoRecv(ch, caller)))
  {
    hide RingValid;
    assert s.chans[ch].senders == [];
  }

  /** In compiled programs no task ever waits, and an unbuffered channel never takes a value. */
  lemma {:induction false} CompiledNeverWaits(actions: seq<Action>)
    requires Run(INIT, actions).Some? && forall a :: a in actions ==> Compiled(a)
    ensures NobodyWaits(Run(INIT, actions).value)
    decreases |actions|
  {
    hide NobodyWaits, Next, Enabled;
    if actions == [] {
      NobodyWaitsInit();
    } else {
      var n := |actions| - 1;
      CompiledNeverWaits(actions[..n]);
      CompiledStep(Run(INIT, actions[..n]).value, actions[n]);
    }
  }

  lemma NobodyWaitsInit()
    ensures NobodyWaits(INIT)
  {
  }
}
