/** Every run of the scheduler keeps its invariant. */
module SchedulerInv {
  import opened Wrappers
  import opened Ast
  import opened Channels
  import opened Scheduler

  // ---- queues and places ----

  function One(t: TaskId, u: TaskId): nat {
    if t == u then 1 else 0
  }

  lemma TakeFirst(q: seq<TaskId>, t: TaskId)
    requires q != []
    ensures multiset(q)[t] == One(q[0], t) + multiset(q[1..])[t]
  {
    assert q == [q[0]] + q[1..];
  }

  lemma {:induction false} WaitingUpdate(chans: seq<Chan>, ch: nat, c: Chan, t: TaskId)
    requires ch < |chans|
    ensures Waiting(chans[ch := c], t) + Queued(chans[ch], t) == Waiting(chans, t) + Queued(c, t)
    ensures Queued(chans[ch], t) <= Waiting(chans, t)
    decreases |chans|
  {
    hide Queued;
    var n, after := |chans| - 1, chans[ch := c];
    if ch < n {
      WaitingUpdate(chans[..n], ch, c, t);
      assert after[..n] == chans[..n][ch := c];
    } else {
      assert after[..n] == chans[..n];
    }
  }

  lemma {:induction false} WaitingTwice(chans: seq<Chan>, i: nat, j: nat, t: TaskId)
    requires i < j < |chans|
    ensures Waiting(chans, t) >= Queued(chans[i], t) + Queued(chans[j], t)
    decreases |chans|
  {
    hide Queued;
    var n := |chans| - 1;
    if j < n {
      WaitingTwice(chans[..n], i, j, t);
    } else {
      WaitingUpdate(chans[..n], i, chans[i], t);
    }
  }

  /** A task waits in at most one queue, and there only once; then it is in no other place. */
  lemma WaitsOnce(s: State, i: nat, j: nat, t: TaskId)
    requires OnePlace(s) && i < |s.chans| && j < |s.chans| && Queued(s.chans[i], t) > 0
    ensures Live(s, t) && t !in s.running && Queued(s.chans[i], t) == 1
    ensures i != j ==> Queued(s.chans[j], t) == 0
  {
    hide Queued;
    WaitingUpdate(s.chans, i, s.chans[i], t);
    assert Places(s, t) >= 1;
    if i != j {
      WaitingTwice(s.chans, if i < j then i else j, if i < j then j else i, t);
    }
  }

  /** How a send moves tasks between the queues and the caller. */
  lemma SendQueues(c: Chan, v: Int64, caller: Caller, t: TaskId)
    requires RingValid(c)
    ensures var (d, x) := Send(c, v, caller);
            match x
            case Handed(r) => Queued(c, t) == Queued(d, t) + One(r, t)
            case SendBlocked => caller.CanWait() && Queued(d, t) == Queued(c, t) + One(caller.self.value, t)
            case _ => Queued(d, t) == Queued(c, t)
  {
    if c.receivers != [] {
      TakeFirst(c.receivers, t);
    }
  }

  lemma RestQueues(c: Chan, caller: Caller, t: TaskId)
    requires RingValid(c)
    ensures QueuesMoved(c, caller, RecvRest(c, caller), t)
  {
  }

  lemma RecvQueues(c: Chan, caller: Caller, t: TaskId)
    requires RingValid(c)
    ensures QueuesMoved(c, caller, Recv(c, caller), t)
  {
    if c.senders != [] {
      TakeFirst(c.senders, t);
    } else {
      RestQueues(c, caller, t);
    }
  }

  ghost predicate QueuesMoved(c: Chan, caller: Caller, r: (Chan, Received), t: TaskId) {
    match r.1
    case Took(_, Some(u)) => Queued(c, t) == Queued(r.0, t) + One(u, t)
    case Again(u) => Queued(c, t) == Queued(r.0, t) + One(u, t)
    case RecvBlocked => caller.CanWait() && Queued(r.0, t) == Queued(c, t) + One(caller.self.value, t)
    case _ => Queued(r.0, t) == Queued(c, t)
  }

  lemma SendPlaces(s: State, ch: nat, v: Int64, caller: Caller, t: TaskId)
    requires ch < |s.chans| && RingValid(s.chans[ch]) && (caller.self.Some? ==> caller.self.value in s.running)
    ensures Places(AfterSend(s, ch, v, caller), t) == Places(s, t)
  {
    hide Send, Waiting, Queued;
    SendQueues(s.chans[ch], v, caller, t);
    WaitingUpdate(s.chans, ch, Send(s.chans[ch], v, caller).0, t);
  }

  lemma EnterPlaces(s: State, ch: nat, caller: Caller, t: TaskId)
    ensures Places(EnterAgain(s, ch, caller), t) == Places(s, t)
  {
    hide Waiting;
  }

  lemma RecvPlaces(s: State, ch: nat, caller: Caller, r: (Chan, Received), t: TaskId)
    requires ch < |s.chans| && QueuesMoved(s.chans[ch], caller, r, t) && (caller.self.Some? ==> caller.self.value in s.running)
    ensures Places(AfterRecv(s, ch, caller, r), t) == Places(s, t)
  {
    hide Waiting, Queued, EnterAgain, Parked, Places;
    match r.1
    case Again(_) => AgainPlaces(s, ch, caller, r, t);
    case RecvBlocked => ParkedPlaces(s, ch, caller, r.0, t);
    case _ => TookPlaces(s, ch, caller, r, t);
  }

  lemma TookPlaces(s: State, ch: nat, caller: Caller, r: (Chan, Received), t: TaskId)
    requires ch < |s.chans| && QueuesMoved(s.chans[ch], caller, r, t) && (r.1.Took? || r.1.Nothing?)
    ensures Places(AfterRecv(s, ch, caller, r), t) == Places(s, t)
  {
    hide Waiting, Queued, EnterAgain, Parked;
    WaitingUpdate(s.chans, ch, r.0, t);
  }

  // A caller that is queued leaves the running tasks.
  lemma ParkedPlaces(s: State, ch: nat, caller: Caller, c: Chan, t: TaskId)
    requires ch < |s.chans| && caller.self.Some? && caller.self.value in s.running
    requires Queued(c, t) == Queued(s.chans[ch], t) + One(caller.self.value, t)
    ensures Places(Parked(s.(chans := s.chans[ch := c]), caller), t) == Places(s, t)
  {
    hide Waiting, Queued;
    WaitingUpdate(s.chans, ch, c, t);
  }

  lemma AgainPlaces(s: State, ch: nat, caller: Caller, r: (Chan, Received), t: TaskId)
    requires ch < |s.chans| && QueuesMoved(s.chans[ch], caller, r, t) && r.1.Again?
    ensures Places(AfterRecv(s, ch, caller, r), t) == Places(s, t)
  {
    hide Waiting, Queued, EnterAgain, Parked;
    WaitingUpdate(s.chans, ch, r.0, t);
    EnterPlaces(s.(chans := s.chans[ch := r.0], held := s.held + multiset{r.1.sender}), ch, caller, t);
  }

  lemma TakePlaces(s: State, ch: nat, t: TaskId)
    requires Enabled(s, CloseTake(ch))
    ensures Places(Next(s, CloseTake(ch)), t) == Places(s, t)
  {
    hide Waiting;
    var c := s.chans[ch];
    WaitingUpdate(s.chans, ch, Next(s, CloseTake(ch)).chans[ch], t);
    TakeFirst(if c.receivers != [] then c.receivers else c.senders, t);
  }

  // Only starting and finishing a task change how many places it is in.
  ghost function PlacesAfter(s: State, a: Action, t: TaskId): int {
    match a
    case Go => Places(s, t) + One(s.created, t)
    case Finish(u) => Places(s, t) - One(u, t)
    case _ => Places(s, t)
  }

  lemma NextPlaces(s: State, a: Action, t: TaskId)
    requires AgainInv(s) && Enabled(s, a)
    ensures Places(Next(s, a), t) == PlacesAfter(s, a, t)
  {
    hide Next, Enabled, Places, AgainInv;
    match a
    case MakeChan(k) => NewPlaces(s, k, t);
    case DoSend(ch, v, caller) => DoSendPlaces(s, ch, v, caller, t);
    case DoRecv(ch, caller) => DoRecvPlaces(s, ch, caller, t);
    case DoRecvRest(ch, caller) => DoRecvRestPlaces(s, ch, caller, t);
    case Close(ch) => ClosePlaces(s, ch, t);
    case CloseTake(ch) => TakePlaces(s, ch, t);
    case CloseEnd(ch) => CloseEndPlaces(s, ch, t);
    case Go => GoPlaces(s, t);
    case Dispatch => DispatchPlaces(s, t);
    case Finish(u) => FinishPlaces(s, u, t);
    case Wake(u) => WakePlaces(s, u, t);
  }

  lemma GoPlaces(s: State, t: TaskId)
    ensures Places(Next(s, Go), t) == Places(s, t) + One(s.created, t)
  {
    hide Waiting;
  }

  lemma DispatchPlaces(s: State, t: TaskId)
    requires Enabled(s, Dispatch)
    ensures Places(Next(s, Dispatch), t) == Places(s, t)
  {
    hide Waiting;
    TakeFirst(s.ready, t);
  }

  lemma FinishPlaces(s: State, u: TaskId, t: TaskId)
    requires Enabled(s, Finish(u))
    ensures Places(Next(s, Finish(u)), t) == Places(s, t) - One(u, t)
  {
    hide Waiting;
  }

  lemma WakePlaces(s: State, u: TaskId, t: TaskId)
    requires Enabled(s, Wake(u))
    ensures Places(Next(s, Wake(u)), t) == Places(s, t)
  {
    hide Waiting;
  }

  lemma CloseEndPlaces(s: State, ch: nat, t: TaskId)
    requires Enabled(s, CloseEnd(ch))
    ensures Places(Next(s, CloseEnd(ch)), t) == Places(s, t)
  {
    hide Waiting;
  }

  lemma DoSendPlaces(s: State, ch: nat, v: Int64, caller: Caller, t: TaskId)
    requires Enabled(s, DoSend(ch, v, caller))
    ensures Places(Next(s, DoSend(ch, v, caller)), t) == Places(s, t)
  {
    hide RingValid, AfterSend, Waiting, Places;
    SendPlaces(s, ch, v, caller, t);
  }

  lemma DoRecvPlaces(s: State, ch: nat, caller: Caller, t: TaskId)
    requires Enabled(s, DoRecv(ch, caller))
    ensures Places(Next(s, DoRecv(ch, caller)), t) == Places(s, t)
  {
    hide RingValid, Recv, AfterRecv, Waiting;
    RecvQueues(s.chans[ch], caller, t);
    RecvPlaces(s, ch, caller, Recv(s.chans[ch], caller), t);
  }

  lemma DoRecvRestPlaces(s: State, ch: nat, caller: Caller, t: TaskId)
    requires AgainInv(s) && Enabled(s, DoRecvRest(ch, caller))
    ensures Places(Next(s, DoRecvRest(ch, caller)), t) == Places(s, t)
  {
    hide RingValid, RecvRest, AfterRecv, Waiting;
    RestQueues(s.chans[ch], caller, t);
    RecvPlaces(LeaveAgain(s, ch, caller), ch, caller, RecvRest(s.chans[ch], caller), t);
  }

  lemma ClosePlaces(s: State, ch: nat, t: TaskId)
    requires Enabled(s, Close(ch))
    ensures Places(Next(s, Close(ch)), t) == Places(s, t)
  {
    hide Waiting;
    WaitingUpdate(s.chans, ch, s.chans[ch].(closed := true), t);
  }

  lemma NewPlaces(s: State, capacity: int, t: TaskId)
    ensures Places(Next(s, MakeChan(capacity)), t) == Places(s, t)
  {
    assert Next(s, MakeChan(capacity)).chans[..|s.chans|] == s.chans;
  }

  lemma OnePlaceKept(s: State, a: Action)
    requires OnePlace(s) && AgainInv(s) && Enabled(s, a)
    ensures OnePlace(Next(s, a))
  {
    hide Places, AfterSend, AfterRecv, Next;
    forall t | t in Next(s, a).finished
      ensures t < Next(s, a).created
    {
      NextLive(s, a, t);
      if a.Finish? {
        RunningLive(s, a.t);
      }
    }
    forall t: TaskId
      ensures Places(Next(s, a), t) == if Live(Next(s, a), t) then 1 else 0
    {
      NextPlaces(s, a, t);
      NextLive(s, a, t);
      if a.Finish? {
        RunningLive(s, a.t);
      }
      assert Places(s, t) == if Live(s, t) then 1 else 0;
    }
  }

  lemma RunningLive(s: State, t: TaskId)
    requires OnePlace(s) && t in s.running
    ensures Live(s, t)
  {
    assert Places(s, t) >= 1;
  }

  lemma NextLive(s: State, a: Action, t: TaskId)
    requires Enabled(s, a)
    ensures Live(Next(s, a), t) <==> (Live(s, t) && a != Finish(t)) || (a.Go? && t == s.created && t !in s.finished)
    ensures t in Next(s, a).finished <==> t in s.finished || a == Finish(t)
    ensures s.created <= Next(s, a).created
  {
    hide Send, Recv, RecvRest, AfterSend, AfterRecv;
  }

  // ---- what holds of each channel ----

  // What an operation keeps of its channel; `new` receivers may only be the caller.
  ghost predicate ChanKept(c: Chan, d: Chan, caller: Option<TaskId>) {
    && RingValid(d) && d.closed == c.closed
    && ((c.receivers != [] ==> c.count == 0) ==> (d.receivers != [] ==> d.count == 0))
    && (c.closed && c.senders == [] ==> d.senders == [])
    && (forall t :: t in d.receivers ==> t in c.receivers || caller == Some(t))
  }

  lemma SendKept(c: Chan, v: Int64, caller: Caller)
    requires RingValid(c)
    ensures var (d, x) := Send(c, v, caller);
            ChanKept(c, d, None) && (x.Handed? ==> c.receivers != [] && x.receiver == c.receivers[0] && d.receivers == c.receivers[1..])
  {
    if !c.closed && c.receivers == [] && c.count < c.capacity {
      PushContents(c, v);
    }
  }

  lemma RestKept(c: Chan, caller: Caller)
    requires RingValid(c)
    ensures ChanKept(c, RecvRest(c, caller).0, if RecvRest(c, caller).1.RecvBlocked? then caller.self else None)
  {
    if c.count > 0 {
      PopContents(c);
    }
  }

  lemma RecvKept(c: Chan, caller: Caller)
    requires RingValid(c)
    ensures ChanKept(c, Recv(c, caller).0, if Recv(c, caller).1.RecvBlocked? then caller.self else None)
  {
    if c.senders != [] {
      if c.count > 0 {
        PopContents(c.(senders := c.senders[1..]));
      }
    } else {
      RestKept(c, caller);
    }
  }

  lemma ReceiverQueued(c: Chan, t: TaskId)
    requires t in c.receivers
    ensures Queued(c, t) > 0
  {
  }

  lemma SendChans(s: State, ch: nat, v: Int64, caller: Caller)
    requires OnePlace(s) && ChansInv(s) && ch < |s.chans| && ch !in s.closing && RingValid(s.chans[ch])
    ensures ChansInv(AfterSend(s, ch, v, caller))
  {
    hide Send, OnePlace, RingValid, Places;
    var c, r := s.chans[ch], AfterSend(s, ch, v, caller);
    SendKept(c, v, caller);
    assert ChanInv(s, ch);
    forall i: nat | i < |r.chans|
      ensures ChanInv(r, i)
    {
      assert ChanInv(s, i);
      if Send(c, v, caller).1.Handed? {
        HandedElsewhere(s, ch, i, c.receivers[0], r.chans[i]);
      }
    }
  }

  // A receiver that is handed a value waits nowhere any longer.
  lemma HandedElsewhere(s: State, ch: nat, i: nat, t: TaskId, d: Chan)
    requires OnePlace(s) && ch < |s.chans| && i < |s.chans| && s.chans[ch].receivers != [] && t == s.chans[ch].receivers[0]
    requires if i == ch then d.receivers == s.chans[ch].receivers[1..] else d == s.chans[i]
    ensures t !in d.receivers
  {
    ReceiverQueued(s.chans[ch], t);
    WaitsOnce(s, ch, i, t);
    TakeFirst(s.chans[ch].receivers, t);
    if t in d.receivers {
      ReceiverQueued(d, t);
    }
  }

  lemma RecvChans(s: State, ch: nat, caller: Caller, r: (Chan, Received))
    requires ChansInv(s) && ch < |s.chans| && ch !in s.closing
    requires ChanKept(s.chans[ch], r.0, if r.1.RecvBlocked? then caller.self else None)
    requires caller.self.Some? ==> caller.self.value !in s.slots
    ensures ChansInv(AfterRecv(s, ch, caller, r))
  {
    hide RingValid, AfterRecv;
    assert ChanInv(s, ch);
    var s1 := AfterRecv(s, ch, caller, r);
    forall i: nat | i < |s1.chans|
      ensures ChanInv(s1, i)
    {
      assert ChanInv(s, i);
    }
  }

  lemma SmallerChans(s: State, r: State)
    requires ChansInv(s) && |r.chans| == |s.chans| && (forall i :: i in r.closing ==> i < |s.chans|) && (forall t :: t in r.slots ==> t in s.slots)
    requires forall i: nat {:trigger r.chans[i]} :: i < |s.chans| ==> ChanShrinks(s, r, i)
    ensures ChansInv(r)
  {
    forall i: nat | i < |r.chans|
      ensures ChanInv(r, i)
    {
      assert ChanInv(s, i) && ChanShrinks(s, r, i);
      assert r.chans[i].receivers != [] ==> r.chans[i].receivers[0] in s.chans[i].receivers;
    }
  }

  // The channel lost some waiting tasks or was closed, or its close came to an end.
  ghost predicate ChanShrinks(s: State, r: State, i: nat)
    requires i < |s.chans| && i < |r.chans|
  {
    var c, d := s.chans[i], r.chans[i];
    && d == c.(closed := d.closed, senders := d.senders, receivers := d.receivers)
    && (forall t :: t in d.receivers ==> t in c.receivers)
    && (i in s.closing ==> d.closed) && (i in r.closing ==> d.closed) && (c.closed ==> d.closed)
    && (d.closed && i !in r.closing ==> d.senders == [] || (c.closed && i !in s.closing && d.senders == c.senders))
  }

  lemma CloseChans(s: State, a: Action)
    requires ChansInv(s) && Enabled(s, a) && (a.Close? || a.CloseTake? || a.CloseEnd?)
    ensures ChansInv(Next(s, a))
  {
    hide RingValid;
    var r := Next(s, a);
    forall i: nat | i < |s.chans|
      ensures ChanShrinks(s, r, i)
    {
      assert ChanInv(s, i);
    }
    SmallerChans(s, r);
  }

  lemma SameChans(s: State, r: State)
    requires ChansInv(s) && r.chans == s.chans && r.closing == s.closing && (forall t :: t in r.slots ==> t in s.slots)
    ensures ChansInv(r)
  {
    forall i: nat | i < |r.chans|
      ensures ChanInv(r, i)
    {
      assert ChanInv(s, i);
    }
  }

  lemma ChansKept(s: State, a: Action)
    requires OnePlace(s) && ChansInv(s) && AgainInv(s) && Enabled(s, a)
    ensures ChansInv(Next(s, a))
  {
    hide Send, Recv, RecvRest, AfterSend, AfterRecv, RingValid, OnePlace, ChansInv;
    match a
    case MakeChan(k) => MakeChans(s, k);
    case DoSend(ch, v, caller) => SendChans(s, ch, v, caller);
    case DoRecv(ch, caller) =>
      if caller.self.Some? && caller.self.value in s.slots {
        SameChans(s, Next(s, a));
      } else {
        RecvKept(s.chans[ch], caller);
        RecvChans(s, ch, caller, Recv(s.chans[ch], caller));
      }
    case DoRecvRest(ch, caller) =>
      RestKept(s.chans[ch], caller);
      SameChans(s, LeaveAgain(s, ch, caller));
      RecvChans(LeaveAgain(s, ch, caller), ch, caller, RecvRest(s.chans[ch], caller));
    case Close(_) => CloseChans(s, a);
    case CloseTake(_) => CloseChans(s, a);
    case CloseEnd(_) => CloseChans(s, a);
    case _ => SameChans(s, Next(s, a));
  }

  lemma MakeChans(s: State, capacity: int)
    requires ChansInv(s)
    ensures ChansInv(Next(s, MakeChan(capacity)))
  {
    var r := Next(s, MakeChan(capacity));
    forall i: nat | i < |r.chans|
      ensures ChanInv(r, i)
    {
      if i < |s.chans| {
        assert ChanInv(s, i);
      }
    }
  }

  // ---- what leaves a channel, and when ----

  // A send leaves the values in the channel as they are, or adds one.
  lemma SendAdds(c: Chan, v: Int64, caller: Caller)
    requires RingValid(c)
    ensures var (d, x) := Send(c, v, caller);
            RingValid(d) && Contents(d) == Contents(c) + (if x.Buffered? then [v] else [])
  {
    if !c.closed && c.receivers == [] && c.count < c.capacity {
      PushContents(c, v);
    }
  }

  lemma SendLogs(s: State, ch: nat, v: Int64, caller: Caller)
    requires ch < |s.chans| && RingValid(s.chans[ch])
    ensures var r, x := AfterSend(s, ch, v, caller), Send(s.chans[ch], v, caller).1;
            && r.accepted == (if x.Handed? || x.Buffered? then Log(s.accepted, ch, v) else s.accepted)
            && r.left == (if x.Handed? then Log(s.left, ch, v) else s.left)
            && r.slots == (if x.Handed? then s.slots[x.receiver := v] else s.slots) && r.returned == s.returned
  {
    hide Send, RingValid;
  }

  // A value is handed over only past an empty ring.
  lemma HandedEmpty(s: State, ch: nat, v: Int64, caller: Caller)
    requires ChansInv(s) && ch < |s.chans| && RingValid(s.chans[ch])
    ensures Send(s.chans[ch], v, caller).1.Handed? ==> Contents(s.chans[ch]) == []
  {
    assert ChanInv(s, ch);
  }

  lemma SendFifo(s: State, ch: nat, v: Int64, caller: Caller)
    requires Fifo(s) && ChansInv(s) && ch < |s.chans| && RingValid(s.chans[ch])
    ensures Fifo(AfterSend(s, ch, v, caller))
  {
    hide Send, AfterSend, ChansInv, RingValid, Contents;
    SendAdds(s.chans[ch], v, caller);
    SendLogs(s, ch, v, caller);
    HandedEmpty(s, ch, v, caller);
    var r := AfterSend(s, ch, v, caller);
    forall i: nat | i < |r.chans|
      ensures RingValid(r.chans[i]) && r.accepted[i] == r.left[i] + Contents(r.chans[i])
    {
      assert RingValid(s.chans[i]) && s.accepted[i] == s.left[i] + Contents(s.chans[i]);
    }
  }

  // A receive takes the oldest value or none.
  ghost predicate TakesOldest(c: Chan, r: (Chan, Received)) {
    RingValid(c) && RingValid(r.0) && Contents(c) == (if r.1.Took? then [r.1.value] else []) + Contents(r.0)
  }

  lemma RestTakes(c: Chan, caller: Caller)
    requires RingValid(c)
    ensures TakesOldest(c, RecvRest(c, caller))
  {
    if c.count > 0 {
      PopContents(c);
    }
  }

  lemma RecvTakes(c: Chan, caller: Caller)
    requires RingValid(c)
    ensures TakesOldest(c, Recv(c, caller))
  {
    if c.senders != [] {
      var d := c.(senders := c.senders[1..]);
      if c.count > 0 {
        PopContents(d);
      }
      assert Contents(c) == Contents(d);
    } else {
      RestTakes(c, caller);
    }
  }

  lemma RecvLogs(s: State, ch: nat, caller: Caller, r: (Chan, Received))
    requires ch < |s.chans|
    ensures var d := AfterRecv(s, ch, caller, r);
            d.accepted == s.accepted && d.left == if r.1.Took? then Log(s.left, ch, r.1.value) else s.left
  {
  }

  lemma RecvFifo(s: State, ch: nat, caller: Caller, r: (Chan, Received))
    requires Fifo(s) && ch < |s.chans| && TakesOldest(s.chans[ch], r)
    ensures Fifo(AfterRecv(s, ch, caller, r))
  {
    hide RingValid, Contents, AfterRecv;
    RecvLogs(s, ch, caller, r);
    var d := AfterRecv(s, ch, caller, r);
    forall i: nat | i < |d.chans|
      ensures RingValid(d.chans[i]) && d.accepted[i] == d.left[i] + Contents(d.chans[i])
    {
      assert RingValid(s.chans[i]) && s.accepted[i] == s.left[i] + Contents(s.chans[i]);
    }
  }

  lemma SameFifo(s: State, r: State)
    requires Fifo(s) && |r.chans| == |s.chans| && r.accepted == s.accepted && r.left == s.left
    requires forall i: nat {:trigger r.chans[i]} :: i < |s.chans| ==> SameRing(s.chans[i], r.chans[i])
    ensures Fifo(r)
  {
    forall i: nat | i < |r.chans|
      ensures RingValid(r.chans[i]) && r.accepted[i] == r.left[i] + Contents(r.chans[i])
    {
      assert RingValid(s.chans[i]) && SameRing(s.chans[i], r.chans[i]);
      assert Contents(s.chans[i]) == Contents(r.chans[i]);
    }
  }

  ghost predicate SameRing(c: Chan, d: Chan) {
    d == c.(closed := d.closed, senders := d.senders, receivers := d.receivers)
  }

  lemma FifoKept(s: State, a: Action)
    requires Fifo(s) && ChansInv(s) && Enabled(s, a)
    ensures Fifo(Next(s, a))
  {
    hide Next, Enabled, ChansInv, Fifo;
    match a
    case MakeChan(k) => MakeFifo(s, k);
    case DoSend(ch, v, caller) => DoSendFifo(s, ch, v, caller);
    case DoRecv(ch, caller) => DoRecvFifo(s, ch, caller);
    case DoRecvRest(ch, caller) => DoRecvRestFifo(s, ch, caller);
    case Close(ch) => CloseFifo(s, ch);
    case CloseTake(ch) => CloseTakeFifo(s, ch);
    case _ => TaskFifo(s, a);
  }

  lemma TaskFifo(s: State, a: Action)
    requires Fifo(s) && Enabled(s, a) && (a.Go? || a.Dispatch? || a.Finish? || a.Wake? || a.CloseEnd?)
    ensures Fifo(Next(s, a))
  {
    hide RingValid, Contents, AfterSend, AfterRecv, LeaveAgain, Recv, RecvRest;
  }

  lemma CloseFifo(s: State, ch: nat)
    requires Fifo(s) && Enabled(s, Close(ch))
    ensures Fifo(Next(s, Close(ch)))
  {
    hide RingValid, Contents, Fifo;
    SameFifo(s, Next(s, Close(ch)));
  }

  lemma CloseTakeFifo(s: State, ch: nat)
    requires Fifo(s) && Enabled(s, CloseTake(ch))
    ensures Fifo(Next(s, CloseTake(ch)))
  {
    hide RingValid, Contents, Fifo;
    SameFifo(s, Next(s, CloseTake(ch)));
  }

  lemma DoSendFifo(s: State, ch: nat, v: Int64, caller: Caller)
    requires Fifo(s) && ChansInv(s) && Enabled(s, DoSend(ch, v, caller))
    ensures Fifo(Next(s, DoSend(ch, v, caller)))
  {
    hide RingValid, AfterSend, ChansInv, Fifo;
    SendFifo(s, ch, v, caller);
  }

  lemma DoRecvFifo(s: State, ch: nat, caller: Caller)
    requires Fifo(s) && Enabled(s, DoRecv(ch, caller))
    ensures Fifo(Next(s, DoRecv(ch, caller)))
  {
    hide RingValid, Recv, AfterRecv, Contents, Fifo;
    if caller.self.Some? && caller.self.value in s.slots {
      SameFifo(s, Next(s, DoRecv(ch, caller)));
    } else {
      RecvTakes(s.chans[ch], caller);
      RecvFifo(s, ch, caller, Recv(s.chans[ch], caller));
    }
  }

  lemma DoRecvRestFifo(s: State, ch: nat, caller: Caller)
    requires Fifo(s) && Enabled(s, DoRecvRest(ch, caller))
    ensures Fifo(Next(s, DoRecvRest(ch, caller)))
  {
    hide RingValid, RecvRest, AfterRecv, Contents, Fifo;
    RestTakes(s.chans[ch], caller);
    SameFifo(s, LeaveAgain(s, ch, caller));
    RecvFifo(LeaveAgain(s, ch, caller), ch, caller, RecvRest(s.chans[ch], caller));
  }

  lemma MakeFifo(s: State, capacity: int)
    requires Fifo(s)
    ensures Fifo(Next(s, MakeChan(capacity)))
  {
    var r := Next(s, MakeChan(capacity));
    forall i: nat | i < |r.chans|
      ensures RingValid(r.chans[i]) && r.accepted[i] == r.left[i] + Contents(r.chans[i])
    {
      if i < |s.chans| {
        assert RingValid(s.chans[i]) && s.accepted[i] == s.left[i] + Contents(s.chans[i]);
      }
    }
  }

  // ---- receives that look once more ----

  lemma AgainKept(s: State, a: Action)
    requires OnePlace(s) && ChansInv(s) && AgainInv(s) && Enabled(s, a)
    ensures AgainInv(Next(s, a))
  {
    hide OnePlace, ChansInv, RingValid, Recv, RecvRest, Send;
    match a
    case DoSend(ch, v, caller) => SendAgain(s, ch, v, caller);
    case DoRecv(ch, caller) => RecvAgain(s, ch, caller);
    case DoRecvRest(ch, caller) => RestAgain(s, ch, caller);
    case _ =>
  }

  lemma SendAgain(s: State, ch: nat, v: Int64, caller: Caller)
    requires OnePlace(s) && AgainInv(s) && Enabled(s, DoSend(ch, v, caller))
    ensures AgainInv(AfterSend(s, ch, v, caller))
  {
    hide OnePlace, RingValid;
    var c := s.chans[ch];
    SendKept(c, v, caller);
    if Send(c, v, caller).1.Handed? {
      ReceiverQueued(c, c.receivers[0]);
      WaitsOnce(s, ch, ch, c.receivers[0]);
    }
  }

  lemma RecvAgain(s: State, ch: nat, caller: Caller)
    requires AgainInv(s) && Enabled(s, DoRecv(ch, caller))
    ensures AgainInv(Next(s, DoRecv(ch, caller)))
  {
    hide RingValid, Recv;
  }

  // The rest of a receive does not look once more.
  lemma RestDecides(c: Chan, caller: Caller)
    requires RingValid(c)
    ensures !RecvRest(c, caller).1.Again?
  {
  }

  lemma RestAgain(s: State, ch: nat, caller: Caller)
    requires AgainInv(s) && Enabled(s, DoRecvRest(ch, caller))
    ensures AgainInv(Next(s, DoRecvRest(ch, caller)))
  {
    hide RingValid, RecvRest, AfterRecv, AgainInv;
    RestDecides(s.chans[ch], caller);
    LeftAgain(s, ch, caller);
    DecidedAgain(LeaveAgain(s, ch, caller), ch, caller, RecvRest(s.chans[ch], caller));
  }

  lemma LeftAgain(s: State, ch: nat, caller: Caller)
    requires AgainInv(s)
    ensures AgainInv(LeaveAgain(s, ch, caller)) && (caller.self.Some? ==> caller.self.value !in LeaveAgain(s, ch, caller).again)
  {
  }

  lemma DecidedAgain(s: State, ch: nat, caller: Caller, r: (Chan, Received))
    requires AgainInv(s) && ch < |s.chans| && !r.1.Again? && (caller.self.Some? ==> caller.self.value !in s.again)
    ensures AgainInv(AfterRecv(s, ch, caller, r))
  {
    hide EnterAgain, Parked;
    ParkedAgain(s.(chans := s.chans[ch := r.0]), caller);
  }

  lemma ParkedAgain(s: State, caller: Caller)
    requires AgainInv(s) && (caller.self.Some? ==> caller.self.value !in s.again)
    ensures AgainInv(Parked(s, caller))
  {
  }

  // ---- conservation ----

  lemma {:induction false} SumLog(logs: seq<seq<Int64>>, ch: nat, v: Int64, x: Int64)
    requires ch < |logs|
    ensures Sum(Log(logs, ch, v))[x] == Sum(logs)[x] + if x == v then 1 else 0
    decreases |logs|
  {
    var n, after := |logs| - 1, Log(logs, ch, v);
    if ch < n {
      SumLog(logs[..n], ch, v, x);
      assert after[..n] == Log(logs[..n], ch, v);
    } else {
      assert after[..n] == logs[..n];
    }
  }

  lemma {:induction false} SlotAdded(slots: map<TaskId, Int64>, t: TaskId, v: Int64, n: nat, x: Int64)
    requires t !in slots
    ensures Undelivered(slots[t := v], n)[x] == Undelivered(slots, n)[x] + if x == v && t < n then 1 else 0
    decreases n
  {
    if n > 0 {
      SlotAdded(slots, t, v, n - 1, x);
    }
  }

  lemma SlotTaken(slots: map<TaskId, Int64>, t: TaskId, n: nat, x: Int64)
    requires t in slots
    ensures Undelivered(slots, n)[x] == Undelivered(slots - {t}, n)[x] + if x == slots[t] && t < n then 1 else 0
  {
    SlotAdded(slots - {t}, t, slots[t], n, x);
    assert (slots - {t})[t := slots[t]] == slots;
  }

  // The values that left a channel, less those returned or waiting in a task.
  ghost function Missing(s: State, x: Int64): int {
    Sum(s.left)[x] as int - s.returned[x] as int - Undelivered(s.slots, s.created)[x] as int
  }

  lemma SendConserves(s: State, ch: nat, v: Int64, caller: Caller, x: Int64)
    requires Inv(s) && Enabled(s, DoSend(ch, v, caller))
    ensures Missing(AfterSend(s, ch, v, caller), x) == Missing(s, x)
  {
    hide Send, AfterSend, Log, RingValid, OnePlace, Contents, AgainInv, Sum;
    var c := s.chans[ch];
    SendLogs(s, ch, v, caller);
    SendKept(c, v, caller);
    if Send(c, v, caller).1.Handed? {
      var r := c.receivers[0];
      ReceiverQueued(c, r);
      WaitsOnce(s, ch, ch, r);
      assert ChanInv(s, ch);
      SumLog(s.left, ch, v, x);
      SlotAdded(s.slots, r, v, s.created, x);
    }
  }

  lemma RecvConserves(s: State, ch: nat, caller: Caller, r: (Chan, Received), x: Int64)
    requires ch < |s.chans| == |s.left|
    ensures Missing(AfterRecv(s, ch, caller, r), x) == Missing(s, x)
  {
    hide Sum, Undelivered;
    if r.1.Took? {
      SumLog(s.left, ch, r.1.value, x);
    }
  }

  lemma DeliveryConserves(s: State, t: TaskId, x: Int64)
    requires t in s.slots && t < s.created
    ensures Missing(Delivered(s, t), x) == Missing(s, x)
  {
    SlotTaken(s.slots, t, s.created, x);
  }

  lemma NextConserves(s: State, a: Action, x: Int64)
    requires Inv(s) && Enabled(s, a)
    ensures Missing(Next(s, a), x) == Missing(s, x)
  {
    hide Next, Enabled, Inv, Missing;
    match a
    case DoSend(ch, v, caller) => DoSendConserves(s, ch, v, caller, x);
    case DoRecv(ch, caller) => DoRecvConserves(s, ch, caller, x);
    case DoRecvRest(ch, caller) => DoRecvRestConserves(s, ch, caller, x);
    case _ => TaskConserves(s, a, x);
  }

  lemma TaskConserves(s: State, a: Action, x: Int64)
    requires Inv(s) && Enabled(s, a) && !a.DoSend? && !a.DoRecv? && !a.DoRecvRest?
    ensures Missing(Next(s, a), x) == Missing(s, x)
  {
    hide Sum, Fifo, ChansInv, OnePlace, RingValid, AfterSend, AfterRecv, LeaveAgain, Recv, RecvRest;
    if a.MakeChan? {
      MakeSum(s.left);
    }
  }

  lemma DoSendConserves(s: State, ch: nat, v: Int64, caller: Caller, x: Int64)
    requires Inv(s) && Enabled(s, DoSend(ch, v, caller))
    ensures Missing(Next(s, DoSend(ch, v, caller)), x) == Missing(s, x)
  {
    hide Inv, Missing, AfterSend, RingValid;
    SendConserves(s, ch, v, caller, x);
  }

  lemma DoRecvConserves(s: State, ch: nat, caller: Caller, x: Int64)
    requires Inv(s) && Enabled(s, DoRecv(ch, caller))
    ensures Missing(Next(s, DoRecv(ch, caller)), x) == Missing(s, x)
  {
    hide Missing, AfterRecv, Recv, RingValid, OnePlace, ChansInv, AgainInv, Sum;
    if caller.self.Some? && caller.self.value in s.slots {
      DeliveryConserves(s, caller.self.value, x);
    } else {
      RecvConserves(s, ch, caller, Recv(s.chans[ch], caller), x);
    }
  }

  lemma DoRecvRestConserves(s: State, ch: nat, caller: Caller, x: Int64)
    requires Inv(s) && Enabled(s, DoRecvRest(ch, caller))
    ensures Missing(Next(s, DoRecvRest(ch, caller)), x) == Missing(s, x)
  {
    hide AfterRecv, RecvRest, RingValid, OnePlace, ChansInv, AgainInv, Sum;
    RecvConserves(LeaveAgain(s, ch, caller), ch, caller, RecvRest(s.chans[ch], caller), x);
  }

  lemma MakeSum(logs: seq<seq<Int64>>)
    ensures Sum(logs + [[]]) == Sum(logs)
  {
    var more: seq<seq<Int64>> := logs + [[]];
    assert more[..|logs|] == logs;
  }

  lemma SlotsCreated(s: State, a: Action)
    requires Inv(s) && Enabled(s, a)
    ensures forall t :: t in Next(s, a).slots ==> t < Next(s, a).created
  {
    hide Send, Recv, RecvRest, AfterRecv, RingValid, OnePlace, AgainInv, Sum, Fifo;
    if a.DoSend? {
      var c := s.chans[a.ch];
      SendKept(c, a.v, a.caller);
      if Send(c, a.v, a.caller).1.Handed? {
        ReceiverQueued(c, c.receivers[0]);
        WaitsOnce(s, a.ch, a.ch, c.receivers[0]);
      }
    }
  }

  lemma ConservedKept(s: State, a: Action)
    requires Inv(s) && Enabled(s, a)
    ensures Conserved(Next(s, a))
  {
    hide Next, Enabled, OnePlace, ChansInv, AgainInv, Fifo, Sum, Undelivered;
    SlotsCreated(s, a);
    var r := Next(s, a);
    forall x
      ensures Sum(r.left)[x] == (r.returned + Undelivered(r.slots, r.created))[x]
    {
      NextConserves(s, a, x);
      assert Missing(s, x) == 0;
    }
  }

  // ---- runs ----

  lemma InvInit()
    ensures Inv(INIT)
  {
  }

  lemma InvKept(s: State, a: Action)
    requires Inv(s) && Enabled(s, a)
    ensures Inv(Next(s, a))
  {
    hide Next, Enabled, OnePlace, ChansInv, AgainInv, Fifo, Conserved;
    OnePlaceKept(s, a);
    ChansKept(s, a);
    FifoKept(s, a);
    AgainKept(s, a);
    ConservedKept(s, a);
  }

  /** In every interleaving: each live task is in one place, values leave each channel in the
      order it accepted them, each is delivered once, and closed channels hold no senders. */
  lemma {:induction false} RunsSafe(actions: seq<Action>)
    requires Run(INIT, actions).Some?
    ensures Inv(Run(INIT, actions).value)
    decreases |actions|
  {
    hide Inv;
    if actions == [] {
      InvInit();
    } else {
      var n := |actions| - 1;
      RunsSafe(actions[..n]);
      InvKept(Run(INIT, actions[..n]).value, actions[n]);
    }
  }
}
