/** What each channel operation does to the whole state. */
module ChannelSteps {
  import opened Wrappers
  import opened Ast
  import opened Channels
  import opened Scheduler
  import opened SchedulerInv
  import opened SchedulerRuns

  // The channel holds these values and queues now; nothing else of it changed.
  ghost predicate Becomes(c: Chan, d: Chan, values: seq<Int64>, senders: seq<TaskId>, receivers: seq<TaskId>) {
    && RingValid(d) && Contents(d) == values && d.senders == senders && d.receivers == receivers
    && d.capacity == c.capacity && d.closed == c.closed
  }

  lemma Kept(c: Chan, senders: seq<TaskId>, receivers: seq<TaskId>)
    requires RingValid(c)
    ensures Becomes(c, c.(senders := senders, receivers := receivers), Contents(c), senders, receivers)
  {
    assert Contents(c.(senders := senders, receivers := receivers)) == Contents(c);
  }

  lemma Pushed(c: Chan, v: Int64)
    requires RingValid(c) && c.count < c.capacity
    ensures Becomes(c, Push(c, v), Contents(c) + [v], c.senders, c.receivers)
  {
    hide RingValid, Contents;
    PushContents(c, v);
  }

  lemma Popped(c: Chan, senders: seq<TaskId>)
    requires RingValid(c) && c.count > 0
    ensures Contents(c) != [] && c.buffer[c.head] == Contents(c)[0]
    ensures Becomes(c, Pop(c.(senders := senders)), Contents(c)[1..], senders, c.receivers)
  {
    hide RingValid, Contents;
    var d := c.(senders := senders);
    Kept(c, senders, c.receivers);
    PopContents(c);
    PopContents(d);
    assert Contents(c)[1..] == Contents(Pop(d));
  }

  // ---- what may happen ----

  // The caller is no task, or a running one that is not inside a receive.
  predicate Free(s: State, caller: Caller) {
    caller.self.Some? ==> caller.self.value in s.running && caller.self.value !in s.again
  }

  /** In every reachable state: when each step is possible. Nothing but a close in progress keeps a
      channel from being used, whatever its buffer and its queues hold. */
  lemma PossibleIff(s: State, a: Action)
    requires Reachable(s)
    ensures Enabled(s, a) <==> match a
                               case MakeChan(_) => true
                               case Go => true
                               case Dispatch => s.ready != []
                               case Finish(t) => t in s.running && t !in s.again
                               case DoSend(ch, _, caller) => ch < |s.chans| && ch !in s.closing && Free(s, caller)
                               case DoRecv(ch, caller) => ch < |s.chans| && ch !in s.closing && Free(s, caller)
                               case DoRecvRest(ch, caller) =>
                                 && ch < |s.chans| && ch !in s.closing
                                 && if caller.self.Some? then caller.self.value in s.again && s.again[caller.self.value] == Pending(ch, caller.cont)
                                    else ch in s.againOthers
                               case Wake(t) => t in s.held
                               case Close(ch) => ch < |s.chans| && ch !in s.closing
                               case CloseTake(ch) => ch < |s.chans| && ch in s.closing && (s.chans[ch].receivers != [] || s.chans[ch].senders != [])
                               case CloseEnd(ch) => ch < |s.chans| && ch in s.closing && s.chans[ch].receivers == [] && s.chans[ch].senders == []
  {
    hide Reachable, RingValid;
    if (a.DoSend? || a.DoRecv? || a.DoRecvRest?) && a.ch < |s.chans| {
      RingsValid(s, a.ch);
    }
  }

  lemma RingsValid(s: State, ch: nat)
    requires Reachable(s) && ch < |s.chans|
    ensures RingValid(s.chans[ch])
  {
    hide Reachable, RingValid;
    ReachableInv(s);
    assert ChanInv(s, ch);
  }

  // ---- sending ----

  /** Every case of a send: it changes nothing else than what the case says. */
  lemma SendSteps(s: State, ch: nat, v: Int64, caller: Caller)
    requires Enabled(s, DoSend(ch, v, caller)) && ch < |s.accepted| && ch < |s.left|
    ensures var c, n := s.chans[ch], Next(s, DoSend(ch, v, caller));
            var d := n.chans[ch];
            && (c.closed ==> n == s)
            && (!c.closed && c.receivers != [] ==>
                  && Becomes(c, d, Contents(c), c.senders, c.receivers[1..])
                  && n == s.(chans := s.chans[ch := d], accepted := s.accepted[ch := s.accepted[ch] + [v]], left := s.left[ch := s.left[ch] + [v]],
                             slots := s.slots[c.receivers[0] := v], held := s.held + multiset{c.receivers[0]}))
            && (!c.closed && c.receivers == [] && |Contents(c)| < c.capacity ==>
                  && Becomes(c, d, Contents(c) + [v], c.senders, [])
                  && n == s.(chans := s.chans[ch := d], accepted := s.accepted[ch := s.accepted[ch] + [v]]))
            && (!c.closed && c.receivers == [] && |Contents(c)| >= c.capacity && caller.cont && caller.self.Some? ==>
                  && Becomes(c, d, Contents(c), c.senders + [caller.self.value], [])
                  && n == s.(chans := s.chans[ch := d], running := s.running - multiset{caller.self.value}))
            && (!c.closed && c.receivers == [] && |Contents(c)| >= c.capacity && !(caller.cont && caller.self.Some?) ==> n == s)
  {
    hide RingValid, Contents, Push;
    var c := s.chans[ch];
    assert s.chans[ch := c] == s.chans;
    assert c.receivers != [] ==> c.(receivers := c.receivers[1..]) == c.(senders := c.senders, receivers := c.receivers[1..]);
    if c.closed {
    } else if c.receivers != [] {
      Kept(c, c.senders, c.receivers[1..]);
    } else if c.count < c.capacity {
      Pushed(c, v);
    } else if caller.cont && caller.self.Some? {
      Kept(c, c.senders + [caller.self.value], []);
      assert c.(senders := c.senders + [caller.self.value]) == c.(senders := c.senders + [caller.self.value], receivers := []);
    }
  }

  // ---- receiving ----

  // The caller is a task that was handed a value and has not received it.
  predicate HoldsValue(s: State, caller: Caller) {
    caller.self.Some? && caller.self.value in s.slots
  }

  lemma HeldStep(s: State, ch: nat, caller: Caller)
    requires Enabled(s, DoRecv(ch, caller)) && HoldsValue(s, caller)
    ensures Next(s, DoRecv(ch, caller)) ==
            s.(returned := s.returned + multiset{s.slots[caller.self.value]}, slots := s.slots - {caller.self.value})
  {
  }

  /** A receive on a channel where senders wait takes the first of them out of the queue and holds
      it to be made ready, whether or not a value is buffered. With a value it returns the oldest
      one; without one it looks once more later. */
  lemma RecvWakes(s: State, ch: nat, caller: Caller)
    requires Enabled(s, DoRecv(ch, caller)) && ch < |s.left| && !HoldsValue(s, caller) && s.chans[ch].senders != []
    ensures var c, n := s.chans[ch], Next(s, DoRecv(ch, caller));
            var d, held := n.chans[ch], s.held + multiset{c.senders[0]};
            && (Contents(c) != [] ==>
                  && Becomes(c, d, Contents(c)[1..], c.senders[1..], c.receivers)
                  && n == s.(chans := s.chans[ch := d], left := s.left[ch := s.left[ch] + [Contents(c)[0]]],
                             returned := s.returned + multiset{Contents(c)[0]}, held := held))
            && (Contents(c) == [] ==>
                  && Becomes(c, d, [], c.senders[1..], c.receivers)
                  && n == if caller.self.Some? then
                            s.(chans := s.chans[ch := d], held := held, again := s.again[caller.self.value := Pending(ch, caller.cont)])
                          else s.(chans := s.chans[ch := d], held := held, againOthers := s.againOthers + multiset{ch}))
  {
    hide RingValid, Contents, Pop;
    var c := s.chans[ch];
    if c.count > 0 {
      Popped(c, c.senders[1..]);
    } else {
      Kept(c, c.senders[1..], c.receivers);
      assert c.(senders := c.senders[1..]) == c.(senders := c.senders[1..], receivers := c.receivers);
    }
  }

  // What a look at a channel does that takes no sender: the oldest value, or a wait, or nothing.
  ghost predicate Looked(s: State, ch: nat, caller: Caller, n: State)
    requires ch < |s.chans| == |n.chans| && ch < |s.left| && RingValid(s.chans[ch])
  {
    var c, d := s.chans[ch], n.chans[ch];
    && (Contents(c) != [] ==>
          && Becomes(c, d, Contents(c)[1..], c.senders, c.receivers)
          && n == s.(chans := s.chans[ch := d], left := s.left[ch := s.left[ch] + [Contents(c)[0]]],
                     returned := s.returned + multiset{Contents(c)[0]}))
    && (Contents(c) == [] && caller.cont && caller.self.Some? ==>
          && Becomes(c, d, [], c.senders, c.receivers + [caller.self.value])
          && n == s.(chans := s.chans[ch := d], running := s.running - multiset{caller.self.value}))
    && (Contents(c) == [] && !(caller.cont && caller.self.Some?) ==> n == s)
  }

  lemma RestLooked(s: State, ch: nat, caller: Caller)
    requires ch < |s.chans| && ch < |s.left| && RingValid(s.chans[ch])
    ensures Looked(s, ch, caller, AfterRecv(s, ch, caller, RecvRest(s.chans[ch], caller)))
  {
    hide RingValid, Contents, Pop;
    var c := s.chans[ch];
    assert s.chans[ch := c] == s.chans;
    if c.count > 0 {
      Popped(c, c.senders);
      assert c.(senders := c.senders) == c;
    } else if caller.cont && caller.self.Some? {
      Kept(c, c.senders, c.receivers + [caller.self.value]);
      assert c.(receivers := c.receivers + [caller.self.value]) == c.(senders := c.senders, receivers := c.receivers + [caller.self.value]);
    }
  }

  lemma RecvLooks(s: State, ch: nat, caller: Caller)
    requires Enabled(s, DoRecv(ch, caller)) && ch < |s.left| && !HoldsValue(s, caller) && s.chans[ch].senders == []
    ensures Looked(s, ch, caller, Next(s, DoRecv(ch, caller)))
  {
    hide Looked, RingValid, RecvRest, AfterRecv;
    RestLooked(s, ch, caller);
  }

  /** The second look, by a caller that is inside a receive no longer. */
  lemma RestLooks(s: State, ch: nat, caller: Caller)
    requires Enabled(s, DoRecvRest(ch, caller)) && ch < |s.left|
    ensures var t := if caller.self.Some? then s.(again := s.again - {caller.self.value})
                     else s.(againOthers := s.againOthers - multiset{ch});
            Looked(t, ch, caller, Next(s, DoRecvRest(ch, caller)))
  {
    hide Looked, RingValid, RecvRest, AfterRecv;
    RestLooked(LeaveAgain(s, ch, caller), ch, caller);
  }

  // ---- who is woken ----

  // An action that takes the first waiting sender of the channel.
  predicate TakesSender(s: State, a: Action, ch: nat) {
    || (a.DoRecv? && a.ch == ch && !HoldsValue(s, a.caller))
    || (a.CloseTake? && a.ch == ch && ch < |s.chans| && s.chans[ch].receivers == [])
  }

  // An action that takes the first waiting receiver of the channel.
  predicate TakesReceiver(s: State, a: Action, ch: nat) {
    || (a.DoSend? && a.ch == ch && ch < |s.chans| && !s.chans[ch].closed)
    || (a.CloseTake? && a.ch == ch)
  }

  /** The wait queue of senders: its first one goes exactly at a receive that finds no value for
      its caller, and at a close once no receiver waits; that one is held to be made ready. A new
      one comes to its end only by a send. */
  lemma SendersStep(s: State, a: Action, ch: nat)
    requires Reachable(s) && Enabled(s, a) && ch < |s.chans|
    ensures var q, n := s.chans[ch].senders, Next(s, a);
            && ch < |n.chans|
            && (TakesSender(s, a, ch) && q != [] ==> n.chans[ch].senders == q[1..] && n.held == s.held + multiset{q[0]})
            && (!(TakesSender(s, a, ch) && q != []) ==> q <= n.chans[ch].senders)
            && (n.chans[ch].senders != q && !TakesSender(s, a, ch) ==>
                  a.DoSend? && a.ch == ch && a.caller.self.Some? && n.chans[ch].senders == q + [a.caller.self.value])
  {
    hide Reachable, Becomes, Looked, Contents, RingValid;
    Logged(s);
    match a
    case DoSend(c, v, caller) => SendSenders(s, c, v, caller, ch);
    case DoRecv(c, caller) => RecvSenders(s, c, caller, ch);
    case DoRecvRest(c, caller) => RestSenders(s, c, caller, ch);
    case _ => OtherSenders(s, a, ch);
  }

  lemma Logged(s: State)
    requires Reachable(s)
    ensures |s.accepted| == |s.left| == |s.chans|
  {
    hide Reachable;
    ReachableInv(s);
  }

  lemma OtherSenders(s: State, a: Action, ch: nat)
    requires Enabled(s, a) && ch < |s.chans| && !a.DoSend? && !a.DoRecv? && !a.DoRecvRest?
    ensures var q, n := s.chans[ch].senders, Next(s, a);
            ch < |n.chans| &&
            if TakesSender(s, a, ch) && q != [] then n.chans[ch].senders == q[1..] && n.held == s.held + multiset{q[0]}
            else n.chans[ch].senders == q
  {
  }

  lemma SendSenders(s: State, c: nat, v: Int64, caller: Caller, ch: nat)
    requires Enabled(s, DoSend(c, v, caller)) && c < |s.accepted| && c < |s.left| && ch < |s.chans|
    ensures var q, n := s.chans[ch].senders, Next(s, DoSend(c, v, caller));
            ch < |n.chans| && (n.chans[ch].senders == q || (c == ch && caller.self.Some? && n.chans[ch].senders == q + [caller.self.value]))
  {
    hide Contents, RingValid;
    SendSteps(s, c, v, caller);
  }

  lemma RecvSenders(s: State, c: nat, caller: Caller, ch: nat)
    requires Enabled(s, DoRecv(c, caller)) && c < |s.left| && ch < |s.chans|
    ensures var q, a := s.chans[ch].senders, DoRecv(c, caller);
            var n := Next(s, a);
            ch < |n.chans| &&
            if TakesSender(s, a, ch) && q != [] then n.chans[ch].senders == q[1..] && n.held == s.held + multiset{q[0]}
            else n.chans[ch].senders == q
  {
    hide Contents, RingValid, Recv, RecvRest;
    if HoldsValue(s, caller) {
      HeldStep(s, c, caller);
    } else if s.chans[c].senders != [] {
      RecvWakes(s, c, caller);
    } else {
      RecvLooks(s, c, caller);
    }
  }

  lemma RestSenders(s: State, c: nat, caller: Caller, ch: nat)
    requires Enabled(s, DoRecvRest(c, caller)) && c < |s.left| && ch < |s.chans|
    ensures var n := Next(s, DoRecvRest(c, caller));
            ch < |n.chans| && n.chans[ch].senders == s.chans[ch].senders
  {
    hide Contents, RingValid, Recv, RecvRest;
    RestLooks(s, c, caller);
  }

  /** The wait of a sender ends exactly at such a step, and when it is the first in the queue. */
  lemma SenderWaitEnds(s: State, a: Action, ch: nat, t: TaskId)
    requires Reachable(s) && Enabled(s, a) && ch < |s.chans| && t in s.chans[ch].senders
    ensures var n := Next(s, a);
            && ch < |n.chans|
            && (t !in n.chans[ch].senders <==> TakesSender(s, a, ch) && s.chans[ch].senders[0] == t)
            && (t !in n.chans[ch].senders ==> t in n.held)
  {
    hide Next, TakesSender, Reachable;
    SendersStep(s, a, ch);
    var q := s.chans[ch].senders;
    if TakesSender(s, a, ch) {
      Once(s, ch, t);
      FirstOnly(q, t);
    } else {
      var i :| 0 <= i < |q| && q[i] == t;
      assert Next(s, a).chans[ch].senders[i] == t;
    }
  }

  lemma Once(s: State, ch: nat, t: TaskId)
    requires Reachable(s) && ch < |s.chans| && (t in s.chans[ch].senders || t in s.chans[ch].receivers)
    ensures multiset(s.chans[ch].senders)[t] <= 1 && multiset(s.chans[ch].receivers)[t] <= 1
  {
    hide Reachable, Places;
    ReachableInv(s);
    assert t in multiset(s.chans[ch].senders) || t in multiset(s.chans[ch].receivers);
    WaitsOnce(s, ch, ch, t);
  }

  lemma FirstOnly(q: seq<TaskId>, t: TaskId)
    requires q != [] && t in q && multiset(q)[t] <= 1
    ensures t in q[1..] <==> q[0] != t
  {
    assert q == [q[0]] + q[1..];
    assert multiset(q)[t] == multiset([q[0]])[t] + multiset(q[1..])[t];
    assert t in q[1..] <==> multiset(q[1..])[t] > 0;
  }

  lemma OtherReceivers(s: State, a: Action, ch: nat)
    requires Enabled(s, a) && ch < |s.chans| && !a.DoSend? && !a.DoRecv? && !a.DoRecvRest?
    ensures var q, n := s.chans[ch].receivers, Next(s, a);
            ch < |n.chans| &&
            if TakesReceiver(s, a, ch) && q != [] then n.chans[ch].receivers == q[1..] && n.held == s.held + multiset{q[0]}
            else n.chans[ch].receivers == q
  {
  }

  lemma SendReceivers(s: State, c: nat, v: Int64, caller: Caller, ch: nat)
    requires Enabled(s, DoSend(c, v, caller)) && c < |s.accepted| && c < |s.left| && ch < |s.chans|
    ensures var q, a := s.chans[ch].receivers, DoSend(c, v, caller);
            var n := Next(s, a);
            ch < |n.chans| &&
            if TakesReceiver(s, a, ch) && q != [] then n.chans[ch].receivers == q[1..] && n.held == s.held + multiset{q[0]}
            else n.chans[ch].receivers == q
  {
    hide Contents, RingValid;
    SendSteps(s, c, v, caller);
  }

  lemma RecvReceivers(s: State, a: Action, ch: nat)
    requires Enabled(s, a) && (a.DoRecv? || a.DoRecvRest?) && a.ch < |s.left| && ch < |s.chans|
    ensures var q, n := s.chans[ch].receivers, Next(s, a);
            ch < |n.chans| && (n.chans[ch].receivers == q || (a.ch == ch && a.caller.self.Some? && n.chans[ch].receivers == q + [a.caller.self.value]))
  {
    hide Contents, RingValid, Recv, RecvRest;
    if a.DoRecvRest? {
      RestLooks(s, a.ch, a.caller);
    } else if HoldsValue(s, a.caller) {
      HeldStep(s, a.ch, a.caller);
    } else if s.chans[a.ch].senders != [] {
      RecvWakes(s, a.ch, a.caller);
    } else {
      RecvLooks(s, a.ch, a.caller);
    }
  }

  /** The wait of a receiver ends exactly when it is the first in the queue, at a send while the
      channel is open, or at a close. */
  lemma ReceiverWaitEnds(s: State, a: Action, ch: nat, t: TaskId)
    requires Reachable(s) && Enabled(s, a) && ch < |s.chans| && t in s.chans[ch].receivers
    ensures var n := Next(s, a);
            && ch < |n.chans|
            && (t !in n.chans[ch].receivers <==> TakesReceiver(s, a, ch) && s.chans[ch].receivers[0] == t)
            && (t !in n.chans[ch].receivers ==> t in n.held)
  {
    hide Next, TakesReceiver, Reachable, Enabled;
    Logged(s);
    if a.DoSend? || a.DoRecv? || a.DoRecvRest? {
      ActionOnChan(s, a);
    }
    var q := s.chans[ch].receivers;
    if a.DoSend? {
      SendReceivers(s, a.ch, a.v, a.caller, ch);
    } else if a.DoRecv? || a.DoRecvRest? {
      RecvReceivers(s, a, ch);
      NotTaken(s, a, ch);
    } else {
      OtherReceivers(s, a, ch);
    }
    Once(s, ch, t);
    FirstOnly(q, t);
  }

  lemma ActionOnChan(s: State, a: Action)
    requires Enabled(s, a) && (a.DoSend? || a.DoRecv? || a.DoRecvRest?)
    ensures a.ch < |s.chans|
  {
  }

  lemma NotTaken(s: State, a: Action, ch: nat)
    requires a.DoRecv? || a.DoRecvRest?
    ensures !TakesReceiver(s, a, ch)
  {
  }

  /** Tasks become ready at the end of the ready queue and are dispatched from its front; a held
      task becomes ready by being woken and by nothing else. */
  lemma ReadyStep(s: State, a: Action)
    requires Enabled(s, a)
    ensures Next(s, a).ready == match a
                                case Dispatch => s.ready[1..]
                                case Go => s.ready + [s.created]
                                case Wake(t) => s.ready + [t]
                                case _ => s.ready
    ensures a.Dispatch? ==> Next(s, a).running == s.running + multiset{s.ready[0]}
  {
    hide AfterSend, AfterRecv, LeaveAgain, Recv, RecvRest, RingValid, MayCall, InAgain;
    if a.DoRecvRest? {
      LeaveReady(s, a.ch, a.caller);
    }
  }

  lemma LeaveReady(s: State, ch: nat, caller: Caller)
    ensures LeaveAgain(s, ch, caller).ready == s.ready && LeaveAgain(s, ch, caller).held == s.held
  {
  }

  lemma RecvHolds(s: State, ch: nat, caller: Caller, r: (Chan, Received))
    requires ch < |s.chans|
    ensures s.held <= AfterRecv(s, ch, caller, r).held
  {
  }

  lemma SendHolds(s: State, ch: nat, v: Int64, caller: Caller)
    requires ch < |s.chans| && RingValid(s.chans[ch])
    ensures s.held <= AfterSend(s, ch, v, caller).held
  {
    hide RingValid;
  }

  /** A held task stops being held by being woken and by nothing else. */
  lemma HeldUntilWoken(s: State, a: Action, t: TaskId)
    requires Enabled(s, a)
    ensures Next(s, a).held[t] < s.held[t] <==> a == Wake(t)
  {
    hide AfterSend, AfterRecv, LeaveAgain, Recv, RecvRest, RingValid, MayCall, InAgain;
    match a
    case DoSend(ch, v, caller) => SendHolds(s, ch, v, caller);
    case DoRecv(ch, caller) =>
      if !HoldsValue(s, caller) {
        RecvHolds(s, ch, caller, Recv(s.chans[ch], caller));
      }
    case DoRecvRest(ch, caller) =>
      LeaveReady(s, ch, caller);
      LeaveChans(s, ch, caller);
      RecvHolds(LeaveAgain(s, ch, caller), ch, caller, RecvRest(s.chans[ch], caller));
    case _ =>
  }

  lemma LeaveChans(s: State, ch: nat, caller: Caller)
    ensures LeaveAgain(s, ch, caller).chans == s.chans
  {
  }
}
