/** Receives that return what another channel accepted, and sends that nobody can take. */
module ForeignValues {
  import opened Wrappers
  import opened Ast
  import opened Channels
  import opened Scheduler
  import opened SchedulerInv
  import opened SchedulerRuns

  // Some task holds a value that was handed to it and that it has not received yet.
  predicate Holds(s: State, caller: Caller) {
    caller.self.Some? && caller.self.value in s.slots
  }

  /** What a receive on the channel returns, if it returns a value at once. */
  function Received(s: State, a: Action, ch: nat): Option<Int64>
    requires Enabled(s, a)
  {
    match a
    case DoRecv(c, caller) =>
      if c != ch then None
      else if Holds(s, caller) then Some(s.slots[caller.self.value])
      else var r := Recv(s.chans[ch], caller).1; if r.Took? then Some(r.value) else None
    case DoRecvRest(c, caller) =>
      if c != ch then None else var r := RecvRest(s.chans[ch], caller).1; if r.Took? then Some(r.value) else None
    case _ => None
  }

  lemma AfterReturned(s: State, ch: nat, caller: Caller, r: (Chan, Channels.Received))
    requires ch < |s.chans|
    ensures AfterRecv(s, ch, caller, r).returned == s.returned + if r.1.Took? then multiset{r.1.value} else multiset{}
  {
  }

  // What a receive returns is what it adds to the returned values.
  lemma ReceivedReturned(s: State, a: Action)
    requires (a.DoRecv? || a.DoRecvRest?) && Enabled(s, a)
    ensures var r := Received(s, a, a.ch);
            Next(s, a).returned == s.returned + if r.Some? then multiset{r.value} else multiset{}
  {
    hide RingValid, Recv, RecvRest, AfterRecv;
    var c := s.chans[a.ch];
    if a.DoRecvRest? {
      AfterReturned(LeaveAgain(s, a.ch, a.caller), a.ch, a.caller, RecvRest(c, a.caller));
    } else if !Holds(s, a.caller) {
      AfterReturned(s, a.ch, a.caller, Recv(c, a.caller));
    }
  }

  lemma RecvOldest(c: Chan, caller: Caller)
    requires RingValid(c)
    ensures Recv(c, caller).1.Took? ==> Recv(c, caller).1.value in Contents(c)
    ensures RecvRest(c, caller).1.Took? ==> RecvRest(c, caller).1.value in Contents(c)
  {
    hide RingValid, Contents, Recv, RecvRest;
    RecvTakes(c, caller);
    RestTakes(c, caller);
  }

  /** A receive returns a value its channel never accepted exactly if its caller holds such a
      value: one that was handed to it on another channel. */
  lemma ForeignIff(s: State, a: Action, ch: nat)
    requires Reachable(s) && Enabled(s, a) && Received(s, a, ch).Some? && ch < |s.chans|
    ensures |s.accepted| == |s.chans|
    ensures var v := Received(s, a, ch).value;
            v !in s.accepted[ch] <==> a.DoRecv? && Holds(s, a.caller) && s.slots[a.caller.self.value] !in s.accepted[ch]
    ensures Received(s, a, ch).value !in s.accepted[ch] ==>
              exists c: nat :: c < |s.chans| && c != ch && Received(s, a, ch).value in s.accepted[c]
  {
    hide Contents, RingValid, Recv, RecvRest, Reachable;
    ChannelFifo(s, ch);
    RecvOldest(s.chans[ch], a.caller);
    if Received(s, a, ch).value !in s.accepted[ch] {
      HeldAccepted(s, a.caller.self.value);
    }
  }

  /** An undelivered value was accepted by some channel. */
  lemma HeldAccepted(s: State, t: TaskId)
    requires Reachable(s) && t in s.slots
    ensures |s.accepted| == |s.chans| && exists c: nat :: c < |s.chans| && s.slots[t] in s.accepted[c]
  {
    hide OnePlace, ChansInv, AgainInv, Fifo, RingValid, Contents;
    ReachableInv(s);
    var v := s.slots[t];
    HeldCounted(s.slots, s.created, t);
    assert Sum(s.left)[v] > 0;
    var c := InSum(s.left, v);
    LeftAccepted(s, c, v);
  }

  lemma LeftAccepted(s: State, c: nat, v: Int64)
    requires Fifo(s) && c < |s.left| && v in s.left[c]
    ensures |s.accepted| == |s.chans| && c < |s.chans| && v in s.accepted[c]
  {
    hide RingValid, Contents;
    assert RingValid(s.chans[c]);
  }

  lemma {:induction false} HeldCounted(slots: map<TaskId, Int64>, n: nat, t: TaskId)
    requires t in slots && t < n
    ensures Undelivered(slots, n)[slots[t]] > 0
    decreases n
  {
    if t < n - 1 {
      HeldCounted(slots, n - 1, t);
    }
  }

  lemma {:induction false} InSum(logs: seq<seq<Int64>>, v: Int64) returns (c: nat)
    requires Sum(logs)[v] > 0
    ensures c < |logs| && v in logs[c]
    decreases |logs|
  {
    var n := |logs| - 1;
    if v in logs[n] {
      c := n;
    } else {
      c := InSum(logs[..n], v);
    }
  }

  /** Two unbuffered channels and two tasks. */
  function Two(ready: seq<TaskId>, running: multiset<TaskId>, receivers: seq<TaskId>): State {
    INIT.(chans := [Create(0).(receivers := receivers), Create(0)], accepted := [[], []], left := [[], []],
          created := 2, ready := ready, running := running)
  }

  lemma TwoStart()
    ensures Reachable(Two([], multiset{0, 1}, []))
  {
    hide Reachable;
    Starts();
    var one := INIT.(chans := [Create(0)], accepted := [[]], left := [[]]);
    var two := INIT.(chans := [Create(0), Create(0)], accepted := [[], []], left := [[], []]);
    Reach(INIT, MakeChan(0), one);
    Reach(one, MakeChan(0), two);
    Reach(two, Go, two.(created := 1, ready := [0]));
    Reach(two.(created := 1, ready := [0]), Go, Two([0, 1], multiset{}, []));
    assert [0, 1][1..] == [1] && [1][1..] == [];
    Reach(Two([0, 1], multiset{}, []), Dispatch, Two([1], multiset{0}, []));
    Reach(Two([1], multiset{0}, []), Dispatch, Two([], multiset{0, 1}, []));
  }

  lemma Starts()
    ensures Reachable(INIT)
  {
    assert Run(INIT, []) == Some(INIT);
  }

  /** Task 1 waits on channel 0 and is handed a value there; its next receive, on channel 1,
      returns that value, which channel 1 never accepted. */
  lemma ForeignReceive(v: Int64) returns (s: State)
    ensures Reachable(s) && Enabled(s, DoRecv(1, RECEIVER)) && |s.chans| == |s.accepted| == 2 && s.accepted[1] == []
    ensures Received(s, DoRecv(1, RECEIVER), 1) == Some(v)
  {
    hide Reachable;
    TwoStart();
    var waits := Two([], multiset{0}, [1]);
    TwoWaits(waits);
    var handed := Two([], multiset{0}, []).(held := multiset{1}, slots := map[1 := v], accepted := [[v], []], left := [[v], []]);
    TwoHands(v, waits, handed);
    var woken := handed.(held := multiset{}, ready := [1]);
    Reach(handed, Wake(1), woken);
    s := woken.(ready := [], running := multiset{0, 1});
    assert [1][1..] == [];
    Reach(woken, Dispatch, s);
  }

  lemma TwoWaits(waits: State)
    requires Reachable(Two([], multiset{0, 1}, [])) && waits == Two([], multiset{0}, [1])
    ensures Reachable(waits)
  {
    hide Reachable;
    assert [] + [1] == [1];
    assert multiset{0, 1} - multiset{1} == multiset{0};
    Reach(Two([], multiset{0, 1}, []), DoRecv(0, RECEIVER), waits);
  }

  lemma TwoHands(v: Int64, waits: State, handed: State)
    requires Reachable(waits) && waits == Two([], multiset{0}, [1])
    requires handed == Two([], multiset{0}, []).(held := multiset{1}, slots := map[1 := v], accepted := [[v], []], left := [[v], []])
    ensures Reachable(handed)
  {
    hide Reachable;
    assert [1][1..] == [] && [] + [v] == [v];
    Reach(waits, DoSend(0, v, SENDER), handed);
  }

  // ---- compiled programs ----

  const COMPILED: Caller := Caller(false, None)

  /** In a compiled program a send on an unbuffered channel loses its value, and a receive on
      one returns without a value: neither changes anything. */
  lemma CompiledUnbuffered(actions: seq<Action>, ch: nat, v: Int64)
    requires Run(INIT, actions).Some? && forall a :: a in actions ==> Compiled(a)
    requires var s := Run(INIT, actions).value; Enabled(s, DoSend(ch, v, COMPILED)) && s.chans[ch].capacity <= 0
    ensures var s := Run(INIT, actions).value;
            Next(s, DoSend(ch, v, COMPILED)) == s && Enabled(s, DoRecv(ch, COMPILED)) && Next(s, DoRecv(ch, COMPILED)) == s
  {
    hide Run;
    CompiledNeverWaits(actions);
    UnbufferedStays(Run(INIT, actions).value, ch, v);
  }

  lemma UnbufferedStays(s: State, ch: nat, v: Int64)
    requires NobodyWaits(s) && Enabled(s, DoSend(ch, v, COMPILED)) && s.chans[ch].capacity <= 0
    ensures Next(s, DoSend(ch, v, COMPILED)) == s && Next(s, DoRecv(ch, COMPILED)) == s
  {
    assert s.chans[ch].receivers == [] && s.chans[ch].senders == [];
    assert s.chans[ch := s.chans[ch]] == s.chans;
  }

  /** One channel is enough. */
  lemma CompiledLoses(v: Int64)
    ensures var s := INIT.(chans := [Create(0)], accepted := [[]], left := [[]]);
            Run(INIT, [MakeChan(0)]) == Some(s) && Run(INIT, [MakeChan(0), DoSend(0, v, COMPILED)]) == Some(s)
  {
    var s, first, send := INIT.(chans := [Create(0)], accepted := [[]], left := [[]]), [MakeChan(0)], DoSend(0, v, COMPILED);
    assert first[..0] == [] && (first + [send])[..1] == first && Run(INIT, []) == Some(INIT);
    assert Next(INIT, MakeChan(0)) == s;
    assert Run(INIT, first) == Some(s);
    CompiledUnbuffered(first, 0, v);
    assert Run(INIT, first + [send]) == Some(s);
    assert first + [send] == [MakeChan(0), send];
  }
}
