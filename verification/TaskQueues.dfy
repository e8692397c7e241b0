/** Tasks linked through their `next` field: the ready queue and the wait queues, and the
    channel object whose operations change them in place. */
module TaskQueues {
  import opened Wrappers
  import opened Ast
  import C = Channels
  import S = Scheduler

  class Task {
    const id: C.TaskId
    var recvValue: Int64
    var hasRecv: bool
    var next: Task?

    constructor (id: C.TaskId)
      ensures this.id == id && !hasRecv && next == null
    {
      this.id := id;
      recvValue, hasRecv, next := 0, false, null;
    }
  }

  /** The chain that starts at `head` goes through the tasks of `q`, in order, and ends. */
  ghost predicate Linked(head: Task?, q: seq<Task>)
    reads q
  {
    && head == (if q == [] then null else q[0])
    && (forall i {:trigger q[i].next} :: 0 <= i < |q| ==> q[i].next == if i + 1 < |q| then q[i + 1] else null)
    && (forall i, j :: 0 <= i < j < |q| ==> q[i] != q[j])
  }

  function Ids(q: seq<Task>): (r: seq<C.TaskId>)
    ensures |r| == |q|
  {
    seq(|q|, i requires 0 <= i < |q| => q[i].id)
  }

  lemma IdsAppend(q: seq<Task>, t: Task)
    ensures Ids(q + [t]) == Ids(q) + [t.id]
  {
  }

  lemma FirstOnce(head: Task?, q: seq<Task>)
    requires Linked(head, q)
    ensures q != [] ==> q[0] !in q[1..]
  {
  }

  /** Walks to the end of a wait queue. */
  method BlockedEnqueue(head: Task?, task: Task, ghost q: seq<Task>) returns (first: Task)
    requires Linked(head, q) && task !in q
    modifies task`next, q`next
    ensures Linked(first, q + [task])
  {
    task.next := null;
    if head == null {
      first := task;
    } else {
      var cur := head;
      ghost var i := 0;
      while cur.next != null
        invariant 0 <= i < |q| && cur == q[i] && Linked(head, q) && task.next == null
        decreases |q| - i
      {
        cur := cur.next;
        i := i + 1;
      }
      assert i == |q| - 1;
      cur.next := task;
      first := head;
    }
  }

  method BlockedDequeue(head: Task?, ghost q: seq<Task>) returns (t: Task?, rest: Task?)
    requires Linked(head, q)
    modifies q`next
    ensures t == head && Linked(rest, if t == null then [] else q[1..])
    ensures t != null <==> q != []
  {
    t, rest := head, null;
    if t != null {
      rest := t.next;
      t.next := null;
    }
  }

  /** The global ready queue. */
  class ReadyQueue {
    var head: Task?
    var tail: Task?
    ghost var tasks: seq<Task>

    ghost predicate Valid()
      reads this, tasks
    {
      Linked(head, tasks) && (tasks != [] ==> tail == tasks[|tasks| - 1])
    }

    constructor ()
      ensures Valid() && tasks == []
    {
      head, tail, tasks := null, null, [];
    }

    method Enqueue(task: Task)
      requires Valid() && task !in tasks
      modifies this, task`next, tasks`next
      ensures Valid() && tasks == old(tasks) + [task]
    {
      task.next := null;
      if head == null {
        head, tail := task, task;
      } else {
        tail.next := task;
        tail := task;
      }
      tasks := tasks + [task];
    }

    method Dequeue() returns (t: Task?)
      requires Valid()
      modifies this, tasks`next
      ensures Valid() && (t == null <==> old(tasks) == [])
      ensures t != null ==> old(tasks) == [t] + tasks && t.next == null
      ensures t == null ==> tasks == []
    {
      t := head;
      if t != null {
        head := t.next;
        if head == null {
          tail := null;
        }
        t.next := null;
        assert tasks == [t] + tasks[1..];
        tasks := tasks[1..];
      }
    }

    /** A new goroutine, behind all tasks that are ready: the step `Go` of the scheduler. */
    method GoCreate(task: Task, ghost s: S.State)
      requires Valid() && task !in tasks && Ids(tasks) == s.ready && task.id == s.created
      modifies this, task, tasks`next
      ensures Valid() && tasks == old(tasks) + [task] && !task.hasRecv
      ensures S.Enabled(s, S.Go) && Ids(tasks) == S.Next(s, S.Go).ready
    {
      task.hasRecv := false;
      task.recvValue := 0;
      IdsAppend(tasks, task);
      Enqueue(task);
    }

    /** A worker takes the next task: the step `Dispatch`, or nothing if it is not possible. */
    method WorkerTakes(ghost s: S.State) returns (t: Task?)
      requires Valid() && Ids(tasks) == s.ready
      modifies this, tasks`next
      ensures Valid() && (t != null <==> S.Enabled(s, S.Dispatch))
      ensures t != null ==> S.Next(s, S.Dispatch).running == s.running + multiset{t.id} && Ids(tasks) == S.Next(s, S.Dispatch).ready
      ensures t == null ==> Ids(tasks) == s.ready
    {
      t := Dequeue();
    }
  }

  /** A channel. Each method is what one thread does while it holds the channel's lock; a task
      it takes from a wait queue is handed back, to be made ready after the lock is released. */
  class Channel {
    const capacity: int
    const buffer: array<Int64>
    var head: nat
    var tail: nat
    var count: nat
    var closed: bool
    var sendersHead: Task?
    var receiversHead: Task?
    ghost var senders: seq<Task>
    ghost var receivers: seq<Task>

    ghost predicate Valid()
      reads this, buffer, senders, receivers
    {
      && C.RingValid(View()) && Linked(sendersHead, senders) && Linked(receiversHead, receivers)
      && (forall t :: t in senders ==> t !in receivers)
    }

    ghost function View(): C.Chan
      reads this, buffer
    {
      C.Chan(capacity, buffer[..], head, tail, count, closed, Ids(senders), Ids(receivers))
    }

    constructor (capacity: int)
      ensures Valid() && View() == C.Create(capacity) && fresh(buffer)
    {
      this.capacity := capacity;
      buffer := new Int64[if capacity > 0 then capacity else 0](_ => 0);
      head, tail, count, closed := 0, 0, 0, false;
      sendersHead, receiversHead, senders, receivers := null, null, [], [];
    }

    // The caller of an operation: its task, if it has one, runs and so waits nowhere.
    ghost predicate Runs(self: Task?)
      reads this
    {
      self != null ==> self !in senders && self !in receivers
    }

    static function CallerOf(cont: bool, self: Task?): C.Caller {
      C.Caller(cont, if self == null then None else Some(self.id))
    }

    method Push(v: Int64)
      requires Valid() && count < capacity
      modifies buffer, `tail, `count
      ensures Valid() && View() == C.Push(old(View()), v)
    {
      C.PushContents(View(), v);
      buffer[tail] := v;
      tail := (tail + 1) % capacity;
      count := count + 1;
      assert View() == C.Push(old(View()), v);
    }

    method Pop() returns (v: Int64)
      requires Valid() && count > 0
      modifies `head, `count
      ensures Valid() && View() == C.Pop(old(View())) && v == old(View()).buffer[old(head)]
    {
      C.PopContents(View());
      v := buffer[head];
      head := (head + 1) % capacity;
      count := count - 1;
      assert View() == C.Pop(old(View()));
    }

    // The ring does not depend on who waits.
    static lemma RingOnly(c: C.Chan, d: C.Chan)
      requires C.RingValid(c) && d == c.(senders := d.senders, receivers := d.receivers)
      ensures C.RingValid(d)
    {
    }

    method AddSender(self: Task)
      requires Valid() && Runs(self)
      modifies `sendersHead, `senders, self`next, senders`next
      ensures Valid() && senders == old(senders) + [self]
    {
      sendersHead := BlockedEnqueue(sendersHead, self, senders);
      assert forall t: Task | t in receivers :: t.next == old(t.next);
      senders := senders + [self];
    }

    method AddReceiver(self: Task)
      requires Valid() && Runs(self)
      modifies `receiversHead, `receivers, self`next, receivers`next
      ensures Valid() && receivers == old(receivers) + [self]
    {
      receiversHead := BlockedEnqueue(receiversHead, self, receivers);
      assert forall t: Task | t in senders :: t.next == old(t.next);
      receivers := receivers + [self];
    }

    method TakeSender() returns (t: Task?)
      requires Valid()
      modifies `sendersHead, `senders, senders`next
      ensures Valid() && (t == null <==> old(senders) == [])
      ensures senders == if t == null then [] else old(senders)[1..]
      ensures t != null ==> t == old(senders)[0]
    {
      hide C.RingValid;
      t, sendersHead := BlockedDequeue(sendersHead, senders);
      assert Linked(receiversHead, receivers) by {
        assert forall t: Task | t in receivers :: t.next == old(t.next);
      }
      assert Linked(sendersHead, if t == null then [] else senders[1..]);
      hide Linked;
      senders := if t == null then [] else senders[1..];
      RingOnly(old(View()), View());
    }

    method TakeReceiver() returns (t: Task?)
      requires Valid()
      modifies `receiversHead, `receivers, receivers`next
      ensures Valid() && (t == null <==> old(receivers) == [])
      ensures receivers == if t == null then [] else old(receivers)[1..]
      ensures t != null ==> t == old(receivers)[0]
    {
      hide C.RingValid;
      t, receiversHead := BlockedDequeue(receiversHead, receivers);
      assert Linked(sendersHead, senders) by {
        assert forall t: Task | t in senders :: t.next == old(t.next);
      }
      assert Linked(receiversHead, if t == null then [] else receivers[1..]);
      hide Linked;
      receivers := if t == null then [] else receivers[1..];
      RingOnly(old(View()), View());
    }

    /** The first waiting receiver, if any, leaves its queue with the value. */
    method HandOver(v: Int64) returns (receiver: Task?)
      requires Valid()
      modifies `receiversHead, `receivers, receivers
      ensures Valid() && (receiver == null <==> old(receivers) == [])
      ensures View() == old(View()).(receivers := if receiver == null then [] else old(View()).receivers[1..])
      ensures receivers == if receiver == null then [] else old(receivers)[1..]
      ensures receiver != null ==> receiver == old(receivers)[0] && receiver.hasRecv && receiver.recvValue == v
      ensures forall t: Task :: t in senders + old(receivers) && t != receiver ==> t.hasRecv == old(t.hasRecv)
    {
      hide C.RingValid;
      receiver := TakeReceiver();
      if receiver != null {
        receiver.recvValue := v;
        receiver.hasRecv := true;
      }
    }

    /** A waiting receiver gets the value directly. */
    method Send(v: Int64, cont: bool, self: Task?) returns (receiver: Task?)
      requires Valid() && Runs(self)
      modifies this, buffer, self, senders, receivers
      ensures Valid()
      ensures View() == C.Send(old(View()), v, CallerOf(cont, self)).0
      ensures match C.Send(old(View()), v, CallerOf(cont, self)).1
              case Handed(id) => receiver != null && receiver.id == id && receiver.hasRecv && receiver.recvValue == v
              case _ => receiver == null
      ensures forall t: Task :: t in old(senders) + old(receivers) && t != receiver ==> t.hasRecv == old(t.hasRecv)
    {
      receiver := null;
      if closed {
        return;
      }
      receiver := HandOver(v);
      if receiver != null {
        return;
      }
      if capacity > 0 && count < capacity {
        Push(v);
        return;
      }
      if cont && self != null {
        IdsAppend(senders, self);
        AddSender(self);
      }
    }

    /** A receive up to where it may let go of the channel. A value a sender left for the task
        comes first; it says so in `delivered`, and the channel is not looked at. Otherwise
        `sender` is to be made ready, and `again` tells to go on with `RecvRest` after that. */
    method Recv(cont: bool, self: Task?) returns (delivered: bool, taken: Option<Int64>, sender: Task?, again: bool)
      requires Valid() && Runs(self)
      modifies this, self, senders, receivers
      ensures Valid() && delivered == (self != null && old(self.hasRecv))
      ensures delivered ==> taken == Some(old(self.recvValue)) && !self.hasRecv && sender == null && !again && View() == old(View())
      ensures !delivered ==> View() == C.Recv(old(View()), CallerOf(cont, self)).0
      ensures !delivered ==> ResultIs(C.Recv(old(View()), CallerOf(cont, self)).1, taken, sender, again)
      ensures forall t: Task :: t in old(senders) + old(receivers) ==> t.hasRecv == old(t.hasRecv)
    {
      hide Linked, C.RingValid;
      delivered, taken, sender, again := false, None, null, false;
      if self != null && self.hasRecv {
        delivered, taken := true, Some(self.recvValue);
        self.hasRecv := false;
        self.recvValue := 0;
        return;
      }
      sender := TakeSender();
      if sender != null {
        if count > 0 {
          var v := Pop();
          taken := Some(v);
        } else {
          again := true;
        }
      } else {
        taken := RecvRest(cont, self);
      }
    }

    static ghost predicate ResultIs(x: C.Received, taken: Option<Int64>, sender: Task?, again: bool) {
      match x
      case Took(v, woken) => taken == Some(v) && !again && (if sender == null then None else Some(sender.id)) == woken
      case Again(id) => taken == None && again && sender != null && sender.id == id
      case _ => taken == None && !again && sender == null
    }

    /** The last look at the buffer; a caller that can wait is queued if it is empty. */
    method RecvRest(cont: bool, self: Task?) returns (taken: Option<Int64>)
      requires Valid() && Runs(self)
      modifies `head, `count, `receiversHead, `receivers, self, receivers`next
      ensures self != null ==> self.hasRecv == old(self.hasRecv)
      ensures Valid() && View() == C.RecvRest(old(View()), CallerOf(cont, self)).0
      ensures match C.RecvRest(old(View()), CallerOf(cont, self)).1
              case Took(v, _) => taken == Some(v)
              case _ => taken == None
    {
      taken := None;
      if count > 0 {
        var v := Pop();
        taken := Some(v);
        return;
      }
      if cont && self != null {
        IdsAppend(receivers, self);
        AddReceiver(self);
      }
    }

    ghost predicate Apart(ready: ReadyQueue)
      reads this, ready
    {
      forall t: Task :: t in ready.tasks ==> t !in senders && t !in receivers
    }

    method WakeReceiver(ready: ReadyQueue) returns (woken: bool)
      requires Valid() && ready.Valid() && Apart(ready)
      modifies `receiversHead, `receivers, ready, receivers`next, ready.tasks`next
      ensures Valid() && ready.Valid() && Apart(ready) && woken == (old(receivers) != [])
      ensures woken ==> receivers == old(receivers)[1..] && ready.tasks == old(ready.tasks) + [old(receivers)[0]]
      ensures !woken ==> receivers == [] && ready.tasks == old(ready.tasks)
    {
      hide C.RingValid;
      FirstOnce(receiversHead, receivers);
      var t := TakeReceiver();
      woken := t != null;
      assert ready.Valid() by {
        assert forall u: Task | u in ready.tasks :: u.next == old(u.next);
      }
      if woken {
        label Taken:
        assert t !in receivers && forall u: Task | u in receivers :: u in old(receivers);
        ready.Enqueue(t);
        assert Linked(sendersHead, senders) by {
          assert forall u: Task | u in senders :: u.next == old@Taken(u.next);
        }
        assert Linked(receiversHead, receivers) by {
          assert forall u: Task | u in receivers :: u.next == old@Taken(u.next);
        }
        hide Linked;
      }
    }

    method WakeAllReceivers(ready: ReadyQueue)
      requires Valid() && ready.Valid() && Apart(ready)
      modifies `receiversHead, `receivers, ready, receivers`next, ready.tasks`next
      ensures Valid() && ready.Valid() && Apart(ready)
      ensures receivers == [] && ready.tasks == old(ready.tasks) + old(receivers)
    {
      hide Linked, C.RingValid;
      ghost var i := 0;
      var more := true;
      while more
        invariant Valid() && ready.Valid() && Apart(ready) && i <= |old(receivers)| && receivers == old(receivers)[i..]
        invariant ready.tasks == old(ready.tasks) + old(receivers)[..i] && (!more ==> receivers == [])
        decreases |receivers|, more
      {
        more := WakeReceiver(ready);
        i := if more then i + 1 else i;
      }
    }

    method WakeSender(ready: ReadyQueue) returns (woken: bool)
      requires Valid() && ready.Valid() && Apart(ready)
      modifies `sendersHead, `senders, ready, senders`next, ready.tasks`next
      ensures Valid() && ready.Valid() && Apart(ready) && woken == (old(senders) != [])
      ensures woken ==> senders == old(senders)[1..] && ready.tasks == old(ready.tasks) + [old(senders)[0]]
      ensures !woken ==> senders == [] && ready.tasks == old(ready.tasks)
    {
      hide C.RingValid;
      FirstOnce(sendersHead, senders);
      var t := TakeSender();
      woken := t != null;
      assert ready.Valid() by {
        assert forall u: Task | u in ready.tasks :: u.next == old(u.next);
      }
      if woken {
        label Taken:
        assert t !in senders && forall u: Task | u in senders :: u in old(senders);
        ready.Enqueue(t);
        assert Linked(sendersHead, senders) by {
          assert forall u: Task | u in senders :: u.next == old@Taken(u.next);
        }
        assert Linked(receiversHead, receivers) by {
          assert forall u: Task | u in receivers :: u.next == old@Taken(u.next);
        }
        hide Linked;
      }
    }

    method WakeAllSenders(ready: ReadyQueue)
      requires Valid() && ready.Valid() && Apart(ready)
      modifies `sendersHead, `senders, ready, senders`next, ready.tasks`next
      ensures Valid() && ready.Valid() && Apart(ready)
      ensures senders == [] && ready.tasks == old(ready.tasks) + old(senders)
    {
      hide Linked, C.RingValid;
      ghost var i := 0;
      var more := true;
      while more
        invariant Valid() && ready.Valid() && Apart(ready) && i <= |old(senders)| && senders == old(senders)[i..]
        invariant ready.tasks == old(ready.tasks) + old(senders)[..i] && (!more ==> senders == [])
        decreases |senders|, more
      {
        more := WakeSender(ready);
        i := if more then i + 1 else i;
      }
    }

    /** Every waiting task becomes ready: the receivers first, then the senders, in their order. */
    method Close(ready: ReadyQueue)
      requires Valid() && ready.Valid() && Apart(ready)
      modifies this, ready, senders`next, receivers`next, ready.tasks`next
      ensures Valid() && ready.Valid()
      ensures View() == old(View()).(closed := true, senders := [], receivers := [])
      ensures ready.tasks == old(ready.tasks) + old(receivers) + old(senders)
    {
      closed := true;
      WakeAllReceivers(ready);
      WakeAllSenders(ready);
    }
  }
}
