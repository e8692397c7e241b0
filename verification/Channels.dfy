/** What one operation on a channel does: to the ring buffer, and to the two queues of waiting tasks. */
module Channels {
  import opened Wrappers
  import opened Ast

  type TaskId = nat

  /** A channel. A capacity of zero or less means it has no buffer. */
  datatype Chan = Chan(capacity: int, buffer: seq<Int64>, head: nat, tail: nat, count: nat, closed: bool,
                       senders: seq<TaskId>, receivers: seq<TaskId>)

  /** Who calls an operation: with a continuation or not, and from which task, if from a task. */
  datatype Caller = Caller(cont: bool, self: Option<TaskId>) {
    // Only a caller that left a continuation and is a task can be queued.
    predicate CanWait() {
      cont && self.Some?
    }
  }

  datatype Sent =
    | Handed(receiver: TaskId)   // the value went to a waiting receiver
    | Buffered
    | SendBlocked                // the value was not taken; the sender waits
    | Dropped                    // the value was not taken, and nobody waits

  datatype Received =
    | Took(value: Int64, woken: Option<TaskId>)
    | Again(sender: TaskId)      // nothing to take yet: wake the sender, then look once more
    | RecvBlocked
    | Nothing                    // nothing to take, and nobody waits

  function Create(capacity: int): Chan {
    Chan(capacity, if capacity > 0 then seq(capacity, i => 0) else [], 0, 0, 0, false, [], [])
  }

  /** The ring's indices agree. */
  predicate RingValid(c: Chan) {
    if c.capacity > 0 then
      |c.buffer| == c.capacity && c.head < c.capacity && c.count <= c.capacity && c.tail == (c.head + c.count) % c.capacity
    else c.count == 0
  }

  /** The buffered values, the oldest first. */
  function Contents(c: Chan): (r: seq<Int64>)
    requires RingValid(c)
    ensures |r| == c.count
  {
    seq(c.count, i requires 0 <= i < c.count => c.buffer[(c.head + i) % c.capacity])
  }

  function Push(c: Chan, v: Int64): Chan
    requires RingValid(c) && c.count < c.capacity
  {
    c.(buffer := c.buffer[c.tail := v], tail := (c.tail + 1) % c.capacity, count := c.count + 1)
  }

  function Pop(c: Chan): Chan
    requires RingValid(c) && c.count > 0
  {
    c.(head := (c.head + 1) % c.capacity, count := c.count - 1)
  }

  function Send(c: Chan, v: Int64, caller: Caller): (Chan, Sent)
    requires RingValid(c)
  {
    if c.closed then (c, Dropped)
    else if c.receivers != [] then (c.(receivers := c.receivers[1..]), Handed(c.receivers[0]))
    else if c.capacity > 0 && c.count < c.capacity then (Push(c, v), Buffered)
    else if caller.CanWait() then (c.(senders := c.senders + [caller.self.value]), SendBlocked)
    else (c, Dropped)
  }

  /** A receive up to the point where it may let go of the channel. */
  function Recv(c: Chan, caller: Caller): (Chan, Received)
    requires RingValid(c)
  {
    if c.senders != [] then
      var d := c.(senders := c.senders[1..]);
      if c.count > 0 then (Pop(d), Took(c.buffer[c.head], Some(c.senders[0]))) else (d, Again(c.senders[0]))
    else RecvRest(c, caller)
  }

  /** The rest of a receive, after the channel was taken again. */
  function RecvRest(c: Chan, caller: Caller): (Chan, Received)
    requires RingValid(c)
  {
    if c.count > 0 then (Pop(c), Took(c.buffer[c.head], None))
    else if caller.CanWait() then (c.(receivers := c.receivers + [caller.self.value]), RecvBlocked)
    else (c, Nothing)
  }

  // ---- the ring is a queue ----

  lemma ModNext(a: nat, n: nat)
    requires n > 0
    ensures (a % n + 1) % n == (a + 1) % n
  {
    var q, r := a / n, a % n;
    assert a == q * n + r;
    if r + 1 < n {
      ModUnique(a + 1, q, r + 1, n);
      ModUnique(r + 1, 0, r + 1, n);
    } else {
      assert a + 1 == (q + 1) * n;
      ModUnique(a + 1, q + 1, 0, n);
      ModUnique(n, 1, 0, n);
    }
  }

  lemma ModLess(a: nat, n: nat)
    requires n > 0
    ensures (a + n) % n == a % n
  {
    assert a == a / n * n + a % n;
    assert a + n == (a / n + 1) * n + a % n;
    ModUnique(a + n, a / n + 1, a % n, n);
  }

  lemma ModUnique(a: nat, q: nat, r: nat, n: nat)
    requires r < n && a == q * n + r
    ensures a % n == r
  {
    var p, s := a / n, a % n;
    assert (p - q) * n == r - s;
    Scaled(p - q, n);
  }

  lemma Scaled(k: int, n: nat)
    ensures k >= 1 ==> k * n >= n
    ensures k <= -1 ==> k * n <= 0 - n
  {
  }

  lemma ModApart(h: nat, i: nat, j: nat, n: nat)
    requires h < n && i < j < n
    ensures (h + i) % n != (h + j) % n
  {
    Wrapped(h, i, n);
    Wrapped(h, j, n);
  }

  lemma Wrapped(h: nat, i: nat, n: nat)
    requires h < n && i < n
    ensures (h + i) % n == if h + i < n then h + i else h + i - n
  {
    if h + i >= n {
      ModLess(h + i - n, n);
    }
  }

  /** A push adds the newest value, whether or not the ring wraps round. */
  lemma PushContents(c: Chan, v: Int64)
    requires RingValid(c) && c.count < c.capacity
    ensures RingValid(Push(c, v)) && Contents(Push(c, v)) == Contents(c) + [v]
  {
    var d := Push(c, v);
    ModNext(c.head + c.count, c.capacity);
    forall i | 0 <= i < d.count
      ensures Contents(d)[i] == (Contents(c) + [v])[i]
    {
      if i < c.count {
        ModApart(c.head, i, c.count, c.capacity);
      }
    }
  }

  /** A pop takes the oldest value. */
  lemma PopContents(c: Chan)
    requires RingValid(c) && c.count > 0
    ensures RingValid(Pop(c)) && [c.buffer[c.head]] + Contents(Pop(c)) == Contents(c)
  {
    var d := Pop(c);
    PopIndex(c.head, c.count - 1, c.capacity);
    Wrapped(c.head, 0, c.capacity);
    var x, y := Contents(c), Contents(d);
    forall i | 0 <= i < d.count
      ensures y[i] == x[i + 1]
    {
      PopIndex(c.head, i, c.capacity);
    }
    assert x == [x[0]] + x[1..];
    assert x[1..] == y;
  }

  // The entry `i` places after the next one.
  lemma PopIndex(h: nat, i: nat, n: nat)
    requires h < n && i < n
    ensures ((h + 1) % n + i) % n == (h + (i + 1)) % n
  {
    if h + 1 < n {
      Wrapped(h, 1, n);
    } else {
      ModUnique(n, 1, 0, n);
      Wrapped(0, i, n);
      ModLess(i, n);
    }
  }
}
