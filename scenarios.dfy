/** Concrete runs of the scheduler, driven through the class's own methods
    with a handler built from the default options. */
module Scenarios {
  import opened ModbusCommand
  import opened Requests
  import opened Chunking
  import opened QueueOrder
  import opened Handler

  /** A queue of one entry: offering it to an empty queue queues it, and a
      tick takes it. */
  lemma OneQueued(e: Entry)
    ensures Offer([], Some(e)) == [e]
    ensures FirstMinimum([e]) == 0 && StableSort([e]) == [e]
  {
    assert Insert([], e) == [e];
  }

  /** Two entries, the later one more urgent: the tick takes the later one. */
  lemma TwoQueued(a: Entry, b: Entry)
    requires b.priority < a.priority && !Similar(a, b)
    ensures Offer([a], Some(b)) == [a, b]
    ensures FirstMinimum([a, b]) == 1 && StableSort([a, b]) == [b, a]
  {
    OfferDeduplicates([a], b);
    OneQueued(a);
    assert [a, b][..1] == [a];
    assert Insert([], b) == [b];
  }

  /** The chunk buffer of a ten-register read flattens to the ten values. */
  lemma TenValues(d0: seq<int>, d1: seq<int>, d2: seq<int>)
    requires |d0| == 4 && |d1| == 4 && |d2| == 2
    ensures Flatten([Data(d0), Data(d1), Data(d2)]) == d0 + d1 + d2
  {
    var b := [Data(d0), Data(d1), Data(d2)];
    assert b[..2] == [Data(d0), Data(d1)];
    assert b[..2][..1] == [Data(d0)];
    assert Flatten(b[..2][..1]) == d0 by {
      assert b[..2][..1][..0] == [];
      assert TakeFixed(d0) == d0;
    }
    assert TakeFixed(d1) == d1;
    assert TakeFixed(d2) == d2;
  }

  /** The first chunk of a ten-register read asks for 4 and queues the rest. */
  lemma FirstOfTen(cmd: Command, id: int, address: int, caller: nat, d0: seq<int>)
    requires IsRead(cmd)
    ensures var e0 := MakeEntry(id, cmd, Args(address, Num(10)), 1, 2, caller, 0, 4);
            && Capped(cmd, Num(10), 4) == Some(Num(4))
            && Successor(e0, Success(Data(d0)), 4, 2) ==
                 Some(MakeEntry(id, cmd, Args(address + 4, Num(6)), 1, 2, caller, 0, 4))
            && Report(e0, Success(Data(d0)), [Data(d0)]) == None
  {
  }

  /** The second chunk asks for 4 and queues the last two registers. */
  lemma SecondOfTen(cmd: Command, id: int, address: int, caller: nat, d0: seq<int>, d1: seq<int>)
    requires IsRead(cmd)
    ensures var e1 := MakeEntry(id, cmd, Args(address + 4, Num(6)), 1, 2, caller, 0, 4);
            && Capped(cmd, Num(6), 4) == Some(Num(4))
            && Successor(e1, Success(Data(d1)), 4, 2) ==
                 Some(MakeEntry(id, cmd, Args(address + 8, Num(2)), 1, 2, caller, 0, 4))
            && Report(e1, Success(Data(d1)), [Data(d0), Data(d1)]) == None
  {
  }

  /** The last chunk asks for 2 and reports the ten values. */
  lemma LastOfTen(cmd: Command, id: int, address: int, caller: nat, d0: seq<int>, d1: seq<int>, d2: seq<int>)
    requires IsRead(cmd) && |d0| == 4 && |d1| == 4 && |d2| == 2
    ensures var e2 := MakeEntry(id, cmd, Args(address + 8, Num(2)), 1, 2, caller, 0, 4);
            && Capped(cmd, Num(2), 4) == Some(Num(2))
            && Successor(e2, Success(Data(d2)), 4, 2) == None
            && Report(e2, Success(Data(d2)), [Data(d0), Data(d1), Data(d2)]) ==
                 Some(Notify(0, caller, None, Some(Many(d0 + d1 + d2))))
  {
    TenValues(d0, d1, d2);
  }

  /** A handler with the default options, opened, after one `send` of a
      request with the default priority. */
  method Started(id: int, cmd: Command, args: Args, caller: nat) returns (h: ModbusHandler)
    ensures fresh(h) && h.Valid() && h.isOpen
    ensures h.chunkSizeWord == 4 && h.retryCount == 2
    ensures h.messageBuffer == [MakeEntry(id, cmd, args, 1, 2, caller, 0, 4)]
    ensures h.inFlight == [] && h.dispatched == [] && h.notifications == []
    ensures 0 in h.chunkBuffers && h.chunkBuffers[0] == [] && h.nextRequest == 1
  {
    h := new ModbusHandler();
    h.Open();
    h.Send(id, cmd, args, None, None, caller);
    OneQueued(MakeEntry(id, cmd, args, 1, 2, caller, 0, 4));
  }

  /** One round of an open handler holding a single queued entry and nothing
      outstanding: a tick sends the entry, and the transport completes it. */
  method Round(h: ModbusHandler, outcome: Outcome) returns (e: Entry, call: Dispatch)
    requires h.Valid() && h.isOpen && |h.messageBuffer| == 1 && h.inFlight == []
    requires Capped(h.messageBuffer[0].command, h.messageBuffer[0].args.arg, h.chunkSizeWord).Some?
    modifies h
    ensures h.Valid() && h.isOpen && h.inFlight == [] && e == old(h.messageBuffer[0])
    ensures call == Dispatch(e.command, e.id, e.args.address,
                             Capped(e.command, e.args.arg, h.chunkSizeWord).value)
    ensures h.dispatched == old(h.dispatched) + [call]
    ensures e.request in old(h.chunkBuffers)
    ensures var buffer := old(h.chunkBuffers)[e.request] + (if outcome.Success? then [outcome.result] else []);
            && h.chunkBuffers == old(h.chunkBuffers)[e.request := buffer]
            && h.messageBuffer == AsSeq(Successor(e, outcome, h.chunkSizeWord, h.retryCount))
            && h.notifications == old(h.notifications) + AsSeq(Report(e, outcome, buffer))
  {
    e := h.messageBuffer[0];
    assert h.messageBuffer == [e];
    OneQueued(e);
    var r := h.Tick();
    call := r.call;
    h.Complete(0, outcome);
    match Successor(e, outcome, h.chunkSizeWord, h.retryCount)
    case None =>
    case Some(x) => OneQueued(x);
  }

  /** A failed attempt of a one-chunk read with `k` retries left: the read is
      sent as it is, re-queued with one retry less while `k >= 1`, and
      reported to the caller when `k == 0`. */
  lemma FailedAttempt(cmd: Command, id: int, address: int, n: int, caller: nat, k: int, err: int)
    requires IsRead(cmd) && n <= 4 && k >= 0
    ensures var e := MakeEntry(id, cmd, Args(address, Num(n)), 1, k, caller, 0, 4);
            && Capped(cmd, Num(n), 4) == Some(Num(n))
            && Successor(e, Failure(err), 4, 2) ==
                 (if k >= 1 then Some(MakeEntry(id, cmd, Args(address, Num(n)), 1, k - 1, caller, 0, 4)) else None)
            && Report(e, Failure(err), []) == (if k == 0 then Some(Notify(0, caller, Some(err), None)) else None)
  {
  }

  /** The last two attempts of a read whose first attempt failed. */
  method FinishRetries(h: ModbusHandler, cmd: Command, id: int, address: int, n: int, caller: nat, err: int)
    requires IsRead(cmd) && n <= 4
    requires h.Valid() && h.isOpen && h.inFlight == [] && h.notifications == []
    requires h.chunkSizeWord == 4 && h.retryCount == 2
    requires h.messageBuffer == [MakeEntry(id, cmd, Args(address, Num(n)), 1, 1, caller, 0, 4)]
    requires 0 in h.chunkBuffers && h.chunkBuffers[0] == []
    modifies h
    ensures h.dispatched == old(h.dispatched) + [Dispatch(cmd, id, address, Num(n)), Dispatch(cmd, id, address, Num(n))]
    ensures h.notifications == [Notify(0, caller, Some(err), None)] && h.messageBuffer == []
  {
    FailedAttempt(cmd, id, address, n, caller, 1, err);
    var x1, c1 := Round(h, Failure(err));
    FailedAttempt(cmd, id, address, n, caller, 0, err);
    var x2, c2 := Round(h, Failure(err));
  }

  /** A read that fails on every attempt: with `retryCount = 3` the request is
      sent three times, and the caller hears about the last error only, once. */
  method RetryExhaustion(cmd: Command, id: int, address: int, n: int, caller: nat, err: int)
      returns (calls: seq<Dispatch>, notes: seq<Notification>, queue: seq<Entry>)
    requires IsRead(cmd) && n <= 4
    ensures calls == [Dispatch(cmd, id, address, Num(n)),
                      Dispatch(cmd, id, address, Num(n)),
                      Dispatch(cmd, id, address, Num(n))]
    ensures notes == [Notify(0, caller, Some(err), None)]
    ensures queue == []
  {
    var h := Started(id, cmd, Args(address, Num(n)), caller);
    FailedAttempt(cmd, id, address, n, caller, 2, err);
    var x0, c0 := Round(h, Failure(err));
    FinishRetries(h, cmd, id, address, n, caller, err);
    calls, notes, queue := h.dispatched, h.notifications, h.messageBuffer;
  }

  /** The last two chunks of a ten-register read whose first chunk returned
      `d0`. */
  method FinishTenRegisterRead(h: ModbusHandler, cmd: Command, id: int, address: int, caller: nat,
                               d0: seq<int>, d1: seq<int>, d2: seq<int>)
    requires IsRead(cmd) && |d0| == 4 && |d1| == 4 && |d2| == 2
    requires h.Valid() && h.isOpen && h.inFlight == [] && h.notifications == []
    requires h.chunkSizeWord == 4 && h.retryCount == 2
    requires h.messageBuffer == [MakeEntry(id, cmd, Args(address + 4, Num(6)), 1, 2, caller, 0, 4)]
    requires 0 in h.chunkBuffers && h.chunkBuffers[0] == [Data(d0)]
    modifies h
    ensures h.dispatched == old(h.dispatched) + [Dispatch(cmd, id, address + 4, Num(4)), Dispatch(cmd, id, address + 8, Num(2))]
    ensures h.notifications == [Notify(0, caller, None, Some(Many(d0 + d1 + d2)))]
  {
    SecondOfTen(cmd, id, address, caller, d0, d1);
    var x1, c1 := Round(h, Success(Data(d1)));
    assert h.chunkBuffers[0] == [Data(d0), Data(d1)];
    FinishWithLastChunk(h, cmd, id, address, caller, d0, d1, d2);
  }

  /** The last chunk of a ten-register read whose first chunks returned `d0`
      and `d1`. */
  method FinishWithLastChunk(h: ModbusHandler, cmd: Command, id: int, address: int, caller: nat,
                             d0: seq<int>, d1: seq<int>, d2: seq<int>)
    requires IsRead(cmd) && |d0| == 4 && |d1| == 4 && |d2| == 2
    requires h.Valid() && h.isOpen && h.inFlight == [] && h.notifications == []
    requires h.chunkSizeWord == 4 && h.retryCount == 2
    requires h.messageBuffer == [MakeEntry(id, cmd, Args(address + 8, Num(2)), 1, 2, caller, 0, 4)]
    requires 0 in h.chunkBuffers && h.chunkBuffers[0] == [Data(d0), Data(d1)]
    modifies h
    ensures h.dispatched == old(h.dispatched) + [Dispatch(cmd, id, address + 8, Num(2))]
    ensures h.notifications == [Notify(0, caller, None, Some(Many(d0 + d1 + d2)))]
  {
    LastOfTen(cmd, id, address, caller, d0, d1, d2);
    var x2, c2 := Round(h, Success(Data(d2)));
    assert h.chunkBuffers[0] == [Data(d0), Data(d1), Data(d2)];
  }

  /** A read of ten registers with `chunkSizeWord = 4` goes out as three calls
      of 4, 4 and 2 at consecutive addresses, and the caller receives the ten
      values in order. */
  method ChunkedRead(cmd: Command, id: int, address: int, caller: nat, d0: seq<int>, d1: seq<int>, d2: seq<int>)
      returns (calls: seq<Dispatch>, notes: seq<Notification>)
    requires IsRead(cmd) && |d0| == 4 && |d1| == 4 && |d2| == 2
    ensures calls == [Dispatch(cmd, id, address, Num(4)),
                      Dispatch(cmd, id, address + 4, Num(4)),
                      Dispatch(cmd, id, address + 8, Num(2))]
    ensures notes == [Notify(0, caller, None, Some(Many(d0 + d1 + d2)))]
  {
    var h := Started(id, cmd, Args(address, Num(10)), caller);
    FirstOfTen(cmd, id, address, caller, d0);
    var x0, c0 := Round(h, Success(Data(d0)));
    assert h.chunkBuffers[0] == [Data(d0)];
    FinishTenRegisterRead(h, cmd, id, address, caller, d0, d1, d2);
    calls, notes := h.dispatched, h.notifications;
  }

  /** Polling the same registers twice before the first poll is sent queues
      one entry only. */
  method RepeatedPoll() returns (queue: seq<Entry>)
    ensures |queue| == 1 && queue[0].args == Args(0, Num(2)) && queue[0].request == 0
  {
    var h := new ModbusHandler();
    h.Send(1, ReadCoils, Args(0, Num(2)), None, None, 7);
    var e := MakeEntry(1, ReadCoils, Args(0, Num(2)), 1, 2, 7, 0, 4);
    OneQueued(e);
    h.Send(1, ReadCoils, Args(0, Num(2)), None, None, 8);
    OfferDeduplicates([e], MakeEntry(1, ReadCoils, Args(0, Num(2)), 1, 2, 8, 1, 4));
    queue := h.messageBuffer;
  }

  /** A priority-0 write queued after a priority-1 read is dispatched first;
      the read stays queued. */
  method UrgentWrite() returns (first: TickResult, queue: seq<Entry>)
    ensures first == Sent(Dispatch(WriteRegister, 1, 40, Num(9)))
    ensures |queue| == 1 && queue[0].command == ReadCoils
  {
    var h := Started(1, ReadCoils, Args(0, Num(2)), 7);
    var read := MakeEntry(1, ReadCoils, Args(0, Num(2)), 1, 2, 7, 0, 4);
    h.Send(1, WriteRegister, Args(40, Num(9)), Some(0), None, 8);
    var write := MakeEntry(1, WriteRegister, Args(40, Num(9)), 0, 2, 8, 1, 4);
    TwoQueued(read, write);
    assert h.messageBuffer == [read, write];
    assert h.isOpen;
    assert Capped(WriteRegister, Num(9), 4) == Some(Num(9));
    first := h.Tick();
    queue := h.messageBuffer;
  }

  /** A retry can be lost: while a read is outstanding, the same read from
      another caller is queued. When the first read fails, its retry is similar
      to the queued read and `send` drops it, so nothing of the first request
      is left and its caller is never called back. */
  method LostRetry(err: int) returns (queue: seq<Entry>, pending: seq<Entry>, notes: seq<Notification>)
    ensures |queue| == 1 && queue[0].request == 1 && queue[0].caller == 8
    ensures pending == [] && notes == []
  {
    var h := Started(1, ReadCoils, Args(0, Num(2)), 7);
    var first := MakeEntry(1, ReadCoils, Args(0, Num(2)), 1, 2, 7, 0, 4);
    OneQueued(first);
    assert Capped(ReadCoils, Num(2), 4) == Some(Num(2));
    var r := h.Tick();
    assert h.inFlight == [first];
    var second := MakeEntry(1, ReadCoils, Args(0, Num(2)), 1, 2, 8, 1, 4);
    h.Send(1, ReadCoils, Args(0, Num(2)), None, None, 8);
    OneQueued(second);
    var retry := MakeEntry(1, ReadCoils, Args(0, Num(2)), 1, 1, 7, 0, 4);
    assert Successor(first, Failure(err), 4, 2) == Some(retry);
    OfferDeduplicates([second], retry);
    assert second in [second] && Similar(second, retry);
    h.Complete(0, Failure(err));
    queue, pending, notes := h.messageBuffer, h.inFlight, h.notifications;
  }
}
