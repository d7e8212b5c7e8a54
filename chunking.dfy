/** The chunking engine: what `_modbusChunking` builds for a request, what
    `_modbusSendCommand` caps at dispatch, and what each continuation does
    when the transport completes. Everything here is a pure function; the
    handler class applies them to its state. */
module Chunking {
  import opened ModbusCommand
  import opened Requests

  /** The width written as the literal `4` in `slice(0, 4)` (dispatch of FC15/FC16
      and flattening of read data) and in `slice(4)` (the follow-up of a chunked
      multi-write). It does not follow `chunkSizeWord`. */
  const FixedSlice: nat := 4

  function Min(a: int, b: int): int
  {
    if a <= b then a else b
  }

  /** The number JavaScript compares in `arg > chunkSizeWord` and subtracts from
      in `arg - chunkSizeWord`: a number is itself, an empty array is 0, a
      one-element array is its element, a longer array is NaN (None). */
  function Quantity(a: Arg): (q: Option<int>)
    ensures q.Some? <==> a.Num? || |a.vs| <= 1
    ensures a.Num? ==> q == Some(a.n)
  {
    match a
    case Num(n) => Some(n)
    case Vals(vs) => if |vs| == 0 then Some(0) else if |vs| == 1 then Some(vs[0]) else None
  }

  /** `arg > chunkSizeWord`; any comparison with NaN is false. */
  predicate Exceeds(a: Arg, c: int): (b: bool)
    ensures a.Num? ==> (b <==> a.n > c)
    ensures a.Vals? && |a.vs| > 1 ==> !b
  {
    Quantity(a).Some? && Quantity(a).value > c
  }

  /** `vals.slice(4)` */
  function DropFixed(vs: seq<int>): seq<int>
  {
    if |vs| <= FixedSlice then [] else vs[FixedSlice..]
  }

  /** `vals.slice(0, 4)` */
  function TakeFixed(vs: seq<int>): seq<int>
  {
    vs[..Min(FixedSlice, |vs|)]
  }

  /** The continuation `_modbusChunking` attaches to a request: a read chunk
      when a read asks for more than `c` items, a write chunk when a
      multi-write carries an array longer than `c`, and the finalizer
      otherwise. Closures capture the budget the request was built with. */
  function Chunk(cmd: Command, args: Args, retry: int, c: int): (k: Continuation)
    ensures k.ReadChunk? <==> IsRead(cmd) && Exceeds(args.arg, c)
    ensures k.WriteChunk? <==> IsMultiWrite(cmd) && args.arg.Vals? && |args.arg.vs| > c
    ensures k.ReadChunk? ==> k.address == args.address && k.quantity > c && k.budget == retry
    ensures k.ReadChunk? ==> Some(k.quantity) == Quantity(args.arg)
    ensures k.WriteChunk? ==> k.address == args.address && k.values == args.arg.vs
    ensures k.Finalize? ==> k.budget == retry
  {
    if IsRead(cmd) && Exceeds(args.arg, c) then
      ReadChunk(args.address, Quantity(args.arg).value, retry)
    else if IsMultiWrite(cmd) && args.arg.Vals? && |args.arg.vs| > c then
      WriteChunk(args.address, args.arg.vs)
    else
      Finalize(retry)
  }

  /** The queue object `_modbusChunking` returns for a request. */
  function MakeEntry(id: int, cmd: Command, args: Args, priority: int, retry: int,
                     caller: nat, request: nat, c: int): (e: Entry)
    ensures Tracked(e, c)
    ensures e.id == id && e.command == cmd && e.args == args && e.priority == priority
    ensures e.retry == retry && e.caller == caller && e.request == request
  {
    Entry(id, cmd, args, priority, retry, caller, request, Chunk(cmd, args, retry, c))
  }

  /** The closure of `e` is the one chunking builds from its current fields. */
  predicate Tracked(e: Entry, c: int)
  {
    e.cont == Chunk(e.command, e.args, e.retry, c)
  }

  /** The argument `_modbusSendCommand` hands to the transport, or None when the
      capping itself throws (`.slice` of a number for FC15/FC16). */
  function Capped(cmd: Command, arg: Arg, c: int): (r: Option<Arg>)
    ensures r.None? <==> IsMultiWrite(cmd) && arg.Num?
    ensures IsSingleWrite(cmd) ==> r == Some(arg)
    ensures IsRead(cmd) && !Exceeds(arg, c) ==> r == Some(arg)
    ensures IsRead(cmd) && Quantity(arg).Some? ==>
              r.Some? && Quantity(r.value) == Some(Min(Quantity(arg).value, c))
    ensures IsMultiWrite(cmd) && arg.Vals? ==>
              r.Some? && r.value.Vals? && |r.value.vs| == Min(FixedSlice, |arg.vs|) && r.value.vs <= arg.vs
  {
    if IsRead(cmd) then
      (if Exceeds(arg, c) then Some(Num(c)) else Some(arg))
    else if IsMultiWrite(cmd) then
      (match arg
       case Vals(vs) => Some(Vals(TakeFixed(vs)))
       case Num(_) => None)
    else
      Some(arg)
  }

  /** The arguments of the next chunk a continuation sends after a success. */
  function FollowUp(k: Continuation, c: int): (a: Option<Args>)
    ensures a.None? <==> k.Finalize?
    ensures !k.Finalize? ==> a.Some? && a.value.address == k.address + c
    ensures k.ReadChunk? ==> a.Some? && a.value.arg.Num? && a.value.arg.n + c == k.quantity
    ensures k.WriteChunk? ==> a.Some? && a.value.arg.Vals? && TakeFixed(k.values) + a.value.arg.vs == k.values
  {
    match k
    case ReadChunk(address, quantity, _) => Some(Args(address + c, Num(quantity - c)))
    case WriteChunk(address, values) => Some(Args(address + c, Vals(DropFixed(values))))
    case Finalize(_) => None
  }

  /** One step of the `reduce` that flattens the chunk buffer. */
  function Piece(r: SubResult): (p: seq<int>)
    ensures |p| <= FixedSlice
    ensures r.Data? ==> |p| == Min(FixedSlice, |r.data|) && p <= r.data
    ensures r.Value? ==> p == [r.value]
  {
    match r
    case Data(d) => TakeFixed(d)
    case Value(v) => [v]
  }

  /** `_chunkBuffer.reduce(...)`: the concatenation, in order, of each
      buffered result's piece. */
  function Flatten(buf: seq<SubResult>): (f: seq<int>)
    ensures |f| <= FixedSlice * |buf|
  {
    if buf == [] then [] else Flatten(buf[..|buf| - 1]) + Piece(buf[|buf| - 1])
  }

  /** The values a payload stands for. */
  function Values(p: Payload): seq<int>
  {
    match p
    case Single(v) => [v]
    case Many(vs) => vs
  }

  /** The single-element unwrap before the caller's callback. */
  function Unwrap(s: seq<int>): (p: Payload)
    ensures Values(p) == s
    ensures p.Single? <==> |s| == 1
  {
    if |s| == 1 then Single(s[0]) else Many(s)
  }

  /** The entry the completion handler re-sends after an error (`send(msg)`
      with the decremented budget), if the budget is not exhausted. */
  function RetryEntry(msg: Entry, c: int): (r: Option<Entry>)
    ensures r.Some? <==> msg.retry >= 1
    ensures r.Some? ==> r.value.id == msg.id && r.value.command == msg.command && r.value.args == msg.args && r.value.retry == msg.retry - 1
    ensures r.Some? ==> r.value.priority == msg.priority && r.value.caller == msg.caller && r.value.request == msg.request
  {
    if msg.retry - 1 >= 0 then
      Some(MakeEntry(msg.id, msg.command, msg.args, msg.priority, msg.retry - 1, msg.caller, msg.request, c))
    else
      None
  }

  /** The next-chunk entry a continuation sends after a success; its budget is
      the handler's default `d`, because the closure does not pass one on. */
  function FollowUpEntry(msg: Entry, c: int, d: int): (r: Option<Entry>)
    ensures r.None? <==> msg.cont.Finalize?
    ensures r.Some? ==> r.value.id == msg.id && r.value.command == msg.command && r.value.retry == d
    ensures r.Some? ==> r.value.priority == msg.priority && r.value.caller == msg.caller && r.value.request == msg.request
    ensures r.Some? ==> Some(r.value.args) == FollowUp(msg.cont, c)
  {
    match FollowUp(msg.cont, c)
    case None => None
    case Some(next) => Some(MakeEntry(msg.id, msg.command, next, msg.priority, d, msg.caller, msg.request, c))
  }

  /** The one entry a completion offers to the queue, if any. */
  function Successor(msg: Entry, outcome: Outcome, c: int, d: int): (r: Option<Entry>)
    ensures r.Some? ==> r.value.request == msg.request && r.value.caller == msg.caller && r.value.id == msg.id
  {
    if outcome.Failure? then RetryEntry(msg, c) else FollowUpEntry(msg, c, d)
  }

  /** The caller notification a continuation makes, given the chunk buffer
      after the success (if any) was pushed onto it. */
  function Report(msg: Entry, outcome: Outcome, buffer: seq<SubResult>): (n: Option<Notification>)
    ensures msg.cont.WriteChunk? ==> n.None?
    ensures outcome.Success? ==> (n.Some? <==> msg.cont.Finalize?)
    ensures n.Some? ==> n.value.request == msg.request && n.value.caller == msg.caller
    ensures n.Some? ==> (n.value.error.Some? <==> outcome.Failure?) && (n.value.result.Some? <==> outcome.Success?)
    ensures n.Some? && outcome.Failure? ==> n.value.error == Some(outcome.error)
    ensures n.Some? && outcome.Success? ==> Values(n.value.result.value) == Flatten(buffer)
  {
    match msg.cont
    case ReadChunk(_, _, budget) =>
      if outcome.Failure? && budget == 0 then Some(Notify(msg.request, msg.caller, Some(outcome.error), None))
      else None
    case WriteChunk(_, _) => None
    case Finalize(budget) =>
      match outcome
      case Success(_) => Some(Notify(msg.request, msg.caller, None, Some(Unwrap(Flatten(buffer)))))
      case Failure(err) =>
        if budget == 0 then Some(Notify(msg.request, msg.caller, Some(err), None)) else None
  }

  /** A completion never both re-queues its request and notifies the caller,
      and it notifies only at a terminal point: a success of the last chunk,
      or an error when the budget is used up. */
  lemma SuccessorOrReport(msg: Entry, outcome: Outcome, c: int, d: int, buffer: seq<SubResult>)
    requires Tracked(msg, c)
    ensures Successor(msg, outcome, c, d).None? || Report(msg, outcome, buffer).None?
    ensures Report(msg, outcome, buffer).Some? <==>
              (outcome.Success? && msg.cont.Finalize?) ||
              (outcome.Failure? && msg.retry == 0 && !msg.cont.WriteChunk?)
    ensures Successor(msg, outcome, c, d).Some? <==>
              (outcome.Failure? && msg.retry >= 1) || (outcome.Success? && !msg.cont.Finalize?)
  {
  }

  /** Entries dispatched for one sub-request that fails on every attempt: the
      entry itself, then each re-sent copy, until the budget is used up. */
  function FailChain(msg: Entry, c: int): (chain: seq<Entry>)
    decreases if msg.retry < 0 then 0 else msg.retry + 1
  {
    match RetryEntry(msg, c)
    case None => [msg]
    case Some(e) => [msg] + FailChain(e, c)
  }

  /** Retry accounting: with stored budget r >= 0 a sub-request that always
      fails is dispatched r + 1 times (the constructor's `retryCount`), each
      copy one budget lower, and only the last attempt reaches the caller,
      with the error, unless the sub-request is a chunk of a multi-write. */
  lemma {:induction false} AlwaysFailing(msg: Entry, c: int, err: int, buffer: seq<SubResult>)
    requires Tracked(msg, c) && msg.retry >= 0
    ensures |FailChain(msg, c)| == msg.retry + 1
    ensures forall k :: 0 <= k < |FailChain(msg, c)| ==>
              var e := FailChain(msg, c)[k];
              e.retry == msg.retry - k && Similar(e, msg) && e.priority == msg.priority &&
              e.caller == msg.caller && e.request == msg.request && Tracked(e, c)
    ensures forall k :: 0 <= k < |FailChain(msg, c)| - 1 ==>
              Report(FailChain(msg, c)[k], Failure(err), buffer).None?
    ensures Report(FailChain(msg, c)[msg.retry], Failure(err), buffer) ==
              if msg.cont.WriteChunk? then None else Some(Notify(msg.request, msg.caller, Some(err), None))
    decreases msg.retry
  {
    var chain := FailChain(msg, c);
    if msg.retry == 0 {
      assert chain == [msg];
    } else {
      var e := RetryEntry(msg, c).value;
      AlwaysFailing(e, c, err, buffer);
      assert chain == [msg] + FailChain(e, c);
      assert e.cont.WriteChunk? == msg.cont.WriteChunk?;
      forall k | 0 <= k < |chain|
        ensures var x := chain[k];
          x.retry == msg.retry - k && Similar(x, msg) && x.priority == msg.priority &&
          x.caller == msg.caller && x.request == msg.request && Tracked(x, c)
      {
        if k > 0 { assert chain[k] == FailChain(e, c)[k - 1]; }
      }
      forall k | 0 <= k < |chain| - 1
        ensures Report(chain[k], Failure(err), buffer).None?
      {
        if k > 0 { assert chain[k] == FailChain(e, c)[k - 1]; }
      }
      assert chain[msg.retry] == FailChain(e, c)[e.retry];
    }
  }

  /** Measure for the read plan: the quantity still to read. */
  function ReadMeasure(a: Arg): nat
  {
    match Quantity(a)
    case Some(n) => if n > 0 then n else 0
    case None => 0
  }

  /** The transport calls of a read whose every chunk succeeds at once: the
      capped first chunk, then the calls of its follow-up. */
  function ReadCalls(cmd: Command, args: Args, c: int): seq<Args>
    requires IsRead(cmd) && c > 0
    decreases ReadMeasure(args.arg)
  {
    var call := Args(args.address, Capped(cmd, args.arg, c).value);
    match FollowUp(Chunk(cmd, args, 0, c), c)
    case None => [call]
    case Some(next) => [call] + ReadCalls(cmd, next, c)
  }

  /** With `chunkSizeWord` 0 a read of more than 0 items is a read chunk whose
      follow-up asks for the same items at the same address again, so the
      request never reaches its last chunk. */
  lemma ZeroChunkRepeats(cmd: Command, a: int, q: int, budget: int)
    requires IsRead(cmd) && q > 0
    ensures Chunk(cmd, Args(a, Num(q)), budget, 0).ReadChunk?
    ensures FollowUp(Chunk(cmd, Args(a, Num(q)), budget, 0), 0) == Some(Args(a, Num(q)))
  {
  }

  /** One step of read chunking: a read of at most `c` items goes out in one
      call; a larger one asks for `c` items at the address, followed by the
      calls for the rest `c` addresses further on. */
  lemma ReadStep(cmd: Command, a: int, q: int, c: int)
    requires IsRead(cmd) && c > 0
    ensures q <= c ==> ReadCalls(cmd, Args(a, Num(q)), c) == [Args(a, Num(q))]
    ensures q > c ==>
              ReadCalls(cmd, Args(a, Num(q)), c) == [Args(a, Num(c))] + ReadCalls(cmd, Args(a + c, Num(q - c)), c)
  {
    if q <= c {
      assert Chunk(cmd, Args(a, Num(q)), 0, c) == Finalize(0);
    } else {
      assert Chunk(cmd, Args(a, Num(q)), 0, c) == ReadChunk(a, q, 0);
    }
  }

  /** Read chunking: a read of q >= 1 items at address a issues ceil(q / c)
      calls, call k at address a + k*c asking for min(c, q - k*c) items. */
  lemma {:induction false} ReadPlan(cmd: Command, a: int, q: int, c: int)
    requires IsRead(cmd) && c > 0 && q >= 1
    ensures var calls := ReadCalls(cmd, Args(a, Num(q)), c);
      (|calls| - 1) * c < q <= |calls| * c &&
      forall k :: 0 <= k < |calls| ==> calls[k] == Args(a + k * c, Num(Min(c, q - k * c)))
    decreases q
  {
    var calls := ReadCalls(cmd, Args(a, Num(q)), c);
    ReadStep(cmd, a, q, c);
    if q > c {
      var rest := ReadCalls(cmd, Args(a + c, Num(q - c)), c);
      ReadPlan(cmd, a + c, q - c, c);
      assert (|rest| - 1) * c + c == |calls| * c - c;
      forall k | 0 <= k < |calls|
        ensures calls[k] == Args(a + k * c, Num(Min(c, q - k * c)))
      {
        if k > 0 {
          assert calls[k] == rest[k - 1];
          assert (k - 1) * c + c == k * c;
        }
      }
    }
  }

  /** The values of a sequence of data results, concatenated. */
  function Concat(ds: seq<seq<int>>): seq<int>
  {
    if ds == [] then [] else Concat(ds[..|ds| - 1]) + ds[|ds| - 1]
  }

  /** The buffer of data results of a chunked read. */
  function DataResults(ds: seq<seq<int>>): (buf: seq<SubResult>)
    ensures |buf| == |ds|
    ensures forall k :: 0 <= k < |ds| ==> buf[k] == Data(ds[k])
  {
    if ds == [] then [] else DataResults(ds[..|ds| - 1]) + [Data(ds[|ds| - 1])]
  }

  /** Reassembly: when no chunk returns more than four items (so when
      `chunkSizeWord` <= 4), the flattened buffer is exactly the chunks'
      data in order. */
  lemma {:induction false} FlattenData(ds: seq<seq<int>>)
    requires forall k :: 0 <= k < |ds| ==> |ds[k]| <= FixedSlice
    ensures Flatten(DataResults(ds)) == Concat(ds)
  {
    if ds != [] {
      var buf := DataResults(ds);
      FlattenData(ds[..|ds| - 1]);
      assert buf[..|buf| - 1] == DataResults(ds[..|ds| - 1]);
    }
  }

  /** Flattening distributes over the order in which results were pushed. */
  lemma {:induction false} FlattenAppend(a: seq<SubResult>, b: seq<SubResult>)
    ensures Flatten(a + b) == Flatten(a) + Flatten(b)
    decreases |b|
  {
    if b != [] {
      var b' := b[..|b| - 1];
      assert (a + b)[..|a + b| - 1] == a + b';
      FlattenAppend(a, b');
    } else {
      assert a + b == a;
    }
  }

  /** The calls of a multi-write whose every chunk succeeds at once. */
  function WriteCalls(cmd: Command, args: Args, c: int): seq<Args>
    requires IsMultiWrite(cmd) && c >= 0 && args.arg.Vals?
    decreases |args.arg.vs|
  {
    var call := Args(args.address, Capped(cmd, args.arg, c).value);
    match FollowUp(Chunk(cmd, args, 0, c), c)
    case None => [call]
    case Some(next) => [call] + WriteCalls(cmd, next, c)
  }

  /** The values written by a list of multi-write calls, concatenated. */
  function WrittenValues(calls: seq<Args>): seq<int>
  {
    if calls == [] then [] else
      (if calls[0].arg.Vals? then calls[0].arg.vs else []) + WrittenValues(calls[1..])
  }

  /** One step of a multi-write with `chunkSizeWord` == 4: at most four values
      go out in one call; more go out as the first four at the address,
      followed by the calls for the rest four addresses further on. */
  lemma WriteStep(cmd: Command, a: int, vs: seq<int>)
    requires IsMultiWrite(cmd)
    ensures |vs| <= FixedSlice ==> WriteCalls(cmd, Args(a, Vals(vs)), FixedSlice) == [Args(a, Vals(vs))]
    ensures |vs| > FixedSlice ==>
              WriteCalls(cmd, Args(a, Vals(vs)), FixedSlice) ==
              [Args(a, Vals(vs[..FixedSlice]))] + WriteCalls(cmd, Args(a + FixedSlice, Vals(vs[FixedSlice..])), FixedSlice)
  {
    if |vs| <= FixedSlice {
      assert Chunk(cmd, Args(a, Vals(vs)), 0, FixedSlice) == Finalize(0);
      assert TakeFixed(vs) == vs;
    } else {
      assert Chunk(cmd, Args(a, Vals(vs)), 0, FixedSlice) == WriteChunk(a, vs);
    }
  }

  /** With `chunkSizeWord` == 4 the write chunks tile the request: each call
      starts where the previous one's values end, and together they write
      exactly the requested values, in order. */
  lemma {:induction false} WritePlanTiles(cmd: Command, a: int, vs: seq<int>)
    requires IsMultiWrite(cmd)
    ensures var calls := WriteCalls(cmd, Args(a, Vals(vs)), FixedSlice);
      calls[0].address == a &&
      (forall k :: 0 <= k < |calls| ==> calls[k].arg.Vals?) &&
      (forall k :: 0 <= k < |calls| - 1 ==> calls[k + 1].address == calls[k].address + |calls[k].arg.vs|) &&
      WrittenValues(calls) == vs
    decreases |vs|
  {
    var calls := WriteCalls(cmd, Args(a, Vals(vs)), FixedSlice);
    WriteStep(cmd, a, vs);
    if |vs| <= FixedSlice {
      assert WrittenValues(calls) == vs + WrittenValues([]);
    } else {
      var rest := WriteCalls(cmd, Args(a + FixedSlice, Vals(vs[FixedSlice..])), FixedSlice);
      WritePlanTiles(cmd, a + FixedSlice, vs[FixedSlice..]);
      assert calls[1..] == rest;
      assert vs == vs[..FixedSlice] + vs[FixedSlice..];
      forall k | 0 <= k < |calls| - 1
        ensures calls[k + 1].address == calls[k].address + |calls[k].arg.vs|
      {
        if k > 0 { assert calls[k] == rest[k - 1] && calls[k + 1] == rest[k]; }
      }
    }
  }

  /** With any other `chunkSizeWord` the address advances by the chunk size
      while the values advance by four: with chunk size 2, six values at
      address 0 are written as [v0..v3] at 0 and then [v4, v5] at 2, so
      registers 2 and 3 end with v4 and v5 and registers 4 and 5 are never
      written. */
  lemma WritePlanMisplaced()
    ensures WriteCalls(WriteRegisters, Args(0, Vals([10, 11, 12, 13, 14, 15])), 2) ==
              [Args(0, Vals([10, 11, 12, 13])), Args(2, Vals([14, 15]))]
  {
    var vs := [10, 11, 12, 13, 14, 15];
    assert DropFixed(vs) == [14, 15];
    assert TakeFixed(vs) == [10, 11, 12, 13];
    assert TakeFixed([14, 15]) == [14, 15];
    assert WriteCalls(WriteRegisters, Args(2, Vals([14, 15])), 2) == [Args(2, Vals([14, 15]))];
  }
}
