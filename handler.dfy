/** `ModbusHandler` (the request scheduler) and `ModbusDevice` (its
    per-device facade). The transport is not modelled: a tick records the call
    it would make and keeps the entry in `inFlight` until `Complete` is driven
    with the transport's outcome. */
module Handler {
  import opened ModbusCommand
  import opened Requests
  import opened Chunking
  import opened QueueOrder

  /** Defaults of the constructor and of `send`. */
  const DefaultRetryCount: int := 3
  const DefaultChunkSizeWord: int := 4
  const DefaultPriority: int := 1

  /** `modbusPriority = 1` when the caller passes none. */
  function PriorityOrDefault(p: Option<int>): (v: int)
    ensures p.Some? ==> v == p.value
    ensures p.None? ==> v == 1
  {
    match p
    case Some(v) => v
    case None => DefaultPriority
  }

  /** `modbusRetryCount = this.retryCount` when the caller passes none. */
  function RetryOrDefault(r: Option<int>, d: int): (v: int)
    ensures r.Some? ==> v == r.value
    ensures r.None? ==> v == d
  {
    match r
    case Some(v) => v
    case None => d
  }

  /** The de-duplication filter of `send`: the queued entries similar to `e`. */
  function SimilarEntries(q: seq<Entry>, e: Entry): (r: seq<Entry>)
    ensures forall x | x in r :: x in q && Similar(x, e)
    ensures |r| == 0 <==> forall x | x in q :: !Similar(x, e)
  {
    if q == [] then []
    else
      var init, last := q[..|q| - 1], q[|q| - 1];
      assert q == init + [last];
      SimilarEntries(init, e) + (if Similar(last, e) then [last] else [])
  }

  /** The queue after `send` offers it `e`: unchanged when a similar entry is
      already queued, `e` appended otherwise. */
  function Offer(q: seq<Entry>, e: Option<Entry>): (r: seq<Entry>)
    ensures r == q || (e.Some? && r == q + [e.value])
  {
    match e
    case None => q
    case Some(x) => if |SimilarEntries(q, x)| == 0 then q + [x] else q
  }

  /** De-duplication: a request similar to a queued one leaves the queue as it
      is; any other request is appended at the end and nothing else changes;
      either way the queue stays free of similar pairs. */
  lemma OfferDeduplicates(q: seq<Entry>, x: Entry)
    ensures (exists y :: y in q && Similar(y, x)) ==> Offer(q, Some(x)) == q
    ensures (forall y | y in q :: !Similar(y, x)) ==> Offer(q, Some(x)) == q + [x]
    ensures Distinct(q) ==> Distinct(Offer(q, Some(x)))
  {
    if Distinct(q) && |SimilarEntries(q, x)| == 0 {
      var r := q + [x];
      forall i, j | 0 <= i < j < |r| ensures !Similar(r[i], r[j]) {
        if j == |q| { assert r[i] in q; }
      }
    }
  }

  /** The number of notifications that belong to logical request `b`. */
  function Notes(log: seq<Notification>, b: nat): nat
  {
    if log == [] then 0
    else Notes(log[..|log| - 1], b) + (if log[|log| - 1].request == b then 1 else 0)
  }

  function AsSeq<T>(o: Option<T>): seq<T>
  {
    match o
    case None => []
    case Some(v) => [v]
  }

  lemma NotesSnoc(log: seq<Notification>, n: Notification, b: nat)
    ensures Notes(log + [n], b) == Notes(log, b) + (if n.request == b then 1 else 0)
  {
    assert (log + [n])[..|log|] == log;
  }

  lemma {:induction false} NotesNone(log: seq<Notification>, b: nat)
    requires forall n | n in log :: n.request != b
    ensures Notes(log, b) == 0
  {
    if log != [] { NotesNone(log[..|log| - 1], b); }
  }

  lemma CountSnoc(q: seq<Entry>, e: Entry, b: nat)
    ensures Count(q + [e], b) == Count(q, b) + (if e.request == b then 1 else 0)
  {
    assert (q + [e])[..|q|] == q;
  }

  lemma CountRemove(q: seq<Entry>, k: nat, b: nat)
    requires k < |q|
    ensures Count(RemoveAt(q, k), b) + (if q[k].request == b then 1 else 0) == Count(q, b)
  {
    SplitAt(q, k);
    CountAppend(q[..k] + [q[k]], q[k + 1..], b);
    CountAppend(q[..k], q[k + 1..], b);
    CountSnoc(q[..k], q[k], b);
  }

  lemma CountHead(s: seq<Entry>, b: nat)
    requires s != []
    ensures Count(s[1..], b) + (if s[0].request == b then 1 else 0) == Count(s, b)
  {
    assert s == [s[0]] + s[1..];
    CountAppend([s[0]], s[1..], b);
    assert [s[0]] == [] + [s[0]];
    CountSnoc([], s[0], b);
  }

  lemma {:induction false} NotesZero(log: seq<Notification>, b: nat)
    requires Notes(log, b) == 0
    ensures forall n | n in log :: n.request != b
  {
    if log != [] {
      NotesZero(log[..|log| - 1], b);
      assert log == log[..|log| - 1] + [log[|log| - 1]];
    }
  }

  /** A log with at most one notification per request never names a request
      twice. */
  lemma {:induction false} NotesDistinct(log: seq<Notification>)
    requires forall b: nat :: Notes(log, b) <= 1
    ensures forall i, j | 0 <= i < j < |log| :: log[i].request != log[j].request
  {
    if log != [] {
      var init, last := log[..|log| - 1], log[|log| - 1];
      forall b: nat ensures Notes(init, b) <= 1 {
        assert Notes(init, b) <= Notes(log, b);
      }
      NotesDistinct(init);
      assert Notes(init, last.request) == 0 by {
        assert Notes(log, last.request) == Notes(init, last.request) + 1;
      }
      NotesZero(init, last.request);
      forall i, j | 0 <= i < j < |log| ensures log[i].request != log[j].request {
        if j < |log| - 1 {
          assert log[i] == init[i] && log[j] == init[j];
        } else {
          assert log[i] in init;
        }
      }
    }
  }

  /** The entry's closure is the one chunking builds from its fields, and its
      chunk buffer exists. */
  ghost predicate Known(e: Entry, buffers: map<nat, seq<SubResult>>, next: nat, c: int)
  {
    Tracked(e, c) && e.request in buffers && e.request < next
  }

  /** Logical request `b` has nothing queued or outstanding and has not been
      reported to its caller. */
  predicate Free(queue: seq<Entry>, pending: seq<Entry>, log: seq<Notification>, b: nat)
  {
    Count(queue, b) + Count(pending, b) + Notes(log, b) == 0
  }

  /** The scheduler's invariant over its fields: every queued or outstanding
      entry is well formed, no two queued entries are similar, and each
      logical request has at most one entry queued or outstanding, and none
      once its caller has been notified, who is notified at most once. */
  ghost predicate Inv(queue: seq<Entry>, pending: seq<Entry>, log: seq<Notification>,
                      buffers: map<nat, seq<SubResult>>, next: nat, c: int)
  {
    && (forall e | e in queue :: Known(e, buffers, next, c))
    && (forall e | e in pending :: Known(e, buffers, next, c))
    && (forall n | n in log :: n.request < next)
    && Distinct(queue)
    && (forall b: nat :: Count(queue, b) + Count(pending, b) + Notes(log, b) <= 1)
  }

  /** The caller of a logical request is notified at most once: no two
      notifications of a log that satisfies the invariant belong to the same
      request, and a notified request has nothing left queued or outstanding. */
  lemma CallbackAtMostOnce(queue: seq<Entry>, pending: seq<Entry>, log: seq<Notification>,
                           buffers: map<nat, seq<SubResult>>, next: nat, c: int)
    requires Inv(queue, pending, log, buffers, next, c)
    ensures forall i, j | 0 <= i < j < |log| :: log[i].request != log[j].request
    ensures forall n | n in log :: Count(queue, n.request) == 0 && Count(pending, n.request) == 0
  {
    NotesDistinct(log);
    forall n | n in log ensures Count(queue, n.request) == 0 && Count(pending, n.request) == 0 {
      NotesMember(log, n);
    }
  }

  lemma {:induction false} NotesMember(log: seq<Notification>, n: Notification)
    requires n in log
    ensures Notes(log, n.request) >= 1
  {
    var init, last := log[..|log| - 1], log[|log| - 1];
    assert log == init + [last];
    if last != n {
      NotesMember(init, n);
    }
  }

  /** A new logical request gets a fresh chunk buffer and is free. */
  lemma InvFresh(queue: seq<Entry>, pending: seq<Entry>, log: seq<Notification>,
                 buffers: map<nat, seq<SubResult>>, next: nat, c: int)
    requires Inv(queue, pending, log, buffers, next, c)
    ensures Inv(queue, pending, log, buffers[next := []], next + 1, c)
    ensures Free(queue, pending, log, next)
  {
    CountNone(queue, next);
    CountNone(pending, next);
    NotesNone(log, next);
  }

  /** Offering a well-formed entry of a free request keeps the invariant. */
  lemma InvOffer(queue: seq<Entry>, pending: seq<Entry>, log: seq<Notification>,
                 buffers: map<nat, seq<SubResult>>, next: nat, c: int, e: Entry)
    requires Inv(queue, pending, log, buffers, next, c)
    requires Known(e, buffers, next, c) && Free(queue, pending, log, e.request)
    ensures Inv(Offer(queue, Some(e)), pending, log, buffers, next, c)
  {
    OfferDeduplicates(queue, e);
    if |SimilarEntries(queue, e)| == 0 {
      forall b: nat ensures Count(queue + [e], b) == Count(queue, b) + (if e.request == b then 1 else 0) {
        CountSnoc(queue, e, b);
      }
    }
  }

  /** Notifying the caller of a free request keeps the invariant. */
  lemma InvNotify(queue: seq<Entry>, pending: seq<Entry>, log: seq<Notification>,
                  buffers: map<nat, seq<SubResult>>, next: nat, c: int, n: Notification)
    requires Inv(queue, pending, log, buffers, next, c)
    requires n.request < next && Free(queue, pending, log, n.request)
    ensures Inv(queue, pending, log + [n], buffers, next, c)
  {
    forall b: nat ensures Notes(log + [n], b) == Notes(log, b) + (if n.request == b then 1 else 0) {
      NotesSnoc(log, n, b);
    }
  }

  /** Pushing onto an existing chunk buffer keeps the invariant. */
  lemma InvPush(queue: seq<Entry>, pending: seq<Entry>, log: seq<Notification>,
                buffers: map<nat, seq<SubResult>>, next: nat, c: int, r: nat, v: seq<SubResult>)
    requires Inv(queue, pending, log, buffers, next, c) && r in buffers
    ensures Inv(queue, pending, log, buffers[r := v], next, c)
  {
  }

  /** Taking the head of the sorted queue, and either keeping it outstanding
      or dropping it, keeps the invariant. */
  lemma InvTick(queue: seq<Entry>, pending: seq<Entry>, log: seq<Notification>,
                buffers: map<nat, seq<SubResult>>, next: nat, c: int)
    requires Inv(queue, pending, log, buffers, next, c) && queue != []
    ensures var s := StableSort(queue);
      Inv(s[1..], pending + [s[0]], log, buffers, next, c) &&
      Inv(s[1..], pending, log, buffers, next, c)
  {
    var s := StableSort(queue);
    HeadPriority(queue);
    SortPermutes(queue);
    StableSortDistinct(queue);
    var msg := s[0];
    assert msg in queue by { assert msg in multiset(queue); }
    forall e | e in s[1..] ensures Known(e, buffers, next, c) {
      assert e in multiset(queue);
    }
    forall b: nat ensures Count(s[1..], b) + (if msg.request == b then 1 else 0) == Count(queue, b) {
      CountHead(s, b);
      SortKeepsCount(queue, b);
    }
    forall b: nat ensures Count(pending + [msg], b) == Count(pending, b) + (if msg.request == b then 1 else 0) {
      CountSnoc(pending, msg, b);
    }
    assert Distinct(s[1..]) by {
      forall i, j | 0 <= i < j < |s| - 1 ensures !Similar(s[1..][i], s[1..][j]) {
        assert s[1..][i] == s[i + 1] && s[1..][j] == s[j + 1];
      }
    }
  }

  /** Running the completion of the `i`-th outstanding entry takes it out and
      leaves its request free. */
  lemma InvComplete(queue: seq<Entry>, pending: seq<Entry>, log: seq<Notification>,
                    buffers: map<nat, seq<SubResult>>, next: nat, c: int, i: nat)
    requires Inv(queue, pending, log, buffers, next, c) && i < |pending|
    ensures Inv(queue, RemoveAt(pending, i), log, buffers, next, c)
    ensures Free(queue, RemoveAt(pending, i), log, pending[i].request)
  {
    forall b: nat ensures Count(RemoveAt(pending, i), b) + (if pending[i].request == b then 1 else 0) == Count(pending, b) {
      CountRemove(pending, i, b);
    }
    forall e | e in RemoveAt(pending, i) ensures e in pending {
      SplitAt(pending, i);
    }
    assert Count(queue, pending[i].request) + Count(pending, pending[i].request) + Notes(log, pending[i].request) <= 1;
  }

  class ModbusHandler {
    /** The stored retry budget: the constructor's `retryCount` minus one. */
    const retryCount: int
    const chunkSizeWord: int

    /** The pending queue. */
    var messageBuffer: seq<Entry>
    var isOpen: bool
    /** The `_chunkBuffer` arrays, by logical request. */
    var chunkBuffers: map<nat, seq<SubResult>>
    /** The logical request the next top-level `send` creates. */
    var nextRequest: nat
    /** Entries dispatched whose completion handler has not run yet. */
    var inFlight: seq<Entry>
    /** Every call made into the transport, in order. */
    var dispatched: seq<Dispatch>
    /** Every invocation of a caller's callback, in order. */
    var notifications: seq<Notification>

    ghost predicate Valid()
      reads this
    {
      Inv(messageBuffer, inFlight, notifications, chunkBuffers, nextRequest, chunkSizeWord)
    }

    constructor (retryCount: int := DefaultRetryCount, chunkSizeWord: int := DefaultChunkSizeWord)
      ensures Valid()
      ensures this.retryCount == retryCount - 1 && this.chunkSizeWord == chunkSizeWord
      ensures messageBuffer == [] && !isOpen && inFlight == [] && dispatched == [] && notifications == []
      ensures chunkBuffers == map[] && nextRequest == 0
    {
      this.retryCount := retryCount - 1;
      this.chunkSizeWord := chunkSizeWord;
      messageBuffer := [];
      isOpen := false;
      chunkBuffers := map[];
      nextRequest := 0;
      inFlight := [];
      dispatched := [];
      notifications := [];
    }

    /** The connection reported it is open: the dispatch timer starts. */
    method Open()
      requires Valid()
      modifies this`isOpen
      ensures Valid() && isOpen
    {
      isOpen := true;
    }

    /** `close`: the flag drops and the dispatch timer stops. */
    method Close()
      requires Valid()
      modifies this`isOpen
      ensures Valid() && !isOpen
    {
      isOpen := false;
    }

    /** `send` with every field given: chunk the request, then queue it unless a
        similar entry is already queued. */
    method Enqueue(id: int, command: Command, args: Args, priority: int, retry: int, caller: nat, request: nat)
      requires Valid() && request in chunkBuffers && request < nextRequest
      requires Free(messageBuffer, inFlight, notifications, request)
      modifies this`messageBuffer
      ensures Valid()
      ensures messageBuffer ==
                Offer(old(messageBuffer), Some(MakeEntry(id, command, args, priority, retry, caller, request, chunkSizeWord)))
    {
      var chunks := MakeEntry(id, command, args, priority, retry, caller, request, chunkSizeWord);
      InvOffer(messageBuffer, inFlight, notifications, chunkBuffers, nextRequest, chunkSizeWord, chunks);
      var similar := SimilarEntries(messageBuffer, chunks);
      if |similar| == 0 {
        messageBuffer := messageBuffer + [chunks];
      }
    }

    /** `send` as callers use it: priority 1 unless given, the handler's retry
        budget unless given, and a fresh chunk buffer for a new logical request. */
    method Send(id: int, command: Command, args: Args, priority: Option<int>, retry: Option<int>, caller: nat)
      requires Valid()
      modifies this
      ensures Valid()
      ensures nextRequest == old(nextRequest) + 1
      ensures chunkBuffers == old(chunkBuffers)[old(nextRequest) := []]
      ensures messageBuffer == Offer(old(messageBuffer),
                Some(MakeEntry(id, command, args, PriorityOrDefault(priority), RetryOrDefault(retry, retryCount), caller, old(nextRequest), chunkSizeWord)))
      ensures inFlight == old(inFlight) && dispatched == old(dispatched) && notifications == old(notifications)
      ensures isOpen == old(isOpen)
    {
      var request := nextRequest;
      InvFresh(messageBuffer, inFlight, notifications, chunkBuffers, nextRequest, chunkSizeWord);
      chunkBuffers := chunkBuffers[request := []];
      nextRequest := nextRequest + 1;
      Enqueue(id, command, args, PriorityOrDefault(priority), RetryOrDefault(retry, retryCount), caller, request);
    }

    /** `_modbusSend`, one timer tick while the connection is open: sort the
        queue by priority, take its head and hand it to the transport with its
        argument capped. */
    method Tick() returns (result: TickResult)
      requires Valid()
      modifies this
      ensures Valid()
      ensures !old(isOpen) || old(messageBuffer) == [] ==>
                result == Idle && messageBuffer == old(messageBuffer) &&
                inFlight == old(inFlight) && dispatched == old(dispatched)
      ensures old(isOpen) && old(messageBuffer) != [] ==>
                var msg := old(messageBuffer)[FirstMinimum(old(messageBuffer))];
                && messageBuffer == StableSort(old(messageBuffer))[1..]
                && match Capped(msg.command, msg.args.arg, chunkSizeWord)
                   case Some(arg) =>
                     result == Sent(Dispatch(msg.command, msg.id, msg.args.address, arg)) &&
                     inFlight == old(inFlight) + [msg] && dispatched == old(dispatched) + [result.call]
                   case None =>
                     result == Threw(msg) && inFlight == old(inFlight) && dispatched == old(dispatched)
      ensures notifications == old(notifications) && chunkBuffers == old(chunkBuffers)
      ensures nextRequest == old(nextRequest) && isOpen == old(isOpen)
    {
      if !isOpen || messageBuffer == [] {
        return Idle;
      }
      var sorted := StableSort(messageBuffer);
      DispatchHead(messageBuffer);
      InvTick(messageBuffer, inFlight, notifications, chunkBuffers, nextRequest, chunkSizeWord);
      var msg := sorted[0];
      messageBuffer := sorted[1..];
      match Capped(msg.command, msg.args.arg, chunkSizeWord)
      case Some(arg) =>
        inFlight := inFlight + [msg];
        var call := Dispatch(msg.command, msg.id, msg.args.address, arg);
        dispatched := dispatched + [call];
        result := Sent(call);
      case None =>
        result := Threw(msg);
    }

    /** `_handleChunkCallback` for the `i`-th outstanding call: on an error,
        decrement the entry's budget and re-send it while the budget is not
        negative; then run the entry's continuation. */
    method Complete(i: nat, outcome: Outcome)
      requires Valid() && i < |inFlight|
      modifies this
      ensures Valid()
      ensures var msg := old(inFlight[i]);
              && msg.request in old(chunkBuffers)
              && var buffer := old(chunkBuffers)[msg.request] + (if outcome.Success? then [outcome.result] else []);
              && inFlight == RemoveAt(old(inFlight), i)
              && chunkBuffers == old(chunkBuffers)[msg.request := buffer]
              && messageBuffer == Offer(old(messageBuffer), Successor(msg, outcome, chunkSizeWord, retryCount))
              && notifications == old(notifications) + AsSeq(Report(msg, outcome, buffer))
      ensures dispatched == old(dispatched) && nextRequest == old(nextRequest) && isOpen == old(isOpen)
    {
      var msg := inFlight[i];
      assert msg in inFlight;
      InvComplete(messageBuffer, inFlight, notifications, chunkBuffers, nextRequest, chunkSizeWord, i);
      inFlight := RemoveAt(inFlight, i);
      Retry(msg, outcome);
      Resume(msg, outcome);
    }

    /** The error path of `_handleChunkCallback`: the entry's budget drops by
        one and, while it is not negative, the entry is sent again. */
    method Retry(msg: Entry, outcome: Outcome)
      requires Valid() && Known(msg, chunkBuffers, nextRequest, chunkSizeWord)
      requires Free(messageBuffer, inFlight, notifications, msg.request)
      modifies this`messageBuffer
      ensures Valid()
      ensures messageBuffer == Offer(old(messageBuffer), if outcome.Failure? then Successor(msg, outcome, chunkSizeWord, retryCount) else None)
      ensures !(outcome.Failure? && msg.retry >= 1) ==> Free(messageBuffer, inFlight, notifications, msg.request)
    {
      if outcome.Failure? && msg.retry - 1 >= 0 {
        assert Successor(msg, outcome, chunkSizeWord, retryCount) ==
                 Some(MakeEntry(msg.id, msg.command, msg.args, msg.priority, msg.retry - 1, msg.caller, msg.request, chunkSizeWord));
        Enqueue(msg.id, msg.command, msg.args, msg.priority, msg.retry - 1, msg.caller, msg.request);
      } else {
        assert outcome.Failure? ==> Successor(msg, outcome, chunkSizeWord, retryCount) == None;
      }
    }

    /** The continuation `_chunkCallback` of `msg`, run with the outcome. The
        request is still pending only when the error path re-sent it. */
    method Resume(msg: Entry, outcome: Outcome)
      requires Valid() && Known(msg, chunkBuffers, nextRequest, chunkSizeWord)
      requires !(outcome.Failure? && msg.retry >= 1) ==> Free(messageBuffer, inFlight, notifications, msg.request)
      modifies this`chunkBuffers, this`messageBuffer, this`notifications
      ensures Valid()
      ensures var buffer := old(chunkBuffers)[msg.request] + (if outcome.Success? then [outcome.result] else []);
              && chunkBuffers == old(chunkBuffers)[msg.request := buffer]
              && messageBuffer == Offer(old(messageBuffer),
                   if outcome.Success? then Successor(msg, outcome, chunkSizeWord, retryCount) else None)
              && notifications == old(notifications) + AsSeq(Report(msg, outcome, buffer))
    {
      match msg.cont
      case ReadChunk(_, _, _) => ReadContinuation(msg, outcome);
      case WriteChunk(_, _) => WriteContinuation(msg, outcome);
      case Finalize(_) => FinalContinuation(msg, outcome);
    }

    /** Pushes the result of a success onto the request's chunk buffer. */
    method Collect(request: nat, outcome: Outcome)
      requires Valid() && request in chunkBuffers
      modifies this`chunkBuffers
      ensures Valid()
      ensures chunkBuffers == old(chunkBuffers)[request := old(chunkBuffers)[request] +
                                (if outcome.Success? then [outcome.result] else [])]
    {
      var pushed := if outcome.Success? then [outcome.result] else [];
      InvPush(messageBuffer, inFlight, notifications, chunkBuffers, nextRequest, chunkSizeWord,
              request, chunkBuffers[request] + pushed);
      chunkBuffers := chunkBuffers[request := chunkBuffers[request] + pushed];
    }

    /** The closure of a read chunk: on a success, keep the result and send
        the rest of the read from `address + chunkSizeWord`; on an error with
        the captured budget used up, report the error. */
    method ReadContinuation(msg: Entry, outcome: Outcome)
      requires Valid() && Known(msg, chunkBuffers, nextRequest, chunkSizeWord) && msg.cont.ReadChunk?
      requires !(outcome.Failure? && msg.retry >= 1) ==> Free(messageBuffer, inFlight, notifications, msg.request)
      modifies this`chunkBuffers, this`messageBuffer, this`notifications
      ensures Valid()
      ensures var buffer := old(chunkBuffers)[msg.request] + (if outcome.Success? then [outcome.result] else []);
              && chunkBuffers == old(chunkBuffers)[msg.request := buffer]
              && messageBuffer == Offer(old(messageBuffer),
                   if outcome.Success? then FollowUpEntry(msg, chunkSizeWord, retryCount) else None)
              && notifications == old(notifications) + AsSeq(Report(msg, outcome, buffer))
    {
      var ReadChunk(address, quantity, budget) := msg.cont;
      assert budget == msg.retry;
      Collect(msg.request, outcome);
      if outcome.Success? {
        var next := Args(address + chunkSizeWord, Num(quantity - chunkSizeWord));
        assert FollowUpEntry(msg, chunkSizeWord, retryCount) ==
                 Some(MakeEntry(msg.id, msg.command, next, msg.priority, retryCount, msg.caller, msg.request, chunkSizeWord));
        Enqueue(msg.id, msg.command, next, msg.priority, retryCount, msg.caller, msg.request);
      } else if budget == 0 {
        Callback(Notify(msg.request, msg.caller, Some(outcome.error), None));
      }
    }

    /** The closure of a write chunk: on a success, keep the result and send
        the values after the first four from `address + chunkSizeWord`. */
    method WriteContinuation(msg: Entry, outcome: Outcome)
      requires Valid() && Known(msg, chunkBuffers, nextRequest, chunkSizeWord) && msg.cont.WriteChunk?
      requires !(outcome.Failure? && msg.retry >= 1) ==> Free(messageBuffer, inFlight, notifications, msg.request)
      modifies this`chunkBuffers, this`messageBuffer
      ensures Valid()
      ensures chunkBuffers == old(chunkBuffers)[msg.request := old(chunkBuffers)[msg.request] +
                                (if outcome.Success? then [outcome.result] else [])]
      ensures messageBuffer == Offer(old(messageBuffer),
                if outcome.Success? then FollowUpEntry(msg, chunkSizeWord, retryCount) else None)
    {
      var WriteChunk(address, values) := msg.cont;
      Collect(msg.request, outcome);
      if outcome.Success? {
        var next := Args(address + chunkSizeWord, Vals(DropFixed(values)));
        assert FollowUpEntry(msg, chunkSizeWord, retryCount) ==
                 Some(MakeEntry(msg.id, msg.command, next, msg.priority, retryCount, msg.caller, msg.request, chunkSizeWord));
        Enqueue(msg.id, msg.command, next, msg.priority, retryCount, msg.caller, msg.request);
      }
    }

    /** The closure of the last chunk: on a success, keep the result, flatten
        the buffer and report it; on an error with the captured budget used
        up, report the error. */
    method FinalContinuation(msg: Entry, outcome: Outcome)
      requires Valid() && Known(msg, chunkBuffers, nextRequest, chunkSizeWord) && msg.cont.Finalize?
      requires !(outcome.Failure? && msg.retry >= 1) ==> Free(messageBuffer, inFlight, notifications, msg.request)
      modifies this`chunkBuffers, this`notifications
      ensures Valid()
      ensures var buffer := old(chunkBuffers)[msg.request] + (if outcome.Success? then [outcome.result] else []);
              && chunkBuffers == old(chunkBuffers)[msg.request := buffer]
              && notifications == old(notifications) + AsSeq(Report(msg, outcome, buffer))
    {
      var Finalize(budget) := msg.cont;
      assert budget == msg.retry;
      Collect(msg.request, outcome);
      if outcome.Success? {
        var flat := Flatten(chunkBuffers[msg.request]);
        Callback(Notify(msg.request, msg.caller, None, Some(Unwrap(flat))));
      } else if budget == 0 {
        Callback(Notify(msg.request, msg.caller, Some(outcome.error), None));
      }
    }

    /** Invokes a caller's callback. */
    method Callback(n: Notification)
      requires Valid() && n.request < nextRequest && Free(messageBuffer, inFlight, notifications, n.request)
      modifies this`notifications
      ensures Valid()
      ensures notifications == old(notifications) + [n]
    {
      InvNotify(messageBuffer, inFlight, notifications, chunkBuffers, nextRequest, chunkSizeWord, n);
      notifications := notifications + [n];
    }
  }

  /** `ModbusDevice`: a device id bound to a shared handler. */
  class ModbusDevice {
    const id: int
    const handler: ModbusHandler

    constructor (handler: ModbusHandler, id: int)
      ensures this.handler == handler && this.id == id
    {
      this.handler := handler;
      this.id := id;
    }

    /** `send`: forwards to the handler with the id bound and the arguments
        `[address, length]`. */
    method Send(command: Command, address: int, length: Arg, priority: Option<int>, callback: nat)
      requires handler.Valid()
      modifies handler
      ensures handler.Valid()
      ensures handler.nextRequest == old(handler.nextRequest) + 1
      ensures handler.chunkBuffers == old(handler.chunkBuffers)[old(handler.nextRequest) := []]
      ensures handler.messageBuffer == Offer(old(handler.messageBuffer),
                Some(MakeEntry(id, command, Args(address, length), PriorityOrDefault(priority),
                               handler.retryCount, callback, old(handler.nextRequest), handler.chunkSizeWord)))
      ensures handler.inFlight == old(handler.inFlight) && handler.dispatched == old(handler.dispatched)
      ensures handler.notifications == old(handler.notifications) && handler.isOpen == old(handler.isOpen)
    {
      handler.Send(id, command, Args(address, length), priority, None, callback);
    }
  }
}
