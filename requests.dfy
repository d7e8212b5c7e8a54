/** The values the scheduler queues, dispatches and reports. */
module Requests {
  import opened ModbusCommand

  datatype Option<T> = None | Some(value: T)

  /** The second element of `modbusSendArgs`: a quantity (reads), a single
      value (FC5/FC6) or an array of values (FC15/FC16). Coil states are
      modelled as integers. */
  datatype Arg = Num(n: int) | Vals(vs: seq<int>)

  /** `modbusSendArgs`, always the pair `[address, arg]`. */
  datatype Args = Args(address: int, arg: Arg)

  /** The `_chunkCallback` closure of a queue entry, with the variables it
      captured. `budget` is the `modbusRetryCount` the closure saw when the
      entry was built; `address`/`quantity`/`values` are the chunk it covers. */
  datatype Continuation =
    | ReadChunk(address: int, quantity: int, budget: int)
    | WriteChunk(address: int, values: seq<int>)
    | Finalize(budget: int)

  /** One object of `messageBuffer`. `caller` names the caller's
      `modbusCallback`; `request` names the `_chunkBuffer` array shared by every
      entry of one logical request (a fresh array for each top-level send). */
  datatype Entry = Entry(
    id: int,
    command: Command,
    args: Args,
    priority: int,
    retry: int,
    caller: nat,
    request: nat,
    cont: Continuation)

  /** A transport result: `{data: [...]}` for reads, `{value: v}` for writes. */
  datatype SubResult = Data(data: seq<int>) | Value(value: int)

  /** What the transport reports to a completion handler: an error or a result. */
  datatype Outcome = Failure(error: int) | Success(result: SubResult)

  /** What the caller's callback receives as its second argument: the
      flattened array, or its only element when it has exactly one. */
  datatype Payload = Single(v: int) | Many(vs: seq<int>)

  /** One invocation of a caller's `modbusCallback(error, success)`. */
  datatype Notification = Notify(request: nat, caller: nat, error: Option<int>, result: Option<Payload>)

  /** One call into the transport: `writeFCx(id, address, arg, handler)`. */
  datatype Dispatch = Dispatch(command: Command, id: int, address: int, arg: Arg)

  /** What one timer tick did: nothing, a call into the transport, or an
      exception thrown while building the call (the entry is already out of
      the queue by then). Nothing catches that exception, so in the program
      it ends the timer callback and, under Node's default handling, the
      process; here the handler stays usable after `Threw`. */
  datatype TickResult = Idle | Sent(call: Dispatch) | Threw(entry: Entry)

  /** The two entries are "similar" in the sense of the de-duplication
      filter: same `modbusId`, same command label, structurally equal
      arguments. Labels are compared as strings there; `LabelInjective` makes
      that the same test as comparing commands. */
  predicate Similar(a: Entry, b: Entry)
  {
    a.id == b.id && a.command == b.command && a.args == b.args
  }

  /** Similarity is the filter's test as written, commands compared by
      their labels. */
  lemma SimilarByLabel(a: Entry, b: Entry)
    ensures Similar(a, b) <==> a.id == b.id && Label(a.command) == Label(b.command) && a.args == b.args
  {
    LabelInjective(a.command, b.command);
  }
}
