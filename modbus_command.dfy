/** The eight Modbus function codes the handler routes (the `ModbusCommand` enum).
    Framing of the requests themselves belongs to the transport library. */
module ModbusCommand {

  datatype Command =
    | ReadCoils            // FC1
    | ReadDiscreteInputs   // FC2
    | ReadHoldingRegisters // FC3
    | ReadInputRegisters   // FC4
    | WriteCoil            // FC5
    | WriteRegister        // FC6
    | WriteCoils           // FC15
    | WriteRegisters       // FC16

  /** The decimal digits of `n`. */
  function Decimal(n: nat): string
  {
    if n < 10 then [('0' as int + n) as char]
    else Decimal(n / 10) + [('0' as int + n % 10) as char]
  }

  /** The string each enum member is frozen to: "FC" followed by the decimal
      function code. */
  function Label(c: Command): (s: string)
    ensures s == "FC" + Decimal(FunctionCode(c))
  {
    match c
    case ReadCoils => "FC1"
    case ReadDiscreteInputs => "FC2"
    case ReadHoldingRegisters => "FC3"
    case ReadInputRegisters => "FC4"
    case WriteCoil => "FC5"
    case WriteRegister => "FC6"
    case WriteCoils => "FC15"
    case WriteRegisters => "FC16"
  }

  /** The public function code of the Modbus Application Protocol Specification
      V1.1b3 (sections 6.1-6.6, 6.11 and 6.12) that each command names. */
  function FunctionCode(c: Command): (code: nat)
    ensures code in {1, 2, 3, 4, 5, 6, 15, 16}
    ensures IsRead(c) <==> code <= 4
    ensures IsSingleWrite(c) <==> code == 5 || code == 6
    ensures IsMultiWrite(c) <==> code >= 15
  {
    match c
    case ReadCoils => 1
    case ReadDiscreteInputs => 2
    case ReadHoldingRegisters => 3
    case ReadInputRegisters => 4
    case WriteCoil => 5
    case WriteRegister => 6
    case WriteCoils => 15
    case WriteRegisters => 16
  }

  /** Commands whose arguments are an address and a quantity (FC1-FC4). */
  predicate IsRead(c: Command)
  {
    c.ReadCoils? || c.ReadDiscreteInputs? || c.ReadHoldingRegisters? || c.ReadInputRegisters?
  }

  /** Commands whose arguments are an address and one value (FC5, FC6). */
  predicate IsSingleWrite(c: Command)
  {
    c.WriteCoil? || c.WriteRegister?
  }

  /** Commands whose arguments are an address and a list of values (FC15, FC16). */
  predicate IsMultiWrite(c: Command)
  {
    c.WriteCoils? || c.WriteRegisters?
  }

  /** The handler compares commands by their frozen strings (`==` in the
      de-duplication filter); distinct commands have distinct labels, so
      comparing the datatype values is the same test. */
  lemma LabelInjective(a: Command, b: Command)
    ensures Label(a) == Label(b) <==> a == b
  {
    if Label(a) == Label(b) {
      assert FunctionCode(a) == FunctionCode(b) by {
        match a
        case ReadCoils =>
        case ReadDiscreteInputs =>
        case ReadHoldingRegisters =>
        case ReadInputRegisters =>
        case WriteCoil =>
        case WriteRegister =>
        case WriteCoils => assert Label(a)[3] == '5';
        case WriteRegisters => assert Label(a)[3] == '6';
      }
    }
  }
}
