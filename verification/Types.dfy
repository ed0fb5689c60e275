/** Settings, readings and output slots (ts_module_const.h, client_manager.h, ts_data.h),
    with the two conversions main.c applies to a reading on its way to its slot. */
module Types {
  import opened CInts

  const MAX_CLIENT_NAME_LEN := 80
  const MAX_OPC_NODE_LEN := 80
  const MAX_OPC_STR_LEN := 500
  const SF_CLIENT_POS := 10  // slots 0..9 hold the device fields

  datatype Option<+T> = None | Some(value: T)

  /** A sequence of events, latest last. */
  datatype Log<E> = Empty | Then(earlier: Log<E>, last: E)

  datatype RefreshRate = Rate100ms | Rate1s | Rate1m
  datatype Protocol = Modbus | Opc
  datatype DataType = Bool | Int | Double | Dword | Time | Enum | Char
  datatype CounterType = NoCounter | Difference | CumulatedNot100 | Cumulated
  datatype Computation = NoComputation | Mul60 | Mul60000000 | Mul1000

  datatype ClientSettings = ClientSettings(
    name: string,
    innerIdx: nat,
    refreshRate: RefreshRate,
    protocol: Protocol,
    dataType: DataType,
    counter: CounterType,
    computation: Computation,
    tcp: bool,                // Modbus over TCP rather than RTU
    registersToRead: nat,     // Modbus
    secure: bool,             // OPC
    node: string)             // OPC
  {
    /** The multiplier of a client_computation. */
    function Factor(): real {
      match computation
      case NoComputation => 1.0
      case Mul60 => 60.0
      case Mul60000000 => 60000000.0
      case Mul1000 => 1000.0
    }

    /** A number times the factor. */
    function Scaled(x: int): int {
      match computation
      case NoComputation => x
      case Mul60 => 60 * x
      case Mul60000000 => 60000000 * x
      case Mul1000 => 1000 * x
    }

    predicate Numeric() {
      dataType.Int? || dataType.Dword?
    }
  }

  /** One reading. Only the field of its own type is meaningful. */
  datatype ClientData = ClientData(
    dataType: DataType,
    dataBool: bool,
    dataInt: int32,
    dataDouble: real,
    dataDword: dword,
    dataTime: int,
    dataEnum: int32,
    dataChar: string)

  /** A reading after memset, with its type set. */
  function ZeroData(t: DataType): ClientData {
    ClientData(t, false, 0, 0.0, 0, 0, 0, "")
  }

  /** The number a counter sees in a reading of an INT or DWORD client. */
  function Number(t: DataType, d: ClientData): int {
    if t.Int? then d.dataInt else d.dataDword
  }

  datatype SlotType = Unset | TsBool | TsInt | TsDword | TsLint | TsDouble | TsTime | TsEnum | TsChar
  {
    /** The types the JSON printer has a case for. */
    predicate Printable() {
      TsBool? || TsInt? || TsLint? || TsDouble? || TsChar?
    }
  }

  /** One named output field (t_data). */
  datatype Slot = Slot(
    alias: Option<string>,
    slotType: SlotType,
    boolData: bool,
    intData: int32,
    longData: int,
    doubleData: real,
    charData: string)
  {
    predicate WellFormed() {
      alias.Some? && slotType.Printable()
    }
  }

  const EMPTY_SLOT := Slot(None, Unset, false, 0, 0, 0.0, "")

  /** What manager_init_config accepts, client by client. */
  predicate ValidClient(c: ClientSettings, idx: nat) {
    && c.innerIdx == idx
    && |c.name| <= MAX_CLIENT_NAME_LEN
    && (c.protocol.Modbus? ==>
          match c.dataType
          case Bool => c.registersToRead == 1
          case Int => c.registersToRead == 2
          case Enum => c.registersToRead == 2
          case Dword => c.registersToRead == 4
          case Double => c.registersToRead == 4
          case Time => c.registersToRead == 4
          case Char => false)
  }

  ghost predicate ValidSettings(clients: seq<ClientSettings>, capacity: nat) {
    && 0 < |clients| <= capacity
    && forall i {:trigger ValidClient(clients[i], i)} :: 0 <= i < |clients| ==> ValidClient(clients[i], i)
  }

  /** client_computation: the scaled reading, and whether the type allowed it. */
  function Compute(c: ClientSettings, d: ClientData): (ClientData, bool) {
    if c.computation.NoComputation? then (d, true)
    else match d.dataType
      case Int => (d.(dataInt := ToInt(c.Scaled(d.dataInt))), true)
      case Dword => (d.(dataDword := ToDword(c.Scaled(d.dataDword))), true)
      case Double => (d.(dataDouble := d.dataDouble * c.Factor()), true)
      case _ => (d, false)
  }

  /** client_to_mqtt: the slot after a reading is written over it. Fields of other types keep their old content. */
  function ToSlot(w: LongWidth, c: ClientSettings, d: ClientData, old_: Slot): Slot {
    var s := old_.(alias := Some(c.name));
    match d.dataType
    case Int => s.(slotType := TsInt, intData := d.dataInt)
    case Bool => s.(slotType := TsBool, boolData := d.dataBool)
    case Dword => s.(slotType := TsLint, longData := w.ToLong(d.dataDword))
    case Double => s.(slotType := TsDouble, doubleData := d.dataDouble)
    case Time => s.(slotType := TsLint, longData := w.ToLong(d.dataTime))
    case Enum => s.(slotType := TsLint, longData := d.dataEnum)
    case Char => s.(slotType := TsChar, charData := d.dataChar)
  }

  /** The number a slot of an INT or DWORD client publishes. */
  function SlotNumber(t: DataType, s: Slot): int {
    if t.Int? then s.intData else s.longData
  }
}
