/** The connection manager (client_manager.c) with the life cycle of the OPC handle
    (opc_connect.c) and of the Modbus contexts (modbus_connect.c). The network is
    whatever the arguments say it answers. */
module Connections {
  import opened CInts
  import opened Types
  import opened Decode

  /** The answers to one connection attempt. */
  datatype Attempt = Attempt(
    created: bool,       // libmodbus returned a context
    filesLoaded: bool,   // certificate and key could be read
    reachable: bool,     // checkServer found the TCP port open
    accepted: bool)      // the protocol handshake succeeded

  /** An OPC UA value with its type. A string value is a length followed by an address; `beyond` is what lies
      in memory behind the length. */
  datatype Variant =
    | UaBoolean(b: bool)
    | UaInt16(n: int)
    | UaUInt16(n: int)
    | UaInt32(n: int)
    | UaUInt32(n: int)
    | UaDouble(x: real)
    | UaEnumValue(n: int)
    | UaString(content: string, beyond: seq<byte>)
    | UaOther

  /** The answer to one read: whether it succeeded, and the registers or the value it brought. */
  datatype Answer = Answer(ok: bool, registers: seq<word>, value: Variant)

  /** What the network answers during one manager_receive_data, as far as it is asked. */
  datatype Exchange = Exchange(first: Attempt, firstAnswer: Answer, second: Attempt, secondAnswer: Answer)

  /** The connection state: flags, whether the OPC handle exists, and which Modbus contexts do. */
  datatype Links = Links(connected: seq<bool>, handler: bool, context: seq<bool>)

  type Clients = seq<ClientSettings>

  predicate Fits(clients: Clients, l: Links) {
    |l.connected| == |l.context| == |clients|
  }

  /** The first OPC client, or the number of clients if there is none. */
  function FirstOpc(clients: Clients): (j: nat)
    ensures j <= |clients|
    ensures j < |clients| ==> clients[j].protocol.Opc?
    ensures forall i :: 0 <= i < j ==> clients[i].protocol.Modbus?
  {
    if clients == [] || clients[0].protocol.Opc? then 0 else 1 + FirstOpc(clients[1..])
  }

  /** The shared-connection invariant: OPC clients all have the first one's flag, and connected means usable. */
  ghost predicate Sound(clients: Clients, l: Links) {
    && Fits(clients, l)
    && (forall i {:trigger l.connected[i]} :: 0 <= i < |clients| && clients[i].protocol.Opc? ==>
          l.connected[i] == l.connected[FirstOpc(clients)])
    && (forall i {:trigger l.connected[i]} :: 0 <= i < |clients| && l.connected[i] ==>
          if clients[i].protocol.Opc? then l.handler else l.context[i])
  }

  // ---------- what the network's answers mean ----------

  predicate HandleConnects(c: ClientSettings, a: Attempt) {
    (c.secure ==> a.filesLoaded) && a.accepted
  }

  /** opcConnect leaves a handle behind when it succeeds, and also when a certificate file is missing. */
  predicate HandleKept(c: ClientSettings, a: Attempt) {
    HandleConnects(c, a) || (c.secure && !a.filesLoaded)
  }

  /** modbusConnect does not look at the result of the handshake. */
  predicate ContextConnects(c: ClientSettings, a: Attempt) {
    a.created && (c.tcp ==> a.reachable)
  }

  predicate ContextReconnects(c: ClientSettings, context: bool, a: Attempt) {
    context && (c.tcp ==> a.reachable) && a.accepted
  }

  predicate Reconnects(c: ClientSettings, context: bool, a: Attempt) {
    if c.protocol.Opc? then HandleConnects(c, a) else ContextReconnects(c, context, a)
  }

  predicate Answers(c: ClientSettings, r: Answer) {
    r.ok && (c.protocol.Opc? ==> |c.node| <= MAX_OPC_NODE_LEN)
  }

  /** The receive buffer after modbus_read_registers: registers not read stay zero. */
  function Buffer(c: ClientSettings, registers: seq<word>): (data: seq<word>)
    ensures |data| == MAX_RCV_DATA_LEN == 10
  {
    seq(MAX_RCV_DATA_LEN, k requires 0 <= k < MAX_RCV_DATA_LEN =>
      if k < c.registersToRead && k < |registers| then registers[k] else 0)
  }

  /** A number as count bytes, lowest first. */
  function LittleBytes(n: nat, count: nat): (bytes: seq<byte>)
    ensures |bytes| == count
  {
    if count == 0 then [] else [n % 256] + LittleBytes(n / 256, count - 1)
  }

  /** And highest first. */
  function BigBytes(n: nat, count: nat): (bytes: seq<byte>)
    ensures |bytes| == count
  {
    if count == 0 then [] else BigBytes(n / 256, count - 1) + [n % 256]
  }

  /** A size_t in memory; it is as wide as `long`. */
  function SizeBytes(w: LongWidth, order: ByteOrder, n: nat): seq<byte> {
    var count := if w.Long32? then 4 else 8;
    if order.BigEndian? then BigBytes(n, count) else LittleBytes(n, count)
  }

  /** The characters before the first NUL. */
  function CString(bytes: seq<byte>): (s: string)
    ensures |s| <= |bytes|
  {
    if bytes == [] || bytes[0] == 0 then [] else [bytes[0] as char] + CString(bytes[1..])
  }

  /** strncpy from the address of a string value. What it copies is not the content but the length field,
      and what lies behind it if no byte of the length is zero. */
  function OpcText(w: LongWidth, order: ByteOrder, content: string, beyond: seq<byte>): (s: string)
    ensures |s| <= MAX_OPC_STR_LEN
  {
    var s := CString(SizeBytes(w, order, |content|) + beyond);
    if |s| <= MAX_OPC_STR_LEN then s else s[..MAX_OPC_STR_LEN]
  }

  /** strncpy stops after 500 characters, and not before unless there is a NUL. */
  lemma OpcTextCut(w: LongWidth, order: ByteOrder, content: string, beyond: seq<byte>)
    ensures var all := CString(SizeBytes(w, order, |content|) + beyond);
            OpcText(w, order, content, beyond) == if |all| > 500 then all[..500] else all
  {
  }

  /** What an OPC value becomes. One of another type than the client's still is a reading, of zero;
      the type TIME is not supported and leaves the time of the reading before. */
  function OpcDecoded(w: LongWidth, order: ByteOrder, t: DataType, v: Variant, before: ClientData): ClientData {
    var d := before.(dataType := t);
    match t
    case Bool => d.(dataBool := v.UaBoolean? && v.b)
    case Int =>
      d.(dataInt := if v.UaInt16? || v.UaUInt16? || v.UaInt32? || v.UaUInt32? then ToInt(v.n) else 0)
    case Dword => d.(dataDword := if v.UaUInt32? then ToDword(v.n) else 0)
    case Double => d.(dataDouble := if v.UaDouble? then v.x else 0.0)
    case Enum => d.(dataEnum := if v.UaEnumValue? then ToInt(v.n) else 0)
    case Char => d.(dataChar := if v.UaString? then OpcText(w, order, v.content, v.beyond) else "")
    case Time => d
  }

  /** The reading a successful answer delivers. */
  predicate Delivered(w: LongWidth, order: ByteOrder, c: ClientSettings, r: Answer, before: ClientData, d: ClientData) {
    if c.protocol.Opc? then d == OpcDecoded(w, order, c.dataType, r.value, before)
    else if c.dataType.Double? then DoubleMisplaced(order, Buffer(c, r.registers), before, d)
    else d == Decoded(w, Buffer(c, r.registers), c.dataType, before)
  }

  /** What the values a client accepts become, type by type. */
  lemma OpcReadsValue(w: LongWidth, order: ByteOrder, c: ClientSettings, r: Answer, before: ClientData, d: ClientData)
    requires c.protocol.Opc? && Delivered(w, order, c, r, before, d)
    ensures d.dataType == c.dataType
    ensures c.dataType.Bool? && r.value.UaBoolean? ==> d.dataBool == r.value.b
    ensures c.dataType.Int? && (r.value.UaInt16? || r.value.UaUInt16? || r.value.UaInt32? || r.value.UaUInt32?) ==>
              && Congruent(d.dataInt, r.value.n)
              && (-2147483648 <= r.value.n <= 2147483647 ==> d.dataInt == r.value.n)
    ensures c.dataType.Dword? && r.value.UaUInt32? ==>
              && Congruent(d.dataDword, r.value.n)
              && (0 <= r.value.n <= 4294967295 ==> d.dataDword == r.value.n)
    ensures c.dataType.Double? && r.value.UaDouble? ==> d.dataDouble == r.value.x
    ensures c.dataType.Enum? && r.value.UaEnumValue? ==>
              && Congruent(d.dataEnum, r.value.n)
              && (-2147483648 <= r.value.n <= 2147483647 ==> d.dataEnum == r.value.n)
  {
  }

  /** Two registers as one number, the first the low half. */
  function TwoRegisters(low: int, high: int): int {
    low + 65536 * high
  }

  lemma TwoWordsValue(ws: seq<word>)
    requires |ws| == 2
    ensures WordsValue(ws) == TwoRegisters(ws[0], ws[1]) < TWO32
  {
    assert ws[1..][1..] == [];
    assert WordsValue(ws[1..]) == ws[1];
  }

  lemma FourWordsValue(ws: seq<word>)
    requires |ws| == 4
    ensures WordsValue(ws) == TwoRegisters(ws[0], ws[1]) + 4294967296 * TwoRegisters(ws[2], ws[3])
  {
    assert ws[1..][1..] == ws[2..];
    assert WordsValue(ws[1..]) == ws[1] + TWO16 * WordsValue(ws[2..]);
    TwoWordsValue(ws[2..]);
  }

  lemma FirstRegisters(c: ClientSettings, registers: seq<word>, n: nat)
    requires n <= |registers| && n <= c.registersToRead && n <= MAX_RCV_DATA_LEN
    ensures Buffer(c, registers)[..n] == registers[..n]
  {
  }

  /** The words a reading is made of are the first registers the device sent. */
  lemma ReadingWords(w: LongWidth, c: ClientSettings, i: nat, registers: seq<word>)
    requires c.protocol.Modbus? && ValidClient(c, i) && WordsIn(w, c.dataType) <= |registers| && !c.dataType.Bool?
    ensures var value := WordsValue(Buffer(c, registers)[..WordsIn(w, c.dataType)]);
            value == if c.dataType.Time? && w.Long64?
                     then TwoRegisters(registers[0], registers[1]) +
                          4294967296 * TwoRegisters(registers[2], registers[3])
                     else TwoRegisters(registers[0], registers[1])
  {
    var n := WordsIn(w, c.dataType);
    FirstRegisters(c, registers, n);
    if n == 2 {
      TwoWordsValue(registers[..n]);
    } else {
      FourWordsValue(registers[..n]);
    }
  }

  /** Where the registers of a device land: the first register is the lowest word, on hosts of either byte order. */
  lemma ModbusReadsRegisters(w: LongWidth, order: ByteOrder, c: ClientSettings, i: nat, r: Answer,
                             before: ClientData, d: ClientData)
    requires c.protocol.Modbus? && ValidClient(c, i) && Delivered(w, order, c, r, before, d)
    requires !c.dataType.Bool? && |r.registers| >= c.registersToRead
    ensures var low := TwoRegisters(r.registers[0], r.registers[1]);
            var high := if |r.registers| >= 4 then TwoRegisters(r.registers[2], r.registers[3]) else 0;
            var all := low + 4294967296 * high;
            && d.dataType == c.dataType
            && (c.dataType.Int? ==> Congruent(d.dataInt, low))
            && (c.dataType.Enum? ==> Congruent(d.dataEnum, low))
            && (c.dataType.Dword? ==> d.dataDword == low)
            && (c.dataType.Time? && w.Long32? ==> Congruent(d.dataTime, low))
            && (c.dataType.Time? && w.Long64? && all < TWO63 ==> d.dataTime == all)
  {
    if !c.dataType.Double? {
      ReadingWords(w, c, i, r.registers);
      TwoWordsValue(r.registers[..2]);
    }
  }

  /** A BOOL is whether the one register it reads is not zero. */
  lemma ModbusReadsBool(w: LongWidth, order: ByteOrder, c: ClientSettings, i: nat, r: Answer,
                        before: ClientData, d: ClientData)
    requires c.protocol.Modbus? && c.dataType.Bool? && ValidClient(c, i) && Delivered(w, order, c, r, before, d)
    requires |r.registers| >= 1
    ensures d.dataType == Bool && (d.dataBool <==> r.registers[0] != 0)
  {
    FirstRegisters(c, r.registers, 1);
    assert Buffer(c, r.registers)[0] == Buffer(c, r.registers)[..1][0] == r.registers[..1][0];
  }

  /** A number that a device sends lowest word first is the reading, if it is in the range of its type. */
  lemma ModbusReadsNumber(w: LongWidth, order: ByteOrder, c: ClientSettings, i: nat, r: Answer,
                          before: ClientData, d: ClientData, value: int)
    requires c.protocol.Modbus? && ValidClient(c, i) && Delivered(w, order, c, r, before, d)
    requires var n := if c.dataType.Time? && w.Long64? then 4 else 2;
             |r.registers| >= n && r.registers[..n] == ToWords(value, n)
    ensures c.dataType.Int? && -2147483648 <= value <= 2147483647 ==> d.dataInt == value
    ensures c.dataType.Enum? && -2147483648 <= value <= 2147483647 ==> d.dataEnum == value
    ensures c.dataType.Dword? && 0 <= value <= 4294967295 ==> d.dataDword == value
    ensures c.dataType.Time? && w.Long32? && -2147483648 <= value <= 2147483647 ==> d.dataTime == value
    ensures c.dataType.Time? && w.Long64? && -TWO63 <= value < TWO63 ==> d.dataTime == value
  {
    var n := if c.dataType.Time? && w.Long64? then 4 else 2;
    if c.registersToRead >= n && !c.dataType.Double? {
      FirstRegisters(c, r.registers, n);
      RoundTrip(w, Buffer(c, r.registers), c.dataType, value, before);
    }
  }

  /** The value types a client accepts. */
  predicate Expected(t: DataType, v: Variant) {
    match t
    case Bool => v.UaBoolean?
    case Int => v.UaInt16? || v.UaUInt16? || v.UaInt32? || v.UaUInt32?
    case Dword => v.UaUInt32?
    case Double => v.UaDouble?
    case Enum => v.UaEnumValue?
    case Char => v.UaString?
    case Time => false
  }

  /** An OPC value of any other type is a successful reading of zero; a TIME client keeps the time of the
      reading before whatever it is sent. */
  lemma WrongTypeReadsZero(w: LongWidth, order: ByteOrder, c: ClientSettings, r: Answer,
                           before: ClientData, d: ClientData)
    requires c.protocol.Opc? && !Expected(c.dataType, r.value) && Delivered(w, order, c, r, before, d)
    ensures var zero := ZeroData(c.dataType);
            match c.dataType
            case Bool => d == before.(dataType := Bool, dataBool := zero.dataBool)
            case Int => d == before.(dataType := Int, dataInt := zero.dataInt)
            case Dword => d == before.(dataType := Dword, dataDword := zero.dataDword)
            case Double => d == before.(dataType := Double, dataDouble := zero.dataDouble)
            case Enum => d == before.(dataType := Enum, dataEnum := zero.dataEnum)
            case Char => d == before.(dataType := Char, dataChar := zero.dataChar)
            case Time => d == before.(dataType := Time)
  {
  }

  /** 256 to the k. */
  function Pow256(k: nat): nat {
    if k == 0 then 1 else 256 * Pow256(k - 1)
  }

  lemma {:induction false} HighByteZero(n: nat, count: nat)
    requires count > 0 && n < Pow256(count - 1)
    ensures LittleBytes(n, count)[count - 1] == 0 && BigBytes(n, count)[0] == 0
  {
    if count > 1 {
      HighByteZero(n / 256, count - 1);
    }
  }

  lemma {:induction false} StopsAtZero(a: seq<byte>, b: seq<byte>)
    requires exists k :: 0 <= k < |a| && a[k] == 0
    ensures CString(a + b) == CString(a) && |CString(a)| < |a|
  {
    if a[0] != 0 {
      assert (a + b)[1..] == a[1..] + b;
      var k :| 0 <= k < |a| && a[k] == 0;
      assert a[1..][k - 1] == 0;
      StopsAtZero(a[1..], b);
    }
  }

  lemma LengthHasZero(w: LongWidth, order: ByteOrder, n: nat)
    requires n < if w.Long32? then 0x100_0000 else 0x100_0000_0000_0000
    ensures var bytes := SizeBytes(w, order, n);
            |bytes| == (if w.Long32? then 4 else 8) && exists k :: 0 <= k < |bytes| && bytes[k] == 0
  {
    var count := if w.Long32? then 4 else 8;
    assert Pow256(3) == 0x100_0000;
    assert Pow256(7) == 0x1_0000_0000 * Pow256(3);
    HighByteZero(n, count);
    var bytes := SizeBytes(w, order, n);
    assert bytes[if order.BigEndian? then 0 else count - 1] == 0;
  }

  /** The text of an OPC string is lost: strings of one length all read the same, and what is read has at most
      3 characters with a 32-bit size_t and strings of less than 16 MB, and at most 7 with a 64-bit one. */
  lemma OpcTextIsLost(w: LongWidth, order: ByteOrder, a: string, b: string, x: seq<byte>, y: seq<byte>)
    requires |a| == |b| < if w.Long32? then 0x100_0000 else 0x100_0000_0000_0000
    ensures OpcText(w, order, a, x) == OpcText(w, order, b, y)
    ensures |OpcText(w, order, a, x)| <= if w.Long32? then 3 else 7
  {
    LengthHasZero(w, order, |a|);
    StopsAtZero(SizeBytes(w, order, |a|), x);
    StopsAtZero(SizeBytes(w, order, |a|), y);
  }

  /** The number a Modbus DOUBLE client reads never reaches the field that is published. */
  lemma ModbusDoubleIsLost(w: LongWidth, order: ByteOrder, c: ClientSettings, r: Answer,
                           before: ClientData, d: ClientData)
    requires c.protocol.Modbus? && c.dataType.Double? && Delivered(w, order, c, r, before, d)
    ensures d.dataDouble == before.dataDouble
  {
  }

  function WithStatus(clients: Clients, connected: seq<bool>, i: nat, status: bool): (r: seq<bool>)
    requires i < |clients| == |connected|
    ensures |r| == |connected|
  {
    if clients[i].protocol.Modbus? then connected[i := status]
    else seq(|connected|, k requires 0 <= k < |connected| => if clients[k].protocol.Opc? then status else connected[k])
  }

  // ---------- the steps of a receive ----------

  function Relinked(clients: Clients, l: Links, i: nat, a: Attempt): (r: Links)
    requires Fits(clients, l) && i < |clients|
    ensures Fits(clients, r)
  {
    Links(WithStatus(clients, l.connected, i, Reconnects(clients[i], l.context[i], a)),
          if clients[i].protocol.Opc? then HandleKept(clients[i], a) else l.handler,
          l.context)
  }

  function Dropped(clients: Clients, l: Links, i: nat): (r: Links)
    requires Fits(clients, l) && i < |clients|
    ensures Fits(clients, r)
  {
    l.(connected := WithStatus(clients, l.connected, i, false))
  }

  // ---------- one receive, in closed form ----------

  datatype Outcome = Outcome(links: Links, ok: bool, reconnectCount: nat, readCount: nat)

  /** Whether the first read succeeds. */
  predicate FirstReadSucceeds(clients: Clients, l: Links, i: nat, e: Exchange)
    requires Fits(clients, l) && i < |clients|
  {
    (l.connected[i] || Reconnects(clients[i], l.context[i], e.first)) && Answers(clients[i], e.firstAnswer)
  }

  /** The answer that makes a receive succeed, if it does. */
  function AnswerUsed(clients: Clients, l: Links, i: nat, e: Exchange): Answer
    requires Fits(clients, l) && i < |clients|
  {
    if FirstReadSucceeds(clients, l, i, e) then e.firstAnswer else e.secondAnswer
  }

  /** manager_receive_data: reconnect if needed, read; if that fails reconnect and read once more. */
  function Receive(clients: Clients, l: Links, i: nat, e: Exchange): (r: Outcome)
    requires Fits(clients, l) && i < |clients|
    ensures Fits(clients, r.links)
  {
    var c := clients[i];
    var up := l.connected[i] || Reconnects(c, l.context[i], e.first);
    var done := FirstReadSucceeds(clients, l, i, e);
    var again := up && !done;
    var upAgain := again && Reconnects(c, l.context[i], e.second);
    var ok := done || (upAgain && Answers(c, e.secondAnswer));
    var handler :=
      if c.protocol.Modbus? then l.handler
      else if again then HandleKept(c, e.second)
      else if !l.connected[i] then HandleKept(c, e.first)
      else l.handler;
    Outcome(Links(WithStatus(clients, l.connected, i, ok), handler, l.context), ok,
            Bit(!l.connected[i]) + Bit(again), Bit(up) + Bit(upAgain))
  }

  lemma StatusTwice(clients: Clients, connected: seq<bool>, i: nat, a: bool, b: bool)
    requires i < |clients| == |connected|
    ensures WithStatus(clients, WithStatus(clients, connected, i, a), i, b) == WithStatus(clients, connected, i, b)
  {
  }

  lemma StatusUnchanged(clients: Clients, l: Links, i: nat)
    requires Sound(clients, l) && i < |clients|
    ensures WithStatus(clients, l.connected, i, l.connected[i]) == l.connected
  {
  }

  lemma StepsSound(clients: Clients, l: Links, i: nat, a: Attempt)
    requires Sound(clients, l) && i < |clients|
    ensures Sound(clients, Relinked(clients, l, i, a)) && Sound(clients, Dropped(clients, l, i))
    ensures Relinked(clients, l, i, a).connected[i] == Reconnects(clients[i], l.context[i], a)
    ensures Relinked(clients, Dropped(clients, l, i), i, a) == Relinked(clients, l, i, a)
    ensures Dropped(clients, Dropped(clients, l, i), i) == Dropped(clients, l, i)
  {
    StatusTwice(clients, l.connected, i, false, Reconnects(clients[i], l.context[i], a));
    StatusTwice(clients, l.connected, i, false, false);
  }

  /** The closed form is what the steps compose to. */
  lemma ReceiveIsSteps(clients: Clients, l: Links, i: nat, e: Exchange)
    requires Sound(clients, l) && i < |clients|
    ensures var r, c := Receive(clients, l, i, e), clients[i];
            var l1 := if l.connected[i] then l else Relinked(clients, l, i, e.first);
            var l2 := Relinked(clients, l1, i, e.second);
            (r.links, r.ok) ==
              if !l1.connected[i] then (l1, false)
              else if Answers(c, e.firstAnswer) then (l1, true)
              else if !l2.connected[i] then (l2, false)
              else if Answers(c, e.secondAnswer) then (l2, true)
              else (Dropped(clients, l2, i), false)
    ensures var r, l1 := Receive(clients, l, i, e), if l.connected[i] then l else Relinked(clients, l, i, e.first);
            var again := l1.connected[i] && !Answers(clients[i], e.firstAnswer);
            && r.reconnectCount == Bit(!l.connected[i]) + Bit(again)
            && r.readCount == Bit(l1.connected[i]) + Bit(again && Relinked(clients, l1, i, e.second).connected[i])
  {
    var up1 := Reconnects(clients[i], l.context[i], e.first);
    var l1 := if l.connected[i] then l else Relinked(clients, l, i, e.first);
    var up2 := Reconnects(clients[i], l.context[i], e.second);
    StepsSound(clients, l, i, e.first);
    StepsSound(clients, l1, i, e.second);
    StatusUnchanged(clients, l, i);
    StatusTwice(clients, l.connected, i, up1, up2);
    StatusTwice(clients, l1.connected, i, up2, false);
    StatusTwice(clients, l.connected, i, up1, false);
  }

  /** What every receive promises: bounded work, and flags that tell the truth about its result. */
  lemma ReceiveContract(clients: Clients, l: Links, i: nat, e: Exchange)
    requires Sound(clients, l) && i < |clients|
    ensures var r := Receive(clients, l, i, e);
            && Sound(clients, r.links)
            && r.reconnectCount <= 2 && r.readCount <= 2
            && r.links.connected[i] == r.ok
            && (forall j :: 0 <= j < |clients| && clients[i].protocol.Opc? && clients[j].protocol.Opc? ==>
                  r.links.connected[j] == r.ok)
            && (forall j | 0 <= j < |clients| && j != i ::
                  (clients[i].protocol.Modbus? || clients[j].protocol.Modbus?) ==>
                  r.links.connected[j] == l.connected[j])
  {
  }

  /** A receive from a Modbus client over a serial line depends on the context and the handshake, not on any port. */
  lemma SerialReceive(clients: Clients, l: Links, i: nat, e: Exchange)
    requires Fits(clients, l) && i < |clients| && clients[i].protocol.Modbus? && !clients[i].tcp
    ensures var r, up := Receive(clients, l, i, e), l.connected[i] || (l.context[i] && e.first.accepted);
            && (r.ok && r.readCount == 1 <==> up && e.firstAnswer.ok)
            && (r.ok && r.readCount == 2 <==>
                  up && !e.firstAnswer.ok && l.context[i] && e.second.accepted && e.secondAnswer.ok)
            && (r.readCount == 0 <==> !up) && (r.ok ==> r.readCount >= 1)
            && (r.reconnectCount == 0 <==> l.connected[i] && e.firstAnswer.ok)
  {
  }

  /** Over TCP it also needs the port open. */
  lemma TcpReceive(clients: Clients, l: Links, i: nat, e: Exchange)
    requires Fits(clients, l) && i < |clients| && clients[i].protocol.Modbus? && clients[i].tcp
    ensures var r := Receive(clients, l, i, e);
            var up := l.connected[i] || (l.context[i] && e.first.reachable && e.first.accepted);
            && (r.ok && r.readCount == 1 <==> up && e.firstAnswer.ok)
            && (r.ok && r.readCount == 2 <==>
                  && up && !e.firstAnswer.ok
                  && l.context[i] && e.second.reachable && e.second.accepted && e.secondAnswer.ok)
            && (r.readCount == 0 <==> !up) && (r.ok ==> r.readCount >= 1)
            && (r.reconnectCount == 0 <==> l.connected[i] && e.firstAnswer.ok)
  {
  }

  /** From an OPC client it needs the certificate files only if the connection is secure, and a node name of at most
      80 characters. A reconnect that fails for want of the files leaves a handle behind, any other does not. */
  lemma OpcReceive(clients: Clients, l: Links, i: nat, e: Exchange)
    requires Fits(clients, l) && i < |clients| && clients[i].protocol.Opc?
    ensures var r, named := Receive(clients, l, i, e), |clients[i].node| <= 80;
            var up := l.connected[i] || (e.first.accepted && (!clients[i].secure || e.first.filesLoaded));
            var again := up && !(e.firstAnswer.ok && named);
            && (r.ok && r.readCount == 1 <==> up && e.firstAnswer.ok && named)
            && (r.ok && r.readCount == 2 <==>
                  && again && e.second.accepted && (!clients[i].secure || e.second.filesLoaded)
                  && e.secondAnswer.ok && named)
            && (r.readCount == 0 <==> !up) && (r.ok ==> r.readCount >= 1)
            && (r.reconnectCount == 0 <==> l.connected[i] && e.firstAnswer.ok && named)
            && (!up ==> (r.links.handler <==> clients[i].secure && !e.first.filesLoaded))
            && (again ==>
                  (r.links.handler <==> e.second.accepted || (clients[i].secure && !e.second.filesLoaded)))
  {
  }

  /** A receive from a silent connection succeeds only through a reconnect; one on a dead Modbus client never does. */
  lemma ReceiveNeedsConnection(clients: Clients, l: Links, i: nat, e: Exchange)
    requires Sound(clients, l) && i < |clients| && Receive(clients, l, i, e).ok
    ensures clients[i].protocol.Modbus? ==> l.context[i]
    ensures l.connected[i] || Receive(clients, l, i, e).reconnectCount >= 1
  {
  }

  /** All receives of a run, in order. */
  function ReceiveAll(clients: Clients, l: Links, calls: seq<(nat, Exchange)>): (r: Links)
    requires Fits(clients, l) && forall k :: 0 <= k < |calls| ==> calls[k].0 < |clients|
    ensures Fits(clients, r)
    decreases |calls|
  {
    if calls == [] then l
    else ReceiveAll(clients, Receive(clients, l, calls[0].0, calls[0].1).links, calls[1..])
  }

  /** The invariant in every state a run of receives reaches, whatever the network does; contexts never change. */
  lemma {:induction false} ReceivesKeepSound(clients: Clients, l: Links, calls: seq<(nat, Exchange)>)
    requires Sound(clients, l) && forall k :: 0 <= k < |calls| ==> calls[k].0 < |clients|
    ensures Sound(clients, ReceiveAll(clients, l, calls))
    ensures ReceiveAll(clients, l, calls).context == l.context
    decreases |calls|
  {
    if calls != [] {
      ReceiveContract(clients, l, calls[0].0, calls[0].1);
      ReceivesKeepSound(clients, Receive(clients, l, calls[0].0, calls[0].1).links, calls[1..]);
    }
  }

  /** A Modbus client whose context could not be allocated at start-up never delivers a reading. */
  lemma NoContextNoReading(clients: Clients, l: Links, calls: seq<(nat, Exchange)>, i: nat, e: Exchange)
    requires Sound(clients, l) && forall k :: 0 <= k < |calls| ==> calls[k].0 < |clients|
    requires i < |clients| && clients[i].protocol.Modbus? && !l.context[i]
    ensures !Receive(clients, ReceiveAll(clients, l, calls), i, e).ok
  {
    ReceivesKeepSound(clients, l, calls);
  }

  // ---------- start-up, in closed form ----------

  /** The flag manager_init_connections gives client i: OPC clients share the first one's connection. */
  predicate InitiallyConnected(clients: Clients, attempts: seq<Attempt>, i: nat)
    requires i < |clients| == |attempts|
  {
    var j := FirstOpc(clients);
    if clients[i].protocol.Modbus? then ContextConnects(clients[i], attempts[i])
    else j < |clients| && HandleConnects(clients[j], attempts[j])
  }

  function InitialLinks(clients: Clients, attempts: seq<Attempt>): Links
    requires |clients| == |attempts|
  {
    var j := FirstOpc(clients);
    Links(seq(|clients|, i requires 0 <= i < |clients| => InitiallyConnected(clients, attempts, i)),
          j < |clients| && HandleKept(clients[j], attempts[j]),
          seq(|clients|, i requires 0 <= i < |clients| => clients[i].protocol.Modbus? && attempts[i].created))
  }

  /** What start-up leaves: a Modbus client is connected once its context exists and, over TCP, its port is open,
      whatever the handshake says; OPC clients as the first of them is. */
  lemma StartUp(clients: Clients, attempts: seq<Attempt>, i: nat, j: nat)
    requires i < |clients| == |attempts|
    requires j < |clients| && clients[j].protocol.Opc? && forall k :: 0 <= k < j ==> clients[k].protocol.Modbus?
    ensures var l, a, b := InitialLinks(clients, attempts), attempts[i], attempts[j];
            && (clients[i].protocol.Modbus? ==>
                  && (l.connected[i] <==> a.created && (clients[i].tcp ==> a.reachable))
                  && (l.context[i] <==> a.created))
            && (clients[i].protocol.Opc? ==>
                  && (l.connected[i] <==> b.accepted && (!clients[j].secure || b.filesLoaded))
                  && !l.context[i])
            && (l.handler <==> b.accepted || (clients[j].secure && !b.filesLoaded))
  {
    assert FirstOpc(clients) == j;
  }

  /** Without OPC clients there is no handle. */
  lemma StartUpModbusOnly(clients: Clients, attempts: seq<Attempt>, i: nat)
    requires i < |clients| == |attempts| && forall k :: 0 <= k < |clients| ==> clients[k].protocol.Modbus?
    ensures var l, a := InitialLinks(clients, attempts), attempts[i];
            && (l.connected[i] <==> a.created && (clients[i].tcp ==> a.reachable))
            && (l.context[i] <==> a.created) && !l.handler
  {
    assert FirstOpc(clients) == |clients|;
  }

  lemma InitialLinksSound(clients: Clients, attempts: seq<Attempt>)
    requires |clients| == |attempts|
    ensures Sound(clients, InitialLinks(clients, attempts))
  {
  }

  // ---------- the manager ----------

  class Manager {
    const width: LongWidth
    const order: ByteOrder
    const clients: seq<ClientSettings>
    const connected: array<bool>
    const context: array<Option<nat>>   // the libmodbus context of each client
    var handler: Option<nat>            // _handler
    var allocations: nat                // identities handed out by the allocators
    ghost var liveHandles: set<nat>     // OPC client objects not yet deleted
    ghost var liveContexts: map<nat, nat> // Modbus contexts not yet freed, and whose they are
    ghost var reconnectCalls: nat       // reconnects and reads so far
    ghost var readCalls: nat

    ghost predicate Allocated() {
      connected.Length == context.Length == |clients|
    }

    /** Nothing leaks: what is alive is exactly what is still referenced, once each. */
    ghost predicate Valid()
      reads this, context
    {
      && Allocated()
      && liveHandles == (if handler.Some? then {handler.value} else {})
      && (handler.Some? ==> FirstOpc(clients) < |clients|)
      && (forall i {:trigger context[i]} :: 0 <= i < context.Length && clients[i].protocol.Opc? ==> context[i].None?)
      && (forall i {:trigger context[i]} :: 0 <= i < context.Length && context[i].Some? ==>
            context[i].value in liveContexts && liveContexts[context[i].value] == i)
      && (forall id {:trigger id in liveContexts} :: id in liveContexts ==>
            id < allocations && liveContexts[id] < context.Length && context[liveContexts[id]] == Some(id))
    }

    ghost function State(): (l: Links)
      requires Allocated()
      reads this, connected, context
      ensures Fits(clients, l)
    {
      Links(connected[..], handler.Some?,
            seq(|clients|, i requires 0 <= i < |clients| reads context => context[i].Some?))
    }

    /** The state after a successful manager_init_config. */
    constructor (width: LongWidth, order: ByteOrder, clients: seq<ClientSettings>)
      ensures this.width == width && this.order == order && this.clients == clients
      ensures fresh(connected) && fresh(context) && Valid()
      ensures State() == Links(seq(|clients|, _ => false), false, seq(|clients|, _ => false))
      ensures Sound(clients, State()) && handler.None? && forall i :: 0 <= i < context.Length ==> context[i].None?
    {
      this.width, this.order, this.clients := width, order, clients;
      connected := new bool[|clients|](_ => false);
      context := new Option<nat>[|clients|](_ => None);
      handler, allocations := None, 0;
      liveHandles, liveContexts := {}, map[];
      reconnectCalls, readCalls := 0, 0;
    }

    /** manager_get_client */
    function GetClient(innerIdx: int): (c: Option<ClientSettings>)
      ensures c == if 0 <= innerIdx < |clients| then Some(clients[innerIdx]) else None
    {
      if innerIdx < 0 || innerIdx > |clients| - 1 then None else Some(clients[innerIdx])
    }

    method SetConnectStatus(i: nat, status: bool)
      requires Allocated() && i < |clients|
      modifies connected
      ensures State() == old(State()).(connected := WithStatus(clients, old(connected[..]), i, status))
    {
      if clients[i].protocol.Modbus? {
        connected[i] := status;
      } else {
        ghost var before := connected[..];
        for k := 0 to |clients|
          invariant connected[k..] == before[k..]
          invariant forall m :: 0 <= m < k ==> connected[m] == if clients[m].protocol.Opc? then status else before[m]
        {
          assert connected[k] == connected[k..][0] == before[k];
          if clients[k].protocol.Opc? {
            connected[k] := status;
          }
        }
      }
    }

    // ----- OPC handle -----

    method OpcConnect(c: ClientSettings, a: Attempt) returns (ok: bool)
      modifies this
      ensures ok == HandleConnects(c, a)
      ensures handler == (if HandleKept(c, a) then Some(old(allocations)) else None)
      ensures HandleKept(c, a) ==> liveHandles == old(liveHandles) + {old(allocations)}
      ensures !HandleKept(c, a) ==> liveHandles == old(liveHandles) - {old(allocations)}
      ensures allocations == old(allocations) + 1 && liveContexts == old(liveContexts)
      ensures reconnectCalls == old(reconnectCalls) && readCalls == old(readCalls)
    {
      handler := Some(allocations);
      liveHandles := liveHandles + {allocations};
      allocations := allocations + 1;
      if c.secure {
        if !a.filesLoaded {
          return false;
        }
      }
      if !a.accepted {
        liveHandles := liveHandles - {handler.value};
        handler := None;
        return false;
      }
      return true;
    }

    method OpcCloseConnection()
      modifies this`handler, this`liveHandles
      ensures handler == None
      ensures liveHandles == if old(handler).Some? then old(liveHandles) - {old(handler).value} else old(liveHandles)
    {
      if handler.Some? {
        liveHandles := liveHandles - {handler.value};
        handler := None;
      }
    }

    method OpcReceiveData(c: ClientSettings, r: Answer, before: ClientData) returns (d: ClientData, ok: bool)
      ensures ok == (Answers(c.(protocol := Opc), r) && handler.Some?)
      ensures d == if ok then OpcDecoded(width, order, c.dataType, r.value, before) else before
    {
      d := before;
      if |c.node| > MAX_OPC_NODE_LEN {
        return d, false;
      }
      if handler.None? {
        return d, false;
      }
      if !r.ok {
        return d, false;
      }
      d := d.(dataType := c.dataType);
      var v := r.value;
      match c.dataType {
        case Bool =>
          d := if v.UaBoolean? then d.(dataBool := v.b) else d.(dataBool := false);
        case Int =>
          if v.UaInt16? || v.UaUInt16? || v.UaInt32? || v.UaUInt32? {
            d := d.(dataInt := ToInt(v.n));
          } else {
            d := d.(dataInt := 0);
          }
        case Dword =>
          d := if v.UaUInt32? then d.(dataDword := ToDword(v.n)) else d.(dataDword := 0);
        case Double =>
          d := if v.UaDouble? then d.(dataDouble := v.x) else d.(dataDouble := 0.0);
        case Enum =>
          d := if v.UaEnumValue? then d.(dataEnum := ToInt(v.n)) else d.(dataEnum := 0);
        case Char =>
          d := if v.UaString? then d.(dataChar := OpcText(width, order, v.content, v.beyond)) else d.(dataChar := "");
        case Time =>
      }
      ok := true;
    }

    // ----- Modbus contexts -----

    method ModbusConnect(i: nat, a: Attempt) returns (ok: bool)
      requires Valid() && i < |clients| && clients[i].protocol.Modbus? && context[i].None?
      modifies this`allocations, this`liveContexts, context
      ensures Valid()
      ensures ok == ContextConnects(clients[i], a)
      ensures context[i].Some? == a.created
      ensures forall k :: 0 <= k < context.Length && k != i ==> context[k] == old(context[k])
      ensures liveContexts == if a.created then old(liveContexts)[old(allocations) := i] else old(liveContexts)
    {
      context[i] := None;
      if !a.created {
        return false;
      }
      context[i] := Some(allocations);
      liveContexts := liveContexts[allocations := i];
      allocations := allocations + 1;
      if clients[i].tcp {
        if !a.reachable {
          return false;
        }
      }
      return true;
    }

    method ModbusReconnect(i: nat, a: Attempt) returns (ok: bool)
      requires Allocated() && i < |clients|
      ensures ok == ContextReconnects(clients[i], context[i].Some?, a)
    {
      if context[i].Some? {
        if clients[i].tcp {
          if !a.reachable {
            return false;
          }
        }
        if !a.accepted {
          return false;
        }
      } else {
        return false;
      }
      return true;
    }

    /** modbusReceiveData: it dereferences the context, so the caller must know there is one. */
    method ModbusReceiveData(i: nat, r: Answer) returns (data: seq<word>, ok: bool)
      requires Allocated() && i < |clients| && context[i].Some?
      ensures ok == r.ok && |data| == MAX_RCV_DATA_LEN
      ensures ok ==> data == Buffer(clients[i], r.registers)
    {
      data := seq(MAX_RCV_DATA_LEN, _ => 0);
      if !r.ok {
        return data, false;
      }
      return Buffer(clients[i], r.registers), true;
    }

    method ModbusCloseConnection(i: nat)
      requires Valid() && i < |clients|
      modifies this`liveContexts, context
      ensures Valid()
      ensures context[..] == old(context[..])[i := None]
    {
      if context[i].Some? {
        liveContexts := liveContexts - {context[i].value};
        context[i] := None;
      }
    }

    // ----- the manager's operations -----

    /** One round of the loop in manager_init_connections. */
    method ConnectClient(i: nat, a: Attempt, first: bool, shared: bool) returns (up: bool, opcConnected: bool)
      requires Valid() && i < |clients| && context[i].None? && (first ==> handler.None?)
      modifies this, connected, context
      ensures Valid()
      ensures connected[..] == old(connected[..])[i := up]
      ensures forall k :: 0 <= k < context.Length && k != i ==> context[k] == old(context[k])
      ensures context[i].Some? <==> clients[i].protocol.Modbus? && a.created
      ensures clients[i].protocol.Modbus? ==>
                up == ContextConnects(clients[i], a) && opcConnected == shared && handler == old(handler)
      ensures clients[i].protocol.Opc? ==>
                && up == opcConnected == (if first then HandleConnects(clients[i], a) else shared)
                && handler.Some? == (if first then HandleKept(clients[i], a) else old(handler).Some?)
    {
      opcConnected := shared;
      if clients[i].protocol.Modbus? {
        up := ModbusConnect(i, a);
        connected[i] := up;
      } else {
        if first {
          opcConnected := OpcConnect(clients[i], a);
        }
        up := opcConnected;
        connected[i] := up;
      }
    }

    /** The first i clients are connected as InitialLinks says; `first` and `shared` are the two local flags. */
    ghost predicate Connecting(attempts: seq<Attempt>, i: nat, first: bool, shared: bool)
      requires Allocated() && |attempts| == |clients|
      reads this, connected, context
    {
      var j := FirstOpc(clients);
      && Valid() && i <= |clients| && (first <==> i <= j)
      && (!first ==> shared == HandleConnects(clients[j], attempts[j]))
      && (handler.Some? <==> !first && HandleKept(clients[j], attempts[j]))
      && (forall k :: 0 <= k < i ==> connected[k] == InitiallyConnected(clients, attempts, k))
      && (forall k :: 0 <= k < i ==> context[k].Some? == (clients[k].protocol.Modbus? && attempts[k].created))
      && (forall k :: i <= k < |clients| ==> context[k].None?)
    }

    method ConnectNext(attempts: seq<Attempt>, i: nat, first: bool, shared: bool)
      returns (up: bool, first': bool, shared': bool)
      requires Allocated() && |attempts| == |clients| && Connecting(attempts, i, first, shared) && i < |clients|
      modifies this, connected, context
      ensures Connecting(attempts, i + 1, first', shared') && up == InitiallyConnected(clients, attempts, i)
    {
      up, shared' := ConnectClient(i, attempts[i], first, shared);
      first' := first && clients[i].protocol.Modbus?;
    }

    method InitConnections(attempts: seq<Attempt>) returns (ok: bool)
      requires Valid() && |attempts| == |clients|
      requires handler.None? && forall i :: 0 <= i < |clients| ==> context[i].None?
      modifies this, connected, context
      ensures Valid() && State() == InitialLinks(clients, attempts)
      ensures ok <==> forall i :: 0 <= i < |clients| ==> connected[i]
    {
      var first, shared := true, false;
      ok := true;
      for i := 0 to |clients|
        invariant Connecting(attempts, i, first, shared)
        invariant ok <==> forall k :: 0 <= k < i ==> InitiallyConnected(clients, attempts, k)
      {
        var up;
        up, first, shared := ConnectNext(attempts, i, first, shared);
        ok := ok && up;
      }
      assert State().connected == InitialLinks(clients, attempts).connected;
      assert State().context == InitialLinks(clients, attempts).context;
    }

    method ReceiveDataSimple(innerIdx: int, r: Answer, before: ClientData) returns (d: ClientData, ok: bool)
      requires Valid() && Sound(clients, State()) && ValidSettings(clients, |clients|)
      modifies connected, this`readCalls
      ensures readCalls == old(readCalls) + Bit(0 <= innerIdx < |clients| && old(connected[innerIdx]))
      ensures !(0 <= innerIdx < |clients|) ==> !ok && State() == old(State())
      ensures 0 <= innerIdx < |clients| ==>
                var c, l := clients[innerIdx], old(State());
                && ok == (l.connected[innerIdx] && Answers(c, r))
                && State() == (if !l.connected[innerIdx] || ok then l else Dropped(clients, l, innerIdx))
                && (if ok then Delivered(width, order, c, r, before, d) else d == before)
    {
      d := before;
      if innerIdx < 0 || innerIdx > |clients| - 1 {
        return d, false;
      }
      if !connected[innerIdx] {
        return d, false;
      }
      var c := clients[innerIdx];
      assert ValidClient(c, innerIdx) && State().connected[innerIdx];
      readCalls := readCalls + 1;
      if c.protocol.Modbus? {
        var data, received := ModbusReceiveData(innerIdx, r);
        if received {
          var converted;
          d, converted := ModbusToClientData(width, order, data, c.dataType, d);
          if !converted {
            return d, false;
          }
        } else {
          SetConnectStatus(innerIdx, false);
          return d, false;
        }
      } else {
        var received;
        d, received := OpcReceiveData(c, r, d);
        if !received {
          SetConnectStatus(innerIdx, false);
          return d, false;
        }
      }
      return d, true;
    }

    method Reconnect(innerIdx: int, a: Attempt) returns (ok: bool)
      requires Valid()
      modifies this, connected
      ensures Valid()
      ensures reconnectCalls == old(reconnectCalls) + Bit(0 <= innerIdx < |clients|) && readCalls == old(readCalls)
      ensures !(0 <= innerIdx < |clients|) ==> !ok && State() == old(State())
      ensures 0 <= innerIdx < |clients| ==>
                && ok == Reconnects(clients[innerIdx], context[innerIdx].Some?, a)
                && State() == Relinked(clients, old(State()), innerIdx, a)
    {
      if innerIdx < 0 || innerIdx > |clients| - 1 {
        return false;
      }
      reconnectCalls := reconnectCalls + 1;
      var c := clients[innerIdx];
      if c.protocol.Modbus? {
        ok := ModbusReconnect(innerIdx, a);
        SetConnectStatus(innerIdx, ok);
      } else {
        OpcCloseConnection();
        ok := OpcConnect(c, a);
        SetConnectStatus(innerIdx, ok);
      }
      assert State().context == old(State()).context;
    }

    method ReceiveData(innerIdx: int, e: Exchange, before: ClientData) returns (d: ClientData, ok: bool)
      requires Valid() && Sound(clients, State()) && ValidSettings(clients, |clients|)
      modifies this, connected
      ensures Valid() && Sound(clients, State())
      ensures !(0 <= innerIdx < |clients|) ==> !ok && State() == old(State())
      ensures 0 <= innerIdx < |clients| ==>
                var r := Receive(clients, old(State()), innerIdx, e);
                && State() == r.links && ok == r.ok
                && reconnectCalls == old(reconnectCalls) + r.reconnectCount && readCalls == old(readCalls) + r.readCount
                && (ok ==> Delivered(width, order, clients[innerIdx], AnswerUsed(clients, old(State()), innerIdx, e),
                                     before, d))
    {
      d := before;
      if innerIdx < 0 || innerIdx > |clients| - 1 {
        return d, false;
      }
      ReceiveIsSteps(clients, State(), innerIdx, e);
      ReceiveContract(clients, State(), innerIdx, e);
      StepsSound(clients, State(), innerIdx, e.first);
      if !connected[innerIdx] {
        var up := Reconnect(innerIdx, e.first);
        if !up {
          return d, false;
        }
      }
      ghost var l1 := State();
      StepsSound(clients, l1, innerIdx, e.second);
      d, ok := ReceiveDataSimple(innerIdx, e.firstAnswer, d);
      if !ok {
        assert State() == Dropped(clients, l1, innerIdx);
        d, ok := ReceiveAgain(innerIdx, e.second, e.secondAnswer, d);
      }
    }

    /** After a failed read: the flag is dropped, then a reconnect is tried. */
    method DropAndReconnect(i: nat, a: Attempt) returns (up: bool)
      requires Valid() && Sound(clients, State()) && i < |clients|
      modifies this, connected
      ensures Valid() && Sound(clients, State())
      ensures State() == Relinked(clients, old(State()), i, a) && up == State().connected[i]
      ensures reconnectCalls == old(reconnectCalls) + 1 && readCalls == old(readCalls)
    {
      StepsSound(clients, State(), i, a);
      SetConnectStatus(i, false);
      up := Reconnect(i, a);
    }

    /** The second half of manager_receive_data. */
    method ReceiveAgain(i: nat, a: Attempt, r: Answer, before: ClientData) returns (d: ClientData, ok: bool)
      requires Valid() && Sound(clients, State()) && ValidSettings(clients, |clients|) && i < |clients|
      modifies this, connected
      ensures Valid()
      ensures var l := Relinked(clients, old(State()), i, a);
              && ok == (l.connected[i] && Answers(clients[i], r))
              && State() == (if !l.connected[i] || ok then l else Dropped(clients, l, i))
              && reconnectCalls == old(reconnectCalls) + 1
              && readCalls == old(readCalls) + Bit(l.connected[i])
      ensures if ok then Delivered(width, order, clients[i], r, before, d) else d == before
    {
      d := before;
      var up := DropAndReconnect(i, a);
      if !up {
        return d, false;
      }
      d, ok := ReceiveDataSimple(i, r, d);
      if !ok {
        return d, false;
      }
      StatusUnchanged(clients, State(), i);
      SetConnectStatus(i, true);
    }

    /** manager_close_all_connections: afterwards nothing is alive. */
    method CloseAllConnections()
      requires Valid()
      modifies this, connected, context
      ensures Valid()
      ensures liveHandles == {} && liveContexts == map[]
      ensures forall i :: 0 <= i < |clients| ==> !connected[i]
    {
      var opcClosed := false;
      for i := 0 to |clients|
        invariant Valid()
        invariant opcClosed <==> i > FirstOpc(clients)
        invariant opcClosed ==> handler.None?
        invariant forall k :: 0 <= k < i ==> !connected[k] && context[k].None?
      {
        if clients[i].protocol.Modbus? {
          ModbusCloseConnection(i);
        } else if !opcClosed {
          OpcCloseConnection();
          opcClosed := true;
        }
        connected[i] := false;
      }
    }
  }
}
