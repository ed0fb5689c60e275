/** Modbus words to C values (modbusToClientData), down to the bytes in memory:
    the value does not depend on the byte order of the host. */
module Decode {
  import opened CInts
  import opened Types

  const MAX_RCV_DATA_LEN := 10

  datatype ByteOrder = BigEndian | LittleEndian

  // ---------- memory ----------

  /** The bytes of 16-bit words lying in memory one after the other. */
  function Memory(order: ByteOrder, ws: seq<word>): seq<int> {
    if ws == [] then []
    else
      var w := ws[|ws| - 1];
      Memory(order, ws[..|ws| - 1]) + if order.BigEndian? then [w / 256, w % 256] else [w % 256, w / 256]
  }

  /** The unsigned integer a host of the given order sees in some bytes. */
  function Load(order: ByteOrder, bytes: seq<int>): int
    decreases |bytes|
  {
    if bytes == [] then 0
    else if order.BigEndian? then bytes[|bytes| - 1] + 256 * Load(order, bytes[..|bytes| - 1])
    else bytes[0] + 256 * Load(order, bytes[1..])
  }

  /** The meaning of registers, lowest word first: the sum of ws[i] * 2^(16i). */
  function WordsValue(ws: seq<word>): nat {
    if ws == [] then 0 else ws[0] + TWO16 * WordsValue(ws[1..])
  }

  function Reversed(ws: seq<word>): (r: seq<word>)
    ensures |r| == |ws|
    ensures forall k :: 0 <= k < |ws| ==> r[k] == ws[|ws| - 1 - k]
  {
    if ws == [] then [] else Reversed(ws[1..]) + [ws[0]]
  }

  lemma {:induction false} LoadBigEndian(ws: seq<word>)
    ensures Load(BigEndian, Memory(BigEndian, Reversed(ws))) == WordsValue(ws)
  {
    if ws != [] {
      var w, rest := ws[0], Memory(BigEndian, Reversed(ws[1..]));
      LoadBigEndian(ws[1..]);
      assert Reversed(ws)[..|ws| - 1] == Reversed(ws[1..]);
      var high := rest + [w / 256];
      var all := rest + [w / 256, w % 256];
      assert Memory(BigEndian, Reversed(ws)) == all;
      assert all[..|all| - 1] == high && high[..|high| - 1] == rest;
    }
  }

  lemma {:induction false} MemoryHead(ws: seq<word>)
    requires ws != []
    ensures Memory(LittleEndian, ws) == [ws[0] % 256, ws[0] / 256] + Memory(LittleEndian, ws[1..])
  {
    if |ws| > 1 {
      MemoryHead(ws[..|ws| - 1]);
      assert ws[..|ws| - 1][1..] == ws[1..][..|ws| - 2];
    }
  }

  lemma {:induction false} LoadLittleEndian(ws: seq<word>)
    ensures Load(LittleEndian, Memory(LittleEndian, ws)) == WordsValue(ws)
  {
    if ws != [] {
      MemoryHead(ws);
      LoadLittleEndian(ws[1..]);
      var all := Memory(LittleEndian, ws);
      assert all[1..][1..] == Memory(LittleEndian, ws[1..]);
    }
  }

  // ---------- the conversion ----------

  /** What modbusToClientData leaves in serviceData before it copies the bytes. */
  function ServiceWords(order: ByteOrder, ws: seq<word>): seq<word> {
    if order.BigEndian? then Reversed(ws) else ws
  }

  lemma ByteOrderIndependence(order: ByteOrder, ws: seq<word>)
    ensures Load(order, Memory(order, ServiceWords(order, ws))) == WordsValue(ws)
  {
    if order.BigEndian? {
      LoadBigEndian(ws);
    } else {
      LoadLittleEndian(ws);
    }
  }

  lemma {:induction false} WordsValueBound(ws: seq<word>)
    ensures |ws| == 2 ==> WordsValue(ws) < TWO32
    ensures |ws| == 4 ==> WordsValue(ws) < TWO64
  {
    if |ws| == 2 || |ws| == 4 {
      assert WordsValue(ws[2..]) >= 0;
      assert ws[1..][1..] == ws[2..];
      if |ws| == 4 {
        assert ws[2..][1..] == ws[3..] && ws[3..][1..] == [];
        assert WordsValue(ws[2..]) == ws[2] + TWO16 * WordsValue(ws[3..]);
      }
    }
  }

  /** Fills the service buffer: a reversing loop on a big-endian host, a plain copy on a little-endian one. */
  method FillService(order: ByteOrder, data: seq<word>, numToCopy: nat) returns (service: array<word>)
    requires numToCopy <= |data| == MAX_RCV_DATA_LEN
    ensures fresh(service) && service.Length == MAX_RCV_DATA_LEN
    ensures service[..numToCopy] == ServiceWords(order, data[..numToCopy])
  {
    service := new word[MAX_RCV_DATA_LEN](_ => 0);
    if order.BigEndian? {
      var servicePos, dataPos := 0, numToCopy - 1;
      while servicePos < numToCopy
        invariant servicePos <= numToCopy && dataPos == numToCopy - 1 - servicePos
        invariant forall k :: 0 <= k < servicePos ==> service[k] == data[numToCopy - 1 - k]
      {
        service[servicePos] := data[dataPos];
        servicePos, dataPos := servicePos + 1, dataPos - 1;
      }
    } else {
      forall k | 0 <= k < numToCopy {
        service[k] := data[k];
      }
    }
  }

  /** A copy of the first bytes of the buffer into an integer field. */
  method CopyOut(order: ByteOrder, data: seq<word>, numToCopy: nat) returns (value: nat)
    requires numToCopy <= |data| == MAX_RCV_DATA_LEN
    ensures value == WordsValue(data[..numToCopy])
  {
    var service := FillService(order, data, numToCopy);
    ByteOrderIndependence(order, data[..numToCopy]);
    value := Load(order, Memory(order, service[..numToCopy]));
  }

  /** The number of words in the C type a reading is copied into. */
  function WordsIn(w: LongWidth, t: DataType): nat {
    if t.Time? && w.Long64? then 4 else 2
  }

  /** What the registers of a client of a type other than DOUBLE and CHAR mean. */
  function Decoded(w: LongWidth, data: seq<word>, t: DataType, old_: ClientData): ClientData
    requires |data| == MAX_RCV_DATA_LEN
  {
    var value := WordsValue(data[..WordsIn(w, t)]);
    match t
    case Bool => old_.(dataType := t, dataBool := data[0] != 0)
    case Int => old_.(dataType := t, dataInt := ToInt(value))
    case Dword => old_.(dataType := t, dataDword := ToDword(value))
    case Time => old_.(dataType := t, dataTime := w.ToLong(value))
    case Enum => old_.(dataType := t, dataEnum := ToInt(value))
    case _ => old_.(dataType := t)
  }

  /** What the DOUBLE case leaves: eight bytes are copied to the address of the DWORD field, so that field gets the
      half of the number that comes first in memory, whatever lies behind it (padding or the time) may change,
      and the double itself is not written at all. */
  predicate DoubleMisplaced(order: ByteOrder, data: seq<word>, old_: ClientData, d: ClientData)
    requires |data| == MAX_RCV_DATA_LEN
  {
    var half := if order.BigEndian? then data[2..4] else data[..2];
    d == old_.(dataType := Double, dataDword := ToDword(WordsValue(half)), dataTime := d.dataTime)
  }

  /** The double case: the first four of the eight bytes, read back as a DWORD. */
  method CopyDouble(order: ByteOrder, data: seq<word>, old_: ClientData) returns (d: ClientData)
    requires |data| == MAX_RCV_DATA_LEN
    ensures DoubleMisplaced(order, data, old_.(dataType := Double), d)
  {
    var service := FillService(order, data, 4);
    ghost var half := if order.BigEndian? then data[2..4] else data[..2];
    assert service[..2] == service[..4][..2] == ServiceWords(order, half);
    ByteOrderIndependence(order, half);
    WordsValueBound(half);
    var behind: int := *;
    d := old_.(dataType := Double, dataDword := Load(order, Memory(order, service[..2])), dataTime := behind);
  }

  /** modbusToClientData */
  method ModbusToClientData(w: LongWidth, order: ByteOrder, data: seq<word>, t: DataType, old_: ClientData)
    returns (d: ClientData, ok: bool)
    requires |data| == MAX_RCV_DATA_LEN
    ensures ok <==> !t.Char?
    ensures if t.Double? then DoubleMisplaced(order, data, old_, d) else d == Decoded(w, data, t, old_)
  {
    d, ok := old_.(dataType := t), true;
    match t {
      case Bool =>
        d := d.(dataBool := data[0] != 0);
      case Int =>
        var value := CopyOut(order, data, WordsIn(w, t));
        d := d.(dataInt := ToInt(value));
      case Dword =>
        var value := CopyOut(order, data, WordsIn(w, t));
        WordsValueBound(data[..WordsIn(w, t)]);
        d := d.(dataDword := value);
      case Double =>
        d := CopyDouble(order, data, d);
      case Time =>
        var value := CopyOut(order, data, WordsIn(w, t));
        d := d.(dataTime := w.ToLong(value));
      case Enum =>
        var value := CopyOut(order, data, WordsIn(w, t));
        d := d.(dataEnum := ToInt(value));
      case Char =>
        ok := false;
    }
  }

  // ---------- round trips ----------

  /** An integer as n registers, lowest word first; negative numbers in two's complement. */
  function ToWords(value: int, n: nat): (ws: seq<word>)
    ensures |ws| == n
    decreases n
  {
    if n == 0 then [] else [value % TWO16] + ToWords(value / TWO16, n - 1)
  }

  lemma TwoWords(value: int)
    ensures Congruent(WordsValue(ToWords(value, 2)), value) && 0 <= WordsValue(ToWords(value, 2)) < TWO32
  {
    var ws := ToWords(value, 2);
    assert ws[1..] == ToWords(value / TWO16, 1) && ws[1..][1..] == [];
    assert WordsValue(ws[1..]) == (value / TWO16) % TWO16;
    WordsValueBound(ws);
    CongruentBy(WordsValue(ws), value, -(value / TWO16 / TWO16));
  }

  lemma SameResidue(a: int, b: int)
    requires Congruent(a, b)
    ensures ToInt(a) == ToInt(b) && ToDword(a) == ToDword(b)
  {
    CongruentTrans(ToInt(a), a, b);
    CongruentPlus(ToInt(a), b, ToInt(b), b);
    CongruentEqual(ToInt(a) - ToInt(b), 0);
    CongruentTrans(ToDword(a), a, b);
    CongruentPlus(ToDword(a), b, ToDword(b), b);
    CongruentEqual(ToDword(a) - ToDword(b), 0);
  }

  lemma FourWords(value: int) returns (q: int)
    ensures WordsValue(ToWords(value, 4)) == value + TWO64 * q
    ensures 0 <= WordsValue(ToWords(value, 4)) < TWO64
  {
    var ws := ToWords(value, 4);
    var high := value / TWO16 / TWO16;
    assert ws[1..] == ToWords(value / TWO16, 3);
    assert ws[1..][1..] == ToWords(high, 2);
    TwoWords(high);
    var upper := WordsValue(ToWords(high, 2));
    q := (upper - high) / TWO32;
    assert upper == high + TWO32 * q;
    assert WordsValue(ws) == value % TWO16 + TWO16 * ((value / TWO16) % TWO16 + TWO16 * upper);
    WordsValueBound(ws);
  }

  /** A device that sends a number lowest word first is read back exactly, on hosts of either byte order. */
  lemma RoundTrip(w: LongWidth, data: seq<word>, t: DataType, value: int, old_: ClientData)
    requires |data| == MAX_RCV_DATA_LEN && data[..WordsIn(w, t)] == ToWords(value, WordsIn(w, t))
    ensures var d := Decoded(w, data, t, old_);
            && (t.Int? && -TWO31 <= value < TWO31 ==> d.dataInt == value)
            && (t.Enum? && -TWO31 <= value < TWO31 ==> d.dataEnum == value)
            && (t.Dword? && 0 <= value < TWO32 ==> d.dataDword == value)
            && (t.Time? && -w.Half() <= value < w.Half() ==> d.dataTime == value)
  {
    if WordsIn(w, t) == 2 {
      ShortRoundTrip(w, value);
    } else {
      LongRoundTrip(value);
    }
  }

  lemma ShortRoundTrip(w: LongWidth, value: int)
    ensures var words := WordsValue(ToWords(value, 2));
            && (-TWO31 <= value < TWO31 ==> ToInt(words) == value)
            && (0 <= value < TWO32 ==> ToDword(words) == value)
            && (w.Long32? && -TWO31 <= value < TWO31 ==> w.ToLong(words) == value)
  {
    TwoWords(value);
    SameResidue(WordsValue(ToWords(value, 2)), value);
  }

  lemma LongRoundTrip(value: int)
    ensures -TWO63 <= value < TWO63 ==> Long64.ToLong(WordsValue(ToWords(value, 4))) == value
  {
    var q := FourWords(value);
    if -TWO63 <= value < TWO63 {
      LongUnwraps(WordsValue(ToWords(value, 4)), value, q);
    }
  }

  lemma LongUnwraps(words: nat, value: int, q: int)
    requires words == value + TWO64 * q < TWO64 && -TWO63 <= value < TWO63
    ensures Long64.ToLong(words) == value
  {
  }
}
