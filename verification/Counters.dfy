/** The per-client counters (counters.c): a table updated in place, one entry per client. */
module Counters {
  import opened CInts
  import opened Types

  datatype CounterInfo = CounterInfo(
    added: bool,               // pClient != NULL
    current: ClientData,       // the previous reading
    difference: nat,           // unsigned long
    cumulatedNot100: nat,      // unsigned long
    cumulated: int)            // long; -1 until the first update

  /** A table entry as the C runtime zeroes it. */
  const ZERO_INFO := CounterInfo(false, ZeroData(Bool), 0, 0, 0)

  /** What an increasing reading adds to a counter. The INT subtraction is done in `int`. */
  function Increase(w: LongWidth, t: DataType, before: ClientData, after: ClientData): nat {
    if Number(t, after) <= Number(t, before) then 0
    else if t.Int? then w.ToULong(ToInt(after.dataInt - before.dataInt))
    else ToDword(after.dataDword - before.dataDword)
  }

  /** `counter + amount` in unsigned long, evaluated only when there is something to add. */
  function AddULong(w: LongWidth, counter: nat, amount: nat): nat {
    if amount == 0 then counter else w.ToULong(counter + amount)
  }

  function AddLong(w: LongWidth, counter: int, amount: nat): int {
    if amount == 0 then counter else w.ToLong(counter + amount)
  }

  function AfterAdd(c: ClientSettings, info: CounterInfo): CounterInfo {
    info.(added := true, cumulated := if c.counter.Cumulated? then -1 else info.cumulated)
  }

  /** counterUpdate: the entry afterwards, and the result. */
  function AfterUpdate(w: LongWidth, c: ClientSettings, info: CounterInfo, d: ClientData): (CounterInfo, bool) {
    if !info.added then (info, false)
    else match c.counter
      case NoCounter => (info.(current := d), true)
      case Difference =>
        if !c.Numeric() then (info, false)
        else (info.(current := d,
                    difference := AddULong(w, info.difference, Increase(w, c.dataType, info.current, d))), true)
      case CumulatedNot100 =>
        if !c.Numeric() then (info, false)
        else (info.(current := d,
                    cumulatedNot100 := if Number(c.dataType, d) != 100 then w.ToULong(info.cumulatedNot100 + 1)
                                       else info.cumulatedNot100), true)
      case Cumulated =>
        if info.cumulated == -1 then (info.(current := d, cumulated := 0), true)
        else if !c.Numeric() then (info, false)
        else (info.(current := d,
                    cumulated := AddLong(w, info.cumulated, CumulatedStep(w, c.dataType, info.current, d))), true)
  }

  /** What one reading adds to a "cumulated" counter: increases only for INT, modular differences for DWORD. */
  function CumulatedStep(w: LongWidth, t: DataType, before: ClientData, after: ClientData): nat {
    if t.Dword? then ToDword(after.dataDword - before.dataDword) else Increase(w, t, before, after)
  }

  /** The value of the counter attached to a client. */
  function CounterValue(c: ClientSettings, info: CounterInfo): int {
    match c.counter
    case NoCounter => Number(c.dataType, info.current)
    case Difference => info.difference
    case CumulatedNot100 => info.cumulatedNot100
    case Cumulated => info.cumulated
  }

  /** counterGet: the reading with its number replaced by the counter value, and the result. */
  function Fetched(c: ClientSettings, info: CounterInfo, d: ClientData): (ClientData, bool) {
    if c.counter.NoCounter? then (info.current, true)
    else match c.dataType
      case Int => (d.(dataType := Int, dataInt := ToInt(CounterValue(c, info))), true)
      case Dword => (d.(dataType := Dword, dataDword := ToDword(CounterValue(c, info))), true)
      case _ => (d, false)
  }

  function AfterReset(c: ClientSettings, info: CounterInfo): CounterInfo {
    match c.counter
    case NoCounter => info
    case Difference => info.(difference := 0)
    case CumulatedNot100 => info.(cumulatedNot100 := 0)
    case Cumulated => info.(cumulated := 0)
  }

  class CounterTable {
    const width: LongWidth
    const entries: array<CounterInfo>

    constructor (width: LongWidth, capacity: nat)
      ensures this.width == width && fresh(entries)
      ensures entries.Length == capacity
      ensures forall i :: 0 <= i < capacity ==> entries[i] == ZERO_INFO
    {
      this.width := width;
      entries := new CounterInfo[capacity](_ => ZERO_INFO);
    }

    method Add(c: ClientSettings)
      requires c.innerIdx < entries.Length
      modifies entries
      ensures entries[..] == old(entries[..])[c.innerIdx := AfterAdd(c, old(entries[c.innerIdx]))]
    {
      var i := c.innerIdx;
      entries[i] := entries[i].(added := true);
      if c.counter.Cumulated? {
        entries[i] := entries[i].(cumulated := -1);
      }
    }

    /** The "difference" case: an increase is added. */
    method UpdateDifference(c: ClientSettings, d: ClientData) returns (ok: bool)
      requires c.innerIdx < entries.Length
      modifies entries
      ensures ok == c.Numeric()
      ensures entries[..] == old(entries[..])[c.innerIdx := entries[c.innerIdx]]
      ensures var info := old(entries[c.innerIdx]);
              var step := if ok then Increase(width, c.dataType, info.current, d) else 0;
              entries[c.innerIdx] == info.(difference := AddULong(width, info.difference, step))
    {
      var i := c.innerIdx;
      match c.dataType {
        case Int =>
          if d.dataInt > entries[i].current.dataInt {
            var increase := width.ToULong(ToInt(d.dataInt - entries[i].current.dataInt));
            entries[i] := entries[i].(difference := width.ToULong(entries[i].difference + increase));
          }
        case Dword =>
          if d.dataDword > entries[i].current.dataDword {
            var increase := ToDword(d.dataDword - entries[i].current.dataDword);
            entries[i] := entries[i].(difference := width.ToULong(entries[i].difference + increase));
          }
        case _ =>
          return false;
      }
      return true;
    }

    /** The "cumulated_not_100" case: a reading other than 100 is counted. */
    method UpdateNot100(c: ClientSettings, d: ClientData) returns (ok: bool)
      requires c.innerIdx < entries.Length
      modifies entries
      ensures ok == c.Numeric()
      ensures entries[..] == old(entries[..])[c.innerIdx := entries[c.innerIdx]]
      ensures var info := old(entries[c.innerIdx]);
              var counts := ok && Number(c.dataType, d) != 100;
              var counter := if counts then width.ToULong(info.cumulatedNot100 + 1) else info.cumulatedNot100;
              entries[c.innerIdx] == info.(cumulatedNot100 := counter)
    {
      var i := c.innerIdx;
      match c.dataType {
        case Int =>
          if d.dataInt != 100 {
            entries[i] := entries[i].(cumulatedNot100 := width.ToULong(entries[i].cumulatedNot100 + 1));
          }
        case Dword =>
          if d.dataDword != 100 {
            entries[i] := entries[i].(cumulatedNot100 := width.ToULong(entries[i].cumulatedNot100 + 1));
          }
        case _ =>
          return false;
      }
      return true;
    }

    /** The "cumulated" case after its first update. */
    method UpdateCumulated(c: ClientSettings, d: ClientData) returns (ok: bool)
      requires c.innerIdx < entries.Length
      modifies entries
      ensures ok == c.Numeric()
      ensures entries[..] == old(entries[..])[c.innerIdx := entries[c.innerIdx]]
      ensures var info := old(entries[c.innerIdx]);
              var step := if ok then CumulatedStep(width, c.dataType, info.current, d) else 0;
              entries[c.innerIdx] == info.(cumulated := AddLong(width, info.cumulated, step))
    {
      var i := c.innerIdx;
      match c.dataType {
        case Int =>
          if d.dataInt > entries[i].current.dataInt {
            var increase := width.ToULong(ToInt(d.dataInt - entries[i].current.dataInt));
            entries[i] := entries[i].(cumulated := width.ToLong(entries[i].cumulated + increase));
          }
        case Dword =>
          if d.dataDword != entries[i].current.dataDword {
            var change := ToDword(d.dataDword - entries[i].current.dataDword);
            entries[i] := entries[i].(cumulated := width.ToLong(entries[i].cumulated + change));
          }
        case _ =>
          return false;
      }
      return true;
    }

    method Update(c: ClientSettings, d: ClientData) returns (ok: bool)
      requires c.innerIdx < entries.Length
      modifies entries
      ensures (entries[c.innerIdx], ok) == AfterUpdate(width, c, old(entries[c.innerIdx]), d)
      ensures entries[..] == old(entries[..])[c.innerIdx := entries[c.innerIdx]]
    {
      var i := c.innerIdx;
      if !entries[i].added {
        return false;
      }
      ok := true;
      match c.counter {
        case NoCounter =>
        case Difference =>
          ok := UpdateDifference(c, d);
        case CumulatedNot100 =>
          ok := UpdateNot100(c, d);
        case Cumulated =>
          if entries[i].cumulated == -1 {
            entries[i] := entries[i].(cumulated := 0);
          } else {
            ok := UpdateCumulated(c, d);
          }
      }
      if ok {
        entries[i] := entries[i].(current := d);
      }
    }

    method Get(c: ClientSettings, d: ClientData) returns (value: ClientData, ok: bool)
      requires c.innerIdx < entries.Length
      ensures (value, ok) == Fetched(c, entries[c.innerIdx], d)
    {
      var info := entries[c.innerIdx];
      value := d;
      match c.counter {
        case NoCounter =>
          value := info.current;
        case Difference =>
          match c.dataType {
            case Int => value := value.(dataType := Int, dataInt := ToInt(info.difference));
            case Dword => value := value.(dataType := Dword, dataDword := ToDword(info.difference));
            case _ => return value, false;
          }
        case CumulatedNot100 =>
          match c.dataType {
            case Int => value := value.(dataType := Int, dataInt := ToInt(info.cumulatedNot100));
            case Dword => value := value.(dataType := Dword, dataDword := ToDword(info.cumulatedNot100));
            case _ => return value, false;
          }
        case Cumulated =>
          match c.dataType {
            case Int => value := value.(dataType := Int, dataInt := ToInt(info.cumulated));
            case Dword => value := value.(dataType := Dword, dataDword := ToDword(info.cumulated));
            case _ => return value, false;
          }
      }
      ok := true;
    }

    method Reset(c: ClientSettings)
      requires c.innerIdx < entries.Length
      modifies entries
      ensures entries[..] == old(entries[..])[c.innerIdx := AfterReset(c, old(entries[c.innerIdx]))]
    {
      var i := c.innerIdx;
      if c.counter.Difference? {
        entries[i] := entries[i].(difference := 0);
      } else if c.counter.CumulatedNot100? {
        entries[i] := entries[i].(cumulatedNot100 := 0);
      } else if c.counter.Cumulated? {
        entries[i] := entries[i].(cumulated := 0);
      }
    }
  }
}
