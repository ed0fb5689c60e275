/** The poll queues (client_queue.c): one packed array of client indices and one
    cursor per refresh rate. Free cells hold -1. */
module ClientQueue {
  import opened Types

  /** The ids in the used cells of a lane. */
  function Packed(cells: seq<int>): seq<int> {
    if cells == [] || cells[0] == -1 then [] else [cells[0]] + Packed(cells[1..])
  }

  /** No used cell after a free one. */
  predicate Tight(cells: seq<int>) {
    forall i, j :: 0 <= i < j < |cells| && cells[i] == -1 ==> cells[j] == -1
  }

  lemma {:induction false} PackedPrefix(cells: seq<int>)
    requires Tight(cells)
    ensures var n := |Packed(cells)|;
            && n <= |cells|
            && Packed(cells) == cells[..n]
            && -1 !in Packed(cells)
            && forall i :: n <= i < |cells| ==> cells[i] == -1
  {
    if cells != [] && cells[0] != -1 {
      PackedPrefix(cells[1..]);
    }
  }

  /** Only the packed prefix matters: any tight array with these used cells has these ids. */
  lemma {:induction false} PackedOf(cells: seq<int>, n: nat)
    requires n <= |cells| && -1 !in cells[..n] && forall i :: n <= i < |cells| ==> cells[i] == -1
    ensures Tight(cells) && Packed(cells) == cells[..n]
  {
    assert forall i :: 0 <= i < n ==> cells[i] == cells[..n][i];
    if n > 0 {
      assert cells[1..][..n - 1] == cells[..n][1..];
      PackedOf(cells[1..], n - 1);
    }
  }

  class Queue {
    const capacity: nat
    const rate100ms: array<int>
    const rate1s: array<int>
    const rate1m: array<int>
    var pos100ms: nat
    var pos1s: nat
    var pos1m: nat

    function Cells(rate: RefreshRate): array<int> {
      match rate
      case Rate100ms => rate100ms
      case Rate1s => rate1s
      case Rate1m => rate1m
    }

    function Pos(rate: RefreshRate): nat
      reads this
    {
      match rate
      case Rate100ms => pos100ms
      case Rate1s => pos1s
      case Rate1m => pos1m
    }

    /** The abstract queue of one rate. */
    function Lane(rate: RefreshRate): seq<int>
      reads Cells(rate)
    {
      Packed(Cells(rate)[..])
    }

    ghost predicate Allocated() {
      && 0 < capacity
      && rate100ms.Length == rate1s.Length == rate1m.Length == capacity
      && rate100ms != rate1s && rate100ms != rate1m && rate1s != rate1m
    }

    ghost predicate Valid()
      reads rate100ms, rate1s, rate1m
    {
      Allocated() && forall rate :: Tight(Cells(rate)[..])
    }

    /** The entry a cursor position stands for: the end of the array reads as -1. */
    function At(rate: RefreshRate, pos: nat): int
      reads Cells(rate)
    {
      if pos < |Lane(rate)| then Lane(rate)[pos] else -1
    }

    constructor (capacity: nat)
      requires 0 < capacity
      ensures Allocated() && this.capacity == capacity
      ensures fresh(rate100ms) && fresh(rate1s) && fresh(rate1m)
    {
      this.capacity := capacity;
      rate100ms := new int[capacity](_ => 0);
      rate1s := new int[capacity](_ => 0);
      rate1m := new int[capacity](_ => 0);
      pos100ms, pos1s, pos1m := 0, 0, 0;
    }

    method Clean()
      requires Allocated()
      modifies this, rate100ms, rate1s, rate1m
      ensures Valid()
      ensures forall rate :: Lane(rate) == [] && Pos(rate) == 0
    {
      pos100ms, pos1s, pos1m := 0, 0, 0;
      for i := 0 to capacity
        invariant pos100ms == pos1s == pos1m == 0
        invariant forall k :: 0 <= k < i ==> rate100ms[k] == rate1m[k] == rate1s[k] == -1
      {
        rate100ms[i] := -1;
        rate1m[i] := -1;
        rate1s[i] := -1;
      }
      forall rate
        ensures Tight(Cells(rate)[..]) && Lane(rate) == []
      {
        PackedOf(Cells(rate)[..], 0);
      }
    }

    /** Appends a client to the lane of its rate; fails, changing nothing, exactly when the lane is full. */
    method Add(rate: RefreshRate, clientId: nat) returns (ok: bool)
      requires Valid()
      modifies Cells(rate)
      ensures Valid()
      ensures ok <==> |old(Lane(rate))| < capacity
      ensures Lane(rate) == if ok then old(Lane(rate)) + [clientId] else old(Lane(rate))
      ensures forall other :: other != rate ==> Lane(other) == old(Lane(other))
    {
      var cells := Cells(rate);
      ghost var before := cells[..];
      ghost var n := |Packed(before)|;
      PackedPrefix(before);
      var pos := 0;
      while pos < capacity
        invariant pos <= n && pos < capacity && cells[..] == before
      {
        if cells[pos] == -1 {
          break;
        }
        assert before[pos] != -1;
        if pos == capacity - 1 {
          return false;
        }
        pos := pos + 1;
      }
      cells[pos] := clientId;
      assert cells[..][..n + 1] == before[..n] + [clientId];
      PackedOf(cells[..], n + 1);
      return true;
    }

    method GetFirst(rate: RefreshRate) returns (id: int)
      requires Valid()
      modifies this
      ensures Pos(rate) == 0 && id == At(rate, 0)
      ensures forall other :: other != rate ==> Pos(other) == old(Pos(other))
    {
      PackedPrefix(Cells(rate)[..]);
      match rate {
        case Rate100ms => pos100ms := 0;
        case Rate1s => pos1s := 0;
        case Rate1m => pos1m := 0;
      }
      id := Cells(rate)[0];
    }

    /** The next id, or -1; past the last cell the cursor wraps to 0 and the sweep still ends. */
    method GetNext(rate: RefreshRate) returns (id: int)
      requires Valid() && Pos(rate) < capacity
      modifies this
      ensures id == At(rate, old(Pos(rate)) + 1)
      ensures Pos(rate) == if old(Pos(rate)) + 1 == capacity then 0 else old(Pos(rate)) + 1
      ensures id != -1 ==> Pos(rate) == old(Pos(rate)) + 1 < capacity
      ensures forall other :: other != rate ==> Pos(other) == old(Pos(other))
    {
      PackedPrefix(Cells(rate)[..]);
      var pos := Pos(rate) + 1;
      var wrapped := pos == capacity;
      if wrapped {
        pos := 0;
      }
      match rate {
        case Rate100ms => pos100ms := pos;
        case Rate1s => pos1s := pos;
        case Rate1m => pos1m := pos;
      }
      id := if wrapped then -1 else Cells(rate)[pos];
    }
  }

  // ---------- the sweeps ----------

  /** The clients of one rate, in index order: what a sweep should visit. */
  function ClientsAt(clients: seq<ClientSettings>, rate: RefreshRate): (ids: seq<int>)
    ensures |ids| <= |clients|
  {
    if clients == [] then []
    else
      var last := |clients| - 1;
      ClientsAt(clients[..last], rate) + if clients[last].refreshRate == rate then [last] else []
  }

  /** A sweep visits clients of its rate only. */
  lemma {:induction false} VisitsOnly(clients: seq<ClientSettings>, rate: RefreshRate)
    ensures forall id :: id in ClientsAt(clients, rate) ==> 0 <= id < |clients| && clients[id].refreshRate == rate
  {
    if clients != [] {
      var last := |clients| - 1;
      VisitsOnly(clients[..last], rate);
      assert ClientsAt(clients, rate) ==
             ClientsAt(clients[..last], rate) + if clients[last].refreshRate == rate then [last] else [];
    }
  }

  /** It visits them all. */
  lemma {:induction false} VisitsAll(clients: seq<ClientSettings>, rate: RefreshRate, i: nat)
    requires i < |clients| && clients[i].refreshRate == rate
    ensures i in ClientsAt(clients, rate)
  {
    var last := |clients| - 1;
    if i == last {
      assert ClientsAt(clients, rate) == ClientsAt(clients[..last], rate) + [last];
    } else {
      assert clients[..last][i] == clients[i];
      VisitsAll(clients[..last], rate, i);
    }
  }

  predicate Increasing(ids: seq<int>) {
    forall j, k :: 0 <= j < k < |ids| ==> ids[j] < ids[k]
  }

  /** It visits them in index order. */
  lemma {:induction false} VisitsInOrder(clients: seq<ClientSettings>, rate: RefreshRate)
    ensures Increasing(ClientsAt(clients, rate))
  {
    if clients != [] {
      var last := |clients| - 1;
      var before := ClientsAt(clients[..last], rate);
      VisitsInOrder(clients[..last], rate);
      VisitsOnly(clients[..last], rate);
      assert forall j :: 0 <= j < |before| ==> before[j] in before;
    }
  }

  /** Each sweep visits exactly the clients of its rate, each once, in increasing order. */
  lemma SweepVisits(clients: seq<ClientSettings>, rate: RefreshRate)
    ensures var ids := ClientsAt(clients, rate);
            && (forall k :: 0 <= k < |ids| ==> 0 <= ids[k] < |clients| && clients[ids[k]].refreshRate == rate)
            && (forall i :: 0 <= i < |clients| && clients[i].refreshRate == rate ==> i in ids)
            && Increasing(ids)
  {
    VisitsOnly(clients, rate);
    VisitsInOrder(clients, rate);
    assert forall k :: 0 <= k < |ClientsAt(clients, rate)| ==> ClientsAt(clients, rate)[k] in ClientsAt(clients, rate);
    forall i | 0 <= i < |clients| && clients[i].refreshRate == rate
      ensures i in ClientsAt(clients, rate)
    {
      VisitsAll(clients, rate, i);
    }
  }

  /** A lane holds no mark of a free cell. */
  lemma NoFreeCell(clients: seq<ClientSettings>, rate: RefreshRate)
    ensures -1 !in ClientsAt(clients, rate)
  {
    VisitsOnly(clients, rate);
  }

  function UpTo(n: nat): multiset<int> {
    if n == 0 then multiset{} else UpTo(n - 1) + multiset{n - 1}
  }

  /** Together the three sweeps visit every client exactly once. */
  lemma {:induction false} SweepsPartition(clients: seq<ClientSettings>)
    ensures multiset(ClientsAt(clients, Rate100ms)) + multiset(ClientsAt(clients, Rate1s)) +
            multiset(ClientsAt(clients, Rate1m))
            == UpTo(|clients|)
  {
    if clients != [] {
      SweepsPartition(clients[..|clients| - 1]);
    }
  }
}
