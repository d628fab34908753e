/** The pool of gRPC connections (internal/transport/rpc/client/queue.go, wrapper.go): its
    objects, and its life under concurrent picks, racing replacements and destruction. */
module ConnPool {
  import opened Basics

  const UINT32 := 0x1_0000_0000

  // --- What the pool operations do to the slots ------------------------------------------

  // The first slot holding `old` gets `new`.
  function Replaced<C(==)>(slots: seq<C>, old': C, new': C): (r: seq<C>)
    ensures |r| == |slots|
    ensures old' !in slots ==> r == slots
  {
    if slots == [] then []
    else if slots[0] == old' then [new'] + slots[1..]
    else [slots[0]] + Replaced(slots[1..], old', new')
  }

  lemma ReplacedAt<C>(slots: seq<C>, old': C, new': C, i: nat)
    requires i < |slots| && slots[i] == old' && forall j :: 0 <= j < |slots| && j != i ==> slots[j] != old'
    ensures Replaced(slots, old', new') == slots[i := new']
  {
    if i > 0 {
      var rest := slots[1..];
      assert forall j :: 0 <= j < |rest| ==> rest[j] == slots[j + 1];
      ReplacedAt(rest, old', new', i - 1);
      assert slots[i := new'] == [slots[0]] + rest[i - 1 := new'];
    }
  }

  // InUse is a 32-bit counter: Use adds one, Done adds 2^32 - 1.
  function Raised(load: nat): nat { (load + 1) % UINT32 }
  function Lowered(load: nat): nat { (load + (UINT32 - 1)) % UINT32 }

  // One connection as a scan sees it.
  datatype Peek = Peek(load: nat, dead: bool)

  /** PickLeastLoaded's choice: a live connection of least load, the first such. */
  ghost predicate IsPick(w: seq<Peek>, i: nat) {
    && i < |w| && !w[i].dead
    && (forall j :: 0 <= j < |w| && !w[j].dead ==> w[i].load <= w[j].load)
    && (forall j :: 0 <= j < i && !w[j].dead ==> w[i].load < w[j].load)
  }

  function SumLoads(w: seq<Peek>): nat {
    if w == [] then 0 else SumLoads(w[..|w| - 1]) + w[|w| - 1].load
  }

  // The connections in use.
  function Active(w: seq<Peek>): set<nat> {
    set i: nat | i < |w| && w[i].load > 0
  }

  lemma ActiveAppend(w: seq<Peek>, x: Peek)
    ensures |Active(w + [x])| == |Active(w)| + if x.load > 0 then 1 else 0
  {
    if x.load > 0 { assert Active(w + [x]) == Active(w) + {|w|}; } else { assert Active(w + [x]) == Active(w); }
  }

  // --- The objects -------------------------------------------------------------------------

  class ConnWrapper {
    var id: int
    var inUse: nat
    var closed: bool

    constructor ()
      ensures id == 0 && inUse == 0 && !closed
    {
      id, inUse, closed := 0, 0, false;
    }

    method Use()
      modifies this`inUse
      ensures inUse == Raised(old(inUse))
    {
      inUse := (inUse + 1) % UINT32;
    }

    method Done()
      modifies this`inUse
      ensures inUse == Lowered(old(inUse))
    {
      inUse := (inUse + (UINT32 - 1)) % UINT32;
    }

    method Close()
      modifies this`closed
      ensures closed
    {
      closed := true;
    }

    function View(): Peek
      reads this
    {
      Peek(inUse, closed)
    }
  }

  ghost function Views(w: seq<ConnWrapper>): (v: seq<Peek>)
    reads w
    ensures |v| == |w| && forall i :: 0 <= i < |w| ==> v[i] == w[i].View()
  {
    seq(|w|, i requires 0 <= i < |w| reads w => w[i].View())
  }

  method PickLeastLoaded(w: seq<ConnWrapper>) returns (conn: Option<nat>)
    ensures conn.Some? <==> exists i :: 0 <= i < |w| && !w[i].closed
    ensures conn.Some? ==> IsPick(Views(w), conn.value)
  {
    conn := None;
    var minUsage := 0;
    for i := 0 to |w|
      invariant conn.None? ==> forall j :: 0 <= j < i ==> w[j].closed
      invariant conn.Some? ==> conn.value < i && !w[conn.value].closed && w[conn.value].inUse == minUsage
      invariant conn.Some? ==> forall j :: 0 <= j < i && !w[j].closed ==> minUsage <= w[j].inUse
      invariant conn.Some? ==> forall j :: 0 <= j < conn.value && !w[j].closed ==> minUsage < w[j].inUse
    {
      if w[i].closed {
        continue;
      }
      var load := w[i].inUse;
      if conn.None? || load < minUsage {
        minUsage := load;
        conn := Some(i);
      }
    }
  }

  method GetSummaryStats(w: seq<ConnWrapper>) returns (total: nat, active: nat, totalLoad: nat)
    ensures total == |w| && active == |Active(Views(w))| && totalLoad == SumLoads(Views(w)) % UINT32
  {
    total, active, totalLoad := |w|, 0, 0;
    ghost var v := Views(w);
    for i := 0 to |w|
      invariant active == |Active(v[..i])| && totalLoad == SumLoads(v[..i]) % UINT32
    {
      SummaryNext(v, i);
      var currentLoad := w[i].inUse;
      if currentLoad > 0 {
        active := active + 1;
      }
      totalLoad := (totalLoad + currentLoad) % UINT32;
    }
    assert v[..|w|] == v;
  }

  lemma SummaryNext(v: seq<Peek>, i: nat)
    requires i < |v|
    ensures |Active(v[..i + 1])| == |Active(v[..i])| + if v[i].load > 0 then 1 else 0
    ensures SumLoads(v[..i + 1]) % UINT32 == (SumLoads(v[..i]) % UINT32 + v[i].load) % UINT32
  {
    assert v[..i + 1] == v[..i] + [v[i]] && v[..i + 1][..i] == v[..i];
    ActiveAppend(v[..i], v[i]);
    ModAdd(SumLoads(v[..i]), v[i].load);
  }

  lemma ModAdd(a: nat, b: nat)
    ensures (a % UINT32 + b) % UINT32 == (a + b) % UINT32
  {
  }

  class ConnQueue {
    const size: nat
    var conn: seq<ConnWrapper>
    var shutdown: bool

    // Slot i holds the connection with ID i + 1, each connection once.
    ghost predicate Numbered()
      reads this, conn
    {
      && (forall i :: 0 <= i < |conn| ==> conn[i].id == i + 1)
      && (forall i, j :: 0 <= i < j < |conn| ==> conn[i] != conn[j])
    }

    constructor (size: nat)
      ensures this.size == size && conn == [] && !shutdown && Numbered()
    {
      this.size, this.conn, this.shutdown := size, [], false;
    }

    method Add(c: ConnWrapper)
      requires Numbered() && c !in conn
      modifies this`conn, c`id
      ensures Numbered() && conn == old(conn) + [c]
    {
      c.id := |conn| + 1;
      conn := conn + [c];
    }

    // Init dials `size` connections and stops at the first failure; `dials` tells which succeed.
    method Init(dials: nat -> bool) returns (ok: bool)
      requires conn == [] && Numbered()
      modifies this`conn
      ensures Numbered() && fresh(conn)
      ensures ok <==> forall i :: 0 <= i < size ==> dials(i)
      ensures ok ==> |conn| == size
    {
      for i := 0 to size
        invariant |conn| == i && Numbered() && fresh(conn)
        invariant forall j :: 0 <= j < i ==> dials(j)
      {
        if !dials(i) {
          return false;
        }
        var c := new ConnWrapper();
        Add(c);
      }
      return true;
    }

    // The locked part of replaceConn, with a freshly dialled connection.
    method ReplaceConn(dead: ConnWrapper, c: ConnWrapper) returns (installed: bool)
      requires Numbered() && c !in conn && c != dead
      modifies this`conn, c, dead`closed
      ensures Numbered() && installed == (!old(shutdown) && dead in old(conn))
      ensures conn == if installed then Replaced(old(conn), dead, c) else old(conn)
      ensures installed ==> dead.closed && c.closed == old(c.closed) && dead !in conn
      ensures !installed ==> c.closed && dead.closed == old(dead.closed)
    {
      if shutdown {
        c.Close();
        return false;
      }
      for i := 0 to |conn|
        invariant conn == old(conn) && forall j :: 0 <= j < i ==> conn[j] != dead
      {
        if conn[i] == dead {
          ReplacedAt(conn, dead, c, i);
          c.id := dead.id;
          conn := conn[i := c];
          dead.Close();
          return true;
        }
      }
      c.Close();
      return false;
    }

    method Destroy()
      requires |conn| == size
      modifies this`shutdown, conn
      ensures shutdown && conn == old(conn) && forall c :: c in conn ==> c.closed && c.id == old(c.id)
    {
      shutdown := true;
      for i := 0 to size
        invariant shutdown && conn == old(conn)
        invariant forall j :: 0 <= j < i ==> conn[j].closed
        invariant forall j :: 0 <= j < |conn| ==> conn[j].id == old(conn[j].id)
      {
        conn[i].Close();
      }
    }
  }
}
