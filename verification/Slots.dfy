/** Where the slots are: the index arithmetic on both sides of a channel, for the two memory layouts. */
module Slots {
  import opened Common
  import Arith

  /** A slot in the memory block of process `block`. */
  datatype Ptr = Ptr(block: nat, index: int)

  /** x86: the slot in which `id` receives from `core`; every process leaves itself out. */
  function RecvPtr(id: nat, core: nat): Ptr {
    Ptr(id, if core > id then core - 1 else core)
  }

  /** x86: the slot through which `id` sends to `core`. */
  function SendPtr(id: nat, core: nat): Ptr {
    Ptr(core, if core < id then id - 1 else id)
  }

  /** The sender i and the receiver j of a pair compute the same address. */
  lemma SidesAgree(i: nat, j: nat)
    requires i != j
    ensures SendPtr(i, j) == RecvPtr(j, i)
  {
  }

  /** The sender that belongs to a slot. */
  function SenderAt(p: Ptr): (i: int) {
    if p.index >= p.block then p.index + 1 else p.index
  }

  /** The slots of n processes are exactly the n blocks of n - 1 entries, one for each ordered pair. */
  lemma PairsFillBlocks(n: nat)
    ensures forall i: nat, j: nat :: PairOf(n, i, j) ==>
              0 <= SendPtr(i, j).index < n - 1 && SendPtr(i, j).block < n && SenderAt(SendPtr(i, j)) == i
    ensures forall b: nat, k: nat :: b < n && k < n - 1 ==>
              PairOf(n, SenderAt(Ptr(b, k)), b) && SendPtr(SenderAt(Ptr(b, k)), b) == Ptr(b, k)
    ensures forall i: nat, j: nat, x: nat, y: nat ::
              PairOf(n, i, j) && PairOf(n, x, y) && SendPtr(i, j) == SendPtr(x, y) ==>
              i == x && j == y
  {
  }

  /** Within a block the slots are in the order of the senders' ids. */
  lemma BlocksAreInOrder(id: nat, core: nat, other: nat)
    requires core != id && other != id
    ensures RecvPtr(id, core).block == id
    ensures core < other <==> RecvPtr(id, core).index < RecvPtr(id, other).index
  {
  }

  /** The pointer set-up loops of one x86 process. */
  method FillPointers(n: nat, id: nat) returns (recv: array<Ptr>, send: array<Ptr>)
    requires id < n
    ensures fresh(recv) && fresh(send) && recv.Length == send.Length == n
    ensures forall core :: 0 <= core < n && core != id ==>
              recv[core] == RecvPtr(id, core) && send[core] == SendPtr(id, core)
  {
    recv := new Ptr[n](_ => Ptr(0, 0));
    send := new Ptr[n](_ => Ptr(0, 0));
    var core := 0;
    while core < n
      invariant 0 <= core <= n
      invariant forall c :: 0 <= c < core && c != id ==> recv[c] == RecvPtr(id, c)
    {
      if id != core {
        recv[core] := Ptr(id, if core > id then core - 1 else core);
      }
      core := core + 1;
    }
    core := 0;
    while core < n
      invariant 0 <= core <= n
      invariant forall c :: 0 <= c < n && c != id ==> recv[c] == RecvPtr(id, c)
      invariant forall c :: 0 <= c < core && c != id ==> send[c] == SendPtr(id, c)
    {
      if core != id {
        send[core] := Ptr(core, if core < id then id - 1 else id);
      }
      core := core + 1;
    }
  }

  // ---------------------------------------------------------------- SPARC

  /** SPARC: one matrix for all processes, row by row, one row per receiver. */
  datatype Entry = Entry(row: nat, column: nat)

  predicate InMatrix(n: nat, e: Entry) {
    e.row < n && e.column < n
  }

  /** The entry in which `id` receives from `core`, and the one through which it sends to `core`. */
  function RecvEntry(id: nat, core: nat): Entry {
    Entry(id, core)
  }

  function SendEntry(id: nat, core: nat): Entry {
    Entry(core, id)
  }

  function Index(n: nat, e: Entry): nat {
    e.row * n + e.column
  }

  /** Both sides agree, and the n * n pairs occupy the n * n entries one to one. */
  lemma MatrixIsExact(n: nat, i: nat, j: nat)
    requires i < n && j < n
    ensures Index(n, SendEntry(i, j)) == Index(n, RecvEntry(j, i)) < n * n
    ensures Index(n, SendEntry(i, j)) / n == j && Index(n, SendEntry(i, j)) % n == i
  {
    Arith.ModUnique(j * n + i, n, j, i);
    Arith.InGrid(j, i, n, n);
  }

  lemma MatrixIsFull(n: nat, k: nat)
    requires k < n * n
    ensures n > 0 && InMatrix(n, Entry(k / n, k % n)) && Index(n, Entry(k / n, k % n)) == k
  {
  }

  /** The pointer set-up loop of one SPARC process. */
  method FillMatrixPointers(n: nat, id: nat) returns (recv: array<nat>, send: array<nat>)
    requires id < n
    ensures fresh(recv) && fresh(send) && recv.Length == send.Length == n
    ensures forall core :: 0 <= core < n ==>
              recv[core] == Index(n, RecvEntry(id, core)) && send[core] == Index(n, SendEntry(id, core))
  {
    recv := new nat[n](_ => 0);
    send := new nat[n](_ => 0);
    for core := 0 to n
      invariant forall c :: 0 <= c < core ==>
                  recv[c] == Index(n, RecvEntry(id, c)) && send[c] == Index(n, SendEntry(id, c))
    {
      recv[core] := id * n + core;
      send[core] := core * n + id;
    }
  }
}
