/**
  Packet identifiers (section 2.2.1 of MQTT 5.0): the abstract live set, the
  frontier allocator in use, and the set-plus-free-list allocator it replaced.
 */
module PacketIdModel {
  import opened Options

  const MAX_ID: int := 65_535

  predicate InRange(id: int) {
    1 <= id <= MAX_ID
  }

  predicate AtMost(id: int, n: int) {
    1 <= id <= n
  }

  function Upto(n: nat): set<int> {
    set i | 1 <= i <= n && AtMost(i, n)
  }

  function Ids(): set<int> {
    Upto(MAX_ID)
  }

  // ---- what an allocator has to do, over the identifiers in use ----

  /** Hand out an identifier that is in range and not in use; fail only when there is none. */
  predicate Allocates(live: set<int>, r: Option<int>, after: set<int>) {
    match r
    case Some(id) => InRange(id) && id !in live && after == live + {id}
    case None => live == Ids() && after == live
  }

  lemma {:induction false} UptoSize(n: nat)
    ensures |Upto(n)| == n
  {
    if n == 0 {
      assert Upto(0) == {};
    } else {
      UptoSize(n - 1);
      assert Upto(n) == Upto(n - 1) + {n};
    }
  }

  lemma {:induction false} SubsetSize(a: set<int>, b: set<int>)
    requires a <= b
    ensures |a| <= |b| && (|a| == |b| ==> a == b)
  {
    assert b == a + (b - a);
    assert |b| == |a| + |b - a|;
  }

  // ---- the set and the free list ----

  datatype ListPool = ListPool(used: set<int>, free: seq<int>, next: int)

  function InitList(): ListPool {
    ListPool({}, [], 1)
  }

  /** The first position at or after `next` that is not in use. */
  function Skip(used: set<int>, next: int): int
    decreases MAX_ID + 1 - next
  {
    if next <= MAX_ID && next in used then Skip(used, next + 1) else next
  }

  /** The fallback: the first candidate from `c` on that is not in use. */
  function Scan(used: set<int>, c: int): Option<int>
    decreases MAX_ID + 1 - c
  {
    if c > MAX_ID then None else if c !in used then Some(c) else Scan(used, c + 1)
  }

  function RemoveFirst(s: seq<int>, x: int): seq<int> {
    if s == [] then [] else if s[0] == x then s[1..] else [s[0]] + RemoveFirst(s[1..], x)
  }

  function ListFallback(p: ListPool): (ListPool, Option<int>) {
    match Scan(p.used, 1)
    case Some(c) => (p.(used := p.used + {c}), Some(c))
    case None => (p, None)
  }

  function ListAllocate(p: ListPool): (ListPool, Option<int>) {
    if |p.used| >= MAX_ID then (p, None)
    else if p.free != [] then
      var id := p.free[|p.free| - 1];
      (p.(used := p.used + {id}, free := p.free[..|p.free| - 1]), Some(id))
    else
      var n := Skip(p.used, p.next);
      if n <= MAX_ID then (p.(used := p.used + {n}, next := n + 1), Some(n))
      else ListFallback(p.(next := n))
  }

  predicate ReachesFallback(p: ListPool) {
    |p.used| < MAX_ID && p.free == [] && Skip(p.used, p.next) > MAX_ID
  }

  /** Any number may be reserved: there is no range check. */
  function ListReserve(p: ListPool, id: int): ListPool {
    p.(used := p.used + {id}, free := RemoveFirst(p.free, id))
  }

  function ListRelease(p: ListPool, id: int): ListPool {
    if id !in p.used then p
    else if p.used - {id} == {} then InitList()
    else p.(used := p.used - {id}, free := p.free + [id])
  }

  // ---- the frontier ----

  /** Below `next` everything is in use but the free ones; from `next` on only what is reserved. */
  datatype Frontier = Frontier(
    freeCount: int, freeOne: int, freeMany: Option<set<int>>, reserved: Option<set<int>>, next: int)

  function InitFrontier(): Frontier {
    Frontier(0, 0, None, None, 1)
  }

  function Members(s: Option<set<int>>): set<int> {
    match s case None => {} case Some(v) => v
  }

  /** An empty container is dropped. */
  function Keep(s: set<int>): Option<set<int>> {
    if s == {} then None else Some(s)
  }

  function Len(p: Frontier): int {
    p.next - 1 - p.freeCount + |Members(p.reserved)|
  }

  /** The frontier moves over reservations that it reaches. */
  function Absorb(reserved: set<int>, at: int): (set<int>, int)
    decreases |reserved|
  {
    if at in reserved then Absorb(reserved - {at}, at + 1) else (reserved, at)
  }

  predicate PickAllowed(p: Frontier, pick: int) {
    p.freeOne == 0 && p.freeMany.Some? && p.freeMany.value != {} ==> pick in p.freeMany.value
  }

  /** `pick` is the element that the set gives up when one is popped. */
  function FrontierAllocate(p: Frontier, pick: int): (Frontier, Option<int>)
    requires PickAllowed(p, pick)
  {
    if p.freeOne != 0 then (p.(freeOne := 0, freeCount := p.freeCount - 1), Some(p.freeOne))
    else if p.freeMany.Some? && p.freeMany.value != {} then
      (p.(freeMany := Keep(p.freeMany.value - {pick}), freeCount := p.freeCount - 1), Some(pick))
    else
      var (left, mid) := Absorb(Members(p.reserved), p.next);
      var q := if p.reserved.Some? then p.(reserved := Keep(left), next := mid) else p;
      if mid > MAX_ID then (q, None) else (q.(next := mid + 1), Some(mid))
  }

  function FrontierReserve(p: Frontier, id: int): (Frontier, bool) {
    if !InRange(id) then (p, false)
    else if id < p.next then
      if p.freeOne == id then (p.(freeOne := 0, freeCount := p.freeCount - 1), true)
      else if id in Members(p.freeMany) then
        (p.(freeMany := Keep(Members(p.freeMany) - {id}), freeCount := p.freeCount - 1), true)
      else (p, true)
    else if id == p.next then
      var (left, next) := Absorb(Members(p.reserved) - {id}, id + 1);
      (p.(reserved := if p.reserved.Some? then Keep(left) else None, next := next), true)
    else (p.(reserved := Some(Members(p.reserved) + {id})), true)
  }

  function FrontierRelease(p: Frontier, id: int): Frontier {
    if !InRange(id) then p
    else if id < p.next then
      if p.freeOne == id || id in Members(p.freeMany) then p
      else if p.freeCount + 1 == p.next - 1 && p.reserved.None? then InitFrontier()
      else if p.freeOne == 0 then p.(freeOne := id, freeCount := p.freeCount + 1)
      else p.(freeMany := Some(Members(p.freeMany) + {id}), freeCount := p.freeCount + 1)
    else if id !in Members(p.reserved) then p
    else
      var left := Members(p.reserved) - {id};
      if left != {} then p.(reserved := Some(left))
      else if p.freeCount == p.next - 1 then InitFrontier()
      else p.(reserved := None)
  }

  predicate InUse(p: Frontier, id: int) {
    if !InRange(id) then false
    else if id < p.next then p.freeOne != id && id !in Members(p.freeMany)
    else id in Members(p.reserved)
  }

  /** The identifiers in use. */
  function Live(p: Frontier): set<int> {
    set id | 1 <= id <= MAX_ID && InUse(p, id)
  }

  // ---- runs ----

  datatype PoolOp = OpAllocate(pick: int) | OpReserve(id: int) | OpRelease(id: int)

  function ListStep(p: ListPool, op: PoolOp): ListPool {
    match op
    case OpAllocate(_) => ListAllocate(p).0
    case OpReserve(id) => ListReserve(p, id)
    case OpRelease(id) => ListRelease(p, id)
  }

  function ListRun(p: ListPool, ops: seq<PoolOp>): ListPool
    decreases |ops|
  {
    if ops == [] then p else ListRun(ListStep(p, ops[0]), ops[1..])
  }

  predicate FrontierEnabled(p: Frontier, op: PoolOp) {
    op.OpAllocate? ==> PickAllowed(p, op.pick)
  }

  function FrontierStep(p: Frontier, op: PoolOp): Frontier
    requires FrontierEnabled(p, op)
  {
    match op
    case OpAllocate(pick) => FrontierAllocate(p, pick).0
    case OpReserve(id) => FrontierReserve(p, id).0
    case OpRelease(id) => FrontierRelease(p, id)
  }

  predicate IsFrontierRun(p: Frontier, ops: seq<PoolOp>)
    decreases |ops|
  {
    ops == [] || (FrontierEnabled(p, ops[0]) && IsFrontierRun(FrontierStep(p, ops[0]), ops[1..]))
  }

  function FrontierRun(p: Frontier, ops: seq<PoolOp>): Frontier
    requires IsFrontierRun(p, ops)
    decreases |ops|
  {
    if ops == [] then p else FrontierRun(FrontierStep(p, ops[0]), ops[1..])
  }
}
