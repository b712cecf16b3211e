/** The frontier allocator implements the abstract live set, counts included. */
module FrontierProofs {
  import opened Options
  import opened PacketIdModel

  /** The free identifiers lie below the frontier, in exactly one of the two places, and are counted. */
  ghost predicate FreeOk(p: Frontier) {
    && (p.freeMany.Some? ==> p.freeMany.value != {})
    && (p.freeOne != 0 ==> 1 <= p.freeOne < p.next && p.freeOne !in Members(p.freeMany))
    && (forall x :: x in Members(p.freeMany) ==> 1 <= x < p.next)
    && p.freeCount == (if p.freeOne != 0 then 1 else 0) + |Members(p.freeMany)|
  }

  ghost predicate ReservedOk(p: Frontier) {
    && (p.reserved.Some? ==> p.reserved.value != {})
    && (forall x :: x in Members(p.reserved) ==> p.next <= x <= MAX_ID)
  }

  ghost predicate Shape(p: Frontier) {
    1 <= p.next <= MAX_ID + 1 && FreeOk(p) && ReservedOk(p)
  }

  /** A pool whose identifiers are all free again is the initial pool. */
  ghost predicate FrontierInv(p: Frontier) {
    Shape(p) && (p.freeCount == p.next - 1 && p.reserved.None? ==> p == InitFrontier())
  }

  function FreeIds(p: Frontier): set<int> {
    (if p.freeOne != 0 then {p.freeOne} else {}) + Members(p.freeMany)
  }

  /** The frontier's reading of the live set: everything passed but the free ones, and the reservations ahead. */
  lemma {:induction false} LiveIs(p: Frontier)
    requires Shape(p)
    ensures Live(p) == (Upto(p.next - 1) - FreeIds(p)) + Members(p.reserved)
  {
    forall x
      ensures x in Live(p) <==> x in (Upto(p.next - 1) - FreeIds(p)) + Members(p.reserved)
    {
      assert x in Live(p) <==> InUse(p, x);
      assert x in Upto(p.next - 1) <==> AtMost(x, p.next - 1);
    }
  }

  lemma {:induction false} FreeSize(p: Frontier)
    requires Shape(p)
    ensures |FreeIds(p)| == p.freeCount && FreeIds(p) <= Upto(p.next - 1)
  {
    forall x | x in FreeIds(p)
      ensures x in Upto(p.next - 1)
    {
      assert AtMost(x, p.next - 1);
    }
  }

  lemma {:induction false} FreeBound(p: Frontier)
    requires Shape(p)
    ensures 0 <= p.freeCount <= p.next - 1
  {
    FreeSize(p);
    UptoSize(p.next - 1);
    SubsetSize(FreeIds(p), Upto(p.next - 1));
  }

  lemma {:induction false} BelowAndAhead(p: Frontier)
    requires Shape(p)
    ensures Upto(p.next - 1) !! Members(p.reserved)
  {
    forall x | x in Members(p.reserved)
      ensures x !in Upto(p.next - 1)
    {
      assert !AtMost(x, p.next - 1);
    }
  }

  lemma {:induction false} DisjointSize(a: set<int>, b: set<int>, c: set<int>)
    requires b <= a && a !! c
    ensures |(a - b) + c| == |a| - |b| + |c|
  {
    assert |a - b| == |a| - |b|;
  }

  /** The count kept in constant space is the number of identifiers in use. */
  lemma {:induction false} LenExact(p: Frontier)
    requires Shape(p)
    ensures Len(p) == |Live(p)| && Live(p) <= Ids() && |Live(p)| <= MAX_ID
  {
    UptoSize(p.next - 1);
    FreeSize(p);
    LiveIs(p);
    BelowAndAhead(p);
    DisjointSize(Upto(p.next - 1), FreeIds(p), Members(p.reserved));
    UptoSize(MAX_ID);
    LiveInRange(p);
    SubsetSize(Live(p), Ids());
  }

  lemma {:induction false} LiveInRange(p: Frontier)
    ensures Live(p) <= Ids()
  {
    forall x | x in Live(p)
      ensures x in Ids()
    {
      assert AtMost(x, MAX_ID);
    }
  }

  /** With nothing in use the pool is back in its initial state. */
  lemma {:induction false} NothingLive(p: Frontier)
    requires FrontierInv(p)
    ensures Live(p) == {} <==> p == InitFrontier()
  {
    LenExact(p);
    FreeBound(p);
    LenExact(InitFrontier());
    assert p.reserved.Some? ==> |p.reserved.value| > 0;
  }

  lemma {:induction false} AbsorbExact(reserved: set<int>, at: int)
    requires forall x :: x in reserved ==> at <= x
    ensures var (left, next) := Absorb(reserved, at);
            && at <= next && next !in left && left <= reserved
            && (forall x :: x in left ==> next < x)
            && (forall x :: at <= x < next ==> x in reserved)
            && (forall x :: x in reserved ==> x in left || x < next)
    decreases |reserved|
  {
    if at in reserved {
      AbsorbExact(reserved - {at}, at + 1);
    }
  }

  // ---- how the live set moves ----

  ghost predicate Adds(p: Frontier, q: Frontier, id: int) {
    forall x :: InUse(q, x) <==> InUse(p, x) || x == id
  }

  ghost predicate Drops(p: Frontier, q: Frontier, id: int) {
    forall x :: InUse(q, x) <==> InUse(p, x) && x != id
  }

  ghost predicate Same(p: Frontier, q: Frontier) {
    forall x :: InUse(q, x) <==> InUse(p, x)
  }

  lemma {:induction false} AddsLive(p: Frontier, q: Frontier, id: int)
    requires Adds(p, q, id)
    ensures Live(q) == Live(p) + {id}
  {
    assert InUse(q, id);
  }

  lemma {:induction false} DropsLive(p: Frontier, q: Frontier, id: int)
    requires Drops(p, q, id)
    ensures Live(q) == Live(p) - {id}
  {
  }

  // ---- allocation ----

  lemma {:induction false} TakeOne(p: Frontier)
    requires FrontierInv(p) && p.freeOne != 0
    ensures var q := p.(freeOne := 0, freeCount := p.freeCount - 1);
            FrontierInv(q) && Adds(p, q, p.freeOne) && !InUse(p, p.freeOne) && InRange(p.freeOne)
  {
    FreeBound(p);
  }

  lemma {:induction false} TakeFromMany(p: Frontier, id: int)
    requires FrontierInv(p) && id in Members(p.freeMany)
    ensures var q := p.(freeMany := Keep(Members(p.freeMany) - {id}), freeCount := p.freeCount - 1);
            FrontierInv(q) && Adds(p, q, id) && !InUse(p, id) && InRange(id)
  {
    FreeBound(p);
    assert |Members(p.freeMany) - {id}| == |Members(p.freeMany)| - 1;
  }

  /** The frontier issues the identifier it stands at. */
  lemma {:induction false} IssueNext(p: Frontier)
    requires Shape(p) && p.next <= MAX_ID && p.next !in Members(p.reserved)
    ensures var q := p.(next := p.next + 1);
            FrontierInv(q) && Adds(p, q, p.next) && !InUse(p, p.next)
  {
    FreeBound(p);
  }

  /** Moving the frontier over reservations changes nothing that can be observed. */
  lemma {:induction false} Advance(p: Frontier)
    requires Shape(p)
    ensures var (left, next) := Absorb(Members(p.reserved), p.next);
            var q := p.(reserved := Keep(left), next := next);
            && Shape(q) && Same(p, q) && next !in left && (p.reserved.None? ==> q == p)
  {
    AbsorbExact(Members(p.reserved), p.next);
    var next := Absorb(Members(p.reserved), p.next).1;
    assert next - 1 < p.next || next - 1 in Members(p.reserved);
  }

  lemma {:induction false} AllocateAtFrontier(p: Frontier, pick: int)
    requires FrontierInv(p) && p.freeOne == 0 && p.freeMany.None?
    ensures var (q, r) := FrontierAllocate(p, pick); FrontierInv(q) && Allocates(Live(p), r, Live(q))
  {
    var (left, mid) := Absorb(Members(p.reserved), p.next);
    var q := p.(reserved := Keep(left), next := mid);
    Advance(p);
    if mid > MAX_ID {
      assert forall x :: InUse(q, x) <==> InRange(x);
      AllLive(q);
      AllLive(p);
    } else {
      IssueNext(q);
      AddsLive(p, q.(next := mid + 1), mid);
      assert mid !in Live(p);
    }
  }

  lemma {:induction false} AllLive(p: Frontier)
    requires forall x :: InUse(p, x) <==> InRange(x)
    ensures Live(p) == Ids()
  {
    forall x
      ensures x in Live(p) <==> x in Ids()
    {
      assert InUse(p, x) <==> AtMost(x, MAX_ID);
    }
  }

  /** Allocation is the abstract one, whichever element the free set gives up. */
  lemma {:induction false} FrontierAllocateExact(p: Frontier, pick: int)
    requires FrontierInv(p) && PickAllowed(p, pick)
    ensures var (q, r) := FrontierAllocate(p, pick); FrontierInv(q) && Allocates(Live(p), r, Live(q))
  {
    var q := FrontierAllocate(p, pick).0;
    if p.freeOne != 0 {
      TakeOne(p);
      AddsLive(p, q, p.freeOne);
    } else if p.freeMany.Some? {
      TakeFromMany(p, pick);
      AddsLive(p, q, pick);
    } else {
      AllocateAtFrontier(p, pick);
    }
  }

  // ---- reservation ----

  /** A reservation recorded earlier for the frontier itself is withdrawn before the frontier takes it. */
  lemma {:induction false} WithdrawThenIssue(p: Frontier)
    requires Shape(p) && p.next <= MAX_ID
    ensures var q := p.(reserved := Keep(Members(p.reserved) - {p.next}), next := p.next + 1);
            Shape(q) && Adds(p, q, p.next)
  {
  }

  lemma {:induction false} ReserveAtFrontier(p: Frontier)
    requires FrontierInv(p) && p.next <= MAX_ID
    ensures var q := FrontierReserve(p, p.next).0; FrontierInv(q) && Adds(p, q, p.next)
  {
    WithdrawThenIssue(p);
    var p1 := p.(reserved := Keep(Members(p.reserved) - {p.next}), next := p.next + 1);
    Advance(p1);
    FreeBound(p);
    AbsorbExact(Members(p1.reserved), p1.next);
  }

  lemma {:induction false} ReserveAhead(p: Frontier, id: int)
    requires FrontierInv(p) && InRange(id) && id > p.next
    ensures var q := FrontierReserve(p, id).0; FrontierInv(q) && Adds(p, q, id)
  {
  }

  lemma {:induction false} ReserveInRange(p: Frontier, id: int)
    requires FrontierInv(p) && InRange(id)
    ensures var q := FrontierReserve(p, id).0; FrontierInv(q) && Adds(p, q, id)
  {
    if id > p.next {
      ReserveAhead(p, id);
    } else if id == p.next {
      ReserveAtFrontier(p);
    } else if p.freeOne == id {
      TakeOne(p);
    } else if id in Members(p.freeMany) {
      TakeFromMany(p, id);
    }
  }

  /** Reservation adds exactly the identifier, and refuses exactly what is out of range. */
  lemma {:induction false} FrontierReserveExact(p: Frontier, id: int)
    requires FrontierInv(p)
    ensures var (q, ok) := FrontierReserve(p, id);
            FrontierInv(q) && (ok <==> InRange(id)) && Live(q) == if ok then Live(p) + {id} else Live(p)
  {
    if InRange(id) {
      ReserveInRange(p, id);
      AddsLive(p, FrontierReserve(p, id).0, id);
    }
  }

  // ---- release ----

  /** Giving up an identifier below the frontier, before the pool looks whether it was the last. */
  function Freed(p: Frontier, id: int): Frontier {
    if p.freeOne == 0 then p.(freeOne := id, freeCount := p.freeCount + 1)
    else p.(freeMany := Some(Members(p.freeMany) + {id}), freeCount := p.freeCount + 1)
  }

  lemma {:induction false} FreedDrops(p: Frontier, id: int)
    requires Shape(p) && 1 <= id < p.next && p.freeOne != id && id !in Members(p.freeMany)
    ensures Shape(Freed(p, id)) && Drops(p, Freed(p, id), id)
  {
  }

  lemma {:induction false} UnreservedDrops(p: Frontier, id: int)
    requires Shape(p) && id in Members(p.reserved)
    ensures var q := p.(reserved := Keep(Members(p.reserved) - {id})); Shape(q) && Drops(p, q, id)
  {
  }

  /** Starting over is unobservable when everything that was passed is free and nothing is reserved. */
  lemma {:induction false} ResetUnseen(p: Frontier)
    requires Shape(p) && p.freeCount == p.next - 1 && p.reserved.None?
    ensures Live(p) == {} && Live(InitFrontier()) == {}
  {
    LenExact(p);
    assert forall x :: !InUse(InitFrontier(), x);
  }

  /** Release removes exactly the identifier and ignores what is not in use. */
  lemma {:induction false} FrontierReleaseExact(p: Frontier, id: int)
    requires FrontierInv(p)
    ensures var q := FrontierRelease(p, id); FrontierInv(q) && Live(q) == Live(p) - {id}
  {
    if !InUse(p, id) {
      assert FrontierRelease(p, id) == p;
      assert id !in Live(p);
    } else {
      var q := if id < p.next then Freed(p, id) else p.(reserved := Keep(Members(p.reserved) - {id}));
      if id < p.next {
        FreedDrops(p, id);
      } else {
        UnreservedDrops(p, id);
      }
      DropsLive(p, q, id);
      if q.freeCount == q.next - 1 && q.reserved.None? {
        ResetUnseen(q);
      }
    }
  }

  /** The pool and the live set it stands for agree over every run of operations. */
  lemma {:induction false} FrontierRunKeepsInv(p: Frontier, ops: seq<PoolOp>)
    requires FrontierInv(p) && IsFrontierRun(p, ops)
    ensures FrontierInv(FrontierRun(p, ops))
    decreases |ops|
  {
    if ops != [] {
      match ops[0] {
        case OpAllocate(pick) => FrontierAllocateExact(p, pick);
        case OpReserve(id) => FrontierReserveExact(p, id);
        case OpRelease(id) => FrontierReleaseExact(p, id);
      }
      FrontierRunKeepsInv(FrontierStep(p, ops[0]), ops[1..]);
    }
  }

  /** In every run: the size query counts the identifiers in use, and the next allocation is correct. */
  lemma {:induction false} EveryFrontierRun(ops: seq<PoolOp>, pick: int)
    requires IsFrontierRun(InitFrontier(), ops) && PickAllowed(FrontierRun(InitFrontier(), ops), pick)
    ensures var p := FrontierRun(InitFrontier(), ops);
            var (q, r) := FrontierAllocate(p, pick);
            Len(p) == |Live(p)| && Allocates(Live(p), r, Live(q)) && (r.None? <==> |Live(p)| == MAX_ID)
  {
    var p := FrontierRun(InitFrontier(), ops);
    FrontierRunKeepsInv(InitFrontier(), ops);
    FrontierAllocateExact(p, pick);
    LenExact(p);
    UptoSize(MAX_ID);
    SubsetSize(Live(p), Ids());
    var r := FrontierAllocate(p, pick).1;
    if r.Some? {
      assert AtMost(r.value, MAX_ID);
      assert r.value in Ids();
    }
  }
}
