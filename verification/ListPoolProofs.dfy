/** The set-plus-free-list allocator: what every run keeps and when it is a correct allocator. */
module ListPoolProofs {
  import opened Options
  import opened PacketIdModel

  ghost predicate Distinct(s: seq<int>) {
    forall i, j :: 0 <= i < j < |s| ==> s[i] != s[j]
  }

  /** Free and used are disjoint, the free list repeats nothing, and everything passed is one of the two. */
  ghost predicate ListInv(p: ListPool) {
    && 1 <= p.next <= MAX_ID + 1
    && Distinct(p.free)
    && (forall x :: x in p.free ==> x !in p.used)
    && (forall x :: 1 <= x < p.next ==> x in p.used || x in p.free)
    && (p.used == {} ==> p == InitList())
  }

  ghost predicate ListInRange(p: ListPool) {
    p.used <= Ids() && forall x :: x in p.free ==> InRange(x)
  }

  lemma {:induction false} SkipFinds(used: set<int>, next: int)
    requires next <= MAX_ID + 1
    ensures next <= Skip(used, next) <= MAX_ID + 1
    ensures forall x :: next <= x < Skip(used, next) ==> x in used
    ensures Skip(used, next) <= MAX_ID ==> Skip(used, next) !in used
    decreases MAX_ID + 1 - next
  {
    if next <= MAX_ID && next in used {
      SkipFinds(used, next + 1);
    }
  }

  lemma {:induction false} DistinctCons(head: int, rest: seq<int>)
    ensures Distinct([head] + rest) <==> Distinct(rest) && head !in rest
    ensures forall y :: y in [head] + rest <==> y == head || y in rest
  {
    var s := [head] + rest;
    assert forall i :: 0 <= i < |rest| ==> s[i + 1] == rest[i];
    if Distinct(s) {
      forall i, j | 0 <= i < j < |rest|
        ensures rest[i] != rest[j]
      {
        assert s[i + 1] != s[j + 1];
      }
      assert forall i :: 0 <= i < |rest| ==> rest[i] != s[0];
    }
    if Distinct(rest) && head !in rest {
      forall i, j | 0 <= i < j < |s|
        ensures s[i] != s[j]
      {
        assert s[j] == rest[j - 1] && rest[j - 1] in rest;
      }
    }
  }

  lemma {:induction false} RemoveFirstDrops(s: seq<int>, x: int)
    requires Distinct(s)
    ensures Distinct(RemoveFirst(s, x))
    ensures forall y :: y in RemoveFirst(s, x) <==> y in s && y != x
  {
    if s != [] {
      assert s == [s[0]] + s[1..];
      DistinctCons(s[0], s[1..]);
      if s[0] != x {
        RemoveFirstDrops(s[1..], x);
        DistinctCons(s[0], RemoveFirst(s[1..], x));
      }
    }
  }

  /** The fallback scan is dead code: passing every identifier means that all of them are in use. */
  lemma {:induction false} FallbackUnreachable(p: ListPool)
    requires ListInv(p)
    ensures !ReachesFallback(p)
  {
    SkipFinds(p.used, p.next);
    if p.free == [] && Skip(p.used, p.next) > MAX_ID {
      assert Ids() <= p.used;
      SubsetSize(Ids(), p.used);
      UptoSize(MAX_ID);
    }
  }

  lemma {:induction false} ListAllocateKeepsInv(p: ListPool)
    requires ListInv(p)
    ensures ListInv(ListAllocate(p).0)
    ensures var (q, r) := ListAllocate(p); r.Some? ==> r.value !in p.used && q.used == p.used + {r.value}
    ensures ListAllocate(p).1.None? <==> |p.used| >= MAX_ID
    ensures ListAllocate(p).1.None? ==> ListAllocate(p).0 == p
  {
    FallbackUnreachable(p);
    SkipFinds(p.used, p.next);
    if |p.used| < MAX_ID && p.free != [] {
      var k := |p.free| - 1;
      assert p.free == p.free[..k] + [p.free[k]];
    }
  }

  lemma {:induction false} ListReserveKeepsInv(p: ListPool, id: int)
    requires ListInv(p)
    ensures ListInv(ListReserve(p, id))
  {
    RemoveFirstDrops(p.free, id);
  }

  lemma {:induction false} ListReleaseKeepsInv(p: ListPool, id: int)
    requires ListInv(p)
    ensures ListInv(ListRelease(p, id)) && ListRelease(p, id).used == p.used - {id}
  {
  }

  /** Over every run, whatever is reserved. */
  lemma {:induction false} ListRunKeepsInv(p: ListPool, ops: seq<PoolOp>)
    requires ListInv(p)
    ensures ListInv(ListRun(p, ops))
    decreases |ops|
  {
    if ops != [] {
      match ops[0] {
        case OpAllocate(_) => ListAllocateKeepsInv(p);
        case OpReserve(id) => ListReserveKeepsInv(p, id);
        case OpRelease(id) => ListReleaseKeepsInv(p, id);
      }
      ListRunKeepsInv(ListStep(p, ops[0]), ops[1..]);
    }
  }

  // ---- with reservations in range it is a correct allocator ----

  lemma {:induction false} ListAllocateExact(p: ListPool)
    requires ListInv(p) && ListInRange(p)
    ensures var (q, r) := ListAllocate(p); Allocates(p.used, r, q.used) && ListInRange(q)
    ensures ListAllocate(p).1.None? <==> p.used == Ids()
  {
    ListAllocateKeepsInv(p);
    FallbackUnreachable(p);
    UptoSize(MAX_ID);
    SubsetSize(p.used, Ids());
    SkipFinds(p.used, p.next);
    if |p.used| < MAX_ID && p.free != [] {
      assert p.free[|p.free| - 1] in p.free;
    }
  }

  /** Reserving keeps the pool in range exactly for identifiers in range. */
  lemma {:induction false} ReserveInRange(p: ListPool, id: int)
    requires ListInv(p)
    ensures ListInRange(p) ==> (ListInRange(ListReserve(p, id)) <==> InRange(id))
  {
    RemoveFirstDrops(p.free, id);
    assert id in Ids() <==> AtMost(id, MAX_ID);
  }

  lemma {:induction false} ReleaseInRange(p: ListPool, id: int)
    requires ListInv(p)
    ensures ListInRange(p) ==> ListInRange(ListRelease(p, id))
  {
    assert id in Ids() <==> AtMost(id, MAX_ID);
  }

  /** The reservations of a run all satisfy a policy. */
  predicate Reserves(ops: seq<PoolOp>, policy: int -> bool) {
    forall i :: 0 <= i < |ops| && ops[i].OpReserve? ==> policy(ops[i].id)
  }

  lemma {:induction false} ListStepInRange(p: ListPool, op: PoolOp)
    requires ListInv(p) && ListInRange(p) && (op.OpReserve? ==> InRange(op.id))
    ensures ListInv(ListStep(p, op)) && ListInRange(ListStep(p, op))
  {
    match op
    case OpAllocate(_) =>
      ListAllocateKeepsInv(p);
      ListAllocateExact(p);
    case OpReserve(id) =>
      ListReserveKeepsInv(p, id);
      RemoveFirstDrops(p.free, id);
    case OpRelease(id) =>
      ListReleaseKeepsInv(p, id);
  }

  lemma {:induction false} ListRunInRange(p: ListPool, ops: seq<PoolOp>)
    requires ListInv(p) && ListInRange(p) && Reserves(ops, InRange)
    ensures ListInv(ListRun(p, ops)) && ListInRange(ListRun(p, ops))
    decreases |ops|
  {
    if ops != [] {
      ListStepInRange(p, ops[0]);
      ListRunInRange(ListStep(p, ops[0]), ops[1..]);
    }
  }

  // ---- and only then ----

  ghost predicate CorrectAfter(ops: seq<PoolOp>) {
    var p := ListRun(InitList(), ops);
    var (q, r) := ListAllocate(p);
    Allocates(p.used, r, q.used)
  }

  /** Every allocation in every run whose reservations follow the policy is correct. */
  ghost predicate PolicySafe(policy: int -> bool) {
    forall ops: seq<PoolOp> :: Reserves(ops, policy) ==> CorrectAfter(ops)
  }

  /** A reservation outside the range is handed out as a packet identifier later. */
  lemma {:induction false} StrayReservationHandedOut(id: int)
    requires !InRange(id)
    ensures ListAllocate(ListRun(InitList(), [OpReserve(id), OpAllocate(0), OpRelease(id)])).1 == Some(id)
  {
    var ops := [OpReserve(id), OpAllocate(0), OpRelease(id)];
    var p1 := ListReserve(InitList(), id);
    assert p1 == ListPool({id}, [], 1);
    assert Skip({id}, 1) == 1;
    var p2 := ListAllocate(p1).0;
    assert p2 == ListPool({id, 1}, [], 2);
    var p3 := ListRelease(p2, id);
    assert p3.used == {1} by {
      assert p2.used - {id} == {1};
    }
    assert ListAllocate(p3).1 == Some(id) by {
      assert p3.free == [id] && |p3.used| == 1;
    }
    assert ops[1..] == [OpAllocate(0), OpRelease(id)];
    assert ops[1..][1..] == [OpRelease(id)];
    assert ops[1..][1..][1..] == [];
    calc {
      ListRun(InitList(), ops);
      ListRun(p1, ops[1..]);
      ListRun(p2, ops[1..][1..]);
      ListRun(p3, ops[1..][1..][1..]);
      p3;
    }
  }

  /** The allocator is correct in every run exactly when everything that may be reserved is in range. */
  lemma {:induction false} SafeExactlyInRange(policy: int -> bool)
    ensures PolicySafe(policy) <==> forall id :: policy(id) ==> InRange(id)
  {
    if forall id :: policy(id) ==> InRange(id) {
      forall ops: seq<PoolOp> | Reserves(ops, policy)
        ensures CorrectAfter(ops)
      {
        ListRunInRange(InitList(), ops);
        ListAllocateExact(ListRun(InitList(), ops));
      }
    } else {
      var id :| policy(id) && !InRange(id);
      var ops := [OpReserve(id), OpAllocate(0), OpRelease(id)];
      StrayReservationHandedOut(id);
      assert Reserves(ops, policy) && !CorrectAfter(ops);
    }
  }
}
