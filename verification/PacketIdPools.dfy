/**
  The two allocators as objects. Every public method keeps `Valid()` and is
  specified over the set of identifiers in use.
 */
module PacketIdPools {
  import opened Options
  import opened PacketIdModel
  import ListPoolProofs
  import FrontierProofs

  class LegacyPacketIdPool {
    var used: set<int>
    var free: seq<int>
    var next: int

    ghost function View(): ListPool
      reads this
    {
      ListPool(used, free, next)
    }

    ghost predicate Valid()
      reads this
    {
      ListPoolProofs.ListInv(View())
    }

    /** Nothing outside the range was ever reserved and is still known to the pool. */
    ghost predicate InRangeOnly()
      reads this
    {
      ListPoolProofs.ListInRange(View())
    }

    constructor ()
      ensures Valid() && InRangeOnly() && used == {}
    {
      used, free, next := {}, [], 1;
    }

    /** Never an identifier in use; a correct allocation as long as the pool knows nothing out of range. */
    method Allocate() returns (r: Option<int>)
      requires Valid()
      modifies this
      ensures Valid() && (View(), r) == ListAllocate(old(View()))
      ensures r.Some? ==> r.value !in old(used) && used == old(used) + {r.value}
      ensures r.None? <==> |old(used)| >= MAX_ID
      ensures old(InRangeOnly()) ==> InRangeOnly() && Allocates(old(used), r, used)
    {
      ListPoolProofs.ListAllocateKeepsInv(View());
      if InRangeOnly() {
        ListPoolProofs.ListAllocateExact(View());
      }
      r := AllocateAny();
    }

    method AllocateAny() returns (r: Option<int>)
      modifies this
      ensures (View(), r) == ListAllocate(old(View()))
    {
      if |used| >= MAX_ID {
        return None;
      }
      if free != [] {
        var id := free[|free| - 1];
        free := free[..|free| - 1];
        used := used + {id};
        return Some(id);
      }
      while next <= MAX_ID && next in used
        invariant used == old(used) && free == old(free)
        invariant Skip(used, next) == Skip(used, old(next))
        decreases MAX_ID + 1 - next
      {
        next := next + 1;
      }
      if next <= MAX_ID {
        var id := next;
        next := next + 1;
        used := used + {id};
        return Some(id);
      }
      var candidate := 1;
      while candidate <= MAX_ID
        invariant used == old(used) && free == old(free) && next == Skip(old(used), old(next))
        invariant Scan(used, candidate) == Scan(used, 1)
        decreases MAX_ID + 1 - candidate
      {
        if candidate !in used {
          used := used + {candidate};
          return Some(candidate);
        }
        candidate := candidate + 1;
      }
      return None;
    }

    /** Any number is accepted; one out of range spoils the pool. */
    method Reserve(id: int)
      requires Valid()
      modifies this`used, this`free
      ensures Valid() && View() == ListReserve(old(View()), id) && used == old(used) + {id}
      ensures old(InRangeOnly()) ==> (InRangeOnly() <==> InRange(id))
    {
      ListPoolProofs.ListReserveKeepsInv(View(), id);
      ListPoolProofs.ReserveInRange(View(), id);
      used := used + {id};
      free := RemoveFirst(free, id);
    }

    method Release(id: int)
      requires Valid()
      modifies this
      ensures Valid() && View() == ListRelease(old(View()), id) && used == old(used) - {id}
      ensures old(InRangeOnly()) ==> InRangeOnly()
    {
      ListPoolProofs.ListReleaseKeepsInv(View(), id);
      ListPoolProofs.ReleaseInRange(View(), id);
      if id !in used {
        return;
      }
      used := used - {id};
      if used == {} {
        free, next := [], 1;
        return;
      }
      free := free + [id];
    }
  }

  class PacketIdPool {
    var freeCount: int
    var freeOne: int
    var freeMany: Option<set<int>>
    var reserved: Option<set<int>>
    var next: int

    ghost function View(): Frontier
      reads this
    {
      Frontier(freeCount, freeOne, freeMany, reserved, next)
    }

    ghost predicate Valid()
      reads this
    {
      FrontierProofs.FrontierInv(View())
    }

    constructor ()
      ensures Valid() && View() == InitFrontier() && Live(View()) == {}
    {
      freeCount, freeOne, freeMany, reserved, next := 0, 0, None, None, 1;
      new;
      FrontierProofs.NothingLive(View());
    }

    method Size() returns (n: int)
      requires Valid()
      ensures n == |Live(View())| && 0 <= n <= MAX_ID
    {
      FrontierProofs.LenExact(View());
      var reservedCount := 0;
      if reserved.Some? {
        reservedCount := |reserved.value|;
      }
      return next - 1 - freeCount + reservedCount;
    }

    method Available() returns (n: int)
      requires Valid()
      ensures n == |Ids() - Live(View())|
    {
      FrontierProofs.LiveInRange(View());
      UptoSize(MAX_ID);
      ghost var live, ids := Live(View()), Ids();
      assert |ids| == |live| + |ids - live| by {
        assert ids == live + (ids - live);
      }
      var size := Size();
      return MAX_ID - size;
    }

    /** An unused identifier in range, which is in use from now on; none exactly when all are in use. */
    method Allocate() returns (r: Option<int>)
      requires Valid()
      modifies this
      ensures Valid() && Allocates(old(Live(View())), r, Live(View()))
    {
      ghost var before, pick := View(), 0;
      r, pick := AllocateAny();
      FrontierProofs.FrontierAllocateExact(before, pick);
    }

    /** `pick` is the free identifier that popping the set happened to give. */
    method AllocateAny() returns (r: Option<int>, ghost pick: int)
      modifies this
      ensures PickAllowed(old(View()), pick) && (View(), r) == FrontierAllocate(old(View()), pick)
    {
      pick := 0;
      var id := freeOne;
      if id != 0 {
        freeOne := 0;
        freeCount := freeCount - 1;
        return Some(id), pick;
      }
      if freeMany.Some? && freeMany.value != {} {
        id := AnyOf(freeMany.value);
        pick := id;
        freeMany := Keep(freeMany.value - {id});
        freeCount := freeCount - 1;
        return Some(id), pick;
      }
      id := next;
      if reserved.Some? {
        var left := reserved.value;
        id, left := Pass(left, id);
        reserved := Keep(left);
        next := id;
      }
      if id > MAX_ID {
        return None, pick;
      }
      next := id + 1;
      return Some(id), pick;
    }

    /** Refuses exactly what is out of range, and otherwise adds exactly this identifier. */
    method Reserve(id: int) returns (ok: bool)
      requires Valid()
      modifies this
      ensures Valid() && (ok <==> InRange(id))
      ensures Live(View()) == if ok then old(Live(View())) + {id} else old(Live(View()))
    {
      FrontierProofs.FrontierReserveExact(View(), id);
      ok := ReserveAny(id);
    }

    method ReserveAny(id: int) returns (ok: bool)
      modifies this
      ensures (View(), ok) == FrontierReserve(old(View()), id)
    {
      if id < 1 || id > MAX_ID {
        return false;
      }
      var frontier := next;
      if id < frontier {
        if freeOne == id {
          freeOne := 0;
          freeCount := freeCount - 1;
        } else if freeMany.Some? && id in freeMany.value {
          freeMany := Keep(freeMany.value - {id});
          freeCount := freeCount - 1;
        }
        return true;
      }
      if id == frontier {
        frontier := frontier + 1;
        if reserved.Some? {
          var left := reserved.value - {id};
          frontier, left := Pass(left, frontier);
          reserved := Keep(left);
        }
        next := frontier;
        return true;
      }
      reserved := Some((if reserved.None? then {} else reserved.value) + {id});
      return true;
    }

    /** Removes exactly this identifier; with the last one gone the pool starts over. */
    method Release(id: int)
      requires Valid()
      modifies this
      ensures Valid() && Live(View()) == old(Live(View())) - {id}
      ensures Live(View()) == {} <==> View() == InitFrontier()
    {
      FrontierProofs.FrontierReleaseExact(View(), id);
      FrontierProofs.NothingLive(FrontierRelease(View(), id));
      ReleaseAny(id);
    }

    method ReleaseAny(id: int)
      modifies this
      ensures View() == FrontierRelease(old(View()), id)
    {
      if id < 1 || id > MAX_ID {
        return;
      }
      if id < next {
        if freeOne == id || (freeMany.Some? && id in freeMany.value) {
          return;
        }
        if freeOne == 0 {
          freeOne := id;
        } else if freeMany.None? {
          freeMany := Some({id});
          assert freeMany.value == Members(None) + {id};
        } else {
          freeMany := Some(freeMany.value + {id});
        }
        freeCount := freeCount + 1;
        if freeCount == next - 1 && reserved.None? {
          Clear();
        }
        return;
      }
      if reserved.None? || id !in reserved.value {
        return;
      }
      var left := reserved.value - {id};
      reserved := Some(left);
      if left != {} {
        return;
      }
      reserved := None;
      if freeCount == next - 1 {
        Clear();
      }
    }

    method IsInUse(id: int) returns (b: bool)
      ensures b <==> id in Live(View())
    {
      assert id in Live(View()) <==> InUse(View(), id);
      if id < 1 || id > MAX_ID {
        return false;
      }
      if id < next {
        return freeOne != id && (freeMany.None? || id !in freeMany.value);
      }
      return reserved.Some? && id in reserved.value;
    }

    method Clear()
      modifies this
      ensures Valid() && View() == InitFrontier()
    {
      freeCount, freeOne, freeMany, reserved, next := 0, 0, None, None, 1;
    }
  }

  lemma {:induction false} EmptyOrNot(s: set<int>)
    ensures s == {} || exists x :: x in s
  {
    if forall x :: x !in s {
      assert s == {};
    }
  }

  /** The element that popping a set gives up: any of them. */
  method AnyOf(s: set<int>) returns (x: int)
    requires s != {}
    ensures x in s
  {
    EmptyOrNot(s);
    x :| x in s;
  }

  /** Walks the frontier over reservations, dropping each one it passes. */
  method Pass(reserved: set<int>, at: int) returns (next: int, left: set<int>)
    ensures (left, next) == Absorb(reserved, at)
  {
    next, left := at, reserved;
    while next in left
      invariant Absorb(left, next) == Absorb(reserved, at)
      decreases |left|
    {
      left := left - {next};
      next := next + 1;
    }
  }

  /** Two pools with the same identifiers in use run out together. */
  lemma {:induction false} PoolsExhaustTogether(p: Frontier, pick: int, l: ListPool)
    requires FrontierProofs.FrontierInv(p) && PickAllowed(p, pick)
    requires ListPoolProofs.ListInv(l) && ListPoolProofs.ListInRange(l) && l.used == Live(p)
    ensures FrontierAllocate(p, pick).1.None? <==> ListAllocate(l).1.None?
  {
    FrontierProofs.FrontierAllocateExact(p, pick);
    ListPoolProofs.ListAllocateExact(l);
    forall id | InRange(id)
      ensures id in Ids()
    {
      assert AtMost(id, MAX_ID);
    }
  }
}
