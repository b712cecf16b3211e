/** Outbound write units and the transport calls one writer batch turns into. */
module WriteItems {

  type Byte = bv8

  /** One contiguous frame, or a header and payload written by two calls. */
  datatype RawItem = Frame(data: seq<Byte>) | Segmented(header: seq<Byte>, payload: seq<Byte>)

  /** Every MQTT packet has at least two bytes, so no write unit is empty. */
  type WriteItem = i: RawItem | 0 < Size(i) witness Frame([0])

  function Size(i: RawItem): nat {
    match i
    case Frame(d) => |d|
    case Segmented(h, p) => |h| + |p|
  }

  /** The bytes of one item in wire order. */
  function Wire(i: RawItem): (w: seq<Byte>)
    ensures |w| == Size(i)
  {
    match i
    case Frame(d) => d
    case Segmented(h, p) => h + p
  }

  function WireAll(items: seq<WriteItem>): (w: seq<Byte>)
    ensures |w| == SizeAll(items)
  {
    if items == [] then [] else Wire(items[0]) + WireAll(items[1..])
  }

  function SizeAll(items: seq<WriteItem>): (n: nat)
    ensures n >= |items|
  {
    if items == [] then 0 else Size(items[0]) + SizeAll(items[1..])
  }

  lemma {:induction false} Associate(a: seq<Byte>, b: seq<Byte>, c: seq<Byte>)
    ensures a + (b + c) == a + b + c
  {
  }

  lemma {:induction false} SizeAllConcat(a: seq<WriteItem>, b: seq<WriteItem>)
    ensures SizeAll(a + b) == SizeAll(a) + SizeAll(b)
  {
    if a == [] {
      assert a + b == b;
    } else {
      assert (a + b)[1..] == a[1..] + b;
      SizeAllConcat(a[1..], b);
    }
  }

  lemma {:induction false} WireAllConcat(a: seq<WriteItem>, b: seq<WriteItem>)
    ensures WireAll(a + b) == WireAll(a) + WireAll(b)
    ensures SizeAll(a + b) == SizeAll(a) + SizeAll(b)
  {
    SizeAllConcat(a, b);
    if a == [] {
      assert a + b == b;
    } else {
      var rest := a[1..] + b;
      assert (a + b)[1..] == rest && (a + b)[0] == a[0];
      assert WireAll(a + b) == Wire(a[0]) + WireAll(rest);
      WireAllConcat(a[1..], b);
      Associate(Wire(a[0]), WireAll(a[1..]), WireAll(b));
    }
  }

  lemma {:induction false} WireAllSnoc(a: seq<WriteItem>, i: WriteItem)
    ensures WireAll(a + [i]) == WireAll(a) + Wire(i)
    ensures SizeAll(a + [i]) == SizeAll(a) + Size(i)
  {
    WireAllConcat(a, [i]);
    assert WireAll([i]) == Wire(i) + WireAll([]);
  }

  lemma {:induction false} WireAllSplit(a: seq<WriteItem>, k: nat)
    requires k <= |a|
    ensures WireAll(a[..k]) + WireAll(a[k..]) == WireAll(a)
    ensures SizeAll(a[..k]) + SizeAll(a[k..]) == SizeAll(a)
  {
    assert a[..k] + a[k..] == a;
    WireAllConcat(a[..k], a[k..]);
  }

  // ---- the transport calls of one writer batch ----

  datatype Call = Write(part: seq<Byte>) | WriteMany(parts: seq<seq<Byte>>)

  function Joined(parts: seq<seq<Byte>>): seq<Byte> {
    if parts == [] then [] else parts[0] + Joined(parts[1..])
  }

  function CallBytes(c: Call): seq<Byte> {
    match c
    case Write(p) => p
    case WriteMany(ps) => Joined(ps)
  }

  /** Everything a sequence of calls exposes, in call order. */
  function CallsBytes(cs: seq<Call>): seq<Byte> {
    if cs == [] then [] else CallBytes(cs[0]) + CallsBytes(cs[1..])
  }

  lemma {:induction false} JoinedConcat(a: seq<seq<Byte>>, b: seq<seq<Byte>>)
    ensures Joined(a + b) == Joined(a) + Joined(b)
  {
    if a == [] {
      assert a + b == b;
    } else {
      assert (a + b)[1..] == a[1..] + b;
      JoinedConcat(a[1..], b);
    }
  }

  lemma {:induction false} CallsConcat(a: seq<Call>, b: seq<Call>)
    ensures CallsBytes(a + b) == CallsBytes(a) + CallsBytes(b)
  {
    if a == [] {
      assert a + b == b;
    } else {
      assert (a + b)[1..] == a[1..] + b;
      CallsConcat(a[1..], b);
    }
  }

  lemma {:induction false} CallsSnoc(a: seq<Call>, c: Call)
    ensures CallsBytes(a + [c]) == CallsBytes(a) + CallBytes(c)
  {
    CallsConcat(a, [c]);
    assert CallsBytes([c]) == CallBytes(c) + CallsBytes([]);
  }

  /** The calls for a group of frames: one vectored write, or one write each. */
  function FrameCalls(parts: seq<seq<Byte>>, many: bool): seq<Call> {
    if parts == [] then [] else if many then [WriteMany(parts)] else Writes(parts)
  }

  function Writes(parts: seq<seq<Byte>>): (cs: seq<Call>)
    ensures |cs| == |parts| && forall i :: 0 <= i < |parts| ==> cs[i] == Write(parts[i])
  {
    if parts == [] then [] else [Write(parts[0])] + Writes(parts[1..])
  }

  /** The frames at the front of a batch, up to the first segmented item. */
  function LeadingFrames(batch: seq<WriteItem>): (parts: seq<seq<Byte>>)
    ensures |parts| <= |batch|
    ensures forall i :: 0 <= i < |parts| ==> batch[i] == Frame(parts[i])
    ensures |parts| < |batch| ==> batch[|parts|].Segmented?
  {
    if batch == [] || batch[0].Segmented? then [] else [batch[0].data] + LeadingFrames(batch[1..])
  }

  /**
    The calls of a batch, read off its shape: every maximal run of frames is
    one group, and every segmented item is its header followed by its payload.
   */
  function Plan(batch: seq<WriteItem>, many: bool): seq<Call>
    decreases |batch|
  {
    if batch == [] then []
    else
      match batch[0]
      case Segmented(h, p) => [Write(h), Write(p)] + Plan(batch[1..], many)
      case Frame(_) =>
        var parts := LeadingFrames(batch);
        FrameCalls(parts, many) + Plan(batch[|parts|..], many)
  }

  lemma {:induction false} FrameCallsBytes(parts: seq<seq<Byte>>, many: bool)
    ensures CallsBytes(FrameCalls(parts, many)) == Joined(parts)
  {
    if parts != [] {
      if many {
        CallsSnoc([], WriteMany(parts));
        assert [] + [WriteMany(parts)] == [WriteMany(parts)];
      } else {
        WritesBytes(parts);
      }
    }
  }

  lemma {:induction false} WritesBytes(parts: seq<seq<Byte>>)
    ensures CallsBytes(Writes(parts)) == Joined(parts)
  {
    if parts != [] {
      WritesBytes(parts[1..]);
      assert Writes(parts)[1..] == Writes(parts[1..]);
    }
  }

  lemma {:induction false} LeadingBytes(batch: seq<WriteItem>)
    ensures WireAll(batch) == Joined(LeadingFrames(batch)) + WireAll(batch[|LeadingFrames(batch)|..])
  {
    var parts := LeadingFrames(batch);
    if parts == [] {
      assert batch[0..] == batch;
    } else {
      LeadingBytes(batch[1..]);
      assert parts[1..] == LeadingFrames(batch[1..]);
      assert batch[1..][|parts| - 1..] == batch[|parts|..];
      Associate(parts[0], Joined(parts[1..]), WireAll(batch[|parts|..]));
    }
  }

  /** Whatever the grouping, the calls of a batch expose exactly its bytes, in order. */
  lemma {:induction false} PlanBytes(batch: seq<WriteItem>, many: bool)
    ensures CallsBytes(Plan(batch, many)) == WireAll(batch)
    decreases |batch|
  {
    if batch != [] {
      match batch[0]
      case Segmented(h, p) =>
        PlanBytes(batch[1..], many);
        CallsConcat([Write(h), Write(p)], Plan(batch[1..], many));
        PairBytes(h, p);
      case Frame(_) =>
        var parts := LeadingFrames(batch);
        PlanBytes(batch[|parts|..], many);
        CallsConcat(FrameCalls(parts, many), Plan(batch[|parts|..], many));
        FrameCallsBytes(parts, many);
        LeadingBytes(batch);
    }
  }

  lemma {:induction false} PairBytes(h: seq<Byte>, p: seq<Byte>)
    ensures CallsBytes([Write(h), Write(p)]) == h + p
  {
    CallsSnoc([], Write(h));
    assert [] + [Write(h)] == [Write(h)];
    CallsSnoc([Write(h)], Write(p));
    assert [Write(h)] + [Write(p)] == [Write(h), Write(p)];
  }

  /** The plan of a batch is its first group followed by the plan of the rest. */
  function Group(batch: seq<WriteItem>, many: bool): (seq<Call>, nat)
    requires batch != []
  {
    match batch[0]
    case Segmented(h, p) => ([Write(h), Write(p)], 1)
    case Frame(_) => (FrameCalls(LeadingFrames(batch), many), |LeadingFrames(batch)|)
  }

  lemma {:induction false} PlanGroup(batch: seq<WriteItem>, many: bool)
    requires batch != []
    ensures var (calls, k) := Group(batch, many);
            0 < k <= |batch| && Plan(batch, many) == calls + Plan(batch[k..], many)
  {
  }

  lemma {:induction false} GroupStops(a: seq<WriteItem>, b: seq<WriteItem>, many: bool)
    requires a != [] && b != [] && b[0].Segmented?
    ensures Group(a + b, many) == Group(a, many)
    ensures var k := Group(a, many).1; k <= |a| && (a + b)[k..] == a[k..] + b
  {
    LeadingFramesStop(a, b);
    assert (a + b)[0] == a[0];
  }

  /** No group reaches across the front of a segmented item. */
  lemma {:induction false} PlanConcat(a: seq<WriteItem>, b: seq<WriteItem>, many: bool)
    requires b != [] && b[0].Segmented?
    ensures Plan(a + b, many) == Plan(a, many) + Plan(b, many)
    decreases |a|
  {
    if a == [] {
      assert a + b == b;
    } else {
      var (calls, k) := Group(a, many);
      PlanGroup(a, many);
      PlanGroup(a + b, many);
      GroupStops(a, b, many);
      PlanConcat(a[k..], b, many);
      CallsAssociate(calls, Plan(a[k..], many), Plan(b, many));
    }
  }

  /** A segmented item is never joined with a neighbour: its two writes stand between the calls around it. */
  lemma {:induction false} PlanAround(before: seq<WriteItem>, i: WriteItem, after: seq<WriteItem>, many: bool)
    requires i.Segmented?
    ensures Plan(before + ([i] + after), many)
         == Plan(before, many) + ([Write(i.header), Write(i.payload)] + Plan(after, many))
  {
    PlanConcat(before, [i] + after, many);
    assert ([i] + after)[1..] == after;
  }

  lemma {:induction false} LeadingFramesStop(a: seq<WriteItem>, b: seq<WriteItem>)
    requires b != [] && b[0].Segmented?
    ensures LeadingFrames(a + b) == LeadingFrames(a)
  {
    if a == [] {
      assert a + b == b;
    } else if a[0].Frame? {
      assert (a + b)[1..] == a[1..] + b;
      LeadingFramesStop(a[1..], b);
    }
  }

  // ---- the batch loop ----

  /** The calls that flush the accumulated contiguous frames. */
  method FlushContiguous(contiguous: seq<seq<Byte>>, many: bool) returns (r: seq<Call>)
    ensures r == FrameCalls(contiguous, many)
  {
    if contiguous == [] {
      return [];
    }
    if many {
      return [WriteMany(contiguous)];
    }
    r := [];
    var i := 0;
    while i < |contiguous|
      invariant 0 <= i <= |contiguous| && |r| == i
      invariant forall j :: 0 <= j < i ==> r[j] == Write(contiguous[j])
    {
      r := r + [Write(contiguous[i])];
      i := i + 1;
    }
  }

  /** What is still to be called when `held` frames are held back in front of `rest`. */
  function Ahead(held: seq<seq<Byte>>, rest: seq<WriteItem>, many: bool): seq<Call> {
    var parts := LeadingFrames(rest);
    FrameCalls(held + parts, many) + Plan(rest[|parts|..], many)
  }

  lemma {:induction false} NothingHeld(rest: seq<WriteItem>, many: bool)
    ensures Ahead([], rest, many) == Plan(rest, many)
  {
    assert [] + LeadingFrames(rest) == LeadingFrames(rest);
    assert LeadingFrames(rest) == [] ==> rest[0..] == rest;
  }

  lemma {:induction false} HoldFrame(held: seq<seq<Byte>>, rest: seq<WriteItem>, many: bool)
    requires rest != [] && rest[0].Frame?
    ensures Ahead(held, rest, many) == Ahead(held + [rest[0].data], rest[1..], many)
  {
    var parts := LeadingFrames(rest);
    assert held + parts == held + [rest[0].data] + parts[1..];
    assert rest[1..][|parts| - 1..] == rest[|parts|..];
  }

  lemma {:induction false} FlushHeld(held: seq<seq<Byte>>, rest: seq<WriteItem>, many: bool)
    requires rest == [] || rest[0].Segmented?
    ensures Ahead(held, rest, many) == FrameCalls(held, many) + Plan(rest, many)
  {
    assert held + [] == held;
    assert rest[0..] == rest;
  }

  lemma {:induction false} CallsAssociate(a: seq<Call>, b: seq<Call>, c: seq<Call>)
    ensures a + (b + c) == a + b + c
  {
  }

  /** Writing a segmented item: the held frames, the item's two parts, and the plan of what follows. */
  lemma {:induction false} SegmentStep(calls: seq<Call>, held: seq<seq<Byte>>, rest: seq<WriteItem>, many: bool)
    requires rest != [] && rest[0].Segmented?
    ensures calls + Ahead(held, rest, many)
         == calls + FrameCalls(held, many) + [Write(rest[0].header), Write(rest[0].payload)]
          + Ahead([], rest[1..], many)
  {
    var pair := [Write(rest[0].header), Write(rest[0].payload)];
    FlushHeld(held, rest, many);
    NothingHeld(rest[1..], many);
    CallsAssociate(calls, FrameCalls(held, many), pair + Plan(rest[1..], many));
    CallsAssociate(calls + FrameCalls(held, many), pair, Plan(rest[1..], many));
  }

  /** The batch loop of the writer task: contiguous frames are held back until a segmented item or the end. */
  method PlanBatch(batch: seq<WriteItem>, many: bool) returns (calls: seq<Call>)
    ensures calls == Plan(batch, many)
  {
    calls := [];
    var contiguous: seq<seq<Byte>> := [];
    var i := 0;
    NothingHeld(batch, many);
    assert batch[0..] == batch;
    while i < |batch|
      invariant 0 <= i <= |batch|
      invariant calls + Ahead(contiguous, batch[i..], many) == Plan(batch, many)
    {
      assert batch[i..][0] == batch[i] && batch[i..][1..] == batch[i + 1..];
      match batch[i] {
        case Segmented(h, p) =>
          var flush := FlushContiguous(contiguous, many);
          SegmentStep(calls, contiguous, batch[i..], many);
          calls := calls + flush + [Write(h), Write(p)];
          contiguous := [];
        case Frame(d) =>
          HoldFrame(contiguous, batch[i..], many);
          contiguous := contiguous + [d];
      }
      i := i + 1;
    }
    var flush := FlushContiguous(contiguous, many);
    FlushHeld(contiguous, [], many);
    calls := calls + flush;
  }
}
