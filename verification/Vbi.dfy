/**
  The Variable Byte Integer of section 1.5.5 of MQTT 5.0. Bytes are numbers
  below 256: setting bit 7 of a digit adds 128 to it, masking it is `% 128`.
 */
module Vbi {
  import opened Options

  type Byte = b: int | 0 <= b < 256

  const MAX_VBI: int := 268_435_455

  datatype Error = OutOfRange | Incomplete | TooLong | NonCanonical | IndexError

  datatype Result<+T> = Ok(value: T) | Err(error: Error)

  /** A decoded value and the number of bytes, or the offset, reached. */
  datatype Decoded = Decoded(value: int, next: int)

  // ---- the reference: base 128, least significant digit first ----

  function Encode(v: nat): seq<Byte> {
    if v < 128 then [v] else [v % 128 + 128] + Encode(v / 128)
  }

  function Value(bs: seq<Byte>): nat {
    if bs == [] then 0 else bs[0] % 128 + 128 * Value(bs[1..])
  }

  function Power(k: nat): nat {
    if k == 0 then 1 else 128 * Power(k - 1)
  }

  /** How many bytes at the front announce a further one. */
  function Continued(w: seq<Byte>): nat {
    if w == [] || w[0] < 128 then 0 else 1 + Continued(w[1..])
  }

  /** What the bytes received so far amount to. */
  function Outcome(w: seq<Byte>): Result<Decoded> {
    var k := Continued(w);
    if k >= |w| then Err(if |w| <= 4 then Incomplete else TooLong)
    else if k > 3 then Err(TooLong)
    else if k > 0 && w[k] == 0 then Err(NonCanonical)
    else Ok(Decoded(Value(w[..k + 1]), k + 1))
  }

  function VbiLen(value: int): Result<nat> {
    if !(0 <= value <= MAX_VBI) then Err(OutOfRange)
    else if value < 128 then Ok(1)
    else if value < 16_384 then Ok(2)
    else if value < 2_097_152 then Ok(3)
    else Ok(4)
  }

  // ---- facts about the digits ----

  lemma {:induction false} ContinuedIs(w: seq<Byte>, k: nat)
    requires k <= |w| && (forall i :: 0 <= i < k ==> w[i] >= 128) && (k < |w| ==> w[k] < 128)
    ensures Continued(w) == k
  {
    if k > 0 {
      assert forall i :: 0 <= i < k - 1 ==> w[1..][i] == w[i + 1];
      ContinuedIs(w[1..], k - 1);
    }
  }

  lemma {:induction false} ContinuedBytes(w: seq<Byte>)
    ensures Continued(w) <= |w| && (forall i :: 0 <= i < Continued(w) ==> w[i] >= 128)
    ensures Continued(w) < |w| ==> w[Continued(w)] < 128
  {
    if w != [] && w[0] >= 128 {
      ContinuedBytes(w[1..]);
      assert forall i :: 1 <= i < Continued(w) ==> w[i] == w[1..][i - 1];
    }
  }

  lemma {:induction false} ValueSnoc(bs: seq<Byte>, b: Byte)
    ensures Value(bs + [b]) == Value(bs) + b % 128 * Power(|bs|)
  {
    if bs == [] {
      assert bs + [b] == [b];
      assert [b][1..] == [];
    } else {
      var k := |bs| - 1;
      assert (bs + [b])[1..] == bs[1..] + [b];
      ValueSnoc(bs[1..], b);
      assert 128 * (b % 128 * Power(k)) == b % 128 * Power(k + 1) by {
        assert Power(k + 1) == 128 * Power(k);
        Swap(b % 128, Power(k));
      }
    }
  }

  lemma {:induction false} Swap(d: nat, p: nat)
    ensures 128 * (d * p) == d * (128 * p)
  {
  }

  lemma {:induction false} ValueBound(bs: seq<Byte>)
    ensures Value(bs) < Power(|bs|)
  {
    if bs != [] {
      ValueBound(bs[1..]);
    }
  }

  lemma {:induction false} Powers()
    ensures Power(1) == 128 && Power(2) == 16_384 && Power(3) == 2_097_152 && Power(4) == MAX_VBI + 1
  {
    assert Power(2) == 128 * Power(1);
    assert Power(3) == 128 * Power(2);
    assert Power(4) == 128 * Power(3);
  }

  /** The shape of an encoding: continuation digits, then a final one that is not a padding zero. */
  lemma {:induction false} EncodeShape(v: nat)
    ensures var e := Encode(v);
            && |e| >= 1 && e[|e| - 1] < 128 && (|e| > 1 ==> e[|e| - 1] != 0)
            && (forall i :: 0 <= i < |e| - 1 ==> e[i] >= 128)
            && Value(e) == v
  {
    if v < 128 {
      assert [v][1..] == [];
    } else {
      EncodeShape(v / 128);
      var e, rest := Encode(v), Encode(v / 128);
      assert e[1..] == rest;
      assert forall i :: 1 <= i < |e| ==> e[i] == rest[i - 1];
    }
  }

  /** Encodings have the announced length, which grows by one with each factor of 128. */
  lemma {:induction false} EncodeLength(v: nat, k: nat)
    requires 1 <= k && v < Power(k) && (k > 1 ==> v >= Power(k - 1))
    ensures |Encode(v)| == k
  {
    if k == 1 {
      assert Power(1) == 128 * Power(0);
    } else {
      assert Power(k) == 128 * Power(k - 1);
      if k == 2 {
        assert Power(1) == 128 * Power(0);
      } else {
        assert Power(k - 1) == 128 * Power(k - 2);
        PowerPositive(k - 2);
      }
      EncodeLength(v / 128, k - 1);
    }
  }

  lemma {:induction false} PowerPositive(k: nat)
    ensures Power(k) >= 1
  {
    if k > 0 {
      PowerPositive(k - 1);
    }
  }

  lemma {:induction false} LengthIsVbiLen(v: nat)
    requires v <= MAX_VBI
    ensures VbiLen(v) == Ok(|Encode(v)|) && |Encode(v)| <= 4
  {
    Powers();
    EncodeLength(v, VbiLen(v).value);
  }

  /** A group of at most four digits is shortest exactly when its last digit is not a padding zero. */
  lemma {:induction false} ShortestByLastDigit(bs: seq<Byte>)
    requires 1 <= |bs| <= 4 && bs[|bs| - 1] < 128
    ensures VbiLen(Value(bs)) == Ok(|bs|) <==> |bs| == 1 || bs[|bs| - 1] != 0
    ensures VbiLen(Value(bs)).Ok?
  {
    var k, last := |bs| - 1, bs[|bs| - 1];
    assert bs == bs[..k] + [last];
    ValueSnoc(bs[..k], last);
    ValueBound(bs[..k]);
    ValueBound(bs);
    Powers();
    assert last >= 1 ==> last * Power(k) >= Power(k);
  }

  lemma {:induction false} OneDigit(b: Byte)
    ensures Value([b]) == b % 128
  {
    assert [b][1..] == [];
  }

  /** The comparison with the shortest length settles a group whose final digit has arrived. */
  lemma {:induction false} OutcomeAt(w: seq<Byte>, k: nat)
    requires k < |w| && k <= 3 && (forall i :: 0 <= i < k ==> w[i] >= 128) && w[k] < 128
    ensures var value := Value(w[..k + 1]);
            Outcome(w) == if VbiLen(value) == Ok(k + 1) then Ok(Decoded(value, k + 1)) else Err(NonCanonical)
  {
    ContinuedIs(w, k);
    ShortestByLastDigit(w[..k + 1]);
  }

  /** The first `k` bytes have been read; all of them announced another. */
  ghost predicate Reading(w: seq<Byte>, k: nat, value: int, multiplier: int) {
    k <= |w| && (forall i :: 0 <= i < k ==> w[i] >= 128) && value == Value(w[..k]) && multiplier == Power(k)
  }

  lemma {:induction false} ReadFirst(w: seq<Byte>)
    requires |w| >= 1 && w[0] >= 128
    ensures Reading(w, 1, w[0] % 128, 128)
  {
    assert w[..1] == [w[0]];
    OneDigit(w[0]);
    Powers();
  }

  /** One more digit of the window. */
  lemma {:induction false} ReadNext(w: seq<Byte>, k: nat, value: int, multiplier: int)
    requires k < |w| && Reading(w, k, value, multiplier)
    ensures value + w[k] % 128 * multiplier == Value(w[..k + 1])
    ensures w[k] >= 128 ==> Reading(w, k + 1, value + w[k] % 128 * multiplier, multiplier * 128)
  {
    assert w[..k + 1] == w[..k] + [w[k]];
    ValueSnoc(w[..k], w[k]);
  }

  lemma {:induction false} OutcomeOfOne(w: seq<Byte>)
    requires |w| >= 1 && w[0] < 128
    ensures Outcome(w) == Ok(Decoded(w[0], 1))
  {
    assert w[..1] == [w[0]];
    OneDigit(w[0]);
    OutcomeAt(w, 0);
  }

  /** Four continuation digits with a fifth byte behind them are too long. */
  lemma {:induction false} FourContinued(w: seq<Byte>)
    requires |w| > 4 && forall i :: 0 <= i < 4 ==> w[i] >= 128
    ensures Outcome(w) == Err(TooLong)
  {
    ContinuedBytes(w);
  }

  lemma {:induction false} FourRead(w: seq<Byte>)
    requires |w| >= 4 && forall i :: 0 <= i < 4 ==> w[i] >= 128
    ensures Outcome(w) == Err(if |w| == 4 then Incomplete else TooLong)
  {
    if |w| == 4 {
      AllContinued(w);
    } else {
      FourContinued(w);
    }
  }

  lemma {:induction false} AllContinued(w: seq<Byte>)
    requires |w| <= 4 && forall i :: 0 <= i < |w| ==> w[i] >= 128
    ensures Outcome(w) == Err(Incomplete)
  {
    ContinuedIs(w, |w|);
  }

  // ---- the laws of the codec ----

  /** Decoding an encoding gives the value back and consumes exactly its bytes, whatever follows. */
  lemma {:induction false} RoundTrip(v: nat, suffix: seq<Byte>)
    requires v <= MAX_VBI
    ensures Outcome(Encode(v) + suffix) == Ok(Decoded(v, |Encode(v)|))
  {
    EncodeShape(v);
    LengthIsVbiLen(v);
    var e := Encode(v);
    var w := e + suffix;
    assert forall i :: 0 <= i < |e| ==> w[i] == e[i];
    ContinuedIs(w, |e| - 1);
    assert w[..|e|] == e;
  }

  lemma {:induction false} HighAndLow(low: nat, high: nat)
    requires low < 128
    ensures (low + 128 * high) % 128 == low && (low + 128 * high) / 128 == high
  {
  }

  lemma {:induction false} EncodeCons(b: Byte, rest: seq<Byte>)
    requires b >= 128 && Value(rest) >= 1 && Encode(Value(rest)) == rest
    ensures Encode(Value([b] + rest)) == [b] + rest && Value([b] + rest) >= 128
  {
    assert ([b] + rest)[1..] == rest;
    HighAndLow(b % 128, Value(rest));
  }

  /** Digits that end in a significant one are the encoding of their value. */
  lemma {:induction false} DigitsAreEncoding(bs: seq<Byte>)
    requires |bs| >= 1 && (forall i :: 0 <= i < |bs| - 1 ==> bs[i] >= 128)
    requires bs[|bs| - 1] < 128 && (|bs| > 1 ==> bs[|bs| - 1] != 0)
    ensures Encode(Value(bs)) == bs && (|bs| > 1 ==> Value(bs) >= 128)
  {
    if |bs| == 1 {
      assert bs == [bs[0]];
      OneDigit(bs[0]);
    } else {
      var rest := bs[1..];
      assert bs == [bs[0]] + rest;
      DigitsAreEncoding(rest);
      assert Value(rest) >= 1 by {
        if |rest| == 1 {
          assert rest == [rest[0]];
          OneDigit(rest[0]);
        }
      }
      EncodeCons(bs[0], rest);
    }
  }

  /** Whatever decodes was the canonical encoding of its result. */
  lemma {:induction false} DecodeIsCanonical(w: seq<Byte>)
    requires Outcome(w).Ok?
    ensures var d := Outcome(w).value;
            0 <= d.value <= MAX_VBI && 1 <= d.next <= |w| && d.next <= 4 && w[..d.next] == Encode(d.value)
  {
    ContinuedBytes(w);
    var bs := w[..Continued(w) + 1];
    assert forall i :: 0 <= i < |bs| ==> bs[i] == w[i];
    DigitsAreEncoding(bs);
    ShortestByLastDigit(bs);
  }

  /** Decoding succeeds exactly on the inputs that begin with an encoding of a value in range. */
  lemma {:induction false} DecodesExactly(w: seq<Byte>)
    ensures Outcome(w).Ok? <==> exists v: nat :: v <= MAX_VBI && Encode(v) <= w
  {
    if Outcome(w).Ok? {
      DecodeIsCanonical(w);
      assert Encode(Outcome(w).value.value) <= w;
    }
    if v: nat :| v <= MAX_VBI && Encode(v) <= w {
      assert w == Encode(v) + w[|Encode(v)|..];
      RoundTrip(v, w[|Encode(v)|..]);
    }
  }

  /** No proper prefix of an encoding decodes: it is reported as incomplete. */
  lemma {:induction false} StrictPrefixIncomplete(v: nat, k: nat)
    requires v <= MAX_VBI && k < |Encode(v)|
    ensures Outcome(Encode(v)[..k]) == Err(Incomplete)
  {
    EncodeShape(v);
    LengthIsVbiLen(v);
    ContinuedIs(Encode(v)[..k], k);
  }

  /** `k` continuation digits and a final one are an encoding. */
  lemma {:induction false} OneMoreByteCompletes(w: seq<Byte>)
    requires |w| <= 3 && Outcome(w) == Err(Incomplete)
    ensures Outcome(w + [1]).Ok?
  {
    ContinuedBytes(w);
    ContinuedIs(w + [1], |w|);
  }

  /**
    "Incomplete" means that further bytes can still complete the integer in all
    cases but one: four continuation bytes and nothing after them, which no
    bytes can complete.
   */
  lemma {:induction false} IncompleteCanBeCompleted(w: seq<Byte>)
    requires Outcome(w) == Err(Incomplete)
    ensures (exists more: seq<Byte> :: Outcome(w + more).Ok?) <==> |w| != 4
  {
    if |w| <= 3 {
      OneMoreByteCompletes(w);
    } else {
      ContinuedBytes(w);
      forall more: seq<Byte>
        ensures Outcome(w + more).Err?
      {
        ContinuedBytes(w + more);
        assert forall i :: 0 <= i < 4 ==> (w + more)[i] == w[i];
      }
    }
  }

  // ---- the codec ----

  /** What one round of the encoding loop appends. */
  function Digit(rest: nat): Byte {
    if rest / 128 > 0 then rest % 128 + 128 else rest % 128
  }

  lemma {:induction false} DigitStep(out: seq<Byte>, rest: nat)
    ensures out + Encode(rest) == out + [Digit(rest)] + if rest / 128 == 0 then [] else Encode(rest / 128)
  {
    if rest < 128 {
      assert Encode(rest) == [rest];
    } else {
      assert Encode(rest) == [Digit(rest)] + Encode(rest / 128);
    }
  }

  method EncodeVbi(value: int) returns (r: Result<seq<Byte>>)
    ensures r.Ok? <==> 0 <= value <= MAX_VBI
    ensures r.Err? ==> r.error == OutOfRange
    ensures r.Ok? ==> r.value == Encode(value)
  {
    if value < 128 {
      if value < 0 {
        return Err(OutOfRange);
      }
      return Ok([value]);
    }
    if value > MAX_VBI {
      return Err(OutOfRange);
    }
    var out: seq<Byte> := [];
    var rest: nat := value;
    while true
      invariant out + Encode(rest) == Encode(value)
      decreases rest
    {
      DigitStep(out, rest);
      var digit := rest % 128;
      var next := rest / 128;
      if next > 0 {
        digit := digit + 128;
      }
      assert digit == Digit(rest);
      out := out + [digit];
      rest := next;
      if rest == 0 {
        break;
      }
    }
    return Ok(out);
  }

  /** The growing buffer that callers append to. */
  class ByteArray {
    var bytes: seq<Byte>

    constructor ()
      ensures bytes == []
    {
      bytes := [];
    }
  }

  method AppendVbi(buf: ByteArray, value: int) returns (ok: bool)
    modifies buf
    ensures ok <==> 0 <= value <= MAX_VBI
    ensures buf.bytes == old(buf.bytes) + if ok then Encode(value) else []
  {
    if !(0 <= value <= MAX_VBI) {
      return false;
    }
    var rest: nat := value;
    while true
      invariant buf.bytes + Encode(rest) == old(buf.bytes) + Encode(value)
      decreases rest
    {
      DigitStep(buf.bytes, rest);
      var digit := rest % 128;
      var next := rest / 128;
      if next > 0 {
        digit := digit + 128;
      }
      assert digit == Digit(rest);
      buf.bytes := buf.bytes + [digit];
      rest := next;
      if rest == 0 {
        break;
      }
    }
    return true;
  }

  /** Indexing as the program's buffers do it: negative positions count from the end. */
  function ByteAt(buffer: seq<Byte>, pos: int): Option<Byte> {
    if 0 <= pos < |buffer| then Some(buffer[pos])
    else if -|buffer| <= pos < 0 then Some(buffer[|buffer| + pos])
    else None
  }

  /** The bytes a decode may look at: from `pos` up to `length`, as far as the buffer has them. */
  function Window(buffer: seq<Byte>, pos: int, length: int): seq<Byte>
    decreases length - pos
  {
    if pos >= length || ByteAt(buffer, pos).None? then []
    else [ByteAt(buffer, pos).value] + Window(buffer, pos + 1, length)
  }

  /** The bytes run out although `length` promised more. */
  predicate Cut(buffer: seq<Byte>, pos: int, length: int) {
    pos + |Window(buffer, pos, length)| < length
  }

  /** The outcome of the window, placed at `offset`; a further byte that the buffer lacks is an index error. */
  function Expected(w: seq<Byte>, cut: bool, offset: int): Result<Decoded> {
    match Outcome(w)
    case Ok(d) => Ok(Decoded(d.value, offset + d.next))
    case Err(e) => Err(if e.Incomplete? && cut then if |w| == 4 then TooLong else IndexError else e)
  }

  lemma {:induction false} WindowAt(buffer: seq<Byte>, pos: int, length: int, k: nat)
    requires k <= |Window(buffer, pos, length)|
    ensures var w := Window(buffer, pos, length);
            && (k < |w| ==> pos + k < length && ByteAt(buffer, pos + k) == Some(w[k]))
            && (k == |w| ==> pos + k >= length || ByteAt(buffer, pos + k).None?)
    decreases k
  {
    if k > 0 {
      WindowAt(buffer, pos + 1, length, k - 1);
    }
  }

  /** For an offset and an end inside the buffer the window is the slice between them. */
  lemma {:induction false} WindowIsSlice(buffer: seq<Byte>, pos: int, length: int)
    requires 0 <= pos <= length <= |buffer|
    ensures Window(buffer, pos, length) == buffer[pos..length] && !Cut(buffer, pos, length)
    decreases length - pos
  {
    if pos < length {
      WindowIsSlice(buffer, pos + 1, length);
      assert buffer[pos..length] == [buffer[pos]] + buffer[pos + 1..length];
    }
  }

  /** The loop over the continuation digits. */
  method DecodeContinued(buffer: seq<Byte>, offset: int, length: int) returns (r: Result<Decoded>)
    requires offset < length && ByteAt(buffer, offset).Some? && ByteAt(buffer, offset).value >= 128
    ensures r == Expected(Window(buffer, offset, length), Cut(buffer, offset, length), offset)
  {
    ghost var w := Window(buffer, offset, length);
    var multiplier: int, value: int := 128, ByteAt(buffer, offset).value % 128;
    var pos, encodedBytes := offset + 1, 1;
    ReadFirst(w);
    while true
      invariant encodedBytes == pos - offset && 1 <= encodedBytes <= 4
      invariant Reading(w, encodedBytes, value, multiplier)
      decreases 4 - encodedBytes
    {
      WindowAt(buffer, offset, length, encodedBytes);
      if pos >= length {
        AllContinued(w);
        return Err(Incomplete);
      }
      encodedBytes := encodedBytes + 1;
      if encodedBytes > 4 {
        FourRead(w);
        return Err(TooLong);
      }
      var byte := ByteAt(buffer, pos);
      if byte.None? {
        AllContinued(w);
        return Err(IndexError);
      }
      ReadNext(w, encodedBytes - 1, value, multiplier);
      pos := pos + 1;
      value := value + byte.value % 128 * multiplier;
      if byte.value < 128 {
        break;
      }
      multiplier := multiplier * 128;
    }
    OutcomeAt(w, encodedBytes - 1);
    if Ok(encodedBytes) != VbiLen(value) {
      return Err(NonCanonical);
    }
    return Ok(Decoded(value, pos));
  }

  /** The result depends on nothing outside the window. */
  method DecodeVbi(buffer: seq<Byte>, offset: int, end: Option<int>) returns (r: Result<Decoded>)
    ensures var length := if end.None? then |buffer| else end.value;
            r == Expected(Window(buffer, offset, length), Cut(buffer, offset, length), offset)
  {
    var length := if end.None? then |buffer| else end.value;
    if offset >= length {
      return Err(Incomplete);
    }
    var first := ByteAt(buffer, offset);
    if first.None? {
      return Err(IndexError);
    }
    if first.value < 128 {
      OutcomeOfOne(Window(buffer, offset, length));
      return Ok(Decoded(first.value, offset + 1));
    }
    r := DecodeContinued(buffer, offset, length);
  }
}
