/** Protocol effects, their groups, and the single-pass split of one batch. */
module Effects {

  datatype EffectKind =
    | SEND | MESSAGE | DECODED_MESSAGE | CONNACK | PUBLISH_COMPLETE | PUBLISH_FAILED | SUBACK | UNSUBACK
    | DISCONNECTED | PROTOCOL_ERROR | PINGRESP | AUTH | CONTINUE_INBOUND_REPLAY | SEND_ACK

  /** One engine output; `id` is the identity of the object. */
  datatype Effect = Effect(kind: EffectKind, id: nat, requiresDeliveryMark: bool)

  predicate IsSend(e: Effect) {
    e.kind.SEND? || e.kind.SEND_ACK?
  }

  predicate IsDelivery(e: Effect) {
    e.kind.MESSAGE? || e.kind.DECODED_MESSAGE? || e.kind.CONTINUE_INBOUND_REPLAY?
  }

  /** Facts applied when collected: they never wait behind blocked output. */
  predicate IsImmediate(e: Effect) {
    e.kind.AUTH? || e.kind.CONNACK? || IsPublishResult(e) || e.kind.SUBACK? || e.kind.UNSUBACK? || e.kind.PINGRESP?
  }

  /** Facts observed at collection whose ordered remainder stays queued. */
  predicate IsEarly(e: Effect) {
    e.kind.DISCONNECTED? || e.kind.PROTOCOL_ERROR?
  }

  predicate IsPublishResult(e: Effect) {
    e.kind.PUBLISH_COMPLETE? || e.kind.PUBLISH_FAILED?
  }

  predicate IsObserved(e: Effect) {
    IsImmediate(e) || IsEarly(e)
  }

  predicate IsOther(e: Effect) {
    !IsSend(e) && !IsDelivery(e) && !IsImmediate(e)
  }

  /** Already acknowledged, so nothing but this client will ever deliver it. */
  predicate SurvivesConnection(e: Effect) {
    (e.kind.MESSAGE? || e.kind.DECODED_MESSAGE?) && !e.requiresDeliveryMark
  }

  // ---- the sub-sequences of a batch, in batch order ----

  function Select(es: seq<Effect>, p: Effect -> bool): (r: seq<Effect>)
    ensures |r| <= |es|
  {
    if es == [] then [] else (if p(es[0]) then [es[0]] else []) + Select(es[1..], p)
  }

  lemma {:induction false} Associate(a: seq<Effect>, b: seq<Effect>, c: seq<Effect>)
    ensures a + (b + c) == a + b + c
  {
  }

  lemma {:induction false} SelectConcat(a: seq<Effect>, b: seq<Effect>, p: Effect -> bool)
    ensures Select(a + b, p) == Select(a, p) + Select(b, p)
  {
    if a == [] {
      assert a + b == b;
    } else {
      SelectConcat(a[1..], b, p);
      assert (a + b)[0] == a[0] && (a + b)[1..] == a[1..] + b;
      Associate(if p(a[0]) then [a[0]] else [], Select(a[1..], p), Select(b, p));
    }
  }

  lemma {:induction false} SelectOne(e: Effect, p: Effect -> bool)
    ensures Select([e], p) == if p(e) then [e] else []
  {
    assert Select([e], p) == (if p(e) then [e] else []) + Select([], p);
  }

  lemma {:induction false} SelectSnoc(a: seq<Effect>, e: Effect, p: Effect -> bool)
    ensures Select(a + [e], p) == Select(a, p) + (if p(e) then [e] else [])
  {
    SelectConcat(a, [e], p);
    SelectOne(e, p);
  }

  lemma {:induction false} SelectAll(a: seq<Effect>, p: Effect -> bool)
    requires forall e :: e in a ==> p(e)
    ensures Select(a, p) == a
  {
    if a != [] {
      SelectAll(a[1..], p);
    }
  }

  lemma {:induction false} SelectNone(a: seq<Effect>, p: Effect -> bool)
    requires forall e :: e in a ==> !p(e)
    ensures Select(a, p) == []
  {
    if a != [] {
      SelectNone(a[1..], p);
    }
  }

  lemma {:induction false} SelectHolds(a: seq<Effect>, p: Effect -> bool)
    ensures forall e :: e in Select(a, p) <==> p(e) && e in a
  {
    if a != [] {
      SelectHolds(a[1..], p);
      assert a == [a[0]] + a[1..];
    }
  }

  function Sends(es: seq<Effect>): seq<Effect> {
    Select(es, IsSend)
  }

  function Others(es: seq<Effect>): seq<Effect> {
    Select(es, IsOther)
  }

  function Deliveries(es: seq<Effect>): seq<Effect> {
    Select(es, IsDelivery)
  }

  function Observed(es: seq<Effect>): seq<Effect> {
    Select(es, IsObserved)
  }

  function PublishResults(es: seq<Effect>): seq<Effect> {
    Select(es, IsPublishResult)
  }

  function Survivors(es: seq<Effect>): seq<Effect> {
    Select(es, SurvivesConnection)
  }

  /** The ordered lane of one batch: wire output first, then the remaining ordered work. */
  function Lane(es: seq<Effect>): seq<Effect> {
    Sends(es) + Others(es)
  }

  /** The groups are exclusive and cover the batch, so lane, deliveries and immediate facts are all of it. */
  lemma {:induction false} PartitionConserves(es: seq<Effect>)
    ensures |es| == |Lane(es)| + |Deliveries(es)| + |Select(es, IsImmediate)|
    ensures forall e :: e in es <==> e in Lane(es) || e in Deliveries(es) || e in Select(es, IsImmediate)
  {
    if es != [] {
      PartitionConserves(es[1..]);
    }
    SelectHolds(es, IsSend);
    SelectHolds(es, IsOther);
    SelectHolds(es, IsDelivery);
    SelectHolds(es, IsImmediate);
  }

  /** Some output of the batch overtakes earlier ordered work or deliveries. */
  ghost predicate Overtakes(es: seq<Effect>) {
    exists i, j :: 0 <= i < j < |es| && IsSend(es[j]) && (IsOther(es[i]) || IsDelivery(es[i]))
  }

  lemma {:induction false} OvertakesSnoc(es: seq<Effect>, e: Effect)
    ensures Overtakes(es + [e]) <==> Overtakes(es) || (IsSend(e) && (Others(es) != [] || Deliveries(es) != []))
  {
    SelectWitness(es, IsOther);
    SelectWitness(es, IsDelivery);
    var fs := es + [e];
    if Overtakes(es) {
      var i, j :| 0 <= i < j < |es| && IsSend(es[j]) && (IsOther(es[i]) || IsDelivery(es[i]));
      assert fs[i] == es[i] && fs[j] == es[j];
    }
    if IsSend(e) && (Others(es) != [] || Deliveries(es) != []) {
      var i :| 0 <= i < |es| && (IsOther(es[i]) || IsDelivery(es[i]));
      assert fs[i] == es[i] && fs[|es|] == e;
    }
    if Overtakes(fs) {
      var i, j :| 0 <= i < j < |fs| && IsSend(fs[j]) && (IsOther(fs[i]) || IsDelivery(fs[i]));
      assert fs[i] == es[i];
      if j < |es| {
        assert fs[j] == es[j];
      }
    }
  }

  lemma {:induction false} SelectWitness(es: seq<Effect>, p: Effect -> bool)
    ensures Select(es, p) != [] <==> exists i :: 0 <= i < |es| && p(es[i])
  {
    if es != [] {
      SelectWitness(es[1..], p);
      if exists i :: 0 <= i < |es| && p(es[i]) {
        var i :| 0 <= i < |es| && p(es[i]);
        assert i > 0 ==> es[1..][i - 1] == es[i];
      }
      if Select(es[1..], p) != [] {
        var i :| 0 <= i < |es[1..]| && p(es[1..][i]);
        assert es[i + 1] == es[1..][i];
      }
    }
  }

  /** What the loop of `PartitionEffects` knows about the prefix it has read. */
  ghost predicate Split(
    prefix: seq<Effect>, sends: seq<Effect>, others: seq<Effect>, deliveries: seq<Effect>, observed: seq<Effect>,
    reordered: bool)
  {
    sends == Sends(prefix) && others == Others(prefix) && deliveries == Deliveries(prefix)
    && observed == Observed(prefix) && (reordered <==> Overtakes(prefix))
  }

  /** Nothing taken out and nothing overtaken: the batch already is its own lane. */
  lemma {:induction false} ShortcutExact(es: seq<Effect>)
    requires !Overtakes(es) && Deliveries(es) == [] && Observed(es) == []
    ensures es == Lane(es)
  {
    if es != [] {
      var n := |es| - 1;
      var prefix, e := es[..n], es[n];
      assert es == prefix + [e];
      OvertakesSnoc(prefix, e);
      SelectSnoc(prefix, e, IsDelivery);
      SelectSnoc(prefix, e, IsObserved);
      SelectSnoc(prefix, e, IsSend);
      SelectSnoc(prefix, e, IsOther);
      ShortcutExact(prefix);
    }
  }

  lemma {:induction false} SplitSnoc(es: seq<Effect>, e: Effect)
    ensures Sends(es + [e]) == Sends(es) + (if IsSend(e) then [e] else [])
    ensures Others(es + [e]) == Others(es) + (if IsOther(e) then [e] else [])
    ensures Deliveries(es + [e]) == Deliveries(es) + (if IsDelivery(e) then [e] else [])
    ensures Observed(es + [e]) == Observed(es) + (if IsObserved(e) then [e] else [])
  {
    SelectSnoc(es, e, IsSend);
    SelectSnoc(es, e, IsOther);
    SelectSnoc(es, e, IsDelivery);
    SelectSnoc(es, e, IsObserved);
  }

  /** One pass over a batch; returns the input itself when nothing has to move. */
  method PartitionEffects(effects: seq<Effect>)
    returns (lane: seq<Effect>, deliveries: seq<Effect>, observed: seq<Effect>, reordered: bool)
    ensures lane == Lane(effects)
    ensures deliveries == Deliveries(effects) && observed == Observed(effects)
    ensures reordered <==> Overtakes(effects)
  {
    var sends: seq<Effect>, others: seq<Effect> := [], [];
    deliveries, observed, reordered := [], [], false;
    var i := 0;
    while i < |effects|
      invariant 0 <= i <= |effects|
      invariant Split(effects[..i], sends, others, deliveries, observed, reordered)
    {
      var effect := effects[i];
      assert effects[..i + 1] == effects[..i] + [effect];
      SplitSnoc(effects[..i], effect);
      OvertakesSnoc(effects[..i], effect);
      if effect.kind.SEND? || effect.kind.SEND_ACK? {
        if others != [] || deliveries != [] {
          reordered := true;
        }
        sends := sends + [effect];
      } else if IsDelivery(effect) {
        deliveries := deliveries + [effect];
      } else if IsImmediate(effect) {
        observed := observed + [effect];
      } else {
        if IsEarly(effect) {
          observed := observed + [effect];
        }
        others := others + [effect];
      }
      i := i + 1;
    }
    assert effects[..i] == effects;
    if reordered || deliveries != [] || observed != [] {
      lane := sends + others;
    } else {
      ShortcutExact(effects);
      lane := effects;
    }
  }
}
