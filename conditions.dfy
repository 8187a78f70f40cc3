/** The victory and loss conditions of a map: a condition code each, and
    a block of parameters whose fields depend on the code. */
module Conditions {
  import opened Cursor
  import opened Rules
  import opened PlayerRecords

  /** Acquire a specific artifact. */
  datatype ArtConds = ArtConds(objectType: Byte, offset1: Option<Byte>)

  /** Accumulate creatures. */
  datatype AccumCreaturesConds = AccumCreaturesConds(objectType: Byte, offset1: Option<Byte>, targetCount: U32)

  /** Accumulate resources. */
  datatype AccumResourcesConds = AccumResourcesConds(objectType: Byte, targetCount: U32)

  datatype SpecialConds = SpecialConds(
    allowNormalVictory: Byte,
    appliesToAi: Byte,
    artConds: Option<ArtConds>,
    accumCreaturesConds: Option<AccumCreaturesConds>,
    accumResourcesConds: Option<AccumResourcesConds>)

  datatype VictoryCondition = VictoryCondition(vicCondition: Byte, specialConds: Option<SpecialConds>)

  /** Lose a specific town, lose a specific hero, time expires. */
  datatype SpecialLossConds = SpecialLossConds(
    lossTownConds: Option<Coord>,
    lossHeroConds: Option<Coord>,
    timeExpiredConds: Option<U16>)

  datatype LossCondition = LossCondition(lossCondition: Byte, specialLossConds: Option<SpecialLossConds>)

  datatype VictoryLossConditions = VictoryLossConditions(victory: VictoryCondition, loss: LossCondition)

  // ---------------------------------------------------------------------
  // Well-formedness: each block is present exactly when its code asks for it
  // ---------------------------------------------------------------------

  predicate WfSpecialConds(c: SpecialConds, code: Byte, v: U32)
  {
    && (c.artConds.Some? <==> VictoryWithArt(code))
    && (c.artConds.Some? ==> (c.artConds.value.offset1.Some? <==> NotRoe(v)))
    && (c.accumCreaturesConds.Some? <==> VictoryWithAccumCreatures(code))
    && (c.accumCreaturesConds.Some? ==> (c.accumCreaturesConds.value.offset1.Some? <==> NotRoe(v)))
    && (c.accumResourcesConds.Some? <==> VictoryWithAccumResources(code))
  }

  predicate WfVictory(c: VictoryCondition, v: U32)
  {
    && (c.specialConds.Some? <==> NotDefaultVicCond(c.vicCondition))
    && (c.specialConds.Some? ==> WfSpecialConds(c.specialConds.value, c.vicCondition, v))
  }

  predicate WfSpecialLossConds(c: SpecialLossConds, code: Byte)
  {
    && (c.lossTownConds.Some? <==> LossWithLoseTown(code))
    && (c.lossHeroConds.Some? <==> LossWithLoseHero(code))
    && (c.timeExpiredConds.Some? <==> LossWithTimeExpired(code))
  }

  predicate WfLoss(c: LossCondition)
  {
    && (c.specialLossConds.Some? <==> NotDefaultLossCond(c.lossCondition))
    && (c.specialLossConds.Some? ==> WfSpecialLossConds(c.specialLossConds.value, c.lossCondition))
  }

  predicate WfConditions(c: VictoryLossConditions, v: U32)
  {
    WfVictory(c.victory, v) && WfLoss(c.loss)
  }

  // ---------------------------------------------------------------------
  // Writers
  // ---------------------------------------------------------------------

  function PutArtConds(o: Option<ArtConds>, t: Stream): Stream
  {
    if o.Some? then Next(o.value.objectType, PutOptU8(o.value.offset1, t)) else t
  }

  function PutAccumCreaturesConds(o: Option<AccumCreaturesConds>, t: Stream): Stream
  {
    if o.Some? then Next(o.value.objectType, PutOptU8(o.value.offset1, PutU32(o.value.targetCount, t))) else t
  }

  function PutAccumResourcesConds(o: Option<AccumResourcesConds>, t: Stream): Stream
  {
    if o.Some? then Next(o.value.objectType, PutU32(o.value.targetCount, t)) else t
  }

  function PutSpecialConds(o: Option<SpecialConds>, t: Stream): Stream
  {
    if o.Some? then
      Next(o.value.allowNormalVictory, Next(o.value.appliesToAi,
        PutArtConds(o.value.artConds,
        PutAccumCreaturesConds(o.value.accumCreaturesConds,
        PutAccumResourcesConds(o.value.accumResourcesConds, t)))))
    else t
  }

  function PutVictory(c: VictoryCondition, t: Stream): Stream
  {
    Next(c.vicCondition, PutSpecialConds(c.specialConds, t))
  }

  function PutOptU16(o: Option<U16>, t: Stream): Stream
  {
    if o.Some? then PutU16(o.value, t) else t
  }

  function PutSpecialLossConds(o: Option<SpecialLossConds>, t: Stream): Stream
  {
    if o.Some? then
      PutOptCoord(o.value.lossTownConds,
      PutOptCoord(o.value.lossHeroConds,
      PutOptU16(o.value.timeExpiredConds, t)))
    else t
  }

  function PutLoss(c: LossCondition, t: Stream): Stream
  {
    Next(c.lossCondition, PutSpecialLossConds(c.specialLossConds, t))
  }

  function PutConditions(c: VictoryLossConditions, t: Stream): Stream
  {
    PutVictory(c.victory, PutLoss(c.loss, t))
  }

  /** Each writer commutes with appending bytes after its continuation. */
  lemma PutSpecialCondsCat(o: Option<SpecialConds>, t: Stream, u: Stream)
    ensures Cat(PutSpecialConds(o, t), u) == PutSpecialConds(o, Cat(t, u))
  {
    if o.Some? {
      var c := o.value;
      if c.accumResourcesConds.Some? {
        PutU32Cat(c.accumResourcesConds.value.targetCount, t, u);
      }
      var t2 := PutAccumResourcesConds(c.accumResourcesConds, t);
      if c.accumCreaturesConds.Some? {
        PutU32Cat(c.accumCreaturesConds.value.targetCount, t2, u);
        PutOptU8Cat(c.accumCreaturesConds.value.offset1, PutU32(c.accumCreaturesConds.value.targetCount, t2), u);
      }
      var t1 := PutAccumCreaturesConds(c.accumCreaturesConds, t2);
      if c.artConds.Some? {
        PutOptU8Cat(c.artConds.value.offset1, t1, u);
      }
      var t0 := PutArtConds(c.artConds, t1);
      NextCat(c.appliesToAi, t0, u);
      NextCat(c.allowNormalVictory, Next(c.appliesToAi, t0), u);
    }
  }

  lemma PutSpecialLossCondsCat(o: Option<SpecialLossConds>, t: Stream, u: Stream)
    ensures Cat(PutSpecialLossConds(o, t), u) == PutSpecialLossConds(o, Cat(t, u))
  {
    if o.Some? {
      var c := o.value;
      if c.timeExpiredConds.Some? {
        PutU16Cat(c.timeExpiredConds.value, t, u);
      }
      var t2 := PutOptU16(c.timeExpiredConds, t);
      PutOptCoordCat(c.lossHeroConds, t2, u);
      PutOptCoordCat(c.lossTownConds, PutOptCoord(c.lossHeroConds, t2), u);
    }
  }

  lemma PutConditionsCat(c: VictoryLossConditions, t: Stream, u: Stream)
    ensures Cat(PutConditions(c, t), u) == PutConditions(c, Cat(t, u))
  {
    PutSpecialLossCondsCat(c.loss.specialLossConds, t, u);
    PutSpecialCondsCat(c.victory.specialConds, PutLoss(c.loss, t), u);
  }

  // ---------------------------------------------------------------------
  // Readers
  // ---------------------------------------------------------------------

  function DecodeArtConds(t: Stream, cond: bool, v: U32): (r: Result<Option<ArtConds>>)
    ensures r.Ok? ==> (r.value.Some? <==> cond) && (r.value.Some? ==> (r.value.value.offset1.Some? <==> NotRoe(v)))
    ensures r.Ok? ==> t == PutArtConds(r.value, r.rest)
  {
    if cond then
      var objectType :- U8(t);
      var offset1 :- OptU8(objectType.rest, NotRoe(v));
      Ok(Some(ArtConds(objectType.value, offset1.value)), offset1.rest)
    else Ok(None, t)
  }

  function DecodeAccumCreaturesConds(t: Stream, cond: bool, v: U32): (r: Result<Option<AccumCreaturesConds>>)
    ensures r.Ok? ==> (r.value.Some? <==> cond) && (r.value.Some? ==> (r.value.value.offset1.Some? <==> NotRoe(v)))
    ensures r.Ok? ==> t == PutAccumCreaturesConds(r.value, r.rest)
  {
    if cond then
      var objectType :- U8(t);
      var offset1 :- OptU8(objectType.rest, NotRoe(v));
      var targetCount :- U32LE(offset1.rest);
      Ok(Some(AccumCreaturesConds(objectType.value, offset1.value, targetCount.value)), targetCount.rest)
    else Ok(None, t)
  }

  function DecodeAccumResourcesConds(t: Stream, cond: bool): (r: Result<Option<AccumResourcesConds>>)
    ensures r.Ok? ==> (r.value.Some? <==> cond) && t == PutAccumResourcesConds(r.value, r.rest)
  {
    if cond then
      var objectType :- U8(t);
      var targetCount :- U32LE(objectType.rest);
      Ok(Some(AccumResourcesConds(objectType.value, targetCount.value)), targetCount.rest)
    else Ok(None, t)
  }

  /** special_conds, read unless the victory code is 0xFF. */
  function DecodeSpecialConds(t: Stream, code: Byte, v: U32): (r: Result<Option<SpecialConds>>)
    ensures r.Ok? ==> (r.value.Some? <==> NotDefaultVicCond(code))
    ensures r.Ok? ==> (r.value.Some? ==> WfSpecialConds(r.value.value, code, v)) && t == PutSpecialConds(r.value, r.rest)
  {
    if NotDefaultVicCond(code) then
      var allowNormal :- U8(t);
      var appliesToAi :- U8(allowNormal.rest);
      var art :- DecodeArtConds(appliesToAi.rest, VictoryWithArt(code), v);
      var creatures :- DecodeAccumCreaturesConds(art.rest, VictoryWithAccumCreatures(code), v);
      var resources :- DecodeAccumResourcesConds(creatures.rest, VictoryWithAccumResources(code));
      Ok(Some(SpecialConds(allowNormal.value, appliesToAi.value, art.value, creatures.value, resources.value)), resources.rest)
    else Ok(None, t)
  }

  function DecodeVictory(t: Stream, v: U32): (r: Result<VictoryCondition>)
    ensures r.Ok? ==> WfVictory(r.value, v) && t == PutVictory(r.value, r.rest)
  {
    var code :- U8(t);
    var special :- DecodeSpecialConds(code.rest, code.value, v);
    Ok(VictoryCondition(code.value, special.value), special.rest)
  }

  function DecodeOptU16(t: Stream, cond: bool): (r: Result<Option<U16>>)
    ensures r.Ok? ==> (r.value.Some? <==> cond) && t == PutOptU16(r.value, r.rest)
  {
    if cond then
      var n :- U16LE(t);
      Ok(Some(n.value), n.rest)
    else Ok(None, t)
  }

  /** special_loss_conds, read unless the loss code is 0xFF. */
  function DecodeSpecialLossConds(t: Stream, code: Byte): (r: Result<Option<SpecialLossConds>>)
    ensures r.Ok? ==> (r.value.Some? <==> NotDefaultLossCond(code))
    ensures r.Ok? ==> (r.value.Some? ==> WfSpecialLossConds(r.value.value, code)) && t == PutSpecialLossConds(r.value, r.rest)
  {
    if NotDefaultLossCond(code) then
      var town :- DecodeOptCoord(t, LossWithLoseTown(code));
      var hero :- DecodeOptCoord(town.rest, LossWithLoseHero(code));
      var days :- DecodeOptU16(hero.rest, LossWithTimeExpired(code));
      Ok(Some(SpecialLossConds(town.value, hero.value, days.value)), days.rest)
    else Ok(None, t)
  }

  function DecodeLoss(t: Stream): (r: Result<LossCondition>)
    ensures r.Ok? ==> WfLoss(r.value) && t == PutLoss(r.value, r.rest)
  {
    var code :- U8(t);
    var special :- DecodeSpecialLossConds(code.rest, code.value);
    Ok(LossCondition(code.value, special.value), special.rest)
  }

  /** victory_loss_conditions */
  function DecodeConditions(t: Stream, v: U32): (r: Result<VictoryLossConditions>)
    ensures r.Ok? ==> WfConditions(r.value, v) && t == PutConditions(r.value, r.rest)
  {
    var victory :- DecodeVictory(t, v);
    var loss :- DecodeLoss(victory.rest);
    Ok(VictoryLossConditions(victory.value, loss.value), loss.rest)
  }

  // ---------------------------------------------------------------------
  // Round trips
  // ---------------------------------------------------------------------

  lemma VictoryRoundTrip(c: VictoryCondition, v: U32, t: Stream)
    requires WfVictory(c, v)
    ensures DecodeVictory(PutVictory(c, t), v) == Ok(c, t)
  {
    if c.specialConds.Some? {
      var s := c.specialConds.value;
      if s.accumCreaturesConds.Some? {
        U32RoundTrip(s.accumCreaturesConds.value.targetCount, t);
      }
      if s.accumResourcesConds.Some? {
        U32RoundTrip(s.accumResourcesConds.value.targetCount, t);
      }
    }
  }

  lemma LossRoundTrip(c: LossCondition, t: Stream)
    requires WfLoss(c)
    ensures DecodeLoss(PutLoss(c, t)) == Ok(c, t)
  {
    if c.specialLossConds.Some? && c.specialLossConds.value.timeExpiredConds.Some? {
      U16RoundTrip(c.specialLossConds.value.timeExpiredConds.value, t);
    }
  }

  lemma ConditionsRoundTrip(c: VictoryLossConditions, v: U32, t: Stream)
    requires WfConditions(c, v)
    ensures DecodeConditions(PutConditions(c, t), v) == Ok(c, t)
  {
    VictoryRoundTrip(c.victory, v, PutLoss(c.loss, t));
    LossRoundTrip(c.loss, t);
  }

  // ---------------------------------------------------------------------
  // Bytes consumed
  // ---------------------------------------------------------------------

  /** Bytes after the victory code: none for 0xFF; otherwise the two flag
      bytes and, for codes 0, 1 and 2 only, the object type, the extra
      byte of codes 0 and 1 outside RoE and the uint32 of codes 1 and 2. */
  function VictoryPayloadSize(code: Byte, v: U32): nat
  {
    if code == 0xFF then 0
    else 2 + (match code
              case 0x00 => 1 + (if NotRoe(v) then 1 else 0)
              case 0x01 => 1 + (if NotRoe(v) then 1 else 0) + 4
              case 0x02 => 1 + 4
              case _ => 0)
  }

  /** Bytes after the loss code: three coordinates for codes 0 and 1, a
      uint16 for code 2, none otherwise. */
  function LossPayloadSize(code: Byte): nat
  {
    match code
    case 0x00 => 3
    case 0x01 => 3
    case 0x02 => 2
    case _ => 0
  }

  /** The size of each optional group: zero when it is absent. */
  function ArtCondsSize(o: Option<ArtConds>): nat
  {
    if o.Some? then 1 + (if o.value.offset1.Some? then 1 else 0) else 0
  }

  function AccumCreaturesCondsSize(o: Option<AccumCreaturesConds>): nat
  {
    if o.Some? then 1 + (if o.value.offset1.Some? then 1 else 0) + 4 else 0
  }

  function AccumResourcesCondsSize(o: Option<AccumResourcesConds>): nat
  {
    if o.Some? then 5 else 0
  }

  lemma SpecialCondsSize(s: SpecialConds, t: Stream)
    ensures Size(PutSpecialConds(Some(s), t))
            == 2 + ArtCondsSize(s.artConds) + AccumCreaturesCondsSize(s.accumCreaturesConds)
               + AccumResourcesCondsSize(s.accumResourcesConds) + Size(t)
  {
    var tr := PutAccumResourcesConds(s.accumResourcesConds, t);
    var tc := PutAccumCreaturesConds(s.accumCreaturesConds, tr);
    if s.accumResourcesConds.Some? {
      PutU32Size(s.accumResourcesConds.value.targetCount, t);
    }
    assert Size(tr) == AccumResourcesCondsSize(s.accumResourcesConds) + Size(t);
    if s.accumCreaturesConds.Some? {
      var c := s.accumCreaturesConds.value;
      PutU32Size(c.targetCount, tr);
      assert Size(PutOptU8(c.offset1, PutU32(c.targetCount, tr))) == (if c.offset1.Some? then 1 else 0) + 4 + Size(tr);
    }
    assert Size(tc) == AccumCreaturesCondsSize(s.accumCreaturesConds) + Size(tr);
    if s.artConds.Some? {
      assert Size(PutOptU8(s.artConds.value.offset1, tc)) == (if s.artConds.value.offset1.Some? then 1 else 0) + Size(tc);
    }
    assert Size(PutArtConds(s.artConds, tc)) == ArtCondsSize(s.artConds) + Size(tc);
  }

  lemma VictorySize(c: VictoryCondition, v: U32, t: Stream)
    requires WfVictory(c, v)
    ensures Size(PutVictory(c, t)) == 1 + VictoryPayloadSize(c.vicCondition, v) + Size(t)
  {
    if c.specialConds.Some? {
      SpecialCondsSize(c.specialConds.value, t);
    }
  }

  lemma LossSize(c: LossCondition, t: Stream)
    requires WfLoss(c)
    ensures Size(PutLoss(c, t)) == 1 + LossPayloadSize(c.lossCondition) + Size(t)
  {
    if c.specialLossConds.Some? {
      var s := c.specialLossConds.value;
      var td := PutOptU16(s.timeExpiredConds, t);
      if s.timeExpiredConds.Some? {
        PutU16Size(s.timeExpiredConds.value, t);
      }
      assert Size(td) == (if s.timeExpiredConds.Some? then 2 else 0) + Size(t);
      var th := PutOptCoord(s.lossHeroConds, td);
      PutOptCoordSize(s.lossHeroConds, td);
      PutOptCoordSize(s.lossTownConds, th);
    }
  }

  /** The victory block read from a stream takes exactly the code byte and
      the payload that code calls for. */
  lemma VictoryConsumed(t: Stream, v: U32)
    ensures DecodeVictory(t, v).Ok? ==>
              Size(t) == 1 + VictoryPayloadSize(DecodeVictory(t, v).value.vicCondition, v) + Size(DecodeVictory(t, v).rest)
  {
    if DecodeVictory(t, v).Ok? {
      VictorySize(DecodeVictory(t, v).value, v, DecodeVictory(t, v).rest);
    }
  }

  lemma LossConsumed(t: Stream)
    ensures DecodeLoss(t).Ok? ==>
              Size(t) == 1 + LossPayloadSize(DecodeLoss(t).value.lossCondition) + Size(DecodeLoss(t).rest)
  {
    if DecodeLoss(t).Ok? {
      LossSize(DecodeLoss(t).value, DecodeLoss(t).rest);
    }
  }

  /** The victory block is read exactly when the stream holds the code
      byte and the whole payload that code calls for. */
  lemma VictoryNeeds(t: Stream, v: U32)
    ensures DecodeVictory(t, v).Ok? <==> t.Next? && Size(t.tail) >= VictoryPayloadSize(t.head, v)
  {
  }

  lemma LossNeeds(t: Stream)
    ensures DecodeLoss(t).Ok? <==> t.Next? && Size(t.tail) >= LossPayloadSize(t.head)
  {
  }
}
