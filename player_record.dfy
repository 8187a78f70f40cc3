/** One of the eight player slots of a map. Two availability flags; then,
    for a slot nobody can play, a version-sized run of skipped bytes, and
    for a playable slot an info block whose fields are each read or skipped
    by the format version, the main-town flag and the custom-hero id. */
module PlayerRecords {
  import opened Cursor
  import opened Rules

  datatype Coord = Coord(x: Byte, y: Byte, z: Byte)

  /** An entry of the per-player hero roster. */
  datatype HeroEntry = HeroEntry(heroId: Byte, heroName: LString)

  /** The roster block: `heroCount` entries follow the three bytes of `offset2`. */
  datatype HeroesData = HeroesData(powerPlaceholders: Byte, heroCount: Byte, offset2: seq<Byte>, heroes: seq<HeroEntry>)

  datatype CustomHero = CustomHero(portrait: Byte, name: LString)

  datatype PlayerInfo = PlayerInfo(
    aiTactic: Byte,
    p7: Option<Byte>,
    allowedFactions: seq<bool>,
    isFactionRandom: Byte,
    hasMainTown: Byte,
    generateHeroAtMainTown: Option<Byte>,
    generateHero: Option<Byte>,
    mainTown: Option<Coord>,
    hasRandomHero: Byte,
    mainCustomHeroId: Byte,
    customHero: Option<CustomHero>,
    heroesData: Option<HeroesData>)

  datatype PlayerRecord = PlayerRecord(
    canBeHuman: Byte,
    canBeComputer: Byte,
    offset1: Option<seq<Byte>>,
    info: Option<PlayerInfo>)

  // ---------------------------------------------------------------------
  // Well-formedness: each optional field is present exactly when the
  // decoder's gate for it holds, and each count is the length it counts
  // ---------------------------------------------------------------------

  predicate WfHeroesData(d: HeroesData) { |d.offset2| == 3 && |d.heroes| == d.heroCount }

  /** p7 only for SoD; 16 faction flags for SoD, 8 otherwise; the two
      generate-hero bytes when the version is not RoE and there is a main
      town; its coordinates whenever there is a main town; the custom hero
      unless its id is 0xFF; the roster unless RoE. */
  predicate WfInfo(i: PlayerInfo, v: U32)
  {
    && (i.p7.Some? <==> IsSod(v))
    && |i.allowedFactions| == LengthForType(v)
    && (i.generateHeroAtMainTown.Some? <==> NotRoeAndHasMainTown(v, i.hasMainTown))
    && (i.generateHero.Some? <==> NotRoeAndHasMainTown(v, i.hasMainTown))
    && (i.mainTown.Some? <==> HasMainTown(i.hasMainTown))
    && (i.customHero.Some? <==> HasCustomHero(i.mainCustomHeroId))
    && (i.heroesData.Some? <==> NotRoe(v))
    && (i.heroesData.Some? ==> WfHeroesData(i.heroesData.value))
  }

  /** A slot carries its info exactly when the decoder considers it
      playable, and the skipped bytes exactly when it does not. */
  predicate WfPlayer(r: PlayerRecord, v: U32)
  {
    && (r.info.Some? <==> CanPlay(r.canBeHuman, r.canBeComputer))
    && (r.offset1.Some? <==> !CanPlay(r.canBeHuman, r.canBeComputer))
    && (r.offset1.Some? ==> |r.offset1.value| == SkipForVersion(v))
    && (r.info.Some? ==> WfInfo(r.info.value, v))
  }

  // ---------------------------------------------------------------------
  // Writers: the bytes each value is read from, in front of a stream
  // ---------------------------------------------------------------------

  function PutCoord(c: Coord, t: Stream): Stream
  {
    Next(c.x, Next(c.y, Next(c.z, t)))
  }

  function PutOptCoord(o: Option<Coord>, t: Stream): Stream
  {
    if o.Some? then PutCoord(o.value, t) else t
  }

  function PutHeroEntry(h: HeroEntry, t: Stream): Stream
  {
    Next(h.heroId, PutStr(h.heroName, t))
  }

  function PutHeroesData(d: HeroesData, t: Stream): Stream
  {
    Next(d.powerPlaceholders, Next(d.heroCount, Feed(d.offset2, PutMany(PutHeroEntry, d.heroes, t))))
  }

  function PutOptHeroesData(o: Option<HeroesData>, t: Stream): Stream
  {
    if o.Some? then PutHeroesData(o.value, t) else t
  }

  function PutOptCustomHero(o: Option<CustomHero>, t: Stream): Stream
  {
    if o.Some? then Next(o.value.portrait, PutStr(o.value.name, t)) else t
  }

  function PutInfo(i: PlayerInfo, t: Stream): Stream
  {
    Next(i.aiTactic,
    PutOptU8(i.p7,
    PutBits(i.allowedFactions,
    Next(i.isFactionRandom,
    Next(i.hasMainTown,
    PutOptU8(i.generateHeroAtMainTown,
    PutOptU8(i.generateHero,
    PutOptCoord(i.mainTown,
    Next(i.hasRandomHero,
    Next(i.mainCustomHeroId,
    PutOptCustomHero(i.customHero,
    PutOptHeroesData(i.heroesData, t))))))))))))
  }

  function PutPlayer(r: PlayerRecord, t: Stream): Stream
  {
    Next(r.canBeHuman, Next(r.canBeComputer,
      if r.info.Some? then PutInfo(r.info.value, t)
      else if r.offset1.Some? then Feed(r.offset1.value, t)
      else t))
  }

  /** Each writer commutes with appending bytes after its continuation. */
  lemma PutOptCoordCat(o: Option<Coord>, t: Stream, u: Stream)
    ensures Cat(PutOptCoord(o, t), u) == PutOptCoord(o, Cat(t, u))
  {
    if o.Some? {
      var c := o.value;
      NextCat(c.z, t, u);
      NextCat(c.y, Next(c.z, t), u);
      NextCat(c.x, Next(c.y, Next(c.z, t)), u);
    }
  }

  lemma PutHeroEntryCat(h: HeroEntry, t: Stream, u: Stream)
    ensures Cat(PutHeroEntry(h, t), u) == PutHeroEntry(h, Cat(t, u))
  {
    PutStrCat(h.heroName, t, u);
  }

  lemma PutOptHeroesDataCat(o: Option<HeroesData>, t: Stream, u: Stream)
    ensures Cat(PutOptHeroesData(o, t), u) == PutOptHeroesData(o, Cat(t, u))
  {
    if o.Some? {
      var d := o.value;
      forall x, s ensures Cat(PutHeroEntry(x, s), u) == PutHeroEntry(x, Cat(s, u)) {
        PutHeroEntryCat(x, s, u);
      }
      PutManyCat(PutHeroEntry, d.heroes, t, u);
      FeedCat(d.offset2, PutMany(PutHeroEntry, d.heroes, t), u);
    }
  }

  lemma PutOptCustomHeroCat(o: Option<CustomHero>, t: Stream, u: Stream)
    ensures Cat(PutOptCustomHero(o, t), u) == PutOptCustomHero(o, Cat(t, u))
  {
    if o.Some? {
      PutStrCat(o.value.name, t, u);
    }
  }

  lemma PutInfoCat(i: PlayerInfo, t: Stream, u: Stream)
    ensures Cat(PutInfo(i, t), u) == PutInfo(i, Cat(t, u))
  {
    var t11 := PutOptHeroesData(i.heroesData, t);
    var t10 := PutOptCustomHero(i.customHero, t11);
    var t7 := PutOptCoord(i.mainTown, Next(i.hasRandomHero, Next(i.mainCustomHeroId, t10)));
    var t6 := PutOptU8(i.generateHero, t7);
    var t5 := PutOptU8(i.generateHeroAtMainTown, t6);
    var t2 := PutBits(i.allowedFactions, Next(i.isFactionRandom, Next(i.hasMainTown, t5)));
    PutOptHeroesDataCat(i.heroesData, t, u);
    PutOptCustomHeroCat(i.customHero, t11, u);
    PutOptCoordCat(i.mainTown, Next(i.hasRandomHero, Next(i.mainCustomHeroId, t10)), u);
    PutOptU8Cat(i.generateHero, t7, u);
    PutOptU8Cat(i.generateHeroAtMainTown, t6, u);
    PutBitsCat(i.allowedFactions, Next(i.isFactionRandom, Next(i.hasMainTown, t5)), u);
    PutOptU8Cat(i.p7, t2, u);
  }

  lemma PutPlayerCat(r: PlayerRecord, t: Stream, u: Stream)
    ensures Cat(PutPlayer(r, t), u) == PutPlayer(r, Cat(t, u))
  {
    if r.info.Some? {
      PutInfoCat(r.info.value, t, u);
    } else if r.offset1.Some? {
      FeedCat(r.offset1.value, t, u);
    }
  }

  // ---------------------------------------------------------------------
  // Readers: each accepts exactly what its writer writes
  // ---------------------------------------------------------------------

  function DecodeCoord(t: Stream): (r: Result<Coord>)
    ensures r.Ok? <==> Size(t) >= 3
    ensures r.Ok? ==> t == PutCoord(r.value, r.rest)
  {
    var x :- U8(t);
    var y :- U8(x.rest);
    var z :- U8(y.rest);
    Ok(Coord(x.value, y.value, z.value), z.rest)
  }

  /** main_town_coord_x/y/z, read only when `cond` holds. */
  function DecodeOptCoord(t: Stream, cond: bool): (r: Result<Option<Coord>>)
    ensures r.Ok? ==> (r.value.Some? <==> cond) && t == PutOptCoord(r.value, r.rest)
  {
    if cond then
      var c :- DecodeCoord(t);
      Ok(Some(c.value), c.rest)
    else Ok(None, t)
  }

  function DecodeHeroEntry(t: Stream): (r: Result<HeroEntry>)
    ensures r.Ok? ==> t == PutHeroEntry(r.value, r.rest)
  {
    var id :- U8(t);
    var name :- Str(id.rest);
    Ok(HeroEntry(id.value, name.value), name.rest)
  }

  function DecodeHeroesData(t: Stream): (r: Result<HeroesData>)
    ensures r.Ok? ==> WfHeroesData(r.value) && t == PutHeroesData(r.value, r.rest)
  {
    var power :- U8(t);
    var count :- U8(power.rest);
    var offset2 :- Bytes(count.rest, 3);
    var heroes :- Many(DecodeHeroEntry, offset2.rest, count.value);
    ManySound(DecodeHeroEntry, PutHeroEntry, offset2.rest, count.value);
    Ok(HeroesData(power.value, count.value, offset2.value, heroes.value), heroes.rest)
  }

  /** heroes_data, read only when `cond` holds. */
  function DecodeOptHeroesData(t: Stream, cond: bool): (r: Result<Option<HeroesData>>)
    ensures r.Ok? ==> (r.value.Some? <==> cond)
    ensures r.Ok? ==> (r.value.Some? ==> WfHeroesData(r.value.value)) && t == PutOptHeroesData(r.value, r.rest)
  {
    if cond then
      var d :- DecodeHeroesData(t);
      Ok(Some(d.value), d.rest)
    else Ok(None, t)
  }

  /** main_custom_hero_portrait and the sized main_custom_hero_name, read
      only when `cond` holds. */
  function DecodeOptCustomHero(t: Stream, cond: bool): (r: Result<Option<CustomHero>>)
    ensures r.Ok? ==> (r.value.Some? <==> cond) && t == PutOptCustomHero(r.value, r.rest)
  {
    if cond then
      var portrait :- U8(t);
      var name :- Str(portrait.rest);
      Ok(Some(CustomHero(portrait.value, name.value)), name.rest)
    else Ok(None, t)
  }

  /** The info block of a playable slot, in field order. */
  function DecodeInfo(t: Stream, v: U32): (r: Result<PlayerInfo>)
    ensures r.Ok? ==> WfInfo(r.value, v) && t == PutInfo(r.value, r.rest)
  {
    var ai :- U8(t);
    var p7 :- OptU8(ai.rest, IsSod(v));
    var factions :- Bitset(p7.rest, FactionBytes(v));
    var random :- U8(factions.rest);
    var town :- U8(random.rest);
    var genAtTown :- OptU8(town.rest, NotRoeAndHasMainTown(v, town.value));
    var gen :- OptU8(genAtTown.rest, NotRoeAndHasMainTown(v, town.value));
    var coords :- DecodeOptCoord(gen.rest, HasMainTown(town.value));
    var randomHero :- U8(coords.rest);
    var customId :- U8(randomHero.rest);
    var custom :- DecodeOptCustomHero(customId.rest, HasCustomHero(customId.value));
    var heroes :- DecodeOptHeroesData(custom.rest, NotRoe(v));
    Ok(PlayerInfo(ai.value, p7.value, factions.value, random.value, town.value, genAtTown.value,
                  gen.value, coords.value, randomHero.value, customId.value, custom.value, heroes.value),
       heroes.rest)
  }

  function DecodePlayer(t: Stream, v: U32): (r: Result<PlayerRecord>)
    ensures r.Ok? ==> WfPlayer(r.value, v) && t == PutPlayer(r.value, r.rest)
  {
    var human :- U8(t);
    var computer :- U8(human.rest);
    if CanPlay(human.value, computer.value) then
      var info :- DecodeInfo(computer.rest, v);
      Ok(PlayerRecord(human.value, computer.value, None, Some(info.value)), info.rest)
    else
      var skipped :- Bytes(computer.rest, SkipForVersion(v));
      Ok(PlayerRecord(human.value, computer.value, Some(skipped.value), None), skipped.rest)
  }

  /** The element reader and writer of the `players` array. */
  function PlayerReader(v: U32): Stream -> Result<PlayerRecord>
  {
    s => DecodePlayer(s, v)
  }

  // ---------------------------------------------------------------------
  // Round trips: each well-formed value is read back from its writing
  // ---------------------------------------------------------------------

  lemma CoordRoundTrip(c: Coord, t: Stream)
    ensures DecodeCoord(PutCoord(c, t)) == Ok(c, t)
  {
  }

  lemma PutOptCoordSize(o: Option<Coord>, t: Stream)
    ensures Size(PutOptCoord(o, t)) == (if o.Some? then 3 else 0) + Size(t)
  {
    if o.Some? {
      assert Size(Next(o.value.z, t)) == 1 + Size(t);
    }
  }

  lemma OptCoordRoundTrip(o: Option<Coord>, cond: bool, t: Stream)
    requires o.Some? <==> cond
    ensures DecodeOptCoord(PutOptCoord(o, t), cond) == Ok(o, t)
  {
  }

  lemma HeroEntryRoundTrip(h: HeroEntry, t: Stream)
    ensures DecodeHeroEntry(PutHeroEntry(h, t)) == Ok(h, t)
  {
    StrRoundTrip(h.heroName, t);
  }

  lemma HeroesDataRoundTrip(d: HeroesData, t: Stream)
    requires WfHeroesData(d)
    ensures DecodeHeroesData(PutHeroesData(d, t)) == Ok(d, t)
  {
    var entries := PutMany(PutHeroEntry, d.heroes, t);
    BytesRoundTrip(d.offset2, entries);
    forall k, s | 0 <= k < |d.heroes|
      ensures DecodeHeroEntry(PutHeroEntry(d.heroes[k], s)) == Ok(d.heroes[k], s)
    {
      HeroEntryRoundTrip(d.heroes[k], s);
    }
    ManyRoundTrip(DecodeHeroEntry, PutHeroEntry, d.heroes, t);
  }

  lemma OptHeroesDataRoundTrip(o: Option<HeroesData>, cond: bool, t: Stream)
    requires o.Some? <==> cond
    requires o.Some? ==> WfHeroesData(o.value)
    ensures DecodeOptHeroesData(PutOptHeroesData(o, t), cond) == Ok(o, t)
  {
    if o.Some? {
      HeroesDataRoundTrip(o.value, t);
    }
  }

  lemma CustomHeroRoundTrip(o: Option<CustomHero>, cond: bool, t: Stream)
    requires o.Some? <==> cond
    ensures DecodeOptCustomHero(PutOptCustomHero(o, t), cond) == Ok(o, t)
  {
    if o.Some? {
      StrRoundTrip(o.value.name, t);
    }
  }

  lemma InfoRoundTrip(i: PlayerInfo, v: U32, t: Stream)
    requires WfInfo(i, v)
    ensures DecodeInfo(PutInfo(i, t), v) == Ok(i, t)
  {
    var t11 := PutOptHeroesData(i.heroesData, t);
    var t10 := PutOptCustomHero(i.customHero, t11);
    var t7 := PutOptCoord(i.mainTown, Next(i.hasRandomHero, Next(i.mainCustomHeroId, t10)));
    var t6 := PutOptU8(i.generateHero, t7);
    var t5 := PutOptU8(i.generateHeroAtMainTown, t6);
    var t3 := Next(i.isFactionRandom, Next(i.hasMainTown, t5));
    var t2 := PutBits(i.allowedFactions, t3);
    OptU8RoundTrip(IsSod(v), i.p7, t2);
    BitsetRoundTrip(i.allowedFactions, t3);
    OptU8RoundTrip(NotRoeAndHasMainTown(v, i.hasMainTown), i.generateHeroAtMainTown, t6);
    OptU8RoundTrip(NotRoeAndHasMainTown(v, i.hasMainTown), i.generateHero, t7);
    OptCoordRoundTrip(i.mainTown, HasMainTown(i.hasMainTown), Next(i.hasRandomHero, Next(i.mainCustomHeroId, t10)));
    CustomHeroRoundTrip(i.customHero, HasCustomHero(i.mainCustomHeroId), t11);
    OptHeroesDataRoundTrip(i.heroesData, NotRoe(v), t);
  }

  lemma PlayerRoundTrip(r: PlayerRecord, v: U32, t: Stream)
    requires WfPlayer(r, v)
    ensures DecodePlayer(PutPlayer(r, t), v) == Ok(r, t)
  {
    if r.info.Some? {
      InfoRoundTrip(r.info.value, v, t);
    } else {
      BytesRoundTrip(r.offset1.value, t);
    }
  }

  // ---------------------------------------------------------------------
  // Bytes consumed
  // ---------------------------------------------------------------------

  /** A roster entry takes its id byte and its length-prefixed name. */
  function HeroEntrySize(h: HeroEntry): nat
  {
    1 + 4 + |h.heroName|
  }

  /** The bytes of an info block, field by field in reading order: the
      tactic, p7 for SoD, the faction flags, two flags, the two
      generate-hero bytes and the three coordinates of a main town, two
      more bytes, the custom hero and, unless RoE, the roster. */
  function InfoSize(i: PlayerInfo, v: U32): nat
    requires WfInfo(i, v)
  {
    1
    + (if IsSod(v) then 1 else 0)
    + FactionBytes(v)
    + 2
    + (if NotRoeAndHasMainTown(v, i.hasMainTown) then 2 else 0)
    + (if HasMainTown(i.hasMainTown) then 3 else 0)
    + 2
    + (if HasCustomHero(i.mainCustomHeroId) then 1 + 4 + |i.customHero.value.name| else 0)
    + (if NotRoe(v) then 2 + 3 + SumOf(HeroEntrySize, i.heroesData.value.heroes) else 0)
  }

  lemma HeroesDataSize(d: HeroesData, t: Stream)
    requires WfHeroesData(d)
    ensures Size(PutHeroesData(d, t)) == 2 + 3 + SumOf(HeroEntrySize, d.heroes) + Size(t)
  {
    forall h, s ensures Size(PutHeroEntry(h, s)) == HeroEntrySize(h) + Size(s) {
      PutStrSize(h.heroName, s);
    }
    PutManySize(PutHeroEntry, HeroEntrySize, d.heroes, t);
    FeedSize(d.offset2, PutMany(PutHeroEntry, d.heroes, t));
  }

  lemma InfoSizeOf(i: PlayerInfo, v: U32, t: Stream)
    requires WfInfo(i, v)
    ensures Size(PutInfo(i, t)) == InfoSize(i, v) + Size(t)
  {
    var t11 := PutOptHeroesData(i.heroesData, t);
    var t10 := PutOptCustomHero(i.customHero, t11);
    var t8 := Next(i.hasRandomHero, Next(i.mainCustomHeroId, t10));
    var t7 := PutOptCoord(i.mainTown, t8);
    var t6 := PutOptU8(i.generateHero, t7);
    var t5 := PutOptU8(i.generateHeroAtMainTown, t6);
    var t3 := Next(i.isFactionRandom, Next(i.hasMainTown, t5));
    var t2 := PutBits(i.allowedFactions, t3);
    if i.heroesData.Some? {
      HeroesDataSize(i.heroesData.value, t);
    }
    if i.customHero.Some? {
      PutStrSize(i.customHero.value.name, t11);
    }
    assert Size(t10) == (if HasCustomHero(i.mainCustomHeroId) then 1 + 4 + |i.customHero.value.name| else 0) + Size(t11);
    assert Size(t8) == 2 + Size(t10);
    PutOptCoordSize(i.mainTown, t8);
    assert Size(t5) == (if NotRoeAndHasMainTown(v, i.hasMainTown) then 2 else 0) + Size(t7);
    assert Size(t3) == 2 + Size(t5);
    PutBitsSize(i.allowedFactions, t3);
  }

  /** The bytes of a slot: the two flags, then the info block or the
      skipped run. */
  function PlayerSize(r: PlayerRecord, v: U32): nat
    requires WfPlayer(r, v)
  {
    2 + (if r.info.Some? then InfoSize(r.info.value, v) else SkipForVersion(v))
  }

  lemma PlayerSizeOf(r: PlayerRecord, v: U32, t: Stream)
    requires WfPlayer(r, v)
    ensures Size(PutPlayer(r, t)) == PlayerSize(r, v) + Size(t)
  {
    if r.info.Some? {
      InfoSizeOf(r.info.value, v, t);
    } else {
      FeedSize(r.offset1.value, t);
    }
  }

  /** A slot read from a stream takes exactly its size. */
  lemma PlayerConsumed(t: Stream, v: U32)
    ensures DecodePlayer(t, v).Ok? ==> Size(t) == PlayerSize(DecodePlayer(t, v).value, v) + Size(DecodePlayer(t, v).rest)
  {
    if DecodePlayer(t, v).Ok? {
      PlayerSizeOf(DecodePlayer(t, v).value, v, DecodePlayer(t, v).rest);
    }
  }

  // ---------------------------------------------------------------------
  // Layout of a slot
  // ---------------------------------------------------------------------

  /** A slot with both flags zero has no info: after the two flags it
      occupies exactly the version's padding, 13 bytes for SoD, 12 for AB,
      6 for RoE and 13 for any other code. */
  lemma AbsentPlayerLayout(t: Stream, v: U32)
    ensures DecodePlayer(Next(0, Next(0, t)), v).Ok? <==> Size(t) >= SkipForVersion(v)
    ensures DecodePlayer(Next(0, Next(0, t)), v).Ok? ==>
              (&& DecodePlayer(Next(0, Next(0, t)), v).value.info.None?
               && DecodePlayer(Next(0, Next(0, t)), v).value.offset1 == Some(Bytes(t, SkipForVersion(v)).value)
               && DecodePlayer(Next(0, Next(0, t)), v).rest == Bytes(t, SkipForVersion(v)).rest)
    ensures SkipForVersion(v) == if v == 0x1C then 13 else if v == 0x15 then 12 else if v == 0x0E then 6 else 13
  {
  }

  /** A slot with a nonzero flag carries an info block right after the two
      flags, and no padding. */
  lemma PresentPlayerLayout(human: Byte, computer: Byte, t: Stream, v: U32)
    requires human > 0 || computer > 0
    ensures DecodePlayer(Next(human, Next(computer, t)), v).Ok? <==> DecodeInfo(t, v).Ok?
    ensures DecodeInfo(t, v).Ok? ==>
              DecodePlayer(Next(human, Next(computer, t)), v)
              == Ok(PlayerRecord(human, computer, None, Some(DecodeInfo(t, v).value)), DecodeInfo(t, v).rest)
  {
  }
}
