/** The map sections between the victory and loss conditions and the
    terrain: teams, the hero pools, the allowance masks, the rumor count and
    the predefined hero settings. */
module Sections {
  import opened Cursor
  import opened Rules

  // ---------------------------------------------------------------------
  // Teams: a count, then one team byte per player whenever it is nonzero
  // ---------------------------------------------------------------------

  /** `teams` holds player1_team ... player8_team. */
  datatype Teams = Teams(teamsCount: Byte, teams: Option<seq<Byte>>)

  predicate WfTeams(tm: Teams)
  {
    && (tm.teams.Some? <==> HasTeams(tm.teamsCount))
    && (tm.teams.Some? ==> |tm.teams.value| == 8)
  }

  function PutTeams(tm: Teams, t: Stream): Stream
  {
    Next(tm.teamsCount, if tm.teams.Some? then Feed(tm.teams.value, t) else t)
  }

  lemma PutTeamsCat(tm: Teams, t: Stream, u: Stream)
    ensures Cat(PutTeams(tm, t), u) == PutTeams(tm, Cat(t, u))
  {
    if tm.teams.Some? {
      FeedCat(tm.teams.value, t, u);
    }
  }

  function DecodeTeams(t: Stream): (r: Result<Teams>)
    ensures r.Ok? ==> WfTeams(r.value) && t == PutTeams(r.value, r.rest)
  {
    var count :- U8(t);
    if HasTeams(count.value) then
      var teams :- Bytes(count.rest, 8);
      Ok(Teams(count.value, Some(teams.value)), teams.rest)
    else Ok(Teams(count.value, None), count.rest)
  }

  lemma TeamsRoundTrip(tm: Teams, t: Stream)
    requires WfTeams(tm)
    ensures DecodeTeams(PutTeams(tm, t)) == Ok(tm, t)
  {
    if tm.teams.Some? {
      BytesRoundTrip(tm.teams.value, t);
    }
  }

  /** Team bytes after the count: none for a zero count, eight for any
      other count whatever its value. */
  function TeamsPayloadSize(teamsCount: Byte): nat
  {
    if teamsCount > 0 then 8 else 0
  }

  lemma TeamsSize(tm: Teams, t: Stream)
    requires WfTeams(tm)
    ensures Size(PutTeams(tm, t)) == 1 + TeamsPayloadSize(tm.teamsCount) + Size(t)
  {
    if tm.teams.Some? {
      FeedSize(tm.teams.value, t);
    }
  }

  /** The teams block is read exactly when the stream holds the count and
      the bytes it calls for. */
  lemma TeamsNeeds(t: Stream)
    ensures DecodeTeams(t).Ok? <==> t.Next? && Size(t.tail) >= TeamsPayloadSize(t.head)
  {
  }

  // ---------------------------------------------------------------------
  // Hero pools: allowed heroes, placeholders, disposed heroes
  // ---------------------------------------------------------------------

  datatype DisposedHero = DisposedHero(heroId: Byte, portrait: Byte, heroName: LString, players: Byte)

  datatype HeroPools = HeroPools(
    allowedHeroes: seq<bool>,
    placeholdersQty: Option<U32>,
    placeholdedHeroes: Option<seq<Byte>>,
    disposedQty: Option<Byte>,
    disposedHeroes: Option<seq<DisposedHero>>)

  /** allowed_heroes has 20 * 8 flags, 16 * 8 for RoE; the placeholders
      are there unless RoE and the disposed heroes from SoD on, each array
      as long as its count. */
  predicate WfHeroPools(p: HeroPools, v: U32)
  {
    && |p.allowedHeroes| == HeroesMaskSize(v)
    && (p.placeholdersQty.Some? <==> NotRoe(v))
    && (p.placeholdedHeroes.Some? <==> p.placeholdersQty.Some?)
    && (p.placeholdedHeroes.Some? ==> |p.placeholdedHeroes.value| == p.placeholdersQty.value)
    && (p.disposedQty.Some? <==> UpperSod(v))
    && (p.disposedHeroes.Some? <==> p.disposedQty.Some?)
    && (p.disposedHeroes.Some? ==> |p.disposedHeroes.value| == p.disposedQty.value)
  }

  function PutDisposedHero(d: DisposedHero, t: Stream): Stream
  {
    Next(d.heroId, Next(d.portrait, PutStr(d.heroName, Next(d.players, t))))
  }

  function DecodeDisposedHero(t: Stream): (r: Result<DisposedHero>)
    ensures r.Ok? ==> t == PutDisposedHero(r.value, r.rest)
  {
    var id :- U8(t);
    var portrait :- U8(id.rest);
    var name :- Str(portrait.rest);
    var players :- U8(name.rest);
    Ok(DisposedHero(id.value, portrait.value, name.value, players.value), players.rest)
  }

  function PutOptBytes(o: Option<seq<Byte>>, t: Stream): Stream
  {
    if o.Some? then Feed(o.value, t) else t
  }

  function PutOptDisposed(o: Option<seq<DisposedHero>>, t: Stream): Stream
  {
    if o.Some? then PutMany(PutDisposedHero, o.value, t) else t
  }

  function PutHeroPools(p: HeroPools, t: Stream): Stream
  {
    PutBits(p.allowedHeroes,
    PutOptU32(p.placeholdersQty,
    PutOptBytes(p.placeholdedHeroes,
    PutOptU8(p.disposedQty,
    PutOptDisposed(p.disposedHeroes, t)))))
  }

  /** Each writer commutes with appending bytes after its continuation. */
  lemma PutDisposedHeroCat(d: DisposedHero, t: Stream, u: Stream)
    ensures Cat(PutDisposedHero(d, t), u) == PutDisposedHero(d, Cat(t, u))
  {
    PutStrCat(d.heroName, Next(d.players, t), u);
  }

  lemma PutHeroPoolsCat(p: HeroPools, t: Stream, u: Stream)
    ensures Cat(PutHeroPools(p, t), u) == PutHeroPools(p, Cat(t, u))
  {
    if p.disposedHeroes.Some? {
      forall x, s ensures Cat(PutDisposedHero(x, s), u) == PutDisposedHero(x, Cat(s, u)) {
        PutDisposedHeroCat(x, s, u);
      }
      PutManyCat(PutDisposedHero, p.disposedHeroes.value, t, u);
    }
    var t4 := PutOptDisposed(p.disposedHeroes, t);
    PutOptU8Cat(p.disposedQty, t4, u);
    var t3 := PutOptU8(p.disposedQty, t4);
    if p.placeholdedHeroes.Some? {
      FeedCat(p.placeholdedHeroes.value, t3, u);
    }
    var t2 := PutOptBytes(p.placeholdedHeroes, t3);
    PutOptU32Cat(p.placeholdersQty, t2, u);
    PutBitsCat(p.allowedHeroes, PutOptU32(p.placeholdersQty, t2), u);
  }

  /** placeholded_heroes: as many bytes as the count says, when there is a count. */
  function DecodePlaceholded(t: Stream, qty: Option<U32>): (r: Result<Option<seq<Byte>>>)
    ensures r.Ok? ==> (r.value.Some? <==> qty.Some?) && (r.value.Some? ==> |r.value.value| == qty.value)
    ensures r.Ok? ==> t == PutOptBytes(r.value, r.rest)
  {
    if qty.Some? then
      var heroes :- Bytes(t, qty.value);
      Ok(Some(heroes.value), heroes.rest)
    else Ok(None, t)
  }

  /** disposed_heroes: as many entries as the count says, when there is a count. */
  function DecodeDisposed(t: Stream, qty: Option<Byte>): (r: Result<Option<seq<DisposedHero>>>)
    ensures r.Ok? ==> (r.value.Some? <==> qty.Some?) && (r.value.Some? ==> |r.value.value| == qty.value)
    ensures r.Ok? ==> t == PutOptDisposed(r.value, r.rest)
  {
    if qty.Some? then
      var heroes :- Many(DecodeDisposedHero, t, qty.value);
      ManySound(DecodeDisposedHero, PutDisposedHero, t, qty.value);
      Ok(Some(heroes.value), heroes.rest)
    else Ok(None, t)
  }

  function DecodeHeroPools(t: Stream, v: U32): (r: Result<HeroPools>)
    ensures r.Ok? ==> WfHeroPools(r.value, v) && t == PutHeroPools(r.value, r.rest)
  {
    var allowed :- Bitset(t, HeroesMaskBytes(v));
    var qty :- OptU32(allowed.rest, NotRoe(v));
    var placeholded :- DecodePlaceholded(qty.rest, qty.value);
    var disposedQty :- OptU8(placeholded.rest, UpperSod(v));
    var disposed :- DecodeDisposed(disposedQty.rest, disposedQty.value);
    Ok(HeroPools(allowed.value, qty.value, placeholded.value, disposedQty.value, disposed.value), disposed.rest)
  }

  lemma DisposedHeroRoundTrip(d: DisposedHero, t: Stream)
    ensures DecodeDisposedHero(PutDisposedHero(d, t)) == Ok(d, t)
  {
    StrRoundTrip(d.heroName, Next(d.players, t));
  }

  lemma HeroPoolsRoundTrip(p: HeroPools, v: U32, t: Stream)
    requires WfHeroPools(p, v)
    ensures DecodeHeroPools(PutHeroPools(p, t), v) == Ok(p, t)
  {
    var t4 := PutOptDisposed(p.disposedHeroes, t);
    var t3 := PutOptU8(p.disposedQty, t4);
    var t2 := PutOptBytes(p.placeholdedHeroes, t3);
    var t1 := PutOptU32(p.placeholdersQty, t2);
    BitsetRoundTrip(p.allowedHeroes, t1);
    OptU32RoundTrip(NotRoe(v), p.placeholdersQty, t2);
    if p.placeholdedHeroes.Some? {
      BytesRoundTrip(p.placeholdedHeroes.value, t3);
    }
    OptU8RoundTrip(UpperSod(v), p.disposedQty, t4);
    if p.disposedHeroes.Some? {
      var ds := p.disposedHeroes.value;
      forall k, s | 0 <= k < |ds|
        ensures DecodeDisposedHero(PutDisposedHero(ds[k], s)) == Ok(ds[k], s)
      {
        DisposedHeroRoundTrip(ds[k], s);
      }
      ManyRoundTrip(DecodeDisposedHero, PutDisposedHero, ds, t);
    }
  }

  /** Reads the hero pools with the array loops: the mask, the
      placeholder bytes and the disposed entries. */
  method ReadHeroPools(t: Stream, v: U32) returns (r: Result<HeroPools>)
    ensures r == DecodeHeroPools(t, v)
  {
    var allowed := ReadBitset(t, HeroesMaskBytes(v));
    if allowed.Err? {
      return Err;
    }
    var qty := OptU32(allowed.rest, NotRoe(v));
    if qty.Err? {
      return Err;
    }
    var placeholded: Result<Option<seq<Byte>>> := Ok(None, qty.rest);
    if qty.value.Some? {
      var bytes := ReadBytes(qty.rest, qty.value.value);
      if bytes.Err? {
        return Err;
      }
      placeholded := Ok(Some(bytes.value), bytes.rest);
    }
    assert placeholded == DecodePlaceholded(qty.rest, qty.value);
    var disposedQty := OptU8(placeholded.rest, UpperSod(v));
    if disposedQty.Err? {
      return Err;
    }
    var disposed: Result<Option<seq<DisposedHero>>> := Ok(None, disposedQty.rest);
    if disposedQty.value.Some? {
      var heroes := ReadMany(DecodeDisposedHero, disposedQty.rest, disposedQty.value.value);
      if heroes.Err? {
        return Err;
      }
      disposed := Ok(Some(heroes.value), heroes.rest);
    }
    assert disposed == DecodeDisposed(disposedQty.rest, disposedQty.value);
    if disposed.Err? {
      return Err;
    }
    r := Ok(HeroPools(allowed.value, qty.value, placeholded.value, disposedQty.value, disposed.value), disposed.rest);
  }

  /** A disposed hero takes its id, portrait and players bytes and its
      length-prefixed name. */
  function DisposedHeroSize(d: DisposedHero): nat
  {
    7 + |d.heroName|
  }

  lemma DisposedHeroSizeOf(d: DisposedHero, t: Stream)
    ensures Size(PutDisposedHero(d, t)) == DisposedHeroSize(d) + Size(t)
  {
    PutStrSize(d.heroName, Next(d.players, t));
  }

  /** The bytes of the hero pools: the allowed-hero mask, then outside RoE
      the uint32 count and that many bytes, then from SoD on the byte count
      and the disposed entries. */
  function HeroPoolsSize(p: HeroPools, v: U32): nat
    requires WfHeroPools(p, v)
  {
    HeroesMaskBytes(v)
    + (if NotRoe(v) then 4 + p.placeholdersQty.value else 0)
    + (if UpperSod(v) then 1 + SumOf(DisposedHeroSize, p.disposedHeroes.value) else 0)
  }

  lemma HeroPoolsSizeOf(p: HeroPools, v: U32, t: Stream)
    requires WfHeroPools(p, v)
    ensures Size(PutHeroPools(p, t)) == HeroPoolsSize(p, v) + Size(t)
  {
    var t4 := PutOptDisposed(p.disposedHeroes, t);
    var t3 := PutOptU8(p.disposedQty, t4);
    var t2 := PutOptBytes(p.placeholdedHeroes, t3);
    var t1 := PutOptU32(p.placeholdersQty, t2);
    if p.disposedHeroes.Some? {
      forall d, s ensures Size(PutDisposedHero(d, s)) == DisposedHeroSize(d) + Size(s) {
        DisposedHeroSizeOf(d, s);
      }
      PutManySize(PutDisposedHero, DisposedHeroSize, p.disposedHeroes.value, t);
    }
    if p.placeholdedHeroes.Some? {
      FeedSize(p.placeholdedHeroes.value, t3);
    }
    PutOptU32Size(p.placeholdersQty, t2);
    PutBitsSize(p.allowedHeroes, t1);
  }

  // ---------------------------------------------------------------------
  // Allowances: padding, artifact, spell and ability masks, rumors and the
  // predefined hero settings
  // ---------------------------------------------------------------------

  datatype HeroSettingsInfo = HeroSettingsInfo(hasExp: Byte)

  /** One predefined hero: a `custom` byte and, when it is nonzero, the
      has_exp byte. */
  datatype HeroSettingsRecord = HeroSettingsRecord(custom: Byte, info: Option<HeroSettingsInfo>)

  predicate WfHeroSettings(h: HeroSettingsRecord)
  {
    h.info.Some? <==> IsCustom(h.custom)
  }

  function PutHeroSettings(h: HeroSettingsRecord, t: Stream): Stream
  {
    Next(h.custom, if h.info.Some? then Next(h.info.value.hasExp, t) else t)
  }

  function DecodeHeroSettings(t: Stream): (r: Result<HeroSettingsRecord>)
    ensures r.Ok? ==> WfHeroSettings(r.value) && t == PutHeroSettings(r.value, r.rest)
  {
    var custom :- U8(t);
    if IsCustom(custom.value) then
      var hasExp :- U8(custom.rest);
      Ok(HeroSettingsRecord(custom.value, Some(HeroSettingsInfo(hasExp.value))), hasExp.rest)
    else Ok(HeroSettingsRecord(custom.value, None), custom.rest)
  }

  lemma HeroSettingsRoundTrip(h: HeroSettingsRecord, t: Stream)
    requires WfHeroSettings(h)
    ensures DecodeHeroSettings(PutHeroSettings(h, t)) == Ok(h, t)
  {
  }

  /** A hero setting takes one byte, two when it is custom. */
  function HeroSettingsSize(h: HeroSettingsRecord): nat
  {
    if h.info.Some? then 2 else 1
  }

  datatype Allowances = Allowances(
    nullOffset1: seq<Byte>,
    allowedArts: Option<seq<bool>>,
    allowedSpells: Option<seq<bool>>,
    allowedAbilities: Option<seq<bool>>,
    rumorsQty: U32,
    predefinedHeroes: Option<seq<HeroSettingsRecord>>)

  /** 31 padding bytes; outside RoE the artifact mask of 17 * 8 flags for
      AB and 18 * 8 otherwise; from SoD on the spell and ability masks and
      exactly 156 hero settings. */
  predicate WfAllowances(a: Allowances, v: U32)
  {
    && |a.nullOffset1| == NULL_OFFSET_SIZE
    && (a.allowedArts.Some? <==> NotRoe(v))
    && (a.allowedArts.Some? ==> |a.allowedArts.value| == ArtsMaskSize(v))
    && (a.allowedSpells.Some? <==> UpperSod(v))
    && (a.allowedSpells.Some? ==> |a.allowedSpells.value| == SPELLS_MASK_SIZE)
    && (a.allowedAbilities.Some? <==> UpperSod(v))
    && (a.allowedAbilities.Some? ==> |a.allowedAbilities.value| == ABILITIES_MASK_SIZE)
    && WfSettings(a.predefinedHeroes, UpperSod(v))
  }

  /** Present exactly when `cond` holds, and then 156 well-formed settings. */
  predicate WfSettings(o: Option<seq<HeroSettingsRecord>>, cond: bool)
  {
    && (o.Some? <==> cond)
    && (o.Some? ==> |o.value| == PREDEFINED_HEROES)
    && (o.Some? ==> forall k :: 0 <= k < PREDEFINED_HEROES ==> WfHeroSettings(o.value[k]))
  }

  function PutOptSettings(o: Option<seq<HeroSettingsRecord>>, t: Stream): Stream
  {
    if o.Some? then PutMany(PutHeroSettings, o.value, t) else t
  }

  function PutAllowances(a: Allowances, t: Stream): Stream
  {
    Feed(a.nullOffset1,
    PutOptBits(a.allowedArts,
    PutOptBits(a.allowedSpells,
    PutOptBits(a.allowedAbilities,
    PutU32(a.rumorsQty,
    PutOptSettings(a.predefinedHeroes, t))))))
  }

  lemma PutAllowancesCat(a: Allowances, t: Stream, u: Stream)
    ensures Cat(PutAllowances(a, t), u) == PutAllowances(a, Cat(t, u))
  {
    if a.predefinedHeroes.Some? {
      forall x, s ensures Cat(PutHeroSettings(x, s), u) == PutHeroSettings(x, Cat(s, u)) {
      }
      PutManyCat(PutHeroSettings, a.predefinedHeroes.value, t, u);
    }
    var t5 := PutOptSettings(a.predefinedHeroes, t);
    PutU32Cat(a.rumorsQty, t5, u);
    var t4 := PutU32(a.rumorsQty, t5);
    PutOptBitsCat(a.allowedAbilities, t4, u);
    var t3 := PutOptBits(a.allowedAbilities, t4);
    PutOptBitsCat(a.allowedSpells, t3, u);
    var t2 := PutOptBits(a.allowedSpells, t3);
    PutOptBitsCat(a.allowedArts, t2, u);
    FeedCat(a.nullOffset1, PutOptBits(a.allowedArts, t2), u);
  }

  /** predefined_heroes, 156 settings read only when `cond` holds. */
  function DecodeSettings(t: Stream, cond: bool): (r: Result<Option<seq<HeroSettingsRecord>>>)
    ensures r.Ok? ==> WfSettings(r.value, cond) && t == PutOptSettings(r.value, r.rest)
  {
    if cond then
      var heroes :- Many(DecodeHeroSettings, t, PREDEFINED_HEROES);
      ManySound(DecodeHeroSettings, PutHeroSettings, t, PREDEFINED_HEROES);
      ManyAll(DecodeHeroSettings, WfHeroSettings, t, PREDEFINED_HEROES);
      Ok(Some(heroes.value), heroes.rest)
    else Ok(None, t)
  }

  function DecodeAllowances(t: Stream, v: U32): (r: Result<Allowances>)
    ensures r.Ok? ==> WfAllowances(r.value, v) && t == PutAllowances(r.value, r.rest)
  {
    var nullOffset :- Bytes(t, NULL_OFFSET_SIZE);
    var arts :- OptBitset(nullOffset.rest, NotRoe(v), ArtsMaskBytes(v));
    var spells :- OptBitset(arts.rest, UpperSod(v), 9);
    var abilities :- OptBitset(spells.rest, UpperSod(v), 4);
    var rumors :- U32LE(abilities.rest);
    var heroes :- DecodeSettings(rumors.rest, UpperSod(v));
    Ok(Allowances(nullOffset.value, arts.value, spells.value, abilities.value, rumors.value, heroes.value), heroes.rest)
  }

  /** Reads the allowances with the array loops: the padding, the masks
      and the hero settings. */
  method ReadAllowances(t: Stream, v: U32) returns (r: Result<Allowances>)
    ensures r == DecodeAllowances(t, v)
  {
    var nullOffset := ReadBytes(t, NULL_OFFSET_SIZE);
    if nullOffset.Err? {
      return Err;
    }
    var arts := OptBitset(nullOffset.rest, NotRoe(v), ArtsMaskBytes(v));
    if arts.Err? {
      return Err;
    }
    var spells := OptBitset(arts.rest, UpperSod(v), 9);
    if spells.Err? {
      return Err;
    }
    var abilities := OptBitset(spells.rest, UpperSod(v), 4);
    if abilities.Err? {
      return Err;
    }
    var rumors := U32LE(abilities.rest);
    if rumors.Err? {
      return Err;
    }
    var heroes: Result<Option<seq<HeroSettingsRecord>>> := Ok(None, rumors.rest);
    if UpperSod(v) {
      var settings := ReadMany(DecodeHeroSettings, rumors.rest, PREDEFINED_HEROES);
      if settings.Err? {
        return Err;
      }
      heroes := Ok(Some(settings.value), settings.rest);
    }
    assert heroes == DecodeSettings(rumors.rest, UpperSod(v));
    r := Ok(Allowances(nullOffset.value, arts.value, spells.value, abilities.value, rumors.value, heroes.value), heroes.rest);
  }

  lemma AllowancesRoundTrip(a: Allowances, v: U32, t: Stream)
    requires WfAllowances(a, v)
    ensures DecodeAllowances(PutAllowances(a, t), v) == Ok(a, t)
  {
    var t5 := PutOptSettings(a.predefinedHeroes, t);
    var t4 := PutU32(a.rumorsQty, t5);
    var t3 := PutOptBits(a.allowedAbilities, t4);
    var t2 := PutOptBits(a.allowedSpells, t3);
    var t1 := PutOptBits(a.allowedArts, t2);
    BytesRoundTrip(a.nullOffset1, t1);
    OptBitsetRoundTrip(NotRoe(v), a.allowedArts, ArtsMaskBytes(v), t2);
    OptBitsetRoundTrip(UpperSod(v), a.allowedSpells, 9, t3);
    OptBitsetRoundTrip(UpperSod(v), a.allowedAbilities, 4, t4);
    U32RoundTrip(a.rumorsQty, t5);
    if a.predefinedHeroes.Some? {
      var hs := a.predefinedHeroes.value;
      forall k, s | 0 <= k < |hs|
        ensures DecodeHeroSettings(PutHeroSettings(hs[k], s)) == Ok(hs[k], s)
      {
        HeroSettingsRoundTrip(hs[k], s);
      }
      ManyRoundTrip(DecodeHeroSettings, PutHeroSettings, hs, t);
    }
  }

  /** The bytes of the allowances: 31 padding bytes, outside RoE the
      artifact mask, from SoD on 9 + 4 mask bytes, the uint32 rumor count
      and, from SoD on, the 156 settings. */
  function AllowancesSize(a: Allowances, v: U32): nat
    requires WfAllowances(a, v)
  {
    NULL_OFFSET_SIZE
    + (if NotRoe(v) then ArtsMaskBytes(v) else 0)
    + (if UpperSod(v) then 9 + 4 else 0)
    + 4
    + (if UpperSod(v) then SumOf(HeroSettingsSize, a.predefinedHeroes.value) else 0)
  }

  lemma AllowancesSizeOf(a: Allowances, v: U32, t: Stream)
    requires WfAllowances(a, v)
    ensures Size(PutAllowances(a, t)) == AllowancesSize(a, v) + Size(t)
  {
    var t5 := PutOptSettings(a.predefinedHeroes, t);
    var t4 := PutU32(a.rumorsQty, t5);
    var t3 := PutOptBits(a.allowedAbilities, t4);
    var t2 := PutOptBits(a.allowedSpells, t3);
    var t1 := PutOptBits(a.allowedArts, t2);
    if a.predefinedHeroes.Some? {
      var hs := a.predefinedHeroes.value;
      forall h, s ensures Size(PutHeroSettings(h, s)) == HeroSettingsSize(h) + Size(s) {
        assert Size(Next(h.custom, s)) == 1 + Size(s);
      }
      PutManySize(PutHeroSettings, HeroSettingsSize, hs, t);
    }
    PutU32Size(a.rumorsQty, t5);
    PutOptBitsSize(a.allowedAbilities, t4);
    PutOptBitsSize(a.allowedSpells, t3);
    PutOptBitsSize(a.allowedArts, t2);
    FeedSize(a.nullOffset1, t1);
  }

  /** The 156 settings take between 156 and 312 bytes. */
  lemma {:induction false} SettingsBounds(hs: seq<HeroSettingsRecord>)
    ensures |hs| <= SumOf(HeroSettingsSize, hs) <= 2 * |hs|
  {
    if hs != [] {
      SettingsBounds(hs[1..]);
    }
  }
}
