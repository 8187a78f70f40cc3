/** The presence predicates and length helpers that gate the reads of the
    map records. Each keeps the literal comparison of the decoder, which is
    not uniform: the player record tests for SoD with `==`, the map record
    with `>=`. */
module Rules {
  import opened Cursor

  /** Format-version codes. */
  const ROE: U32 := 0x0E
  const AB: U32 := 0x15
  const SOD: U32 := 0x1C

  /** Player record: SoD exactly. */
  function IsSod(v: U32): (b: bool)
    ensures b ==> UpperSod(v) && NotRoe(v)
    ensures b <==> v == SOD
  {
    v == 0x1C
  }

  /** Player and map records: anything but RoE. */
  function NotRoe(v: U32): (b: bool)
    ensures !b <==> v == ROE
  {
    v != 0x0E
  }

  /** Map record: SoD or any later code. */
  function UpperSod(v: U32): (b: bool)
    ensures b ==> NotRoe(v)
    ensures b <==> SOD <= v
  {
    v >= 0x1C
  }

  /** Bytes skipped for a player nobody can play; unknown versions skip
      as many as SoD. */
  function SkipForVersion(v: U32): (n: nat)
    ensures n == 6 <==> v == ROE
    ensures n == 12 <==> v == AB
    ensures n == 13 <==> v != ROE && v != AB
  {
    match v
    case 0x1C => 13
    case 0x15 => 12
    case 0x0E => 6
    case _ => 13
  }

  /** Number of allowed-faction flags. */
  function LengthForType(v: U32): (n: nat)
    ensures n % 8 == 0
    ensures n == 16 <==> IsSod(v)
    ensures n == 8 <==> !IsSod(v)
  {
    if v == 0x1C then 16 else 8
  }

  /** The bytes holding the allowed-faction flags, eight flags a byte. */
  function FactionBytes(v: U32): (n: nat)
    ensures 8 * n == LengthForType(v)
  {
    if v == 0x1C then 2 else 1
  }

  /** Number of allowed-hero flags. */
  function HeroesMaskSize(v: U32): (n: nat)
    ensures n % 8 == 0
    ensures n == 160 <==> NotRoe(v)
    ensures n == 128 <==> !NotRoe(v)
  {
    (if NotRoe(v) then 20 else 16) * 8
  }

  function HeroesMaskBytes(v: U32): (n: nat)
    ensures 8 * n == HeroesMaskSize(v)
  {
    if NotRoe(v) then 20 else 16
  }

  /** Number of allowed-artifact flags. */
  function ArtsMaskSize(v: U32): (n: nat)
    ensures n % 8 == 0
    ensures n == 136 <==> v == AB
    ensures n == 144 <==> v != AB
  {
    (if v == 0x15 then 17 else 18) * 8
  }

  function ArtsMaskBytes(v: U32): (n: nat)
    ensures 8 * n == ArtsMaskSize(v)
  {
    if v == 0x15 then 17 else 18
  }

  const SPELLS_MASK_SIZE: nat := 9 * 8
  const ABILITIES_MASK_SIZE: nat := 4 * 8
  const PREDEFINED_HEROES: nat := 156
  const NULL_OFFSET_SIZE: nat := 31

  /** Tiles on one layer of a square map of the given width. */
  function TilesCount(mapSize: U32): (n: nat)
    ensures n == 0 <==> mapSize == 0
    ensures mapSize <= n
  {
    var w: nat := mapSize;
    assert w * w == w + w * (w - 1) by { if w > 0 { assert w * w == w * ((w - 1) + 1); } }
    w * w
  }

  /** The underground layer is present only for the flag value 1. */
  function HasSubterranean(flag: Byte): (b: bool)
    ensures b ==> flag != 0
    ensures flag > 1 ==> !b
  {
    flag == 1
  }

  /** The decoder's notion of a playable slot: either flag nonzero. */
  function CanPlay(canBeHuman: Byte, canBeComputer: Byte): (b: bool)
    ensures !b <==> canBeHuman == 0 && canBeComputer == 0
  {
    canBeHuman > 0 || canBeComputer > 0
  }

  /** The main town's coordinates follow exactly when the flag is nonzero. */
  function HasMainTown(hasMainTown: Byte): (b: bool)
    ensures !b <==> hasMainTown == 0
  {
    hasMainTown != 0
  }

  /** The flags after a main town's coordinates exist only after RoE. */
  function NotRoeAndHasMainTown(v: U32, hasMainTown: Byte): (b: bool)
    ensures b ==> HasMainTown(hasMainTown)
    ensures !b <==> v == ROE || hasMainTown == 0
  {
    HasMainTown(hasMainTown) && NotRoe(v)
  }

  /** 0xFF marks a player without a custom main hero. */
  function HasCustomHero(mainCustomHeroId: Byte): (b: bool)
    ensures !b <==> mainCustomHeroId == 0xFF
  {
    mainCustomHeroId != 0xFF
  }

  /** A hero setting carries its experience flag only when customised. */
  function IsCustom(custom: Byte): (b: bool)
    ensures !b <==> custom == 0
  {
    custom != 0x00
  }

  /** 0xFF is the default victory (defeat everyone), with nothing after it. */
  function NotDefaultVicCond(vicCondition: Byte): (b: bool)
    ensures !b <==> vicCondition == 0xFF
  {
    vicCondition != 0xFF
  }

  /** 0xFF is the default loss (lose everything), with nothing after it. */
  function NotDefaultLossCond(lossCondition: Byte): (b: bool)
    ensures !b <==> lossCondition == 0xFF
  {
    lossCondition != 0xFF
  }

  /** The victory codes with a decoded payload are distinct and none of
      them is the default. */
  function VictoryWithArt(vicCondition: Byte): (b: bool)
    ensures b ==> NotDefaultVicCond(vicCondition)
  {
    vicCondition == 0x00
  }

  function VictoryWithAccumCreatures(vicCondition: Byte): (b: bool)
    ensures b ==> NotDefaultVicCond(vicCondition) && !VictoryWithArt(vicCondition)
  {
    vicCondition == 0x01
  }

  function VictoryWithAccumResources(vicCondition: Byte): (b: bool)
    ensures b ==> NotDefaultVicCond(vicCondition)
    ensures b ==> !VictoryWithArt(vicCondition) && !VictoryWithAccumCreatures(vicCondition)
  {
    vicCondition == 0x02
  }

  /** Likewise the loss codes with a payload. */
  function LossWithLoseTown(lossCondition: Byte): (b: bool)
    ensures b ==> NotDefaultLossCond(lossCondition)
  {
    lossCondition == 0x00
  }

  function LossWithLoseHero(lossCondition: Byte): (b: bool)
    ensures b ==> NotDefaultLossCond(lossCondition) && !LossWithLoseTown(lossCondition)
  {
    lossCondition == 0x01
  }

  function LossWithTimeExpired(lossCondition: Byte): (b: bool)
    ensures b ==> NotDefaultLossCond(lossCondition)
    ensures b ==> !LossWithLoseTown(lossCondition) && !LossWithLoseHero(lossCondition)
  {
    lossCondition == 0x02
  }

  /** The team bytes follow exactly when the team count is nonzero. */
  function HasTeams(teamsCount: Byte): (b: bool)
    ensures !b <==> teamsCount == 0
  {
    teamsCount > 0
  }

  /** The three known versions take the sections and sizes of their
      edition under every gate. */
  lemma KnownVersionGates()
    ensures IsSod(SOD) && UpperSod(SOD) && NotRoe(SOD)
    ensures !IsSod(AB) && !UpperSod(AB) && NotRoe(AB)
    ensures !IsSod(ROE) && !UpperSod(ROE) && !NotRoe(ROE)
    ensures SkipForVersion(SOD) == 13 && SkipForVersion(AB) == 12 && SkipForVersion(ROE) == 6
    ensures LengthForType(SOD) == 16 && LengthForType(AB) == 8 && LengthForType(ROE) == 8
    ensures HeroesMaskSize(ROE) == 128 && HeroesMaskSize(AB) == 160 && HeroesMaskSize(SOD) == 160
    ensures ArtsMaskSize(AB) == 136 && ArtsMaskSize(SOD) == 144
  {
  }

  /** The gates are not uniform on other codes: a code above SoD passes the
      map record's SoD-or-later test but fails the player record's SoD test,
      so such a map reads the SoD-only map sections and an eight-flag,
      p7-less player info; and every unknown code skips 13 bytes for an
      absent player. */
  lemma UnknownVersionGates(v: U32)
    requires v != ROE && v != AB && v != SOD
    ensures !IsSod(v) && NotRoe(v)
    ensures UpperSod(v) <==> v > SOD
    ensures SkipForVersion(v) == 13 && LengthForType(v) == 8
    ensures HeroesMaskSize(v) == 160 && ArtsMaskSize(v) == 144
  {
  }
}
