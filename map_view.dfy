/** A map as the view layer shows it: the record decoded from the
    decompressed bytes, and symbols resolved from its codes. */
module MapView {
  import opened Cursor
  import opened Rules
  import opened PlayerRecords
  import opened Tiles
  import opened MapRecords
  import opened Outcomes
  import opened PlayerView

  datatype Version = RoE | AB | SoD
  datatype SizeClass = S | M | L | XL
  datatype Difficulty = Easy | Normal | Hard | Expert | Impossible

  /** The record read from a decompressed map file, or the MapError a
      failed read turns into; what follows the record is not looked at. */
  function Record(bytes: seq<Byte>): (r: Outcome<MapRecord>)
    ensures r.Raised? ==> r.failure == ReadFailed && IsMapError(r.failure)
  {
    match DecodeMap(Input(bytes))
    case Ok(m, _) => Value(m)
    case Err => Raised(ReadFailed)
  }

  /** A record that is read is well formed, and is the record written in
      front of the bytes left unread. */
  lemma RecordWellFormed(bytes: seq<Byte>)
    ensures Record(bytes).Value? ==>
      && WfMap(Record(bytes).value)
      && Input(bytes) == PutMap(Record(bytes).value, DecodeMap(Input(bytes)).rest)
  {
  }

  /** A well-formed record's bytes, on their own or followed by anything,
      are read back as that record. */
  lemma RecordOfBytes(m: MapRecord, trailing: seq<Byte>)
    requires WfMap(m)
    ensures Record(Flatten(PutMap(m, Input(trailing)))) == Value(m)
  {
    InputFlatten(PutMap(m, Input(trailing)));
    MapRoundTrip(m, Input(trailing));
  }

  /** A map: the outcome of reading its record, which every accessor
      consults first. */
  datatype Map = Map(record: Outcome<MapRecord>)

  function Open(bytes: seq<Byte>): (m: Map)
    ensures m.record == Record(bytes)
  {
    Map(Record(bytes))
  }

  /** The record of a map, when there is one, is well formed. */
  predicate Readable(m: Map)
  {
    m.record.Value? ==> WfMap(m.record.value)
  }

  /** Every map opened from bytes is readable in that sense. */
  lemma OpenReadable(bytes: seq<Byte>)
    ensures Readable(Open(bytes))
  {
    RecordWellFormed(bytes);
  }

  // ---------------------------------------------------------------------
  // Code tables
  // ---------------------------------------------------------------------

  function VersionOf(code: U32): (r: Outcome<Version>)
    ensures r.Raised? ==> r.failure == UnknownVersion(code) && IsMapError(r.failure)
  {
    match code
    case 0x0E => Value(RoE)
    case 0x15 => Value(AB)
    case 0x1C => Value(SoD)
    case _ => Raised(UnknownVersion(code))
  }

  function VersionCode(x: Version): U32
  {
    match x
    case RoE => 0x0E
    case AB => 0x15
    case SoD => 0x1C
  }

  /** The version table is one-to-one and accepts exactly the three codes. */
  lemma VersionTable(code: U32, x: Version)
    ensures VersionOf(code).Value? <==> code == 0x0E || code == 0x15 || code == 0x1C
    ensures VersionOf(code).Value? ==> VersionCode(VersionOf(code).value) == code
    ensures VersionOf(VersionCode(x)) == Value(x)
  {
  }

  /** For an accepted version the decoder's gates read as the symbol says:
      the player record's SoD test, the map record's SoD-or-later test and
      the not-RoE test. */
  lemma VersionGates(code: U32)
    requires VersionOf(code).Value?
    ensures IsSod(code) <==> VersionOf(code).value == SoD
    ensures UpperSod(code) <==> VersionOf(code).value == SoD
    ensures NotRoe(code) <==> VersionOf(code).value != RoE
  {
  }

  function SizeOf(code: U32): (r: Outcome<SizeClass>)
    ensures r.Raised? ==> r.failure == UnknownSize(code) && IsMapError(r.failure)
  {
    match code
    case 36 => Value(S)
    case 72 => Value(M)
    case 108 => Value(L)
    case 144 => Value(XL)
    case _ => Raised(UnknownSize(code))
  }

  /** The width of the map, in squares. */
  function SizeCode(x: SizeClass): U32
  {
    match x
    case S => 36
    case M => 72
    case L => 108
    case XL => 144
  }

  lemma SizeTable(code: U32, x: SizeClass)
    ensures SizeOf(code).Value? <==> code == 36 || code == 72 || code == 108 || code == 144
    ensures SizeOf(code).Value? ==> SizeCode(SizeOf(code).value) == code
    ensures SizeOf(SizeCode(x)) == Value(x)
  {
  }

  function DifficultyOf(code: Byte): (r: Outcome<Difficulty>)
    ensures r.Raised? ==> r.failure == UnknownDifficulty(code) && IsMapError(r.failure)
  {
    match code
    case 0 => Value(Easy)
    case 1 => Value(Normal)
    case 2 => Value(Hard)
    case 3 => Value(Expert)
    case 4 => Value(Impossible)
    case _ => Raised(UnknownDifficulty(code))
  }

  function DifficultyCode(x: Difficulty): Byte
  {
    match x
    case Easy => 0
    case Normal => 1
    case Hard => 2
    case Expert => 3
    case Impossible => 4
  }

  lemma DifficultyTable(code: Byte, x: Difficulty)
    ensures DifficultyOf(code).Value? <==> code <= 4
    ensures DifficultyOf(code).Value? ==> DifficultyCode(DifficultyOf(code).value) == code
    ensures DifficultyOf(DifficultyCode(x)) == Value(x)
  {
  }

  /** The subterranean flag: 0 and 1 only, read as flag != 0. */
  function SubterraneanOf(flag: Byte): (r: Outcome<bool>)
    ensures r.Raised? <==> flag > 1
    ensures r.Raised? ==> r.failure == UnknownSubterranean(flag) && IsMapError(r.failure)
    ensures r.Value? ==> (r.value <==> flag == 1)
  {
    if flag != 0 && flag != 1 then Raised(UnknownSubterranean(flag)) else Value(flag != 0)
  }

  // ---------------------------------------------------------------------
  // Accessors: each reads the record first, so a failed read surfaces
  // from every one of them
  // ---------------------------------------------------------------------

  /** `version`: the read failure, or the symbol whose code the header
      holds, or UnknownVersion carrying that code. */
  function MapVersion(m: Map): (r: Outcome<Version>)
    ensures m.record.Raised? ==> r == Raised(m.record.failure)
    ensures m.record.Value? && r.Raised? ==> r.failure == UnknownVersion(m.record.value.header.heroesVersion)
    ensures r.Value? ==> m.record.Value? && VersionCode(r.value) == m.record.value.header.heroesVersion
  {
    if m.record.Raised? then Raised(m.record.failure) else VersionOf(m.record.value.header.heroesVersion)
  }

  /** `size`: the read failure, or the class whose width the header
      holds, or UnknownSize carrying that width. */
  function MapSize(m: Map): (r: Outcome<SizeClass>)
    ensures m.record.Raised? ==> r == Raised(m.record.failure)
    ensures m.record.Value? && r.Raised? ==> r.failure == UnknownSize(m.record.value.header.mapSize)
    ensures r.Value? ==> m.record.Value? && SizeCode(r.value) == m.record.value.header.mapSize
  {
    if m.record.Raised? then Raised(m.record.failure) else SizeOf(m.record.value.header.mapSize)
  }

  /** `difficulty`: the read failure, or the level whose code the header
      holds, or UnknownDifficulty carrying that code. */
  function MapDifficulty(m: Map): (r: Outcome<Difficulty>)
    ensures m.record.Raised? ==> r == Raised(m.record.failure)
    ensures m.record.Value? && r.Raised? ==> r.failure == UnknownDifficulty(m.record.value.header.mapDifficulty)
    ensures r.Value? ==> m.record.Value? && DifficultyCode(r.value) == m.record.value.header.mapDifficulty
  {
    if m.record.Raised? then Raised(m.record.failure) else DifficultyOf(m.record.value.header.mapDifficulty)
  }

  /** `has_subterranean?`: the read failure, or whether the header's flag
      is 1, raising for a flag above 1. */
  function MapHasSubterranean(m: Map): (r: Outcome<bool>)
    ensures m.record.Raised? ==> r == Raised(m.record.failure)
    ensures m.record.Value? ==> (r.Raised? <==> m.record.value.header.mapHasSubterranean > 1)
    ensures r.Value? ==> m.record.Value? && (r.value <==> m.record.value.header.mapHasSubterranean == 1)
  {
    if m.record.Raised? then Raised(m.record.failure) else SubterraneanOf(m.record.value.header.mapHasSubterranean)
  }

  /** `max_level` as read; absent for RoE. */
  function MapMaxLevel(m: Map): (r: Outcome<Option<Byte>>)
    ensures m.record.Raised? ==> r == Raised(m.record.failure)
    ensures m.record.Value? ==> r.Value?
    ensures Readable(m) && r.Value? ==> (r.value.Some? <==> NotRoe(m.record.value.header.heroesVersion))
  {
    if m.record.Raised? then Raised(m.record.failure) else Value(m.record.value.header.maxLevel)
  }

  /** One player per slot, numbered by its place in the record. */
  function MapPlayers(m: Map): (r: Outcome<seq<Player>>)
    ensures r.Raised? <==> m.record.Raised?
    ensures r.Value? ==> |r.value| == |m.record.value.players|
    ensures r.Value? ==> forall i :: 0 <= i < |r.value| ==>
      && r.value[i].record == m.record.value.players[i]
      && r.value[i].number == i
      && r.value[i].color == (if i < |COLORS| then Some(COLORS[i]) else None)
  {
    if m.record.Raised? then Raised(m.record.failure)
    else
      var players := m.record.value.players;
      Value(seq(|players|, i requires 0 <= i < |players| => NewPlayer(players[i], i)))
  }

  /** Every accessor raises the read failure of an unreadable map, and
      otherwise resolves its own field of the record. */
  lemma AccessorsReadTheRecord(bytes: seq<Byte>)
    ensures Record(bytes).Raised? ==>
      && MapVersion(Open(bytes)) == Raised(ReadFailed) && MapSize(Open(bytes)) == Raised(ReadFailed)
      && MapDifficulty(Open(bytes)) == Raised(ReadFailed) && MapHasSubterranean(Open(bytes)) == Raised(ReadFailed)
      && MapMaxLevel(Open(bytes)) == Raised(ReadFailed) && MapPlayers(Open(bytes)) == Raised(ReadFailed)
    ensures Record(bytes).Value? ==>
      && MapVersion(Open(bytes)) == VersionOf(Record(bytes).value.header.heroesVersion)
      && MapSize(Open(bytes)) == SizeOf(Record(bytes).value.header.mapSize)
      && MapDifficulty(Open(bytes)) == DifficultyOf(Record(bytes).value.header.mapDifficulty)
      && MapHasSubterranean(Open(bytes)) == SubterraneanOf(Record(bytes).value.header.mapHasSubterranean)
      && MapMaxLevel(Open(bytes)) == Value(Record(bytes).value.header.maxLevel)
  {
  }

  /** max_level is there exactly when the version is not RoE. */
  lemma MaxLevelPresence(m: Map)
    requires Readable(m) && MapVersion(m).Value?
    ensures MapMaxLevel(m).Value?
    ensures MapMaxLevel(m).value.Some? <==> MapVersion(m).value != RoE
  {
  }

  /** Where the view accepts the subterranean flag, it says whether the
      decoder read an underground layer. */
  lemma SubterraneanAgreesWithTerrain(m: Map)
    requires Readable(m) && MapHasSubterranean(m).Value?
    ensures m.record.Value?
    ensures MapHasSubterranean(m).value <==> m.record.value.terrain.underground.Some?
  {
  }

  /** A map of a known size carries width * width tiles on each layer. */
  lemma TilesOfKnownSize(m: Map)
    requires Readable(m) && MapSize(m).Value?
    ensures m.record.Value?
    ensures |m.record.value.terrain.ground| == SizeCode(MapSize(m).value) * SizeCode(MapSize(m).value)
    ensures m.record.value.terrain.underground.Some? ==>
      |m.record.value.terrain.underground.value| == |m.record.value.terrain.ground|
  {
    SizeTable(m.record.value.header.mapSize, MapSize(m).value);
  }

  /** A readable map has eight players, with eight distinct colours. */
  lemma PlayersOfReadMap(m: Map)
    requires Readable(m) && m.record.Value?
    ensures MapPlayers(m).Value? && |MapPlayers(m).value| == PLAYER_SLOTS
    ensures forall i :: 0 <= i < PLAYER_SLOTS ==> MapPlayers(m).value[i].color == Some(COLORS[i])
    ensures forall i, j :: 0 <= i < j < PLAYER_SLOTS ==>
      MapPlayers(m).value[i].color != MapPlayers(m).value[j].color
  {
    ColorsDistinct();
  }
}
