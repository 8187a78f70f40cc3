/** The whole map record: the header, the eight player slots, the victory
    and loss conditions, the teams, the hero pools, the allowances and the
    terrain, read in that order from one stream. */
module MapRecords {
  import opened Cursor
  import opened Rules
  import opened PlayerRecords
  import opened Conditions
  import opened Sections
  import opened Tiles

  /** The fields before the players. */
  datatype Header = Header(
    heroesVersion: U32,
    areAnyPlayers: Byte,
    mapSize: U32,
    mapHasSubterranean: Byte,
    mapName: LString,
    mapDesc: LString,
    mapDifficulty: Byte,
    maxLevel: Option<Byte>)

  datatype MapRecord = MapRecord(
    header: Header,
    players: seq<PlayerRecord>,
    conditions: VictoryLossConditions,
    teams: Teams,
    heroPools: HeroPools,
    allowances: Allowances,
    terrain: Terrain)

  const PLAYER_SLOTS: nat := 8

  /** max_level is there unless the version is RoE. */
  predicate WfHeader(h: Header)
  {
    h.maxLevel.Some? <==> NotRoe(h.heroesVersion)
  }

  /** Every section is well formed for the version, the map size and the
      subterranean flag read in the header, and there are eight slots. */
  predicate WfMap(m: MapRecord)
  {
    var v := m.header.heroesVersion;
    && WfHeader(m.header)
    && |m.players| == PLAYER_SLOTS
    && (forall k :: 0 <= k < PLAYER_SLOTS ==> WfPlayer(m.players[k], v))
    && WfConditions(m.conditions, v)
    && WfTeams(m.teams)
    && WfHeroPools(m.heroPools, v)
    && WfAllowances(m.allowances, v)
    && WfTerrain(m.terrain, m.header.mapSize, m.header.mapHasSubterranean)
  }

  function PutHeader(h: Header, t: Stream): Stream
  {
    PutU32(h.heroesVersion,
    Next(h.areAnyPlayers,
    PutU32(h.mapSize,
    Next(h.mapHasSubterranean,
    PutStr(h.mapName,
    PutStr(h.mapDesc,
    Next(h.mapDifficulty,
    PutOptU8(h.maxLevel, t))))))))
  }

  function PutMap(m: MapRecord, t: Stream): Stream
  {
    PutHeader(m.header,
    PutMany(PutPlayer, m.players,
    PutConditions(m.conditions,
    PutTeams(m.teams,
    PutHeroPools(m.heroPools,
    PutAllowances(m.allowances,
    PutTerrain(m.terrain, t)))))))
  }

  lemma PutHeaderCat(h: Header, t: Stream, u: Stream)
    ensures Cat(PutHeader(h, t), u) == PutHeader(h, Cat(t, u))
  {
    var t7 := Next(h.mapDifficulty, PutOptU8(h.maxLevel, t));
    PutOptU8Cat(h.maxLevel, t, u);
    PutStrCat(h.mapDesc, t7, u);
    PutStrCat(h.mapName, PutStr(h.mapDesc, t7), u);
    var t3 := Next(h.mapHasSubterranean, PutStr(h.mapName, PutStr(h.mapDesc, t7)));
    PutU32Cat(h.mapSize, t3, u);
    PutU32Cat(h.heroesVersion, Next(h.areAnyPlayers, PutU32(h.mapSize, t3)), u);
  }

  /** A record's writing commutes with appending bytes after it. */
  lemma PutMapCat(m: MapRecord, t: Stream, u: Stream)
    ensures Cat(PutMap(m, t), u) == PutMap(m, Cat(t, u))
  {
    PutTerrainCat(m.terrain, t, u);
    var t6 := PutTerrain(m.terrain, t);
    PutAllowancesCat(m.allowances, t6, u);
    var t5 := PutAllowances(m.allowances, t6);
    PutHeroPoolsCat(m.heroPools, t5, u);
    var t4 := PutHeroPools(m.heroPools, t5);
    PutTeamsCat(m.teams, t4, u);
    var t3 := PutTeams(m.teams, t4);
    PutConditionsCat(m.conditions, t3, u);
    var t2 := PutConditions(m.conditions, t3);
    forall x, s ensures Cat(PutPlayer(x, s), u) == PutPlayer(x, Cat(s, u)) {
      PutPlayerCat(x, s, u);
    }
    PutManyCat(PutPlayer, m.players, t2, u);
    PutHeaderCat(m.header, PutMany(PutPlayer, m.players, t2), u);
  }

  function DecodeHeader(t: Stream): (r: Result<Header>)
    ensures r.Ok? ==> WfHeader(r.value) && t == PutHeader(r.value, r.rest)
  {
    var version :- U32LE(t);
    var anyPlayers :- U8(version.rest);
    var mapSize :- U32LE(anyPlayers.rest);
    var subterranean :- U8(mapSize.rest);
    var name :- Str(subterranean.rest);
    var desc :- Str(name.rest);
    var difficulty :- U8(desc.rest);
    var maxLevel :- OptU8(difficulty.rest, NotRoe(version.value));
    Ok(Header(version.value, anyPlayers.value, mapSize.value, subterranean.value,
              name.value, desc.value, difficulty.value, maxLevel.value), maxLevel.rest)
  }

  /** The eight slots, each read for the header's version. */
  function DecodePlayers(t: Stream, v: U32): (r: Result<seq<PlayerRecord>>)
    ensures r.Ok? ==> |r.value| == PLAYER_SLOTS
    ensures r.Ok? ==> forall k :: 0 <= k < PLAYER_SLOTS ==> WfPlayer(r.value[k], v)
    ensures r.Ok? ==> t == PutMany(PutPlayer, r.value, r.rest)
  {
    ManySound(PlayerReader(v), PutPlayer, t, PLAYER_SLOTS);
    ManyAll(PlayerReader(v), r => WfPlayer(r, v), t, PLAYER_SLOTS);
    Many(PlayerReader(v), t, PLAYER_SLOTS)
  }

  /** The sections after the header, every gate taken from the header. */
  function DecodeBody(t: Stream, h: Header): (r: Result<MapRecord>)
    ensures r.Ok? ==> r.value.header == h
    ensures r.Ok? && WfHeader(h) ==> WfMap(r.value)
    ensures r.Ok? ==> PutHeader(h, t) == PutMap(r.value, r.rest)
  {
    var v := h.heroesVersion;
    var players :- DecodePlayers(t, v);
    var conditions :- DecodeConditions(players.rest, v);
    var teams :- DecodeTeams(conditions.rest);
    var pools :- DecodeHeroPools(teams.rest, v);
    var allowances :- DecodeAllowances(pools.rest, v);
    var terrain :- DecodeTerrain(allowances.rest, h.mapSize, h.mapHasSubterranean);
    Ok(MapRecord(h, players.value, conditions.value, teams.value, pools.value, allowances.value, terrain.value),
       terrain.rest)
  }

  /** Reads a map record; bytes after the terrain are left unread. */
  function DecodeMap(t: Stream): (r: Result<MapRecord>)
    ensures r.Ok? ==> WfMap(r.value) && t == PutMap(r.value, r.rest)
  {
    var header :- DecodeHeader(t);
    DecodeBody(header.rest, header.value)
  }

  // ---------------------------------------------------------------------
  // Round trips
  // ---------------------------------------------------------------------

  lemma HeaderRoundTrip(h: Header, t: Stream)
    requires WfHeader(h)
    ensures DecodeHeader(PutHeader(h, t)) == Ok(h, t)
  {
    var t7 := PutOptU8(h.maxLevel, t);
    var t6 := Next(h.mapDifficulty, t7);
    var t5 := PutStr(h.mapDesc, t6);
    var t4 := PutStr(h.mapName, t5);
    var t2 := Next(h.areAnyPlayers, PutU32(h.mapSize, Next(h.mapHasSubterranean, t4)));
    U32RoundTrip(h.heroesVersion, t2);
    U32RoundTrip(h.mapSize, Next(h.mapHasSubterranean, t4));
    StrRoundTrip(h.mapName, t5);
    StrRoundTrip(h.mapDesc, t6);
    OptU8RoundTrip(NotRoe(h.heroesVersion), h.maxLevel, t);
  }

  lemma PlayersRoundTrip(ps: seq<PlayerRecord>, v: U32, t: Stream)
    requires |ps| == PLAYER_SLOTS
    requires forall k :: 0 <= k < PLAYER_SLOTS ==> WfPlayer(ps[k], v)
    ensures DecodePlayers(PutMany(PutPlayer, ps, t), v) == Ok(ps, t)
  {
    forall k, s | 0 <= k < |ps|
      ensures PlayerReader(v)(PutPlayer(ps[k], s)) == Ok(ps[k], s)
    {
      PlayerRoundTrip(ps[k], v, s);
    }
    ManyRoundTrip(PlayerReader(v), PutPlayer, ps, t);
  }

  lemma MapRoundTrip(m: MapRecord, t: Stream)
    requires WfMap(m)
    ensures DecodeMap(PutMap(m, t)) == Ok(m, t)
  {
    var h := m.header;
    var v := h.heroesVersion;
    var t6 := PutTerrain(m.terrain, t);
    var t5 := PutAllowances(m.allowances, t6);
    var t4 := PutHeroPools(m.heroPools, t5);
    var t3 := PutTeams(m.teams, t4);
    var t2 := PutConditions(m.conditions, t3);
    var t1 := PutMany(PutPlayer, m.players, t2);
    HeaderRoundTrip(h, t1);
    PlayersRoundTrip(m.players, v, t2);
    ConditionsRoundTrip(m.conditions, v, t3);
    TeamsRoundTrip(m.teams, t4);
    HeroPoolsRoundTrip(m.heroPools, v, t5);
    AllowancesRoundTrip(m.allowances, v, t6);
    TerrainRoundTrip(m.terrain, h.mapSize, h.mapHasSubterranean, t);
  }

  /** The bytes of a well-formed map, and nothing after them, decode to
      that map. */
  lemma SerializedRoundTrip(m: MapRecord)
    requires WfMap(m)
    ensures DecodeMap(Input(Flatten(PutMap(m, End)))) == Ok(m, End)
  {
    InputFlatten(PutMap(m, End));
    MapRoundTrip(m, End);
  }

  /** The decoder reads forward only: whatever follows the bytes of a map
      does not change the map read, and is left as the rest. */
  lemma TrailingBytesIgnored(t: Stream, u: Stream)
    ensures DecodeMap(t).Ok? ==> DecodeMap(PutMap(DecodeMap(t).value, u)) == Ok(DecodeMap(t).value, u)
  {
    if DecodeMap(t).Ok? {
      MapRoundTrip(DecodeMap(t).value, u);
    }
  }

  /** Appending bytes to a stream a record reads from changes only what is
      left after the record. */
  lemma AppendedBytesKeepRecord(t: Stream, u: Stream)
    ensures DecodeMap(t).Ok? ==>
      DecodeMap(Cat(t, u)) == Ok(DecodeMap(t).value, Cat(DecodeMap(t).rest, u))
  {
    if DecodeMap(t).Ok? {
      PutMapCat(DecodeMap(t).value, DecodeMap(t).rest, u);
      MapRoundTrip(DecodeMap(t).value, Cat(DecodeMap(t).rest, u));
    }
  }

  /** A record's bytes cut short anywhere do not read. */
  lemma TruncatedMapFails(m: MapRecord, k: nat)
    requires WfMap(m) && k < Size(PutMap(m, End))
    ensures DecodeMap(Input(Flatten(PutMap(m, End))[..k])).Err?
  {
    var bytes := Flatten(PutMap(m, End));
    var p, q := bytes[..k], bytes[k..];
    assert bytes == p + q;
    InputFlatten(PutMap(m, End));
    InputAppend(p, q);
    MapRoundTrip(m, End);
    FeedSize(q, End);
    AppendedBytesKeepRecord(Input(p), Input(q));
  }

  // ---------------------------------------------------------------------
  // Layout of the header
  // ---------------------------------------------------------------------

  /** The header takes four bytes of version, one of player flag, four of
      size, one of subterranean flag, the two length-prefixed strings, the
      difficulty and, unless the version is RoE, max_level. */
  function HeaderSize(h: Header): nat
  {
    4 + 1 + 4 + 1 + (4 + |h.mapName|) + (4 + |h.mapDesc|) + 1 + (if NotRoe(h.heroesVersion) then 1 else 0)
  }

  lemma HeaderSizeOf(h: Header, t: Stream)
    requires WfHeader(h)
    ensures Size(PutHeader(h, t)) == HeaderSize(h) + Size(t)
  {
    var t7 := PutOptU8(h.maxLevel, t);
    var t6 := Next(h.mapDifficulty, t7);
    var t5 := PutStr(h.mapDesc, t6);
    var t4 := PutStr(h.mapName, t5);
    var t3 := Next(h.mapHasSubterranean, t4);
    var t2 := PutU32(h.mapSize, t3);
    var t1 := Next(h.areAnyPlayers, t2);
    assert Size(t7) == (if NotRoe(h.heroesVersion) then 1 else 0) + Size(t);
    PutStrSize(h.mapDesc, t6);
    PutStrSize(h.mapName, t5);
    PutU32Size(h.mapSize, t3);
    PutU32Size(h.heroesVersion, t1);
  }

  /** The players start right after the header, at offset HeaderSize of the
      record. */
  lemma HeaderConsumed(t: Stream)
    ensures DecodeHeader(t).Ok? ==> Size(t) == HeaderSize(DecodeHeader(t).value) + Size(DecodeHeader(t).rest)
  {
    if DecodeHeader(t).Ok? {
      HeaderSizeOf(DecodeHeader(t).value, DecodeHeader(t).rest);
    }
  }

  // ---------------------------------------------------------------------
  // The reading loop
  // ---------------------------------------------------------------------

  /** Reads a map record section by section, every count-driven array
      except the per-player rosters through the array loops. */
  method ReadMap(t: Stream) returns (r: Result<MapRecord>)
    ensures r == DecodeMap(t)
  {
    var header := DecodeHeader(t);
    if header.Err? {
      return Err;
    }
    var h := header.value;
    var v := h.heroesVersion;
    var players := ReadMany(PlayerReader(v), header.rest, PLAYER_SLOTS);
    assert players == DecodePlayers(header.rest, v);
    if players.Err? {
      return Err;
    }
    var conditions := DecodeConditions(players.rest, v);
    if conditions.Err? {
      return Err;
    }
    var teams := DecodeTeams(conditions.rest);
    if teams.Err? {
      return Err;
    }
    var pools := ReadHeroPools(teams.rest, v);
    if pools.Err? {
      return Err;
    }
    var allowances := ReadAllowances(pools.rest, v);
    if allowances.Err? {
      return Err;
    }
    var terrain := ReadTerrain(allowances.rest, h.mapSize, h.mapHasSubterranean);
    if terrain.Err? {
      return Err;
    }
    r := Ok(MapRecord(h, players.value, conditions.value, teams.value, pools.value, allowances.value, terrain.value),
            terrain.rest);
  }
}
