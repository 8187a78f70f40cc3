# h3m map record decoder

A model of the decoder and viewer for Heroes of Might and Magic III map files (`.h3m`).

The decoder is declared with BinData. It is a single forward pass over the decompressed file that reads these parts in a fixed order:

- the header;
- eight player slots;
- the victory and loss conditions;
- the teams;
- the hero pools;
- the allowance masks;
- the rumor count;
- the predefined hero settings;
- one or two layers of terrain tiles.

Each field is a little-endian integer, a length-prefixed string or an array. Each is read or skipped by a predicate over fields read earlier:

- the format version;
- the player flags;
- the condition codes;
- the team count;
- the map size;
- the subterranean flag.

The view layer (`Map`, `Player`) turns the decoded codes into symbols and raises an error on codes it does not know.

## How the model is built

- **The cursor (`cursor.dfy`).**
  - The unread input is a `Stream` of bytes. A read takes a stream and returns `Ok(value, rest)`, or `Err` when too few bytes are left.
  - The cursor position is the input length minus `Size(rest)`.
  - Each read `X` has a writer `PutX(x, t)`, the stream that yields the bytes of `x` and then continues as `t`. Two lemmas connect them:
    - every read accepts exactly what its writer writes (`Ok ==> t == PutX(value, rest)`);
    - every well-formed value is read back from its writing (`DecodeX(PutX(x, t)) == Ok(x, t)`).
  - BinData's `array` with `initial_length` is the generic `Many`. The method `ReadMany` computes it with a loop, proved equal to `Many`.
- **Gates (`rules.dfy`).** Each `onlyif` and length helper of the records is a function or predicate. Each keeps its literal comparison:
  - `== 0x1C` in the player record;
  - `>= 0x1C` in the map record;
  - `!= 0x0E` for "not RoE";
  - `== 0x15` for the artifact mask.
- **Well-formedness.** For each record there is a predicate `Wf…`. It states every gate as "this optional field is present exactly when its gate holds", and every count as the length of what it counts. Every decoder proves that what it returns is well formed.
- **Records.** There is one module per group of the map record:
  - `player_record.dfy`: the player slot;
  - `conditions.dfy`: victory and loss;
  - `sections.dfy`: teams, hero pools and allowances;
  - `tiles.dfy`: the terrain;
  - `map_record.dfy`: the header and the whole record, with `ReadMap`.
- **Sizes and layout.** Layout and size lemmas give the bytes each section takes (`…Size`, `…SizeOf`, `…Consumed`). `…Needs` lemmas state that a section is read exactly when the stream holds the bytes it calls for.
- **The view layer.**
  - `outcomes.dfy` models the exceptions as a `Failure` value.
  - `player_view.dfy` and `map_view.dfy` model `player.rb` and `map.rb`.
  - `legacy_map.dfy` models the second `Map` class in `lib/h3m.rb`, and proves that its tables agree with `map.rb`.
  - A `Map` holds the outcome of reading its record, and every accessor consults it first. After a successful read this is what the `@record ||=` memoization gives. After a failed read `||=` stores nothing, so each later accessor reads again from wherever the stream stopped. The one failure modelled is running out of input, which leaves the stream at its end, so every re-read raises the same MapError; holding the failure once gives the same results.
- **Names.** The source calls the eight team bytes `heroes_data` (lib/h3m/records.rb:247), the same name as the player roster. The model calls them `Teams.teams`.

## Model

| member | source | states |
|---|---|---|
| Cursor.U8 | lib/h3m/records.rb:16-17 | a uint8 read succeeds exactly when a byte is left, and yields that byte |
| Cursor.U8RoundTrip | lib/h3m/records.rb:16-17 | a byte in front of a stream is read back as that byte |
| Cursor.U16LE | lib/h3m/records.rb:239 | a uint16 read succeeds exactly when two bytes are left, and the two bytes are the little-endian writing of the value |
| Cursor.U16RoundTrip | lib/h3m/records.rb:239 | a uint16 is read back from its little-endian bytes |
| Cursor.U32LE | lib/h3m/records.rb:143 | a uint32 read succeeds exactly when four bytes are left, and they are the little-endian writing of the value |
| Cursor.U32RoundTrip | lib/h3m/records.rb:143 | a uint32 is read back from its little-endian bytes |
| Cursor.PutU16Size | lib/h3m/records.rb:239 | a uint16 takes two bytes |
| Cursor.PutU32Size | lib/h3m/records.rb:143 | a uint32 takes four bytes |
| Cursor.Str | lib/h3m/records.rb:151-152 | a size-prefixed string read yields a body whose length is the uint32 in front of it |
| Cursor.StrNeeds | lib/h3m/records.rb:151-152 | the string read fails exactly when the size prefix, or the body it announces, is not all there |
| Cursor.StrRoundTrip | lib/h3m/records.rb:151-152 | a string is read back from its size and body |
| Cursor.PutStrSize | lib/h3m/records.rb:151-152 | a string takes 4 + its length bytes |
| Cursor.Bytes | lib/h3m/records.rb:19 | an array of n uint8 succeeds exactly when n bytes are left, and yields exactly those n bytes |
| Cursor.BytesRoundTrip | lib/h3m/records.rb:19 | n bytes are read back as themselves |
| Cursor.ReadBytes | lib/h3m/records.rb:19 | the loop reading uint8s one by one returns what `Bytes` specifies |
| Cursor.FeedSize | lib/h3m/records.rb:19 | n bytes in front of a stream add n to its size |
| Cursor.Many | lib/h3m/records.rb:70 | an array with a count yields exactly that many elements |
| Cursor.ManySound | lib/h3m/records.rb:70 | an array read with a sound element reader accepts exactly the writing of the elements it returns |
| Cursor.ManyAll | lib/h3m/records.rb:70 | a property that every element read establishes holds of each element of the array |
| Cursor.ManyRoundTrip | lib/h3m/records.rb:70 | elements that each round-trip are read back as an array |
| Cursor.PutManySize | lib/h3m/records.rb:70 | an array takes the sum of its elements' sizes |
| Cursor.ManyFixed | lib/h3m/records.rb:299 | with a reader of exactly k bytes, n elements are read exactly when k·n bytes are left, and then take exactly k·n bytes |
| Cursor.ReadMany | lib/h3m/records.rb:70 | the loop over an array position returns what `Many` specifies |
| Cursor.Bitset | lib/h3m/records.rb:45 | an array of 8n bit1 succeeds exactly when n bytes are left, and yields 8n flags written by those bytes |
| Cursor.BitsetRoundTrip | lib/h3m/records.rb:45 | 8n flags are read back from their n bytes |
| Cursor.PutBitsSize | lib/h3m/records.rb:45 | 8n flags take n bytes |
| Cursor.ReadBitset | lib/h3m/records.rb:45 | the loop reading the bytes of a flag array returns what `Bitset` specifies |
| Cursor.OptBitset | lib/h3m/records.rb:282 | a flag array under a gate has its flags exactly when the gate holds, and fails exactly when the gate holds and fewer bytes than the flags need are left |
| Cursor.OptBitsetRoundTrip | lib/h3m/records.rb:282 | a gated flag array is read back |
| Cursor.PutOptBitsSize | lib/h3m/records.rb:282 | a gated flag array takes no bytes when absent |
| Cursor.OptU8 | lib/h3m/records.rb:42 | a gated uint8 is read exactly when its gate holds, it fails only then and only when no byte is left, and it reads nothing otherwise |
| Cursor.OptU8RoundTrip | lib/h3m/records.rb:42 | a gated uint8 is read back |
| Cursor.OptU32 | lib/h3m/records.rb:265 | a gated uint32 is read exactly when its gate holds, and fails exactly when the gate holds and fewer than four bytes are left |
| Cursor.OptU32RoundTrip | lib/h3m/records.rb:265 | a gated uint32 is read back |
| Cursor.PutOptU32Size | lib/h3m/records.rb:265 | a gated uint32 takes four bytes or none |
| Rules.IsSod | lib/h3m/records.rb:99-101 | the player record's SoD test holds exactly for 0x1C, and implies the map record's SoD-or-later and not-RoE tests |
| Rules.NotRoe | lib/h3m/records.rb:104-106 | the not-RoE test fails exactly for 0x0E |
| Rules.UpperSod | lib/h3m/records.rb:316-318 | the map record's SoD-or-later test holds exactly from 0x1C up, and implies the not-RoE test |
| Rules.SkipForVersion | lib/h3m/records.rb:21-28 | an absent player pads 6 bytes exactly for RoE, 12 exactly for AB, and 13 for every other code |
| Rules.CanPlay | lib/h3m/records.rb:30-36 | a slot is absent exactly when both of its flags are zero |
| Rules.LengthForType | lib/h3m/records.rb:79-85 | 16 faction flags exactly for SoD, 8 otherwise, a whole number of bytes either way |
| Rules.HasCustomHero | lib/h3m/records.rb:87-89 | a custom main hero follows unless its id is 0xFF |
| Rules.HasMainTown | lib/h3m/records.rb:91-93 | the main town's coordinates follow exactly when the flag is nonzero |
| Rules.NotRoeAndHasMainTown | lib/h3m/records.rb:95-97 | the two hero-generation flags are absent exactly for RoE or when there is no main town |
| Rules.IsCustom | lib/h3m/records.rb:121-123 | a hero setting carries `has_exp` unless its `custom` byte is zero |
| Rules.HeroesMaskSize | lib/h3m/records.rb:260-262 | 160 allowed-hero flags exactly when not RoE, 128 for RoE, a whole number of bytes |
| Rules.ArtsMaskSize | lib/h3m/records.rb:287-289 | 136 allowed-artifact flags exactly for AB, 144 otherwise, a whole number of bytes |
| Rules.TilesCount | lib/h3m/records.rb:302-304 | a layer holds the width squared: no tiles exactly for width 0, and never fewer tiles than the width |
| Rules.HasSubterranean | lib/h3m/records.rb:306-308 | only a flag of 1 brings an underground layer; zero and values above 1 do not |
| Rules.NotDefaultVicCond | lib/h3m/records.rb:323-325 | the victory payload is absent exactly for code 0xFF |
| Rules.NotDefaultLossCond | lib/h3m/records.rb:327-329 | the loss payload is absent exactly for code 0xFF |
| Rules.VictoryWithArt | lib/h3m/records.rb:331-333 | the artifact victory is not the default one |
| Rules.VictoryWithAccumCreatures | lib/h3m/records.rb:335-337 | the creature victory is not the default one and excludes the artifact victory |
| Rules.VictoryWithAccumResources | lib/h3m/records.rb:339-341 | the resource victory is not the default one and excludes the other two |
| Rules.LossWithLoseTown | lib/h3m/records.rb:346-348 | the town loss is not the default one |
| Rules.LossWithLoseHero | lib/h3m/records.rb:350-352 | the hero loss is not the default one and excludes the town loss |
| Rules.LossWithTimeExpired | lib/h3m/records.rb:354-356 | the time loss is not the default one and excludes the other two |
| Rules.HasTeams | lib/h3m/records.rb:361-363 | the team bytes follow exactly when the team count is nonzero |
| Rules.FactionBytes | lib/h3m/records.rb:79-85 | the faction flags fill one byte, or two for SoD |
| Rules.HeroesMaskBytes | lib/h3m/records.rb:260-262 | the allowed-hero flags fill 20 bytes, or 16 for RoE |
| Rules.ArtsMaskBytes | lib/h3m/records.rb:287-289 | the allowed-artifact flags fill 17 bytes for AB and 18 otherwise |
| Rules.KnownVersionGates | lib/h3m/records.rb:21-28 | for RoE, AB and SoD: the value of each version gate, the padding (6, 12, 13), the faction flag count and the mask sizes |
| Rules.UnknownVersionGates | lib/h3m/records.rb:312-318 | any unknown code fails the player record's SoD test, passes the not-RoE test, passes the map record's SoD-or-later test exactly when it is above 0x1C, and pads 13 bytes |
| PlayerRecords.DecodeCoord | lib/h3m/records.rb:53-55 | three coordinate bytes are read exactly when three bytes are left |
| PlayerRecords.DecodeOptCoord | lib/h3m/records.rb:53-55 | the coordinates are there exactly when their gate holds |
| PlayerRecords.CoordRoundTrip | lib/h3m/records.rb:53-55 | coordinates are read back |
| PlayerRecords.OptCoordRoundTrip | lib/h3m/records.rb:53-55 | gated coordinates are read back |
| PlayerRecords.PutOptCoordSize | lib/h3m/records.rb:53-55 | coordinates take three bytes when present |
| PlayerRecords.DecodeHeroEntry | lib/h3m/records.rb:70-75 | a roster entry is an id byte and a size-prefixed name |
| PlayerRecords.HeroEntryRoundTrip | lib/h3m/records.rb:70-75 | a roster entry is read back |
| PlayerRecords.DecodeHeroesData | lib/h3m/records.rb:64-76 | the roster block has three filler bytes and exactly `hero_count` entries |
| PlayerRecords.HeroesDataRoundTrip | lib/h3m/records.rb:64-76 | a well-formed roster is read back |
| PlayerRecords.HeroesDataSize | lib/h3m/records.rb:64-76 | the roster block takes 5 bytes plus its entries |
| PlayerRecords.DecodeOptHeroesData | lib/h3m/records.rb:64 | the roster block is there exactly when the version is not RoE |
| PlayerRecords.OptHeroesDataRoundTrip | lib/h3m/records.rb:64 | a gated roster is read back |
| PlayerRecords.DecodeOptCustomHero | lib/h3m/records.rb:59-62 | portrait and name are there exactly when `main_custom_hero_id` is not 0xFF |
| PlayerRecords.CustomHeroRoundTrip | lib/h3m/records.rb:59-62 | the custom hero is read back |
| PlayerRecords.DecodeInfo | lib/h3m/records.rb:38-106 | the info block is read field by field in source order, every gate holding as in `WfInfo` |
| PlayerRecords.InfoRoundTrip | lib/h3m/records.rb:38-106 | a well-formed info block is read back |
| PlayerRecords.InfoSizeOf | lib/h3m/records.rb:38-106 | the info block takes exactly the bytes of `InfoSize`, field by field |
| PlayerRecords.DecodePlayer | lib/h3m/records.rb:13-36 | a slot has its info exactly when a flag is nonzero, and the version's padding exactly when both are zero |
| PlayerRecords.PlayerRoundTrip | lib/h3m/records.rb:13-36 | a well-formed slot is read back |
| PlayerRecords.PlayerSizeOf | lib/h3m/records.rb:13-36 | a slot takes two flag bytes and then its info block or its padding |
| PlayerRecords.PlayerConsumed | lib/h3m/records.rb:13-36 | a slot read from a stream takes exactly its size |
| PlayerRecords.AbsentPlayerLayout | lib/h3m/records.rb:19-32 | a slot with both flags zero has no info and takes 2 + 13/12/6/13 bytes for SoD/AB/RoE/other codes |
| PlayerRecords.PresentPlayerLayout | lib/h3m/records.rb:34-38 | a slot with a nonzero flag has its info block right after the flags and no padding |
| Conditions.DecodeArtConds | lib/h3m/records.rb:184-189 | the artifact condition has an extra byte exactly when the version is not RoE |
| Conditions.DecodeAccumCreaturesConds | lib/h3m/records.rb:193-200 | the creature condition has an extra byte exactly when not RoE, then the uint32 count |
| Conditions.DecodeAccumResourcesConds | lib/h3m/records.rb:204-208 | the resource condition is an object type and a uint32 |
| Conditions.DecodeSpecialConds | lib/h3m/records.rb:178-210 | the two flag bytes then only the group the code selects: codes 0, 1, 2 |
| Conditions.DecodeVictory | lib/h3m/records.rb:164-178 | special conditions are there exactly when the code is not 0xFF |
| Conditions.VictoryRoundTrip | lib/h3m/records.rb:164-210 | a well-formed victory condition is read back |
| Conditions.VictorySize | lib/h3m/records.rb:164-210 | a victory condition takes 1 + `VictoryPayloadSize` bytes |
| Conditions.VictoryConsumed | lib/h3m/records.rb:164-210 | a victory condition read from a stream takes exactly its code byte and its payload |
| Conditions.VictoryNeeds | lib/h3m/records.rb:164-210 | the victory condition is read exactly when the code byte and the payload it calls for are there |
| Conditions.SpecialCondsSize | lib/h3m/records.rb:178-210 | the special conditions take two bytes plus their groups |
| Conditions.DecodeOptU16 | lib/h3m/records.rb:238-240 | `days_limit` is there exactly when its gate holds |
| Conditions.DecodeSpecialLossConds | lib/h3m/records.rb:218-242 | town and hero coordinates for codes 0 and 1, the day limit for code 2, nothing else |
| Conditions.DecodeLoss | lib/h3m/records.rb:212-218 | special loss conditions are there exactly when the code is not 0xFF |
| Conditions.LossRoundTrip | lib/h3m/records.rb:212-242 | a well-formed loss condition is read back |
| Conditions.LossSize | lib/h3m/records.rb:212-242 | a loss condition takes 1 + 3/3/2/0 bytes |
| Conditions.LossConsumed | lib/h3m/records.rb:212-242 | a loss condition read from a stream takes exactly its code byte and its payload |
| Conditions.LossNeeds | lib/h3m/records.rb:212-242 | the loss condition is read exactly when the code byte and its payload are there |
| Conditions.DecodeConditions | lib/h3m/records.rb:163-243 | victory then loss, both well formed |
| Conditions.ConditionsRoundTrip | lib/h3m/records.rb:163-243 | both conditions are read back |
| Sections.DecodeTeams | lib/h3m/records.rb:245-256 | the eight team bytes are there exactly when `teams_count` is nonzero |
| Sections.TeamsRoundTrip | lib/h3m/records.rb:245-256 | the teams are read back |
| Sections.TeamsSize | lib/h3m/records.rb:245-256 | the teams take one byte, plus eight for any nonzero count |
| Sections.TeamsNeeds | lib/h3m/records.rb:361-363 | the teams are read exactly when the count byte and the eight bytes a nonzero count calls for are there |
| Sections.DecodeDisposedHero | lib/h3m/records.rb:270-278 | a disposed hero is id, portrait, size-prefixed name and players byte |
| Sections.DisposedHeroRoundTrip | lib/h3m/records.rb:270-278 | a disposed hero is read back |
| Sections.DisposedHeroSizeOf | lib/h3m/records.rb:270-278 | a disposed hero takes 7 + its name length bytes |
| Sections.DecodePlaceholded | lib/h3m/records.rb:266 | exactly `placeholders_qty` bytes, when there is a count |
| Sections.DecodeDisposed | lib/h3m/records.rb:270 | exactly `disposed_qty` entries, when there is a count |
| Sections.DecodeHeroPools | lib/h3m/records.rb:258-278 | a mask of 160 flags (128 for RoE), the placeholders unless RoE and the disposed heroes from SoD on |
| Sections.HeroPoolsRoundTrip | lib/h3m/records.rb:258-278 | well-formed hero pools are read back |
| Sections.HeroPoolsSizeOf | lib/h3m/records.rb:258-278 | the hero pools take the mask bytes, 4 + the count outside RoE and 1 + the entries from SoD on |
| Sections.ReadHeroPools | lib/h3m/records.rb:258-278 | the loop-based reader returns what `DecodeHeroPools` specifies |
| Sections.DecodeHeroSettings | lib/h3m/records.rb:110-123 | `has_exp` is there exactly when `custom` is nonzero |
| Sections.HeroSettingsRoundTrip | lib/h3m/records.rb:110-123 | a hero setting is read back |
| Sections.DecodeSettings | lib/h3m/records.rb:294-297 | exactly 156 well-formed settings, only when the gate holds |
| Sections.SettingsBounds | lib/h3m/records.rb:110-123 | settings take between one and two bytes each |
| Sections.DecodeAllowances | lib/h3m/records.rb:280-297 | 31 bytes, the artifact mask unless RoE, the spell and ability masks from SoD on, the rumor count and the settings from SoD on |
| Sections.AllowancesRoundTrip | lib/h3m/records.rb:280-297 | well-formed allowances are read back |
| Sections.AllowancesSizeOf | lib/h3m/records.rb:280-297 | the allowances take 31 + the artifact mask + 13 from SoD on + 4 + the settings |
| Sections.ReadAllowances | lib/h3m/records.rb:280-297 | the loop-based reader returns what `DecodeAllowances` specifies |
| Tiles.DecodeTile | lib/h3m/records.rb:127-138 | a tile is seven bytes in source order |
| Tiles.TileRoundTrip | lib/h3m/records.rb:127-138 | a tile is read back |
| Tiles.TileSize | lib/h3m/records.rb:127-138 | a tile takes seven bytes |
| Tiles.TileNeeds | lib/h3m/records.rb:127-138 | a tile is read exactly when seven bytes are left, and takes them |
| Tiles.DecodeTerrain | lib/h3m/records.rb:299-308 | `map_size`² ground tiles, and as many underground tiles exactly when the flag is 1 |
| Tiles.TerrainRoundTrip | lib/h3m/records.rb:299-308 | a well-formed terrain is read back |
| Tiles.TerrainNeeds | lib/h3m/records.rb:299-308 | the terrain is read exactly when 7·`map_size`² bytes per layer are left, and takes exactly that many |
| Tiles.ReadTerrain | lib/h3m/records.rb:299-300 | the loop over tile positions returns what `DecodeTerrain` specifies |
| MapRecords.DecodeHeader | lib/h3m/records.rb:143-159 | the header fields in order, with `max_level` exactly when not RoE |
| MapRecords.HeaderRoundTrip | lib/h3m/records.rb:143-159 | a well-formed header is read back |
| MapRecords.HeaderSizeOf | lib/h3m/records.rb:143-159 | the header takes 4+1+4+1, then 4 + length for each string, then 1 + (1 unless RoE) bytes |
| MapRecords.HeaderConsumed | lib/h3m/records.rb:143-161 | the players start exactly `HeaderSize` bytes after the start of the record |
| MapRecords.DecodePlayers | lib/h3m/records.rb:161 | exactly eight slots, each well formed for the header's version |
| MapRecords.PlayersRoundTrip | lib/h3m/records.rb:161 | eight well-formed slots are read back |
| MapRecords.DecodeBody | lib/h3m/records.rb:161-308 | the sections after the header, every gate taken from the header |
| MapRecords.DecodeMap | lib/h3m/records.rb:140-365 | a map record read is well formed, and the input is its writing followed by the unread rest |
| MapRecords.MapRoundTrip | lib/h3m/records.rb:140-365 | a well-formed map record is read back |
| MapRecords.SerializedRoundTrip | lib/h3m/records.rb:140-365 | the bytes of a well-formed map record decode to that record |
| MapRecords.TrailingBytesIgnored | lib/h3m/records.rb:140-365 | whatever follows a map's bytes does not change the record read |
| MapRecords.AppendedBytesKeepRecord | lib/h3m/records.rb:140-365 | bytes appended to a stream the record reads from change only what is left after the record |
| MapRecords.PutMapCat | lib/h3m/records.rb:140-365 | writing a record commutes with appending bytes after what follows it |
| MapRecords.TruncatedMapFails | lib/h3m/records.rb:140-365 | the bytes of a well-formed record cut short at any length do not read |
| MapRecords.ReadMap | lib/h3m/records.rb:140-365 | the section-by-section reader with array loops returns what `DecodeMap` specifies |
| PlayerView.NewPlayer | lib/h3m/player.rb:16-20 | a player keeps its record and number, and its colour is `COLORS[number]` when there is one |
| PlayerView.ColorsDistinct | lib/h3m/player.rb:9 | the eight colours are distinct, and each leads back to its slot |
| PlayerView.Flag | lib/h3m/player.rb:22-37 | an availability flag is refused unless it is 0 or 1, and is true exactly for 1 |
| PlayerView.Human | lib/h3m/player.rb:22-28 | `human?` raises a PlayerError exactly for flags above 1, and is true exactly for 1 |
| PlayerView.Computer | lib/h3m/player.rb:30-37 | `computer?` raises a PlayerError exactly for flags above 1, and is true exactly for 1 |
| PlayerView.Present | lib/h3m/player.rb:39-41 | `present?` raises exactly for a bad human flag, or a bad computer flag with human flag 0; otherwise it is true exactly when a flag is 1 |
| PlayerView.PresentShortCircuit | lib/h3m/player.rb:39-41 | a slot with human flag 1 is present, even when `computer?` would raise |
| PlayerView.PresentAgreesWithDecoder | lib/h3m/player.rb:39-41 | where both flags are accepted, `present?` is the decoder's playable test and the presence of the info block |
| PlayerView.ViewStricterThanDecoder | lib/h3m/player.rb:23-41 | a slot whose human flag is above 1, or is 0 with a computer flag above 1, is playable to the decoder and carries info, while `present?` raises the error for the offending flag |
| PlayerView.AiTacticOf | lib/h3m/player.rb:43-53 | codes 0 to 3 give a tactic; other codes, and slots without info, fail with an error that is not a MapError |
| PlayerView.AiTacticTable | lib/h3m/player.rb:43-53 | the tactic table is one-to-one, and each tactic is read from its code |
| MapView.Record | lib/h3m/map.rb:42-48 | a failed read surfaces as a MapError |
| MapView.RecordWellFormed | lib/h3m/map.rb:42-48 | a record read is well formed, and is the writing in front of the unread bytes |
| MapView.RecordOfBytes | lib/h3m/map.rb:42-48 | a well-formed record's bytes, with any trailing bytes, open as that record |
| MapView.Open | lib/h3m/map.rb:42-43 | a map holds the outcome of reading its bytes |
| MapView.OpenReadable | lib/h3m/map.rb:42-48 | every map opened from bytes holds a well-formed record, when it holds one |
| MapView.VersionOf | lib/h3m/map.rb:60-68 | an unknown version raises a MapError |
| MapView.VersionTable | lib/h3m/map.rb:60-68 | exactly 0x0E, 0x15 and 0x1C are accepted, one-to-one with RoE, AB and SoD |
| MapView.VersionGates | lib/h3m/map.rb:60-68 | for an accepted version the decoder's SoD, SoD-or-later and not-RoE gates agree with the symbol |
| MapView.SizeOf | lib/h3m/map.rb:70-79 | an unknown size raises a MapError |
| MapView.SizeTable | lib/h3m/map.rb:70-79 | exactly 36, 72, 108 and 144 are accepted, one-to-one with S, M, L and XL |
| MapView.DifficultyOf | lib/h3m/map.rb:81-91 | an unknown difficulty raises a MapError carrying the code |
| MapView.DifficultyTable | lib/h3m/map.rb:81-91 | exactly 0 to 4 are accepted, one-to-one with the five levels |
| MapView.SubterraneanOf | lib/h3m/map.rb:93-99 | the flag raises a MapError above 1, and is true exactly for 1 |
| MapView.MapVersion | lib/h3m/map.rb:60-68 | `version` raises the read failure, or UnknownVersion with the header's code, or gives the symbol whose code the header holds |
| MapView.MapSize | lib/h3m/map.rb:70-79 | `size` raises the read failure, or UnknownSize with the header's width, or gives the class of that width |
| MapView.MapDifficulty | lib/h3m/map.rb:81-91 | `difficulty` raises the read failure, or UnknownDifficulty with the header's code, or gives the level of that code |
| MapView.MapHasSubterranean | lib/h3m/map.rb:93-99 | `has_subterranean?` raises the read failure, raises exactly for a flag above 1, and is true exactly for 1 |
| MapView.MapMaxLevel | lib/h3m/map.rb:101-103 | `max_level` raises the read failure, or gives the header's value, which on a readable map is present exactly when the version is not RoE |
| MapView.MapPlayers | lib/h3m/map.rb:105-109 | one player per record slot, in order, numbered by its index and coloured `COLORS[index]` |
| MapView.AccessorsReadTheRecord | lib/h3m/map.rb:60-103 | every accessor raises the read failure of an unreadable map, and otherwise resolves its own field |
| MapView.MaxLevelPresence | lib/h3m/map.rb:101-103 | `max_level` is there exactly when the version is not RoE |
| MapView.SubterraneanAgreesWithTerrain | lib/h3m/map.rb:93-99 | an accepted subterranean flag says whether an underground layer was read |
| MapView.TilesOfKnownSize | lib/h3m/map.rb:70-79 | a map of known size has width² tiles on each layer |
| MapView.PlayersOfReadMap | lib/h3m/map.rb:105-109 | a map whose record was read has eight players with eight distinct colours |
| LegacyMap.LegacyVersionOf | lib/h3m.rb:31-39 | an unknown version raises a MapError |
| LegacyMap.LegacySizeOf | lib/h3m.rb:41-50 | an unknown size raises a MapError |
| LegacyMap.TablesAgree | lib/h3m.rb:31-50 | both copies of the version and size tables give the same result for every code |

## Left out

- Truncation is covered only for the bytes the decoder consumes (`MapRecords.TruncatedMapFails`). The record ends with the tiles and reads nothing after them, so a real map file cut inside the sections that follow the tiles still decodes.
- Gzip decompression and file handling (lib/h3m/map.rb:18-40, lib/h3m.rb:20-27) are library I/O. The model starts from the decompressed bytes.
- `print_map` and `get_colored_sym` (lib/h3m/map.rb:111-156) only produce coloured terminal output.
- `name` and `description` (lib/h3m/map.rb:50-56) return header fields without any logic.
- The order of the bits inside a byte for the `bit1` arrays is set by BinData, which is not part of this model. The model assumes the least significant bit comes first. Only the flag values depend on that choice; sizes and round trips do not.
- The payloads the source does not decode are read as nothing, as the source reads them:
  - victory codes 0x03 to 0x0A;
  - the rest of a hero setting;
  - the rumor entries after `rumors_qty`.
- `HeroRecord` (lib/h3m/records.rb:5-11) is never used.
- The `record` method of the second `Map` class (lib/h3m.rb:52-54) reads `H3m::Record` from `h3m/record`, which is not part of this model. Only that class's two tables are modelled.
- Only one cause of a read failure is modelled: running out of input, which BinData reports as an IOError. Where a RangeError would come from inside BinData is not visible here. Both become a MapError, so `Record` has a single `ReadFailed` failure.
- Failures carry the value that caused them but not their message text, and there are no byte offsets.
- The `||=` caches are not modelled separately. After a successful read they hold values that never change. After a failed read `@record ||=` stores nothing and the next accessor reads again from where the stream stopped. For the one failure modelled, running out of input, that re-read starts at the end of the stream and raises the same MapError, which is the outcome a `Map` holds once. A re-read after any other failure is not modelled.
- `MapView.MapMaxLevel`: gives `None` for an RoE map. The source's `max_level` returns whatever BinData gives for a field excluded by `onlyif:` (lib/h3m/records.rb:159), and that value is not defined in the source; absence is the modelled stand-in. `MapView.MaxLevelPresence` states the same modelled absence.
- `TOWNS` (lib/h3m/player.rb:10) is never used.
- `PlayerView.AiTacticOf`: when the branch for an unknown code is taken, the source raises through `PlayerException`, which is not defined. The model returns `UnknownAiTactic`, which is not a MapError. For a slot without info, what BinData returns is not visible here. The model returns `NoInfo`.
- `PlayerView.NewPlayer`: a non-negative slot number is assumed. Ruby's negative indexing into `COLORS` is not modelled.
- The player roster inside a slot (lib/h3m/records.rb:70-75) is read by the `Many` function inside `DecodeInfo`, not by a call to the `ReadMany` loop. The other count-driven arrays go through `ReadMany`, `ReadBytes` or `ReadBitset` in `ReadMap`.
