# A verified model of an mcserver core

This project models the core of a Minecraft 1.15.2 server written in Go (protocol 578), together with the Python script that generates its item table. It covers the following parts of the server:

- the wire-format primitives:
  - the append-only packet `Writer` and the offset-advancing `Reader`;
  - varints and the packed 64-bit block position;
  - the bit-packed `CompactArray`;
  - the streaming NBT writer and decoder;
  - entity metadata;
- chunk storage:
  - block sections with their block count and palette;
  - light nibbles;
  - the Chunk Data and Update Light packets;
- the world's chunk cache with the flat-grass generator;
- light propagation;
- the play and login packet encoders;
- the tick scheduler and chunk-range iteration;
- the handshake state machine and the offline-mode UUID;
- torch placement, biome tests and box geometry;
- the text the item generator prints.

Code that changes state in place is modelled imperatively:

- the writer, the reader, chunks, sections, palettes, the world, the light queue, the tick scheduler and the NBT writer are classes;
- their methods carry `modifies` clauses and loop invariants.

Each method is proved against a specification function of its inputs and old state. The laws the system relies on are then proved about those functions, for example:

- every packet's bytes read back through the client's reading of them;
- NBT decoding inverts the encoding;
- the scheduler's list stays sorted and first-in first-out among equal ticks;
- setting a block changes what the world reports at that position only.

Where the Go code does something other than what it evidently intends, the model keeps the code as written beside a corrected definition. A lemma shows the difference on a concrete input. The rest of the model uses the corrected definition; see "## Findings".

`Metadata.EntityMetadataWriter.WritePose` is supplied by the model. minecraft/writer.go does not define `WritePose`; it is only called, from minecraft/entity/entity.go:125. The model gives it the form the protocol uses for a pose: metadata type 18, then the pose as a varint. Nothing in the source fixes that form.

## Model

| member | source | states |
|---|---|---|
| Biomes.SimilarityCases | minecraft/biome/biomes.go:34-44 | every biome is similar to itself; each badlands plateau is similar only to the two plateaus; any other biome is similar exactly to the biomes of its type |
| Biomes.SimilarityOneWay | minecraft/biome/biomes.go:34-44 | similarity is not symmetric: a non-plateau of the plateaus' type is similar to a plateau, but not the other way round |
| Biomes.ShallowOceanIds | minecraft/biome/biomes.go:46-54 | `IsShallowOcean` holds exactly for the five shallow-ocean ids, given an id below 64 |
| Biomes.DeepOceanIds | minecraft/biome/biomes.go:56-64 | `IsDeepOcean` holds exactly for the five deep-ocean ids, given an id below 64 |
| Biomes.OceanicIsEither | minecraft/biome/biomes.go:67-80 | the ocean mask is the union of the shallow and deep masks, so a biome is oceanic iff it is a shallow or a deep ocean |
| Blocks.TransformTorch | game/blocks.go:11-22 | a torch is refused exactly on the bottom face, and a refusal returns state 0 |
| Blocks.WallStates | game/blocks.go:11-22 | the four side faces give four consecutive wall-torch states, north first |
| Blocks.TorchFacesDistinct | game/blocks.go:11-22 | two different accepted faces never give the same state |
| Blocks.TransformItemToStateId | game/blocks.go:24-33 | an accepted placement is never a torch on the bottom face |
| Blocks.OnlyTorchesRefuse | game/blocks.go:24-33 | a placement is refused exactly when a torch or redstone torch goes on the bottom face |
| Blocks.ItemPlacement | game/blocks.go:24-33 | on the top face each torch gives its standing block's default state; every other item gives its block's default state on any face |
| Rects.NewRect | math/rect.go:59-70 | succeeds exactly when every length is positive, and then has corner `p` and `q[i] == p[i] + lengths[i]` with `p[i] < q[i]`; otherwise it returns the distance error |
| Rects.NewRectFromPoints | math/rect.go:73-83 | the result is ordered on every axis and spans exactly the two points' minimum and maximum |
| Rects.Equal | math/rect.go:33-45 | true exactly when both corners agree |
| Rects.ContainsPoint | math/rect.go:114-124 | true exactly when the point lies inside the box or on its boundary |
| Rects.ContainsRect | math/rect.go:127-139 | true exactly when the second box lies inside the first on every axis |
| Rects.WithinLaws | math/rect.go:114-139 | containment is reflexive and transitive, and a contained box takes its points along |
| Rects.CornersInside | math/rect.go:73-83 | an ordered box contains both of its corners |
| RectHelpers.Intersect | math/helpers.go:5-42 | true exactly when the boxes overlap with positive length on every axis |
| RectHelpers.OverlapSymmetric | math/helpers.go:5-42 | overlap does not depend on the order of the two boxes |
| RectHelpers.TouchingDoNotOverlap | math/helpers.go:5-42 | two unit cubes that share a face do not intersect |
| RectHelpers.BoundingBox | math/helpers.go:45-63 | the result is the per-axis minimum of the lower corners and maximum of the upper corners |
| RectHelpers.BoxLaws | math/helpers.go:45-63 | the bounding box contains both boxes, lies inside every box that contains both, and does not depend on their order |
| RectHelpers.BoxOrdered | math/helpers.go:45-63 | the bounding box of ordered boxes is ordered |
| RectHelpers.BoundingBoxN | math/helpers.go:66-76 | fails exactly on an empty list; otherwise it is the left fold of `BoundingBox`, and a single box comes back as it is |
| RectHelpers.BoxAllLaws | math/helpers.go:66-76 | the result contains every given box and lies inside every box that contains them all |
| Palettes.BitLen | minecraft/chunk/palette.go:19 | `bits.Len`: 0 exactly for 0; otherwise `2^(r-1) <= n < 2^r` |
| Palettes.PowerOfTwoLen | minecraft/chunk/palette.go:20-21 | the `n & (n - 1)` test holds exactly for the lowest number of its bit length |
| Palettes.BitsPerBlock | minecraft/chunk/palette.go:14-30 | the rule gives at least 4 bits, room for every palette index (`n < 2^r`), no more than one spare bit above 4, and 4 for up to 8 entries |
| Palettes.BitsPerBlockMonotone | minecraft/chunk/palette.go:14-30 | a larger palette never gets fewer bits per block |
| Palettes.Palette.ComputeBitsPerBlock | minecraft/chunk/palette.go:14-30 | sets `bitsPerBlock` to the rule for the palette's length and leaves `ids` and `indexMap` as they were |
| Sections.FirstOccurrencesElements | minecraft/chunk/section.go:22-27 | the palette ids have no duplicates and hold exactly the section's ids |
| Sections.FirstOccurrencesOrder | minecraft/chunk/section.go:22-27 | the palette lists ids in the order of their first occurrence in the section |
| Sections.IndexMapFinds | minecraft/chunk/section.go:16-26 | through `indexMap`, every block's id maps to its own palette position |
| Sections.NonAir | minecraft/chunk/chunk.go:81-94 | the non-air count is 0 exactly when every id is air, and never exceeds the volume |
| Sections.NonAirUpdate | minecraft/chunk/chunk.go:85-94 | replacing one id changes the non-air count by the air-ness of the old and the new id |
| Sections.Section.constructor | minecraft/chunk/section.go:3-7 | a new section is all air, with count 0 and no cached palette |
| Sections.Section.Store | minecraft/chunk/chunk.go:81-104 | the count follows the new id; unless it drops to zero, the id is stored and the cached palette dropped; at zero nothing else changes |
| Sections.Section.GeneratePalette | minecraft/chunk/section.go:9-32 | returns the cached palette if there is one; otherwise a fresh palette whose ids are the first occurrences, whose index map finds each of them, and whose bits follow the rule; it is cached, and the ids and count are unchanged |
| Sections.Section.FillPalette | minecraft/chunk/section.go:16-27 | the loop leaves the palette holding the first occurrences, with `indexMap` giving each id's position and -1 for unused ids |
| Positions.Pack | minecraft/types.go:38-40 | X's low 26 bits go to the top, Y's low 12 bits to the middle, and Z's low 26 bits to the bottom |
| Positions.PackOfParse | minecraft/types.go:16-40 | packing a parsed value gives back every 64-bit value |
| Positions.ParseOfPack | minecraft/types.go:16-40 | parsing a packed position gives it back exactly when X and Z lie in (-2^25, 2^25] and Y in (-2048, 2048] |
| Positions.ParsePositionMissesLowest | minecraft/types.go:23-25 | as written, the lowest X, -2^25, comes back as +2^25 |
| Positions.PackOfParseFixed | minecraft/types.go:16-40 | with the two's complement reading (`>=`), packing a parsed value gives it back |
| Positions.ParseFixedOfPack | minecraft/types.go:16-40 | with the two's complement reading, parsing a packed position gives it back exactly when it lies in the 26/12/26-bit signed ranges |
| Palettes.Palette.constructor | minecraft/chunk/section.go:14 | a new palette holds no ids, a zeroed index map of 11337 slots and 0 bits per block |
| Common.VarintSize | common/varint.go:3-16 | the count is 1, 2 or 3; it is the length of the varint of the low 16 bits, equal to the written length for `0 <= val < 65536`, and 1 exactly when the low 16 bits are below 128 |
| Common.AlignUp | common/copact.go:9-11 | the result is a multiple of the power-of-two alignment and the least one at or above `x` |
| Common.CompactArrayLength | common/copact.go:13-15 | the number of words is the ceiling of `bits * count / 64` |
| Common.NumBitsOf | common/copact.go:36 | the low `n` bits of a value (Go's `& Max`) read back as the value modulo `2^n` |
| Common.FlattenUpdate | common/copact.go:36 | replacing word `j` replaces bits `64j .. 64j+64` of the array's bit stream (also line 47) |
| Common.FlattenInjective | common/copact.go:3-7 | two arrays of the same length with the same bit stream are equal |
| Common.PlaceOf | common/copact.go:27-30 | `sIndex` and `uIndex` locate the element's first bit; `eIndex == sIndex` exactly when the element fits in one word, and otherwise it is the next word |
| Common.Element | common/copact.go:53-66 | an element is the `bits`-wide window of the bit stream at `index * bits` |
| Common.SetWords | common/copact.go:25-51 | `Set` on the words as written; the array length is unchanged |
| Common.SetWordsFixed | common/copact.go:25-51 | `Set` on the words as intended; the array length is unchanged |
| Common.SetWordsFixedSplice | common/copact.go:25-51 | the intended `Set` replaces exactly the element's window of the stream with the value's low bits |
| Common.SetWordsSplice | common/copact.go:36-47 | `Set` as written replaces the element's window and also clears the `Clobbered` stream bits after it |
| Common.Clobbered | common/copact.go:41 | the number of bits cleared after the element is below `bits`, and non-zero only when the element spills into the next word (also line 47) |
| Common.SetWordsFixedElements | common/copact.go:25-51 | the intended `Set` stores the value's low bits at `index` and leaves every other element as it was |
| Common.SetWordsElements | common/copact.go:25-51 | `Set` as written stores the value's low bits at `index` and leaves every element except the next one; the next element's low `Clobbered` bits become zero |
| Common.SetWordsClobbersNext | common/copact.go:47 | worked case: with 5-bit elements, setting element 12 (bit 60 of word 0) clears the low three bits of element 13 |
| Common.SetWordsOnZeroTail | common/copact.go:25-51 | when the stream is zero from the element on (a fresh array filled in order), `Set` as written equals the intended `Set` |
| Common.SetWordsKeepsZeroTail | common/copact.go:25-51 | setting an element of a stream that is zero from that element on keeps the stream zero after it |
| Common.FlattenZeros | common/copact.go:17-23 | the stream of a fresh all-zero array is all zeros |
| Common.Or | common/copact.go:65 | bitwise OR of two equal-length patterns, bit by bit |
| Common.GetWordsFixedReads | common/copact.go:53-66 | the intended `Get` reads the element's window converted to Go's `int`; below 64 bits that is the unsigned value, in `[0, 2^bits)` |
| Common.ToInt64Narrow | common/copact.go:60 | Go's conversion of the masked 64-bit result to `int` leaves a value narrower than 64 bits unchanged |
| Common.ToInt64Sign | common/copact.go:60 | a 64-bit pattern converts to a negative `int` exactly when its top bit is set, and to its unsigned value when that bit is clear |
| Common.ToInt64RoundTrip | common/copact.go:36 | an `int64` stored as its 64-bit two's complement pattern converts back to itself |
| Common.GetWordsInWord | common/copact.go:59-61 | inside one word, `Get` as written is the element's window converted to `int` |
| Common.GetWordsReads | common/copact.go:53-66 | inside one word, `Get` as written reads the element's window converted to Go's `int`: the unsigned value below 64 bits, and at 64 bits a value that is negative exactly when the element's top bit is set; across words it reads the window when bit 63 of the first word is clear and is negative when it is set |
| Common.GetWordsSpill | common/copact.go:63-65 | across two words, `Get` as written reads the two parts when bit 63 is clear and is negative when it is set |
| Common.GetWordsSignExtends | common/copact.go:65 | worked case: with 5-bit elements and word 0 all ones, element 12 (bits `11110`) reads as a negative number |
| Common.SetThenGetFixed | common/copact.go:25-66 | after the intended `Set`, the intended `Get` returns `value & Max` and every other element reads as before |
| Common.SetThenGetInWord | common/copact.go:25-36 | within one word, `Get` after `Set`, both as written, returns `value & Max` as an `int`: the value's low `bits` bits below 64 bits, and every `int64` value itself at 64 bits (also lines 53-61) |
| Common.MaxOf | common/copact.go:21 | `(1 << bits) - 1` is `2^bits - 1` below 64 bits and wraps to -1 from 64 bits on |
| Common.CompactArray.constructor | common/copact.go:17-23 | `NewCompactArray`: `CompactArrayLength` zero words, the element width and `Max` |
| Common.CompactArray.Set | common/copact.go:25-51 | the words become `SetWords` of the old words, and the result is the element's previous bits converted to Go's `int` (negative for a 64-bit element with its top bit set) |
| Common.CompactArray.SetWithin | common/copact.go:33-36 | within one word, the value's bits replace the window and the old window is returned converted to Go's `int` (line 50) |
| Common.CompactArray.SetAcross | common/copact.go:33-47 | across two words, the first word's top bits and the next word's low `bits - 1` bits are replaced (the spill then zeros), and the old bits are returned |
| Common.CompactArray.Get | common/copact.go:53-66 | inside one word, the element's window converted to Go's `int` (unsigned below 64 bits, negative at 64 bits exactly when the top bit is set); across words the window when bit 63 of the first word is clear, and a negative number when it is set |
| ChunkFormats.SectionIndex | minecraft/chunk/chunk.go:12-14 | `y >> 4` is the floor of `y / 16` |
| ChunkFormats.LightSection | minecraft/chunk/chunk.go:16-18 | heights 0..255 map to light sections 1..16, and the 18 light sections cover exactly -16..271 |
| ChunkFormats.SectionBlockIndex | minecraft/chunk/chunk.go:24-26 | for a column position the index is below 4096 and gives back x, z and `y mod 16` |
| ChunkFormats.SectionBlockIndexInjective | minecraft/chunk/chunk.go:24-26 | two positions of one section share an index only if they are equal |
| ChunkFormats.BiomeIndex | minecraft/chunk/chunk.go:20-22 | the index is below 1024 and holds the 4x4x4 cube's x, z and y fields |
| ChunkFormats.HeightMapIndex | minecraft/chunk/chunk.go:28-30 | for a column position the index is below 256 and gives back x and z |
| ChunkFormats.BlockAt | minecraft/chunk/chunk.go:61-68 | a missing section reads as air |
| ChunkFormats.SetBlock | minecraft/chunk/chunk.go:70-105 | only the addressed section changes; air written to a missing section changes nothing; no section is ever left all air |
| ChunkFormats.SetBlockThenGet | minecraft/chunk/chunk.go:61-105 | a state reads back where it was set, and every other position keeps its state |
| ChunkFormats.SetInSection | minecraft/chunk/chunk.go:70-105 | the addressed section, when kept, holds the new state at the index and the old ids elsewhere |
| ChunkFormats.Nibble | minecraft/chunk/chunk.go:113-120 | a light value is a nibble, below 16 |
| ChunkFormats.StoreNibble | minecraft/chunk/chunk.go:134-142 | the addressed nibble takes the value and the other nibble of the byte is kept |
| ChunkFormats.Light | minecraft/chunk/chunk.go:107-121 | light is below 16, and 0 where there is no buffer |
| ChunkFormats.SetLight | minecraft/chunk/chunk.go:123-143 | only the addressed buffer changes, and it is present afterwards; 0 written to a missing buffer changes nothing |
| ChunkFormats.SetLightThenGet | minecraft/chunk/chunk.go:107-143 | light reads back as its low four bits where it was set, and every other position keeps its light |
| ChunkFormats.SetLightHere | minecraft/chunk/chunk.go:123-143 | the position set reads back as `light & 0xf` |
| ChunkFormats.SetLightElsewhere | minecraft/chunk/chunk.go:123-143 | every other position keeps its light, including the other nibble of the same byte |
| ChunkFormats.FitsInArray | minecraft/chunk/chunk.go:280 | every element of a 4096-element array lies within its `CompactArrayLength` words |
| ChunkFormats.Packed | minecraft/chunk/chunk.go:280-292 | filling a fresh array in order keeps its length and every element in range |
| ChunkFormats.PackedZeroTail | minecraft/chunk/chunk.go:280-292 | while the array is filled in order, the slots not yet set stay zero |
| ChunkFormats.PackedRead | minecraft/chunk/chunk.go:280-292 | filling a fresh array in order never meets the crossing-word defect of `Set`: every element reads back as `value & Max` |
| ChunkFormats.WordsBytes | minecraft/chunk/chunk.go:296-298 | the data array is 8 big-endian bytes per long |
| ChunkFormats.VarintsBytes | minecraft/chunk/chunk.go:274-276 | the palette ids as varints take at most 3 bytes each |
| ChunkFormats.IndexIn | minecraft/chunk/section.go:22-27 | `indexMap[x]` is non-negative exactly when `x` is in the palette, and then it is its position |
| ChunkFormats.SectionBits | minecraft/chunk/chunk.go:203 | a section is sent with 4 to 13 bits per block, and with at most 8 (a palette) exactly when it has at most 128 distinct ids (also line 264) |
| ChunkFormats.SectionData | minecraft/chunk/chunk.go:279-292 | the data array has `CompactArrayLength(bitsPerBlock, 4096)` words |
| ChunkFormats.IndirectRead | minecraft/chunk/chunk.go:286-292 | in an indirect section every block reads back as the palette position of its id |
| ChunkFormats.DirectModeLosesIds | minecraft/chunk/chunk.go:280-285 | as written, a section with more than 128 distinct ids packs state ids into its own 9..13 bits, so an id at or above 8192 does not read back |
| ChunkFormats.SectionBitsFixed | minecraft/chunk/chunk.go:264 | as intended, a section uses at most 8 bits (a palette) or the global palette's 14 bits (also line 280) |
| ChunkFormats.SectionDataFixedReads | minecraft/chunk/chunk.go:279-292 | with the global width every state id reads back in direct mode, and every palette position in indirect mode |
| ChunkFormats.SectionBytesBound | minecraft/chunk/chunk.go:205-223 | one section takes at most 8000 bytes |
| ChunkFormats.SectionsBytes | minecraft/chunk/chunk.go:254-299 | the section data is at most 8000 bytes per section |
| ChunkFormats.Presence | minecraft/chunk/chunk.go:193-196 | entry `i` is true exactly when section `i` is present |
| ChunkFormats.Mask | minecraft/chunk/chunk.go:199 | setting bit `i` with an OR for each of `n` present entries gives a mask below `2^n` (also lines 313, 318) |
| ChunkFormats.MaskBit | minecraft/chunk/chunk.go:199 | bit `i` of the mask is set exactly when entry `i` is present (also lines 313, 318) |
| ChunkFormats.IntsBytes | minecraft/chunk/chunk.go:248-250 | the biomes are 4 bytes per int |
| ChunkFormats.SectionBitsBound | minecraft/chunk/palette.go:14-30 | for at most 4096 distinct ids the width is at most 13 bits, and at most 8 exactly when there are at most 128 ids |
| ChunkFormats.DirectReadFixed | minecraft/chunk/chunk.go:280-285 | with the global 14-bit width, every state id of a direct-mode section reads back as itself |
| Chunks.SlotReplaced | minecraft/chunk/chunk.go:70-105 | replacing one slot with a full, not all-air section or with none keeps the column well formed |
| Chunks.Chunk.constructor | minecraft/chunk/chunk.go:51-56 | a new column has no sections and no light, and every biome is 0 |
| Chunks.Chunk.GetBlockState | minecraft/chunk/chunk.go:61-68 | the id stored at the position, air where the section is missing |
| Chunks.Chunk.SetBlockState | minecraft/chunk/chunk.go:70-105 | the column's blocks become `SetBlock` of the old ones; light, biomes and the other sections are untouched; the section written to forgets its cached palette |
| Chunks.Chunk.AddSection | minecraft/chunk/chunk.go:70-104 | a missing section is created holding the one non-air id |
| Chunks.Chunk.UpdateSection | minecraft/chunk/chunk.go:81-104 | a present section stores the id, or is dropped when that would leave it all air |
| Chunks.Chunk.GetSkyLight | minecraft/chunk/chunk.go:107-121 | the sky light at the position, 0 where there is no buffer |
| Chunks.Chunk.GetBlockLight | minecraft/chunk/chunk.go:145-159 | the block light at the position, 0 where there is no buffer |
| Chunks.Chunk.SetSkyLight | minecraft/chunk/chunk.go:123-143 | the sky light becomes `SetLight` of the old one; blocks, biomes and block light are untouched |
| Chunks.Chunk.SetBlockLight | minecraft/chunk/chunk.go:161-181 | the block light becomes `SetLight` of the old one; blocks, biomes and sky light are untouched |
| Chunks.Chunk.SectionPalette | minecraft/chunk/chunk.go:201-203 | the palette computed for a present section describes its ids and is cached in it; the blocks are unchanged |
| Chunks.Chunk.PrepareSection | minecraft/chunk/chunk.go:193-224 | one step of the first loop keeps the mask equal to `Mask` of the sections seen and the size equal to their byte count |
| Chunks.Chunk.SlotSize | minecraft/chunk/chunk.go:194-223 | a missing section is skipped, a present one reports the length of its bytes |
| Chunks.Chunk.PrepareSections | minecraft/chunk/chunk.go:193-224 | the mask is the mask of present sections and the size the length of their bytes; every present section has its palette cached |
| Chunks.Chunk.WriteSectionAt | minecraft/chunk/chunk.go:254-299 | one step of the second loop appends the section's bytes, or nothing for a missing section |
| Chunks.Chunk.WriteSections | minecraft/chunk/chunk.go:254-299 | the second loop appends every present section's bytes in order |
| Chunks.Chunk.MakeChunkDataPacket | minecraft/chunk/chunk.go:189-300 | the packet written is `ChunkDataBytes` of the column's position, blocks and biomes; the blocks, light and biomes are unchanged |
| Chunks.Chunk.MakeUpdateLightPacket | minecraft/chunk/chunk.go:303-362 | the packet written is `LightBytes` of the column's position and light buffers |
| Chunks.LightMasks | minecraft/chunk/chunk.go:308-321 | each mask has bit `i` set exactly for the light sections with a buffer |
| Chunks.AddMaskBit | minecraft/chunk/chunk.go:312-319 | one step of that loop keeps the mask equal to `Mask` of the buffers seen |
| Chunks.LightMaskStep | minecraft/chunk/chunk.go:308-321 | one more light section adds its bit when it has a buffer, and 18 sections give a mask below `2^18` |
| Chunks.WriteChunkHeader | minecraft/chunk/chunk.go:233-253 | the bytes before the sections are `ChunkHeaderBytes`: packet id, coordinates, full-chunk flag, mask, empty height map compound, biomes and data size |
| Chunks.WriteInts | minecraft/chunk/chunk.go:248-250 | the biomes are appended as `IntsBytes` |
| Chunks.WrapPattern | minecraft/chunk/chunk.go:235-236 | `int32(v)` is an `int32` with the low 32 bits of `v` |
| Chunks.WordLong | minecraft/chunk/chunk.go:296-298 | a word written with `WriteLong` gives the big-endian bytes of its 64 bits |
| Chunks.WriteIds | minecraft/chunk/chunk.go:270-277 | the palette is appended as its varint length and then each id as a varint |
| Chunks.MaskStep | minecraft/chunk/chunk.go:193-199 | one more slot adds its bit when it holds a section, and 16 slots give a mask below `2^16` |
| Chunks.SectionsBytesStep | minecraft/chunk/chunk.go:254-299 | one more slot adds its section's bytes, at most 8000 per slot |
| Chunks.WriteData | minecraft/chunk/chunk.go:294-298 | the data array is appended as its varint length and then its longs |
| Chunks.WriteLongs | minecraft/chunk/chunk.go:296-298 | each long is appended as 8 big-endian bytes |
| Chunks.PackSection | minecraft/chunk/chunk.go:279-292 | the fresh array filled in order equals `SectionData` of the ids |
| Chunks.PackAt | minecraft/chunk/chunk.go:283-291 | one step of the fill stores the id (direct) or its palette position (indirect) at slot `i` |
| Chunks.SectionSize | minecraft/chunk/chunk.go:205-223 | the size counted with `VarintSize` equals the length of the section's bytes |
| Chunks.PaletteSize | minecraft/chunk/chunk.go:210-218 | the palette's size is the length of its varint count and its varint ids |
| Chunks.WriteSectionData | minecraft/chunk/chunk.go:259-298 | the section appended equals `SectionBytes` of its ids |
| Chunks.WriteBuffers | minecraft/chunk/chunk.go:343-361 | every present light buffer is appended, prefixed with its length |
| ChunkRange.ForEachChunkInRange | game/helpers.go:3-9 | the pairs the nested loops hand to the callback are exactly `Visits`: rows of `x`, each row's `z` ascending |
| ChunkRange.RowLength | game/helpers.go:5-7 | the inner loop runs `z1 - z0` times, or not at all |
| ChunkRange.RowsLength | game/helpers.go:3-9 | the two loops run `(x1 - x0) * (z1 - z0)` times, or not at all |
| ChunkRange.VisitCount | game/helpers.go:3-9 | the callback runs `(2r + 4)^2` times when `2r + 4` is positive, and never otherwise |
| ChunkRange.InRow | game/helpers.go:5-7 | a pair is visited by the inner loop exactly when it has that `x` and its `z` is in range |
| ChunkRange.InRows | game/helpers.go:3-9 | a pair is visited exactly when both coordinates are in their ranges |
| ChunkRange.VisitsExactly | game/helpers.go:3-9 | `(x, z)` is visited exactly when `x0 - r - 2 <= x < x0 + r + 2` and `y0 - r - 2 <= z < y0 + r + 2` |
| ChunkRange.Lopsided | game/helpers.go:4-5 | the square reaches `r + 2` chunks below the centre and only `r + 1` above it |
| ChunkRange.RowIncreasing | game/helpers.go:5-7 | one row is visited in ascending `z` |
| ChunkRange.RowsIncreasing | game/helpers.go:3-9 | the rows are visited in ascending `x`, each in ascending `z` |
| ChunkRange.VisitsInOrder | game/helpers.go:3-9 | the visits are x-major then z, ascending, and no pair is visited twice |
| Entities.GetFacing | minecraft/entity/entity.go:78-89 | south for head yaw 225..255 or 0..31, east for 161..224, north for 97..160, west for 32..96; never top or bottom |
| Entities.EntityFlagBits | minecraft/entity/entity.go:25-30 | on fire, sprinting and glowing are bits 0x01, 0x08 and 0x40 of one byte |
| Entities.EntityFlags | minecraft/entity/entity.go:111-122 | each of the three flags is set in the byte exactly when it holds, and no other bit is set |
| Entities.WriteEntityMetadata | minecraft/entity/entity.go:110-126 | appends the flag byte at index 0 and the pose at index 6 |
| Entities.BuildEntityFlags | minecraft/entity/entity.go:111-122 | the byte built by OR-ing in one bit per set flag equals `EntityFlags` |
| Entities.GetEntity | minecraft/entity/living.go:13-15 | the embedded entity, whose entries open the living entity's metadata |
| Entities.HandFlags | minecraft/entity/living.go:20-28 | bit 0x1 is the main hand and 0x2 the off hand, and no other bit is set |
| Entities.WriteLivingMetadata | minecraft/entity/living.go:17-31 | appends the entity's entries and then the hand byte at index 7 |
| Entities.BuildHandFlags | minecraft/entity/living.go:20-28 | the byte built by OR-ing in one bit per set flag equals `HandFlags` |
| Entities.WritePlayerMetadata | minecraft/entity/player.go:70-74 | appends the living entries, then the skin mask at 16 and the main hand at 17 |
| Entities.NewPlayer | minecraft/entity/player.go:35-68 | a standing player on the ground at the origin with health and food 20, nothing flagged, and the metadata entries all zero |
| Entities.PlayerMetadataRoundTrip | minecraft/entity/player.go:70-74 | a player's metadata, closed by the end marker, reads back as its entries |
| Flatgrass.FlatgrassGenerator.constructor | minecraft/world/generator/flatgrass/generator.go:9-13 | the generator keeps the four layer states it is given |
| Flatgrass.FlatgrassGenerator.GetSpawn | minecraft/world/generator/flatgrass/generator.go:15-17 | the spawn is (8, 62, 8), on air right above the grass |
| Flatgrass.FlatgrassGenerator.Advance | minecraft/world/generator/flatgrass/generator.go:24-34 | setting a column's layer at the current height moves the filled frontier up by one |
| Flatgrass.FlatgrassGenerator.NextColumn | minecraft/world/generator/flatgrass/generator.go:23-35 | a column filled up to the grass is done; nothing is set above it |
| Flatgrass.FlatgrassGenerator.NextRow | minecraft/world/generator/flatgrass/generator.go:22-36 | a row of columns done is the next row begun |
| Flatgrass.FlatgrassGenerator.GenerateChunk | minecraft/world/generator/flatgrass/generator.go:19-39 | a fresh chunk at the coordinates with bedrock at 0, stone at 1..47, dirt at 48..60, grass at 61 and air above, in every column; biomes 0 and no light |
| Flatgrass.FlatgrassGenerator.FillColumn | minecraft/world/generator/flatgrass/generator.go:24-34 | one column is filled from the bedrock to the grass |
| Flatgrass.FlatgrassGenerator.Place | minecraft/world/generator/flatgrass/generator.go:24 | one `SetBlockState` with the layer of its height moves the frontier up by one (also lines 27, 31, 34) |
| Entities.FaceId | game/blocks.go:20 | every face has a wire number below 6, bottom 0 and top 1 first, so `face - 2` numbers the four sides 0 to 3 |
| GenerateItems.Digit | scripts/generate_items.py:27 | a digit character stands for its value (also line 29) |
| GenerateItems.Decimal | scripts/generate_items.py:27 | Python's `str` of a natural number is non-empty, all digits, with no leading zero (also line 29) |
| GenerateItems.IntText | scripts/generate_items.py:27 | the text of an integer starts with `-` exactly when the integer is negative (also lines 29, 37) |
| GenerateItems.DecimalRoundTrip | scripts/generate_items.py:27 | reading the digits back gives the number (also line 29) |
| GenerateItems.DecimalInjective | scripts/generate_items.py:27 | distinct natural numbers print differently (also line 37) |
| GenerateItems.NegativeText | scripts/generate_items.py:27 | a negative number prints as `-` before the digits of its absolute value (also line 37) |
| GenerateItems.IntTextInjective | scripts/generate_items.py:27 | distinct ids print differently, so the lookup keys keep the ids apart (also line 37) |
| GenerateItems.Header | scripts/generate_items.py:15-21 | six lines come before the declarations |
| GenerateItems.ItemBlock | scripts/generate_items.py:26-30 | one item's declaration is five lines |
| GenerateItems.Decls | scripts/generate_items.py:24-30 | the declarations are five lines per item |
| GenerateItems.Lookup | scripts/generate_items.py:35-37 | the lookup array has one entry per item |
| GenerateItems.Output | scripts/generate_items.py:15-39 | the output is `10 + 6n` lines for `n` items |
| GenerateItems.EmitBlock | scripts/generate_items.py:25-30 | one pass of the first loop appends the item's five-line block |
| GenerateItems.EmitDecls | scripts/generate_items.py:24-30 | the first loop appends every item's declaration in input order |
| GenerateItems.EmitLookup | scripts/generate_items.py:35-37 | the second loop appends every item's lookup entry in input order |
| GenerateItems.Generate | scripts/generate_items.py:15-39 | the printed lines are exactly `Output` of the items |
| GenerateItems.DeclsAt | scripts/generate_items.py:24-30 | item `k`'s declaration is lines `5k` to `5k + 4` of the declarations |
| GenerateItems.LookupAt | scripts/generate_items.py:35-37 | item `k`'s lookup entry is line `k` of the lookup lines |
| GenerateItems.DeclsLayout | scripts/generate_items.py:15-30 | the output opens with the six header lines, then item `k`'s block at lines `6 + 5k` to `10 + 5k` |
| GenerateItems.LookupLayout | scripts/generate_items.py:31-39 | after the declarations come a blank line, the lookup opening, item `k`'s entry at its own line, then `}` and a blank line |
| GenerateItems.OutputLayout | scripts/generate_items.py:15-39 | the whole layout, with both loops naming each item by the same `pascalcase(name)` |
| GenerateItems.DuplicatesPassThrough | scripts/generate_items.py:24-37 | nothing is checked: a repeated item is declared twice and listed twice |
| Handshake.KickReason | server/handshaking/handlers.go:27-36 | the kick reason is the ASCII bytes of its JSON text, within the 32767 limit of a chat string |
| Handshake.Kick | server/handshaking/handlers.go:27-36 | the Disconnect packet carries that reason |
| Handshake.HandshakeAt | server/handshaking/handlers.go:12-15 | the four reads, when they succeed, consume bytes, give a port below `2^16` and an address of at most 255 bytes |
| Handshake.InvalidState | server/handshaking/handlers.go:46 | the panic text is "Requested invalid state", a space, the state in decimal and a line break |
| Handshake.InvalidStateNamesState | server/handshaking/handlers.go:46 | different states give different panic texts |
| Handshake.Next | server/handshaking/handlers.go:17-47 | an unknown next state is the panic naming that state; otherwise status, login or disconnected |
| Handshake.Transitions | server/handshaking/handlers.go:17-43 | status exactly for next state 1; login exactly for 2 with protocol 578; disconnected exactly for 2 with any other protocol |
| Handshake.NeverPlay | server/handshaking/handlers.go:17-47 | a handshake never leads to play or back to handshaking |
| Handshake.Sent | server/handshaking/handlers.go:23-39 | the kick is sent exactly when the connection is dropped |
| Handshake.Connection.constructor | server/handshaking/handlers.go:11 | a connection starts handshaking with nothing sent |
| Handshake.HandleHandshaking | server/handshaking/handlers.go:11-48 | a failed read or an unknown state leaves the connection as it was; otherwise the reader has consumed the handshake, the state becomes `Next`, and the kick is queued exactly when that is disconnected |
| Handshake.HandshakeReadsBack | server/handshaking/handlers.go:12-15 | a handshake written by a client reads back field for field and the reads stop right after it |
| Handshake.KickReadsBack | server/handshaking/handlers.go:27-36 | the kick reads back as packet 0 with its reason |
| Lighting.LightQueue.constructor | minecraft/world/lighting.go:45-46 | a new queue is empty |
| Lighting.LightQueue.Add | minecraft/world/lighting.go:21-27 | an update goes to the back of the queue |
| Lighting.LightQueue.Remove | minecraft/world/lighting.go:33 | the oldest update is taken from the front |
| Lighting.Largest | minecraft/world/lighting.go:100-108 | the largest element is one of the list and no element exceeds it |
| Lighting.Max | minecraft/world/lighting.go:100-108 | the loop keeping the larger value returns `Largest` of the list |
| Lighting.SkyRule | minecraft/world/lighting.go:113-187 | sky light is never negative; 0 through a block filtering 15; otherwise 0 or below the brightest neighbour, and at most 14 when the neighbours are nibbles |
| Lighting.SkyRuleBesideSun | minecraft/world/lighting.go:182-186 | a cell filtering nothing next to full sunlight gets 14 |
| Lighting.BlockRule | minecraft/world/lighting.go:257-334 | a block that filters light shows its own emission; otherwise the result is clamped to 0..15, and a non-emitter is 0 or below its brightest neighbour |
| Lighting.Neighbour | minecraft/world/lighting.go:126-180 | a neighbour's light is a nibble: from the chunk, from the world's chunk across the side (0 if missing), 0 below the bottom, and the given value above the top (also lines 271-325) |
| Lighting.Neighbours | minecraft/world/lighting.go:182 | the six neighbours in the order `max` gets them (also line 327) |
| Lighting.Spread | minecraft/world/lighting.go:192-252 | at most six updates, each an adjacent cell of the same chunk (also lines 339-399) |
| Lighting.SpreadFrom | minecraft/world/lighting.go:192-252 | the updates for neighbours `k` to 5: at most `6 - k`, each an adjacent cell of the chunk |
| Lighting.SpreadComplete | minecraft/world/lighting.go:192-252 | every adjacent cell inside the chunk is queued (also lines 339-399) |
| Lighting.Enqueue | minecraft/world/lighting.go:192-252 | the six conditional `Add`s append exactly `Spread` (also lines 339-399) |
| Lighting.EnqueueNeighbour | minecraft/world/lighting.go:192-200 | one conditional `Add` appends neighbour `k` when it is in the chunk |
| Lighting.UpdateSkylight | minecraft/world/lighting.go:112-254 | only sky light changes; the cell ends with the sky rule's value, and when that differs from what it held, the value is stored and its neighbours in the chunk are queued |
| Lighting.UpdateBlockLight | minecraft/world/lighting.go:256-401 | as written: only block light changes, with 15 counted above the top of the world; a changed cell is stored and its neighbours queued |
| Lighting.UpdateBlockLightFixed | minecraft/world/lighting.go:256-401 | as intended: the same update with 0 counted above the top |
| Lighting.UpdateBlockLightAbove | minecraft/world/lighting.go:256-401 | the block-light update with the value above the top as a parameter |
| Lighting.Store | minecraft/world/lighting.go:189-253 | a changed value is stored (as four bits) and the neighbours queued; an unchanged cell changes nothing; the other channel is untouched (also lines 336-400) |
| Lighting.BlockTopAsWritten | minecraft/world/lighting.go:293-297 | as written, a non-emitting cell in the top layer of a world without block light gets 14 |
| Lighting.BlockDarkStaysDark | minecraft/world/lighting.go:293-297 | as intended, a non-emitting cell of a world without block light stays at 0 at every height |
| Lighting.DrainSkyLight | minecraft/world/lighting.go:37-40 | the sky loop leaves only sky light changed, every pending update a cell of the chunks, and reports whether the queue emptied (also lines 93-96) |
| Lighting.DrainBlockLight | minecraft/world/lighting.go:32-35 | the block loop leaves only block light changed, every pending update a cell of the chunks, and reports whether the queue emptied (also lines 88-91) |
| Lighting.NextUpdate | minecraft/world/lighting.go:33-34 | one turn removes the oldest update and applies it, touching only that channel's light (also lines 38-39) |
| Lighting.PendingSpread | minecraft/world/lighting.go:192-252 | the neighbours queued for a pending cell are pending |
| Lighting.Apply | minecraft/world/lighting.go:34 | the update either queues nothing or queues `Spread` of its cell, and touches only its channel's light (also line 39) |
| Lighting.QueueLightUpdate | minecraft/world/lighting.go:20-28 | the cell goes to the back of the block-light queue |
| Lighting.ProcessLightUpdates | minecraft/world/lighting.go:31-41 | the block queue is drained before the sky queue is touched: while it is not empty, the sky queue and all sky light are as they were; only light changes |
| Lighting.CellsQueuedHas | minecraft/world/lighting.go:53-82 | the walk down a column queues exactly the selected cells above the current height |
| Lighting.ColumnsQueuedHas | minecraft/world/lighting.go:49-85 | the columns walked queue exactly their selected cells |
| Lighting.RowsQueuedHas | minecraft/world/lighting.go:48-86 | the rows walked queue exactly their selected cells |
| Lighting.WalkedCells | minecraft/world/lighting.go:48-86 | the block queue holds exactly the opaque emitters below the top layer, the sky queue exactly the transparent blocks there |
| Lighting.WalkedPending | minecraft/world/lighting.go:48-86 | everything queued by the walk is a cell of the chunk |
| Lighting.ColumnFilter | minecraft/world/lighting.go:52-61 | the running filter is never negative |
| Lighting.ColumnFilterDark | minecraft/world/lighting.go:56-61 | once the filter is used up, the rest of the column is dark |
| Lighting.ColumnFilterOpen | minecraft/world/lighting.go:56-61 | under blocks that filter nothing the filter stays 15 |
| Lighting.ColumnFilterFalls | minecraft/world/lighting.go:56-61 | with non-negative filters the value only falls going down and stays within 0..15 |
| Lighting.SeedTop | minecraft/world/lighting.go:50 | storing 15 at the top begins a column's walk |
| Lighting.SeedStep | minecraft/world/lighting.go:83 | storing the filter at height `y` moves the walk one cell down |
| Lighting.NextColumn | minecraft/world/lighting.go:49 | a finished column is the next one begun |
| Lighting.NextRow | minecraft/world/lighting.go:48 | a finished row of columns is the next row begun |
| Lighting.SeedLight | minecraft/world/lighting.go:45-86 | every cell of the chunk holds the walk's sky light and every other light is kept; the two fresh queues hold exactly what the walk selects, in walk order |
| Lighting.LightColumn | minecraft/world/lighting.go:50-84 | one column: 15 at the top, then the walk down, with its cells queued |
| Lighting.WalkColumn | minecraft/world/lighting.go:52-84 | the walk from 254 down to 0 lights the column and queues its cells |
| Lighting.WalkedToBottom | minecraft/world/lighting.go:53 | a walk past height 0 has lit the whole column and queued all of its cells |
| Lighting.WalkCell | minecraft/world/lighting.go:54-83 | one cell of the walk keeps the walk invariant one step further down |
| Lighting.WalkStep | minecraft/world/lighting.go:54-83 | the filter is taken off, the cell queued as its block says, and the filter stored as its sky light |
| Lighting.LightChunk | minecraft/world/lighting.go:44-97 | only light changes; the sky queue is drained only after the block queue, and until then the sky light is what the walk left |
| Lighting.OneChunkOk | minecraft/world/lighting.go:44-97 | a single valid chunk holding no queue is all a drain needs |
| LoginPackets.EncodeDisconnect | minecraft/proto/login/packets.go:12-15 | appends packet 0 and the reason as a string |
| LoginPackets.DisconnectLayout | minecraft/proto/login/packets.go:12-15 | the packet id and the reason sit one after the other |
| LoginPackets.DisconnectReadsBack | minecraft/proto/login/packets.go:12-15 | Disconnect reads back as packet 0 and its reason |
| LoginPackets.EncodeEncryptionRequest | minecraft/proto/login/packets.go:23-30 | appends packet 1, the server id as a string, then the key and the token each with a varint length |
| LoginPackets.EncryptionRequestLayout | minecraft/proto/login/packets.go:23-30 | the four fields sit one after the other |
| LoginPackets.EncryptionRequestReadsBack | minecraft/proto/login/packets.go:23-30 | Encryption Request reads back as its server id, key and token, each as long as written |
| LoginPackets.EncodeLoginSuccess | minecraft/proto/login/packets.go:37-41 | appends packet 2, the UUID text and the username, each as a string |
| LoginPackets.LoginSuccessLayout | minecraft/proto/login/packets.go:37-41 | the three fields sit one after the other |
| LoginPackets.LoginSuccessReadsBack | minecraft/proto/login/packets.go:37-41 | Login Success reads back as its UUID text and username |
| LoginPackets.EncodeSetCompression | minecraft/proto/login/packets.go:47-50 | appends packet 3 and the threshold as a varint |
| LoginPackets.SetCompressionLayout | minecraft/proto/login/packets.go:47-50 | the two fields sit one after the other |
| LoginPackets.SetCompressionReadsBack | minecraft/proto/login/packets.go:47-50 | Set Compression reads back as its threshold |
| Metadata.TypeId | minecraft/writer.go:159-201 | the metadata type of every kind of value fits one varint byte |
| Metadata.EntriesBytesPair | minecraft/writer.go:159-190 | two entries are written one after the other |
| Metadata.EntriesBytesAppend | minecraft/writer.go:159-190 | the bytes of two lists of entries are the bytes of each, in order |
| Metadata.ValueAt | minecraft/writer.go:159-190 | reading a value never goes past the data |
| Metadata.EntryAt | minecraft/writer.go:159-205 | reading an entry consumes at least its index byte |
| Metadata.ValueRoundTrip | minecraft/writer.go:159-190 | a value reads back as itself under its own type id |
| Metadata.EntryRoundTrip | minecraft/writer.go:159-190 | an entry with an index other than 0xFF reads back as itself |
| Metadata.MetadataRoundTrip | minecraft/writer.go:149-205 | a metadata list reads back as the entries written, stopping right after the 0xFF terminator |
| Metadata.MetadataBytesCons | minecraft/writer.go:159-205 | a list is its first entry followed by the rest |
| Metadata.MetadataAtCons | minecraft/writer.go:159-205 | an entry read followed by a list read is a list read |
| Metadata.EntityMetadataWriter.constructor | minecraft/writer.go:149-153 | the metadata writer writes into the given buffer |
| Metadata.EntityMetadataWriter.WriteHeader | minecraft/writer.go:160-161 | appends the index byte and the type id as a varint |
| Metadata.EntityMetadataWriter.WriteByte | minecraft/writer.go:159-163 | appends the index, type 0 and the byte |
| Metadata.EntityMetadataWriter.WriteVarint | minecraft/writer.go:165-169 | appends the index, type 1 and the varint |
| Metadata.EntityMetadataWriter.WriteFloat | minecraft/writer.go:170-174 | appends the index, type 2 and the four bytes of the float |
| Metadata.EntityMetadataWriter.WriteString | minecraft/writer.go:175-179 | appends the index, type 3 and the string |
| Metadata.EntityMetadataWriter.WriteBoolean | minecraft/writer.go:180-184 | appends the index, type 6 and the boolean |
| Metadata.EntityMetadataWriter.WritePosition | minecraft/writer.go:186-190 | appends the index, type 8 and the packed position |
| Metadata.EntityMetadataWriter.WritePose | minecraft/entity/entity.go:125 | appends the index, type 18 and the pose as a varint |
| Metadata.EntityMetadataWriter.StartNBT | minecraft/writer.go:192-201 | appends the index and type 13, and returns a fresh NBT writer over the same buffer with nothing open |
| Metadata.EntityMetadataWriter.Done | minecraft/writer.go:203-205 | appends the terminating index 0xFF |
| Nbt.TypeOf | minecraft/nbt.go:284-319 | every tag's type is a real tag type, never TAG_End |
| Nbt.GetTagType | minecraft/nbt.go:284-319 | every kind but the unsupported ones has a tag type; byte, `int32` and `int64` slices and arrays are array tags, other slices and arrays lists |
| Nbt.NameBytes | minecraft/nbt.go:42-45 | a name is its 16-bit length and then its bytes (also lines 354-359) |
| Nbt.TagHeader | minecraft/nbt.go:350-360 | a tag header is the type byte and then the name |
| Nbt.EmptyCompound | minecraft/nbt.go:130-138 | an unnamed empty compound is `0A 00 00 00`, both as written by the writer and as marshalled (also lines 248-279) |
| Nbt.MarshalIsNamedBytes | minecraft/nbt.go:173-282 | without lists nested in lists, `marshal` writes standard NBT |
| Nbt.WriteValueIsPayload | minecraft/nbt.go:190-282 | without lists nested in lists, `writeValue` writes a tag's payload (less a list's element type and length, which `writeHeader` writes) |
| Nbt.ValuesAreItems | minecraft/nbt.go:232-239 | the items of a list without nested lists are written as their payloads |
| Nbt.MarshalEntriesAreEntries | minecraft/nbt.go:248-279 | the members of a compound without nested lists are written as named tags |
| Nbt.Hex | minecraft/nbt.go:498 | `%02x` of a byte is two characters |
| Nbt.ByteAt | minecraft/nbt.go:504 | `ReadByte` succeeds exactly when a byte is left, and gives it (also lines 685, 880) |
| Nbt.FullAt | minecraft/nbt.go:623 | `io.ReadFull` succeeds exactly when `k` bytes are left; otherwise `io.EOF` when none is and `io.ErrUnexpectedEOF` when some are (also line 893) |
| Nbt.IntAt | minecraft/nbt.go:891-911 | the fixed-width reads succeed exactly when enough bytes are left, and give a number of that signed width |
| Nbt.IntAtEncodes | minecraft/nbt.go:891-911 | the number read has the two's-complement pattern that was read |
| Nbt.SignedEncodes | minecraft/nbt.go:891-911 | the signed reading of any pattern encodes back to it |
| Nbt.StringAt | minecraft/nbt.go:913-928 | a string read consumes its 2-byte length and its bytes, and is shorter than `2^15` |
| Nbt.StringAtEncodes | minecraft/nbt.go:913-928 | the bytes a string read consumes are the string's encoding |
| Nbt.TagAt | minecraft/nbt.go:879-889 | a tag header read consumes the type byte, and a name exactly when the type is not TAG_End |
| Nbt.TagAtEncodes | minecraft/nbt.go:879-889 | the bytes a header read consumes are the header of the tag read |
| Nbt.NumbersAt | minecraft/nbt.go:650-681 | the array loops read exactly `n` numbers |
| Nbt.NumbersAtEncodes | minecraft/nbt.go:650-681 | the numbers read fit their width and the bytes consumed are their encoding |
| Nbt.ValueAt | minecraft/nbt.go:495-794 | a payload read into an `interface{}` consumes bytes and gives a tag of the requested type |
| Nbt.ScalarAt | minecraft/nbt.go:503-612 | numbers and strings are read as tags of the requested type |
| Nbt.ArrayAt | minecraft/nbt.go:614-682 | an array read gives a tag of the requested array type |
| Nbt.ListAt | minecraft/nbt.go:684-724 | a list read gives a list tag |
| Nbt.ItemsAt | minecraft/nbt.go:716-720 | the list loop reads exactly `n` items |
| Nbt.EntriesAt | minecraft/nbt.go:773-789 | a compound read consumes its members and its TAG_End; a member that fails to decode has its error prefixed with `fail to decode tag` and its quoted name |
| Nbt.SkipAt | minecraft/nbt.go:796-877 | `rawRead` moves past at least one byte and never past the data |
| Nbt.CheckCompressed | minecraft/nbt.go:441-448 | a compression is named exactly for the gzip byte 0x1f and the zlib byte 0x78 |
| Nbt.Decode | minecraft/nbt.go:417-438 | a decoded document consumes at least one byte and never goes past the data |
| Nbt.Quote | minecraft/nbt.go:435 | the `%q` form of the root tag's name starts and ends with a double quote and is at least two bytes longer than the name |
| Nbt.QuotePlain | minecraft/nbt.go:435 | a name of printable ASCII without `"` or a backslash appears unchanged between the quotes |
| NbtDecoders.NumbersEndStep | minecraft/nbt.go:830-834 | one more number read either fails as `IntAt` does or moves on by `k` bytes |
| NbtDecoders.SkipNumbersAt | minecraft/nbt.go:825-846 | an int or long array is skipped as its length and then that many numbers, none for a negative length |
| NbtDecoders.NbtDecoder.constructor | minecraft/nbt.go:403-415 | a decoder starts at the beginning of the bytes |
| NbtDecoders.NbtDecoder.ReadByte | minecraft/nbt.go:504 | the read follows `ByteAt`: on success the offset moves past the byte read (also lines 685, 880) |
| NbtDecoders.NbtDecoder.ReadFull | minecraft/nbt.go:893 | the read follows `FullAt`, consuming what is left when it fails on a short input (also lines 899, 906, 924) |
| NbtDecoders.NbtDecoder.ReadInt | minecraft/nbt.go:891-911 | the read follows `IntAt` |
| NbtDecoders.NbtDecoder.ReadString | minecraft/nbt.go:913-928 | the read follows `StringAt` |
| NbtDecoders.NbtDecoder.ReadTag | minecraft/nbt.go:879-889 | the read follows `TagAt` |
| NbtDecoders.NbtDecoder.RawRead | minecraft/nbt.go:796-877 | the skip ends where `SkipAt` says, or with its error |
| NbtDecoders.NbtDecoder.SkipByteArray | minecraft/nbt.go:816-824 | the byte-array skip ends where `SkipAt` says, copying nothing for a length of zero or less |
| NbtDecoders.NbtDecoder.SkipNumbers | minecraft/nbt.go:825-846 | the int and long array skips end where `SkipAt` says |
| NbtDecoders.NbtDecoder.SkipEach | minecraft/nbt.go:830-834 | the loop reads and drops `n` numbers, none for a negative `n` (also lines 841-845) |
| NbtDecoders.NbtDecoder.SkipList | minecraft/nbt.go:847-860 | the list skip ends where `SkipAt` says |
| NbtDecoders.NbtDecoder.SkipCompound | minecraft/nbt.go:861-876 | the compound skip ends where `SkipAt` says |
| NbtLaws.IntRoundTrip | minecraft/nbt.go:376-391 | a number written with `writeInt16/32/64` reads back with `readInt16/32/64` (also lines 891-911) |
| NbtLaws.PatternRoundTrip | minecraft/nbt.go:201-206 | the bit pattern of a float or double reads back as itself (also lines 560-600) |
| NbtLaws.StringRoundTrip | minecraft/nbt.go:241-246 | a string shorter than `2^15` bytes reads back, consuming its length and bytes (also lines 913-928) |
| NbtLaws.TagRoundTrip | minecraft/nbt.go:350-360 | a tag header reads back as its type and name (also lines 879-889) |
| NbtLaws.NumbersRoundTrip | minecraft/nbt.go:217-229 | a run of numbers of one width reads back (also lines 650-681) |
| NbtLaws.DecodeOfPayload | minecraft/nbt.go:190-282 | decoding a well-formed tree's payload gives the tree back and stops right after it (also lines 495-794) |
| NbtLaws.DecodeOfList | minecraft/nbt.go:684-724 | a well-formed list's payload decodes back to the list |
| NbtLaws.DecodeOfCompound | minecraft/nbt.go:773-789 | a well-formed compound's payload decodes back to the compound |
| NbtLaws.DecodeOfItems | minecraft/nbt.go:716-720 | well-formed items decode back, all of them |
| NbtLaws.DecodeOfEntries | minecraft/nbt.go:775-788 | well-formed members followed by TAG_End decode back |
| NbtLaws.PayloadOfDecode | minecraft/nbt.go:495-794 | every tree the decoder returns is well formed, and the bytes it consumed are exactly that tree's payload |
| NbtLaws.PayloadOfItems | minecraft/nbt.go:716-720 | the items read are well formed and their bytes are exactly the ones consumed |
| NbtLaws.PayloadOfEntries | minecraft/nbt.go:775-788 | the members read are well formed and their bytes, with TAG_End, are exactly the ones consumed |
| NbtLaws.SkipAgrees | minecraft/nbt.go:495-877 | `rawRead` skips exactly the bytes that `unmarshal` decodes |
| NbtLaws.SkipItemsAgrees | minecraft/nbt.go:716-720 | the list skip and the list read end at the same offset (also lines 856-859) |
| NbtLaws.SkipEntriesAgrees | minecraft/nbt.go:775-788 | the compound skip and the compound read end at the same offset (also lines 861-876) |
| NbtLaws.DecodeRoundTrip | minecraft/nbt.go:417-438 | a named, well-formed tree in the standard layout, followed by anything, decodes back |
| NbtLaws.NotCompressed | minecraft/nbt.go:429-431 | no tag type is mistaken for a compression magic byte (also lines 441-448) |
| NbtLaws.DecodeRefusesCompressed | minecraft/nbt.go:429-431 | a stream starting with a gzip or zlib magic byte is refused |
| NbtLaws.DecodeOfGzipHeader | minecraft/nbt.go:424-427 | a real gzip stream fails in `readTag` on a negative name length before the compression check (also lines 913-920) |
| NbtLaws.DecodeOnlyEnd | minecraft/nbt.go:433-436 | a stream holding only TAG_End is refused with `ErrEND`, behind the quoted empty tag name (also lines 500-501) |
| NbtLaws.DecodeNamesFailedMember | minecraft/nbt.go:773-789 | a failure inside a compound member is wrapped for the member and again for the root: a root compound holding a TAG_Byte called `a` with no payload is refused with `nbt: fail to decode tag "": fail to decode tag "a": EOF` |
| NbtLaws.DecodeNamesFailedTag | minecraft/nbt.go:433-436 | a failure inside the root tag names it: a TAG_Byte called `ab` with no payload is refused with `nbt: fail to decode tag "ab": EOF` |
| NbtLaws.MarshalNestedListUnreadable | minecraft/nbt.go:232-239 | as written, a list of lists is marshalled without the inner list's header, and the bytes do not decode, while the standard layout does |
| NbtLaws.NestedListMarshal | minecraft/nbt.go:180-188 | the list of lists `[[5]]` marshals to `09 00 00 09 00 00 00 01 05` (also lines 232-239) |
| NbtLaws.NestedListDecodeFails | minecraft/nbt.go:684-720 | those bytes fail to decode because the reader runs out of input (`io.EOF`) |
| NbtLaws.NestedListNamedDecodes | minecraft/nbt.go:684-720 | the standard layout of the same tree decodes back to it |
| NbtWriters.AddEntry | minecraft/nbt.go:55-61 | a finished tag goes into the innermost open compound, or to the top level when none is open (also lines 130-138) |
| NbtWriters.EntriesAppend | minecraft/nbt.go:130-138 | one more member of a compound appends its named bytes |
| NbtWriters.AddEntryBytes | minecraft/nbt.go:55-61 | filing a finished tag accounts for exactly its named bytes |
| NbtWriters.CloseBytes | minecraft/nbt.go:135-138 | closing the innermost compound turns its header, its members and the TAG_End into one named compound |
| NbtWriters.WrapEncodes | minecraft/nbt.go:42-45 | `int16(n)` and `int32(n)` written big-endian give the bytes of `n` (also lines 103-123) |
| NbtWriters.NbtWriter.constructor | minecraft/writer.go:140-147 | a writer over the buffer with every stack empty |
| NbtWriters.NbtWriter.EmitString | minecraft/nbt.go:42-45 | appends the length as an `int16` and then the bytes |
| NbtWriters.NbtWriter.PushListElement | minecraft/nbt.go:47-53 | counts one more element only when the innermost open tag is a list |
| NbtWriters.NbtWriter.EmitTagHeader | minecraft/nbt.go:55-61 | appends the type byte and the name unless the innermost open tag is TAG_End |
| NbtWriters.NbtWriter.PushByte | minecraft/nbt.go:63-66 | appends a named TAG_Byte holding the byte pattern and files it in the open compound |
| NbtWriters.NbtWriter.PushBool | minecraft/nbt.go:68-75 | appends a named TAG_Byte of 1 or 0 |
| NbtWriters.NbtWriter.PushShort | minecraft/nbt.go:78-81 | as written: a TAG_Byte header followed by two bytes |
| NbtWriters.NbtWriter.PushShortFixed | minecraft/nbt.go:78-81 | as intended: appends a named TAG_Short and keeps the writer's invariant |
| NbtWriters.NbtWriter.PushInt | minecraft/nbt.go:83-86 | appends a named TAG_Int |
| NbtWriters.NbtWriter.PushLong | minecraft/nbt.go:88-91 | appends a named TAG_Long |
| NbtWriters.NbtWriter.PushFloat | minecraft/nbt.go:93-96 | appends a named TAG_Float of the bit pattern |
| NbtWriters.NbtWriter.PushDouble | minecraft/nbt.go:98-101 | appends a named TAG_Double of the bit pattern |
| NbtWriters.NbtWriter.PushByteArray | minecraft/nbt.go:103-107 | appends a named TAG_Byte_Array: the length as an `int32`, then the bytes |
| NbtWriters.NbtWriter.WriteInts | minecraft/nbt.go:111-114 | the loop appends each `int32` big-endian |
| NbtWriters.NbtWriter.PushIntArray | minecraft/nbt.go:109-115 | appends a named TAG_Int_Array |
| NbtWriters.NbtWriter.WriteLongs | minecraft/nbt.go:119-122 | the loop appends each `int64` big-endian |
| NbtWriters.NbtWriter.PushLongArray | minecraft/nbt.go:117-123 | appends a named TAG_Long_Array |
| NbtWriters.NbtWriter.PushString | minecraft/nbt.go:125-128 | appends a named TAG_String |
| NbtWriters.NbtWriter.StartCompound | minecraft/nbt.go:130-133 | appends the compound's header and opens it as the innermost tag |
| NbtWriters.NbtWriter.EndCompound | minecraft/nbt.go:135-138 | appends TAG_End; fails exactly when nothing is open, and otherwise closes the innermost compound into its parent |
| NbtWriters.PushShortIsByte | minecraft/nbt.go:78-81 | what `PushShort` writes is a TAG_Byte of the high byte followed by a stray low byte |
| NbtWriters.PushShortMisread | minecraft/nbt.go:78-81 | `{s: short 256}` written with `PushShort` reads back as `{s: byte 1}`, one byte short of the end |
| NbtWriters.PushShortFixedReads | minecraft/nbt.go:78-81 | written with `PushShortFixed`, the same compound reads back as written |
| OfflineUuid.Prefix | server/login/handlers.go:18 | the text hashed before the name, "OfflinePlayer:", is 14 bytes |
| OfflineUuid.StampVersion | server/login/handlers.go:22 | byte 6 gets version 3 in its high nibble and keeps its low nibble |
| OfflineUuid.StampVariant | server/login/handlers.go:23 | byte 8 gets the RFC 4122 variant bits 1 0 on top and keeps its low six bits |
| OfflineUuid.OfflineUuid | server/login/handlers.go:14-25 | the UUID is the MD5 digest of "OfflinePlayer:" plus the name, with bytes 6 and 8 stamped and every other byte copied |
| OfflineUuid.NameUuidUnique | server/login/handlers.go:14-25 | the stamping conditions fix the UUID: two results for the same digest are equal, so a name always gets the same UUID |
| OfflineUuid.StampsIdempotent | server/login/handlers.go:22-23 | a digest that already carries version 3 and the variant is left unchanged by the stamps |
| PlayEntity.EncodeSpawnPlayer | minecraft/proto/play/entity.go:28-37 | appends exactly the packet's bytes: packet id 0x05, then the id, the 16-byte UUID, the three doubles' 64-bit patterns and the two angles, in that order |
| PlayEntity.SpawnPlayerLayout | minecraft/proto/play/entity.go:28-37 | the packet's length, and the offset at which each field's bytes sit |
| PlayEntity.SpawnPlayerReadsBack | minecraft/proto/play/entity.go:28-37 | a client reading the packet gets back id 0x05, then the id, the 16-byte UUID, the three doubles' 64-bit patterns and the two angles, and stops at its end |
| PlayEntity.EncodeEntityAnimation | minecraft/proto/play/entity.go:54-58 | appends exactly the packet's bytes: packet id 0x06, then the id and the animation byte, in that order |
| PlayEntity.EntityAnimationLayout | minecraft/proto/play/entity.go:54-58 | the packet's length, and the offset at which each field's bytes sit |
| PlayEntity.EntityAnimationReadsBack | minecraft/proto/play/entity.go:54-58 | a client reading the packet gets back id 0x06, then the id and the animation byte, and stops at its end |
| PlayEntity.EncodeEntityPosition | minecraft/proto/play/entity.go:68-75 | appends exactly the packet's bytes: packet id 0x29, then the id, three signed 16-bit deltas with negative deltas intact, and the on-ground flag, in that order |
| PlayEntity.EntityPositionLayout | minecraft/proto/play/entity.go:68-75 | the packet's length, and the offset at which each field's bytes sit |
| PlayEntity.EntityPositionReadsBack | minecraft/proto/play/entity.go:68-75 | a client reading the packet gets back id 0x29, then the id, three signed 16-bit deltas with negative deltas intact, and the on-ground flag, and stops at its end |
| PlayEntity.EncodeEntityPositionAndRotation | minecraft/proto/play/entity.go:87-96 | appends exactly the packet's bytes: packet id 0x2A, then the id, three signed 16-bit deltas, yaw, pitch and the on-ground flag, in that order |
| PlayEntity.EntityPositionAndRotationLayout | minecraft/proto/play/entity.go:87-96 | the packet's length, and the offset at which each field's bytes sit |
| PlayEntity.EntityPositionAndRotationReadsBack | minecraft/proto/play/entity.go:87-96 | a client reading the packet gets back id 0x2A, then the id, three signed 16-bit deltas, yaw, pitch and the on-ground flag, and stops at its end |
| PlayEntity.EncodeEntityRotation | minecraft/proto/play/entity.go:105-111 | appends exactly the packet's bytes: packet id 0x2B, then the id, yaw, pitch and the on-ground flag, in that order |
| PlayEntity.EntityRotationLayout | minecraft/proto/play/entity.go:105-111 | the packet's length, and the offset at which each field's bytes sit |
| PlayEntity.EntityRotationReadsBack | minecraft/proto/play/entity.go:105-111 | a client reading the packet gets back id 0x2B, then the id, yaw, pitch and the on-ground flag, and stops at its end |
| PlayEntity.EncodeEntityMovement | minecraft/proto/play/entity.go:117-120 | appends exactly the packet's bytes: packet id 0x2C, then the id alone, in that order |
| PlayEntity.EntityMovementLayout | minecraft/proto/play/entity.go:117-120 | the packet's length, and the offset at which each field's bytes sit |
| PlayEntity.EntityMovementReadsBack | minecraft/proto/play/entity.go:117-120 | a client reading the packet gets back id 0x2C, then the id alone, and stops at its end |
| PlayEntity.EncodeDestroyEntities | minecraft/proto/play/entity.go:126-132 | appends packet id 0x38, the number of ids as a varint, then every id as a varint in order |
| PlayEntity.IdsAt | minecraft/proto/play/entity.go:129-131 | reading n ids gives exactly n of them and stays within the data |
| PlayEntity.IdsAtStep | minecraft/proto/play/entity.go:129-131 | reading n ids is reading n - 1 and then one more |
| PlayEntity.IdsReadBack | minecraft/proto/play/entity.go:129-131 | the written ids read back as the same list, in order, ending right after the last |
| PlayEntity.DestroyEntitiesReadsBack | minecraft/proto/play/entity.go:126-132 | Destroy Entities reads back as id 0x38, the count, then the ids |
| PlayEntity.EncodeEntityHeadLook | minecraft/proto/play/entity.go:141-145 | appends exactly the packet's bytes: packet id 0x3C, then the id and the head yaw, in that order |
| PlayEntity.EntityHeadLookLayout | minecraft/proto/play/entity.go:141-145 | the packet's length, and the offset at which each field's bytes sit |
| PlayEntity.EntityHeadLookReadsBack | minecraft/proto/play/entity.go:141-145 | a client reading the packet gets back id 0x3C, then the id and the head yaw, and stops at its end |
| PlayEntity.WriteMetadata | minecraft/proto/play/entity.go:147-149 | dispatching to the entity, living-entity or player writer appends that kind's entries, every one of them writable |
| PlayEntity.SourceEncodable | minecraft/proto/play/entity.go:147-149 | every kind's entries have indices other than the terminator 0xff and values a client can read back |
| PlayEntity.EncodeEntityMetadata | minecraft/proto/play/entity.go:156-162 | appends packet id 0x44, the id, then the entity's metadata entries closed by 0xff |
| PlayEntity.IdAndMetadataReadBack | minecraft/proto/play/entity.go:158-161 | an entity id followed by a metadata list reads back as that id and those entries |
| PlayEntity.EntityMetadataReadsBack | minecraft/proto/play/entity.go:156-162 | Entity Metadata reads back as id 0x44, the entity id and the entries of the entity, living entity or player it was given |
| PlayEntity.EncodeEntityTeleport | minecraft/proto/play/entity.go:182-191 | appends exactly the packet's bytes: packet id 0x57, then the id, the three doubles' 64-bit patterns, yaw, pitch and the on-ground flag, in that order |
| PlayEntity.EntityTeleportLayout | minecraft/proto/play/entity.go:182-191 | the packet's length, and the offset at which each field's bytes sit |
| PlayEntity.EntityTeleportReadsBack | minecraft/proto/play/entity.go:182-191 | a client reading the packet gets back id 0x57, then the id, the three doubles' 64-bit patterns, yaw, pitch and the on-ground flag, and stops at its end |
| PlayMenu.CreateFake | minecraft/proto/play/menu.go:12-20 | the fake slot keeps the item id and meta, shows the count 69 and carries no NBT |
| PlayMenu.FakeIdempotent | minecraft/proto/play/menu.go:12-20 | faking a fake slot gives the same fake slot |
| PlayMenu.SlotNbt | minecraft/proto/play/menu.go:27-31 | a nil NBT is written as the empty struct, a compound without entries; any other NBT as itself |
| PlayMenu.NbtBytes | minecraft/proto/play/menu.go:27-31 | the NBT blob is at least three bytes, and for a nil NBT exactly the empty compound 10 0 0 0 |
| PlayMenu.SlotDataBytes | minecraft/proto/play/menu.go:22-33 | the slot starts with its item id as a big-endian short, and is those two bytes alone exactly when the slot is empty (id -1) |
| PlayMenu.EmptySlotBytes | minecraft/proto/play/menu.go:23-24 | an empty slot is the two bytes FF FF whatever its count, meta and NBT |
| PlayMenu.FakeSlotBytes | minecraft/proto/play/menu.go:12-33 | a fake slot's bytes are its id, the count 69, its meta and the empty compound |
| PlayMenu.EncodeSlot | minecraft/proto/play/menu.go:22-33 | appends exactly the slot's bytes: id, then for a non-empty slot count, meta and NBT blob |
| PlayMenu.NbtReadsBack | minecraft/proto/play/menu.go:27-31 | the slot's NBT blob decodes back to the slot's tag tree and its length, wherever it sits |
| PlayMenu.SlotReadsBack | minecraft/proto/play/menu.go:22-33 | read in the layout written, the slot gives back its id, and for a non-empty slot its count, meta and NBT |
| PlayMenu.SlotLayoutMisread | minecraft/proto/play/menu.go:22-33 | read the way protocol 578 reads a slot (server/play/menu.go:25-27), one stone block reads as an empty slot and the empty slot is refused as an invalid boolean |
| PlayMenu.SlotDataBytesFixed | server/play/menu.go:25-30 | the 1.13+ layout starts with the presence flag, and is that one byte alone exactly when the slot is empty |
| PlayMenu.EncodeSlotFixed | server/play/menu.go:25-30 | appends exactly the 1.13+ slot bytes: the presence flag, then the id as a varint, the count and the NBT blob |
| PlayMenu.SlotFixedReadsBack | server/play/menu.go:25-35 | read as the Creative Inventory Action handler reads it, the 1.13+ layout gives back presence, id, count and NBT |
| PlayMenu.EncodeSetSlot | minecraft/proto/play/menu.go:42-47 | appends packet id 0x16, the window id, the slot number as a short, then the slot's bytes |
| PlayMenu.SetSlotReadsBack | minecraft/proto/play/menu.go:42-47 | Set Slot reads back as 0x16, the window, the slot number, then the slot's own bytes up to the packet's end |
| PlayPlayer.EncodeChatMessage | minecraft/proto/play/player.go:19-23 | appends exactly the packet's bytes: packet id 0x0F, then the chat component (read with the client's limit of 32767 bytes) and the position byte, in that order |
| PlayPlayer.ChatMessageLayout | minecraft/proto/play/player.go:19-23 | the packet's length, and the offset at which each field's bytes sit |
| PlayPlayer.ChatMessageReadsBack | minecraft/proto/play/player.go:19-23 | a client reading the packet gets back id 0x0F, then the chat component (read with the client's limit of 32767 bytes) and the position byte, and stops at its end |
| PlayPlayer.EncodeDisconnect | minecraft/proto/play/player.go:29-32 | appends exactly the packet's bytes: packet id 0x1B, then the reason as a chat component, in that order |
| PlayPlayer.DisconnectLayout | minecraft/proto/play/player.go:29-32 | the packet's length, and the offset at which each field's bytes sit |
| PlayPlayer.DisconnectReadsBack | minecraft/proto/play/player.go:29-32 | a client reading the packet gets back id 0x1B, then the reason as a chat component, and stops at its end |
| PlayPlayer.EncodeKeepAlive | minecraft/proto/play/player.go:38-41 | appends exactly the packet's bytes: packet id 0x21, then the id as a signed 64-bit integer, negative ids included, in that order |
| PlayPlayer.KeepAliveLayout | minecraft/proto/play/player.go:38-41 | the packet's length, and the offset at which each field's bytes sit |
| PlayPlayer.KeepAliveReadsBack | minecraft/proto/play/player.go:38-41 | a client reading the packet gets back id 0x21, then the id as a signed 64-bit integer, negative ids included, and stops at its end |
| PlayPlayer.EncodeJoinGame | minecraft/proto/play/player.go:54-67 | appends exactly the packet's bytes: packet id 0x26, then the entity id, game mode, dimension, hashed seed, a maximum player count of 0, the level type, the view distance and the two flags, in that order |
| PlayPlayer.JoinGameLayout | minecraft/proto/play/player.go:54-67 | the packet's length, and the offset at which each field's bytes sit |
| PlayPlayer.JoinGameReadsBack | minecraft/proto/play/player.go:54-67 | a client reading the packet gets back id 0x26, then the entity id, game mode, dimension, hashed seed, a maximum player count of 0, the level type, the view distance and the two flags, and stops at its end |
| PlayPlayer.EncodePlayerPositionAndLook | minecraft/proto/play/player.go:213-222 | appends exactly the packet's bytes: packet id 0x36, then the 64-bit patterns of x, y and z, the 32-bit patterns of yaw and pitch, the flags and the teleport id, in that order |
| PlayPlayer.PlayerPositionAndLookLayout | minecraft/proto/play/player.go:213-222 | the packet's length, and the offset at which each field's bytes sit |
| PlayPlayer.PlayerPositionAndLookReadsBack | minecraft/proto/play/player.go:213-222 | a client reading the packet gets back id 0x36, then the 64-bit patterns of x, y and z, the 32-bit patterns of yaw and pitch, the flags and the teleport id, and stops at its end |
| PlayPlayer.WriteOptionalChat | minecraft/proto/play/player.go:147-152 | appends the presence flag, and the chat component after it exactly when there is a display name |
| PlayPlayer.OptionalChatAt | minecraft/proto/play/player.go:147-152 | the client's reading of an optional chat consumes at least the flag and stays within the data |
| PlayPlayer.OptionalChatReadsBack | minecraft/proto/play/player.go:147-152 | an optional display name reads back as itself, absent or present |
| PlayPlayer.EncodeEntry | minecraft/proto/play/player.go:127-196 | appends one entry's bytes: its UUID, then what its action changes |
| PlayPlayer.EncodeEntryBody | minecraft/proto/play/player.go:127-196 | appends what follows the UUID for each of the five entry kinds |
| PlayPlayer.EncodeAddPlayerBody | minecraft/proto/play/player.go:129-152 | appends the name, a property count of 0, the game mode, the latency and the optional display name |
| PlayPlayer.EncodePlayerState | minecraft/proto/play/player.go:144-152 | appends the game mode and latency as varints, then the optional display name |
| PlayPlayer.AddPlayerAt | minecraft/proto/play/player.go:127-153 | the client's reading of an Add Player entry after its UUID consumes at least one byte and stays within the data |
| PlayPlayer.PlayerStateAt | minecraft/proto/play/player.go:144-152 | the client's reading of game mode, latency and display name consumes at least one byte and stays within the data |
| PlayPlayer.EntryBodyAt | minecraft/proto/play/player.go:127-196 | the client's reading of what follows the UUID under a given action stays within the data |
| PlayPlayer.EntryAt | minecraft/proto/play/player.go:127-196 | the client's reading of one entry consumes at least its UUID and stays within the data |
| PlayPlayer.PlayerStateReadsBack | minecraft/proto/play/player.go:144-152 | game mode, latency and display name read back as the entry's own |
| PlayPlayer.AddPlayerReadsBack | minecraft/proto/play/player.go:127-153 | an Add Player entry after its UUID reads back as itself |
| PlayPlayer.EntryBodyReadsBack | minecraft/proto/play/player.go:127-196 | what follows the UUID reads back under the entry's own action |
| PlayPlayer.EntryReadsBack | minecraft/proto/play/player.go:127-196 | every entry kind reads back as itself under its own action |
| PlayPlayer.EncodeEntries | minecraft/proto/play/player.go:83-85 | the loop over a list appends every entry's bytes, in order |
| PlayPlayer.EntriesAt | minecraft/proto/play/player.go:83-85 | reading n entries gives exactly n and stays within the data |
| PlayPlayer.EntriesAtStep | minecraft/proto/play/player.go:83-85 | reading n entries is reading n - 1 and then one more |
| PlayPlayer.EntriesReadBack | minecraft/proto/play/player.go:83-85 | a list sent under an action reads back as the same entries, in order |
| PlayPlayer.Selected | minecraft/proto/play/player.go:80-115 | the list sent is the first non-empty one in the order add, game mode, latency, display name, remove, with its action number 0-4; none is sent exactly when all five are empty |
| PlayPlayer.EncodePlayerInfo | minecraft/proto/play/player.go:77-116 | appends packet id 0x34, then the action, count and entries of the selected list only |
| PlayPlayer.EncodeList | minecraft/proto/play/player.go:80-85 | appends the action, the list's length and its entries |
| PlayPlayer.PlayerInfoEmpty | minecraft/proto/play/player.go:77-116 | with every list empty the packet is the id 0x34 alone |
| PlayPlayer.ListReadsBack | minecraft/proto/play/player.go:80-115 | the action, the count and the entries read back |
| PlayPlayer.PlayerInfoReadsBack | minecraft/proto/play/player.go:77-116 | Player Info reads back as 0x34, the selected action, its count and its entries, ending at the packet's end |
| PlayWorld.EncodeBlockBreakAnimation | minecraft/proto/play/world.go:13-18 | appends exactly the packet's bytes: packet id 0x09, then the entity id, the packed position and the destroy stage, in that order |
| PlayWorld.BlockBreakAnimationLayout | minecraft/proto/play/world.go:13-18 | the packet's length, and the offset at which each field's bytes sit |
| PlayWorld.BlockBreakAnimationReadsBack | minecraft/proto/play/world.go:13-18 | a client reading the packet gets back id 0x09, then the entity id, the packed position and the destroy stage, and stops at its end |
| PlayWorld.EncodeBlockChange | minecraft/proto/play/world.go:29-33 | appends exactly the packet's bytes: packet id 0x0C, then the packed position and the block state id, in that order |
| PlayWorld.BlockChangeLayout | minecraft/proto/play/world.go:29-33 | the packet's length, and the offset at which each field's bytes sit |
| PlayWorld.BlockChangeReadsBack | minecraft/proto/play/world.go:29-33 | a client reading the packet gets back id 0x0C, then the packed position and the block state id, and stops at its end |
| PlayWorld.PackedXZInSection | minecraft/proto/play/world.go:54 | for X and Z below 16 the packed byte is X * 16 + Z |
| PlayWorld.PackedXZCollides | minecraft/proto/play/world.go:54 | outside 0..15 two different records share a first byte (X 1, Z 0 and X 0, Z 16 both give 0x10) |
| PlayWorld.EncodeRecord | minecraft/proto/play/world.go:54-56 | appends one record: the packed X and Z, the Y byte and the state id as a varint |
| PlayWorld.EncodeMultiBlockChange | minecraft/proto/play/world.go:48-58 | appends packet id 0x10, the chunk coordinates as ints, the record count and every record in order |
| PlayWorld.RecordAt | minecraft/proto/play/world.go:54-56 | the client's reading of one record consumes at least one byte and stays within the data |
| PlayWorld.RecordsAt | minecraft/proto/play/world.go:53-57 | reading n records gives exactly n and stays within the data |
| PlayWorld.RecordReadsBack | minecraft/proto/play/world.go:54-56 | a record whose X and Z are below 16 reads back as itself |
| PlayWorld.RecordsReadBack | minecraft/proto/play/world.go:53-57 | a list of such records reads back as the same list, in order |
| PlayWorld.MultiBlockChangeLayout | minecraft/proto/play/world.go:48-58 | the packet's length, and the offset at which each field's bytes sit |
| PlayWorld.HeaderReadsBack | minecraft/proto/play/world.go:49-52 | the packet id, the chunk coordinates and the record count read back |
| PlayWorld.MultiBlockChangeReadsBack | minecraft/proto/play/world.go:48-58 | Multi Block Change reads back as the chunk coordinates, the count and the records, when every record's X and Z are below 16 |
| PlayWorld.EncodeUnloadChunk | minecraft/proto/play/world.go:65-69 | appends exactly the packet's bytes: packet id 0x1E, then both chunk coordinates as signed 32-bit integers, negative ones included, in that order |
| PlayWorld.UnloadChunkLayout | minecraft/proto/play/world.go:65-69 | the packet's length, and the offset at which each field's bytes sit |
| PlayWorld.UnloadChunkReadsBack | minecraft/proto/play/world.go:65-69 | a client reading the packet gets back id 0x1E, then both chunk coordinates as signed 32-bit integers, negative ones included, and stops at its end |
| PlayWorld.EncodeUpdateViewPosition | minecraft/proto/play/world.go:76-80 | appends exactly the packet's bytes: packet id 0x41, then both chunk coordinates as varints, in that order |
| PlayWorld.UpdateViewPositionLayout | minecraft/proto/play/world.go:76-80 | the packet's length, and the offset at which each field's bytes sit |
| PlayWorld.UpdateViewPositionReadsBack | minecraft/proto/play/world.go:76-80 | a client reading the packet gets back id 0x41, then both chunk coordinates as varints, and stops at its end |
| PlayWorld.EncodeTimeUpdate | minecraft/proto/play/world.go:87-91 | appends exactly the packet's bytes: packet id 0x4F, then the world age and the time of day as signed 64-bit integers, in that order |
| PlayWorld.TimeUpdateLayout | minecraft/proto/play/world.go:87-91 | the packet's length, and the offset at which each field's bytes sit |
| PlayWorld.TimeUpdateReadsBack | minecraft/proto/play/world.go:87-91 | a client reading the packet gets back id 0x4F, then the world age and the time of day as signed 64-bit integers, and stops at its end |
| Readers.BytesAt | minecraft/reader.go:22-29 | a successful read of `size` bytes takes exactly that many and ends within the data |
| Readers.UnsignedAt | minecraft/reader.go:50-52 | a k-byte unsigned read yields a value below 256^k and advances exactly k bytes |
| Readers.VarAt | minecraft/reader.go:98-134 | each iteration of the varint loop ends strictly after where it started and within the data |
| Readers.VarintAt | minecraft/reader.go:98-115 | a varint read consumes at least one byte and stays within the data |
| Readers.VarlongAt | minecraft/reader.go:117-134 | a varlong read consumes at least one byte and stays within the data |
| Readers.StringAt | minecraft/reader.go:78-84 | a string read consumes at least its length prefix and stays within the data |
| Readers.PositionAt | minecraft/reader.go:142-144 | a position read advances exactly 8 bytes |
| Readers.Int32At | minecraft/reader.go:98-115 | a varint kept as an int32 consumes at least one byte and stays within the data |
| Readers.BytesRoundTrip | minecraft/reader.go:22-29 | raw bytes read back as themselves |
| Readers.ByteRoundTrip | minecraft/reader.go:42-44 | a single byte reads back as itself |
| Readers.BooleanRoundTrip | minecraft/reader.go:31-40 | a written boolean reads back as itself |
| Readers.SignedRoundTrip | minecraft/reader.go:46-64 | a k-byte two's complement number in range reads back as itself |
| Readers.UnsignedRoundTrip | minecraft/reader.go:50-68 | a k-byte unsigned number below 256^k reads back as itself |
| Readers.ShortRoundTrip | minecraft/reader.go:46-48 | every int16, negative ones included, reads back as itself |
| Readers.IntRoundTrip | minecraft/reader.go:54-56 | every int32 reads back as itself |
| Readers.LongRoundTrip | minecraft/reader.go:62-64 | every int64 reads back as itself |
| Readers.FloatRoundTrip | minecraft/reader.go:70-72 | a float32 reads back as the same 32-bit pattern |
| Readers.DoubleRoundTrip | minecraft/reader.go:74-76 | a float64 reads back as the same 64-bit pattern |
| Readers.VarAtEncoding | minecraft/reader.go:98-115 | the varint loop's invariant: after n groups worth acc, the encoding of w completes acc + w * 2^(7n) |
| Readers.VarAtStep | minecraft/reader.go:101-114 | an iteration that sees the continuation bit goes on to the next byte with the group added |
| Readers.VarAtStop | minecraft/reader.go:101-114 | the iteration that sees no continuation bit returns the accumulated value, read as signed |
| Readers.VarAtTooLong | minecraft/reader.go:107-109 | continuation bits on every byte up to the limit make the loop panic with its too-big message |
| Readers.VarintTooLong | minecraft/reader.go:107-109 | five bytes with the continuation bit set make ReadVarint panic with "Varint is too big" |
| Readers.VarintHead | minecraft/reader.go:102-111 | the first byte of a varint carries its low seven bits and its continuation bit says whether more groups follow |
| Readers.VarintTail | minecraft/reader.go:102-114 | the bytes after the first are the varint of the remaining groups |
| Readers.VarintRoundTrip | minecraft/reader.go:98-115 | ReadVarint inverts WriteVarint for every non-negative int32 |
| Readers.VarintReadsBack | minecraft/reader.go:98-115 | the same, ending where the caller says the varint ends |
| Readers.VarintFixedRoundTrip | minecraft/reader.go:98-115 | ReadVarint reads any int32, negative ones included, back from the varint of its 32-bit pattern |
| Readers.VarintPatternRoundTrip | minecraft/reader.go:98-115 | the varint of a 32-bit pattern reads back as the pattern's signed value |
| Readers.PatternSigned | minecraft/reader.go:104 | an int32 is the signed value of its 32-bit pattern |
| Readers.VarlongRoundTrip | minecraft/reader.go:117-134 | ReadVarlong inverts WriteVarlong for every non-negative int64 |
| Readers.Int32RoundTrip | minecraft/reader.go:98-115 | a non-negative int32 written as a varint reads back as itself |
| Readers.StringRoundTrip | minecraft/reader.go:78-84 | ReadString inverts WriteString exactly when the string fits the limit, and panics "String is too large!" otherwise |
| Readers.StringReadsBack | minecraft/reader.go:78-84 | a string within the limit reads back, ending where the caller says |
| Readers.ChatAtRejectsShortChat | minecraft/reader.go:86-92 | as written, the chat "{}" at the end of a packet makes ReadChat panic, because it takes 32767 bytes whatever the length says |
| Readers.ChatRoundTrip | minecraft/reader.go:86-92 | the corrected ReadChat, taking the announced number of bytes, inverts WriteChat for JSON of at most 32767 bytes |
| Readers.ChatReadsBack | minecraft/reader.go:86-92 | the same, ending where the caller says |
| Readers.PositionRoundTrip | minecraft/reader.go:142-144 | a position in the packed range reads back as itself through the client's decoding |
| Readers.Reader.constructor | minecraft/reader.go:11-14 | a reader starts at offset 0 of its data |
| Readers.Reader.Read | minecraft/reader.go:16-20 | copies min(n, remaining) bytes from the offset, advances by that count and never fails |
| Readers.Reader.ReadBytes | minecraft/reader.go:22-29 | returns the bytes BytesAt specifies and advances past them, or panics "Got to end of packet!" |
| Readers.Reader.ReadBoolean | minecraft/reader.go:31-40 | 1 is true, 0 is false, any other byte panics |
| Readers.Reader.ReadByte | minecraft/reader.go:42-44 | returns the next byte and advances by one |
| Readers.Reader.ReadFixed | minecraft/reader.go:46-76 | the fixed-width reads: k bytes taken as a big-endian number, two's complement when signed |
| Readers.Reader.ReadShort | minecraft/reader.go:46-48 | a big-endian int16 |
| Readers.Reader.ReadUShort | minecraft/reader.go:50-52 | a big-endian uint16 |
| Readers.Reader.ReadInt | minecraft/reader.go:54-56 | a big-endian int32 |
| Readers.Reader.ReadUInt | minecraft/reader.go:58-60 | a big-endian uint32 |
| Readers.Reader.ReadLong | minecraft/reader.go:62-64 | a big-endian int64 |
| Readers.Reader.ReadULong | minecraft/reader.go:66-68 | a big-endian uint64 |
| Readers.Reader.ReadFloat | minecraft/reader.go:70-72 | the 32-bit pattern of a float32 |
| Readers.Reader.ReadDouble | minecraft/reader.go:74-76 | the 64-bit pattern of a float64 |
| Readers.Reader.ReadVar | minecraft/reader.go:98-134 | the loop shared by ReadVarint and ReadVarlong returns what VarAt specifies |
| Readers.Reader.ReadVarint | minecraft/reader.go:98-115 | returns the varint VarintAt specifies, or panics after five bytes |
| Readers.Reader.ReadVarlong | minecraft/reader.go:117-134 | returns the varlong VarlongAt specifies, or panics after ten bytes |
| Readers.Reader.ReadString | minecraft/reader.go:78-84 | returns the string StringAt specifies, or panics when it is too long or runs past the end |
| Readers.Reader.ReadChat | minecraft/reader.go:86-92 | returns what ChatAt, the as-written reading, specifies |
| Readers.Reader.ReadIdentifier | minecraft/reader.go:94-96 | a string of at most 32767 bytes |
| Readers.Reader.ReadPosition | minecraft/reader.go:142-144 | reads a uint64 and unpacks it with ParsePosition as written |
| Readers.Reader.ReadAngle | minecraft/reader.go:146-148 | an angle is one byte |
| Readers.Reader.ReadUUID | minecraft/reader.go:150-153 | the 16 raw bytes of the UUID |
| Readers.Reader.ReadUUIDFromString | minecraft/reader.go:155-157 | the UUID's text, a string of at most 36 bytes |
| Ticker.InsertPos | game/ticker.go:27-34 | the insertion point lies after every object waiting for the same or an earlier tick and at the first object waiting for a later one |
| Ticker.InsertPosIs | game/ticker.go:27-34 | that point is the only position with those two properties |
| Ticker.Inserted | game/ticker.go:26-35 | insertion lengthens the list by one |
| Ticker.InsertedKeepsSorted | game/ticker.go:26-35 | inserting into a list sorted by target tick keeps it sorted |
| Ticker.InsertedIsPermutation | game/ticker.go:26-35 | insertion adds exactly the new object and loses none |
| Ticker.InsertedKeepsOrder | game/ticker.go:26-35 | removing the new object gives back the old list, so the others keep their relative order |
| Ticker.InsertedAfterEquals | game/ticker.go:29 | an object lands after every object waiting for the same tick (first in, first out) and, in a sorted list, before every later one |
| Ticker.DueCount | game/ticker.go:43-53 | the run of objects removed is the leading run waiting for exactly the current tick, and stops at the first that does not |
| Ticker.DueCountIs | game/ticker.go:43-53 | that run length is the only one with those properties |
| Ticker.DueAreAllDue | game/ticker.go:41-54 | in a sorted list with nothing overdue, the objects run are exactly those waiting for the current tick |
| Ticker.OverdueBlocks | game/ticker.go:47-52 | an overdue object at the head of the list stops the drain at once, so nothing behind it runs |
| Ticker.OtherTickNotDue | game/ticker.go:47-52 | an object registered for a tick other than the current one is never in the run the drain removes (nothing advances `currentTick`, line 15) |
| Ticker.Callbacks | game/ticker.go:48 | the callbacks fired are those of the objects, one per object, in order |
| Ticker.Scheduler.constructor | game/ticker.go:15-20 | the scheduler starts at tick 0 with an empty list |
| Ticker.Scheduler.Insert | game/ticker.go:26-35 | the list becomes Inserted of the old list, and the current tick is unchanged |
| Ticker.Scheduler.TickScheduled | game/ticker.go:41-54 | the callbacks of the leading due objects fire in order and exactly those objects are removed; the rest of the list is kept |
| Ticker.Scheduler.RegisterForTick | game/ticker.go:56-61 | schedules the callback for the current tick plus the delay, inserted as Insert does |
| Worlds.ChunkCoord | minecraft/world/world.go:96-97 | the arithmetic shift by 4 gives the chunk whose 16 columns contain the coordinate, negative ones included |
| Worlds.LocalCoord | minecraft/world/world.go:99 | the mask 0xf gives the offset within that chunk, 0 to 15, and chunk * 16 + offset is the coordinate |
| Worlds.CoordsDetermine | minecraft/world/world.go:96-99 | two world coordinates with the same chunk and local coordinate are equal |
| Worlds.World.constructor | minecraft/world/world.go:57-63 | a new world has the given provider and generator and no chunk loaded |
| Worlds.World.GetChunk | minecraft/world/world.go:66-71 | returns a chunk exactly when the position is cached, and then the cached one; nothing is loaded |
| Worlds.World.LoadChunk | minecraft/world/world.go:75-93 | returns the cached chunk unchanged if there is one, else caches and returns the provider's, else a newly generated flatgrass chunk; what the world reports does not change |
| Worlds.World.CacheProvided | minecraft/world/world.go:83-86 | caching the provider's chunk changes nothing the world reports |
| Worlds.World.CacheGenerated | minecraft/world/world.go:90-92 | caching a newly generated chunk changes nothing the world reports |
| Worlds.World.GetBlockState | minecraft/world/world.go:95-100 | returns the state the world reports at the position, loading its chunk |
| Worlds.World.SetBlockState | minecraft/world/world.go:102-107 | afterwards the world reports the new state at that position and the old state, sky light and block light everywhere else |
| Worlds.World.SetInChunk | minecraft/world/world.go:105-106 | storing the state in the cached chunk changes what the world reports at that one position only |
| Worlds.World.GetSkyLight | minecraft/world/world.go:109-114 | returns the sky light the world reports at the position |
| Worlds.World.SetSkyLight | minecraft/world/world.go:116-121 | stores the low four bits of the light at the position; block light and states everywhere, and sky light elsewhere, are unchanged |
| Worlds.World.SkyLightInChunk | minecraft/world/world.go:119-120 | only the chunk's own sky light changes, at one position |
| Worlds.World.GetBlockLight | minecraft/world/world.go:123-128 | returns the block light the world reports at the position |
| Worlds.World.SetBlockLight | minecraft/world/world.go:130-135 | stores the low four bits of the light at the position; sky light and states everywhere, and block light elsewhere, are unchanged |
| Worlds.World.BlockLightInChunk | minecraft/world/world.go:133-134 | only the chunk's own block light changes, at one position |
| Writers.VarintFraming | minecraft/writer.go:89-101 | a varint is self-delimiting: every byte but the last has the continuation bit, the last does not |
| Writers.VarintLength | minecraft/writer.go:89-101 | a number below 2^(7k) takes at most k bytes, and one byte exactly when it is below 128 |
| Writers.VarintLength16 | common/varint.go:3-16 | the varint of a 16-bit number takes 1, 2 or 3 bytes, as the number is below 128, below 16384 or not |
| Writers.VarintLoopNonNegative | minecraft/writer.go:89-101 | for a non-negative value the loop as written stops after one iteration per byte, having written the value's varint |
| Writers.VarintLoopNegative | minecraft/writer.go:89-101 | for a negative value the arithmetic shift never reaches zero, so the loop as written never stops |
| Writers.Writer.constructor | minecraft/writer.go:11-13 | a new writer holds no bytes |
| Writers.Writer.Bytes | minecraft/writer.go:15-17 | returns everything written so far |
| Writers.Writer.WriteBytes | minecraft/writer.go:19-21 | appends the bytes as they are |
| Writers.Writer.WriteBoolean | minecraft/writer.go:23-29 | appends 1 for true and 0 for false |
| Writers.Writer.WriteByte | minecraft/writer.go:31-33 | appends the byte |
| Writers.Writer.WriteShort | minecraft/writer.go:35-37 | appends the 2-byte big-endian two's complement |
| Writers.Writer.WriteUShort | minecraft/writer.go:39-41 | appends the 2-byte big-endian value |
| Writers.Writer.WriteInt | minecraft/writer.go:43-45 | appends the 4-byte big-endian two's complement |
| Writers.Writer.WriteUInt | minecraft/writer.go:47-49 | appends the 4-byte big-endian value |
| Writers.Writer.WriteLong | minecraft/writer.go:51-53 | appends the 8-byte big-endian two's complement |
| Writers.Writer.WriteULong | minecraft/writer.go:55-57 | appends the 8-byte big-endian value |
| Writers.Writer.WriteFloat | minecraft/writer.go:59-61 | appends the float32's 32-bit pattern, big-endian |
| Writers.Writer.WriteDouble | minecraft/writer.go:63-65 | appends the float64's 64-bit pattern, big-endian |
| Writers.Writer.WriteString | minecraft/writer.go:67-70 | appends the length as a varint, then the bytes |
| Writers.Writer.WriteChat | minecraft/writer.go:72-85 | appends the JSON's length as a varint, then the JSON |
| Writers.Writer.WriteVarint | minecraft/writer.go:89-101 | for a non-negative value, appends its varint |
| Writers.Writer.WriteVarintFixed | minecraft/writer.go:89-101 | for every int32, appends the varint of its 32-bit pattern, which ReadVarint reads back (Readers.VarintFixedRoundTrip) |
| Writers.Writer.WriteVarlong | minecraft/writer.go:103-115 | for a non-negative value, appends its varint |
| Writers.Writer.WritePosition | minecraft/writer.go:121-123 | appends the packed position as an unsigned long |
| Writers.Writer.WriteAngle | minecraft/writer.go:125-127 | appends the angle's byte |
| Writers.Writer.WriteUUID | minecraft/writer.go:129-132 | appends the UUID's 16 raw bytes |
| Writers.Writer.WriteUUIDAsString | minecraft/writer.go:134-138 | appends the 36-byte text of the UUID with its length prefix |
| Bytes.BigEndian | minecraft/writer.go:35-57 | the k-byte encoding has exactly k bytes |
| Bytes.UnsignedOfBigEndian | minecraft/reader.go:50-68 | decoding k big-endian bytes gives the value modulo 256^k |
| Bytes.BigEndianOfUnsigned | minecraft/reader.go:50-68 | encoding the decoded value again gives the same bytes |
| Bytes.UnsignedRoundTrip | minecraft/reader.go:50-68 | a value below 256^k survives encoding and decoding |
| Bytes.SignedRoundTrip | minecraft/reader.go:46-64 | every value in the k-byte two's complement range survives encoding and signed decoding |

## Left out

- Worlds.World.constructor: world.go takes the provider and the generator as interfaces. Here the provider is a map from chunk positions to chunks, and the generator is always the flat-grass generator. The `sync.Map` cache is a plain map, so concurrent access is not modelled.
- Worlds.World.LoadChunk: the provider has no file I/O; a position it does not hold stands for the provider returning nil.
- Worlds.World.GetBlockState: a y outside 0..255 indexes past the 16 sections at minecraft/chunk/chunk.go:62, an index-out-of-range panic in the source. The model requires the y away rather than returning an error.
- Worlds.World.SetBlockState: the same for a y outside 0..255, which panics at minecraft/chunk/chunk.go:71.
- Worlds.World.GetSkyLight: a y outside -16..271 indexes past the 18 light sections at minecraft/chunk/chunk.go:108, an index-out-of-range panic in the source. The model requires the y away.
- Worlds.World.SetSkyLight: the same for a y outside -16..271, which panics at minecraft/chunk/chunk.go:124.
- Worlds.World.GetBlockLight: the same for a y outside -16..271, which panics at minecraft/chunk/chunk.go:146.
- Worlds.World.SetBlockLight: the same for a y outside -16..271, which panics at minecraft/chunk/chunk.go:162.
- Chunks.Chunk.SetBlockState: the chunk's own accessors also require x and z in 0..15. In the source an x or z outside that range either panics or, through `getSectionBlockIndex`, addresses another block of the section. `Chunks.Chunk.GetBlockState`, `GetSkyLight`, `SetSkyLight`, `GetBlockLight` and `SetBlockLight` require the same, and their y ranges as the `Worlds.World` lines say. `Worlds.World` always passes in-range x and z.
- Sections.Section.GeneratePalette: an id at or above 11337 indexes past `indexMap` at minecraft/chunk/section.go:23, an index-out-of-range panic in the source. The model requires every id to lie below 11337.
- Chunks.Chunk.MakeChunkDataPacket: requires every id below 11337 for the same reason, because it builds each section's palette. So do its helpers `Chunks.Chunk.PrepareSection`, `Chunks.Chunk.SlotSize` and `Chunks.Chunk.PrepareSections`.
- Lighting.DrainSkyLight: the Go loop runs until the queue is empty, but nothing in the code bounds how long that takes. The model applies at most `fuel` updates and reports whether the queue emptied, so termination of the flood fill is not modelled.
- Lighting.DrainBlockLight: fuel-bounded in the same way. It applies the corrected block-light rule `Lighting.UpdateBlockLightFixed`; see "## Findings".
- Lighting.ProcessLightUpdates: fuel-bounded in the same way. Like `Lighting.DrainBlockLight`, it drains the block queue with the corrected rule `Lighting.UpdateBlockLightFixed`. `Lighting.LightChunk` inherits both the bound and the corrected rule.
- Ticker.Scheduler.TickScheduled: a callback is an opaque identity, and running it means recording it, in order, in the result. A callback that registers a new tick object while the list is being drained is therefore not modelled. The Go loop could meet such an object if it were due at the current tick and placed after the cursor.
- Ticker.Scheduler.RegisterForTick: game/ticker.go declares `currentTick` at line 15 and reads it at lines 47 and 58, but nothing assigns it, so it stays 0. A callback registered with a positive delay is therefore never run. The model keeps `currentTick` constant, as the source does; `Ticker.OtherTickNotDue` states the consequence.
- Ticker.Scheduler.Insert: the package globals `currentTick` and `tickedObjects` are the two fields of one `Scheduler`. The `container/list` is a sequence, and element identity is not modelled.
- Readers.Reader.ReadBytes: every `log.Panicln` and runtime panic of a read is an `Err` carrying the message. After a panic the offset is only said not to have decreased. The other `Read*` methods use the same convention.
- Handshake.HandleHandshaking: a panic is an `Err` that leaves the connection unchanged. `log.Println` output and the socket are not modelled; a queued packet stands for `player.Send`.
- Rects.NewRect: the panic on a non-positive length is an `Err`.
- RectHelpers.BoundingBoxN: the panic of `rects[0]` on an empty list is an `Err`.
- Rects.NewRectFromPoints: `float64` coordinates are reals. The comparisons and the one addition are exact, so NaN, infinities and rounding are not modelled. The same holds for every member of `Rects` and `RectHelpers`.
- Writers.Writer.WriteVarint: the Go loop shifts arithmetically and never ends for a negative value. The method therefore requires a non-negative value, and so does every packet field written with it (entity ids, counts, view positions). The corrected `Writers.Writer.WriteVarintFixed` handles every `int32`.
- Writers.Writer.WriteVarlong: requires a non-negative value, for the same reason.
- Chunks.Chunk.MakeUpdateLightPacket: chunk.go:334-335 writes X and Z with `WriteVarint`, which never finishes for a negative coordinate. The model instead writes the varint of their 32-bit patterns (`Writers.Writer.WriteVarintFixed`), so the packet is defined for every chunk.
- Writers.Writer.WriteFloat: floats and doubles are carried as their IEEE 754 bit patterns, and so are all packet fields of those types. Arithmetic on them (`ToAngle`, distances, `Entity.UpdateBounds`) is not modelled. `Writers.Writer.WriteDouble` and `Readers.Reader.ReadFloat` / `ReadDouble` follow the same convention.
- Writers.Writer.WriteChat: chat components and `WriteJson` output are the JSON text as bytes. `encoding/json` and minecraft/chat.go are not part of this model. The one JSON text the model fixes is the handshake's kick reason, a constant.
- Writers.Writer.WriteUUIDAsString: the UUID's text form, which the `uuid` library renders, is a 36-byte parameter. `Readers.Reader.ReadUUIDFromString` returns the text without parsing it, and `LoginPackets.EncodeLoginSuccess` takes the text as bytes.
- OfflineUuid.OfflineUuid: MD5 is a function parameter from bytes to a 16-byte digest.
- Nbt.Quote: Go's `%q` keeps a printable non-ASCII character of a valid UTF-8 name as it is. The model writes every byte at or above 0x80 as `\x` and two hex digits, as Go does only for bytes that are not valid UTF-8. Names of ASCII bytes are quoted exactly.
- Nbt.MarshalIsNamedBytes: `NbtMarshal` and `Decode` map Go values to tags by reflection. The model replaces that mapping with a tag tree, so struct field names, tags and map keys are not modelled. The slot NBT of `PlayMenu.EncodeSlot` is such a tree too, and the error `NbtMarshal` returns there is discarded in the source and absent here.
- PlayEntity.WriteMetadata: the `IMetadata` interface is closed to the three implementations in the source (entity, living entity and player), the datatype `PlayEntity.MetadataSource`.
- Metadata.EntityMetadataWriter.WritePose: supplied by the model, as the introduction says; the pose is required to be non-negative because it is a varint.
- Blocks.TransformItemToStateId: the item and block tables, `block.FromItem` and `MinStateId` are generated code that is not part of this model. They are parameters, and items and blocks are compared by value rather than by address.
- Flatgrass.FlatgrassGenerator.GenerateChunk: the four state ids are parameters, because the block table is not part of this model.
- Lighting.UpdateBlockLight: a block's light properties come from a parameter `types`, for the same reason.
- Biomes.SimilarityCases: the biome instances that biome.go names are a parameter `Named`, and a biome's identity is its value.
- GenerateItems.Generate: the fetched records, the timestamp and `stringcase.pascalcase` are parameters. Each printed line is an element of the output, without its line break.
- Entities.FaceId: `minecraft.Face` is defined in a file that is not part of this model. Its wire numbering, 0 bottom to 5 east, is the protocol's.

## Findings

Each row names a lemma that shows the code as written going wrong on a concrete input, and the corrected definition that the rest of the model uses, with the intended property proved about it.

| source | as written | input that shows it | evidently intended | confidence | as-written member | corrected member |
|---|---|---|---|---|---|---|
| common/copact.go:47 | `Set` keeps only the top bit of the start word below the element (`>> pIndex << pIndex` with `pIndex = bits-1`) and ORs the value in | 5-bit elements, two all-ones words, `Set(12, 0)`: element 12 spills into word 1, and the low three bits of element 13 are cleared | only the element's own bits change | not executed | Common.SetWordsClobbersNext | Common.SetThenGetFixed |
| common/copact.go:65 | `Get` shifts the signed word arithmetically, and the mask applies to the second word only, since `&` binds tighter than the OR | 5-bit elements with word 0 all ones: element 12 holds `11110` yet reads as a negative number | the element's bits, read with logical shifts: for elements narrower than 64 bits an unsigned number below `2^bits` | not executed | Common.GetWordsSignExtends | Common.GetWordsFixedReads |
| minecraft/writer.go:89-101 | `WriteVarint` shifts the `int32` arithmetically, so a negative value never reaches 0 and the loop never ends | any value below 0, for example -1 | the five-byte varint of the value's 32-bit pattern, which `ReadVarint` inverts (Readers.VarintFixedRoundTrip) | not executed | Writers.VarintLoopNegative | Writers.Writer.WriteVarintFixed |
| minecraft/reader.go:86-92 | `ReadChat` reads the length prefix and then always 32767 bytes | the chat `{}` at the end of a packet, bytes `02 7b 7d`: the read runs past the end | read the prefixed length, at most 32767, as `ReadString` does | not executed | Readers.ChatAtRejectsShortChat | Readers.ChatRoundTrip |
| minecraft/types.go:23-29 | `ParsePosition` takes X as negative only when it is above 33554432 | the packed position of X = -33554432 parses as X = 33554432 | `>=`: the 26-bit two's-complement field, so parsing inverts packing | not executed | Positions.ParsePositionMissesLowest | Positions.PackOfParseFixed |
| minecraft/nbt.go:78-81 | `PushShort` writes the TAG_Byte tag id before the two-byte value | the compound `{s: short 256}` decodes as `{s: byte 1}` and stops at byte 9 of 10 | the TAG_Short tag id | not executed | NbtWriters.PushShortMisread | NbtWriters.PushShortFixedReads |
| minecraft/nbt.go:232-239 | the list encoder writes the items of an inner list without the inner list's element type and length | a list holding one list of the byte 5 marshals to `9 0 0 9 0 0 0 1 5`, which fails to decode with EOF | every list value carries its own header, as the standard layout does (14 bytes, which decode) | not executed | NbtLaws.MarshalNestedListUnreadable | NbtLaws.NestedListNamedDecodes |
| minecraft/chunk/chunk.go:280-285 | direct mode packs global state ids with the section's own bits per block, 9 to 13 | a section with more than 128 distinct ids, one of them at or above 8192: that id does not read back | the global palette's 14 bits per block | not executed | ChunkFormats.DirectModeLosesIds | ChunkFormats.SectionDataFixedReads |
| minecraft/proto/play/menu.go:22-33 | the slot is written in the layout of protocols before 1.13 (a short id, count, damage, NBT) | one stone block, `Slot(1, 1, 0, no NBT)`, reads as an empty slot under protocol 578; the empty slot gives an invalid boolean | a presence boolean, then the varint id, the count and the NBT, as server/play/menu.go:25-35 reads it | not executed | PlayMenu.SlotLayoutMisread | PlayMenu.SlotFixedReadsBack |
| minecraft/world/lighting.go:293-297 | `updateBlockLight` counts the neighbour above the top layer as 15 | a non-emitting, non-filtering cell at y = 255 in a world with no block light gets 14 | 0 above the top, as below the bottom, so a dark world stays dark | not executed | Lighting.BlockTopAsWritten | Lighting.BlockDarkStaysDark |
