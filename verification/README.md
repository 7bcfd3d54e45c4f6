# The integer side of libmp3lame 3.98.4

This project models what libmp3lame does between the quantized spectrum and the bytes of an MP3 file, and proves
what its comments, assertions and fatal-error checks promise.  The psychoacoustic model, the transforms and the noise
measurements are arbitrary inputs; everything after them is here:

- **The bit stream** (`Framing`, `Output`, `Bitstream`, `SideInfo`, `Crc`, `Frames`): main data is one continuous
  stream of bits, into which the ring of queued headers is spliced at the frame boundaries while `main_data_begin`
  points backwards.  `Framing.Layout` says what the stream is, `Framing.Demux` and `Stream` are a reader that knows only
  section 2.4.1.7 and 2.4.2.7 of ISO/IEC 11172-3, and the class `Bitstream.Formatter` keeps the stream, the ring and the
  counters in step bit by bit.
- **The bit reservoir** (`Reservoirs`, `Quantizing`, `VbrFrame`, `Loops`, `Failures`): how bits are allotted, used, saved
  and drained, for constant, variable and average bit rate, and when the code's own checks on that hold.
- **The entropy coder** (`Tables`, `CodeWords`, `Huffman`, `CodeWriter`, `Counting`, `Takehiro`, `Scalefac`, `Finish`):
  the code tables are decodable, what is counted is what is written, and the searches for cheaper divisions of the spectrum
  and cheaper scalefactor storage lose nothing and leave nothing of what they try.
- **The gain solver of VBR** (`VbrGain`, `VbrSearch`, `VbrFind`): which gains a granule can store, and how they are made
  coarser until the granule fits.
- **Whole runs** (`Runs`): any sequence of frames in any mix of modes, ended by a flush; the bytes that come out are read
  back to the headers, scalefactors, quantized values and signs that went in.
- **Stream accounting** (`SeekTable`, `ReplayGain`, `Gapless`, `MusicCrc`): seek table, ReplayGain, sample counts, padding
  and checksum are kept exactly however long the stream is and however it is cut into calls.
- **Tags** (`Tag`, `TaggedFile`, `Id3`, with `Buffers`): the tag frame is read back to the numbers it was made from, so
  that a player can cut the stream to the samples that were fed; the ID3v2 tag has the size told in advance and all its
  frames.
- **Searches** (`Search`): for a step size and, in the old VBR mode, for a number of bits.

Where the source changes state in place, the model does: `Bitstream.Formatter`, `Frames.Writer`, `Reservoirs.Reservoir`,
`Takehiro.Divider`, `VbrSearch.Solver`, `SeekTable.Bag`, `ReplayGain.Analyzer` and the others are classes whose methods
are proved against functions and predicates on values.  A granule's `gr_info` is the value `Granule.GrInfo` in the mutable
cell `Granule.GrState`.

## Reading order

`Framing` and `SideInfo` first, then `Stream` for the reader; `Frames` for what format_bitstream keeps; `Loops` and `Runs`
for whole runs.  `Huffman.SpectrumBack`, `Takehiro.Divider.BestHuffmanDivide` and `Scalefac.BestScalefacStore` carry the
entropy coder, `VbrGain.ConstrainedIsSafe` and `VbrSearch.Solver.OutOfBitsStrategy` the gain solver.  `Examples` has single granules on which the
searches find something.

Verify with `dafny verify dfyconfig.toml` (Dafny 4.11).

## Findings about the code

- The header ring has 256 slots.  Every setting leaves enough room per frame for it except one (MPEG-2, 24 kHz, 8 kbit/s,
  two channels, protected, no padding), whose frames have room for a single byte: `Frames.OneByteRoomOverruns` shows, on the
  ring as `Output.Ring` describes it, that 255 frames without data may be pending and that one more with a byte wraps onto a
  header still pending.  The code only prints an error then.
- `searchGlobalStepsizeMax`, the last resort of `outOfBitsStrategy`, cannot find anything: when it is reached, all bands
  already have gain 255.  So the strategy ends within its target exactly if that coarsest distribution does
  (`VbrSearch.Solver.StuckExactly`).
- `bitcount` never ends the program, because mixed blocks are never made; for a mixed block it would whenever scalefactor 17
  is above 7 (`VbrGain.MixedBlocks`).
- The assertion at the end of `ABR_iteration_loop` fails if granules in analog silence, whose bits are set after the targets
  have been cut to the frame, take the total too high.  It holds if and only if the bits used are no more than the
  reservoir and the frame of some allowed bit rate, so whenever all the targets together are; a quantizer that uses its
  targets to the full fails beyond that (`Loops.AbrIterationLoop`).  `Failures.AbrAssertionFails` is such a run: one channel
  at 44.1 kHz and 32 kbit/s with targets of 830 and 332 bits, the second granule silent.
- The internal error at the end of `VBR_new_iteration_loop` never happens, and error 1313 at the end of `VBR_encode_frame`
  never happens after the assertion before it.  That assertion holds if and only if the first pass keeps the bit constraints
  or the second keeps every granule within its share (`VbrFrame.VbrEncodeFrame`); it can fail only if for some granule even
  the coarsest gains take more than its share (`VbrFrame.FailsOnlyCoarsest`), and `Failures.VbrAssertionFails` is such a run.
- The fallback of `VBR_encode_frame` to the targets, for shares that break a constraint, is never needed with exact roots
  (`VbrFrame.NeverFallsBack`).
- `choose_table` is documented to give the fewest bits.  It does so for every region with maximum m if and only if m is 0 or
  above 15 (`Counting.FewestExactly`); for every m from 1 to 15 there is a region that another table codes in fewer, for 1 the
  pair 1, 1, which table 1 codes in 5 bits and table 3 in 4 (`Counting.SmallNotFewest`).
- `VBR_encode_granule` is documented to search within about 40 bits of the optimum; what holds is that a target less than 76
  bits below the result has failed (`Search.VbrGranule.EncodeGranule`), and the 76 are reached: between 126 and 364 bits,
  where 170 are enough, it ends with 245 (`Search.GapReached`).
- A comment in the ID3v2 list is taken for the same as a new one as soon as its descriptor is a beginning of the new one's, so
  a comment without a descriptor is overwritten by any with one (`Id3.LostExactly`, `Id3.LostComment`).  A value "COMM=..."
  is written without the language and descriptor that comment frames have (`Id3.CustomComment`, `Id3.CustomCommentLost`).
- `setLang` never comes to its blanks: a language is padded to three characters with them if and only if it has neither one
  nor two letters (`Id3.PaddedExactly`); "en" gets a zero (`Id3.TwoLetters`).
- The size of an ID3v2 tag is told in 28 bits; from 256 MB on, `skipId3v2` skips less than the tag (`Id3.SkipExactly`).

## Model

| member | source | states |
|---|---|---|
| Framing.DemuxLayout | mp3recorder/src/main/jni/lame-3.98.4_libmp3lame/bitstream.c:86-136 | Cutting the stream at the frame sizes gives back every header once and in order, and the main data without a gap. |
| Bitstream.Formatter.PutBits2 | mp3recorder/src/main/jni/lame-3.98.4_libmp3lame/bitstream.c:105-136 | Appends exactly the low `j` bits of `val`, most significant first, across byte and header boundaries; the stream is the layout of frames and main data before and after. |
| Bitstream.Formatter.PutHeaderBits | mp3recorder/src/main/jni/lame-3.98.4_libmp3lame/bitstream.c:87-98 | Splices the pending header into the stream, whole, and moves to the next. |
| Bitstream.Formatter.WriteNext | mp3recorder/src/main/jni/lame-3.98.4_libmp3lame/bitstream.c:221-234 | Appends one field to the header being queued, without touching the headers queued before. |
| Bitstream.Formatter.QueueHeader | mp3recorder/src/main/jni/lame-3.98.4_libmp3lame/bitstream.c:416-434 | A complete header is queued with the write time of its frame, and the ring has the time of the next. |
| Bitstream.Formatter.DrainIntoAncillary | mp3recorder/src/main/jni/lame-3.98.4_libmp3lame/bitstream.c:178-217 | Writes exactly the bits asked for: the version text as far as it fits, then alternating or constant filling. |
| Bitstream.AncillarySays | mp3recorder/src/main/jni/lame-3.98.4_libmp3lame/bitstream.c:184-210 | The unused bits spell LAME and the version, letter by letter. |
| Bitstream.Formatter.ComputeFlushbits | mp3recorder/src/main/jni/lame-3.98.4_libmp3lame/bitstream.c:745-801 | The number of bits that would complete every queued frame, and the bytes that makes. |
| Bitstream.Formatter.AddDummyByte | mp3recorder/src/main/jni/lame-3.98.4_libmp3lame/bitstream.c:862-873 | Tag bytes go between frames: all write times move with them, and the audio stream is unchanged. |
| Bitstream.Formatter.CopyBuffer | mp3recorder/src/main/jni/lame-3.98.4_libmp3lame/bitstream.c:967-977 | Hands out the bytes buffered so far once and in order, or -1 if they do not fit. |
| Bitstream.Formatter.ResetCounter | mp3recorder/src/main/jni/lame-3.98.4_libmp3lame/bitstream.c:942-949 | Subtracting from the bit counter and all write times changes nothing that is observed. |
| Output.RingPush | mp3recorder/src/main/jni/lame-3.98.4_libmp3lame/bitstream.c:421-434 | Queueing one more header keeps every header and write time already in the ring. |
| Output.Pending | mp3recorder/src/main/jni/lame-3.98.4_libmp3lame/util.h:346-353 | With at least `room` bits in every frame, few enough bits short of complete mean few enough headers pending. |
| Frames.OneByteRoomOverruns | mp3recorder/src/main/jni/lame-3.98.4_libmp3lame/util.h:346-353 | The one setting with a single byte of room: 255 frames without data are pending with the reservoir just at its limit, and one more with a byte of data overwrites the time of the first. |
| FrameSizes.SmallestRoom | mp3recorder/src/main/jni/lame-3.98.4_libmp3lame/util.h:346-353 | Every frame has room for main data: at least 58 bytes in MPEG-1, at least one in MPEG-2, and just one in exactly one setting. |
| FrameSizes.TablesFollow | mp3recorder/src/main/jni/lame-3.98.4_libmp3lame/tables.c:526-536 | The rate tables in formulas: four bit rates between any two powers of two in MPEG-1, steps of eight and sixteen in MPEG-2, sampling rates halved from each version to the next. |
| SideInfo.HeaderBack | mp3recorder/src/main/jni/lame-3.98.4_libmp3lame/bitstream.c:270-434 | Header and side information are read back from their bits, whatever follows; and the first 32 bits are those of a Layer III header, in the places and with the numbers of the standard. |
| SideInfo.HeadIsLayerThree | mp3recorder/src/main/jni/lame-3.98.4_libmp3lame/bitstream.c:276-304 | Twelve ones, or eleven and a zero in MPEG-2.5; the version; 01 for Layer III; and each setting in its place. |
| SideInfo.HeaderFits | mp3recorder/src/main/jni/lame-3.98.4_libmp3lame/bitstream.c:270-434 | They take exactly sideinfo_len bytes, every field within its width. |
| Frames.Writer.EncodeSideInfo2 | mp3recorder/src/main/jni/lame-3.98.4_libmp3lame/bitstream.c:270-434 | The header queued is the encoding of the frame's header and side information, checksum included; tables 14 are renamed to 16 and nothing else in the granules changes. |
| Crc.CrcDivides | mp3recorder/src/main/jni/lame-3.98.4_libmp3lame/bitstream.c:238-250 | The update loop is division by x^16 + x^15 + x^2 + 1 of the bits, most significant first. |
| Crc.ChecksumChecks | mp3recorder/src/main/jni/lame-3.98.4_libmp3lame/bitstream.c:254-267 | The header with its checksum leaves no remainder, as a reader checks it. |
| Frames.Writer.FormatBitstream | mp3recorder/src/main/jni/lame-3.98.4_libmp3lame/bitstream.c:887-952 | After every frame compute_flushbits, ResvSize and 8 * main_data_begin are the same number and the counter is whole bytes, and the frame is told by its source: its data lies where main_data_begin points. |
| Frames.Writer.CheckAndReset | mp3recorder/src/main/jni/lame-3.98.4_libmp3lame/bitstream.c:904-949 | The checks that the code calls fatal always pass, and the counter's reset keeps everything. |
| Frames.Writer.FlushBitstream | mp3recorder/src/main/jni/lame-3.98.4_libmp3lame/bitstream.c:806-829 | Completes every queued frame and empties the reservoir. |
| Frames.Writer.WriteMainData | mp3recorder/src/main/jni/lame-3.98.4_libmp3lame/bitstream.c:629-725 | Writes exactly the main data of the frame's granules and returns its length. |
| Frames.Writer.AddDummyByte | mp3recorder/src/main/jni/lame-3.98.4_libmp3lame/bitstream.c:862-873 | Tag bytes between frames leave frames, main data and the three measures as they are. |
| Frames.Writer.RoomAfterCopy | mp3recorder/src/main/jni/lame-3.98.4_libmp3lame/bitstream.c:86-98 | With the buffer emptied after every frame, it never overflows. |
| Stream.StreamBack | mp3recorder/src/main/jni/lame-3.98.4_libmp3lame/bitstream.c:887-952 | From a complete stream, the reader gets every header and side information once and in order, and going back main_data_begin bytes finds each granule's data on its first bit. |
| Frames.Writer.FlushedIsReadable | mp3recorder/src/main/jni/lame-3.98.4_libmp3lame/bitstream.c:806-829 | After the flush a reader finds in every granule what the encoder put in, behind a Layer III header of the frame's settings. |
| CodeWords.LookupFinds | mp3recorder/src/main/jni/lame-3.98.4_libmp3lame/tables.c:34-448 | Every code word of every table is found by its bits: the tables are prefix-free with the lengths given. |
| Huffman.DecodePairBack | mp3recorder/src/main/jni/lame-3.98.4_libmp3lame/bitstream.c:508-575 | A pair is read back, escape bits and signs in the order linbits x, sign x, linbits y, sign y. |
| Huffman.DecodeQuadBack | mp3recorder/src/main/jni/lame-3.98.4_libmp3lame/bitstream.c:438-500 | A quadruple of the count1 region is read back with its signs. |
| Huffman.SpectrumBack | mp3recorder/src/main/jni/lame-3.98.4_libmp3lame/bitstream.c:583-626 | All regions together: every quantized value and the sign of every nonzero one is recovered. |
| Bitstream.Formatter.Huffmancode | mp3recorder/src/main/jni/lame-3.98.4_libmp3lame/bitstream.c:508-575 | Writes exactly the code of its region and returns its length. |
| Bitstream.Formatter.HuffmanCoderCount1 | mp3recorder/src/main/jni/lame-3.98.4_libmp3lame/bitstream.c:438-500 | Writes exactly the code of the quadruples and returns its length. |
| Bitstream.Formatter.LongHuffmancodebits | mp3recorder/src/main/jni/lame-3.98.4_libmp3lame/bitstream.c:599-626 | Writes exactly the code of the three regions of a granule that is not short. |
| Bitstream.Formatter.WriteScalefac | mp3recorder/src/main/jni/lame-3.98.4_libmp3lame/bitstream.c:640-658 | Writes exactly the scalefactors that are not shared, each as wide as scalefac_compress says. |
| Granule.RenamingIsSafe | mp3recorder/src/main/jni/lame-3.98.4_libmp3lame/bitstream.c:342-350 | Renaming pseudo-table 14 to 16 changes no bit of the granule. |
| Decoder.ReadGranuleBack | mp3recorder/src/main/jni/lame-3.98.4_libmp3lame/bitstream.c:629-725 | From the side information alone, all scalefactors, values and signs of a counted granule are recovered, and the pre-emphasis that MPEG-2 does not write. |
| Counting.LargePacks | mp3recorder/src/main/jni/lame-3.98.4_libmp3lame/tables.c:452-491 | The packed sums hold the lengths of tables 16 and 24, their escape bits apart, without carry between the lanes. |
| Counting.SmallPacks | mp3recorder/src/main/jni/lame-3.98.4_libmp3lame/tables.c:493-510 | The same for tables 2 and 3, and for tables 5 and 6. |
| Counting.Pseudo14 | mp3recorder/src/main/jni/lame-3.98.4_libmp3lame/tables.c:341-358 | Table 14 in the counters stands for table 16: same lengths. |
| Counting.CountBitEsc | mp3recorder/src/main/jni/lame-3.98.4_libmp3lame/takehiro.c:445-484 | Adds the cheaper of two escape tables' exact cost, from one sum of packed lanes. |
| Counting.CountBitNoEscFrom3 | mp3recorder/src/main/jni/lame-3.98.4_libmp3lame/takehiro.c:538-570 | The cheapest of three tables and its exact cost. |
| Counting.ChooseTable | mp3recorder/src/main/jni/lame-3.98.4_libmp3lame/takehiro.c:587-642 | The table chosen codes the region, its exact cost is added, no candidate is cheaper, and with a maximum of 0 or above 15 no table at all is. |
| Counting.FewestExactly | mp3recorder/src/main/jni/lame-3.98.4_libmp3lame/takehiro.c:576-642 | The choice has the fewest bits of all tables for every region with maximum m if and only if m is 0 or above 15. |
| Counting.SmallNotFewest | mp3recorder/src/main/jni/lame-3.98.4_libmp3lame/takehiro.c:576-642 | For every maximum from 1 to 15 a region that some table codes in fewer bits than any candidate. |
| Takehiro.Divider.CountBits | mp3recorder/src/main/jni/lame-3.98.4_libmp3lame/takehiro.c:650-755 | The division codes the spectrum, its cost is exact, both ends are as tight as can be, the regions end where huffman_init has it, and no tables tried for them code them in fewer bits. |
| Takehiro.Divider.NoquantCountBits | mp3recorder/src/main/jni/lame-3.98.4_libmp3lame/takehiro.c:650-755 | The same with best_huffman_divide called at the end. |
| Takehiro.Divider.HuffmanInit | mp3recorder/src/main/jni/lame-3.98.4_libmp3lame/takehiro.c:1316-1356 | The table has for every number of big values the regions of subdv_table, moved down exactly as far as they would not end inside the values; the region counts fit their fields. |
| Takehiro.Divider.RecalcDivideInit | mp3recorder/src/main/jni/lame-3.98.4_libmp3lame/takehiro.c:800-835 | Every row is an exactly counted division of the first two regions, and no more than what any of its divisions takes with any tables tried for them; no band edge past the last is read. |
| Takehiro.Divider.RecalcDivideSub | mp3recorder/src/main/jni/lame-3.98.4_libmp3lame/takehiro.c:838-869 | Takes another division only if it is cheaper, counts it right, and leaves no more bits than any division it looks at takes, up to the first row that alone is no cheaper. |
| Takehiro.Divider.BestHuffmanDivide | mp3recorder/src/main/jni/lame-3.98.4_libmp3lame/takehiro.c:875-946 | Never more bits, and no more than any division tried takes, with either end of the big values and any tables tried; still counted right, and the values are the same although the count1 boundary may have moved. |
| Examples.FirstDivision | mp3recorder/src/main/jni/lame-3.98.4_libmp3lame/takehiro.c:650-755 | A granule that takes 66 bits at least as huffman_init divides it... |
| Examples.CheaperDivision | mp3recorder/src/main/jni/lame-3.98.4_libmp3lame/takehiro.c:875-946 | ... and for which best_huffman_divide leaves no more than 64. |
| Takehiro.CountIsEmission | mp3recorder/src/main/jni/lame-3.98.4_libmp3lame/takehiro.c:650-755 | What is counted is the number of bits the formatter writes, for any signs. |
| Scalefac.ScaleTables | mp3recorder/src/main/jni/lame-3.98.4_libmp3lame/takehiro.c:1108-1128 | The length tables of scale_bitcount are what they stand for. |
| Scalefac.ScaleBitcount | mp3recorder/src/main/jni/lame-3.98.4_libmp3lame/takehiro.c:1130-1181 | Pre-emphasis is taken exactly if every band from 11 on has it; then the cheapest widths that hold the scalefactors, or that none do. |
| Scalefac.ScaleBitcountLsf | mp3recorder/src/main/jni/lame-3.98.4_libmp3lame/takehiro.c:1211-1308 | MPEG-2: no partition beyond its range if and only if it succeeds, and then the narrowest widths, told by scalefac_compress. |
| Scalefac.ScfsiCalc | mp3recorder/src/main/jni/lame-3.98.4_libmp3lame/takehiro.c:954-1003 | Shares exactly the groups whose scalefactors are those of granule 0 or of empty bands, so that the reader takes them unchanged, and stores the others in the fewest bits of all widths that hold them. |
| Scalefac.BestScalefacStore | mp3recorder/src/main/jni/lame-3.98.4_libmp3lame/takehiro.c:1011-1088 | The decoder's step is unchanged in every band with something in it, part2_length is what will be written and never grows, and the side information tells what is shared. The scalefactors are halved exactly if all are even and one is positive, pre-emphasis is taken exactly if all have it; and what is left is stored in the fewest bits of all widths that hold it. |
| Examples.TwosHalved | mp3recorder/src/main/jni/lame-3.98.4_libmp3lame/takehiro.c:1011-1088 | A granule stored in 32 bits, of scalefactors 2 in its lower bands, ends with scalefac_scale 1, scalefactors 1 and no more than 21 bits. |
| Finish.ReduceBitUsage | mp3recorder/src/main/jni/lame-3.98.4_libmp3lame/vbrquantize.c:1231-1256 | Storage and division together: no more bits, values, signs and steps preserved, all fields fit; the storage is as simple and the division as cheap as the two searches promise. |
| Finish.IterationFinishOne | mp3recorder/src/main/jni/lame-3.98.4_libmp3lame/quantize.c:1202-1219 | The same, and the reservoir is told exactly. |
| Reservoirs.Reservoir.ResvFrameBegin | mp3recorder/src/main/jni/lame-3.98.4_libmp3lame/reservoir.c:82-178 | The reservoir's limit keeps main_data_begin in its field and both within a decoder's buffer, and is the largest that does; so is what a frame may use. |
| Reservoirs.Reservoir.BufferIs | mp3recorder/src/main/jni/lame-3.98.4_libmp3lame/reservoir.c:139-154 | The decoder's buffer: 1440 bytes, or what 1152 samples have at 320 kbit/s, to the nearest byte. |
| Reservoirs.Reservoir.ResvMaxBits | mp3recorder/src/main/jni/lame-3.98.4_libmp3lame/reservoir.c:188-229 | Nine tenths of the reservoir's limit is where it starts to be used up, and below it a tenth of the granule's bits is saved; the extra bits are what six tenths of the limit have beyond that. Together never more than the granule and the reservoir have. |
| Reservoirs.Reservoir.ResvFrameEnd | mp3recorder/src/main/jni/lame-3.98.4_libmp3lame/reservoir.c:250-304 | The reservoir is cut to whole bytes and its limit; what is drained is what was left over, and none of it is negative. |
| Reservoirs.Reservoir.OnPe | mp3recorder/src/main/jni/lame-3.98.4_libmp3lame/quantize_pvt.c:422-481 | Each channel gets its part of the target and, by its perceptual entropy in 700ths, up to three quarters of the mean more, cut in proportion to the extra bits and to 7680. Exactly that; no channel above 4095 bits, and all within what the granule and the reservoir have. |
| Reservoirs.ReduceSide | mp3recorder/src/main/jni/lame-3.98.4_libmp3lame/quantize_pvt.c:487-539 | The side channel gives up 33 hundredths of what the energy ratio lacks to a half, as a share of all bits, but keeps 125; the mid channel gets them unless it has the granule's mean already; both are cut to the total. Exactly that. |
| Reservoirs.GivenUp | mp3recorder/src/main/jni/lame-3.98.4_libmp3lame/quantize_pvt.c:514-530 | Nothing is lost between the two channels, unless mid has the mean already. |
| Loops.CbrIterationLoop | mp3recorder/src/main/jni/lame-3.98.4_libmp3lame/quantize.c:1966-2027 | After the frame 0 <= ResvSize <= ResvMax, whole bytes, drains not negative; every granule is finished, told, and coded for the targets that on_pe and reduce_side give it with what the granules before it have left. |
| Loops.VbrNewIterationLoop | mp3recorder/src/main/jni/lame-3.98.4_libmp3lame/quantize.c:1646-1731 | With the granules as VBR_encode_frame makes them: the lowest bit rate whose frame holds the bits used, which there always is; the reservoir stays within its limits; a failure means that a granule has taken more than its share. |
| VbrFrame.Redistribute | mp3recorder/src/main/jni/lame-3.98.4_libmp3lame/vbrquantize.c:1358-1545 | The shares of the second pass: use cut to 4095, by the fourth roots within a granule of 7680, by the square roots within the frame, each truncated and evened out; whatever the roots, within 4095 bits per channel, 7680 per granule and the frame's total. |
| VbrFrame.NeverFallsBack | mp3recorder/src/main/jni/lame-3.98.4_libmp3lame/vbrquantize.c:1515-1545 | With roots that rise, but not more than in proportion, the last check of the shares never fails. |
| VbrFrame.VbrEncodeFrame | mp3recorder/src/main/jni/lame-3.98.4_libmp3lame/vbrquantize.c:1262-1593 | The first pass is taken exactly if it keeps those constraints; otherwise the second must keep every granule within its share; either way the total is within the frame's bits and every granule is finished, coded for what it was asked for. |
| VbrFrame.FailsOnlyCoarsest | mp3recorder/src/main/jni/lame-3.98.4_libmp3lame/vbrquantize.c:1577-1592 | With the search for coarser gains as quantizer it can fail only if for some granule even the coarsest take more than its share. |
| Failures.VbrAssertionFails | mp3recorder/src/main/jni/lame-3.98.4_libmp3lame/vbrquantize.c:1577-1592 | A run in which it fails. |
| Loops.ScaleTargets | mp3recorder/src/main/jni/lame-3.98.4_libmp3lame/quantize.c:1606-1615 | Cutting the targets to what a frame can hold: never above it in total, unchanged if they fit. |
| Loops.AbrIterationLoop | mp3recorder/src/main/jni/lame-3.98.4_libmp3lame/quantize.c:1879-1948 | The lowest bit rate that makes up for the bits used; the assertion that there is one holds exactly if those are no more than the reservoir and some frame, so if the targets are; always if no granule is in analog silence. |
| Failures.AbrAssertionFails | mp3recorder/src/main/jni/lame-3.98.4_libmp3lame/quantize.c:1940-1945 | A run in which there is none. |
| Failures.MoreAgain | mp3recorder/src/main/jni/lame-3.98.4_libmp3lame/quantize.c:1846-1931 | Its targets, cut to 664 bits, are 806 again with the silent granule's. |
| Runs.IterationLoop | mp3recorder/src/main/jni/lame-3.98.4_libmp3lame/quantize.c:1646-2027 | Whatever the mode, the frame's header, granules and sharing flags, and the reservoir's accounts for format_bitstream. |
| Runs.EncodeFrame | mp3recorder/src/main/jni/lame-3.98.4_libmp3lame/encoder.c:526-539 | From the quantization on: one frame more, made from its input, with the writer and the reservoir safe again. |
| Runs.EncodeStream | mp3recorder/src/main/jni/lame-3.98.4_libmp3lame/lame.c:2008-2017 | Any run of frames in any mix of modes, ended by a flush: all bytes are collected, every frame is made from its input, and it succeeds if each frame is one that cannot fail: constant bit rate, variable bit rate with a quantizer that keeps its shares, average bit rate without silent granules. |
| Runs.StreamIsReadable | mp3recorder/src/main/jni/lame-3.98.4_libmp3lame/bitstream.c:887-952 | From the bytes of any run a reader recovers every header, and in every granule the scalefactors, values and signs the quantizer made, with its steps. |
| VbrFind.FindLowestScalefac | mp3recorder/src/main/jni/lame-3.98.4_libmp3lame/vbrquantize.c:144-161 | The gain where coefficients begin to stay in range, with eight trials and a gain of 0 never tried. |
| VbrFind.LowestIsLeast | mp3recorder/src/main/jni/lame-3.98.4_libmp3lame/vbrquantize.c:144-161 | It is the least of all if coarser gains keep more in range. |
| VbrFind.FindScalefacX34 | mp3recorder/src/main/jni/lame-3.98.4_libmp3lame/vbrquantize.c:362-394 | A gain without distortion whose next does distort; or, if none tried is good, the least gain or the one above it. |
| VbrFind.BlockSf | mp3recorder/src/main/jni/lame-3.98.4_libmp3lame/vbrquantize.c:410-488 | For every band a gain no lower than its least; the maxima that the constrain functions rely on. |
| VbrGain.BestIsLeast | mp3recorder/src/main/jni/lame-3.98.4_libmp3lame/vbrquantize.c:901-941 | The way chosen (scale, pre-emphasis) needs the global gain lowered no more than any allowed way. |
| VbrGain.RangeIsMost | mp3recorder/src/main/jni/lame-3.98.4_libmp3lame/vbrquantize.c:564-576 | The ranges are the most that the widths and partitions of a scalefactor can hold. |
| VbrGain.ReachIs | mp3recorder/src/main/jni/lame-3.98.4_libmp3lame/vbrquantize.c:782-790 | How low a band can get in each way: exactly with the largest scalefactor and, in short blocks, subblock gain. |
| VbrGain.LoweredIsMost | mp3recorder/src/main/jni/lame-3.98.4_libmp3lame/vbrquantize.c:776-812 | The gain chosen is the highest from which some allowed way gets every band down to what it asks for. |
| VbrGain.SetSubblockGain | mp3recorder/src/main/jni/lame-3.98.4_libmp3lame/vbrquantize.c:591-672 | Subblock gains as large as the windows need and mingain_s allows; what they share goes to the global gain. |
| VbrGain.SubGainMeans | mp3recorder/src/main/jni/lame-3.98.4_libmp3lame/vbrquantize.c:597-655 | A subblock gain is enough for every band, unless seven or mingain_s ends it before, and no larger than some band needs or all bands want. |
| VbrGain.SetScalefacs | mp3recorder/src/main/jni/lame-3.98.4_libmp3lame/vbrquantize.c:684-723 | Each band's scalefactor is the smallest that is enough, cut to its range and to what its least gain leaves. |
| VbrGain.ScaleForMeans | mp3recorder/src/main/jni/lame-3.98.4_libmp3lame/vbrquantize.c:702-714 | That scalefactor in terms of need, room and range; without room it would be negative. |
| VbrGain.ShortBlockConstrain | mp3recorder/src/main/jni/lame-3.98.4_libmp3lame/vbrquantize.c:765-831 | The granule gets the gains of the wish and nothing else changes. |
| VbrGain.LongBlockConstrain | mp3recorder/src/main/jni/lame-3.98.4_libmp3lame/vbrquantize.c:842-973 | The same for long blocks; the branch marked impossible is. |
| VbrGain.ConstrainedIsSafe | mp3recorder/src/main/jni/lame-3.98.4_libmp3lame/vbrquantize.c:728-754 | For all wishes: every scalefactor within its range, every band at least at its least gain, gains and subblock gains within their fields. |
| VbrGain.NotCoarser | mp3recorder/src/main/jni/lame-3.98.4_libmp3lame/vbrquantize.c:842-973 | Unless mingain holds the gain up, no band is coarser than it asks for or its least gain and step force it to be; and no scalefactor is larger than that takes. |
| VbrGain.Bitcount | mp3recorder/src/main/jni/lame-3.98.4_libmp3lame/vbrquantize.c:978-994 | Never fails, and leaves every band's gain as it is. |
| VbrGain.MixedBlocks | mp3recorder/src/main/jni/lame-3.98.4_libmp3lame/vbrquantize.c:978-994 | For mixed blocks, which are never made, it would fail exactly if scalefactor 17 is above 7. |
| VbrSearch.FlattenedRaises | mp3recorder/src/main/jni/lame-3.98.4_libmp3lame/vbrquantize.c:1104-1136 | Flattening raises every gain, by more the further it goes: not at all at first, all the way in the end; so no distribution tried is below the least gains. |
| VbrSearch.FlattenedShare | mp3recorder/src/main/jni/lame-3.98.4_libmp3lame/vbrquantize.c:1104-1136 | Every gain moves by k of dm parts of its way to p, less than one step short. |
| Examples.QuarterWay | mp3recorder/src/main/jni/lame-3.98.4_libmp3lame/vbrquantize.c:1104-1136 | A band at 190 among others at 210 is at 195 with 17 of 65 parts, and not with 16. |
| VbrSearch.Solver.TryThatOne | mp3recorder/src/main/jni/lame-3.98.4_libmp3lame/vbrquantize.c:1140-1150 | The gains for the distribution, all storable, and their cost. |
| VbrSearch.Solver.FlattenToFit | mp3recorder/src/main/jni/lame-3.98.4_libmp3lame/vbrquantize.c:1164-1193 | Ends with a flattening that fits while the one before does not, for any cost function; or the last does not fit. |
| VbrSearch.Solver.LevelToFit | mp3recorder/src/main/jni/lame-3.98.4_libmp3lame/vbrquantize.c:1195-1222 | The same over levels. |
| VbrSearch.Solver.SearchGlobalStepsizeMax | mp3recorder/src/main/jni/lame-3.98.4_libmp3lame/vbrquantize.c:1040-1069 | Ends at the first shift it is content with, or half-way if it is content with none. |
| VbrSearch.Solver.OutOfBitsStrategy | mp3recorder/src/main/jni/lame-3.98.4_libmp3lame/vbrquantize.c:1154-1227 | Every distribution tried respects the least gains; returning early means the bits are within the target; otherwise even the coarsest gains take more. |
| VbrSearch.Solver.LeastFlattening | mp3recorder/src/main/jni/lame-3.98.4_libmp3lame/vbrquantize.c:1164-1193 | If coarser gains never take more bits, part 1 leaves the smallest flattening that fits. |
| VbrSearch.Solver.LeastLevel | mp3recorder/src/main/jni/lame-3.98.4_libmp3lame/vbrquantize.c:1195-1222 | Under the same condition part 2 is reached only if no flattening fits, and leaves the lowest level that does. |
| VbrSearch.Solver.StuckExactly | mp3recorder/src/main/jni/lame-3.98.4_libmp3lame/vbrquantize.c:1224-1226 | The target is met if and only if the coarsest gains meet it. |
| VbrFind.FitGranule | mp3recorder/src/main/jni/lame-3.98.4_libmp3lame/vbrquantize.c:1313-1322 | The gains of one granule from the least gains to the ones it ends with: within the target, or at the coarsest. |
| VbrFind.EncodeGranule | mp3recorder/src/main/jni/lame-3.98.4_libmp3lame/vbrquantize.c:1550-1577 | After reduce_bit_usage the granule is within its target unless even the coarsest gains take more, as the source asserts, and is counted right. |
| VbrFind.SecondPass | mp3recorder/src/main/jni/lame-3.98.4_libmp3lame/vbrquantize.c:1550-1577 | The second pass for a granule: within its share unless the coarsest gains of all take more, which is what `VbrFrame.Strategic` asks for. |
| SeekTable.Bag.AddVbr | mp3recorder/src/main/jni/lame-3.98.4_libmp3lame/VbrTag.c:123-147 | After any number of frames the bag has the running sum after every `want` frames, `want` a power of two, fewer than `want` seen since: the halving in place loses nothing. |
| SeekTable.Bag.XingSeekTable | mp3recorder/src/main/jni/lame-3.98.4_libmp3lame/VbrTag.c:150-170 | Each entry is the share of the bitrate sum up to its hundredth of the groups; the table never falls and never exceeds 255. |
| SeekTable.EntrySays | mp3recorder/src/main/jni/lame-3.98.4_libmp3lame/VbrTag.c:156-168 | In whole numbers: which group an entry looks at, and that it is the last 256th of the sum that the group reaches, or 255. |
| ReplayGain.ContinueSplit | mp3recorder/src/main/jni/lame-3.98.4_libmp3lame/gain_analysis.c:180-227 | A recursive filter that stops and goes on from its last outputs makes what it makes in one pass. |
| ReplayGain.Filter | mp3recorder/src/main/jni/lame-3.98.4_libmp3lame/gain_analysis.c:180-227 | Filtering in place is the filter of the specification. |
| ReplayGain.ButterEquation | mp3recorder/src/main/jni/lame-3.98.4_libmp3lame/gain_analysis.c:211-227 | The difference equation of the filter of order 2, with zeros before the stream. |
| ReplayGain.YuleEquation | mp3recorder/src/main/jni/lame-3.98.4_libmp3lame/gain_analysis.c:180-209 | That of the filter of order 10. |
| ReplayGain.Impulse | mp3recorder/src/main/jni/lame-3.98.4_libmp3lame/gain_analysis.c:180-227 | The first three outputs of an impulse in terms of the coefficients. |
| ReplayGain.Channel.HearSome | mp3recorder/src/main/jni/lame-3.98.4_libmp3lame/gain_analysis.c:349-381 | Whether the input comes from the buffer or the samples, both filters go on as in one pass. |
| ReplayGain.AddSquares | mp3recorder/src/main/jni/lame-3.98.4_libmp3lame/gain_analysis.c:383-411 | The unrolled loops add up all squares. |
| ReplayGain.Analyzer.EndWindow | mp3recorder/src/main/jni/lame-3.98.4_libmp3lame/gain_analysis.c:416-428 | A full window is counted at its loudness, and only the history is kept. |
| ReplayGain.MeanOfConstant | mp3recorder/src/main/jni/lame-3.98.4_libmp3lame/gain_analysis.c:416-418 | A window in which both channels stand still has the mean of their squares. |
| ReplayGain.AllCounted | mp3recorder/src/main/jni/lame-3.98.4_libmp3lame/gain_analysis.c:416-422 | Every whole window is counted once. |
| ReplayGain.Analyzer.AnalyzeSamples | mp3recorder/src/main/jni/lame-3.98.4_libmp3lame/gain_analysis.c:318-450 | After every call, for any cut of the stream, the histogram is that of one pass over all samples so far; fewer samples than a window are pending. |
| ReplayGain.ChunksDoNotMatter | mp3recorder/src/main/jni/lame-3.98.4_libmp3lame/gain_analysis.c:318-450 | Two cuttings of the same stream give equal histograms, sums, counters and buffers. |
| ReplayGain.AnalyzeResult | mp3recorder/src/main/jni/lame-3.98.4_libmp3lame/gain_analysis.c:454-473 | The loudest level that a twentieth of all windows reaches. |
| ReplayGain.Analyzer.GetTitleGain | mp3recorder/src/main/jni/lame-3.98.4_libmp3lame/gain_analysis.c:477-499 | The title's loudness; the analyzer starts afresh and the album's histogram has the title's added. |
| Gapless.Feeder.EncodeBuffer | mp3recorder/src/main/jni/lame-3.98.4_libmp3lame/lame.c:1583-1659 | The buffer of samples never overflows, and the counters are always what has been fed less what has been encoded. |
| Gapless.Feeder.Flush | mp3recorder/src/main/jni/lame-3.98.4_libmp3lame/lame.c:1940-1997 | It ends, and then the frames hold exactly the samples fed, the encoder's delay and the padding, which is at least 576 and less than a frame more; a second flush does nothing. |
| Gapless.WholeFrames | mp3recorder/src/main/jni/lame-3.98.4_libmp3lame/lame.c:1958-1969 | The padding fills up the last frame exactly. |
| Gapless.Padder.NextFrame | mp3recorder/src/main/jni/lame-3.98.4_libmp3lame/encoder.c:341-345 | slot_lag stays within the sampling rate and is how far the frames are from the exact length; the first frame is not padded. |
| Gapless.Padder.NoDrift | mp3recorder/src/main/jni/lame-3.98.4_libmp3lame/bitstream.c:78-80 | After any number of frames their bytes differ from the exact number by less than one. |
| MusicCrc.TableIs | mp3recorder/src/main/jni/lame-3.98.4_libmp3lame/VbrTag.c:79-112 | crc16_lookup has eight turns of the reflected division for every byte. |
| MusicCrc.CrcUpdateLookup | mp3recorder/src/main/jni/lame-3.98.4_libmp3lame/VbrTag.c:571-578 | One look-up is eight turns. |
| MusicCrc.MusicDivides | mp3recorder/src/main/jni/lame-3.98.4_libmp3lame/VbrTag.c:580-586 | The table-driven checksum is the division by x^16 + x^15 + x^2 + 1 with the lowest bit of every byte first. |
| MusicCrc.MirrorsCrc | mp3recorder/src/main/jni/lame-3.98.4_libmp3lame/bitstream.c:237-251 | It is the header's checksum of the bytes with their bits mirrored, in a mirrored register. |
| MusicCrc.UpdateMusicCrc | mp3recorder/src/main/jni/lame-3.98.4_libmp3lame/VbrTag.c:580-586 | The loop over a buffer goes on from the checksum so far. |
| MusicCrc.MusicConcat | mp3recorder/src/main/jni/lame-3.98.4_libmp3lame/VbrTag.c:580-586 | The checksum does not depend on where the stream is cut. |
| MusicCrc.Music.Copied | mp3recorder/src/main/jni/lame-3.98.4_libmp3lame/bitstream.c:979-987 | Checksum and length are those of all music handed out, however it was cut into calls; tags do not count. |
| Tag.SetLameTagFrameHeader | mp3recorder/src/main/jni/lame-3.98.4_libmp3lame/VbrTag.c:258-327 | The header of the tag frame: the stream's settings with a bit rate of its own. |
| Tag.PutLameVbr | mp3recorder/src/main/jni/lame-3.98.4_libmp3lame/VbrTag.c:775-840 | Appends its 38 bytes and the checksum of everything before it. |
| Tag.GetLametagFrame | mp3recorder/src/main/jni/lame-3.98.4_libmp3lame/VbrTag.c:878-994 | With too small a buffer only the size is told; otherwise the frame is made, with the seek table of the frames counted, and the rest of the buffer is left alone. |
| Tag.TagFrameSays | mp3recorder/src/main/jni/lame-3.98.4_libmp3lame/VbrTag.c:775-985 | What the bytes of the tag frame say at their offsets: Xing or Info, the name of the encoder, the fields, the number of bytes of music and its checksum, and the checksum of the frame itself. |
| Tag.TagBack | mp3recorder/src/main/jni/lame-3.98.4_libmp3lame/VbrTag.c:358-472 | GetVbrTag finds in the frame written its sampling rate, frames, bytes, seek table, quality, delay and padding, and its size unless the format is free. |
| Tag.GaplessBack | mp3recorder/src/main/jni/lame-3.98.4_libmp3lame/VbrTag.c:441-453 | Frames, delay and padding read from the tag give back exactly the number of samples fed. |
| TaggedFile.EncodeFile | mp3recorder/src/main/jni/lame-3.98.4_libmp3lame/lame.c:1940-1997 | Samples fed in any portions, every frame entered in the seek table, the flush and the tag: a player that reads the tag recovers the number of samples fed. |
| Tag.TagChecks | mp3recorder/src/main/jni/lame-3.98.4_libmp3lame/VbrTag.c:973-976 | A protected tag frame passes a reader's checksum. |
| Id3.SizeOfNode | mp3recorder/src/main/jni/lame-3.98.4_libmp3lame/id3tag.c:990-1038 | The size pass counts exactly the bytes the frame pass writes. |
| Id3.SetFrameComment | mp3recorder/src/main/jni/lame-3.98.4_libmp3lame/id3tag.c:1059-1094 | Appends the comment frame of a node. |
| Id3.SetFrameCustom2 | mp3recorder/src/main/jni/lame-3.98.4_libmp3lame/id3tag.c:1096-1116 | Appends the text frame of a node. |
| Id3.SetFrameCustom | mp3recorder/src/main/jni/lame-3.98.4_libmp3lame/id3tag.c:967-988 | Appends the frame of a value, six bytes more than the value. |
| Id3.SetFrameApic | mp3recorder/src/main/jni/lame-3.98.4_libmp3lame/id3tag.c:1118-1152 | Appends the picture's frame. |
| Id3.Id3TagSpec.AddNode | mp3recorder/src/main/jni/lame-3.98.4_libmp3lame/id3tag.c:604-674 | Overwrites the first node that matches, or appends one; from then on a tag is asked for. |
| Id3.AddedTwice | mp3recorder/src/main/jni/lame-3.98.4_libmp3lame/id3tag.c:604-674 | Adding the same text twice leaves the list as adding it once. |
| Id3.PutLang | mp3recorder/src/main/jni/lame-3.98.4_libmp3lame/id3tag.c:535-552 | The loops leave the first three characters in memory, whatever follows the string. |
| Id3.LangInIs | mp3recorder/src/main/jni/lame-3.98.4_libmp3lame/id3tag.c:535-552 | For a string that ends with a zero this is the language the list of frames is kept by. |
| Id3.PaddedExactly | mp3recorder/src/main/jni/lame-3.98.4_libmp3lame/id3tag.c:535-552 | A language is padded with blanks if and only if it has neither one nor two letters. |
| Id3.Id3TagSpec.CopyV1ToV2 | mp3recorder/src/main/jni/lame-3.98.4_libmp3lame/id3tag.c:169-176 | Adds a frame and leaves the flags, so that no tag is asked for. |
| Id3.LostExactly | mp3recorder/src/main/jni/lame-3.98.4_libmp3lame/id3tag.c:574-602 | A node loses its descriptor exactly if it is the first that matches and its descriptor is a proper beginning of the new one. |
| Id3.Id3TagSpec.GetId3v2Tag | mp3recorder/src/main/jni/lame-3.98.4_libmp3lame/id3tag.c:1181-1325 | The size told when asked is the size written, and the bytes are header, frames and padding. |
| Id3.AskedFirst | mp3recorder/src/main/jni/lame-3.98.4_libmp3lame/id3tag.c:198-221 | Asking for the size first does not change the tag written then. |
| Id3.TagRead | mp3recorder/src/main/jni/lame-3.98.4_libmp3lame/id3tag.c:1266-1320 | A reader finds every frame, in order, and stops at the padding. |
| Id3.CommentBack | mp3recorder/src/main/jni/lame-3.98.4_libmp3lame/id3tag.c:1059-1094 | Language, descriptor and text of a comment are read back, in both encodings. |
| Id3.TextFrameBack | mp3recorder/src/main/jni/lame-3.98.4_libmp3lame/id3tag.c:1096-1116 | The text of any other node is read back. |
| Id3.PictureBack | mp3recorder/src/main/jni/lame-3.98.4_libmp3lame/id3tag.c:1118-1152 | A picture and the name of its type are read back. |
| Id3.CustomComment | mp3recorder/src/main/jni/lame-3.98.4_libmp3lame/id3tag.c:967-988 | A comment given as a value is misread, and how. |
| Id3.LostComment | mp3recorder/src/main/jni/lame-3.98.4_libmp3lame/id3tag.c:574-602 | A comment without a descriptor is lost to one with the descriptor x. |
| Id3.SkipExactly | mp3recorder/src/main/jni/lame-3.98.4_libmp3lame/VbrTag.c:858-870 | skipId3v2 skips exactly the tag if and only if its size fits 28 bits. |
| Search.StepSearch.BinSearchStepSize | mp3recorder/src/main/jni/lame-3.98.4_libmp3lame/quantize.c:350-411 | It ends for any way of counting, with a gain of a byte, within the target or at the coarsest; if coarser is cheaper, on the target or at the least gain that is within it. |
| Search.VbrGranule.EncodeGranule | mp3recorder/src/main/jni/lame-3.98.4_libmp3lame/quantize.c:1231-1311 | It ends, its assertions hold, it keeps the undistorted granule with the fewest bits, and a target less than 76 bits below has failed or was never to be tried. |
| Search.GapReached | mp3recorder/src/main/jni/lame-3.98.4_libmp3lame/quantize.c:1248-1298 | A search that ends 76 bits above the target that failed. |

## Left out

- Psychoacoustics, transforms, quantization, noise and resampling (psymodel.c, fft.c, newmdct.c, calc_noise, calc_xmin, fill_buffer_resample): floating-point signal processing; their results are arbitrary inputs here.
- outer_loop: a function that keeps to its target (`Quantizing.Obedient`) and leaves a divided and stored granule (`Finish.Quantized`); its search over amplifications is not modelled.
- What VBR_encode_frame does for a granule: in `VbrFrame` and whole runs a function that leaves a divided and stored granule, whatever bits it takes (`Quantizing.Finishable`); `VbrFind.FirstPass` and `VbrFind.SecondPass` prove of the gain solver what `VbrFrame.Strategic` asks of that function, but the solver's objects are not the ones that run there.
- Floating point: `on_pe`, `reduce_side`, the seek table and ReplayGain are over exact reals or rationals; rounding is not modelled. ReplayGain's coefficients and its logarithm are parameters.
- C's integer overflow: all counters are unbounded; bit counters are still reset as the code does.
- Free format in the reader and in whole runs: the reader takes frame sizes from the header's tables.
- Frames with room for a single byte: excluded from whole runs by `FrameSizes.OneByteRoom`; `Frames.OneByteRoomOverruns` shows why.
- Tag bytes in the reader: `Frames.Writer.AddDummyByte` and the Formatter keep them apart from the audio stream, which is what is read back; a reader that skips a tag frame is not modelled.
- gr_info and the recalculation in best_huffman_divide: granules are values in a mutable cell, so aliasing of cod_info and cod_info2 is not modelled.
- Order of calls: iteration_finish_one's two steps on all granules happen before the reservoir calls of ABR_iteration_loop; the sums are the same.
- VbrSearch.Solver.TryThatOne: the cost of gains is a function of them (`code`), not the counting of `Takehiro`; what that granule is then reduced to is (`VbrFind.EncodeGranule`).
- VbrFrame.Redistribute: the square roots it shares bits by are any function that is not negative, over exact reals.
- Targets of VBR and ABR before they are cut to the frame (VBR_new_prepare, calc_target_bits): floating-point formulas of the settings; the targets are inputs.
- VBR_old_iteration_loop around `Search.VbrGranule.EncodeGranule`, decode-on-the-fly, frame analysis, SSE and MMX variants, file I/O, memory failures, presets and parameter defaults: plumbing, or easy members.
- Bitstream.Formatter.CopyBuffer: does not model decoding on the fly; the checksum of the music that it updates is kept by `MusicCrc.Music`.
- Gapless.Feeder: without resampling, and with room for the output of every call.
- Tag.PutLameVbr: does not model how PutLameVBR packs the program's settings into bytes; the fields of `Tag.Lame` are inputs. Seeking and writing in the file (PutVbrTag) and the empty frame that InitVbrTag puts into the stream are left out.
- Id3.Id3TagSpec: the linked list is a sequence, a missing string is an empty one, and the setters, genres and ID3v1 are left out; the type `Id3.language` leaves out languages of one letter, of which setLang would read past the end, and folding of letters is for ASCII.
