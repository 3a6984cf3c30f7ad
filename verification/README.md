# Proofs about Libav's entropy coders, picture code and command-line tools

These Dafny modules model the parts of Libav where a wrong step is silent: code tables built from
frequencies, bits that an encoder writes and a decoder must take apart again, block quadtrees with
motion vectors, and the queues between threads, filters and muxers. `dafny verify dfyconfig.toml`
checks everything.

- `Huffman4xm`, `HuffmanOrder`: the Huffman tables of a 4X Movie key frame. The merge loop is proved to
  build an optimal code, no code is longer than 22 bits, and the table is a prefix code exactly when at
  most 256 of the 257 symbols occur. Every bit of a code is given by the weights of two siblings.
- `PBlock4xm`, `PFrame4xm`: the P frames of 4X Movie. Whatever the bits are, blocks never get an impossible
  size, the leaves of the quadtree partition the picture, every read of the previous frame is inside it,
  and every pixel gets the value of its one leaf. Every frame that is written as a tree of blocks is read
  back to the picture that the blocks stand for.
- `AacSections`, `AacTrellis`, `AacSectionCoder`, `AacTrellisLimits`, `AacMissed`: the AAC encoder's
  choice of codebooks for the bands of a window group (a trellis), when that choice is optimal, when its
  cost is the number of bits written, and spectra on which it is not the best.
- `AacSpectral`, `AacSpectrum`, `AacBandCoder`, `AacBudget`: code words, signs and escapes of quantised
  values; the cost that is reported is the number of bits that are written.
- `AacTwoLoop`, `AacSearchResult`: the two-loop scalefactor search, why every scalefactor difference can be
  coded, and what the search has reached when it ends.
- `AacChannel`, `AacStream`, `AacQuantise`, `AacEncoder`, `AacDecoder`: one AAC channel from the encoder's
  arrays to bits and back to the decoder's arrays.
- `AacCheapest`, `AacOtherScales`: when the sections that are sent take the fewest bits, and scalefactors
  with which they do not.
- `AacAdjust`, `AacRoundTrip`: the number of coded bands, and search, encoder and decoder in a row.
- `ChannelOrder`, `ChannelPositions`, `ChannelLayouts`: how the AAC decoder derives speakers from a channel
  map, which maps it accepts, which speakers each element feeds, and which positions of the map survive.
- `FilterPump`, `FilterInput`, `InputThread`, `MuxQueue`: avconv's bitstream filter pump, filter graph
  inputs, reader threads and muxing queues, each over all inputs or all runs.
- `PictQueue`: avplay's ring of pictures between the decoding and the displaying thread.
- `JsonText`, `ProbeJson`, `JsonRoundTrip`: avprobe's JSON output, and a JSON parser that reads it back.
- `Sums`, `BitIO`, `CodeLists`, `Wrappers`: sums, bits, lists of codes, results.

Code that works in place is modelled in place: classes and arrays whose methods are proved equal to
functions, and the main results are lemmas about these functions. Threads are state machines whose
runs are arbitrary interleavings.

Results that differ from what one would expect of the code, each with its exact condition:

- 4X Movie: when all 256 frequency bytes are non-zero, 257 symbols compete for 255 merge nodes, the
  loop ends with two trees and the codes are ambiguous (`Huffman4xm.PrefixFreeIffRoom`,
  `Huffman4xm.FullAlphabetIsAmbiguous`). The question in a comment of the same function, whether a
  code can exceed 31 bits, is answered: never, 22 is the limit.
- The AAC trellis is optimal exactly while a run of all bands fits one run field: fewer than 31 bands
  in a long window, fewer than 7 in a short one (`AacTrellisLimits.OptimalIffNoEscape`). From then on
  charging the escape when the run reaches it can drop the start of a run that would have won, whatever
  the widths of the bands (`AacMissed.SpectrumIsMissed`).
- The trellis charges a run of exactly 14 (short windows) or 62 (long windows) one field less than is
  written (`AacTrellis.ChosenIsPaidFor`). So its cost is always the number of bits written exactly with
  fewer than 14 or 62 bands (`AacTrellisLimits.CostExactIffFewBands`); from there on 14 or 62 silent
  bands before bands that are not silent break it (`AacTrellisLimits.SilentStartUndercharged`). 62 is
  beyond the 51 bands of a long window, so for these the cost is exact (`AacTrellis.LongCostIsExact`).
- In a group of several short windows the trellis counts each window at the window's own scalefactor,
  while all of them are written at the scalefactor of the first. The two-loop search sets only the
  first. What is sent always takes the fewest bits if and only if in every band all windows of a group
  have the first one's scalefactor (`AacOtherScales.FewestIffSameScales`); whenever one differs,
  by a single step even, there are coefficients for which another codebook would take fewer
  (`AacOtherScales.OtherScalesMiss`).
- In the two-loop search the limit of 219 on scalefactors never acts: they end in 60..217.
- 4X Movie copies pixels in pairs, by one 32-bit multiplication: the left pixel of a pair carries into the
  right one. A pair is what the formula of one pixel gives exactly when scale times the left source plus
  dc has at most 16 bits (`PBlock4xm.PairIsPlainIffNoCarry`).
- avprobe's JSON output is a JSON text for what was asked to be printed exactly when no array stands
  directly in an array and no name that is printed unescaped (of integers, arrays and objects) has
  a quote, a backslash or a control character (`JsonRoundTrip.OutputReadsBackIffPrintable`,
  `JsonRoundTrip.QuoteInKeyFails`, `JsonRoundTrip.ArrayInArrayFails`). The two failing inputs belong to
  the interface of the printer: avprobe's own calls name integers, arrays and objects with literals and
  nest no arrays.
- The AAC decoder writes a channel map back with all its entries, positions included, exactly when
  after the front elements comes no side element and fewer than four back channels
  (`ChannelPositions.PositionsKeptIffSidesUnused`). Otherwise the pair that gets the side speakers, the
  first side pair or, without side elements, the first back pair, is recorded at the front, and nothing
  else changes (`ChannelPositions.RecordedPosition`). The default map of 7.1 channels is such a map
  (`ChannelPositions.SevenOneLosesItsSides`).

- The layout returned for a default channel configuration is the one that the decoder lists for it, except
  for configuration 11: 6.1 is listed with side speakers and returned with back speakers
  (`ChannelLayouts.DefaultLayouts`).
- A muxing queue's limit below eight packets acts as eight, the size a queue starts with
  (`MuxQueue.FullQueueEnds`).

## Model

| member | source | states |
|---|---|---|
| Huffman4xm.ReadHuffmanTables | libavcodec/4xm.c:623-672 | the length and code tables filled in place are, for every symbol, length and bits of its path in the merged tree, and the overflow message is never logged |
| Huffman4xm.CodesAreShort | libavcodec/4xm.c:658-672 | for all frequency bytes no code is longer than 22 bits, so the overflow check never fires and three 9-bit lookups suffice |
| Huffman4xm.KraftIsExact | libavcodec/4xm.c:628-656 | the Kraft sum of the code lengths is exactly one, or exactly two when all 257 symbols occur |
| Huffman4xm.PrefixFreeIffRoom | libavcodec/4xm.c:628-672 | the codes are prefix-free if and only if at most 256 of the 257 symbols occur |
| Huffman4xm.FullAlphabetIsAmbiguous | libavcodec/4xm.c:628-672 | with 256 frequency bytes of 1 the code of one symbol is a prefix of another's |
| Huffman4xm.CodesAreOptimal | libavcodec/4xm.c:628-656 | no prefix code of any lengths spends fewer bits on the weighted alphabet |
| Huffman4xm.EveryStringDecodes | libavcodec/4xm.c:628-676 | with at most 256 symbols any 22 bits begin with the code of exactly one symbol that occurs |
| HuffmanOrder.MergedIffTwoPresent | libavcodec/4xm.c:628-656 | a node is made exactly while two nodes with symbols that occur are there to be merged |
| HuffmanOrder.TreeInOrder | libavcodec/4xm.c:628-656 | of two siblings the one with flag 0 has the smaller sum of frequency bytes below it, or as small a one and the smaller number; both precede in this order every other node that was there |
| HuffmanOrder.BitOfCode | libavcodec/4xm.c:645-672 | a bit of a symbol's table entry is set if and only if the node that many links above it follows its sibling in that order |
| PBlock4xm.ExactlyOneCode | libavcodec/4xm.c:46-68 | in each of the eight block type tables exactly one code matches whatever bits come next |
| PBlock4xm.OnlyMotionFails | libavcodec/4xm.c:342-411 | from any block size that has a code table and for any data the only error a block can report is a motion vector outside the picture: no negative size, no missing table, no unknown code |
| PBlock4xm.LeavesAreSound | libavcodec/4xm.c:342-411 | every leaf of a block lies in the picture, passed the motion check, and is raw only with exactly two pixels |
| PBlock4xm.LeavesPartition | libavcodec/4xm.c:365-380 | every pixel of a block lies in exactly one leaf and no leaf reaches outside |
| PBlock4xm.SourceInside | libavcodec/4xm.c:395-408 | the motion check keeps every source pixel of a copied leaf inside the previous frame |
| PBlock4xm.FrameIsPainted | libavcodec/4xm.c:413-478 | a P frame decoded without error gives every pixel the value of the one leaf that contains it |
| PBlock4xm.FourXContext.DecodePBlock | libavcodec/4xm.c:342-411 | the recursive decoding in place reads the block's tree and paints exactly its leaves, up to the first error |
| PBlock4xm.FourXContext.Mcdc | libavcodec/4xm.c:276-340 | block copy gives each pair of pixels the 32-bit product of the source pair and scale plus dc in both halves: the left pixel is scale times source plus dc modulo 65536, the right one gets the left one's carry besides; nothing else changes |
| PBlock4xm.PairIsPlainIffNoCarry | libavcodec/4xm.c:276-293 | for 16-bit pixels and scale 0 or 1 a pair is scale times source plus dc modulo 65536 in both pixels if and only if the left sum is below 65536 |
| PBlock4xm.FourXContext.DecodePFrame | libavcodec/4xm.c:467-478 | the frame after the two block loops is the old frame with all leaves painted, and the error is the parse's error |
| PFrame4xm.WordsOfTables | libavcodec/4xm.c:46-68 | the eight tables hold the code words, written as digits, of rows, columns, pairs and other blocks in new and old versions |
| PFrame4xm.BlockReadsBack | libavcodec/4xm.c:342-411 | a block written as code words, motion bytes and little-endian words is read to its end, and each pixel is what its part says: the previous frame's pixel displaced by the motion vector, that plus a word, what was there (a copy in place in old versions), a fill, or one of two words in order; or a motion vector leads out of the picture, and only then it is refused |
| PFrame4xm.FrameReadsBack | libavcodec/4xm.c:413-478 | every frame of such blocks, row by row, is decoded if and only if no motion leads out of the picture; the streams are read up to its end, and every pixel of the new frame is what its block stands for |
| PFrame4xm.MissingDataIsZero | libavcodec/4xm.c:383-411 | a frame whose motion bytes or words end early is decoded as with zeros behind them |
| AacSectionCoder.CodebookTrellisRate | libavcodec/aaccoder.c:413-534 | the path matrix, the final scan and the backtrace write the bits of the chosen sections, record their codebooks in the group's entries and leave all other entries alone |
| AacTrellis.ChosenIsPaidFor | libavcodec/aaccoder.c:413-534 | the chosen sections tile the bands with admissible codebooks and positive runs, and take the path's cost plus one field for each run of exactly 14 or 62 |
| AacTrellis.LongCostIsExact | libavcodec/aaccoder.c:413-534 | for long windows the path's cost is the number of section and spectral bits written |
| AacTrellis.ChosenIsOptimal | libavcodec/aaccoder.c:413-534 | while no run can reach the escape value no other sectioning with admissible codebooks writes fewer bits |
| AacTrellisLimits.SilentStartUndercharged | libavcodec/aaccoder.c:44-58 | when the first 14 (62) bands are silent and no other band may have codebook 0, more bits are written than the path costs, whatever the other bands spend |
| AacTrellisLimits.CostExactIffFewBands | libavcodec/aaccoder.c:413-534 | with n bands the path's cost is always the number of bits written if and only if n is below 14 (short windows) or 62 (long windows) |
| AacTrellisLimits.TrellisMisses | libavcodec/aaccoder.c:413-534 | on bands that start cheap in one codebook and end in another the trellis keeps the second from the start and writes a bit more than the sections that change in time |
| AacMissed.SpectrumIsMissed | libavcodec/aaccoder.c:413-534 | for both window kinds, every number of bands from the escape value on and all band widths there is a spectrum, costed with the code word lengths of aactab.c, for which a cheaper sectioning exists |
| AacTrellisLimits.OptimalIffNoEscape | libavcodec/aaccoder.c:413-534 | with n bands the trellis always finds the optimum if and only if n is below the escape value |
| AacBandCoder.QuantizeAndEncodeBandCost | libavcodec/aaccoder.c:105-208 | with or without a writer the reported bits are the length of the band's code, and a writer gets exactly that code |
| AacSpectral.VectorCostExact | libavcodec/aaccoder.c:149-201 | code word, sign bits and escapes of a vector are as many bits as the cost says; the constant for a clipped value is what its escape takes |
| AacSpectral.BandCostExact | libavcodec/aaccoder.c:143-207 | for every band the cost equals the length of the bits written |
| AacSpectral.EscapeRoundTrip | libavcodec/aaccoder.c:191-201 | every escape of 16 to 8191 is read back by the decoder's escape rule |
| AacSpectral.VectorRoundTrip | libavcodec/aacdec.c:1585-1735 | the decoder recovers every vector of quantised values from its bits and consumes exactly those |
| AacSpectral.BandRoundTrip | libavcodec/aacdec.c:1585-1735 | so it does for bands of any length |
| AacBudget.BandAtMost | libavcodec/aaccoder.c:105-208 | with code words of at most 16 bits a band takes at most 30 bits a value in every codebook |
| AacTwoLoop.ShiftKeepsSpread | libavcodec/aaccoder.c:816-824 | the shift moves some scalefactors and not others, yet never drives two bands more than 60 apart |
| AacTwoLoop.InnerLoopKeepsSpread | libavcodec/aaccoder.c:773-828 | the inner loop ends for all bit counts, with bands within 60 of each other and in 59..217 |
| AacTwoLoop.OuterStepKeepsSpread | libavcodec/aaccoder.c:830-847 | the outer step leaves all bands in 60..217 and within 60 of each other, so the limit 219 never acts |
| AacTwoLoop.SearchForQuantizers | libavcodec/aaccoder.c:769-849 | both loops in place end with the scalefactors of the specification and with the codebook of every band chosen for its final scalefactor |
| AacTwoLoop.SearchTwoLoop | libavcodec/aaccoder.c:707-850 | from silent bands and noise limits to final scalefactors: whatever the psychoacoustic model, bit counts and distortions say, all are in 60..217 and within 60 of each other |
| AacSearchResult.InnerTrace | libavcodec/aaccoder.c:773-828 | the inner loop is a list of passes: each moves scalefactors between 60 and 217 by a step that halves, down when the counted bits are within destBits and up otherwise, and it ends exactly with a step of one after which the counted bits are at most 1.02 destBits or the first scalefactor is at least 217 |
| AacSearchResult.OuterStepIs | libavcodec/aaccoder.c:830-847 | a band over its noise limit and above 60 goes down by one, or by two where one would leave nothing of it, then every band moves to the nearest value from the round's least scalefactor to 60 above it; nothing else changes, and another round is asked for exactly if something did |
| AacSearchResult.SearchRounds | libavcodec/aaccoder.c:769-849 | the search is a list of at most ten such rounds, each from the scalefactors of the one before, and its result is the last one's |
| AacSearchResult.SearchSettles | libavcodec/aaccoder.c:826-849 | after the last round the counted bits were at most 1.02 destBits or the first scalefactor is at least 217; if it ended before ten rounds, every band whose distortion is over its limit stands at the least scalefactor of the round or at 60 |
| AacSearchResult.SearchStart | libavcodec/aaccoder.c:726-757 | a band is silent exactly when no window of it is heard, its noise limit is 512 times the sum of its thresholds, and it starts at 140 or, when heard, above that by the ratio of its limit to the least one, at most 59 |
| AacTwoLoop.SpreadIsCodable | libavcodec/aacenc.c:377-394 | with the first scalefactor as global gain, whatever bands are coded, every difference has a code word, as the assertion there demands |
| AacStream.GroupingRoundTrip | libavcodec/aacenc.c:269-284 | the grouping flags of eight short windows give back the window groups |
| AacStream.IcsRoundTrip | libavcodec/aacdec.c:1170-1267 | window sequence, shape, number of bands and grouping that put_ics_info writes are read back |
| AacStream.RefusedIcs | libavcodec/aacdec.c:1170-1267 | window information is refused exactly when a strict decoder finds the reserved bit set, a long window asks for prediction, or there are more bands than the sampling rate has |
| AacStream.ParsedBandTypesCover | libavcodec/aacdec.c:1277-1314 | for arbitrary data, band types that are accepted cover the bands of every group exactly |
| AacChannel.SectionsReadBack | libavcodec/aacdec.c:1277-1314 | the sections of a group read back, run escapes included |
| AacChannel.ScalesReadBack | libavcodec/aacdec.c:1326-1384 | scalefactors of codebooks 1 to 11, intensity positions of 14 and 15 and noise levels of 13 read back, clipped, each kind from differences to the one before of its kind, the first noise level from nine bits |
| AacChannel.OutOfRangeRefused | libavcodec/aacdec.c:1370-1377 | a scalefactor above 255 or below 0 is refused, whatever was read before it |
| AacChannel.ReservedRefused | libavcodec/aacdec.c:1289-1292 | a section with the reserved codebook 12 is refused |
| AacSpectrum.PlaceGivesSpectrum | libavcodec/aacdec.c:1552-1735 | placing the bands gives back the whole spectrum, whatever the coefficient array held before |
| AacStream.ChannelRoundTrip | libavcodec/aacdec.c:1861-1933 | decoding the bits of a channel, noise and intensity bands included, recovers grouping, codebooks, scalefactors and all quantised values and consumes exactly those bits |
| AacEncoder.EncodeBandInfo | libavcodec/aacenc.c:366-372 | the sections of all groups are appended in order and recorded in the band arrays, each group's choice depending only on its own entries |
| AacEncoder.EncodeScaleFactors | libavcodec/aacenc.c:377-394 | the differences of the coded bands' scalefactors are appended in order, each inside the code |
| AacEncoder.EncodeSpectralCoeffs | libavcodec/aacenc.c:418-438 | the bands of all windows are appended in coding order, silent bands skipped |
| AacEncoder.SingleChannelElement.EncodeIndividualChannel | libavcodec/aacenc.c:443-457 | the bits appended in place are the code of a valid channel with the sections of the trellis, which counts every window of a group at the window's own scalefactor |
| AacEncoder.AlwaysAffordable | libavcodec/aaccoder.c:413-534 | whatever spectra are counted, a different one for every codebook, the bands of a group have a choice of codebooks far below the trellis's sentinel |
| AacEncoder.PreparedIsReady | libavcodec/aacenc.c:443-457 | so with bit counts at each window's own scalefactor the encoder needs no assumption on costs |
| AacEncoder.RoundedIsQuantised | libavcodec/aaccoder.c:72-85 | whatever the coefficients are rounded to, once cut to the least codebooks they are what the channel coder asks for |
| AacCheapest.SentIsCheapest | libavcodec/aaccoder.c:413-534 | when no run can reach the escape value and all windows of a group have the same scalefactors, the section and spectral bits sent are the fewest of all admitted sections, counted on the real code words, signs and escapes |
| AacCheapest.SingleWindowsSame | libavcodec/aaccoder.c:472-477 | so it is without any assumption on scalefactors when every group is one window, as long windows are |
| AacQuantise.MinBookHolds | libavcodec/aaccoder.c:285-298 | the codebook of find_min_book holds every coefficient that is not greater than the maximum, or is the escape codebook, and no lower codebook holds the maximum |
| AacCheapest.HeldIsWritten | libavcodec/aacenc.c:418-438 | where the least codebook of a band holds its coefficients, or is the escape codebook, no larger codebook writes others |
| AacOtherScales.FoundIsWritten | libavcodec/aaccoder.c:845 | with the codebooks that find_min_book finds for the greatest magnitude of each band this is so for all coefficients |
| AacOtherScales.OtherScalesMiss | libavcodec/aaccoder.c:472-477 | whenever a window's scalefactor differs from the one its group is written at, there are coefficients whose sent sections take more bits than others, rounded by the formula of quantize_bands, with the codebooks of find_min_book and the code word lengths of aactab.c |
| AacOtherScales.FewestIffSameScales | libavcodec/aaccoder.c:413-534 | with fewer bands than the escape value, what is sent takes the fewest bits for all coefficients and silent flags if and only if every window has its group's scalefactors |
| AacAdjust.MostInUseIsLeast | libavcodec/aacenc.c:325-329 | the number of coded bands is the least one from which on every window is silent |
| AacAdjust.AdjustFrameInformation | libavcodec/aacenc.c:304-343 | in place: the number of coded bands is that, and after the search the loop over the groups changes no flag |
| AacRoundTrip.NothingIsLost | libavcodec/aacenc.c:325-329 | the spectrum with the bands above the coded ones cut off is the spectrum of all bands |
| AacRoundTrip.SearchEncodeDecode | libavcodec/aacenc.c:598-637 | search, number of coded bands, encoder and decoder in a row: for every psychoacoustic model, bit count, distortion and rounding the decoder's array ends with the coefficients of all bands in which some window is heard, rounded at the scalefactors of the search, which are in 60..217, and its scalefactors are these |
| AacRoundTrip.HeldIsUncut | libavcodec/aaccoder.c:845 | if the least codebook at a scalefactor holds the coefficients there, the spectrum after the search holds them as they were rounded at the final scalefactors, at most cut to the greatest escape |
| AacRoundTrip.SearchedIsCheapest | libavcodec/aacenc.c:443-457 | and then what is sent after the search takes the fewest bits when no run can reach the escape value and every window has its group's scalefactors, as with groups of one window |
| AacRoundTrip.SendCoefficients | libavcodec/aacenc.c:598-637 | both without assumptions on codebooks and rounding: for all coefficients, rounded by the formula of quantize_bands and with the codebooks of find_min_book, the decoder ends with the roundings of all heard bands, in the fewest bits when every window has its group's scalefactors |
| AacEncoder.SentReadsBack | libavcodec/aacenc.c:443-457 | what the encoder appends decodes to the channel sent, with the encoder's grouping and quantised values |
| AacDecoder.DecodeIcsInfo | libavcodec/aacdec.c:1170-1267 | reading in place accepts and refuses exactly what the specification parser does and ends at its position |
| AacDecoder.DecodeBandTypes | libavcodec/aacdec.c:1277-1314 | the band types and run ends in the arrays are those of the parsed sections, for accepted and refused data |
| AacDecoder.DecodeScalefactors | libavcodec/aacdec.c:1326-1384 | the scalefactors read run by run are those of the parse over all bands |
| AacDecoder.DecodeSpectrum | libavcodec/aacdec.c:1552-1735 | the coefficient array is the parsed spectrum, the rest of every window cleared |
| AacDecoder.SingleChannelElement.DecodeIcs | libavcodec/aacdec.c:1861-1933 | decode_ics in place equals the specification parser on all data: result, arrays, position and refusals |
| ChannelOrder.AcceptedFits | libavcodec/aacdec.c:240-306 | in every map that is accepted each region holds just the elements its labels ask for, so pairs never split |
| ChannelOrder.BubbleSort | libavcodec/aacdec.c:393-403 | the bubble sort with its shrinking bound ends, sorts, and is stable |
| ChannelOrder.StableSortIsUnique | libavcodec/aacdec.c:393-403 | a sorted stable rearrangement is unique |
| ChannelOrder.SniffChannelOrder | libavcodec/aacdec.c:272-416 | a map that is too long or cannot be paired stays as it is with layout 0; else its prefix becomes its elements sorted by speaker and the layout is the union of the speakers |
| ChannelLayouts.AcceptedIffPairable | libavcodec/aacdec.c:240-296 | a map is accepted if and only if in front, sides and back every row of single elements is even, but for the first row of the front and the last of the back |
| ChannelLayouts.ElementSpeakers | libavcodec/aacdec.c:205-236 | in every accepted map each element feeds the speakers of its channels, counted through the map: of three or more front channels an odd one is the centre, four or more give the first pair left and right of it, the first side pair and the last back pair have speakers, the left channel comes first |
| ChannelLayouts.LayoutOfCounts | libavcodec/aacdec.c:301-416 | the layout returned for an accepted map has exactly the speaker bits that the numbers of front, side, back and low-frequency channels ask for |
| ChannelLayouts.DefaultLayouts | libavcodec/aacdectab.h:83-115 | for every default map the layout returned is the listed one if and only if the configuration is not 11, whose layout is that of 6.1 with back speakers |
| ChannelOrder.PrefixIsPermuted | libavcodec/aacdec.c:405-416 | the rewritten prefix holds the same types and ids, each as often, and the rest of the map stays |
| ChannelPositions.RecordedPosition | libavcodec/aacdec.c:301-389 | every element is recorded at its own position, but the pair that gets the side speakers at the front; that pair stood at the side or at the back |
| ChannelPositions.PositionsKeptIffSidesUnused | libavcodec/aacdec.c:296-416 | the map written back has the same entries, positions included, if and only if it has no side element and fewer than four back channels after its front |
| ChannelPositions.SevenOneLosesItsSides | libavcodec/aacdectab.h:95 | the default map of 7.1 channels is written back with its side pair at the front |
| ChannelOrder.PrefixIsNotCoupling | libavcodec/aacdec.c:308-389 | in a map that is in order and accepted the prefix is all that is not coupling |
| ChannelOrder.UnplacedKeepOrder | libavcodec/aacdec.c:393-403 | elements without speakers come last and keep the order of the map |
| FilterPump.OutputStream.OutputPacket | avtools/avconv.c:365-413 | the pump ends, and succeeds exactly when the filters' composition does not fail on all packets sent so far; then the muxer has received what the composition gives |
| FilterPump.FlowIsComposed | avtools/avconv.c:365-413 | when all filters are drained every link has carried the composition of the filters before it |
| FilterInput.FramesInOrder | avtools/avconv.c:1201-1271 | in every run each input's buffer sources get what was sent to it, in order, all of it once the graph is configured |
| FilterInput.EndFollowsFrames | avtools/avconv_filter.c:764-782 | an ended input of a configured graph has been told so after all its frames, even when it ended before there was a graph |
| FilterInput.FinishedWithoutGraph | avtools/avconv.c:1273-1299 | the outputs are marked finished exactly when all inputs ended without a graph |
| FilterInput.RebuiltIffChanged | avtools/avconv.c:1201-1271 | in every run all inputs get new buffer sources exactly when a frame is sent, every other input has had one, and it is the first of its input or differs from the one before in format, hardware context, or rate and layout of audio, width and height of video |
| FilterInput.FilterGraph.IfilterSendFrame | avtools/avconv.c:1201-1271 | the method in place takes the step of the run model, reconfiguration included |
| InputThread.DeliveredInOrder | avtools/avconv.c:2472-2491 | in every interleaving packets reach the main thread in the order in which they were read |
| InputThread.EofIsLast | avtools/avconv.c:2472-2491 | the end of a file is reported only after its thread returned and all its packets were delivered |
| InputThread.StoppedIsClean | avtools/avconv.c:2415-2448 | when free_input_threads returns every thread was joined exactly once and every packet read was delivered or freed, once |
| InputThread.JoinIsReached | avtools/avconv.c:2415-2448 | a thread that main joins has returned or can step without any spurious wake-up; if it waits it has been signalled and there is space |
| InputThread.MainNeverStuck | avtools/avconv.c:2415-2448 | outside the join the main thread can step, or the thread that holds the lock it wants can |
| InputThread.NoLostWakeup | avtools/avconv.c:2386-2413 | an unsignalled waiter implies a full queue or one being emptied, and main's next read or its signal wakes it |
| InputThread.AtMostOneWriteAfterDrain | avtools/avconv.c:2415-2448 | while main is in the join the thread takes at most seven steps and writes at most one packet |
| MuxQueue.HeaderComesFirst | avtools/avconv.c:1807-1851 | in every run no packet reaches the muxer before the header, which is written once, when all streams are initialized |
| MuxQueue.PacketsInOrder | avtools/avconv.c:277-363 | a stream's packets reach the muxer in call order, each as if nothing had waited |
| MuxQueue.MuxedStreamIsSound | avtools/avconv.c:277-363 | time stamps never go back, strictly increase where the format is strict, and only packets over the stream's limit are dropped |
| MuxQueue.PacketsAreRepaired | avtools/avconv.c:332-351 | in every run each packet written is the offered one in the stream's time base; only where its time stamp may not follow the one written before it becomes that plus one, and a presentation time before it is moved to it |
| MuxQueue.FullQueueEnds | avtools/avconv.c:284-299 | before the header a packet ends the program if and only if its stream has been given as many as the limit of its queue, or eight where that is lower |
| MuxQueue.LateStampEnds | avtools/avconv.c:314-345 | after the header a packet ends the program if and only if errors are to end it, it is within the stream's limit, and its time stamp may not follow |
| MuxQueue.OutputFile.WritePacket | avtools/avconv.c:277-363 | the method in place takes the step of the run model: queue growth, limits, time stamp repair, exit |
| MuxQueue.OutputFile.CheckInitOutputFile | avtools/avconv.c:1807-1851 | the last stream's initialization writes the header and then every queue, in order |
| PictQueue.WrittenSlotIsFree | avtools/avplay.c:1263-1348 | in every interleaving the video thread never writes a slot that is queued for display |
| PictQueue.NextPictureIsLater | avtools/avplay.c:1070-1076 | of two queued pictures the second is never due before the first, across pauses and seeks, as the refresh asserts |
| PictQueue.TakenInOrder | avtools/avplay.c:1047-1147 | pictures leave the ring in the order in which they were queued, each at most once |
| PictQueue.RefreshTakesDue | avtools/avplay.c:1047-1147 | in every run a refresh takes the first picture if and only if it is due, goes on to the second if and only if frames may be dropped and the second is overdue, and shows the last it takes unless it is half a second over |
| PictQueue.NothingDropped | avtools/avplay.c:1077-1090 | while no refresh may drop frames, every picture taken is shown, in order |
| PictQueue.QueuedTarget | avtools/avplay.c:1006-1044 | in every run a picture is due after the one before it by the difference of time stamps when that is between 0 and 10 seconds, else by the last such difference; at once or after twice that when the video, following another clock, is behind or ahead by as much |
| PictQueue.WriteIndexFollows | avtools/avplay.c:1263-1348 | outside the update of the indices the write index is just behind the queued pictures |
| PictQueue.PlayerState.VideoRefreshTimer | avtools/avplay.c:1047-1147 | the refresh loop in place takes the step of the run model and keeps its invariant |
| ProbeJson.PrintAll | avtools/avprobe.c:458-540 | for every well-nested sequence of calls the printer's stack of groups yields the output text of the described value |
| JsonText.RawReadsBackIffPlain | avtools/avprobe.c:262-309 | a name printed between quotes as it is reads back if and only if it has no quote, backslash or control character |
| JsonRoundTrip.EscapedReads | avtools/avprobe.c:311-333 | json_escape_print is undone by the string rules of RFC 8259 section 7 |
| JsonRoundTrip.OutputReadsBackIffPrintable | avtools/avprobe.c:253-355 | the output is a JSON text that reads back as what was described if and only if no array stands directly in an array and every unescaped name is plain |
| JsonRoundTrip.QuoteInKeyFails | avtools/avprobe.c:295-309 | an integer key with a quote gives output that is no JSON text |
| JsonRoundTrip.ArrayInArrayFails | avtools/avprobe.c:262-276 | an array directly in an array gives output that is no JSON text |

## Left out

- Huffman4xm.ReadHuffmanTables: takes the 256 frequencies as bytes; the list of symbol ranges they are read from, its overread check and the 4-byte alignment are not modelled.
- Huffman4xm.EveryStringDecodes: is about the code words; init_vlc and the multi-stage table lookup are not part of this model.
- PBlock4xm.FrameIsPainted: 4X Movie I frames, the assembly of fragments (decode_i_frame, decode_i2_frame, CFRM) and the swap of frame buffers are not modelled; the length checks at the head of decode_p_frame are not modelled, the motion vector table is an arbitrary table of offsets, and reads past the end of the bit and byte readers give zeros.
- PFrame4xm.FrameReadsBack: is about frames whose data is complete; what missing motion bytes and words stand for is PFrame4xm.MissingDataIsZero, missing bits are zeros.
- AacTrellisLimits.OptimalIffNoEscape: is stated up to 20 bands in short and 92 in long windows, which no window reaches: it has at most 15 or 51.
- AacTrellis.ChosenIsOptimal: distortion is not part of the trellis's cost in this function, and bit counts of bands are whatever the caller supplies; AacEncoder supplies those of the trellis.
- AacBandCoder.QuantizeAndEncodeBandCost: the distortion and the early return when the cost reaches the caller's limit are left out; the callers modelled pass no limit.
- AacMissed.SpectrumIsMissed: is stated for one window a group, and of the code tables only the lengths of the words that these spectra use are given.
- AacRoundTrip.SearchEncodeDecode: rounding is any function of a coefficient's position and scalefactor, its values cut to what the least codebook of their band holds (AacRoundTrip.SendCoefficients has the rounding of the source); of a channel pair with a common window only the shared number of coded bands is modelled, mid/side stereo is not; from a writer to a reader in memory.
- AacAdjust.AdjustFrameInformation: one channel, without the mid/side part of adjust_frame_information.
- AacRoundTrip.SendCoefficients: magnitudes are reals to the power of 3/4 and arithmetic is exact; the step table is any one whose neighbours differ by a factor of 1.13 to 1.14, as 2 to the power of 3/16 does; the order in which find_max_val looks at the coefficients is not modelled.
- AacOtherScales.FewestIffSameScales: rounding as in the line above; of the code tables only the lengths of the words that the coefficients of the counterexample use are given; for more bands AacTrellisLimits.OptimalIffNoEscape says what is lost.
- AacCheapest.SentIsCheapest: is about coefficients that no codebook from the least one on cuts differently; AacOtherScales.FoundIsWritten says that find_min_book chooses it so.
- AacTwoLoop.SearchTwoLoop: bit counts, distortions, the least codebook of a band and log2f are arbitrary functions, arithmetic is over reals and rounding is not modelled; log2f of a ratio of at least 512 is assumed not negative.
- AacEncoder.SingleChannelElement.EncodeIndividualChannel: the quantised values are given, zero in silent bands and above the coded bands, held by the least codebook elsewhere, and do not change with a larger codebook; psychoacoustics, MDCT and the rounding of floats are not part of this model, and pulse data is never sent, as in the code.
- AacDecoder.SingleChannelElement.DecodeIcs: pulse data, TNS and gain control are refused, and so are prediction and object types other than AAC LC; the bands of noise and intensity codebooks are zeros; dequantisation and stereo tools come after the integer part modelled.
- AacDecoder.DecodeIcsInfo: AAC LC only, where prediction is refused; the prediction and long-term prediction data of other object types are not modelled.
- AacDecoder.DecodeSpectrum: the Huffman tables are parameters constrained to prefix-free words (of at most 16 bits in the encoder), with the index arithmetic of the source; a bit pattern outside the table is an error here.
- ChannelOrder.SniffChannelOrder: maps have the element types that decode_channel_map gives each position; decode_pce and the remapping of elements afterwards are not modelled.
- FilterPump.OutputStream.OutputPacket: a filter is a function from its state and input to finitely many packets or a failure; time stamp rescaling between filters and memory failure are left out.
- FilterInput.FramesInOrder: configure_filtergraph and the buffer sources never fail, and what a replaced graph still held is polled by code outside this model.
- InputThread.StoppedIsClean: fairness of the scheduler is not assumed, progress is stated as bounded steps and enabled steps; av_read_frame is any sequence of packets, EAGAIN and end.
- MuxQueue.MuxedStreamIsSound: 64-bit overflow of time stamps, packet durations and side data, and a failing muxer write are left out; a program exit ends the run.
- MuxQueue.OutputFile.WritePacket: as above, without packet durations, side data and a failing muxer.
- PictQueue.PlayerState.VideoRefreshTimer: without subtitles and without the drawing.
- PictQueue.NextPictureIsLater: clocks are reals that never go back; subtitles, the pixel copy, frame skipping of the decoder and the packet queues of avplay are not modelled.
- JsonRoundTrip.OutputReadsBackIffPrintable: strings hold no NUL and characters above 127 stand for themselves; the INI and the old output formats and the filter on entries are left out.
- The AAC psychoacoustic model, the other three coefficient coders (anmr, faac, fast), mid/side stereo and the frame level of encoder and decoder are left out.
- Demuxers, muxers, protocols, the other codecs and the other libraries are left out; much of it would only add easier members of the kinds above.
