# SkipZFP, modelled and proved

SkipZFP stores a float32 array as fixed-rate ZFP blocks of 64 values, keeps a small zone
map with the range and the error bound of every block, and answers
`count / sum / mean of lo < x <= hi` by classifying each block as IN, OUT or MAYBE from the
zone map alone, reading only what it must and decoding it with a hand-optimised decoder.

This project models that path and proves that the answers are right:

* **Decoding** (`Bits`, `SerialDecoder`, `PlaneDecoder`, `Transform`, `Coefficients`,
  `FastDecoder`, `FloatBounds`). A bit-serial decoder over the unread bits of the budget is
  the reference. The ctz run scanner and the pdep/pext window parser both return its planes,
  the scalar and the AVX-512 transposes and tails give the same 64 integers, and the fused
  count equals counting the decoded values. The inverse lift is a linear map up to two
  dropped bits.
* **Rounding** (`Rounding`, `Ieee`, `Float32`, `DoubleBounds`, `Summation`, `Slack`,
  `Aggregate`, `Intervals`, `Attained`, `Tightness`, `MeanTightness`, `AggregateQuery`,
  `ZoneMap`, `Pruning`). Binary64 is an abstract rounding function over `real`:
  monotone, symmetric, the identity on representable values and on integers up to 2^53, with
  relative error at most 2^-53 on numbers of at least 2^-1022 and on sums of doubles
  (round to nearest, section 4.3.1 of IEEE 754-2019). `Ieee` builds the format itself, 53
  bits, ties to even and gradual underflow down to the quantum, and `Ieee.IeeeIsBinary64`
  proves that it meets every assumption. Classification is sound and the aggregate intervals
  hold with every operation rounded. Both also do no less than they should: a block whose
  range, widened by its error bound, a quantisation step and a rounding margin, decides the
  query is IN or OUT; the bounds on the count are reached by possible originals, and those on
  the sum and the mean are within an explicit width of the exact ones.
* **Planning and reading** (`MixedRadix`, `Listing`, `Planner`, `PlanBlocks`, `Merge`,
  `Layout`, `Records`, `Assembly`, `Query`, `FusedQuery`, `PipelinedQuery`, `ArrayQuery`,
  `ArrayAggregate`, `PipelinedAggregate`). The two-pass planner lists exactly the right
  blocks, reads are merged optimally and layered prefixes are assembled byte by byte. From
  the stored records, `ArrayQuery.CountArray` and `ArrayQuery.CountArrayPipelined` reach the
  brute-force count of the whole array, and `ArrayAggregate.AggregateArray` and
  `PipelinedAggregate.AggregateArrayPipelined` reach one and the same answer, whose intervals
  hold for a brute-force scan of the originals.
* **Writing** (`WriteArray`). The chunk objects and records written for any arrangement of
  blocks are true of it, as those four methods assume, but for one corner of float
  arithmetic.
* **Scheduling** (`Protocol`, `ScheduledQuery`, `ScheduledPipeline`). The asyncio pipeline
  with its byte budget and its shared semaphore is a state machine over interleaved steps.
  `Protocol.Pipeline` performs them on shared objects; objects are planned and reads counted
  inside their steps, and a count under any schedule is the brute-force count.
* **Exact selection and mean bounds** (`Selection`, `FilteredMean`). The three-pass radix
  selection and the optimal-subset mean interval of the experiments.

The one premise about data is what README.md:142 states: each original value is within the
stored error bound of its decoded value. `WriteArray` proves when the writer's records make
it true. The order on values and bounds is that of IEEE 754 comparisons without NaN
(`FloatBounds.Ext`: a real or an infinity). Code that works in place is modelled by methods
over arrays or by a class; each of them is proved against a function of its inputs, and
lemmas are proved about that function.

Three documented promises fail in a corner. `range_bounds` says that the half-open range
selects the same float32 values as the range asked for (skipzfp/query.py:1538-1540). It does,
except that a range that takes in -inf itself loses it, since `a < x` never holds for it:
`FloatBounds.NegInfIsMissed` is the input, `FloatBounds.RangeBoundsSelectSame` the exact
condition.

The premise itself, README.md:142-143, is not quite what `write_meta` ensures: the error is
measured in doubles (skipzfp/csrc/core.c:285), and a difference of two float32 values may be
rounded down to the stored bound. In a block of values 2^53 with a single -1, all decoded as
2^53, no measured error exceeds 2^53, but -1 is farther away (`WriteArray.BoundMisses`).
`Float32.BoundHolds` is the exact condition, for stored and for 4-bit coded bounds: it fails
for a value and its decoded value exactly if their signs are opposite, the bound is the size
of the larger one, and the smaller one is at most half the distance of doubles there.
`WriteArray.WriteArray` shows that the written archive meets the queries' assumptions if and
only if no value of any unit is in that corner.

And `stage2` asserts that the true count is at most nc + na
(experiments/exp4_filtered_aggregate.py:135). With th = -2^-60, a value 0 that is decoded as
-1 with e = 1 matches, but th - e is rounded to -1 and it is counted in neither group
(`FilteredMean.MatchIsMissed`). `FilteredMean.CountHolds` says exactly for which decoded
values, bounds and threshold the assertion holds for all originals; it does if no value lies
in the gap th - e < r <= rnd(th - e), and if every real number may be an original, only then
(`FilteredMean.GapsDecide`).

## Model

| member | source | states |
|---|---|---|
| `Bits.PeekIsLoad` | skipzfp/csrc/fastdec.c:32-36 | a peek at bit pos is the 8-byte load at pos / 8 shifted by pos % 8, and that load stays inside the buffer |
| `Bits.PeekBit` | skipzfp/csrc/fastdec.c:31-36 | each of the first 57 bits of a peek is the stream bit that far behind pos |
| `Bits.AddPowerValue` | skipzfp/csrc/fastdec.c:95 | the ripple form of x += 1 << n is addition modulo 2^64 |
| `Bits.ClearLowest` | skipzfp/csrc/fastdec.c:216-219 | x &= x - 1 clears the lowest set bit and nothing else |
| `SerialDecoder.PrefixDecodes` | skipzfp/csrc/fastdec.c:49-99 | a shorter budget of the same stream gives no more planes, and all but its last plane are those of the longer run |
| `SerialDecoder.PrefixBudget` | skipzfp/query.py:1315-1316 | the same for two budgets of one buffer: what a layered prefix of a block decodes to agrees with the whole block |
| `SerialDecoder.PdepAlternating` | skipzfp/csrc/fastdec.c:148-149 | depositing an alternating pattern picks every other set bit, whatever the window holds |
| `SerialDecoder.WindowParses` | skipzfp/csrc/fastdec.c:104-113 | up to the first coefficient bit followed by 0, set bits alternate between group tests and coefficients, so the bits between are the plane's new coefficients of the bit-serial decoder |
| `PlaneDecoder.ReadVerbatim` | skipzfp/csrc/fastdec.c:53-61 | one load or two, the m verbatim bits of a plane are the next m stream bits |
| `PlaneDecoder.ScanRun` | skipzfp/csrc/fastdec.c:71-94 | scanning up to 56 zeros at a time ends at the same position, budget and coefficient as reading bit by bit; position plus budget is constant |
| `PlaneDecoder.DecodeGroups` | skipzfp/csrc/fastdec.c:63-97 | the group loop of one plane reaches the bit-serial decoder's state |
| `PlaneDecoder.DecodePlanes` | skipzfp/csrc/fastdec.c:39-101 | at most 32 planes are written, and they are the bit-serial planes of the bits inside the budget, whatever lies behind them |
| `PlaneDecoder.WindowIsPlane` | skipzfp/csrc/fastdec.c:138-168 | whenever the window parser takes a plane, it is the bit-serial plane, with the same bits left; otherwise it falls back |
| `PlaneDecoder.DecodeGroupsBmi2` | skipzfp/csrc/fastdec.c:138-204 | window or fallback, the rest of a plane reaches the bit-serial decoder's state |
| `PlaneDecoder.DecodePlanesBmi2` | skipzfp/csrc/fastdec.c:114-208 | same planes and plane count as the bit-serial decoder, so as decode_planes, for every buffer, position and budget |
| `Transform.LiftLine` | skipzfp/csrc/fastdec.c:248-273 | the four values of a line become their inverse lift with 32-bit wrap-around, and nothing else changes |
| `Transform.LiftIsSums` | skipzfp/csrc/fastdec.c:254-267 | after the two halvings a and b, the lifted values are x - z + a - b, x + z + a + b, x + z - a - b and x - z - a + b, modulo 2^32, for all inputs |
| `Transform.LiftIsLinear` | skipzfp/csrc/fastdec.c:248-273 | unless a halved sum overflows, four times the lift is a linear map of the four values with the coefficients of zfp's inverse transform, less the two dropped bits, each given by its parity |
| `Transform.PassZ` | skipzfp/csrc/fastdec.c:286-290 | every line along z is lifted exactly once, in place |
| `Transform.PassY` | skipzfp/csrc/fastdec.c:291-295 | every line along y is lifted exactly once |
| `Transform.PassX` | skipzfp/csrc/fastdec.c:296-300 | every line along x is lifted exactly once |
| `Transform.SwapLanesTransposes` | skipzfp/csrc/fastdec.c:341-353 | the eight shuffles transpose lanes and vectors |
| `Transform.SwapLanesIsInvolution` | skipzfp/csrc/fastdec.c:341-353 | and undo themselves |
| `Transform.SwapValuesTransposes` | skipzfp/csrc/fastdec.c:355-367 | the eight unpacks transpose the values of each lane across the vectors |
| `Transform.SwapValuesIsInvolution` | skipzfp/csrc/fastdec.c:355-367 | and undo themselves |
| `Transform.VectorTransforms` | skipzfp/csrc/fastdec.c:384-390 | three vector lifts between swaps are the inverse transform along z, then y, then x |
| `Transform.TransformIsUnique` | skipzfp/csrc/fastdec.c:286-300 | the inverse transform has one outcome, so both implementations agree on all 64 values |
| `Transform.ConstantBlock` | skipzfp/csrc/fastdec.c:286-300 | with only the first coefficient, all 64 values equal it |
| `Coefficients.TransposeScalar` | skipzfp/csrc/fastdec.c:211-221 | bit 31 - j of coefficient i is bit i of plane j, and bits below the last plane are 0 |
| `Coefficients.TransposeVector` | skipzfp/csrc/fastdec.c:223-243 | the masked-or transpose meets the same specification |
| `Coefficients.TransposeIsUnique` | skipzfp/csrc/fastdec.c:211-243 | which has one solution, so the two transposes are equal |
| `Coefficients.PrefixCoefficients` | skipzfp/query.py:1315-1316 | for two budgets of one buffer, the coefficients read with the shorter one differ from those read with the longer one only below its last full plane |
| `Coefficients.ToInt32IsNegabinary` | skipzfp/csrc/fastdec.c:282-284 | the xor-and-subtract conversion is the base -2 value of the word, wrapped to 32 bits |
| `Coefficients.InverseOfPerm` | skipzfp/csrc/fastdec.c:12-26 | the coefficient order is one to one |
| `Coefficients.PermOfInverse` | skipzfp/csrc/fastdec.c:309-310 | and onto, so INV inverts PERM both ways |
| `Coefficients.PermIsPosition` | skipzfp/csrc/fastdec.c:12-26 | the position of a coefficient is x + 4 * y + 16 * z of its coordinates |
| `Coefficients.PermIsOrdered` | skipzfp/csrc/fastdec.c:12-26 | coefficients come in the order of x + y + z |
| `Coefficients.PermIsOrderedWithin` | skipzfp/csrc/fastdec.c:12-26 | and within it in the order of x * x + y * y + z * z |
| `Coefficients.DegreesGrow` | skipzfp/csrc/fastdec.c:12-26 | both orders, as they are tabulated, never fall back |
| `Coefficients.BuildInverse` | skipzfp/csrc/fastdec.c:446-448 | the load-time loop fills INV with that inverse |
| `Coefficients.TailScalar` | skipzfp/csrc/fastdec.c:278-300 | conversion, coefficient order and the three passes give the block's 64 integers |
| `Coefficients.TailVectorIsTailScalar` | skipzfp/csrc/fastdec.c:372-390 | gathering through INV and transforming in vectors gives the same 64 integers in the same places, for any coefficients |
| `Coefficients.BlockValuesUnique` | skipzfp/csrc/fastdec.c:278-300 | the 64 integers are determined by the coefficients |
| `Coefficients.FusedCountIsCount` | skipzfp/csrc/fastdec.c:400-428 | popcounts over vectors left in swapped order count what scanning the scalar tail's values counts, for any predicate |
| `FloatBounds.CountInRange` | skipzfp/csrc/query.c:38-52 | with an open upper end or not, the loop counts the values with lo < v <= hi |
| `FloatBounds.FloatAtMostCompares` | skipzfp/csrc/query.c:25-34 | for every float v, v > d exactly when v is above the rounded-down bound, and v <= d exactly when it is not |
| `FloatBounds.BelowFloatCompares` | skipzfp/query.py:1513-1518 | x <= v exactly when v is above the float below x, and v < x exactly when v is at most it |
| `FloatBounds.RangeBoundsSelectSame` | skipzfp/query.py:1521-1558 | ValueError exactly on NaN or crossed bounds; otherwise a float32 value is selected as asked if and only if it is not -inf or -inf was not asked for |
| `FloatBounds.NegInfIsMissed` | skipzfp/query.py:1550-1558 | without bounds, -inf is asked for and not selected |
| `FastDecoder.PaddedCopy` | skipzfp/csrc/fastdec.c:492-493 | the padded copy has the block's own bits in front, so peeks read the block |
| `FastDecoder.ReadExponent` | skipzfp/csrc/fastdec.c:500 | the exponent is the value of stream bits 1 to 8, minus 127 |
| `FastDecoder.FastDecode` | skipzfp/csrc/fastdec.c:485-504 | with any choice of parser, transpose and tail, the result is what the bit-serial reference says the block means |
| `FastDecoder.DecodesUnique` | skipzfp/csrc/fastdec.c:485-504 | a block means one thing, so all SIMD choices decode alike |
| `FastDecoder.FastCount` | skipzfp/csrc/fastdec.c:506-525 | the fused count is the number of the block's decoded floats in the range, all-zero block included |
| `FastDecoder.CountWithFloatBounds` | skipzfp/csrc/query.c:25-52 | on floats, bounds rounded down to float select as the double bounds do |
| `FastDecoder.FusedCount` | skipzfp/csrc/query.c:826-838 | so the fused count with float bounds equals decoding and counting with the double bounds |
| `Ieee.RoundMonotone` | skipzfp/aggregate.py:206-217 | 53-bit rounding with ties to even keeps the order of any two numbers, within a binade and across binades |
| `Ieee.RoundIsNear` | skipzfp/aggregate.py:206-217 | and is off by at most 2^-53 of a number in the normal range |
| `Ieee.DownIsNext` | skipzfp/aggregate.py:195-196 | nextafter towards -inf is the greatest double below, at the start of a binade too |
| `Ieee.StepIsSmall` | skipzfp/aggregate.py:195-196 | a step down is at most 2^-52 of a double, or one quantum |
| `Ieee.IeeeIsBinary64` | skipzfp/aggregate.py:195-217 | so double arithmetic itself meets everything that the proofs below assume of it |
| `Ieee.Binary64Exists` | skipzfp/aggregate.py:195-217 | and the assumptions have an instance |
| `Float32.DownToLarger` | skipzfp/csrc/core.c:285 | a sum of two numbers of 24 bits that is rounded down to at most a stored or coded bound: the bound is the larger of the two, and the smaller is at most half a spacing |
| `Float32.BoundHolds` | skipzfp/csrc/core.c:285-321 | for float32 values and a stored or coded bound on their measured error, the true error is within the bound if and only if the smaller of the two is not swallowed by the larger |
| `Float32.SingleIsCoded` | skipzfp/codec.py:519-542 | 15 times a float32 is a double, and a stored bound is among the bounds that this covers |
| `Float32.CodeIsCoded` | skipzfp/csrc/query.c:149-160 | so is every bound that the planner reads from a 4-bit code |
| `Rounding.DownIsBelow` | skipzfp/aggregate.py:195-196 | one step down from a rounded result is at most the exact one |
| `Rounding.UpIsAbove` | skipzfp/aggregate.py:199-200 | one step up from a rounded result is at least the exact one |
| `DoubleBounds.EndsDecide` | skipzfp/csrc/query.c:198-201 | the two tests on the ends of an interval hold exactly if all, or in a range that is not empty if no, doubles of the interval match |
| `Summation.SureError` | skipzfp/aggregate.py:206-209 | recursive summation of n + 1 rounded terms is off by at most n * 2^-53 * (1 + 2^-28) times the sum of their bounds |
| `Summation.MaybeError` | skipzfp/aggregate.py:206-209 | the same for the maybe terms |
| `Summation.BoundError` | skipzfp/csrc/query.c:912 | the computed total of absolute bounds is low by at most n * 2^-53 of itself |
| `Slack.SlackCoversRead` | skipzfp/aggregate.py:214-216 | for a read of at most 2^24 values, the rounded (n + 2) * u * abs_total exceeds the drift of its sums, with room for the roundings of combine |
| `Slack.JoinIsCovered` | skipzfp/aggregate.py:214-218 | covered reads add up to a covered total |
| `Slack.SureLowIsBelow` | skipzfp/aggregate.py:215-217 | fsum minus slack, each rounded, is at most what the sure originals add, and with the maybe sum at most what all matching originals add |
| `Aggregate.EndsEnclose` | skipzfp/csrc/query.c:908-912 | the rounded r - eps and r + eps enclose the unseen original, and abs_total's term bounds both |
| `Aggregate.KindsAreRight` | skipzfp/csrc/query.c:919-938 | sure values match, values that match are sure or maybe, and a matching original lies between the clipped ends |
| `Aggregate.KindsAreExact` | skipzfp/csrc/query.c:919-931 | outside IN blocks a value is sure if and only if every double between its rounded ends matches, and neither sure nor maybe, for a range that is not empty, if and only if none does |
| `Aggregate.SzAggregate.constructor` | skipzfp/csrc/query.c:895-906 | an accumulator starts empty |
| `Aggregate.SzAggregate.AddValue` | skipzfp/csrc/query.c:907-939 | one value updates the accumulator as the specification's step does, on all fields; what that adds up is pinned by the rows on kinds, counts, sums and extremes |
| `Aggregate.SzAggregate.AddBlock` | skipzfp/csrc/query.c:898-940 | a block adds its values one after another; every read's totals are built with it |
| `Aggregate.AddItemsAppend` | skipzfp/csrc/query.c:898-940 | blocks after each other are their values after each other |
| `Aggregate.RunIsAccumulate` | skipzfp/csrc/query.c:907-939 | a read's totals are rounded sums of valid terms, and its upper sums are mirrored lower ones |
| `Aggregate.DecodedDrift` | skipzfp/csrc/query.c:914-917 | a read's decoded sum is off from the exact sum of its matching decoded values by at most n * 2^-53 * (1 + 2^-28) of their sizes |
| `Intervals.RunBoundsTruth` | skipzfp/csrc/query.c:898-940 | whatever the originals are, the exact count is exact, the true count lies between sure and sure + maybe, and true sums are bounded by the terms and by the maybe extremes |
| `Intervals.PartIsCovered` | skipzfp/aggregate.py:214-216 | every read of at most 2^24 values is covered by its slack, below and above |
| `Intervals.TallyIsJoin` | skipzfp/aggregate.py:210-220 | the sums, minima and maxima over the parts describe the joined truth of all reads |
| `Intervals.MeanIsMonotone` | skipzfp/aggregate.py:222-227 | (S + k * m) / (s + k) over 0 <= k <= maybe is at least the smaller of its two ends |
| `Intervals.LowMean` | skipzfp/aggregate.py:228-234 | with every operation rounded and stepped down, the lower bound is at most the mean of any possible maybe-subset |
| `Intervals.TotalIsNear` | skipzfp/aggregate.py:211 | the decoded sum of all reads is off by at most (n + 2) * 2^-53 * (1 + 2^-28) of the sizes, for reads of at most n values |
| `Intervals.CombineEnclosesTruth` | skipzfp/aggregate.py:203-248 | the count of matching decoded values is exact, their sum is off by at most 2^-28 of their sizes, and the true count, sum and mean of the matching originals lie in the returned intervals |
| `Attained.CountsFit` | skipzfp/csrc/query.c:919-938 | whatever the originals between the rounded ends of their values, their count is within the bounds |
| `Attained.CountLowIsReached` | skipzfp/aggregate.py:245 | some of them, all doubles, have the lower count |
| `Attained.CountHighIsReached` | skipzfp/aggregate.py:245 | and some, if the range is not empty, the upper one |
| `Attained.DrawIsWithin` | skipzfp/csrc/query.c:908-911 | where r - eps and r + eps are doubles, the originals counted so are those within eps |
| `Attained.AllSumsFit` | skipzfp/aggregate.py:246 | none add up to less than the exact lower ends or to more than the exact upper ends |
| `Attained.LowSumsAreApproached` | skipzfp/aggregate.py:246 | some come as near the exact lower ends as one likes |
| `Attained.HighSumsAreReached` | skipzfp/aggregate.py:246 | and some reach the exact upper ends |
| `Tightness.ReadIsTight` | skipzfp/aggregate.py:214 | the exact ends of a read's sums exceed the computed ones less the slack by at most (2 * n + 16) * 2^-53 of the sizes, later roundings included |
| `Tightness.SumIsTight` | skipzfp/aggregate.py:246 | the returned ends of the sum are no farther from the exact ends than the widths of all reads: no double lies between |
| `MeanTightness.TallyExtremes` | skipzfp/aggregate.py:219-220 | maybe_min and maybe_max are the least lower and the greatest upper end of all maybe values |
| `MeanTightness.MeanIsTight` | skipzfp/aggregate.py:228-240 | with sure values, the returned ends of the mean are no farther from the formula in exact arithmetic than the widths and a few roundings; without, they are the extremes |
| `AggregateQuery.TruthAppends` | skipzfp/csrc/query.c:907-939 | what matches in two lists of values is what matches in both |
| `AggregateQuery.ListHoldsTruth` | skipzfp/aggregate.py:292-305 | the listed IN and MAYBE blocks hold every match of the array when OUT blocks hold none |
| `AggregateQuery.GroupsTruth` | skipzfp/aggregate.py:349-391 | so do the reads the list is cut into |
| `AggregateQuery.ReadsAreCuts` | skipzfp/aggregate.py:349-391 | the merged ranges are such a cutting |
| `AggregateQuery.ClassifiedItems` | skipzfp/aggregate.py:292-305 | classification and the listed error bound give aggregate_block's assumptions, and OUT blocks hold no match |
| `AggregateQuery.AggregateEnclosesArray` | skipzfp/aggregate.py:292-346 | given sound states and totalled reads, the intervals hold for the matching originals of the whole array, however the list is cut; `ArrayAggregate.AggregateArray` proves what is given here |
| `ZoneMap.ScanBlock` | skipzfp/csrc/core.c:275-300 | a block's least and greatest value, and an error total that covers its values and is attained |
| `ZoneMap.ScanUnit` | skipzfp/csrc/core.c:268-314 | the same for all blocks, the unit's range and its largest error |
| `ZoneMap.WriteOffsets` | skipzfp/csrc/core.c:327-345 | the record's offsets are the quantised block ranges, 0 when the unit is constant |
| `ZoneMap.FloatAtLeastIsLeast` | skipzfp/csrc/query.c:212-229 | the listed and the stored float error bound is the least float not below the double one |
| `ZoneMap.SpanFacts` | skipzfp/csrc/query.c:182 | the rounded span is 0 exactly when the bounds are equal, and near the true span |
| `ZoneMap.SlackFacts` | skipzfp/csrc/query.c:183 | the rounded slack is at least 15 unit roundoffs of the sum of the bounds' sizes |
| `ZoneMap.ReadMinIsBelow` | skipzfp/csrc/query.c:190-196 | write with rounded scale, floor and clamp, then read with slack: the minimum read back is at most the block's minimum, span 0 included |
| `ZoneMap.ReadMaxIsAbove` | skipzfp/csrc/query.c:190-196 | the maximum read back is at least the block's maximum |
| `ZoneMap.ClassifiedIsSound` | skipzfp/csrc/query.c:198-203 | rounded comparisons decide every double within the widened bounds correctly |
| `ZoneMap.ClassificationIsSound` | skipzfp/csrc/query.c:162-208 | a written block is IN only when its originals and decoded values all match, and OUT only when none does, with or without per-block codes |
| `ZoneMap.ClassifyBlock` | skipzfp/csrc/query.c:185-206 | one turn of the loop finds the block's state, with the widened bounds chosen by span == 0 |
| `ZoneMap.ClassifyUnit` | skipzfp/csrc/query.c:162-208 | the states are written behind each other at the unit's place, and no other state changes |
| `ZoneMap.BlockErrorCodes` | skipzfp/codec.py:519-542 | ValueError exactly when some block's error exceeds the unit's bound; otherwise every code is at most 15, the planner's own expression covers its block, and but for rounding no smaller code would |
| `ZoneMap.CodeErrorGrows` | skipzfp/csrc/query.c:149-158 | code 15 means the unit's bound exactly, and no code means more |
| `Pruning.ClassifiedIsExact` | skipzfp/csrc/query.c:198-201 | IN if and only if every double between the rounded ends matches, and OUT, for a range that is not empty, if and only if none does |
| `Pruning.ReadMinIsNear` | skipzfp/csrc/query.c:190-196 | the minimum read back is at most span / 255 + 2^-48 of the bounds' sizes below the block's |
| `Pruning.ReadMaxIsNear` | skipzfp/csrc/query.c:190-196 | and the maximum at most that above it |
| `Pruning.ClassificationIsComplete` | skipzfp/csrc/query.c:162-208 | a written block whose range, widened by that and by its error bound, lies inside the query's is IN, and outside it OUT; a unit of equal values is not widened |
| `Pruning.StatesAreComplete` | skipzfp/csrc/query.c:162-208 | so is the state that classify_unit writes for it |
| `Pruning.CodeErrorIsNear` | skipzfp/csrc/query.c:149-160 | a code's error bound is that many fifteenths of the unit's, up to rounding |
| `MixedRadix.PairOrdered` | skipzfp/query.py:1127-1130 | the packed 64-bit key is larger exactly when (chunk, block) comes later |
| `MixedRadix.FlatSplits` | skipzfp/csrc/query.c:321-330 | the three coordinates of a flat index come back by division and remainder |
| `MixedRadix.SplitFlats` | skipzfp/csrc/query.c:321-330 | and every index in range is the flat index of its coordinates |
| `MixedRadix.FlatOrdered` | skipzfp/csrc/query.c:321-335 | C order is the lexicographic order of the coordinates |
| `MixedRadix.FlatShifts` | skipzfp/query.py:1443 | moving the first coordinate moves the flat index by whole planes |
| `Listing.ListIsSorted` | skipzfp/csrc/query.c:356-390 | the list is strictly sorted by chunk and block |
| `Listing.ListIsExact` | skipzfp/csrc/query.c:366-390 | an entry is listed if and only if its block is MAYBE, or IN when asked for, with its own state and error bound |
| `Listing.CountsAddUp` | skipzfp/csrc/query.c:339-344 | listed, IN and OUT blocks add up to all blocks |
| `Listing.ListShifts` | skipzfp/query.py:1443 | adding d to every chunk id of a list lists the same blocks d chunks later |
| `Listing.ListContinues` | skipzfp/query.py:1438-1446 | a stretch of chunks, shifted, continues the list of the chunks before it |
| `Listing.UidIsInjective` | skipzfp/csrc/query.c:326-330 | no two (chunk, sub) pairs share a unit |
| `Listing.UidIsSurjective` | skipzfp/csrc/query.c:326-330 | and every unit belongs to one pair |
| `Listing.UidIsOrdered` | skipzfp/csrc/query.c:321-335 | chunks are numbered in the lexicographic order of their places in the array, and a chunk's units in the order of their own numbers |
| `Planner.PlanListsBlock` | skipzfp/csrc/query.c:233-397 | a block of any unit is in the plan, at its unit's place in its chunk, exactly when its state asks for it |
| `Planner.PlanEntryIsBlock` | skipzfp/csrc/query.c:233-397 | every entry of the plan is a block of a unit, with that block's state and error bound |
| `Planner.SlabUid` | skipzfp/query.py:1438-1443 | a slab's unit of a chunk is the array's unit of the chunk shifted by u0 // subs[0] * chunks_per_step |
| `Planner.ObjectIsWhole` | skipzfp/query.py:1192-1199 | objects of a multiple of the units per chunk start and end at whole chunks, the short last one too |
| `Planner.SlabPlanContinues` | skipzfp/query.py:1438-1443 | an object's plan continues the plan of the chunks before it |
| `Planner.PipelinedPlanIsPlan` | skipzfp/query.py:1438-1446 | planning object by object and concatenating gives exactly the plan of the whole array |
| `PlanBlocks.ClassifyChunk` | skipzfp/csrc/query.c:321-337 | pass 1 classifies the records of a chunk's units and leaves their states in unit order at the chunk's place |
| `PlanBlocks.CountChunk` | skipzfp/csrc/query.c:339-344 | the three counters of a chunk are the numbers of IN, OUT and listed blocks |
| `PlanBlocks.FirstPass` | skipzfp/csrc/query.c:316-345 | after pass 1 the states are those the records give for all chunks in order, and the counts are right |
| `PlanBlocks.PrefixSum` | skipzfp/csrc/query.c:347-350 | in place, every count becomes the sum of the sizes before it |
| `PlanBlocks.ListLength` | skipzfp/csrc/query.c:347-358 | which is where the list of the chunks before it ends, so stretches are disjoint and fill the output |
| `PlanBlocks.ListedError` | skipzfp/csrc/query.c:374-386 | the error bound computed from the record of the block's unit is that of the block's place in the chunk |
| `PlanBlocks.WriteChunk` | skipzfp/csrc/query.c:356-390 | a chunk writes its list into its own stretch of the output and nothing else |
| `PlanBlocks.SecondPass` | skipzfp/csrc/query.c:352-391 | the output arrays start with the lists of all chunks |
| `PlanBlocks.PlanArrays` | skipzfp/csrc/query.c:233-397 | from the records, plan_blocks returns the specified plan and counts, each listed block with the bound of its record, and listed, IN and OUT add up |
| `Merge.MergeRanges` | skipzfp/csrc/query.c:721-775 | fails exactly on items out of order; otherwise the output arrays hold the specified runs |
| `Merge.RunsPartition` | skipzfp/csrc/query.c:754-771 | runs cut all items into consecutive pieces, broken at every chunk change or gap above the limit and nowhere else |
| `Merge.RunItem` | skipzfp/csrc/query.c:760-771 | a run's items lie in its chunk, between its first and last block |
| `Merge.RunsAreDisjoint` | skipzfp/csrc/query.c:760-771 | later runs are in a later chunk or more than the gap further on |
| `Merge.FewestReads` | skipzfp/csrc/query.c:754-771 | no cutting that respects the breaks has fewer runs |
| `Merge.RunsAreCut` | skipzfp/csrc/query.c:754-771 | and the runs themselves are such a cutting |
| `Merge.OverReadIsBounded` | skipzfp/csrc/query.c:760-763 | at most gap blocks too many per joined pair |
| `Merge.OffsetInBounds` | skipzfp/query.py:1139-1150 | every listed block's bytes lie whole inside its read, at the offset the decoder uses |
| `Merge.RunsJoin` | skipzfp/query.py:1444-1446 | where the chunk changes, the runs of the whole list are those of its parts, moved |
| `Layout.RankIsPosition` | skipzfp/codec.py:492-503 | a block's storage position is in range and leads back to the block |
| `Layout.BlockAtIsBlock` | skipzfp/codec.py:492-503 | and every position belongs to a block |
| `Layout.BlockRankIsPermutation` | skipzfp/codec.py:492-503 | block_rank is a permutation for every shape and axis order |
| `Layout.RankIsOrdered` | skipzfp/codec.py:498-503 | blocks are stored in the lexicographic order of their coordinates along the axes of block_order, the first one slowest |
| `Layout.DefaultOrderKeeps` | skipzfp/codec.py:302-306 | the default order stores blocks in C order |
| `Layout.UnrankedRanked` | skipzfp/codec.py:449-473 | reading back in rank order undoes the reordering |
| `Layout.Scatter` | skipzfp/codec.py:448-449 | ranked[rank] = r leaves every block at its position |
| `Layout.LayerStartIs` | skipzfp/codec.py:465 | a layer starts behind the number of blocks times the bytes of the layers before it |
| `Layout.StoredAt` | skipzfp/codec.py:452-455 | layer j of the block stored at position i is found at the layer's start plus i times its size |
| `Layout.Pack` | skipzfp/codec.py:428-455 | the stored bytes are the units' blocks in storage order, layer after layer |
| `Layout.Unpack` | skipzfp/codec.py:462-477 | the units handed to the decoder are the specified ones, in order |
| `Layout.UnitRoundTrip` | skipzfp/codec.py:470-477 | a unit's decoder gets exactly the bytes its encoder returned |
| `Layout.UnpackUndoesPack` | skipzfp/codec.py:457-478 | for every unit, so unpack inverts pack for every block order, set of layers and number of units |
| `Layout.PlainIsPack` | skipzfp/codec.py:436-437 | the one-call shortcut stores the same bytes as the general path |
| `Records.NibbleOfPacked` | skipzfp/csrc/query.c:156 | the planner reads for block i the code the writer packed for it |
| `Records.CodesRoundTrip` | skipzfp/codec.py:545-555 | unpack_codes inverts pack_codes, an odd number of codes included |
| `Records.RecordMatchesStorage` | skipzfp/codec.py:709-729 | record entry p, offsets and error code alike, is about the block stored at position p |
| `Records.RebuildRestores` | skipzfp/codec.py:585-606 | cumulative sums modulo 256 restore the minima and maxima of any record |
| `Records.UnpackMetaUndoesPack` | skipzfp/codec.py:574-606 | unpack_meta restores every record of an object of any number of records |
| `Records.PackedFront` | skipzfp/codec.py:585-591 | leading bytes of all records come first, in order, then the differences of each record's minima, modulo 256 |
| `Records.PackedBack` | skipzfp/codec.py:585-591 | then the widths, and then the last bytes |
| `Assembly.RunHoldsLayer` | skipzfp/query.py:1320-1326 | a merged read of a layer holds that layer of each of its blocks, at the row used |
| `Assembly.RunInObject` | skipzfp/query.py:1293-1298 | reads stay inside their stored objects |
| `Assembly.RunBytes` | skipzfp/query.py:1320-1326 | what is copied for row i is that layer of block i's encoded bytes |
| `Assembly.DenseBytes` | skipzfp/query.py:1331-1338 | so is what is copied from a chunk's whole prefix |
| `Assembly.ChunkItems` | skipzfp/query.py:1329 | searchsorted finds exactly the items of a chunk |
| `Assembly.FillRun` | skipzfp/query.py:1319-1326 | a read fills its rows' columns of its layer, correctly, and nothing else |
| `Assembly.FillLayer` | skipzfp/query.py:1293-1299 | after all reads of a layer, the columns of the items outside dense chunks are right |
| `Assembly.FillDense` | skipzfp/query.py:1327-1338 | a dense chunk's prefix fills all columns of its rows and nothing else |
| `Assembly.Assemble` | skipzfp/query.py:1293-1338 | row i is the first layers of listed block i, for any set of dense chunks and any gap; its log names the fills it made, in order |
| `Assembly.CellWrittenOnce` | skipzfp/query.py:1293-1338 | a fill writes a layer of a row if and only if it is the one that row's read or dense chunk calls for |
| `Assembly.OneFillWrites` | skipzfp/query.py:1293-1338 | so exactly one of the fills in the log writes it |
| `Query.CountIsBruteForce` | skipzfp/query.py:1359-1360 | n_in * 64 plus the matches of the listed blocks is the brute-force count |
| `Query.CountOffsets` | skipzfp/csrc/query.c:820-866 | a size error exactly when an offset is out of bounds; otherwise the count of the blocks at the offsets |
| `FusedQuery.BitsKeepValue` | skipzfp/csrc/fastdec.c:31-36 | the bits that the decoder reads from a byte have the byte's value, lowest first |
| `FusedQuery.CountBlock` | skipzfp/csrc/query.c:826-843 | counted in registers with float bounds, or decoded and counted with double ones, a block gives the count of the floats it stands for |
| `FusedQuery.CountOffsets` | skipzfp/csrc/query.c:820-866 | so both fast paths meet the contract of Query.CountOffsets, for the decoder that decodes every block to what the bit-serial reference says it stands for |
| `Query.StreamCount` | skipzfp/query.py:1081-1104 | the reads' counts add up to those of all listed blocks, and no read has an offset out of bounds |
| `Query.LayeredCount` | skipzfp/query.py:1287-1352 | assembling and then decoding counts the listed blocks' prefixes |
| `Query.StateIsSound` | skipzfp/csrc/query.c:162-208 | a written record's state for a block is sound for all of its decoded values |
| `Query.RowsAreSound` | skipzfp/csrc/query.c:321-345 | unit by unit soundness is soundness chunk by chunk |
| `Query.QueryInTurn` | skipzfp/query.py:1155-1382 | for every range, layer, gap and dense choice the count is the number of decoded values in range in the whole array |
| `PipelinedQuery.ObjectInsContinue` | skipzfp/query.py:1471-1473 | the objects' IN counts add up to that of the chunks so far |
| `PipelinedQuery.QueryPipelined` | skipzfp/query.py:1448-1473 | given each object's plan and IN count, the reads of one object after another give the same brute-force count; `ArrayQuery.CountArrayPipelined` computes what is given here |
| `PipelinedQuery.PipelinedReadsAreReads` | skipzfp/query.py:1444-1466 | and makes exactly the same reads, so requests and bytes are equal |
| `ArrayQuery.TrueUnitsAreSound` | skipzfp/csrc/query.c:162-208 | records written for their originals classify every unit soundly |
| `ArrayQuery.PlanUnits` | skipzfp/query.py:1216-1226 | the planner's arrays, read back, are the plan of the array |
| `ArrayQuery.CountArray` | skipzfp/query.py:1155-1382 | from stored records to the answer: classify, list, read, decode and count give the brute-force count of the decoded array |
| `ArrayQuery.PlanObject` | skipzfp/query.py:1438-1443 | a zone map object planned as an array of its own, chunk ids shifted, is its part of the plan and of the IN count |
| `ArrayQuery.PlanObjects` | skipzfp/query.py:1431-1443 | so are all objects, the short last one included |
| `ArrayQuery.CountArrayPipelined` | skipzfp/query.py:1385-1497 | the pipelined query from stored records: every object classified and planned on its own, the brute-force count of the decoded array, with exactly the reads of the query in turn |
| `ArrayAggregate.ListedErrorCovers` | skipzfp/csrc/query.c:374-386 | the float error bound that is listed is at least the double one the classification used |
| `ArrayAggregate.ErrorsAreListed` | skipzfp/csrc/query.c:374-386 | every bound that the planner computes for a record is the least float32 not below the block's |
| `ArrayAggregate.UnitBlockOk` | skipzfp/aggregate.py:292-305 | a record true of its originals and its listed bound give aggregate_block's assumptions, and an OUT block holds no match |
| `ArrayAggregate.PlanIsOk` | skipzfp/aggregate.py:292-305 | so does every entry of the list, in the values its stored bytes decode to |
| `ArrayAggregate.AggregateOffsets` | skipzfp/csrc/query.c:942-1024 | fails exactly on an offset out of bounds or a negative error bound; otherwise the totals are those of all values behind the offsets, block after block |
| `ArrayAggregate.AggregateRun` | skipzfp/aggregate.py:157-172 | a read's totals are those of the blocks it was made for |
| `ArrayAggregate.AggregateRuns` | skipzfp/aggregate.py:187-192 | the parts of all reads are the totals of consecutive pieces of the list |
| `ArrayAggregate.SmallChunksKeepReadsShort` | skipzfp/aggregate.py:214-216 | chunks of at most 2^18 blocks keep every read within 2^24 values |
| `ArrayAggregate.OutBlocksAreNothing` | skipzfp/csrc/query.c:162-208 | the blocks that are not listed hold nothing that matches |
| `ArrayAggregate.ScanIsTruth` | skipzfp/aggregate.py:203-248 | what the intervals are proved about is a plain scan of all originals and decoded values |
| `ArrayAggregate.AggregateArray` | skipzfp/aggregate.py:251-346 | from stored records to the answer: classify, list IN and MAYBE blocks with their bounds, merge, total every read and combine; the decoded count is exact, the decoded sum off by at most 2^-28 of its terms' sizes, and the count, sum and mean of the matching originals of the whole array lie in the intervals |
| `PipelinedAggregate.CutsContinue` | skipzfp/aggregate.py:365-375 | an object's reads follow those of the objects before it, cut for cut |
| `PipelinedAggregate.TotalsJoin` | skipzfp/aggregate.py:457-464 | the reads' totals of two lists are those of one list after the other |
| `PipelinedAggregate.AggregateObject` | skipzfp/aggregate.py:422-457 | an object planned, merged, read and totalled alone gives the totals of its part of the whole list |
| `PipelinedAggregate.SmallChunksKeepObjectsShort` | skipzfp/aggregate.py:214-216 | chunks of at most 2^18 blocks keep every object's reads within 2^24 values |
| `PipelinedAggregate.AggregateArrayPipelined` | skipzfp/aggregate.py:394-487 | object by object, the answer is the very one of the aggregate in turn, rounded sums and all, and its intervals hold for the originals of the whole array |
| `WriteArray.BlockErrors` | skipzfp/csrc/core.c:275-300 | the measured block errors cover their blocks |
| `WriteArray.WriteCodes` | skipzfp/codec.py:519-542 | no error codes, or codes that cover every block's error |
| `WriteArray.RankOffsets` | skipzfp/codec.py:709-729 | the record's offset pairs end up in storage order |
| `WriteArray.WriteUnit` | skipzfp/codec.py:709-729 | a unit's record holds its range, its quantised block ranges and its error bound or codes, in storage order |
| `WriteArray.BoundMisses` | skipzfp/csrc/core.c:285-321 | in binary64, a block of 2^53 with a single -1, all decoded as 2^53, which is on the block's scale, has no measured error above the float32 bound 2^53, yet -1 is farther away |
| `WriteArray.WrittenIsTrue` | skipzfp/codec.py:709-729 | a record written so is true of its unit's originals and decoded values if and only if no value is swallowed beside its decoded value, or the other way round, under the bound that the record gives its block |
| `WriteArray.WriteRecords` | skipzfp/codec.py:622-729 | for every unit, with the unit's own bound in its record |
| `WriteArray.WriteChunk` | skipzfp/codec.py:428-455 | a chunk object is the stored form of its row of blocks |
| `WriteArray.WrittenIsTrueArchive` | skipzfp/codec.py:622-729 | so are the records of all units, and with the chunk objects they are a valid archive |
| `WriteArray.WriteArray` | skipzfp/codec.py:622-729 | write, then query: for any unit shape, block order, layers and kind of error bounds, the archive holds the sources' decoded values and its units their originals, every record stores its unit's bound, values and bounds are float32 as the aggregate assumes, and its records are true as every query assumes if and only if no value is swallowed |
| `Protocol.Pipeline.Perform` | skipzfp/query.py:1030-1104 | a step performed on the shared budget, semaphore and tasks is the step of the state machine, releases no more than is held and keeps the invariant |
| `Protocol.StepKeepsInvariant` | skipzfp/query.py:1081-1104 | every step keeps: used is what is held, used is within the limit or one read is held, permits are conserved, and no sleeper's guard is true |
| `Protocol.RunKeepsInvariant` | skipzfp/query.py:1431-1471 | so does every state of every run |
| `Protocol.LimitIsKept` | skipzfp/query.py:1030-1038 | used exceeds the limit only when one oversized read is all that is held |
| `Protocol.SleepersDoNotFit` | skipzfp/query.py:1030-1038 | a read sleeps only while bytes are held that with its own exceed the limit |
| `Protocol.PeakIsLargest` | skipzfp/query.py:1030-1044 | the peak is the largest number of bytes held so far |
| `Protocol.NoDeadlock` | skipzfp/query.py:1081-1098 | as long as anything is unfinished some step is enabled, since bytes are reserved before a permit is taken |
| `Protocol.StepDecreases` | skipzfp/query.py:1081-1104 | every step lowers a lexicographic measure |
| `Protocol.RunsEnd` | skipzfp/query.py:1431-1471 | so no run is longer than a bound fixed at the start |
| `Protocol.FinishedIsCounted` | skipzfp/query.py:1104 | after any number of steps, what the finishing steps added up, in their order, is the counts of the reads that are done |
| `Protocol.EveryScheduleFinishes` | skipzfp/query.py:1468-1473 | a schedule that can go no further has finished everything, holds nothing, has all permits back, and its steps have added up every read's count, or those of the reads that did not fail |
| `Protocol.PlannedIsShared` | skipzfp/query.py:1468-1473 | what the planning steps added up is the shares of the planned objects |
| `Protocol.RunKeepsPlanned` | skipzfp/query.py:1431-1466 | in every state of every run, a read that has started belongs to a planned object |
| `ScheduledQuery.CountsAddUpTo` | skipzfp/query.py:1104 | the counts of the reads are the matching values of the listed blocks |
| `ScheduledQuery.Follow` | skipzfp/query.py:1081-1104 | any schedule performed on the shared objects, each read decoded and counted in the step that ends it, adds up what its steps count |
| `ScheduledQuery.StreamCountScheduled` | skipzfp/query.py:1046-1104 | whatever the order in which the coroutines run, each read holding its own number of bytes, stream_count returns the matching values of all listed blocks |
| `ScheduledQuery.CountArrayScheduled` | skipzfp/query.py:1155-1382 | and the query that plans first returns the brute-force count of the whole array, from the stored records, under any schedule and budget |
| `ScheduledPipeline.ObjectsAddUp` | skipzfp/query.py:1468-1473 | the counts of all objects' reads are the matches of the whole list, and their IN counts those of the array |
| `ScheduledPipeline.Effect` | skipzfp/query.py:1431-1466 | a planning step gives its object's list and IN count, a finishing step the count of its read, whose object is already planned |
| `ScheduledPipeline.Follow` | skipzfp/query.py:1431-1473 | any schedule performed on the shared objects adds up the planned objects' IN counts and the finished reads' counts |
| `ScheduledPipeline.QueryScheduled` | skipzfp/query.py:1385-1497 | the pipelined query from the stored records, objects planned and reads counted in whatever order their steps come, within any budget and permits, each read belonging to its object and holding its own bytes, returns the brute-force count of the whole array |
| `Selection.KeysSortLikeFloats` | experiments/common.py:218-221 | keys order like the float values, except that the two equal zeros get different keys |
| `Selection.KeyValueUndoesSortKey` | experiments/common.py:224-227 | _key_value and _sort_keys are inverse on all 32-bit patterns |
| `Selection.SlabKeys` | experiments/common.py:250-252 | an error exactly when the slab holds a NaN, else its keys |
| `Selection.CountSlab` | experiments/common.py:253-259 | after a slab, the histogram counts the keys of the group seen so far by their next digit |
| `Selection.Histograms` | experiments/common.py:248-259 | one pass over any slabs counts all keys of every group |
| `Selection.Narrow` | experiments/common.py:260-264 | the next digit keeps the rank among the keys with its prefix, below counting the keys with smaller prefixes |
| `Selection.Pass` | experiments/common.py:245-264 | for every requested rank at once |
| `Selection.Select` | experiments/common.py:245-265 | after three passes over any slab split, each requested rank has the key at that rank |
| `Selection.SelectedIsSorted` | experiments/common.py:230-236 | which is the key at that position of the sorted keys |
| `Selection.SelectedValue` | experiments/common.py:265 | its value occurs in the data, with values not larger before it and not smaller behind it |
| `FilteredMean.TotalsAgree` | experiments/exp4_filtered_aggregate.py:104-118 | with both comparisons rounded, whatever the originals, every certain one matches, the totals enclose the certain sum, and a match is certain, among the ambiguous values or missed |
| `FilteredMean.LargestDominate` | experiments/exp4_filtered_aggregate.py:122-128 | the k largest values sum to at least any k of them |
| `FilteredMean.BestIsBest` | experiments/exp4_filtered_aggregate.py:126-128 | the maximum over prefixes is at least the value at every prefix |
| `FilteredMean.BestIsAttained` | experiments/exp4_filtered_aggregate.py:126-128 | and it is the value at one of them |
| `FilteredMean.LowMean` | experiments/exp4_filtered_aggregate.py:129 | including every ambiguous value at the threshold gives at most the mean with any of them |
| `FilteredMean.HighMean` | experiments/exp4_filtered_aggregate.py:126-128 | avg_hi is at least the mean with any subset of the ambiguous values |
| `FilteredMean.IntervalsHoldTruth` | experiments/exp4_filtered_aggregate.py:135-136 | the true count is at least nc; and if no value lies in the gap, at most nc + na, and the true mean, when there is one, is in [avg_lo, avg_hi] |
| `FilteredMean.MissedIsGap` | experiments/exp4_filtered_aggregate.py:109-110 | a value is in neither group exactly if r <= rnd(th - e), and then matches only if r > th - e |
| `FilteredMean.CountHolds` | experiments/exp4_filtered_aggregate.py:135 | the count is at most nc + na for all originals of a kind if and only if no more values of neither group can match than ambiguous ones cannot |
| `FilteredMean.GapsDecide` | experiments/exp4_filtered_aggregate.py:109-110 | if every number within the bounds may be an original, that is if and only if no value lies in the gap |
| `FilteredMean.MatchIsMissed` | experiments/exp4_filtered_aggregate.py:109-135 | in binary64, 0 decoded as -1 with bound 1 is above -2^-60, and counted neither as certain nor as ambiguous |
| `FilteredMean.HighIsReached` | experiments/exp4_filtered_aggregate.py:122-131 | where rounding leaves no gaps, some originals' mean is avg_hi |
| `FilteredMean.LowIsApproached` | experiments/exp4_filtered_aggregate.py:122-131 | and some originals, nc + na of them matching, have a mean as near avg_lo as one likes |
| `FilteredMean.Stage2` | experiments/exp4_filtered_aggregate.py:100-131 | the totals built slab by slab are those of all values, and the interval follows from them |

## Left out

- libzfp's own encoder and decoder and the final scaling by `ldexpf(1.0f, emax - 30)`: in the queries, decoding a block's bytes is a map; in the fused count, scaling is any function onto the floats.
- `WriteArray.WriteArray`: the unit's float bound is given, as a float32 that no measured error exceeds (skipzfp/csrc/core.c:318-321); libzfp's encoder is the given table of encoded blocks, and the record's byte form is left to `Records`.
- Overflow, NaN values in blocks, and fused multiply-add: inputs are float32, and doubles are modelled without an upper limit.
- `ArrayAggregate.AggregateArray`: the bounds are proved for reads of at most 2^24 values, since the slack (n + 2) * 2^-53 leaves room for second-order rounding only up to about 2^27; the mean interval is stated for at most 2^53 listed values, which is what a double counts exactly.
- `combine`'s decoded mean, the rounded quotient of the decoded sum and count.
- `Attained.LowSumsAreApproached`: the originals that come near the lower ends are real numbers, since a clipped end itself does not match; those that reach the bounds on the count are doubles.
- `Pruning.ClassificationIsComplete`: the widening by one quantisation step is the reader's; that the stored code is the exact floor or ceiling is not said where rounding decides.
- Zarr stores, HTTP, ctypes, zstd, CRC32 and attribute handling: a store is a sequence of byte strings; missing objects and short reads are the protocol's failures.
- OpenMP: both planner passes run in sequence, and what each chunk writes is proved to be its own stretch.
- Argument checks, NULL and allocation failures, timings, traces, thread pools and the experiment drivers.
- Thirty-two and sixty-four bit index arithmetic of the planner and the reader: sizes are natural numbers, as the source rejects arrays whose counts do not fit.
- `PlanBlocks.PlanArrays`: the conversion of a double bound to float32 is a function that is given, which the aggregate takes to be `ZoneMap.FloatAtLeast`.
- `block_rank`, `pack_meta` and `unpack_meta` work on numpy arrays: they are modelled on sequences, so views and buffer sharing are not captured.
- The choice of dense chunks by `max_chunk_requests`: the results hold for every set of chunks.
- `merge_ranges`'s fallback sort for lists out of order: the planner's lists are proved to be sorted.
- `plan_meta`'s copying of one layer's error bound into single-layer records, and the gather of a block's 64 values from a chunk in `szfp_meta`.
- `ZoneMap.FloatAtLeastIsLeast`: steps up to the next float or +inf, while `szfp_meta` steps towards FLT_MAX, which differs only for an error bound above FLT_MAX.
- `ZoneMap.BlockErrorCodes`: assumes that 15 times the unit's bound is a double, which `Float32.SingleIsCoded` proves of float32 bounds.
- The interpolation between two selected values in `quantiles`, and its choice of ranks.
- `FilteredMean.TotalsAgree`: sums are exact reals, where numpy rounds; the experiment adds no slack for it. That each original is within e of its decoded value is assumed, as `stage2` does.
- `FilteredMean.IntervalsHoldTruth`: the same for the quotients; the mean interval is proved where no value lies in the gap.
- `FilteredMean.Stage2`: the same for the totals built slab by slab; the approximate count and mean, which nothing bounds, are not specified.
- `FilteredMean.GapsDecide`: real numbers between the float32 values are counted as originals; `FilteredMean.CountHolds` is for any set of them.
- `Query.CountOffsets`: decoding is a map; `FusedQuery.CountOffsets` has the same contract for the two fast decoders, and the path through libzfp is left to the map.
- `Protocol.EveryScheduleFinishes`: a failed read fails alone and the others run on, as `asyncio.gather` lets them; the exception that its caller gets is not modelled.
- `ScheduledQuery.StreamCountScheduled`: the schedules are those without a failed read, since the source returns no count otherwise.
- `ScheduledPipeline.QueryScheduled`: the same, and without a failed object; the counts are added up as integers, where the source adds them as doubles, which are exact below 2^53.
- `PipelinedAggregate.AggregateArrayPipelined`: the objects are taken one after another, as `asyncio.gather` returns their totals in their order; schedules are modelled for the count.
- The bookkeeping of `read_blocks`, and `szfp_decode_blocks` and other entry points that repeat the modelled loops with other outputs.
