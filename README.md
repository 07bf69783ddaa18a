# Power analysis of FIT workout files — a Dafny model

This project models the core of a cycling-workout analyser that has two parts.

The server decodes a FIT file into sample records and session summaries. From those it reports:

- the average power;
- the threshold power (FTP);
- the overall left/right pedalling balance;
- whole-activity torque effectiveness and pedal smoothness;
- a per-zone breakdown: for each of six power zones, the sample count, balance, torque and smoothness.

The mobile picker runs a metadata check on a chosen document before it is uploaded. The server has its own quick test of a path.

The project has these modules:

- `Numeric`: JavaScript's `Math.round`, over exact reals.
- `Text`: decimal rendering (`${n}`), ASCII lower-casing, `startsWith`/`endsWith`, and `split(sep)[0]`.
- `Telemetry`: the decoded record and session fields the engine reads. It also normalises a polarity-encoded balance reading (`{value, right}`) into left/right percentages.
- `PowerZones`: the classifier `getPowerZone` with its six bands (< 55 %, 55-75 %, 75-90 %, 90-105 %, 105-120 %, ≥ 120 % of threshold power). It is tied to a zone table and to the rendered watt range `"<min>-<max>W"`, which gets a `+` at the 9999 sentinel.
- `Tallies`: one generic running total over a record list, `Tally(records, metric)`. The power, balance and torque/smoothness loops are proved to compute it, and the zone pass is proved to compute it per zone.
- `ZoneList`: the zone map's accumulators and the finalised entries. It also has the stable sort by zone, and the canonical zone list (one entry per zone that has samples, Z1..Z6). The engine's output is proved equal to that list.
- `ParseFit`: the engine. `Analyze` is the reference definition of the result. The method `ParseFitData` does the engine's own computation. The session step is inline; each later pass is a method with a loop:
  1. session first;
  2. record fallback;
  3. torque/smoothness pass;
  4. zone pass over a `map` plus its insertion order;
  5. `entries().filter().map()`, proved equal to `FinalizedEntries`, and then the sort.

  `ParseFitData` is proved to return exactly `Analyze`.
- `FitFilePicker`: the picker's `validateFitFile`.
- `FitFileCheck`: the server's `isFitFile`. Each `fs.statSync` result is a parameter.

Numbers are exact reals, so `Math.round(x)` is `floor(x + 0.5)`. A JavaScript `Map` is modelled as a Dafny `map` plus the sequence of keys in first-insertion order. Strings are `seq<char>`.

Where the code's own comments and the code differ, the model follows the code:

- **Record balance.** The comment at `server/src/parse-fit.ts:190` says the records are used "if session data not available". In fact the record balance is computed only inside the record fallback (`server/src/parse-fit.ts:191-240`), and that fallback runs only when the session's average power rounds to 0. So a session with an average of at least 0.5 W but no balance reading reports no balance, whatever the records carry (`SessionPrecedence`).
- **Small session averages.** A session average in (0, 0.5) rounds to 0, so the fallback runs. The records then give the average power and the balance, but the session's threshold power is still kept. The session's balance is also kept when no power record carries one (`TinySessionAverageFallsBack`).
- **The "+" in the watt range.** The constant 9999 marks the open-ended top zone (`server/src/parse-fit.ts:124`). However, the range text tests `maxPower === 9999` (`server/src/parse-fit.ts:319`), so a bounded zone whose rounded maximum is 9999 is rendered with a `+` as well (`SentinelOnBoundedZone`: with a threshold of 9523 W, 9000 W is in Z4).
- **`isFitFile` versus the picker.** The server's test (`> 100` bytes) is looser than the picker's (`fileSizeKB >= 0.1`, i.e. more than 102 bytes) (`ServerAcceptsWhatPickerCallsEmpty`).

## Model

| member | source | states |
|---|---|---|
| Numeric.Round | server/src/parse-fit.ts:163 | `Math.round(x)` is the integer `r` with `r - 0.5 <= x < r + 0.5`, so halves round up |
| Numeric.RoundShares | server/src/parse-fit.ts:175-184 | two shares of an integer `c`, rounded independently, add up to `c` or `c + 1`; `c + 1` exactly when they are halves |
| Text.IntToString | server/src/parse-fit.ts:319 | the template-literal rendering of an integer starts with '-' iff it is negative; the rest is decimal digits, without a leading zero, that read back as the number's magnitude |
| Text.NatToStringRoundTrip | server/src/parse-fit.ts:319 | reading the rendered digits back gives the number |
| Text.ToLower | ui/components/fit-file-picker.tsx:40 | lower-casing keeps the length and lower-cases each ASCII letter in place |
| Text.PrefixBefore | ui/components/fit-file-picker.tsx:78 | `split(sep)[0]` is a prefix without `sep`, and is followed by `sep` when shorter than the string |
| Text.PrefixBeforeSeparator | ui/components/fit-file-picker.tsx:78 | splitting `a + sep + b` at the first `sep` gives back `a` when `a` has no `sep` |
| Telemetry.Split | server/src/parse-fit.ts:310-311 | a balance reading's unrounded shares add to 100, and the referenced leg's share is the reading's value |
| Telemetry.NormalizeBalance | server/src/parse-fit.ts:171-185 | the referenced side is the rounded value, the other the rounded complement, summing to 100, or 101 exactly at a half |
| Telemetry.TorqueSides | server/src/parse-fit.ts:256-258 | a record's torque reading is present iff both sides are present and positive |
| Telemetry.SmoothnessSides | server/src/parse-fit.ts:264-266 | a record's smoothness reading is present iff both sides are present and positive |
| PowerZones.GetPowerZone | server/src/parse-fit.ts:75-127 | the chosen zone's band contains the percentage, and the record returned is that zone's row of the zone table (description, range text, rounded watt bounds, 9999 for Z6) |
| PowerZones.BandsDisjoint | server/src/parse-fit.ts:78-125 | no percentage lies in two zones' bands |
| PowerZones.ClassifyIff | server/src/parse-fit.ts:76-125 | zone `z` is chosen exactly when the percentage lies in `z`'s band, lower bound inclusive |
| PowerZones.ClassifyInWatts | server/src/parse-fit.ts:76-125 | zone `z` is chosen exactly when power is at least `z`'s lower share of threshold power and below its upper share |
| PowerZones.ClassifyMonotone | server/src/parse-fit.ts:76-125 | more power never yields a lower zone |
| PowerZones.ZoneWattBounds | server/src/parse-fit.ts:83-124 | Z1 starts at 0 W, Z6 ends at 9999, each zone's minimum is the previous zone's maximum, and bounded zones have min ≤ max |
| PowerZones.NameOrderIsIndexOrder | server/src/parse-fit.ts:375 | comparing zone names "Z1".."Z6" as strings orders them as their numbers |
| PowerZones.RangeLabel | server/src/parse-fit.ts:319 | the watt range is the rendered minimum, '-', the rendered maximum, then "+W" when the maximum is 9999 and "W" otherwise |
| PowerZones.TopZoneLabel | server/src/parse-fit.ts:118-125 | Z6's range reads "<rounded 120 % of threshold>-9999+W" |
| PowerZones.SentinelOnBoundedZone | server/src/parse-fit.ts:319 | at threshold 9523 W, 9000 W falls in Z4 whose maximum rounds to 9999, and its range is rendered open-ended |
| PowerZones.BoundaryExamples | server/src/parse-fit.ts:78-125 | at 200 W threshold: 109 W is Z1, 110 W and 149 W are Z2, 150 W is Z3, 240 W is Z6 |
| Tallies.Tally | server/src/parse-fit.ts:198-230 | a running total counts at most one sample per record and is zero when nothing was counted |
| Tallies.MeanPair | server/src/parse-fit.ts:273-284 | the rounded per-side mean is absent iff nothing was counted, and each side is the nearest integer to its mean |
| Tallies.TallyPermutation | server/src/parse-fit.ts:192-352 | every running total depends only on the multiset of records, not their order |
| Tallies.BalanceTotalsSplitHundred | server/src/parse-fit.ts:215-230 | balance totals (overall or per zone) add up to 100 times their count |
| Tallies.BalanceNeedsPower | server/src/parse-fit.ts:205-207 | balance samples are a subset of the power samples |
| Tallies.ZoneCountsBounded | server/src/parse-fit.ts:307-350 | a zone's sample count is at most the balance count, and its torque and smoothness counts at most its sample count |
| Tallies.ZonesPartitionBalanceRecords | server/src/parse-fit.ts:307-332 | the six zones' sample counts add to the number of records with positive power and a balance reading |
| Tallies.OneSidedReadingsIgnored | server/src/parse-fit.ts:335-350 | a record without two positive torque (smoothness) sides leaves every zone's torque (smoothness) sums unchanged |
| Tallies.TallyCountZero | server/src/parse-fit.ts:273-284 | a total has count 0 exactly when no record has a reading for it |
| Tallies.MeanBalanceSums | server/src/parse-fit.ts:232-236 | the rounded mean of balance totals adds up to 100 or 101 |
| Tallies.TallySameReadings | server/src/parse-fit.ts:255-271 | two record lists with the same readings for a metric, position by position, have the same total |
| ZoneList.NewAccumulator | server/src/parse-fit.ts:313-327 | a zone's fresh entry has zero totals and counts, the zone's description and its rendered watt range |
| ZoneList.Finalize | server/src/parse-fit.ts:357-374 | an entry keeps zone, description, range and count, always reports balance, and reports torque/smoothness iff their counts are positive |
| ZoneList.InsertByZone | server/src/parse-fit.ts:375 | inserting into a sorted list keeps it sorted and adds only the inserted entry |
| ZoneList.SortByZone | server/src/parse-fit.ts:375 | the sort yields entries ordered by zone |
| ZoneList.SortPermutes | server/src/parse-fit.ts:375 | the sort is a permutation of its input |
| ZoneList.SortedUnique | server/src/parse-fit.ts:375 | two sorted permutations of entries with one entry per zone are equal |
| ZoneList.CanonicalZoneListFacts | server/src/parse-fit.ts:355-375 | the canonical zone list is strictly ordered by zone, lists each zone with samples once, with its entry, and nothing else |
| ZoneList.CanonicalSampleTotal | server/src/parse-fit.ts:306-361 | the listed sample counts add up to the number of records with positive power and a balance reading |
| ZoneList.CanonicalPermutation | server/src/parse-fit.ts:306-375 | rearranging the records leaves the zone list unchanged |
| ZoneList.SortedFoldIsCanonical | server/src/parse-fit.ts:355-375 | filtering, finalising and sorting the filled zone map, in any insertion order, gives the canonical list |
| ZoneList.EntryContents | server/src/parse-fit.ts:313-374 | a zone's entry reports its description, rendered range, sample count, rounded mean balance (summing to 100 or 101), and the rounded means of its two-sided torque and smoothness readings |
| ParseFit.PowerTotals | server/src/parse-fit.ts:192-202 | the loop's total and count are the sum and number of records with positive power |
| ParseFit.BalanceTotals | server/src/parse-fit.ts:205-230 | the loop's totals are the left/right shares over the power records carrying a balance, and both counts equal their number |
| ParseFit.TorqueAndSmoothness | server/src/parse-fit.ts:243-286 | whole-activity torque and smoothness are the rounded means over records with both sides positive, absent when there are none |
| ParseFit.AddToEntry | server/src/parse-fit.ts:329-350 | one record's `+=` updates add its balance shares and count, and its torque and smoothness only when both sides are positive |
| ParseFit.AddRecord | server/src/parse-fit.ts:307-351 | a qualifying record is classified and added to its zone's entry, which is created and appended to the key order if missing; others change nothing |
| ParseFit.AccumulateZones | server/src/parse-fit.ts:291-352 | after the pass a zone has a key iff a record fell in it, its value holds that zone's totals, and the key order lists each key once |
| ParseFit.ZoneEntries | server/src/parse-fit.ts:355-374 | the entries are the finalised accumulators of the keys with samples, in key order |
| ParseFit.FinalizedEntriesMembers | server/src/parse-fit.ts:355-374 | every listed entry is the finalised accumulator of a key with samples, and every such key's entry is listed |
| ParseFit.FinalizedEntriesDistinct | server/src/parse-fit.ts:355-374 | keys listed once give entries listed once |
| ParseFit.ParseFitData | server/src/parse-fit.ts:151-385 | the engine's result equals the reference analysis `Analyze` |
| ParseFit.SessionPrecedence | server/src/parse-fit.ts:160-188 | a session average of at least 0.5 W decides average power (≥ 1), threshold power and balance; the records are not used for them |
| ParseFit.TinySessionAverageFallsBack | server/src/parse-fit.ts:162-202 | a session average in (0, 0.5) rounds to 0: the records give average power and balance, but the session's threshold is kept |
| ParseFit.RecordFallback | server/src/parse-fit.ts:190-240 | without a session average: the records' rounded mean power (0 if none), their mean balance, no threshold and no zones |
| ParseFit.ThresholdAndZonesSource | server/src/parse-fit.ts:166-168 | threshold power is reported iff the session has positive average and threshold; zones only with a threshold and some record with a balance |
| ParseFit.TorqueAndSmoothnessPresence | server/src/parse-fit.ts:243-286 | torque (smoothness) is absent exactly when no record has both sides positive |
| ParseFit.TorqueAndSmoothnessIndependent | server/src/parse-fit.ts:255-271 | the smoothness result depends only on the smoothness fields, and torque only on the torque fields |
| ParseFit.BalanceAddsUp | server/src/parse-fit.ts:171-236 | a reported balance adds up to 100 or 101, from session or records |
| ParseFit.ZoneListContents | server/src/parse-fit.ts:290-376 | with a threshold, the zone list is strictly in zone order, lists exactly the zones with samples with their entries, and its counts total the balance samples |
| ParseFit.OrderIndependence | server/src/parse-fit.ts:191-376 | reordering the records leaves the whole analysis unchanged |
| ParseFit.EmptyInput | server/src/parse-fit.ts:152-157 | no records and no sessions give zero average power and nothing else |
| FitFilePicker.ValidateFitFile | ui/components/fit-file-picker.tsx:30-84 | valid iff no error message; and valid iff the lower-cased name ends ".fit", the size is 103..51 200 000 bytes, and any MIME type is not image/video/audio |
| FitFilePicker.TooSmallInBytes | ui/components/fit-file-picker.tsx:50-53 | under 0.1 KB means at most 102 bytes |
| FitFilePicker.TooLargeInBytes | ui/components/fit-file-picker.tsx:61 | over 50000 KB means more than 51 200 000 bytes |
| FitFilePicker.ExtensionCheckedFirst | ui/components/fit-file-picker.tsx:40-47 | a wrong extension gives the invalid-type message whatever the size and MIME type |
| FitFilePicker.SmallOrMissingSizeIsEmpty | ui/components/fit-file-picker.tsx:50-59 | with the right extension, a missing size or at most 102 bytes gives the empty-file message |
| FitFilePicker.LargeSizeIsTooLarge | ui/components/fit-file-picker.tsx:61-67 | with the right extension, over 51 200 000 bytes gives the too-large message |
| FitFilePicker.MediaTypeNamed | ui/components/fit-file-picker.tsx:72-80 | a passing name and size with MIME type `kind/rest` for a media kind is refused with a message naming `kind` |
| FitFilePicker.MediaTypeRefused | ui/components/fit-file-picker.tsx:72-80 | a passing name and size with a media MIME type is refused with the media message |
| FitFilePicker.MissingMimeTypeNeverRefuses | ui/components/fit-file-picker.tsx:72 | without a MIME type, name and size alone decide validity |
| FitFilePicker.UpperCaseExtension | ui/components/fit-file-picker.tsx:39-41 | a name ending ".FIT" passes the extension check |
| FitFilePicker.CaseInsensitive | ui/components/fit-file-picker.tsx:39-41 | lower-casing the name first does not change the verdict |
| FitFileCheck.IsFitFile | server/src/parse-fit.ts:431-448 | the early-return chain (stat throws, not a regular file, wrong extension, size) accepts exactly a regular file whose lower-cased name ends ".fit" and whose size is over 100 bytes |
| FitFileCheck.PickerAcceptedPassesServer | server/src/parse-fit.ts:431-448 | a regular file that the picker accepts also passes the server's test |
| FitFileCheck.ServerAcceptsWhatPickerCallsEmpty | server/src/parse-fit.ts:444 | a 101-byte "RIDE.FIT" passes the server's test, but the picker refuses it as empty |
| FitFileCheck.StatFailureRefused | server/src/parse-fit.ts:432-447 | a path whose stat throws, or that is not a regular file, is refused |

## Left out

- FIT decoding (`fit-file-parser`'s `parse` callback, its error path) and the Promise wrapper around the engine (`server/src/parse-fit.ts:132-150`, `386-391`): a foreign library. The engine starts from decoded `records` and `sessions`.
- The `try/catch` around the engine: with exact values nothing in the modelled computation throws.
- File reading in `parseFitFile`, and the wrappers `parseFitBuffer`/`getAveragePower` (`server/src/parse-fit.ts:399-424`): I/O and plain delegation.
- `fs.statSync` in `isFitFile` is a parameter (`Option<FileStat>`, `None` when it throws).
- Console logging throughout: it has no effect on results.
- IEEE-754 doubles: numbers are exact reals. NaN, infinities, accumulated rounding error and JavaScript truthiness of non-numeric fields are not modelled. An absent field and a `null` field are both `None`.
- Text.ToLower: only ASCII letters are lower-cased; JavaScript's full Unicode `toLowerCase` is not modelled.
- ZoneList.SortByZone: zones are ordered by number, not by `localeCompare` on names. `NameOrderIsIndexOrder` shows the two agree for "Z1".."Z6" under code-point order. Locale collation itself is not modelled.
- Record timestamps, power phases and other decoder fields: the engine does not read them.
- The picker's UI state, document picking, upload and alerts (`ui/components/fit-file-picker.tsx` outside lines 30-84): only the metadata check is modelled.
- The file's `uri` in the picker's asset: it is logged only.
- The HTTP routes, CLI and debug scripts, and the chart components: these are callers of the core, not part of it.
