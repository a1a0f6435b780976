# Wi-Fi scan log parsing, modelled in Dafny

`iwscanlog.py` logs the Wi-Fi access points around a host to estimate which ones use the 5600–5650 MHz band that is reserved for weather radar. This project models, as Dafny, the integer and text logic it applies to a scan dump:

- **The channel plan** (`wifi_channel_plan`).
  - A table from channel number to centre frequency `Fc`, bandwidth `BW` and band edges `fmin`/`fmax`.
  - It holds the 2.4 GHz channels 1–14 and the 5 GHz 20/40/80/160 MHz channels, with channels 70..94 removed.
  - `ChannelPlan` builds the table exactly as the tool does. It then proves the table equal to a closed form: `Fc = 2407 + 5·ch` at 2.4 GHz and `Fc = 5000 + 5·ch` at 5 GHz, the width from the channel's residue. It also proves bounds, the 5350–5470 MHz gap and uniqueness.
- **The `iw` dialect** (`parse_iw_scan`), in two stages.
  - **Tokenizer** (`IwScan`).
    - A loop over lines: a `BSS` line opens a record, and field lines fill the last record.
    - A mode (`HTMODE`) set by the `HT operation:` and `VHT operation:` headers decides which sub-keys are captured.
  - **Resolver** (`IwResolve`).
    - For each record: the 20 MHz channel of `freq_20`, HT 40 MHz bonding, and the VHT 80/160 MHz width from the plan.
    - The choice of `Fc`/`Channel` (VHT, then HT40 with a 5 GHz channel, then 20 MHz).
    - The `assert`s and table lookups that abort the parse.
    - The table's `fmin`/`fmax`/`Time` columns.
- **The `iwlist` dialect** (`parse_iwlist_scan`, `IwlistScan`).
  - The rewrite of the raw text, then a loop over lines.
  - An `Address` line opens a record holding the lower-cased MAC and its hexadecimal `ID`. Lines starting with a kept word store a field.
  - `center1`, `chanbw`, `Signal` and `Channel` are read as integers, and `Frequency` is converted from GHz to MHz.
  - The table is `None` when there is no record. Otherwise its band edges are `center1 ∓ chanbw//2`.
- **The overlap filter** (`filter_mto`, `MtoFilter`): the rows with `fmin < 5650` and `fmax > 5600`, in order.

Python exceptions become a `Result` failure, one `ScanError.Error` constructor per cause. Any of them aborts the whole parse, as it does in the tool. The loops that change records step by step are methods with loop invariants. Each is proved equal to a left fold (`Tokenize`, `ResolveSeq`, `Collect`) of a per-line function, and the lemmas are stated about those functions. The parsers take the plan as a parameter. Their lemmas assume only `ChannelPlan.Faithful(plan)`, which `ChannelPlan.PlanFaithful` proves for the tool's plan.

Files:
- `wrappers.dfy`: `Option` and `Result`.
- `scan_error.dfy`: the error causes.
- `text.dfy`: the Python string and number operations the tool uses.
- `channel_plan.dfy`, `iw_scan.dfy`, `iw_resolve.dfy`, `iwlist_scan.dfy`, `mto_filter.dfy`: one module each, as described above.

### Consistency checks and edge cases

- The consistency checks of the `iw` resolver are `assert`s (`iwscanlog.py:121`, `124`, `140` and `141`). A failed one aborts the whole parse rather than skipping the record, and so it does here.
- A VHT record with segment 1 = 46 and width code 1 fails. Channel 46 is a 40 MHz plan channel while the computed width is 80, so the assert at `iwscanlog.py:141` fails. `IwResolve.VhtWidthCheck` gives `VhtBandwidth(80, 40)` for that input.
- The comment in `filter_mto` at `iwscanlog.py:216` derives an inclusive test (`fmax >= 5600 and fmin <= 5650`). The code at line 217 uses strict comparisons, so a band that only touches the watched band is dropped (`MtoFilter.TouchingDropped`).

## Model

| member | source | states |
|---|---|---|
| ChannelPlan.DropGap | iwscanlog.py:65 | the rows kept are exactly those whose channel is outside 70..94 |
| ChannelPlan.PlanReference | iwscanlog.py:49-68 | every plan entry is the closed-form entry of its channel (`Fc = 2407 + 5·ch` or `5000 + 5·ch`), and every closed-form channel has its entry in the plan |
| ChannelPlan.PlanBounds | iwscanlog.py:49-67 | every entry has `fmin < Fc < fmax`, `fmax - fmin = BW` and `BW` in {20, 40, 80, 160} |
| ChannelPlan.PlanGap | iwscanlog.py:65-67 | no entry has a channel in 70..94, and every entry lies at or below 5350 MHz or at or above 5470 MHz |
| ChannelPlan.RefEntryBounds | iwscanlog.py:49-67 | bounds and gap for the closed-form entry of any plan channel |
| ChannelPlan.RefFcInjective | iwscanlog.py:50-62 | two plan channels with the same centre frequency are the same channel |
| ChannelPlan.BandsDistinct | iwscanlog.py:49-64 | the five concatenated sub-bands hold no channel twice |
| ChannelPlan.PlanDistinct | iwscanlog.py:49-68 | channel numbers and centre frequencies of the plan are pairwise distinct, so each lookup has at most one match |
| ChannelPlan.ChannelAt | iwscanlog.py:118 | `fplan[fplan.Fc==f].index[0]`: absent exactly when no entry has centre `f`, else the channel of such an entry |
| ChannelPlan.Lookup | iwscanlog.py:128 | `fplan.loc[c]`: absent exactly when no entry has channel `c`, else that entry |
| ChannelPlan.ChannelAtPlan | iwscanlog.py:118 | on the tool's plan, the channel found for `f` is `c` exactly when `c` is a plan channel with closed-form centre `f` |
| ChannelPlan.LookupPlan | iwscanlog.py:128 | on the tool's plan, the entry of `c` is its closed-form entry when `c` is a plan channel, else absent |
| ChannelPlan.PlanFaithful | iwscanlog.py:48-69 | the tool's plan meets `Faithful`, the description the parser lemmas rely on |
| Text.SplitJoin | iwscanlog.py:174 | `split` then `join` gives the text back, and no piece holds the separator |
| Text.SplitFirst | iwscanlog.py:180 | `s.split(c, 1)` unpacked: absent exactly when `c` does not occur, else the parts around the first `c` |
| Text.RStrip | iwscanlog.py:178 | the result is a prefix that does not end in whitespace, and only whitespace was removed |
| Text.Lower | iwscanlog.py:181 | same length, no capital left, each capital becomes the small letter at the same place in the alphabet, every other character stays |
| Text.LowerIdempotent | iwscanlog.py:181 | lower-casing twice is lower-casing once |
| Text.ReplaceKeepsOut | iwscanlog.py:171-173 | a replacement brings in no character absent from the text and from the replacement |
| Text.ReplaceRemoves | iwscanlog.py:171-172 | replacing a character by a text without it removes every occurrence |
| Text.MacId | iwscanlog.py:88 | `int(mac.replace(':', ''), 16)` of a well-formed MAC address succeeds and is below 2^48 |
| Text.HexDigitsParse | iwscanlog.py:182 | a string of hexadecimal digits parses to the number it denotes |
| Text.ParseDecimal | iwscanlog.py:197 | a parsed decimal has its sign, and digit-only whole and fraction parts that are the text before and after the point (the whole text when there is no point) |
| Text.DecimalParse | iwscanlog.py:197 | digits, a point and digits parse to exactly that decimal |
| Text.ReplaceSuffix | iwscanlog.py:197 | `replace` drops a suffix whose first character occurs nowhere before it and changes nothing else |
| IwScan.TokenizeLines | iwscanlog.py:81-115 | the loop over lines computes `Tokenize`, the fold of the per-line function |
| IwScan.ApplyLine | iwscanlog.py:85-115 | one pass of the loop body computes `Apply` on the records and mode |
| IwScan.TestGate | iwscanlog.py:86-115 | the elif chain equals the mode-free classification gated by `HTMODE` |
| IwScan.TestOpens | iwscanlog.py:86 | a line opens a record exactly when it starts with `BSS ` and ends with `(on iface)` or `-- associated` |
| IwScan.TestHtHeader | iwscanlog.py:104 | a line is the HT header exactly when it is `HT operation:` |
| IwScan.TestVhtHeader | iwscanlog.py:110 | a line is the VHT header exactly when it is `VHT operation:` |
| IwScan.TestHtKey | iwscanlog.py:106 | a line taken as an HT sub-key starts with one of the three HT prefixes |
| IwScan.TestVhtKey | iwscanlog.py:112 | a line taken as a VHT sub-key starts with one of the VHT prefixes |
| IwScan.Evaluate | iwscanlog.py:86-115 | the line's effect is a record opener, a sub-key or a header exactly when its tag says so; no plain field is an HT/VHT sub-key |
| IwScan.Address | iwscanlog.py:87-88 | the MAC is at most 17 characters, exactly 17 on a line of at least 21; a well-formed MAC gives an ID below 2^48 |
| IwScan.Set | iwscanlog.py:91-115 | storing a field never changes MAC or ID, and changes the HT/VHT maps only for sub-keys |
| IwScan.Store | iwscanlog.py:91-115 | a field line fails exactly when there is no record; otherwise only the last record changes |
| IwScan.SubKey | iwscanlog.py:107-108 | `k,v = line.split(':')` succeeds exactly when the rewritten line splits into two parts; then `k + ':' + v` is that line and neither part holds a colon; a failure is a bad field |
| IwScan.LexValues | iwscanlog.py:86-115 | a line opens a record exactly when it matches; sub-key lines carry their split pair |
| IwScan.LexHeaders | iwscanlog.py:104-111 | the header effects occur exactly on the two header lines |
| IwScan.ApplyOpens | iwscanlog.py:86-89 | a `BSS` line appends one record with its MAC and ID and keeps the mode; a non-hex MAC fails |
| IwScan.ApplyKeeps | iwscanlog.py:90-115 | any other line keeps the number of records, every MAC and ID, and every record but the last |
| IwScan.ApplySection | iwscanlog.py:82-111 | the mode changes only at the two headers, never at a `BSS` line |
| IwScan.ApplyHt | iwscanlog.py:106-109 | HT maps change only for an HT sub-key in HT mode, and then only in the last record |
| IwScan.ApplyVht | iwscanlog.py:112-115 | VHT maps change only for a VHT sub-key in VHT mode, and then only in the last record |
| IwScan.RunRecords | iwscanlog.py:84-89 | after any run, the (MAC, ID) list is the earlier one plus the openers of the tokens, in order |
| IwScan.RunSection | iwscanlog.py:82-111 | the final mode is the last header seen, or the start mode |
| IwScan.AddressesScanned | iwscanlog.py:84-89 | the openers of the scanned tokens are the opener lines of the text |
| IwScan.OpenersIds | iwscanlog.py:87-88 | each opening line's `ID` is the hexadecimal value of its address |
| IwScan.TokenizeHeads | iwscanlog.py:84-89 | the records are those the opening tokens append, in order, with their MACs and IDs |
| IwScan.TokenizeRecords | iwscanlog.py:81-115 | one record per opener line, in input order, with that line's MAC and ID |
| IwScan.TokenizeIds | iwscanlog.py:88-89 | every ID is its MAC read as hexadecimal, below 2^48 for a well-formed MAC |
| IwResolve.ResolveAll | iwscanlog.py:116-154 | the loop over records computes `ResolveSeq`, the first failure aborting |
| IwResolve.ParseIwScan | iwscanlog.py:77-160 | the whole `iw` parser equals `IwScanTable` on the tool's plan |
| IwResolve.FortyPlan | iwscanlog.py:127-131 | `freq_40 = Fc(primary) ± 10` depending on `above`; a 40 MHz channel exactly when above 5000 MHz, with that centre |
| IwResolve.EightyPlan | iwscanlog.py:139-143 | the VHT centre succeeds exactly when the channel is in the plan, segment 2 is `0`, no segment 3 and the widths agree |
| IwResolve.HtPlan | iwscanlog.py:119-132 | no primary gives 20 MHz unchanged; otherwise primary = `channel_20`, DS = primary, the HT keys deleted, 40 MHz exactly for `any` |
| IwResolve.VhtPlan | iwscanlog.py:133-144 | no VHT width keeps the width; code 1 gives 80, above 1 gives 160, else the earlier width; the VHT keys deleted; a centre exactly when segment 1 ≥ 32 |
| IwResolve.ResolveChannel | iwscanlog.py:118-154 | `freq_20` is the centre of `channel_20`, and the output channel is a plan channel centred at `Fc` |
| IwResolve.ResolvePrecedence | iwscanlog.py:146-154 | `Fc`/`Channel` come from VHT, else from HT40 when `channel_40` exists, else from `freq_20` |
| IwResolve.ResolveWidth | iwscanlog.py:117-145 | `chanbw` is 80/160 by VHT code, else 40 for HT `any`, else 20; always one of 20/40/80/160 |
| IwResolve.ResolveVhtCentre | iwscanlog.py:137-148 | with a VHT centre, `Fc` is the plan centre of segment 1 and `chanbw` its plan width |
| IwResolve.ResolveHt40Low | iwscanlog.py:129-154 | a 2.4 GHz HT40 record has no `channel_40`, and without VHT keeps `Fc = freq_20` with `chanbw = 40` |
| IwResolve.ResolveKeeps | iwscanlog.py:116-154 | resolution keeps MAC, ID, `freq_20`, signal, SSID, country, environment and channels |
| IwResolve.ResolveNoFreq | iwscanlog.py:118 | a record without `freq_20` fails with a missing key |
| IwResolve.ResolveOffPlan | iwscanlog.py:118 | a `freq_20` that is no plan centre fails |
| IwResolve.ResolvePrimaryChecks | iwscanlog.py:120-124 | a primary other than `channel_20`, or a DS channel other than the primary, fails |
| IwResolve.VhtSegmentChecks | iwscanlog.py:139-140 | segment 1 not in the plan fails; segment 2 not `0` or a segment 3 fails |
| IwResolve.VhtWidthCheck | iwscanlog.py:134-141 | a computed width that differs from the plan width of segment 1 fails |
| IwResolve.ResolveSeqEach | iwscanlog.py:116 | all records resolve exactly when each does, and the rows are the per-record results in order |
| IwResolve.ResolveSeqFirst | iwscanlog.py:116 | the first record that fails decides the error |
| IwResolve.FrameRows | iwscanlog.py:155-158 | no record fails (no `Fc` column); otherwise one row per record with `Fc ∓ chanbw//2` and the same time |
| IwResolve.FrameSpans | iwscanlog.py:156-157 | for the widths that occur, `fmax - fmin = chanbw` and `fmin < Fc < fmax` |
| IwResolve.ResolveSeqChannels | iwscanlog.py:116-154 | every resolved row has a plan channel centred at `Fc` and a width in 20/40/80/160 |
| IwResolve.ResolveSeqHeads | iwscanlog.py:116-154 | the rows keep the records' MACs and IDs, in order |
| IwResolve.IwScanRows | iwscanlog.py:77-160 | every row of the table has a plan channel at `Fc`, `fmax - fmin = chanbw`, `fmin < Fc < fmax` and the scan time |
| IwResolve.IwScanEmpty | iwscanlog.py:155-156 | a scan with no record fails on the missing `Fc` column |
| IwResolve.IwScanIds | iwscanlog.py:84-159 | the table has one row per `BSS` line, in order, with its MAC and ID |
| IwlistScan.DropSpaces | iwscanlog.py:169 | only leading spaces are removed, all of them |
| IwlistScan.FindLast | iwscanlog.py:170 | the last occurrence of the pattern, or none at all |
| IwlistScan.RewrittenClean | iwscanlog.py:169-174 | after the rewrite no line holds a line break, `=`, `)` or `"` |
| IwlistScan.SeekWord | iwscanlog.py:185-190 | the flag loop sets the flag exactly when the line starts with a kept word |
| IwlistScan.Entry | iwscanlog.py:191-197 | the key of a kept line starts with a kept word, so it is never `ID` and never `Quality` (that branch is dead) |
| IwlistScan.Classify | iwscanlog.py:178-197 | a stored key is a kept key, never the identifier |
| IwlistScan.Collect | iwscanlog.py:177-198 | the loop keeps an `ID` number in every record |
| IwlistScan.LineStep | iwscanlog.py:178-198 | one pass of the loop body computes `Apply` of the classified line |
| IwlistScan.CollectLines | iwscanlog.py:175-198 | the loop over lines computes `Collect` |
| IwlistScan.WordShape | iwscanlog.py:176 | the kept words hold no colon and have the stated first letters |
| IwlistScan.KeyHead | iwscanlog.py:187-191 | the key before the first colon starts with the kept word the line starts with |
| IwlistScan.NotKept | iwscanlog.py:176-194 | no kept key is `ID` or `Quality` |
| IwlistScan.ApplyIds | iwscanlog.py:183-198 | a pass keeps every record's identifier |
| IwlistScan.AddressParts | iwscanlog.py:180-183 | an `Address` line without a colon fails; a non-hex address fails; otherwise the address and its hex value |
| IwlistScan.StepAddress | iwscanlog.py:179-183 | an `Address` line appends one record `{MAC: v.lower(), ID: int(v, 16)}` and changes no earlier record |
| IwlistScan.OpenedRecord | iwscanlog.py:181-183 | the new record has exactly `MAC` and `ID`, no capital in the MAC, and the given ID |
| IwlistScan.AddressMac | iwscanlog.py:182 | a well-formed MAC address always parses, to a number below 2^48 |
| IwlistScan.StepSkips | iwscanlog.py:185-190 | a line that is not an `Address` line and starts with no kept word changes nothing |
| IwlistScan.StepKept | iwscanlog.py:184-198 | a kept non-`Address` line stores its entry |
| IwlistScan.EntryParts | iwscanlog.py:191-197 | a kept line without a colon fails; otherwise its key and converted value, or the conversion error |
| IwlistScan.ApplyStores | iwscanlog.py:198 | the value goes under its key in the last record, nothing else changes; with no record the pass fails |
| IwlistScan.ConvertNumeric | iwscanlog.py:192-193 | `center1`/`chanbw`/`Signal`/`Channel` hold `int(v)`, or fail |
| IwlistScan.ConvertFrequency | iwscanlog.py:196-197 | `Frequency` holds the decimal read after removing ` GHz`, times 1000 and truncated, or fails when it is no decimal |
| IwlistScan.FrequencyText | iwscanlog.py:196-197 | a reading `w.f GHz` is stored as `w`·1000 plus the first three fraction digits padded with zeros |
| IwlistScan.FrequencyExample | iwscanlog.py:196-197 | `Frequency:5.18 GHz` is stored as 5180 |
| IwlistScan.ConvertText | iwscanlog.py:191-198 | any other key holds its text |
| IwlistScan.FrequencyMhz | iwscanlog.py:197 | a reading with three fraction digits gives exactly the MHz value |
| IwlistScan.OpenerLine | iwscanlog.py:179-183 | only an `Address` line that parses contributes an identifier, its hex value |
| IwlistScan.ApplyOpeners | iwscanlog.py:179-198 | a pass appends the identifier of an `Address` line and keeps the others |
| IwlistScan.CollectOpeners | iwscanlog.py:177-198 | the loop's identifiers are the earlier ones plus those of the `Address` lines, in order |
| IwlistScan.ApplyKeys | iwscanlog.py:181-198 | a pass stores only `MAC`, `ID` or keys starting with a kept word |
| IwlistScan.CollectKeys | iwscanlog.py:177-198 | every key of every record is `MAC`, `ID` or starts with a kept word |
| IwlistScan.ParseIwlistScan | iwscanlog.py:168-211 | the whole `iwlist` parser equals `IwlistTable` |
| IwlistScan.TableRows | iwscanlog.py:201-207 | one row per record, in order, with its ID and the time; `center1 ∓ chanbw//2` when both exist, absent edges otherwise |
| IwlistScan.TableOutcome | iwscanlog.py:199-207 | `None` exactly when there is no record; failure exactly when no record has `center1` or none has `chanbw` |
| IwlistScan.ColumnsRenamed | iwscanlog.py:202-208 | each cell moves to its renamed column, and every column comes from a key other than `ID` |
| IwlistScan.TargetNotKept | iwscanlog.py:176-208 | no new column name starts with a kept word |
| IwlistScan.TargetsAbsent | iwscanlog.py:208 | records of the loop have no key that the renaming would collide with |
| IwlistScan.IwlistRows | iwscanlog.py:168-211 | `None` exactly when no `Address` line parses; otherwise one row per `Address` line, in order, with its hex ID and the time |
| IwlistScan.CollectTable | iwscanlog.py:177-207 | for the records of the loop: `None` exactly when no `Address` line parsed; otherwise a row per such line with its ID and the time |
| IwlistScan.IwlistColumns | iwscanlog.py:177-208 | no key of a parsed record bears a new column name |
| MtoFilter.FilterMto | iwscanlog.py:213-218 | the result is no longer than the table, and every kept row is in the table and overlaps |
| MtoFilter.FilterMembers | iwscanlog.py:217-218 | a row is kept exactly when it is in the table and has `fmin < 5650` and `fmax > 5600` |
| MtoFilter.FilterCounts | iwscanlog.py:217-218 | each overlapping row is kept as often as it occurs, and any other row not at all |
| MtoFilter.FilterOrder | iwscanlog.py:218 | the kept rows are a subsequence of the table |
| MtoFilter.FilterIdempotent | iwscanlog.py:213-218 | filtering twice equals filtering once |
| MtoFilter.FilterAllKept | iwscanlog.py:217-218 | a table whose bands all overlap is kept whole |
| MtoFilter.TouchingDropped | iwscanlog.py:216-217 | a band that only touches 5600 or 5650 MHz is dropped |
| MtoFilter.KeepOverlap | iwscanlog.py:216-217 | for `fmin <= fmax`, keeping means some frequency of the band lies strictly between 5600 and 5650 MHz |
| MtoFilter.IwFilter | iwscanlog.py:217-218 | on the `iw` table: kept exactly when `fmin < 5650` and `fmax > 5600` |
| MtoFilter.IwlistFilter | iwscanlog.py:217-218 | on the `iwlist` table: a row without band edges (`NaN`) is never kept |

## Left out

- Running the scanners and the other I/O are outside the model: `os.popen` of `iw` and `iwlist`, `adb`, `ssh`, the GPS reading, `geodf`, `store` (sqlite, Excel) and the main loop. The parsers take the scan text as a parameter.
- The clock: `int(time())` is the parameter `now`, and `mtime` an `Option`.
- Floating point: `int(float(s))` and `int(float(s) * 1000)` are exact decimal parsing with truncation toward zero. IEEE rounding of the product is not modelled.
- Text.ParseInt: underscores between digits and non-ASCII digits, which Python's `int()` also reads, are not accepted.
- Text.ParseHex: underscores between digits (`1_f`), which `int(s, 16)` reads, are not accepted.
- Text.ParseDecimal: underscores between digits (`5_180`), non-ASCII digits, exponents, `inf` and `nan`, which `float()` reads, are not accepted.
- Text.SplitLines: lines break only at `\n`. Python's `splitlines()` also breaks at `\r`, `\v`, `\f`, `\x1c`–`\x1e`, `\x85`, U+2028 and U+2029, so `a\rb` is two lines for the tool and one for the model.
- Text.Lower: only ASCII letters are lower-cased, since MAC addresses are ASCII.
- pandas:
  - A DataFrame is a sequence of records, in input order.
  - A missing cell (`NaN`, or the `None` column added when no record has `Channel`) is an absent key or an absent `Option`.
  - Column dtypes and `set_index` (which keeps duplicate IDs) are not modelled. The `ID` is the `id` field of each row.
- IwlistScan.Columns: the renaming covers only records without a key already named `Fc`, `SSID`, `freq_20` or `channel_20`. pandas would produce duplicate columns in that case, which the parser can never produce (`IwlistScan.IwlistColumns`).
- IwlistScan.Prepass: the two regular expressions are modelled by their effect on each line after the first, which is what their matches, each starting at a line break, can reach.
- The `iw` tokenizer's later `freq:`, `signal:` and similar lines only overwrite the last record's field. Nothing is proved about the order of repeated fields beyond "the last record only" (`IwScan.ApplyKeeps`).
