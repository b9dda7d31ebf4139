# Bitget quant scanner, modelled in Dafny

`main.py` is a one-shot market scanner. It does the following:

- takes the linear USDT-margined perpetual swaps on Bitget;
- ranks them by 24-hour quote volume and keeps the top 100;
- fetches 1h, 4h and 1d candles for each of them;
- computes RSI(14), CCI(20), MACD(12, 26, 9), a 20-bar volume average and a 100-bar VWMA;
- applies three independent alert rules to the last bar of each pair:
  - VWMA-100 support;
  - the bottom of a linear-regression channel;
  - a composite score of at least 5;
- sends one Telegram report;
- persists the coins it alerted on, so that the next run can mark repeats with 💤.

The Dafny project models that program in Dafny's own terms. There is one module per concern:

| module | file | what it holds |
|---|---|---|
| `Floats` | `floats.dfy` | numbers that may be NaN (`Option<real>`), division that yields NaN on a zero denominator, and Python's truncating `int()` |
| `Indicators` | `indicators.dfy` | the columns of `calc_indicators` as functions of the bar sequence, with their warm-up windows and bounds |
| `Channel` | `channel.dfy` | the band test of `check_channel` over a given fit, and what a least-squares fit of degree 1 is |
| `Signals` | `signals.dfy` | the VWMA rule, the five contributions to the composite score, and the reason labels |
| `Memory` | `memory.dfy` | the previous run's memory (loaded, only read), the current generation (built fresh), and the JSON they are saved as |
| `Text` | `text.dfy` | `str(int)`, `format(x, '.1f')` and `sep.join` |
| `Report` | `report.dfy` | the three report lists, the lines of the message and its text, and the `+=` construction of the message |
| `Delivery` | `delivery.dfy` | `send_msg`: slicing into pieces of 4000 characters, and a request that raises |
| `Universe` | `universe.dfy` | the market filter, a stable descending sort by volume, and the top 100 |
| `Scanner` | `scanner.dfy` | `run()`: the scan as specification functions, and the methods with loops that compute it |
| `Laws` | `laws.dfy` | what a whole run guarantees about the report, the dedup marks and the memory it saves |

Inputs:

- **The exchange.** A `Feed` value says what `load_markets`, `fetch_tickers` and `fetch_ohlcv` return; `None` stands for a call that raises.
- **The channel fit.** The `fit` function of the `Feed` plays `np.polyfit` and `np.std`. `Channel.IsLeastSquaresFit` states what a correct fit satisfies; it is not imposed on the input.
- **Telegram.** `failsAt` in the `Feed` is the index of the first request that raises.
- **The clock.** The KST time is a string parameter.

`Scanner.Run` is the imperative `run()`: a loop over the symbols, a loop over the timeframes, the three rules and the message built section by section. Its postcondition ties its outcome to the specification function `Scanner.RunSpec`, and the lemmas in `Laws` state what that outcome guarantees.

Where the description of the program and the code differ, the model follows the code:

- **Report order.** The report lists entries in the order the scan produces them: symbol by symbol, and within a symbol, timeframe by timeframe. They are not grouped by timeframe.
- **When CCI is NaN.** A constant close series does not by itself make the CCI NaN. CCI is NaN when the typical price `(high + low + close) / 3` is flat over the 39 bars the CCI reads (`Indicators.FlatTypicalPriceHasNoCci`).
- **RSI warm-up.** The first `diff()` is NaN, and `where` turns it into 0. So the 14-bar gain and loss means exist from bar 13 on, not from bar 14.
- **An unknown symbol.** `markets[symbol]['base']` is outside the per-pair `try`. A ticker symbol that the markets do not list therefore ends the whole run: nothing is sent and nothing is saved.
- **Old memory files.** A previous memory whose timeframe value is a flat list is an older file format. Its `.get` raises inside the per-pair `try` at the first rule that fires, so that timeframe of that coin records nothing.

## Model

| member | source | states |
|---|---|---|
| Floats.Div | main.py:64 | a quotient exists exactly when the denominator is non-zero, and then it times the denominator gives the numerator |
| Floats.Percent | main.py:87 | `num / den * 100` exists exactly when `den` is non-zero, and then it times `den` is `100 num` |
| Floats.Trunc | main.py:175 | `int(x)` truncates toward zero: the floor for a non-negative value, the ceiling for a negative one |
| Indicators.SumNonNegative | main.py:42-43 | a sum of non-negative terms is non-negative |
| Indicators.SumZeroAllZero | main.py:50 | a sum of non-negative terms is zero only when every term is zero |
| Indicators.SumMonotone | main.py:64 | sums are monotone in their terms |
| Indicators.SumScaled | main.py:64 | a sum of terms scaled by a constant is the scaled sum |
| Indicators.RollingMean | main.py:42-43 | `rolling(n).mean()` has a value at bar `t` exactly when `n` bars end there |
| Indicators.AveragesNonNegative | main.py:41-43 | from bar 13 on, the mean gain and the mean loss exist and are non-negative |
| Indicators.Rsi | main.py:41-45 | the RSI exists exactly from bar 13 on, and only where the mean gain and the mean loss are not both zero |
| Indicators.RsiBounded | main.py:45 | wherever it is defined, the RSI lies in [0, 100] |
| Indicators.RsiOf | main.py:44-45 | `100 - 100 / (1 + gain / loss)` in IEEE terms: defined when gain + loss is non-zero, then in [0, 100] and equal to the gain's share of gain + loss, times 100 (a zero loss gives 100) |
| Indicators.RsiShare | main.py:44-45 | for a positive loss, `100 - 100 / (1 + g / l)` equals `100 g / (g + l)` and lies in [0, 100) |
| Indicators.AbsDeviations | main.py:50 | each deviation is the distance of the typical price from its 20-bar mean, hence non-negative |
| Indicators.Mad | main.py:49-50 | the mean absolute deviation exists exactly from bar 38 on, and is non-negative |
| Indicators.MadZeroDeviationZero | main.py:50-51 | a zero mean deviation forces the last typical price onto its mean |
| Indicators.Cci | main.py:48-51 | the CCI exists exactly from bar 38 on where the mean deviation is non-zero, and then `cci * 0.015 * mad == tp - sma` |
| Indicators.FlatTypicalPriceHasNoCci | main.py:48-51 | a typical price flat over the 39 bars read makes the CCI NaN |
| Indicators.EmaWithinBand | main.py:54-57 | an `ewm(adjust=False)` value stays within the bounds of the inputs so far |
| Indicators.FlatCloseMacdZero | main.py:54-57 | on a flat close series the MACD and its signal are zero at every bar |
| Indicators.Vwma | main.py:63-64 | the VWMA exists exactly from bar 99 on where the 100-bar volume sum is non-zero |
| Indicators.VwmaWithinCloses | main.py:63-64 | with non-negative volumes, the VWMA lies between the smallest and the largest of the last 100 closes |
| Indicators.WeightedSumWithin | main.py:64 | a sum of closes weighted by non-negative volumes lies between the smallest and the largest close times the weight sum |
| Indicators.ReadingAt | main.py:133-138 | a row of the frame carries the bar's close and volume; past bar 99 the MACD lines and the volume mean exist, and the VWMA exists exactly when the volume sum is non-zero |
| Channel.CheckChannel | main.py:81-91 | the gap exists exactly when the lower band is non-zero; `is_bottom` holds exactly when the band is non-zero and −2 ≤ gap ≤ 3, inclusive at both ends |
| Channel.BottomBand | main.py:86-90 | for a positive lower band, the close is at the bottom exactly when it lies in [0.98, 1.03] times the band |
| Channel.FlatSeriesIsAtBottom | main.py:69-91 | a flat series is fitted exactly by a flat line with no spread, and its last close sits on the band with gap 0 |
| Signals.VwmaGap | main.py:143-144 | `gap_v` is evaluated exactly when the close is at or above a non-zero VWMA |
| Signals.VwmaSupportBand | main.py:143-145 | for a positive VWMA, rule 1 fires exactly when the close lies in [vwma, 1.035 vwma] |
| Signals.SupportGapHole | main.py:192 | a VWMA match with gap in [3, 3.5] earns the support bonus only through a channel bottom |
| Signals.SupportFromVwma | main.py:192 | a VWMA match with gap below 3 always earns the support bonus |
| Signals.Score | main.py:170-193 | the composite score lies in [0, 10] |
| Signals.Evaluate | main.py:170-193 | the step-by-step accumulation yields the sum of the five contributions and the labels of the triggered ones, in evaluation order |
| Signals.ExclusiveBonuses | main.py:174-185 | RSI earns 2 exactly below 30, 1 exactly in [30, 40), and 0 when NaN or at least 40; MACD earns 3 exactly on a fresh cross, 1 exactly when above without a fresh cross, and 0 otherwise |
| Signals.NanEarnsNothing | main.py:174-185 | NaN RSI, CCI and MACD earn no points, and the only labels left are the volume and support ones |
| Signals.WeightSumAppend | main.py:171-193 | the weight of two runs of labels is the sum of their weights |
| Signals.ScoreFromReasons | main.py:170-193 | the score is the weight of the labels shown plus the points that come without a label (RSI in [30, 40), MACD above but not crossing) |
| Signals.ReasonsInOrder | main.py:171-193 | at most five labels, strictly in the order RSI, CCI, MACD, volume, support |
| Signals.ReasonsPresent | main.py:174-193 | each label is present exactly when its condition holds, and the RSI label carries `int(rsi)` |
| Signals.VolumeSpikeAddsTwo | main.py:188-189 | a volume spike on an otherwise identical bar adds exactly 2 points and the volume label |
| Signals.BestNeedsTwoContributions | main.py:196 | a best pick has at least one label, and its labels and unlabelled points together number at least two |
| Signals.OversoldCrossSpikeScenario | main.py:170-196 | RSI 25 with a fresh MACD cross and a volume spike scores 7 with the three labels in order |
| Memory.Load | main.py:26-31 | a readable file loads as its contents; a missing or unreadable one loads as `{}` |
| Memory.DupMark | main.py:146 | the 💤 mark holds exactly when the timeframe is in the previous memory and the coin is in its category list, a missing category being the empty list; a flat-list value makes the lookup raise |
| Memory.DupMarkFailsPerTimeframe | main.py:146 | whether the lookup raises depends on the timeframe alone, never on the category or the coin |
| Memory.DedupExample | main.py:146 | `{"4h": {"vwma": ["BTC"]}}` marks BTC on 4h in VWMA only |
| Memory.Append | main.py:151-152 | the timeframe exists afterwards; its category list is the old one, or `[]` for a new timeframe, plus the coin; the other lists and timeframes are unchanged |
| Memory.ToSnapshot | main.py:233 | the saved JSON has the same timeframes, each a record with exactly the keys `vwma`, `channel` and `best` |
| Memory.RoundTrip | main.py:233 | a saved generation loaded back marks exactly the coins it holds |
| Text.NatText | main.py:223 | the decimal text of a natural number is a non-empty string of digits |
| Text.NatTextRoundTrip | main.py:223 | the decimal text of a number reads back as that number |
| Text.RoundHalfEven | main.py:148 | the result is one of the two integers around its argument and within 0.5 of it, strictly nearer unless it is a tie, and a tie goes to the even neighbour |
| Text.OneDecimal | main.py:148 | `format(x, '.1f')` is a minus exactly for a negative value, then digits, a point and one digit |
| Text.OneDecimalReadsBack | main.py:148 | the tenths the text shows are within 0.05 of the absolute value of `x` |
| Text.JoinAppend | main.py:217 | joining two non-empty runs is joining each and gluing them with one separator |
| Text.JoinAppendSection | main.py:221-223 | a titled section appended with `+=` is the join of the lines so far and the section's lines |
| Text.JoinPrefix | main.py:222 | the join of the first k items begins the join of them all |
| Report.EntryText | main.py:147-148 | an entry's line opens with 💤 exactly for a repeat, and a VWMA line closes with the gap to one decimal and `%)` |
| Report.AddEntry | main.py:148 | an entry is appended to its list, and the other lists are unchanged |
| Report.SectionShows | main.py:221-223 | a capped section shows its title, its first `cap` entries, and a count of the rest exactly when there is a rest |
| Report.BestBlockShows | main.py:215-217 | the best section shows every entry, never a "...외 N개" line, and a title exactly when it has entries |
| Report.ChannelBlockShows | main.py:220-224 | the channel section shows its first 7 entries, the count of the rest exactly when there are more than 7, and a title exactly when it has entries |
| Report.VwmaBlockShows | main.py:227-230 | the VWMA section shows its first 5 entries, the count of the rest exactly when there are more than 5, and a title exactly when it has entries |
| Report.LayoutEntries | main.py:214-230 | the message shows every best entry, then the first 7 channel entries, then the first 5 VWMA entries |
| Report.LayoutHidden | main.py:220-230 | the "...외 N개" lines: one after the channel section exactly when it has more than 7 entries, then one after the VWMA section exactly when it has more than 5, each counting the entries left out |
| Report.LayoutTitles | main.py:214-228 | a section's title appears exactly when the section has entries, in the order best, channel, VWMA |
| Report.OpensWithHeader | main.py:212 | every message opens with the header line and a newline |
| Report.LayoutTexts | main.py:212-230 | the message's lines block by block: header, blank, best, channel, VWMA |
| Report.Compose | main.py:212-230 | the message built with `+=` is the join of the layout's lines by newlines |
| Report.AddSection | main.py:220-224 | appending a title, the joined entries and the optional count line extends the join of the previous lines by the section's lines |
| Report.CloseSection | main.py:224 | `"\n\n"` after a section adds an empty line and one newline |
| Delivery.SlicesConcat | main.py:19-23 | the pieces put together are exactly the text |
| Delivery.SliceSizes | main.py:19-23 | a text is sent whole exactly when it has at most 4000 characters; every piece has at most 4000 characters and, but for the last, exactly 4000; only the empty text gives an empty piece |
| Delivery.SliceAt | main.py:20-21 | piece k of a long text is `text[4000k : 4000k + 4000]` |
| Delivery.PieceCount | main.py:20 | a long text takes ⌈len / 4000⌉ requests |
| Delivery.Attempted | main.py:16-24 | the requests made are a prefix of the pieces, and all of them when no request raises |
| Delivery.SendMsg | main.py:15-24 | the loop requests the pieces in order, up to and including the first request that raises |
| Universe.LinearUsdt | main.py:118 | a symbol is kept exactly when some linear USDT market has it; never more symbols than markets |
| Universe.BaseOf | main.py:126 | the base is found exactly when some market has the symbol, and it is that market's base |
| Universe.Insert | main.py:122 | inserting adds the ticker and nothing else |
| Universe.SortByVolume | main.py:122 | the sort is a permutation of the tickers |
| Universe.TopSymbols | main.py:123 | the first `min(n, 100)` symbols of the sorted tickers, in order |
| Universe.InsertStable | main.py:122 | inserting keeps the order of the tickers of each volume and places the new one after them |
| Universe.InsertDescending | main.py:122 | inserting into a descending run keeps it descending |
| Universe.SortedDescending | main.py:122 | the sort orders the tickers by decreasing volume, a missing volume counting as 0 |
| Universe.SortedStable | main.py:122 | the sort is stable: the tickers of each volume keep their order |
| Universe.TopIsTop | main.py:122-123 | every ticker kept has at least the volume of every ticker left out |
| Scanner.Emit | main.py:146-152 | recording an alert fails exactly when the previous memory holds a flat list for the timeframe |
| Scanner.FailurePersists | main.py:125-126 | once a symbol is missing from the markets, no later symbol brings the run back |
| Scanner.MissingSymbolFails | main.py:126 | a symbol missing from the markets fails the scan of the whole list |
| Scanner.SymbolStep | main.py:125-128 | the scan of the symbols up to i + 1 is the scan up to i followed by the timeframes of symbol i |
| Scanner.TimeframeStep | main.py:128 | the scan of the timeframes up to j + 1 is the scan up to j followed by timeframe j |
| Scanner.ScanPair | main.py:131-205 | a series under 100 bars is skipped; otherwise the rules run on the last two rows and on the channel of all the closes |
| Scanner.ApplyRules | main.py:143-204 | the three rules in order; a lookup that raises ends the pair, keeping what the earlier rules recorded |
| Scanner.ApplyVwma | main.py:143-152 | rule 1 records a VWMA alert with its gap exactly when the close is in support |
| Scanner.ApplyChannel | main.py:157-165 | rule 2 records a channel alert exactly at a channel bottom |
| Scanner.ApplyBest | main.py:170-204 | rule 3 records a best alert with its labels exactly when the score reaches 5 |
| Scanner.ScanTimeframe | main.py:129-131 | a failed fetch skips the pair; otherwise the pair is scanned |
| Scanner.ScanSymbol | main.py:128-207 | the inner loop scans the timeframes 1h, 4h and 1d in that order |
| Scanner.ScanAll | main.py:125-207 | the outer loop scans the top symbols in order, and fails on a symbol missing from the markets |
| Scanner.Finish | main.py:209-235 | with an alert, the message's pieces are requested and this run's memory is saved; without one, nothing is sent and `{}` is saved |
| Scanner.Run | main.py:93-238 | the run's outcome is the specified one: failed (nothing sent or saved) or the requests made and the memory saved |
| Laws.CoinsHas | main.py:148-152 | every entry's coin is among the coins of its timeframe |
| Laws.EmitKeeps | main.py:146-152 | a recorded alert keeps the report and the memory in step |
| Laws.RulesKeep | main.py:143-204 | the three rules keep the report and the memory in step |
| Laws.PairStepKeeps | main.py:131-205 | one pair keeps the report and the memory in step |
| Laws.ScanTimeframesKeep | main.py:128-207 | the timeframes of a symbol keep the report and the memory in step |
| Laws.ScanSymbolsKeep | main.py:125-207 | a completed scan of the symbols keeps the report and the memory in step |
| Laws.InitConsistent | main.py:104-114 | the initial report, memory and `found_any` are in step |
| Laws.ScanConsistent | main.py:104-207 | every completed scan ends with the report and the memory in step |
| Laws.MarkedFromLastRun | main.py:146 | an entry's 💤 mark says whether its coin was in the previous run's list for its timeframe and category |
| Laws.EntryRemembered | main.py:151-152 | a reported entry's timeframe is in this run's memory |
| Laws.FoundRemembered | main.py:149-152 | `found_any` holds exactly when this run's memory is non-empty |
| Laws.ResetLaw | main.py:209-238 | a run fails exactly when the scan fails; a completed run sends at least one request exactly when it found something, and saves an empty memory exactly when it found nothing |
| Laws.NextRunMarks | main.py:233-235 | in the next run, a coin is marked 💤 exactly when this run reported it for that timeframe and category, and no lookup raises |
| Laws.LegacyTimeframeSilent | main.py:143-207 | a timeframe held as a flat list in the previous memory records nothing for any coin |
| Laws.UnknownSymbolFails | main.py:126 | a top symbol that the markets do not list fails the whole run |

## Left out

- Exchange access through `ccxt` (`load_markets`, `fetch_tickers`, `fetch_ohlcv`) is not modelled. Its answers are the `Feed` inputs. `limit=120` is not imposed on the bar sequences, since the exchange decides how many bars come back.
- The Telegram HTTP request is not modelled beyond the text it carries and whether it raises. The URL, the token, the chat id and the HTML parse mode are out.
- JSON file I/O and the existence check of `load_memory` are not modelled. The file read is a `MemoryFile` input, and what `save_memory` writes is the `saved` field of the outcome.
- A JSON file whose top level is not an object, or whose timeframe values are neither objects nor lists, is not modelled. A timeframe value that is a list is modelled as `Legacy`.
- A category value inside a timeframe record that is not a list of strings is not modelled. A string there would make `in` a substring test; a null, a number or `true` would make `in` raise `TypeError`, which skips the pair.
- A ticker without a `quoteVolume` key is not modelled. `x[1]['quoteVolume']` would raise `KeyError` inside `sorted`, outside the per-pair `try`, and fail the run. A null or zero quote volume is modelled and counts as 0.
- A `save_memory` that raises is not modelled (it would end in the outer `except`).
- `time.sleep(0.05)` has no effect on the outcome and is left out.
- The KST clock is a string parameter.
- The `print` of the start banner and of the caught error is left out.
- IEEE floating point is replaced by exact reals with NaN as `None`. Rounding error is not modelled. The source has five divisors that can be zero. For each, the model gives the IEEE outcome or one that every later test treats alike:
  - `gain / loss` (line 44): `Indicators.RsiOf` computes the IEEE value exactly. 0/0 is NaN (`None`); a positive gain over a zero loss is +inf, so the RSI is 100.
  - `0.015 * mad` (line 51): a zero MAD forces `tp - sma` to 0 (`Indicators.MadZeroDeviationZero`). The quotient is 0/0, NaN, which `Indicators.Cci` returns as `None`.
  - The 100-bar volume sum (line 64): `Indicators.Vwma` is `None` for a zero sum. The IEEE value is NaN or ±inf. With NaN or +inf, `close >= vwma` is false. With -inf, `gap_v` is NaN, so `gap_v <= 3.5` and `gap_v < 3` are false. Either way no rule or bonus fires, as for `None`.
  - `curr_lower` (line 87): `Channel.CheckChannel` gives no gap and `is_bottom` false. The IEEE gap is NaN or ±inf, and `-2.0 <= gap <= 3.0` is false for all three.
  - `curr['vwma']` in `gap_v` (line 144): reached only when `close >= vwma`, so a zero VWMA means a close of at least 0. The IEEE `gap_v` is then +inf or NaN. It fails `gap_v <= 3.5` and `gap_v < 3`, as `Signals.VwmaGap`'s `None` does.
- `np.polyfit` and `np.std` are the `fit` input; `np.std` needs a square root, which Dafny's reals lack. `Channel.IsLeastSquaresFit` states what a correct fit satisfies. Nothing proves that `fit` returns one, except for a flat series (`Channel.FlatSeriesIsAtBottom`).
- The position of the channel computation is not kept: the source computes it at line 157, after rule 1, and the model computes it before rule 1. The fit depends only on the closes, so the outcome is the same.
- The per-pair `except: continue` is modelled for the failures the model can produce: a failed `fetch_ohlcv`, and a dedup lookup on a flat-list memory. Other exceptions inside the pandas and numpy calls are not modelled.
- Dictionary iteration order of `fetch_tickers` is an input: the ticker sequence comes already in the order the exchange returns it.
