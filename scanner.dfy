/** `run()`: one pass over the top-100 coins and the three timeframes, the
    report it collects, and what it sends and saves (lines 93-238).

    The exchange, the Telegram endpoint and the clock are inputs: a `Feed`
    says what each exchange call returns (`None` for a call that raises),
    which Telegram request raises first, if any, and the KST time is a
    string parameter. */
module Scanner {
  import opened Floats
  import opened Indicators
  import opened Channel
  import opened Signals
  import opened Memory
  import opened Report
  import opened Universe
  import opened Delivery

  datatype Feed = Feed(
    markets: Option<seq<Market>>,                      // load_markets()
    tickers: seq<string> -> Option<seq<Ticker>>,       // fetch_tickers(symbols)
    candles: (string, string) -> Option<seq<Bar>>,     // fetch_ohlcv(symbol, tf, limit=120)
    fit: seq<real> -> ChannelFit,                      // np.polyfit and np.std
    failsAt: Option<nat>)                              // the first Telegram request that raises

  /** The timeframes, in the order of the `timeframes` dict. */
  const Timeframes: seq<string> := ["1h", "4h", "1d"]

  /** A pair needs this many bars (line 131). */
  const MinBars: nat := 100

  /** The locals of `run()` that the scan updates. */
  datatype State = State(report: Report, current: Generation, found: bool)

  const Init: State := State(EmptyReport, map[], false)

  /** One alert recorded: the report line, the coin in this run's memory
      (creating the timeframe's lists first), and `found_any`. */
  function Added(st: State, cat: Category, e: Entry): State
  {
    State(AddEntry(st.report, cat, e), Append(st.current, e.tf, cat, e.coin), true)
  }

  /** An alert with its dedup mark; `None` when the lookup in the previous
      run's memory raises. */
  function Emit(st: State, last: Snapshot, cat: Category, e: Entry): (r: Option<State>)
    ensures r.None? <==> e.tf in last && last[e.tf].Legacy?
  {
    match DupMark(last, e.tf, cat, e.coin)
    case None => None
    case Some(d) => Some(Added(st, cat, e.(dup := d)))
  }

  /** Rule 1 (lines 143-152): VWMA-100 support. */
  function VwmaRule(st: State, last: Snapshot, curr: Reading, coin: string, tf: string): Option<State>
  {
    if VwmaSupport(curr) then Emit(st, last, Vwma, VwmaEntry(false, tf, coin, VwmaGap(curr).value)) else Some(st)
  }

  /** Rule 2 (lines 157-165): the channel bottom. */
  function ChannelRule(st: State, last: Snapshot, isBottom: bool, coin: string, tf: string): Option<State>
  {
    if isBottom then Emit(st, last, Channel, ChannelEntry(false, tf, coin)) else Some(st)
  }

  /** Rule 3 (lines 170-204): a composite score of at least 5. */
  function BestRule(st: State, last: Snapshot, curr: Reading, prev: Reading, isBottom: bool, coin: string, tf: string): Option<State>
  {
    if Score(curr, prev, isBottom) >= BestScore
    then Emit(st, last, Best, BestEntry(false, tf, coin, Reasons(curr, prev, isBottom)))
    else Some(st)
  }

  /** The three rules in order. A lookup that raises ends the pair, keeping
      what the rules before it recorded. */
  function Rules(st: State, last: Snapshot, curr: Reading, prev: Reading, isBottom: bool, coin: string, tf: string): State
  {
    match VwmaRule(st, last, curr, coin, tf)
    case None => st
    case Some(s1) =>
      match ChannelRule(s1, last, isBottom, coin, tf)
      case None => s1
      case Some(s2) =>
        match BestRule(s2, last, curr, prev, isBottom, coin, tf)
        case None => s2
        case Some(s3) => s3
  }

  /** Lines 131-205 on the bars of one pair: the rules on the last two rows
      of the indicator frame, the channel fitted to all the closes. */
  function PairStep(st: State, last: Snapshot, bars: seq<Bar>, fit: seq<real> -> ChannelFit, coin: string, tf: string): State
  {
    if |bars| < MinBars then st
    else
      var closes := Closes(bars);
      Rules(st, last, ReadingAt(bars, |bars| - 1), ReadingAt(bars, |bars| - 2),
            CheckChannel(closes, fit(closes)).isBottom, coin, tf)
  }

  /** Lines 129-207 for one symbol and timeframe: a failed fetch or an empty
      answer skips the pair. */
  function PairAt(st: State, last: Snapshot, feed: Feed, symbol: string, coin: string, tf: string): State
  {
    match feed.candles(symbol, tf)
    case None => st
    case Some(bars) => PairStep(st, last, bars, feed.fit, coin, tf)
  }

  /** Lines 128-207: the timeframes of one symbol, in order. */
  function ScanTimeframes(st: State, last: Snapshot, feed: Feed, symbol: string, coin: string, tfs: seq<string>): State
    decreases |tfs|
  {
    if tfs == [] then st
    else PairAt(ScanTimeframes(st, last, feed, symbol, coin, tfs[..|tfs| - 1]), last, feed, symbol, coin, tfs[|tfs| - 1])
  }

  /** Lines 125-207: the symbols in order; `None` when a symbol is not in
      the markets (the `KeyError` at line 126 ends the whole run). */
  function ScanSymbols(st: State, last: Snapshot, feed: Feed, ms: seq<Market>, syms: seq<string>): Option<State>
    decreases |syms|
  {
    if syms == [] then Some(st)
    else
      match ScanSymbols(st, last, feed, ms, syms[..|syms| - 1])
      case None => None
      case Some(s) =>
        match BaseOf(ms, syms[|syms| - 1])
        case None => None
        case Some(coin) => Some(ScanTimeframes(s, last, feed, syms[|syms| - 1], coin, Timeframes))
  }

  /** Once a symbol is missing from the markets, no later symbol brings the
      run back. */
  lemma {:induction false} FailurePersists(st: State, last: Snapshot, feed: Feed, ms: seq<Market>, syms: seq<string>, k: nat)
    requires k <= |syms|
    requires ScanSymbols(st, last, feed, ms, syms[..k]).None?
    ensures ScanSymbols(st, last, feed, ms, syms).None?
    decreases |syms| - k
  {
    if k < |syms| {
      assert syms[..k + 1][..k] == syms[..k];
      FailurePersists(st, last, feed, ms, syms, k + 1);
    } else {
      assert syms[..k] == syms;
    }
  }

  /** A symbol missing from the markets fails the scan of any list holding it. */
  lemma MissingSymbolFails(st: State, last: Snapshot, feed: Feed, ms: seq<Market>, syms: seq<string>, i: nat)
    requires i < |syms| && BaseOf(ms, syms[i]).None?
    ensures ScanSymbols(st, last, feed, ms, syms).None?
  {
    assert syms[..i + 1][..i] == syms[..i];
    assert syms[..i + 1][i] == syms[i];
    FailurePersists(st, last, feed, ms, syms, i + 1);
  }

  /** The symbols up to `i + 1` are those up to `i`, then symbol `i`. */
  lemma SymbolStep(st: State, last: Snapshot, feed: Feed, ms: seq<Market>, syms: seq<string>, i: nat, s: State, coin: string)
    requires i < |syms| && ScanSymbols(st, last, feed, ms, syms[..i]) == Some(s) && BaseOf(ms, syms[i]) == Some(coin)
    ensures ScanSymbols(st, last, feed, ms, syms[..i + 1]) == Some(ScanTimeframes(s, last, feed, syms[i], coin, Timeframes))
  {
    assert syms[..i + 1][..i] == syms[..i];
  }

  /** The universe (lines 117-123) and the scan; `None` when one of the
      calls before or during the scan fails the run. */
  function Scan(feed: Feed, last: Snapshot): Option<State>
  {
    match feed.markets
    case None => None
    case Some(ms) =>
      match feed.tickers(LinearUsdt(ms))
      case None => None
      case Some(ts) => ScanSymbols(Init, last, feed, ms, TopSymbols(ts))
  }

  /** What a run leaves behind: nothing, when it fails (the error is only
      printed and the memory file is left alone); otherwise the Telegram
      requests made and the memory saved. */
  datatype Outcome = Failed | Completed(requests: seq<string>, saved: Snapshot)

  /** Lines 104-238. */
  function RunSpec(feed: Feed, file: MemoryFile, kst: string): Outcome
  {
    match Scan(feed, Load(file))
    case None => Failed
    case Some(st) =>
      if st.found then Completed(Attempted(Slices(LayoutText(st.report, kst)), feed.failsAt), ToSnapshot(st.current))
      else Completed([], map[])
  }

  // ------------------------------------------------------------ the code

  /** The body of the per-pair `try` (lines 131-206): the two last rows of
      the indicator frame, the channel, then the three rules. */
  method ScanPair(st: State, last: Snapshot, bars: seq<Bar>, fit: seq<real> -> ChannelFit, coin: string, tf: string)
    returns (st': State)
    ensures st' == PairStep(st, last, bars, fit, coin, tf)
  {
    if |bars| < MinBars {
      return st;
    }
    var curr := ReadingAt(bars, |bars| - 1);
    var prev := ReadingAt(bars, |bars| - 2);
    var closes := Closes(bars);
    var ch := CheckChannel(closes, fit(closes));
    st' := ApplyRules(st, last, curr, prev, ch.isBottom, coin, tf);
  }

  /** Lines 143-204, rule by rule. The source computes the channel between
      rules 1 and 2; it depends on the bars only, so it is an input here. */
  method ApplyRules(st: State, last: Snapshot, curr: Reading, prev: Reading, isBottom: bool, coin: string, tf: string)
    returns (st': State)
    ensures st' == Rules(st, last, curr, prev, isBottom, coin, tf)
  {
    var s1 := ApplyVwma(st, last, curr, coin, tf);
    if s1.None? {
      return st;
    }
    var s2 := ApplyChannel(s1.value, last, isBottom, coin, tf);
    if s2.None? {
      return s1.value;
    }
    var s3 := ApplyBest(s2.value, last, curr, prev, isBottom, coin, tf);
    if s3.None? {
      return s2.value;
    }
    st' := s3.value;
  }

  /** Lines 143-152; `None` when the dedup lookup raises. */
  method ApplyVwma(st: State, last: Snapshot, curr: Reading, coin: string, tf: string) returns (r: Option<State>)
    ensures r == VwmaRule(st, last, curr, coin, tf)
  {
    r := Some(st);
    if Ge(Some(curr.close), curr.vwma) {
      var gapV := Percent(curr.close - curr.vwma.value, curr.vwma.value);
      if Le(gapV, Some(VwmaGapLimit)) {
        var isDup := DupMark(last, tf, Vwma, coin);
        if isDup.None? {
          return None;
        }
        r := Some(Added(st, Vwma, VwmaEntry(isDup.value, tf, coin, gapV.value)));
      }
    }
  }

  /** Lines 157-165; `None` when the dedup lookup raises. */
  method ApplyChannel(st: State, last: Snapshot, isBottom: bool, coin: string, tf: string) returns (r: Option<State>)
    ensures r == ChannelRule(st, last, isBottom, coin, tf)
  {
    r := Some(st);
    if isBottom {
      var isDup := DupMark(last, tf, Channel, coin);
      if isDup.None? {
        return None;
      }
      r := Some(Added(st, Channel, ChannelEntry(isDup.value, tf, coin)));
    }
  }

  /** Lines 170-204; `None` when the dedup lookup raises. */
  method ApplyBest(st: State, last: Snapshot, curr: Reading, prev: Reading, isBottom: bool, coin: string, tf: string)
    returns (r: Option<State>)
    ensures r == BestRule(st, last, curr, prev, isBottom, coin, tf)
  {
    r := Some(st);
    var score, reasons := Evaluate(curr, prev, isBottom);
    if score >= BestScore {
      var isDup := DupMark(last, tf, Best, coin);
      if isDup.None? {
        return None;
      }
      r := Some(Added(st, Best, BestEntry(isDup.value, tf, coin, reasons)));
    }
  }

  /** The inner loop of `run()` (lines 128-207): the timeframes of one symbol. */
  method ScanSymbol(st: State, last: Snapshot, feed: Feed, symbol: string, coin: string) returns (st': State)
    ensures st' == ScanTimeframes(st, last, feed, symbol, coin, Timeframes)
  {
    var tfs := Timeframes;
    st' := st;
    var j := 0;
    while j < |tfs|
      invariant 0 <= j <= |tfs|
      invariant st' == ScanTimeframes(st, last, feed, symbol, coin, tfs[..j])
    {
      TimeframeStep(st, last, feed, symbol, coin, tfs, j);
      st' := ScanTimeframe(st', last, feed, symbol, coin, tfs[j]);
      j := j + 1;
    }
    assert tfs[..j] == tfs;
  }

  /** The timeframes up to `j + 1` are those up to `j`, then timeframe `j`. */
  lemma TimeframeStep(st: State, last: Snapshot, feed: Feed, symbol: string, coin: string, tfs: seq<string>, j: nat)
    requires j < |tfs|
    ensures ScanTimeframes(st, last, feed, symbol, coin, tfs[..j + 1])
            == PairAt(ScanTimeframes(st, last, feed, symbol, coin, tfs[..j]), last, feed, symbol, coin, tfs[j])
  {
    assert tfs[..j + 1][..j] == tfs[..j];
  }

  /** One pass of the inner loop (lines 129-207): the fetch, then the pair. */
  method ScanTimeframe(st: State, last: Snapshot, feed: Feed, symbol: string, coin: string, tf: string) returns (st': State)
    ensures st' == PairAt(st, last, feed, symbol, coin, tf)
  {
    var ohlcv := feed.candles(symbol, tf);
    if ohlcv.Some? {
      st' := ScanPair(st, last, ohlcv.value, feed.fit, coin, tf);
    } else {
      st' := st;
    }
  }

  /** `run()`: the universe, the nested loops over symbols and timeframes,
      then the report and the memory. */
  method Run(feed: Feed, file: MemoryFile, kst: string) returns (out: Outcome)
    ensures out == RunSpec(feed, file, kst)
  {
    var last := Load(file);
    if feed.markets.None? {
      return Failed;
    }
    var markets := feed.markets.value;
    var symbols := LinearUsdt(markets);
    var tickers := feed.tickers(symbols);
    if tickers.None? {
      return Failed;
    }
    var top := TopSymbols(tickers.value);
    var scanned := ScanAll(last, feed, markets, top);
    if scanned.None? {
      return Failed;
    }
    out := Finish(scanned.value, kst, feed.failsAt);
  }

  /** The outer loop (lines 125-207); `None` when a symbol is missing from
      the markets. */
  method ScanAll(last: Snapshot, feed: Feed, markets: seq<Market>, top: seq<string>) returns (r: Option<State>)
    ensures r == ScanSymbols(Init, last, feed, markets, top)
  {
    var st := Init;
    var i := 0;
    while i < |top|
      invariant 0 <= i <= |top|
      invariant ScanSymbols(Init, last, feed, markets, top[..i]) == Some(st)
    {
      var coinName := BaseOf(markets, top[i]);
      if coinName.None? {
        MissingSymbolFails(Init, last, feed, markets, top, i);
        return None;
      }
      SymbolStep(Init, last, feed, markets, top, i, st, coinName.value);
      st := ScanSymbol(st, last, feed, top[i], coinName.value);
      i := i + 1;
    }
    assert top[..i] == top;
    r := Some(st);
  }

  /** Lines 209-236: with an alert, the message is sent and this run's
      memory saved; without one, the memory is cleared and nothing is sent. */
  method Finish(st: State, kst: string, failsAt: Option<nat>) returns (out: Outcome)
    ensures out == if st.found then Completed(Attempted(Slices(LayoutText(st.report, kst)), failsAt), ToSnapshot(st.current))
                   else Completed([], map[])
  {
    if st.found {
      var msg := Compose(st.report, kst);
      var requests := SendMsg(msg, failsAt);
      out := Completed(requests, ToSnapshot(st.current));
    } else {
      out := Completed([], map[]);
    }
  }
}
