/** What a run of the scanner guarantees: the report and the memory saved
    record the same alerts, every alert's repeat mark comes from the previous
    run's memory, a run that finds nothing sends nothing and clears the
    memory, and the saved memory marks exactly this run's alerts as repeats in
    the next run. */
module Laws {
  import opened Floats
  import opened Indicators
  import opened Channel
  import opened Signals
  import opened Memory
  import opened Report
  import opened Universe
  import opened Delivery
  import opened Scanner

  /** The coins of the entries for timeframe `tf`, in report order. */
  function Coins(es: seq<Entry>, tf: string): (cs: seq<string>)
    ensures |cs| <= |es|
    decreases |es|
  {
    if es == [] then []
    else Coins(es[..|es| - 1], tf) + (if es[|es| - 1].tf == tf then [es[|es| - 1].coin] else [])
  }

  lemma CoinsAppend(es: seq<Entry>, e: Entry, tf: string)
    ensures Coins(es + [e], tf) == Coins(es, tf) + (if e.tf == tf then [e.coin] else [])
  {
    assert (es + [e])[..|es|] == es;
  }

  /** Every entry's coin is among the coins of its timeframe. */
  lemma {:induction false} CoinsHas(es: seq<Entry>, k: nat)
    requires k < |es|
    ensures es[k].coin in Coins(es, es[k].tf)
    decreases |es|
  {
    if k < |es| - 1 {
      CoinsHas(es[..|es| - 1], k);
    }
  }

  /** This run's memory for a timeframe and category; `[]` before the
      timeframe has any. */
  function CurrentCoins(cur: Generation, tf: string, cat: Category): seq<string>
  {
    if tf in cur then Get(cur[tf], cat) else []
  }

  /** The entry kind of each report list. */
  predicate Fits(e: Entry, cat: Category)
  {
    match cat
    case Vwma => e.VwmaEntry?
    case Channel => e.ChannelEntry?
    case Best => e.BestEntry?
  }

  /** An entry of the right kind whose mark is the previous run's answer. */
  predicate Marked(last: Snapshot, cat: Category, e: Entry)
  {
    Fits(e, cat) && DupMark(last, e.tf, cat, e.coin) == Some(e.dup)
  }

  predicate NonEmpty(r: Report)
  {
    r.best != [] || r.channel != [] || r.vwma != []
  }

  /** The invariant of the scan: `found_any` says whether the report has an
      entry, this run's memory lists the report's coins per timeframe and
      category, and every entry is marked from the previous run's memory. */
  ghost predicate Consistent(st: State, last: Snapshot)
  {
    && (st.found <==> NonEmpty(st.report))
    && (forall tf, cat :: CurrentCoins(st.current, tf, cat) == Coins(Entries(st.report, cat), tf))
    && (forall cat, k :: 0 <= k < |Entries(st.report, cat)| ==> Marked(last, cat, Entries(st.report, cat)[k]))
    && (forall tf :: tf in st.current ==> st.current[tf] != EmptyLists)
  }

  lemma InitConsistent(last: Snapshot)
    ensures Consistent(Init, last)
  {
    forall tf, cat ensures CurrentCoins(Init.current, tf, cat) == Coins(Entries(Init.report, cat), tf) {
      assert Entries(Init.report, cat) == [];
    }
    forall cat ensures Entries(Init.report, cat) == [] {
    }
  }

  lemma AddedCoins(st: State, cat: Category, e: Entry, tf: string, c: Category)
    requires CurrentCoins(st.current, tf, c) == Coins(Entries(st.report, c), tf)
    ensures CurrentCoins(Added(st, cat, e).current, tf, c) == Coins(Entries(Added(st, cat, e).report, c), tf)
  {
    if c == cat {
      CoinsAppend(Entries(st.report, c), e, tf);
    }
  }

  lemma AddedMarks(st: State, last: Snapshot, cat: Category, e: Entry, c: Category, k: nat)
    requires Marked(last, cat, e)
    requires forall j :: 0 <= j < |Entries(st.report, c)| ==> Marked(last, c, Entries(st.report, c)[j])
    requires k < |Entries(Added(st, cat, e).report, c)|
    ensures Marked(last, c, Entries(Added(st, cat, e).report, c)[k])
  {
    var es := Entries(st.report, c);
    var es' := Entries(Added(st, cat, e).report, c);
    if c != cat || k < |es| {
      assert es'[k] == es[k];
    }
  }

  lemma AddedKeeps(st: State, last: Snapshot, cat: Category, e: Entry)
    requires Consistent(st, last) && Marked(last, cat, e)
    ensures Consistent(Added(st, cat, e), last)
  {
    var st' := Added(st, cat, e);
    forall tf, c ensures CurrentCoins(st'.current, tf, c) == Coins(Entries(st'.report, c), tf) {
      AddedCoins(st, cat, e, tf, c);
    }
    forall c, k | 0 <= k < |Entries(st'.report, c)| ensures Marked(last, c, Entries(st'.report, c)[k]) {
      AddedMarks(st, last, cat, e, c, k);
    }
    assert Get(st'.current[e.tf], cat) != [];
    assert Entries(st'.report, cat) != [];
  }

  /** A recorded alert keeps the invariant; whether the lookup raises depends
      on the previous run's memory at that timeframe only. */
  lemma EmitKeeps(st: State, last: Snapshot, cat: Category, e: Entry)
    requires Consistent(st, last) && Fits(e, cat)
    ensures Emit(st, last, cat, e).None? <==> e.tf in last && last[e.tf].Legacy?
    ensures Emit(st, last, cat, e).Some? ==> Consistent(Emit(st, last, cat, e).value, last)
  {
    match DupMark(last, e.tf, cat, e.coin)
    case None =>
    case Some(d) => AddedKeeps(st, last, cat, e.(dup := d));
  }

  lemma RulesKeep(st: State, last: Snapshot, curr: Reading, prev: Reading, isBottom: bool, coin: string, tf: string)
    requires Consistent(st, last)
    ensures Consistent(Rules(st, last, curr, prev, isBottom, coin, tf), last)
  {
    if VwmaSupport(curr) {
      EmitKeeps(st, last, Vwma, VwmaEntry(false, tf, coin, VwmaGap(curr).value));
    }
    var s1 := VwmaRule(st, last, curr, coin, tf);
    if s1.Some? {
      if isBottom {
        EmitKeeps(s1.value, last, Channel, ChannelEntry(false, tf, coin));
      }
      var s2 := ChannelRule(s1.value, last, isBottom, coin, tf);
      if s2.Some? && Score(curr, prev, isBottom) >= BestScore {
        EmitKeeps(s2.value, last, Best, BestEntry(false, tf, coin, Reasons(curr, prev, isBottom)));
      }
    }
  }

  lemma PairStepKeeps(st: State, last: Snapshot, bars: seq<Bar>, fit: seq<real> -> ChannelFit, coin: string, tf: string)
    requires Consistent(st, last)
    ensures Consistent(PairStep(st, last, bars, fit, coin, tf), last)
  {
    if |bars| >= MinBars {
      var closes := Closes(bars);
      RulesKeep(st, last, ReadingAt(bars, |bars| - 1), ReadingAt(bars, |bars| - 2),
                CheckChannel(closes, fit(closes)).isBottom, coin, tf);
    }
  }

  lemma {:induction false} ScanTimeframesKeep(st: State, last: Snapshot, feed: Feed, symbol: string, coin: string, tfs: seq<string>)
    requires Consistent(st, last)
    ensures Consistent(ScanTimeframes(st, last, feed, symbol, coin, tfs), last)
    decreases |tfs|
  {
    if tfs != [] {
      var s := ScanTimeframes(st, last, feed, symbol, coin, tfs[..|tfs| - 1]);
      ScanTimeframesKeep(st, last, feed, symbol, coin, tfs[..|tfs| - 1]);
      var tf := tfs[|tfs| - 1];
      if feed.candles(symbol, tf).Some? {
        PairStepKeeps(s, last, feed.candles(symbol, tf).value, feed.fit, coin, tf);
      }
    }
  }

  lemma {:induction false} ScanSymbolsKeep(st: State, last: Snapshot, feed: Feed, ms: seq<Market>, syms: seq<string>)
    requires Consistent(st, last)
    ensures ScanSymbols(st, last, feed, ms, syms).Some? ==> Consistent(ScanSymbols(st, last, feed, ms, syms).value, last)
    decreases |syms|
  {
    if syms != [] {
      ScanSymbolsKeep(st, last, feed, ms, syms[..|syms| - 1]);
      var s := ScanSymbols(st, last, feed, ms, syms[..|syms| - 1]);
      var coin := BaseOf(ms, syms[|syms| - 1]);
      if s.Some? && coin.Some? {
        ScanTimeframesKeep(s.value, last, feed, syms[|syms| - 1], coin.value, Timeframes);
      }
    }
  }

  /** Every completed scan ends in a consistent state. */
  lemma ScanConsistent(feed: Feed, last: Snapshot)
    ensures Scan(feed, last).Some? ==> Consistent(Scan(feed, last).value, last)
  {
    InitConsistent(last);
    if feed.markets.Some? && feed.tickers(LinearUsdt(feed.markets.value)).Some? {
      ScanSymbolsKeep(Init, last, feed, feed.markets.value, TopSymbols(feed.tickers(LinearUsdt(feed.markets.value)).value));
    }
  }

  // ------------------------------------------------------------ the run

  /** An entry's repeat mark is whether its coin was in the previous run's
      list for its timeframe and category. */
  lemma MarkedFromLastRun(feed: Feed, last: Snapshot, cat: Category, k: nat)
    requires Scan(feed, last).Some? && k < |Entries(Scan(feed, last).value.report, cat)|
    ensures var e := Entries(Scan(feed, last).value.report, cat)[k];
            e.dup <==> e.tf in last && last[e.tf].Record? && Key(cat) in last[e.tf].lists
                       && e.coin in last[e.tf].lists[Key(cat)]
  {
    ScanConsistent(feed, last);
  }

  /** A report entry puts its timeframe into this run's memory. */
  lemma EntryRemembered(st: State, last: Snapshot, cat: Category, k: nat)
    requires Consistent(st, last) && k < |Entries(st.report, cat)|
    ensures Entries(st.report, cat)[k].tf in st.current
  {
    var e := Entries(st.report, cat)[k];
    CoinsHas(Entries(st.report, cat), k);
    assert CurrentCoins(st.current, e.tf, cat) != [];
  }

  /** A consistent state that found something has something to save. */
  lemma FoundRemembered(st: State, last: Snapshot)
    requires Consistent(st, last)
    ensures st.found <==> st.current != map[]
  {
    if st.found {
      var cat := if st.report.best != [] then Best else if st.report.channel != [] then Channel else Vwma;
      EntryRemembered(st, last, cat, 0);
    }
    if st.current != map[] {
      var tf :| tf in st.current;
      var l := st.current[tf];
      var cat := if l.vwma != [] then Vwma else if l.channel != [] then Channel else Best;
      assert Get(l, cat) != [];
      assert CurrentCoins(st.current, tf, cat) == Coins(Entries(st.report, cat), tf);
    }
  }

  /** Lines 233-235 together with 210: a completed run sends at least one
      request exactly when it found something, and saves an empty memory
      exactly when it found nothing. */
  lemma ResetLaw(feed: Feed, file: MemoryFile, kst: string)
    ensures Scan(feed, Load(file)).None? <==> RunSpec(feed, file, kst) == Failed
    ensures Scan(feed, Load(file)).Some? ==>
              var st := Scan(feed, Load(file)).value;
              var out := RunSpec(feed, file, kst);
              && (out.requests != [] <==> st.found)
              && (out.saved != map[] <==> st.found)
  {
    var last := Load(file);
    if Scan(feed, last).Some? {
      var st := Scan(feed, last).value;
      ScanConsistent(feed, last);
      FoundRemembered(st, last);
      if st.found {
        var chunks := Slices(LayoutText(st.report, kst));
        assert |Attempted(chunks, feed.failsAt)| >= 1;
        assert ToSnapshot(st.current).Keys == st.current.Keys;
      }
    }
  }

  /** What the next run reads back from the file this run saved: a coin is a
      repeat there exactly when this run reported it for that timeframe and
      category, and no lookup raises. */
  lemma NextRunMarks(feed: Feed, file: MemoryFile, kst: string, tf: string, cat: Category, coin: string)
    requires Scan(feed, Load(file)).Some?
    ensures var st := Scan(feed, Load(file)).value;
            DupMark(Load(Json(RunSpec(feed, file, kst).saved)), tf, cat, coin)
              == Some(coin in Coins(Entries(st.report, cat), tf))
  {
    var last := Load(file);
    var st := Scan(feed, last).value;
    ScanConsistent(feed, last);
    assert CurrentCoins(st.current, tf, cat) == Coins(Entries(st.report, cat), tf);
    if st.found {
      RoundTrip(st.current, tf, cat, coin);
    } else {
      assert Entries(st.report, cat) == [];
    }
  }

  lemma RulesSilent(st: State, last: Snapshot, curr: Reading, prev: Reading, isBottom: bool, coin: string, tf: string)
    requires tf in last && last[tf].Legacy?
    ensures Rules(st, last, curr, prev, isBottom, coin, tf) == st
  {
  }

  /** A timeframe whose stored value is an old flat list records nothing: the
      first rule that fires raises at its dedup lookup, and the pair's `try`
      swallows it before anything has been recorded. */
  lemma LegacyTimeframeSilent(st: State, last: Snapshot, bars: seq<Bar>, fit: seq<real> -> ChannelFit, coin: string, tf: string)
    requires tf in last && last[tf].Legacy?
    ensures PairStep(st, last, bars, fit, coin, tf) == st
  {
    if |bars| >= MinBars {
      var closes := Closes(bars);
      RulesSilent(st, last, ReadingAt(bars, |bars| - 1), ReadingAt(bars, |bars| - 2),
                  CheckChannel(closes, fit(closes)).isBottom, coin, tf);
    }
  }

  /** A top symbol that the markets do not list fails the whole run (the
      `KeyError` at line 126 is outside the per-pair `try`). */
  lemma UnknownSymbolFails(feed: Feed, file: MemoryFile, kst: string, i: nat)
    requires feed.markets.Some? && feed.tickers(LinearUsdt(feed.markets.value)).Some?
    requires var top := TopSymbols(feed.tickers(LinearUsdt(feed.markets.value)).value);
             i < |top| && BaseOf(feed.markets.value, top[i]).None?
    ensures RunSpec(feed, file, kst) == Failed
  {
    var ms := feed.markets.value;
    var last := Load(file);
    MissingSymbolFails(Init, last, feed, ms, TopSymbols(feed.tickers(LinearUsdt(ms)).value), i);
    assert Scan(feed, last).None?;
  }

  /** A failing `load_markets` or `fetch_tickers` fails the run: nothing is
      sent and the memory file is left as it was. */
  lemma ExchangeFailureFails(feed: Feed, file: MemoryFile, kst: string)
    requires feed.markets.None? || feed.tickers(LinearUsdt(feed.markets.value)).None?
    ensures RunSpec(feed, file, kst) == Failed
  {
  }
}
