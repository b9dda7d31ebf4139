/** The Telegram report: the entries collected during the scan and the message
    text assembled from them (lines 148, 161, 200 and 210-230 of `run()`). */
module Report {
  import opened Floats
  import opened Common
  import opened Text
  import opened Signals
  import opened Memory

  /** One alert line. `dup` is the 💤 mark: the coin was already reported on
      this timeframe in this category by the previous run. */
  datatype Entry =
    | VwmaEntry(dup: bool, tf: string, coin: string, gap: real)
    | ChannelEntry(dup: bool, tf: string, coin: string)
    | BestEntry(dup: bool, tf: string, coin: string, reasons: seq<Reason>)

  /** `report = {'best': [], 'channel': [], 'vwma': []}`. */
  datatype Report = Report(best: seq<Entry>, channel: seq<Entry>, vwma: seq<Entry>)

  const EmptyReport: Report := Report([], [], [])

  function Entries(r: Report, cat: Category): seq<Entry>
  {
    match cat
    case Vwma => r.vwma
    case Channel => r.channel
    case Best => r.best
  }

  function AddEntry(r: Report, cat: Category, e: Entry): (r': Report)
    ensures Entries(r', cat) == Entries(r, cat) + [e]
    ensures forall c :: c != cat ==> Entries(r', c) == Entries(r, c)
  {
    match cat
    case Vwma => r.(vwma := r.vwma + [e])
    case Channel => r.(channel := r.channel + [e])
    case Best => r.(best := r.best + [e])
  }

  /** Only the first 7 channel lines and the first 5 VWMA lines are shown. */
  const ChannelCap: nat := 7
  const VwmaCap: nat := 5

  // ------------------------------------------------------------ texts

  function ReasonText(x: Reason): string
  {
    match x
    case RsiOversold(level) => "RSI과매도(" + IntText(level) + ")"
    case CciSlump => "CCI침체"
    case MacdGoldenCross => "MACD골든크로스"
    case VolumeSpike => "거래량폭발"
    case SupportReached => "주요지지선도달"
  }

  function ReasonTexts(xs: seq<Reason>): (ts: seq<string>)
    ensures |ts| == |xs| && forall i :: 0 <= i < |xs| ==> ts[i] == ReasonText(xs[i])
  {
    seq(|xs|, i requires 0 <= i < |xs| => ReasonText(xs[i]))
  }

  function Mark(dup: bool, icon: string): string { if dup then "💤" else icon }

  /** The line of one entry: it opens with 💤 exactly for a repeat, and a
      VWMA line closes with the gap shown to one decimal. */
  function EntryText(e: Entry): (t: string)
    ensures |t| >= 1 && (t[0] == '💤' <==> e.dup)
    ensures e.VwmaEntry? ==> |t| >= |OneDecimal(e.gap)| + 2 && t[|t| - |OneDecimal(e.gap)| - 2..] == OneDecimal(e.gap) + "%)"
  {
    match e
    case VwmaEntry(dup, tf, coin, gap) =>
      Mark(dup, "🔥") + " " + tf + " | " + coin + " (+" + OneDecimal(gap) + "%)"
    case ChannelEntry(dup, tf, coin) =>
      Mark(dup, "🌊") + " " + tf + " | " + coin + " (하단접근)"
    case BestEntry(dup, tf, coin, reasons) =>
      Mark(dup, "💎") + " <b>" + coin + "</b> (" + tf + ")\n   └ 이유: " + Join(ReasonTexts(reasons), ", ")
  }

  /** The logical lines of the message; its text is their texts joined by "\n". */
  datatype Line = Head(kst: string) | Blank | Title(cat: Category) | Item(entry: Entry) | More(hidden: nat)

  function TitleText(cat: Category): string
  {
    match cat
    case Best => "🏆 <b>AI 강력 추천 (근거 확실)</b>"
    case Channel => "🌊 <b>채널 하단 (인범ST 반등자리)</b>"
    case Vwma => "📊 <b>VWMA 100선 지지</b>"
  }

  function HeadText(kst: string): string
  {
    "🦁 <b>[비트겟 퀀트 분석 리포트]</b> (" + kst + ")"
  }

  function MoreText(n: nat): string
  {
    "...외 " + NatText(n) + "개"
  }

  function LineText(l: Line): string
  {
    match l
    case Head(kst) => HeadText(kst)
    case Blank => ""
    case Title(cat) => TitleText(cat)
    case Item(e) => EntryText(e)
    case More(n) => MoreText(n)
  }

  function Texts(lines: seq<Line>): (ts: seq<string>)
    ensures |ts| == |lines| && forall i :: 0 <= i < |lines| ==> ts[i] == LineText(lines[i])
  {
    seq(|lines|, i requires 0 <= i < |lines| => LineText(lines[i]))
  }

  function Items(es: seq<Entry>): (ls: seq<Line>)
    ensures |ls| == |es| && forall i :: 0 <= i < |es| ==> ls[i] == Item(es[i])
  {
    seq(|es|, i requires 0 <= i < |es| => Item(es[i]))
  }

  function Take<T>(s: seq<T>, k: nat): seq<T>
  {
    if |s| <= k then s else s[..k]
  }

  /** A capped section: its title, the first `cap` entries, and a
      "...외 N개" line counting the rest when there is a rest. */
  function Section(cat: Category, es: seq<Entry>, cap: nat): seq<Line>
  {
    [Title(cat)] + Items(Take(es, cap)) + (if |es| > cap then [More(|es| - cap)] else [])
  }

  /** The report's lines: the header and a blank line; the best section with
      every entry; the channel section capped at 7; the VWMA section capped at
      5; each section only when it has entries, the first two closed by a
      blank line. Without a VWMA section the text ends in an empty line. */
  function Layout(r: Report, kst: string): seq<Line>
  {
    [Head(kst), Blank] + BestBlock(r.best) + ChannelBlock(r.channel) + VwmaBlock(r.vwma)
  }

  function BestBlock(es: seq<Entry>): seq<Line>
  {
    if es != [] then [Title(Best)] + Items(es) + [Blank] else []
  }

  function ChannelBlock(es: seq<Entry>): seq<Line>
  {
    if es != [] then Section(Channel, es, ChannelCap) + [Blank] else []
  }

  function VwmaBlock(es: seq<Entry>): seq<Line>
  {
    if es != [] then Section(Vwma, es, VwmaCap) else [Blank]
  }

  /** The message text as a joined sequence of lines. */
  function LayoutText(r: Report, kst: string): string
  {
    Join(Texts(Layout(r, kst)), "\n")
  }

  // ------------------------------------------- what the layout shows

  /** The entries shown, in order of appearance. */
  function ShownEntries(ls: seq<Line>): seq<Entry>
  {
    if ls == [] then [] else (if ls[0].Item? then [ls[0].entry] else []) + ShownEntries(ls[1..])
  }

  /** The section titles, in order of appearance. */
  function Titles(ls: seq<Line>): seq<Category>
  {
    if ls == [] then [] else (if ls[0].Title? then [ls[0].cat] else []) + Titles(ls[1..])
  }

  /** The counts of the "...외 N개" lines, in order of appearance. */
  function HiddenCounts(ls: seq<Line>): seq<nat>
  {
    if ls == [] then [] else (if ls[0].More? then [ls[0].hidden] else []) + HiddenCounts(ls[1..])
  }

  lemma {:induction false} ShownAppend(a: seq<Line>, b: seq<Line>)
    ensures ShownEntries(a + b) == ShownEntries(a) + ShownEntries(b)
  {
    if a != [] {
      assert (a + b)[1..] == a[1..] + b;
      ShownAppend(a[1..], b);
    } else {
      assert a + b == b;
    }
  }

  lemma {:induction false} TitlesAppend(a: seq<Line>, b: seq<Line>)
    ensures Titles(a + b) == Titles(a) + Titles(b)
  {
    if a != [] {
      assert (a + b)[1..] == a[1..] + b;
      TitlesAppend(a[1..], b);
    } else {
      assert a + b == b;
    }
  }

  lemma {:induction false} HiddenAppend(a: seq<Line>, b: seq<Line>)
    ensures HiddenCounts(a + b) == HiddenCounts(a) + HiddenCounts(b)
  {
    if a != [] {
      assert (a + b)[1..] == a[1..] + b;
      HiddenAppend(a[1..], b);
    } else {
      assert a + b == b;
    }
  }

  lemma {:induction false} ItemsShown(es: seq<Entry>)
    ensures ShownEntries(Items(es)) == es
    ensures Titles(Items(es)) == [] && HiddenCounts(Items(es)) == []
  {
    if es != [] {
      assert Items(es)[1..] == Items(es[1..]);
      ItemsShown(es[1..]);
    }
  }

  /** What one capped section shows: its title, its first `cap` entries and,
      when entries are left over, their number. */
  lemma SectionShows(cat: Category, es: seq<Entry>, cap: nat)
    ensures ShownEntries(Section(cat, es, cap)) == Take(es, cap)
    ensures Titles(Section(cat, es, cap)) == [cat]
    ensures HiddenCounts(Section(cat, es, cap)) == Opt(|es| > cap, |es| - cap)
  {
    var head := [Title(cat)] + Items(Take(es, cap));
    var more := if |es| > cap then [More(|es| - cap)] else [];
    assert Section(cat, es, cap) == head + more;
    ShownAppend(head, more);
    TitlesAppend(head, more);
    HiddenAppend(head, more);
    ShownAppend([Title(cat)], Items(Take(es, cap)));
    TitlesAppend([Title(cat)], Items(Take(es, cap)));
    HiddenAppend([Title(cat)], Items(Take(es, cap)));
    ItemsShown(Take(es, cap));
  }

  lemma BestBlockShows(es: seq<Entry>)
    ensures ShownEntries(BestBlock(es)) == es
    ensures HiddenCounts(BestBlock(es)) == []
    ensures Titles(BestBlock(es)) == Opt(es != [], Best)
  {
    if es != [] {
      assert Take(es, |es|) == es;
      SectionShows(Best, es, |es|);
      assert BestBlock(es) == Section(Best, es, |es|) + [Blank];
      ShownAppend(Section(Best, es, |es|), [Blank]);
      TitlesAppend(Section(Best, es, |es|), [Blank]);
      HiddenAppend(Section(Best, es, |es|), [Blank]);
    }
  }

  lemma ChannelBlockShows(es: seq<Entry>)
    ensures ShownEntries(ChannelBlock(es)) == Take(es, ChannelCap)
    ensures HiddenCounts(ChannelBlock(es)) == Opt(|es| > ChannelCap, |es| - ChannelCap)
    ensures Titles(ChannelBlock(es)) == Opt(es != [], Channel)
  {
    if es != [] {
      SectionShows(Channel, es, ChannelCap);
      ShownAppend(Section(Channel, es, ChannelCap), [Blank]);
      TitlesAppend(Section(Channel, es, ChannelCap), [Blank]);
      HiddenAppend(Section(Channel, es, ChannelCap), [Blank]);
    }
  }

  lemma VwmaBlockShows(es: seq<Entry>)
    ensures ShownEntries(VwmaBlock(es)) == Take(es, VwmaCap)
    ensures HiddenCounts(VwmaBlock(es)) == Opt(|es| > VwmaCap, |es| - VwmaCap)
    ensures Titles(VwmaBlock(es)) == Opt(es != [], Vwma)
  {
    if es != [] {
      SectionShows(Vwma, es, VwmaCap);
    }
  }

  /** The shown entries: every best entry, then the first 7 channel entries,
      then the first 5 VWMA entries. */
  lemma LayoutEntries(r: Report, kst: string)
    ensures ShownEntries(Layout(r, kst)) == r.best + Take(r.channel, ChannelCap) + Take(r.vwma, VwmaCap)
  {
    var h, b, c, v := [Head(kst), Blank], BestBlock(r.best), ChannelBlock(r.channel), VwmaBlock(r.vwma);
    ShownAppend(h + b + c, v);
    ShownAppend(h + b, c);
    ShownAppend(h, b);
    HeaderShowsNothing(kst);
    BestBlockShows(r.best);
    ChannelBlockShows(r.channel);
    VwmaBlockShows(r.vwma);
  }

  /** A "...외 N개" line follows a capped section exactly when it has more
      entries than its cap, and N is the number of entries left out. */
  lemma LayoutHidden(r: Report, kst: string)
    ensures HiddenCounts(Layout(r, kst)) ==
              Opt(|r.channel| > ChannelCap, |r.channel| - ChannelCap) + Opt(|r.vwma| > VwmaCap, |r.vwma| - VwmaCap)
  {
    var h, b, c, v := [Head(kst), Blank], BestBlock(r.best), ChannelBlock(r.channel), VwmaBlock(r.vwma);
    HiddenAppend(h + b + c, v);
    HiddenAppend(h + b, c);
    HiddenAppend(h, b);
    HeaderShowsNothing(kst);
    BestBlockShows(r.best);
    ChannelBlockShows(r.channel);
    VwmaBlockShows(r.vwma);
  }

  /** A section's title appears exactly when it has entries: best before
      channel before VWMA. */
  lemma LayoutTitles(r: Report, kst: string)
    ensures Titles(Layout(r, kst)) == Opt(r.best != [], Best) + Opt(r.channel != [], Channel) + Opt(r.vwma != [], Vwma)
  {
    var h, b, c, v := [Head(kst), Blank], BestBlock(r.best), ChannelBlock(r.channel), VwmaBlock(r.vwma);
    TitlesAppend(h + b + c, v);
    TitlesAppend(h + b, c);
    TitlesAppend(h, b);
    HeaderShowsNothing(kst);
    BestBlockShows(r.best);
    ChannelBlockShows(r.channel);
    VwmaBlockShows(r.vwma);
  }

  lemma HeaderShowsNothing(kst: string)
    ensures ShownEntries([Head(kst), Blank]) == [] && Titles([Head(kst), Blank]) == [] && HiddenCounts([Head(kst), Blank]) == []
  {
    ShownAppend([Head(kst)], [Blank]);
    TitlesAppend([Head(kst)], [Blank]);
    HiddenAppend([Head(kst)], [Blank]);
  }

  /** Every message opens with the header line and a blank line. */
  lemma {:induction false} OpensWithHeader(r: Report, kst: string)
    ensures |LayoutText(r, kst)| >= |HeadText(kst)| + 1
    ensures LayoutText(r, kst)[..|HeadText(kst)| + 1] == HeadText(kst) + "\n"
  {
    var ts := Texts(Layout(r, kst));
    assert ts[..2] == [HeadText(kst), ""];
    JoinPrefix(ts, 2, "\n");
    JoinAppend([HeadText(kst)], [""], "\n");
  }

  // ------------------------------------------------ the message, as built

  function EntryTexts(es: seq<Entry>): (ts: seq<string>)
    ensures |ts| == |es| && forall i :: 0 <= i < |es| ==> ts[i] == EntryText(es[i])
  {
    seq(|es|, i requires 0 <= i < |es| => EntryText(es[i]))
  }

  /** The "...외 N개" line of a section, when it hides entries. */
  function MoreLines(es: seq<Entry>, cap: nat): seq<string>
  {
    if |es| > cap then [MoreText(|es| - cap)] else []
  }

  function SectionTexts(cat: Category, es: seq<Entry>, cap: nat): seq<string>
  {
    [TitleText(cat)] + EntryTexts(Take(es, cap)) + MoreLines(es, cap)
  }

  function BestTexts(es: seq<Entry>): seq<string>
  {
    if es != [] then SectionTexts(Best, es, |es|) + [""] else []
  }

  function ChannelTexts(es: seq<Entry>): seq<string>
  {
    if es != [] then SectionTexts(Channel, es, ChannelCap) + [""] else []
  }

  function VwmaTexts(es: seq<Entry>): seq<string>
  {
    if es != [] then SectionTexts(Vwma, es, VwmaCap) else [""]
  }

  /** The texts of the layout, block by block. */
  lemma LayoutTexts(r: Report, kst: string)
    ensures Texts(Layout(r, kst)) == [HeadText(kst), ""] + BestTexts(r.best) + ChannelTexts(r.channel) + VwmaTexts(r.vwma)
  {
    var h := [Head(kst), Blank];
    var b := BestBlock(r.best);
    var c := ChannelBlock(r.channel);
    var v := VwmaBlock(r.vwma);
    TextsAppend(h + b + c, v);
    TextsAppend(h + b, c);
    TextsAppend(h, b);
    BestBlockTexts(r.best);
    ChannelBlockTexts(r.channel);
    VwmaBlockTexts(r.vwma);
  }

  lemma BestBlockTexts(es: seq<Entry>)
    ensures Texts(BestBlock(es)) == BestTexts(es)
  {
    if es != [] {
      assert Take(es, |es|) == es;
      assert BestBlock(es) == Section(Best, es, |es|) + [Blank];
      TextsOfSection(Best, es, |es|);
      TextsAppend(Section(Best, es, |es|), [Blank]);
    }
  }

  lemma ChannelBlockTexts(es: seq<Entry>)
    ensures Texts(ChannelBlock(es)) == ChannelTexts(es)
  {
    if es != [] {
      TextsOfSection(Channel, es, ChannelCap);
      TextsAppend(Section(Channel, es, ChannelCap), [Blank]);
    }
  }

  lemma VwmaBlockTexts(es: seq<Entry>)
    ensures Texts(VwmaBlock(es)) == VwmaTexts(es)
  {
    if es != [] {
      TextsOfSection(Vwma, es, VwmaCap);
    }
  }

  lemma TextsAppend(a: seq<Line>, b: seq<Line>)
    ensures Texts(a + b) == Texts(a) + Texts(b)
  {
  }

  lemma ItemTexts(es: seq<Entry>)
    ensures Texts(Items(es)) == EntryTexts(es)
  {
  }

  lemma TextsOfSection(cat: Category, es: seq<Entry>, cap: nat)
    ensures Texts(Section(cat, es, cap)) == SectionTexts(cat, es, cap)
  {
    var shown := Items(Take(es, cap));
    var more := if |es| > cap then [More(|es| - cap)] else [];
    TextsAppend([Title(cat)] + shown, more);
    TextsAppend([Title(cat)], shown);
    ItemTexts(Take(es, cap));
    SingleText(Title(cat));
    if |es| > cap {
      SingleText(More(|es| - cap));
    }
  }

  lemma SingleText(l: Line)
    ensures Texts([l]) == [LineText(l)]
  {
  }

  /** Lines 212-230: the message built with `+=`, section by section. */
  method Compose(r: Report, kst: string) returns (msg: string)
    ensures msg == LayoutText(r, kst)
  {
    // `ts` holds the texts of the lines so far; before each section `msg`
    // is their join and one newline more
    ghost var ts := [HeadText(kst), ""];
    msg := HeadText(kst) + "\n\n";
    StartText(HeadText(kst), "\n", msg);
    if r.best != [] {
      // `"\n".join(best) + "\n\n"`: every entry, then the blank line
      msg := AddSection(msg, ts, Best, r.best, |r.best|);
      msg := CloseSection(msg, ts, SectionTexts(Best, r.best, |r.best|));
    } else {
      assert ts + BestTexts(r.best) == ts;
    }
    ts := ts + BestTexts(r.best);
    if r.channel != [] {
      msg := AddSection(msg, ts, Channel, r.channel, ChannelCap);
      msg := CloseSection(msg, ts, SectionTexts(Channel, r.channel, ChannelCap));
    } else {
      assert ts + ChannelTexts(r.channel) == ts;
    }
    ts := ts + ChannelTexts(r.channel);
    if r.vwma != [] {
      msg := AddSection(msg, ts, Vwma, r.vwma, VwmaCap);
    } else {
      EndText(ts, "\n", msg);
    }
    ts := ts + VwmaTexts(r.vwma);
    LayoutTexts(r, kst);
  }

  /** One section of the message: its title line, the first `cap` entries
      joined by newlines, and the "...외 N개" line when entries are left over.
      `ts` are the texts of the lines before it. */
  method AddSection(msg: string, ghost ts: seq<string>, cat: Category, es: seq<Entry>, cap: nat) returns (msg': string)
    requires ts != [] && es != [] && cap >= 1
    requires msg == Join(ts, "\n") + "\n"
    ensures msg' == Join(ts + SectionTexts(cat, es, cap), "\n")
  {
    var items := EntryTexts(Take(es, cap));
    msg' := msg + (TitleText(cat) + "\n");
    msg' := msg' + Join(items, "\n");
    ghost var shown := msg';
    ghost var tail := MoreLines(es, cap);
    if |es| > cap {
      msg' := msg' + ("\n" + MoreText(|es| - cap));
      assert tail[0] == MoreText(|es| - cap);
    }
    JoinAppendSection(ts, TitleText(cat), items, tail, "\n", msg, shown, msg');
  }

  /** The blank line that closes a section, and the newline after it. */
  method CloseSection(msg: string, ghost ts: seq<string>, ghost block: seq<string>) returns (msg': string)
    requires ts != []
    requires msg == Join(ts + block, "\n")
    ensures msg' == Join(ts + (block + [""]), "\n") + "\n"
  {
    msg' := msg + "\n\n";
    assert "\n\n" == "\n" + "\n";
    JoinBlank(ts + block, "\n");
    assert ts + block + [""] == ts + (block + [""]);
  }
}
