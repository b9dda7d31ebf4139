/** The two-generation dedup memory. The previous run's memory is loaded once
    and only read, to mark repeat alerts; the current run's memory is built
    fresh and replaces the persisted one when the run finishes. */
module Memory {
  import opened Floats

  /** The three alert categories; their keys in the persisted JSON. */
  datatype Category = Vwma | Channel | Best

  function Key(c: Category): string
  {
    match c
    case Vwma => "vwma"
    case Channel => "channel"
    case Best => "best"
  }

  /** A value stored under a timeframe in the persisted JSON: the nested record
      `{category: [coin, ...]}`, or the flat `[coin, ...]` list of the older,
      VWMA-only memory file. */
  datatype Stored = Record(lists: map<string, seq<string>>) | Legacy(coins: seq<string>)

  /** The persisted file: `{timeframe: stored}`. */
  type Snapshot = map<string, Stored>

  /** What `load_memory` finds on disk. */
  datatype MemoryFile = Missing | Corrupt | Json(contents: Snapshot)

  /** A missing file and one that fails to parse both load as `{}`. */
  function Load(f: MemoryFile): (m: Snapshot)
    ensures f.Json? ==> m == f.contents
    ensures !f.Json? ==> m == map[]
  {
    match f
    case Json(m) => m
    case _ => map[]
  }

  /** `tf in last_memory and coin in last_memory[tf].get(cat, [])`. A record
      without the category reads as the empty list. `None` is the exception
      that `.get` raises on a value that is not an object. */
  function DupMark(last: Snapshot, tf: string, cat: Category, coin: string): (d: Option<bool>)
    ensures d == None <==> tf in last && last[tf].Legacy?
    ensures d == Some(true) <==>
              tf in last && last[tf].Record? && Key(cat) in last[tf].lists && coin in last[tf].lists[Key(cat)]
  {
    if tf !in last then Some(false)
    else match last[tf]
      case Legacy(_) => None
      case Record(lists) => Some(coin in (if Key(cat) in lists then lists[Key(cat)] else []))
  }

  /** Whether the lookup raises depends on the timeframe only, never on the
      category or the coin. */
  lemma DupMarkFailsPerTimeframe(last: Snapshot, tf: string, c1: Category, c2: Category, x: string, y: string)
    ensures DupMark(last, tf, c1, x).None? <==> DupMark(last, tf, c2, y).None?
  {
  }

  /** A worked dedup example: `{"4h": {"vwma": ["BTC"]}}` marks
      BTC on 4h/vwma as a repeat and ETH as fresh, and nothing else repeats. */
  lemma DedupExample()
    ensures var last := map["4h" := Record(map["vwma" := ["BTC"]])];
            && DupMark(last, "4h", Vwma, "BTC") == Some(true)
            && DupMark(last, "4h", Vwma, "ETH") == Some(false)
            && DupMark(last, "4h", Channel, "BTC") == Some(false)
            && DupMark(last, "1h", Vwma, "BTC") == Some(false)
  {
  }

  // ----------------------------------------------- the current generation

  /** `{'vwma': [], 'channel': [], 'best': []}`: always all three lists. */
  datatype Lists = Lists(vwma: seq<string>, channel: seq<string>, best: seq<string>)

  const EmptyLists: Lists := Lists([], [], [])

  function Get(l: Lists, cat: Category): seq<string>
  {
    match cat
    case Vwma => l.vwma
    case Channel => l.channel
    case Best => l.best
  }

  function Put(l: Lists, cat: Category, coins: seq<string>): (l': Lists)
    ensures Get(l', cat) == coins
    ensures forall c :: c != cat ==> Get(l', c) == Get(l, c)
  {
    match cat
    case Vwma => l.(vwma := coins)
    case Channel => l.(channel := coins)
    case Best => l.(best := coins)
  }

  type Generation = map<string, Lists>

  /** Lines 151-152 (and 164-165, 203-204): create the timeframe's record with
      all three lists empty if it is new, then append the coin to one list. */
  function Append(cur: Generation, tf: string, cat: Category, coin: string): (next: Generation)
    ensures next.Keys == cur.Keys + {tf}
    ensures Get(next[tf], cat) == (if tf in cur then Get(cur[tf], cat) else []) + [coin]
    ensures forall c :: c != cat ==> Get(next[tf], c) == (if tf in cur then Get(cur[tf], c) else [])
    ensures forall t :: t in cur && t != tf ==> next[t] == cur[t]
  {
    var l := if tf in cur then cur[tf] else EmptyLists;
    cur[tf := Put(l, cat, Get(l, cat) + [coin])]
  }

  /** What `json.dump` writes for the current generation. */
  function ToSnapshot(cur: Generation): (s: Snapshot)
    ensures s.Keys == cur.Keys
    ensures forall tf :: tf in cur ==> s[tf].Record? && s[tf].lists.Keys == {"vwma", "channel", "best"}
  {
    map tf | tf in cur :: Record(map["vwma" := cur[tf].vwma, "channel" := cur[tf].channel, "best" := cur[tf].best])
  }

  /** Persisting a generation and loading it in the next run loses nothing:
      the next run's dedup mark is exactly membership in this run's lists, and
      the lookup never raises. */
  lemma RoundTrip(cur: Generation, tf: string, cat: Category, coin: string)
    ensures DupMark(Load(Json(ToSnapshot(cur))), tf, cat, coin) == Some(tf in cur && coin in Get(cur[tf], cat))
  {
    if tf in cur {
      var lists := ToSnapshot(cur)[tf].lists;
      assert lists[Key(cat)] == Get(cur[tf], cat);
    }
  }
}
