/** The coins scanned (lines 117-126): the linear USDT-margined swaps, ranked by
    24-hour quote volume, the first 100 of them. */
module Universe {
  import opened Floats
  import opened Common

  /** A market as `load_markets` describes it; `linear` is false when the
      field is missing. */
  datatype Market = Market(symbol: string, linear: bool, quote: string, base: string)

  /** A ticker; a null quote volume is `None`. */
  datatype Ticker = Ticker(symbol: string, quoteVolume: Option<real>)

  const TopCount: nat := 100

  predicate IsLinearUsdt(m: Market)
  {
    m.linear && m.quote == "USDT"
  }

  /** Line 118: the symbols of the linear USDT markets, in the markets' order. */
  function LinearUsdt(ms: seq<Market>): (syms: seq<string>)
    ensures |syms| <= |ms|
    ensures forall s :: s in syms <==> exists m :: m in ms && IsLinearUsdt(m) && m.symbol == s
    decreases |ms|
  {
    if ms == [] then []
    else
      var rest := LinearUsdt(ms[1..]);
      assert forall m :: m in ms[1..] ==> m in ms;
      assert forall m :: m in ms && m != ms[0] ==> m in ms[1..];
      (if IsLinearUsdt(ms[0]) then [ms[0].symbol] else []) + rest
  }

  /** Line 126: `markets[symbol]['base']`; `None` is the `KeyError` for a
      symbol the markets do not list. */
  function BaseOf(ms: seq<Market>, symbol: string): (b: Option<string>)
    ensures b.None? <==> forall m :: m in ms ==> m.symbol != symbol
    ensures b.Some? ==> exists m :: m in ms && m.symbol == symbol && m.base == b.value
    decreases |ms|
  {
    if ms == [] then None
    else if ms[0].symbol == symbol then Some(ms[0].base)
    else
      assert forall m :: m in ms[1..] ==> m in ms;
      assert forall m :: m in ms && m != ms[0] ==> m in ms[1..];
      BaseOf(ms[1..], symbol)
  }

  // ------------------------------------------------------------ ranking

  /** The sort key of line 122: the quote volume, 0 when it is null or zero. */
  function Volume(t: Ticker): real
  {
    match t.quoteVolume
    case None => 0.0
    case Some(v) => v
  }

  predicate Descending(ts: seq<Ticker>)
  {
    forall i, j :: 0 <= i < j < |ts| ==> Volume(ts[i]) >= Volume(ts[j])
  }

  /** Puts `t` after every element whose volume is at least its own, so that
      it follows the tickers of equal volume already placed. */
  function Insert(sorted: seq<Ticker>, t: Ticker): (r: seq<Ticker>)
    ensures multiset(r) == multiset(sorted) + multiset{t}
    ensures |r| == |sorted| + 1
    decreases |sorted|
  {
    if sorted == [] then [t]
    else if Volume(sorted[|sorted| - 1]) >= Volume(t) then sorted + [t]
    else
      assert sorted[..|sorted| - 1] + [sorted[|sorted| - 1]] == sorted;
      Insert(sorted[..|sorted| - 1], t) + [sorted[|sorted| - 1]]
  }

  /** `sorted(..., key=volume, reverse=True)`: Python's sort is stable, also
      in reverse, so tickers of equal volume keep their order. */
  function SortByVolume(ts: seq<Ticker>): (r: seq<Ticker>)
    ensures multiset(r) == multiset(ts)
    ensures |r| == |ts|
    decreases |ts|
  {
    if ts == [] then []
    else
      assert ts[..|ts| - 1] + [ts[|ts| - 1]] == ts;
      Insert(SortByVolume(ts[..|ts| - 1]), ts[|ts| - 1])
  }

  /** Line 123: the symbols of the 100 tickers with the largest volume. */
  function TopSymbols(ts: seq<Ticker>): (syms: seq<string>)
    ensures |syms| == Min(|ts|, TopCount)
    ensures forall i :: 0 <= i < |syms| ==> syms[i] == SortByVolume(ts)[i].symbol
  {
    var sorted := SortByVolume(ts);
    var n := Min(|sorted|, TopCount);
    seq(n, i requires 0 <= i < n => sorted[i].symbol)
  }

  /** The tickers of one volume, in order. */
  function WithVolume(ts: seq<Ticker>, v: real): seq<Ticker>
    decreases |ts|
  {
    if ts == [] then []
    else WithVolume(ts[..|ts| - 1], v) + Picked(ts[|ts| - 1], v)
  }

  lemma {:induction false} InsertStable(sorted: seq<Ticker>, t: Ticker, v: real)
    ensures WithVolume(Insert(sorted, t), v) == WithVolume(sorted, v) + Picked(t, v)
    decreases |sorted|
  {
    if sorted == [] {
      WithVolumeSnoc([], t, v);
      assert [] + [t] == [t];
    } else if Volume(sorted[|sorted| - 1]) >= Volume(t) {
      WithVolumeSnoc(sorted, t, v);
    } else {
      var init := sorted[..|sorted| - 1];
      var last := sorted[|sorted| - 1];
      assert init + [last] == sorted;
      InsertStable(init, t, v);
      StableStep(init, last, t, v, Insert(init, t));
    }
  }

  /** A louder ticker inserted before `last` does not reorder the tickers of
      one volume: at most one of `t` and `last` has volume `v`. */
  lemma StableStep(init: seq<Ticker>, last: Ticker, t: Ticker, v: real, ins: seq<Ticker>)
    requires WithVolume(ins, v) == WithVolume(init, v) + Picked(t, v)
    requires Volume(last) < Volume(t)
    ensures WithVolume(ins + [last], v) == WithVolume(init + [last], v) + Picked(t, v)
  {
    WithVolumeSnoc(ins, last, v);
    WithVolumeSnoc(init, last, v);
    var w := WithVolume(init, v);
    if Picked(t, v) == [] {
      assert w + [] + Picked(last, v) == w + Picked(last, v) + [];
    } else {
      assert Picked(last, v) == [];
      assert w + Picked(t, v) + [] == w + [] + Picked(t, v);
    }
  }

  /** The ticker itself when it has volume `v`, else nothing. */
  function Picked(t: Ticker, v: real): seq<Ticker>
  {
    if Volume(t) == v then [t] else []
  }

  lemma WithVolumeSnoc(s: seq<Ticker>, t: Ticker, v: real)
    ensures WithVolume(s + [t], v) == WithVolume(s, v) + Picked(t, v)
  {
    assert (s + [t])[..|s|] == s;
  }

  lemma {:induction false} InsertDescending(sorted: seq<Ticker>, t: Ticker)
    requires Descending(sorted)
    ensures Descending(Insert(sorted, t))
    decreases |sorted|
  {
    if sorted == [] {
    } else if Volume(sorted[|sorted| - 1]) >= Volume(t) {
      AppendLowest(sorted, t);
    } else {
      var init := sorted[..|sorted| - 1];
      var last := sorted[|sorted| - 1];
      InsertDescending(init, t);
      var ins := Insert(init, t);
      forall x | x in multiset(ins)
        ensures Volume(x) >= Volume(last)
      {
        if x != t {
          assert x in multiset(init);
          var i :| 0 <= i < |init| && init[i] == x;
          assert sorted[i] == x;
        }
      }
      AppendBelowAll(ins, last);
    }
  }

  /** A ticker no louder than the last of a descending run can follow it. */
  lemma AppendLowest(sorted: seq<Ticker>, t: Ticker)
    requires Descending(sorted) && sorted != [] && Volume(sorted[|sorted| - 1]) >= Volume(t)
    ensures Descending(sorted + [t])
  {
    var r := sorted + [t];
    forall i, j | 0 <= i < j < |r|
      ensures Volume(r[i]) >= Volume(r[j])
    {
      if j == |sorted| && i < |sorted| - 1 {
        assert Volume(sorted[i]) >= Volume(sorted[|sorted| - 1]);
      }
    }
  }

  /** A ticker no louder than any element of a descending run can follow it. */
  lemma AppendBelowAll(s: seq<Ticker>, t: Ticker)
    requires Descending(s)
    requires forall x | x in multiset(s) :: Volume(x) >= Volume(t)
    ensures Descending(s + [t])
  {
    var r := s + [t];
    forall i, j | 0 <= i < j < |r|
      ensures Volume(r[i]) >= Volume(r[j])
    {
      if j == |s| {
        assert r[i] in multiset(s);
      }
    }
  }

  /** The ranking puts the tickers in order of decreasing volume (it only
      reorders them: see the ensures of `SortByVolume`). */
  lemma {:induction false} SortedDescending(ts: seq<Ticker>)
    ensures Descending(SortByVolume(ts))
    decreases |ts|
  {
    if ts != [] {
      var init := ts[..|ts| - 1];
      SortedDescending(init);
      InsertDescending(SortByVolume(init), ts[|ts| - 1]);
    }
  }

  /** The ranking keeps tickers of equal volume in their order. */
  lemma {:induction false} SortedStable(ts: seq<Ticker>, v: real)
    ensures WithVolume(SortByVolume(ts), v) == WithVolume(ts, v)
    decreases |ts|
  {
    if ts != [] {
      var init := ts[..|ts| - 1];
      SortedStable(init, v);
      InsertStable(SortByVolume(init), ts[|ts| - 1], v);
    }
  }

  /** Every ticker kept has at least the volume of every ticker left out
      (the symbols kept are those of the first 100 sorted tickers). */
  lemma TopIsTop(ts: seq<Ticker>, i: nat, j: nat)
    requires i < TopCount <= j < |ts|
    ensures Volume(SortByVolume(ts)[i]) >= Volume(SortByVolume(ts)[j])
  {
    SortedDescending(ts);
  }
}
