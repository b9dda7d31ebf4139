/** `send_msg`: the report goes to Telegram in pieces of at most 4000
    characters. The HTTP requests are not modelled; what is modelled is the
    sequence of texts handed to them, and the effect of a request that raises
    (the `except: pass` ends the sending, silently). */
module Delivery {
  import opened Floats
  import opened Common

  /** The largest piece sent in one request. */
  const ChunkSize: nat := 4000

  function Concat(chunks: seq<string>): string
  {
    if chunks == [] then "" else chunks[0] + Concat(chunks[1..])
  }

  /** The slices `text[i:i+4000]` for `i` in `range(from, len(text), 4000)`. */
  function SlicesFrom(text: string, from: nat): (cs: seq<string>)
    ensures from < |text| <==> cs != []
    decreases |text| - from
  {
    if from >= |text| then []
    else [text[from..Min(from + ChunkSize, |text|)]] + SlicesFrom(text, from + ChunkSize)
  }

  /** The pieces of `text` in order: the whole text when it fits (even the
      empty text is one request), otherwise the slices of 4000 characters. */
  function Slices(text: string): (cs: seq<string>)
    ensures |cs| >= 1
  {
    if |text| <= ChunkSize then [text] else SlicesFrom(text, 0)
  }

  /** The slices from an offset put together give the text after it. */
  lemma {:induction false} SlicesFromConcat(text: string, from: nat)
    requires from <= |text|
    ensures Concat(SlicesFrom(text, from)) == text[from..]
    decreases |text| - from
  {
    if from < |text| {
      var to := Min(from + ChunkSize, |text|);
      SlicesFromConcat(text, to);
      if to < from + ChunkSize {
        assert SlicesFrom(text, from + ChunkSize) == [];
      }
      assert text[from..to] + text[to..] == text[from..];
    }
  }

  /** Nothing is lost or repeated: the pieces put together are the text. */
  lemma SlicesConcat(text: string)
    ensures Concat(Slices(text)) == text
  {
    if |text| > ChunkSize {
      SlicesFromConcat(text, 0);
    } else {
      assert Slices(text) == [text];
    }
  }

  /** Every slice from an offset but the last holds 4000 characters; the last
      holds between 1 and 4000. */
  lemma {:induction false} SlicesFromSizes(text: string, from: nat)
    ensures forall k :: 0 <= k < |SlicesFrom(text, from)| ==> 1 <= |SlicesFrom(text, from)[k]| <= ChunkSize
    ensures forall k :: 0 <= k < |SlicesFrom(text, from)| - 1 ==> |SlicesFrom(text, from)[k]| == ChunkSize
    decreases |text| - from
  {
    if from < |text| {
      SlicesFromSizes(text, from + ChunkSize);
      var rest := SlicesFrom(text, from + ChunkSize);
      if rest != [] {
        assert from + ChunkSize < |text|;
      }
    }
  }

  /** The pieces' sizes: each sent text has at most 4000 characters and, but
      for the last, exactly 4000; only the empty text gives an empty piece. A
      text is sent whole, as one request, exactly when it fits in one. */
  lemma SliceSizes(text: string)
    ensures Slices(text) == [text] <==> |text| <= ChunkSize
    ensures forall k :: 0 <= k < |Slices(text)| ==> |Slices(text)[k]| <= ChunkSize
    ensures forall k :: 0 <= k < |Slices(text)| ==> |Slices(text)[k]| >= 1 || text == []
    ensures forall k :: 0 <= k < |Slices(text)| - 1 ==> |Slices(text)[k]| == ChunkSize
  {
    if |text| > ChunkSize {
      SlicesFromSizes(text, 0);
    }
  }

  /** Piece `k` from an offset is the slice starting `4000 k` further on. */
  lemma {:induction false} SlicesFromAt(text: string, from: nat, k: nat)
    requires k < |SlicesFrom(text, from)|
    ensures from + ChunkSize * k < |text|
    ensures SlicesFrom(text, from)[k] == text[from + ChunkSize * k .. Min(from + ChunkSize * k + ChunkSize, |text|)]
    decreases k
  {
    if k > 0 {
      SlicesFromAt(text, from + ChunkSize, k - 1);
    }
  }

  /** The `k`-th piece of a long text is the Python slice `text[4000k : 4000k + 4000]`. */
  lemma SliceAt(text: string, k: nat)
    requires |text| > ChunkSize && k < |Slices(text)|
    ensures ChunkSize * k < |text|
    ensures Slices(text)[k] == text[ChunkSize * k .. Min(ChunkSize * k + ChunkSize, |text|)]
  {
    SlicesFromAt(text, 0, k);
  }

  /** There are as many slices from an offset as it takes to cover the rest. */
  lemma {:induction false} SlicesFromCount(text: string, from: nat)
    requires from <= |text|
    ensures |SlicesFrom(text, from)| == (|text| - from + ChunkSize - 1) / ChunkSize
    decreases |text| - from
  {
    if from + ChunkSize < |text| {
      SlicesFromCount(text, from + ChunkSize);
    } else if from < |text| {
      assert SlicesFrom(text, from + ChunkSize) == [];
    }
  }

  /** A long text needs as many requests as it takes to cover it. */
  lemma PieceCount(text: string)
    requires |text| > ChunkSize
    ensures |Slices(text)| == (|text| + ChunkSize - 1) / ChunkSize
  {
    SlicesFromCount(text, 0);
  }

  /** The pieces that reach `requests.get`: all of them, or, when the request
      for piece `f` raises, pieces 0 .. f (piece f included: it was sent and
      failed). */
  function Attempted(chunks: seq<string>, failsAt: Option<nat>): (a: seq<string>)
    ensures a <= chunks
    ensures failsAt.None? ==> a == chunks
  {
    if failsAt.Some? && failsAt.value < |chunks| then chunks[..failsAt.value + 1] else chunks
  }

  /** Lines 15-24. `failsAt` is the index of the first request that raises,
      if any; the result lists the texts of the requests made, in order. */
  method SendMsg(text: string, failsAt: Option<nat>) returns (requests: seq<string>)
    ensures requests == Attempted(Slices(text), failsAt)
  {
    if |text| > ChunkSize {
      requests := [];
      var i := 0;
      while i < |text|
        invariant SlicesFrom(text, 0) == requests + SlicesFrom(text, i)
        invariant failsAt.Some? ==> failsAt.value >= |requests|
        decreases |text| - i
      {
        var piece := text[i..Min(i + ChunkSize, |text|)];
        ghost var rest := SlicesFrom(text, i + ChunkSize);
        assert requests + SlicesFrom(text, i) == (requests + [piece]) + rest;
        requests := requests + [piece];
        if failsAt == Some(|requests| - 1) {
          assert (requests + rest)[..|requests|] == requests;
          return;
        }
        i := i + ChunkSize;
      }
      assert requests + SlicesFrom(text, i) == requests;
    } else {
      requests := [text];
      assert [text][..1] == [text];
    }
  }
}
