/** The pieces of Python string formatting the report uses: `str(int)`,
    `format(x, '.1f')` and `sep.join(items)`. */
module Text {
  import opened Common

  function Digit(d: nat): char
    requires d < 10
  {
    "0123456789"[d]
  }

  function DigitValue(ch: char): nat
  {
    if '0' <= ch <= '9' then (ch as int - '0' as int) as nat else 0
  }

  predicate IsDigits(s: string)
  {
    forall i :: 0 <= i < |s| ==> '0' <= s[i] <= '9'
  }

  /** Decimal digits of a natural number, most significant first. */
  function NatText(n: nat): (s: string)
    ensures |s| >= 1 && IsDigits(s)
  {
    if n < 10 then [Digit(n)] else NatText(n / 10) + [Digit(n % 10)]
  }

  /** `str(n)` for an integer. */
  function IntText(n: int): string
  {
    if n < 0 then "-" + NatText(-n) else NatText(n)
  }

  /** Reads a string of decimal digits back as a number. */
  function ParseNat(s: string): nat
  {
    if s == [] then 0 else ParseNat(s[..|s| - 1]) * 10 + DigitValue(s[|s| - 1])
  }

  /** The decimal text of a number reads back as that number. */
  lemma {:induction false} NatTextRoundTrip(n: nat)
    ensures ParseNat(NatText(n)) == n
  {
    var s := NatText(n);
    if n < 10 {
      assert s[..|s| - 1] == [];
    } else {
      NatTextRoundTrip(n / 10);
      assert s[..|s| - 1] == NatText(n / 10);
      DigitRoundTrip(n % 10);
      assert ParseNat(s) == ParseNat(NatText(n / 10)) * 10 + DigitValue(Digit(n % 10));
    }
  }

  lemma DigitRoundTrip(d: nat)
    requires d < 10
    ensures DigitValue(Digit(d)) == d
  {
  }

  /** Rounding to the nearest integer, ties to the even neighbour. */
  function RoundHalfEven(y: real): (k: int)
    requires y >= 0.0
    ensures k >= 0
    ensures k == y.Floor || k == y.Floor + 1
    ensures -0.5 <= k as real - y <= 0.5
    ensures y - y.Floor as real != 0.5 ==> -0.5 < k as real - y < 0.5
    ensures y - y.Floor as real == 0.5 ==> k % 2 == 0
  {
    var f := y.Floor;
    var d := y - f as real;
    if d > 0.5 then f + 1
    else if d < 0.5 then f
    else if f % 2 == 0 then f else f + 1
  }

  /** `format(x, '.1f')`: the value rounded to one decimal, ties to even, with
      a leading minus for a negative value (also when it rounds to zero, as
      in `-0.0`). */
  function OneDecimal(x: real): (s: string)
    ensures |s| >= 3 && (s[0] == '-' <==> x < 0.0)
    ensures var u := Unsigned(s); |u| >= 3 && IsDigits(u[..|u| - 2]) && u[|u| - 2] == '.' && '0' <= u[|u| - 1] <= '9'
  {
    var k := RoundHalfEven(Abs(x) * 10.0);
    (if x < 0.0 then "-" else "") + NatText(k / 10) + "." + [Digit(k % 10)]
  }

  /** The text without its leading minus. */
  function Unsigned(s: string): string
  {
    if s != [] && s[0] == '-' then s[1..] else s
  }

  /** The number of tenths a text `d...d.d` shows. */
  function Tenths(u: string): nat
    requires |u| >= 3
  {
    ParseNat(u[..|u| - 2]) * 10 + DigitValue(u[|u| - 1])
  }

  /** Read back, the text of `format(x, '.1f')` is within half a tenth of `x`:
      its digits show `|x|` rounded to tenths, its sign is the sign of `x`. */
  lemma OneDecimalReadsBack(x: real)
    ensures var u := Unsigned(OneDecimal(x));
            |u| >= 3 && -0.05 <= Tenths(u) as real / 10.0 - Abs(x) <= 0.05
  {
    var k := RoundHalfEven(Abs(x) * 10.0);
    var u := NatText(k / 10) + "." + [Digit(k % 10)];
    assert Unsigned(OneDecimal(x)) == u;
    assert u[..|u| - 2] == NatText(k / 10);
    NatTextRoundTrip(k / 10);
    DigitRoundTrip(k % 10);
    assert Tenths(u) == k;
  }

  /** `sep.join(items)`. */
  function Join(items: seq<string>, sep: string): string
  {
    if |items| == 0 then ""
    else if |items| == 1 then items[0]
    else Join(items[..|items| - 1], sep) + sep + items[|items| - 1]
  }

  /** Joining two non-empty runs of items is joining each and gluing the two
      results with one more separator. */
  lemma {:induction false} JoinAppend(a: seq<string>, b: seq<string>, sep: string)
    requires a != [] && b != []
    ensures Join(a + b, sep) == Join(a, sep) + sep + Join(b, sep)
  {
    if |b| == 1 {
      assert (a + b)[..|a + b| - 1] == a;
    } else {
      var b' := b[..|b| - 1];
      assert (a + b)[..|a + b| - 1] == a + b';
      JoinAppend(a, b', sep);
    }
  }

  /** Joining after a first item. */
  lemma JoinCons(x: string, xs: seq<string>, sep: string)
    requires xs != []
    ensures Join([x] + xs, sep) == x + sep + Join(xs, sep)
  {
    JoinAppend([x], xs, sep);
  }

  /** The first line and an empty one, each closed by the separator. */
  lemma StartText(head: string, sep: string, text: string)
    requires text == head + (sep + sep)
    ensures text == Join([head, ""], sep) + sep
  {
    assert [head, ""] == [head] + [""];
    JoinAppend([head], [""], sep);
  }

  /** A final empty line: its join ends in the separator. */
  lemma EndText(prefix: seq<string>, sep: string, text: string)
    requires prefix != []
    requires text == Join(prefix, sep) + sep
    ensures text == Join(prefix + [""], sep)
  {
    JoinAppend(prefix, [""], sep);
    assert Join([""], sep) == "";
  }

  /** A titled block joined after a prefix. */
  lemma JoinBlock(prefix: seq<string>, title: string, rest: seq<string>, sep: string)
    requires prefix != [] && rest != []
    ensures Join(prefix + ([title] + rest), sep) == Join(prefix, sep) + sep + (title + sep + Join(rest, sep))
  {
    JoinAppend(prefix, [title] + rest, sep);
    JoinCons(title, rest, sep);
  }

  /** An optional last item as it is appended to a text: the separator and
      the item, or nothing. */
  function Trailer(tail: seq<string>, sep: string): string
  {
    if tail == [] then "" else sep + tail[0]
  }

  /** Joining items and an optional trailing item. */
  lemma JoinTrailer(items: seq<string>, tail: seq<string>, sep: string)
    requires items != [] && |tail| <= 1
    ensures Join(items + tail, sep) == Join(items, sep) + Trailer(tail, sep)
  {
    if tail == [] {
      assert items + tail == items;
    } else {
      JoinAppend(items, tail, sep);
    }
  }

  /** Regrouping four pieces of text. */
  lemma Regroup(x: string, a: string, b: string, c: string, d: string, y: string)
    requires x == a + b + c + d && y == a + (b + (c + d))
    ensures x == y
  {
  }

  /** A section appended, in three steps, to the text of `prefix` and a
      separator: the title line, the joined items, and the trailing item when
      there is one. */
  lemma JoinAppendSection(prefix: seq<string>, title: string, items: seq<string>, tail: seq<string>, sep: string,
                      before: string, shown: string, after: string)
    requires prefix != [] && items != [] && |tail| <= 1
    requires before == Join(prefix, sep) + sep
    requires shown == before + (title + sep) + Join(items, sep)
    requires after == if tail == [] then shown else shown + (sep + tail[0])
    ensures after == Join(prefix + ([title] + items + tail), sep)
  {
    assert [title] + items + tail == [title] + (items + tail);
    JoinBlock(prefix, title, items + tail, sep);
    JoinTrailer(items, tail, sep);
    Regroup(after, before, title + sep, Join(items, sep), Trailer(tail, sep), Join(prefix + ([title] + items + tail), sep));
  }

  /** One more, empty, item and a separator after it. */
  lemma JoinBlank(items: seq<string>, sep: string)
    requires items != []
    ensures Join(items, sep) + sep + sep == Join(items + [""], sep) + sep
  {
    JoinAppend(items, [""], sep);
    assert Join([""], sep) == "";
  }

  /** The join of the first `k` items begins the join of them all. */
  lemma {:induction false} JoinPrefix(items: seq<string>, k: nat, sep: string)
    requires 1 <= k <= |items|
    ensures Join(items[..k], sep) <= Join(items, sep)
  {
    if k < |items| {
      JoinAppend(items[..k], items[k..], sep);
      assert items[..k] + items[k..] == items;
    } else {
      assert items[..k] == items;
    }
  }
}
