/** Money arithmetic of an invoice, in whole kobo. */
module InvoiceTotals {
  import opened Wrappers

  datatype Line = Line(quantity: int, unitPrice: int)

  datatype Totals = Totals(subtotal: int, tax: int, total: int)

  function LineTotal(l: Line): int { l.unitPrice * l.quantity }

  function Subtotal(lines: seq<Line>): int {
    if lines == [] then 0 else Subtotal(lines[..|lines| - 1]) + LineTotal(lines[|lines| - 1])
  }

  /** `n / d` rounded to the nearest integer, halves up. */
  function HalfUp(n: int, d: int): int
    requires d > 0
  {
    (2 * n + d) / (2 * d)
  }

  /** A rate is in basis points. */
  function ComputeTotals(lines: seq<Line>, rate: Option<int>): Totals {
    var subtotal := Subtotal(lines);
    var tax := match rate
      case None => 0
      case Some(bp) => HalfUp(subtotal * bp, 10_000);
    Totals(subtotal, tax, subtotal + tax)
  }

  /** Taxed at this rate or not at all, the lines cost the same. */
  predicate Taxless(lines: seq<Line>, rate: Option<int>) {
    ComputeTotals(lines, rate) == ComputeTotals(lines, None)
  }

  lemma TaxlessIff(lines: seq<Line>, bp: int)
    ensures Taxless(lines, Some(bp)) <==> -5_000 <= Subtotal(lines) * bp < 5_000
  {
    HalfUpIsNearest(Subtotal(lines) * bp, 10_000, 0);
  }

  /** The nearest integer, and on a tie the upper one: these two bounds leave one candidate. */
  lemma HalfUpIsNearest(n: int, d: int, r: int)
    requires d > 0
    ensures r == HalfUp(n, d) <==> -d <= 2 * (n - d * r) < d
  {
    var q := 2 * n + d;
    assert q == (2 * d) * HalfUp(n, d) + q % (2 * d);
    if -d <= 2 * (n - d * r) < d {
      var k := r - HalfUp(n, d);
      assert (2 * d) * r == (2 * d) * HalfUp(n, d) + (2 * d) * k by { Distribute(2 * d, HalfUp(n, d), k); }
      assert 0 <= q - (2 * d) * r < 2 * d;
      assert -(2 * d) < (2 * d) * k < 2 * d;
      NonzeroMultiple(2 * d, k);
    }
  }

  lemma Distribute(a: int, b: int, k: int)
    ensures a * (b + k) == a * b + a * k
  {
  }

  lemma NonzeroMultiple(m: int, k: int)
    requires m > 0
    ensures k >= 1 ==> m * k >= m
    ensures k <= -1 ==> m * k <= -m
  {
  }

  /** The stored tax is the whole kobo nearest to the exact tax, the upper one of two. */
  lemma TaxWithinHalfKobo(lines: seq<Line>, bp: int)
    ensures var t := ComputeTotals(lines, Some(bp));
      && -5_000 < 10_000 * t.tax - t.subtotal * bp <= 5_000
      && t.total == t.subtotal + t.tax
  {
    var n := Subtotal(lines) * bp;
    HalfUpIsNearest(n, 10_000, HalfUp(n, 10_000));
  }

  lemma {:induction false} SubtotalOfConcat(a: seq<Line>, b: seq<Line>)
    ensures Subtotal(a + b) == Subtotal(a) + Subtotal(b)
  {
    if b == [] {
      assert a + b == a;
    } else {
      assert (a + b)[..|a + b| - 1] == a + b[..|b| - 1];
      SubtotalOfConcat(a, b[..|b| - 1]);
    }
  }

  // --- What a line costs ------------------------------------------------------------------------

  lemma SubtotalOfOne(l: Line)
    ensures Subtotal([l]) == LineTotal(l)
  {
    assert [l][..0] == [];
  }

  lemma SubtotalOfTwo(l: Line, m: Line)
    ensures Subtotal([l, m]) == LineTotal(l) + LineTotal(m)
  {
    SubtotalOfOne(l);
    assert [l, m][..1] == [l];
  }

  /** A single piece costs its price. */
  lemma OnePiece(p: int)
    ensures Subtotal([Line(1, p)]) == p
  {
    SubtotalOfOne(Line(1, p));
  }

  /** Pieces and prices of a line may be billed apart: in any invoice, at any rate, the totals stay. */
  lemma LinesSplit(front: seq<Line>, back: seq<Line>, a: int, b: int, p: int, q: int, rate: Option<int>)
    ensures ComputeTotals(front + [Line(a + b, p)] + back, rate) ==
      ComputeTotals(front + [Line(a, p), Line(b, p)] + back, rate)
    ensures ComputeTotals(front + [Line(a, p + q)] + back, rate) ==
      ComputeTotals(front + [Line(a, p), Line(a, q)] + back, rate)
  {
    hide ComputeTotals;
    SplitPieces(a, b, p);
    SplitPrice(a, p, q);
    SameTotals(front, [Line(a + b, p)], [Line(a, p), Line(b, p)], back, rate);
    SameTotals(front, [Line(a, p + q)], [Line(a, p), Line(a, q)], back, rate);
  }

  lemma SplitPieces(a: int, b: int, p: int)
    ensures Subtotal([Line(a + b, p)]) == Subtotal([Line(a, p), Line(b, p)])
  {
    SubtotalOfOne(Line(a + b, p));
    SubtotalOfTwo(Line(a, p), Line(b, p));
    hide Subtotal;
    Distribute(p, a, b);
  }

  lemma SplitPrice(a: int, p: int, q: int)
    ensures Subtotal([Line(a, p + q)]) == Subtotal([Line(a, p), Line(a, q)])
  {
    SubtotalOfOne(Line(a, p + q));
    SubtotalOfTwo(Line(a, p), Line(a, q));
    hide Subtotal;
    Distribute(a, p, q);
  }

  lemma SameTotals(front: seq<Line>, lines: seq<Line>, others: seq<Line>, back: seq<Line>, rate: Option<int>)
    requires Subtotal(lines) == Subtotal(others)
    ensures ComputeTotals(front + lines + back, rate) == ComputeTotals(front + others + back, rate)
  {
    Between(front, lines, back);
    Between(front, others, back);
  }

  lemma Between(front: seq<Line>, lines: seq<Line>, back: seq<Line>)
    ensures Subtotal(front + lines + back) == Subtotal(front) + Subtotal(lines) + Subtotal(back)
  {
    SubtotalOfConcat(front + lines, back);
    SubtotalOfConcat(front, lines);
  }

  /** A line of `n` pieces costs what `n` lines of one piece cost. */
  lemma {:induction false} PieceByPiece(n: nat, p: int)
    ensures Subtotal([Line(n, p)]) == Subtotal(seq(n, _ => Line(1, p)))
  {
    SubtotalOfOne(Line(n, p));
    if n > 0 {
      PieceByPiece(n - 1, p);
      SubtotalOfOne(Line(n - 1, p));
      Distribute(p, n - 1, 1);
      assert seq(n, _ => Line(1, p))[..n - 1] == seq(n - 1, _ => Line(1, p));
    }
  }

  lemma WithoutElement(b: seq<Line>, i: nat)
    requires i < |b|
    ensures multiset(b) == multiset(b[..i] + b[i + 1..]) + multiset{b[i]}
  {
    assert b == b[..i] + [b[i]] + b[i + 1..];
  }

  /** One line more or less, wherever it stands. */
  lemma WithoutLine(b: seq<Line>, i: nat)
    requires i < |b|
    ensures Subtotal(b) == Subtotal(b[..i] + b[i + 1..]) + LineTotal(b[i])
  {
    hide LineTotal, Subtotal;
    var left, right := b[..i], b[i + 1..];
    assert b == left + [b[i]] + right;
    Between(left, [b[i]], right);
    SubtotalOfOne(b[i]);
    SubtotalOfConcat(left, right);
  }

  lemma RestsAgree(a: seq<Line>, b: seq<Line>, i: nat)
    requires multiset(a) == multiset(b) && a != [] && i < |b| && b[i] == a[|a| - 1]
    ensures multiset(a[..|a| - 1]) == multiset(b[..i] + b[i + 1..])
  {
    hide Subtotal, LineTotal;
    WithoutElement(a, |a| - 1);
    WithoutElement(b, i);
    assert a[..|a| - 1] + a[|a|..] == a[..|a| - 1];
    assert multiset(a) - multiset{b[i]} == multiset(a[..|a| - 1]);
    assert multiset(b) - multiset{b[i]} == multiset(b[..i] + b[i + 1..]);
  }

  /** The order of the lines does not matter. */
  lemma {:induction false} SubtotalIgnoresOrder(a: seq<Line>, b: seq<Line>)
    requires multiset(a) == multiset(b)
    ensures Subtotal(a) == Subtotal(b)
    decreases |a|
  {
    hide LineTotal;
    if a == [] {
      assert |multiset(b)| == 0;
    } else {
      var last := a[|a| - 1];
      assert last in multiset(b);
      var i :| 0 <= i < |b| && b[i] == last;
      RestsAgree(a, b, i);
      WithoutLine(b, i);
      SubtotalIgnoresOrder(a[..|a| - 1], b[..i] + b[i + 1..]);
    }
  }

  lemma {:induction false} SubtotalNonNegative(lines: seq<Line>)
    requires forall l :: l in lines ==> LineTotal(l) >= 0
    ensures Subtotal(lines) >= 0
  {
    if lines != [] {
      SubtotalNonNegative(lines[..|lines| - 1]);
      assert lines[|lines| - 1] in lines;
    }
  }

  /** A larger rate never lowers the total of non-negative lines. */
  lemma TotalGrowsWithRate(lines: seq<Line>, bp: int, bp': int)
    requires forall l :: l in lines ==> LineTotal(l) >= 0
    requires bp <= bp'
    ensures ComputeTotals(lines, Some(bp)).total <= ComputeTotals(lines, Some(bp')).total
  {
    SubtotalNonNegative(lines);
    var s := Subtotal(lines);
    assert s * bp <= s * bp';
    HalfUpMonotone(s * bp, s * bp', 10_000);
  }

  lemma HalfUpMonotone(m: int, n: int, d: int)
    requires d > 0 && m <= n
    ensures HalfUp(m, d) <= HalfUp(n, d)
  {
    var r, q := HalfUp(m, d), HalfUp(n, d);
    HalfUpIsNearest(m, d, r);
    HalfUpIsNearest(n, d, q);
    Distribute(d, q, r - q);
    NonzeroMultiple(d, r - q);
  }
}
